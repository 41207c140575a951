/** How the RTAS bridge numbers the host's controls and talks to them.

    When the effect is initialised the bridge registers the master bypass
    switch first and then one control per parameter of the processor; the
    host numbers controls from 1. So the bypass switch is control 1 and
    parameter p is control p + 2, in both directions: the host's updates of
    control c reach parameter c - 2, and the processor's change and gesture
    notifications for parameter p go to control p + 2. */
module RtasControls {

  /** bypassControlIndex */
  const BypassControlIndex: int := 1

  /** A control registered with the host. */
  datatype Control = MasterBypass | ParameterControl(parameter: nat)

  /** The controls in the order EffectInit registers them. */
  function RegisteredControls(numParameters: nat): (controls: seq<Control>)
  {
    [MasterBypass] + seq(numParameters, p requires 0 <= p < numParameters => ParameterControl(p))
  }

  /** The host control index of parameter `parameter`. */
  function ControlIndexOf(parameter: int): int {
    parameter + 2
  }

  /** The parameter that host control `controlIndex` stands for. */
  function ParameterOf(controlIndex: int): int {
    controlIndex - 2
  }

  /** Control 1 is the bypass switch and control p + 2 is parameter p, in the
      order the controls were registered; no parameter lands on the bypass
      control, and ParameterOf undoes ControlIndexOf. */
  lemma ControlNumbering(numParameters: nat, p: nat)
    requires p < numParameters
    ensures RegisteredControls(numParameters)[BypassControlIndex - 1] == MasterBypass
    ensures 1 <= ControlIndexOf(p) <= |RegisteredControls(numParameters)|
    ensures RegisteredControls(numParameters)[ControlIndexOf(p) - 1] == ParameterControl(p)
    ensures ControlIndexOf(p) != BypassControlIndex
    ensures ParameterOf(ControlIndexOf(p)) == p
  {
  }

  /** Every registered control other than the bypass switch is a parameter, and
      its index maps back to it. */
  lemma RegisteredControlIndices(numParameters: nat, c: int)
    requires 1 <= c <= |RegisteredControls(numParameters)| && c != BypassControlIndex
    ensures 0 <= ParameterOf(c) < numParameters
    ensures RegisteredControls(numParameters)[c - 1] == ParameterControl(ParameterOf(c))
  {
  }

  /** What an update of one control value from the host does inside the bridge:
      the bypass control sets the bypass flag, any other control sets a
      parameter of the processor, with the raw 32-bit control value. */
  datatype ControlUpdate = SetBypass(on: bool) | SetParameter(index: int, rawValue: int)

  /** The dispatch of UpdateControlValue. */
  function RouteControlUpdate(controlIndex: int, value: int): (u: ControlUpdate)
    ensures u.SetBypass? <==> controlIndex == BypassControlIndex
    ensures u.SetBypass? ==> (u.on <==> value > 0)
    ensures u.SetParameter? ==> ControlIndexOf(u.index) == controlIndex && u.rawValue == value
  {
    if controlIndex != BypassControlIndex then SetParameter(ParameterOf(controlIndex), value)
    else SetBypass(value > 0)
  }

  /** A call the bridge makes on the host's control surface. Values are the
      processor's normalised parameter values; their conversion to the host's
      32-bit fixed-point form is not part of this model. */
  datatype HostCall =
    | TouchControl(control: int)
    | SetControlValue(control: int, value: real)
    | ReleaseControl(control: int)

  /** audioProcessorParameterChangeGestureBegin: touch the parameter's control. */
  function GestureBegin(index: int): (call: HostCall)
    ensures call.TouchControl? && ParameterOf(call.control) == index
    ensures index >= 0 ==> call.control != BypassControlIndex
  {
    TouchControl(ControlIndexOf(index))
  }

  /** audioProcessorParameterChanged: set the parameter's control to its new value. */
  function ParameterChanged(index: int, newValue: real): (call: HostCall)
    ensures call.SetControlValue? && ParameterOf(call.control) == index && call.value == newValue
    ensures index >= 0 ==> call.control != BypassControlIndex
  {
    SetControlValue(ControlIndexOf(index), newValue)
  }

  /** audioProcessorParameterChangeGestureEnd: release the parameter's control. */
  function GestureEnd(index: int): (call: HostCall)
    ensures call.ReleaseControl? && ParameterOf(call.control) == index
    ensures index >= 0 ==> call.control != BypassControlIndex
  {
    ReleaseControl(ControlIndexOf(index))
  }

  /** A notification about a parameter never reaches the bypass control, and a
      host update of the control it names goes back to that same parameter. */
  lemma NotificationsRoundTrip(p: nat, v: real, raw: int)
    ensures GestureBegin(p).control != BypassControlIndex
    ensures ParameterChanged(p, v).control != BypassControlIndex
    ensures GestureEnd(p).control != BypassControlIndex
    ensures RouteControlUpdate(ParameterChanged(p, v).control, raw) == SetParameter(p, raw)
  {
  }

  /** touchAllParameters: for each parameter in ascending order, a gesture
      begin, the current value and a gesture end, all on its control.
      `values[p]` is the processor's getParameter (p). */
  method TouchAllParameters(values: seq<real>) returns (calls: seq<HostCall>)
    ensures |calls| == 3 * |values|
    ensures forall p :: 0 <= p < |values| ==>
      calls[3 * p] == TouchControl(p + 2) &&
      calls[3 * p + 1] == SetControlValue(p + 2, values[p]) &&
      calls[3 * p + 2] == ReleaseControl(p + 2)
    ensures forall k :: 0 <= k < |calls| ==> calls[k].control == k / 3 + 2 && calls[k].control != BypassControlIndex
  {
    calls := [];
    var i := 0;
    while i < |values|
      invariant 0 <= i <= |values|
      invariant |calls| == 3 * i
      invariant forall p :: 0 <= p < i ==>
        calls[3 * p] == TouchControl(p + 2) &&
        calls[3 * p + 1] == SetControlValue(p + 2, values[p]) &&
        calls[3 * p + 2] == ReleaseControl(p + 2)
      invariant forall k :: 0 <= k < |calls| ==> calls[k].control == k / 3 + 2
    {
      calls := calls + [GestureBegin(i), ParameterChanged(i, values[i]), GestureEnd(i)];
      i := i + 1;
    }
  }

  /** JucePluginControl::GetID: the host-visible identifier of parameter
      `index`'s control. */
  function ParameterControlId(index: nat): (id: int)
    ensures id >= 1
  {
    index + 1
  }

  /** The identifier 'bypa' of the master bypass control. */
  const BypassControlId: int := 0x62797061

  /** Distinct parameters have distinct control identifiers. */
  lemma ParameterControlIdsDistinct(i: nat, j: nat)
    requires ParameterControlId(i) == ParameterControlId(j)
    ensures i == j
  {
  }

  /** Every control the effect registers has its own identifier: the
      parameters' identifiers are 1 up to the number of parameters, so none
      of them is the bypass control's 'bypa' as long as there are fewer
      parameters than that code's value. */
  lemma ControlIdsUnique(numParameters: nat, i: nat, j: nat)
    requires i < numParameters && j < numParameters && numParameters < BypassControlId
    ensures 1 <= ParameterControlId(i) <= numParameters
    ensures ParameterControlId(i) != BypassControlId
    ensures ParameterControlId(i) == ParameterControlId(j) <==> i == j
  {
  }
}
