/** The channel layouts ("stem formats") the plug-in group declares to the host.

    For each preferred (inputs, outputs) configuration of the plug-in, the
    group creates one effect type whose input and output stem formats come
    from the channel counts; a side with no channels borrows the other side's
    count. */
module RtasStems {

  datatype StemFormat =
    | Generic | Mono | Stereo | LCR | Quad
    | FiveDotZero | FiveDotOne | SixDotOne | SevenDotOne | SevenDotOneDts

  /** The number of channels a stem format carries; Generic carries none in
      particular. This is the partner against which getFormatForChans is proved. */
  function ChannelCount(f: StemFormat): nat {
    match f
    case Generic => 0
    case Mono => 1
    case Stereo => 2
    case LCR => 3
    case Quad => 4
    case FiveDotZero => 5
    case FiveDotOne => 6
    case SixDotOne => 7
    case SevenDotOne => 8
    case SevenDotOneDts => 8
  }

  /** getFormatForChans. `sdkVersionMajor` is the SDK's PT_VERS_MAJOR, which
      decides which 7.1 layout eight channels get. */
  function FormatForChans(numChans: int, sdkVersionMajor: int): (f: StemFormat)
    ensures 1 <= numChans <= 8 ==> ChannelCount(f) == numChans
    ensures !(1 <= numChans <= 8) ==> f == Generic
    ensures numChans == 8 ==> (f == SevenDotOneDts <==> sdkVersionMajor >= 9)
  {
    match numChans
    case 0 => Generic
    case 1 => Mono
    case 2 => Stereo
    case 3 => LCR
    case 4 => Quad
    case 5 => FiveDotZero
    case 6 => FiveDotOne
    case 7 => SixDotOne
    case 8 => if sdkVersionMajor >= 9 then SevenDotOneDts else SevenDotOne
    case _ => Generic
  }

  /** The eight valid channel counts get eight different formats. */
  lemma FormatForChansInjective(a: int, b: int, sdkVersionMajor: int)
    requires 1 <= a <= 8 && 1 <= b <= 8
    requires FormatForChans(a, sdkVersionMajor) == FormatForChans(b, sdkVersionMajor)
    ensures a == b
  {
  }

  /** One entry of JucePlugin_PreferredChannelConfigurations. */
  datatype ChannelConfig = ChannelConfig(numIns: int, numOuts: int)

  /** The (input, output) stem formats CreateEffectTypes declares for
      `config`. A side with no channels takes the other side's format, so an
      instrument (0 inputs) or an analyser (0 outputs) declares the same
      format on both sides; otherwise each side's format carries its own
      count. */
  function StemPair(config: ChannelConfig, sdkVersionMajor: int): (stems: (StemFormat, StemFormat))
    ensures config.numIns == 0 ==> stems.0 == stems.1
    ensures config.numOuts == 0 ==> stems.0 == stems.1
    ensures 1 <= config.numIns <= 8 ==> ChannelCount(stems.0) == config.numIns
    ensures 1 <= config.numOuts <= 8 ==> ChannelCount(stems.1) == config.numOuts
    ensures config.numIns == 0 && config.numOuts == 0 ==> stems == (Generic, Generic)
  {
    (FormatForChans(if config.numIns != 0 then config.numIns else config.numOuts, sdkVersionMajor),
     FormatForChans(if config.numOuts != 0 then config.numOuts else config.numIns, sdkVersionMajor))
  }

  /** The four-character code 'jcaa' that numbers the first effect type. */
  const FirstEffectTypeId: int := 0x6A636161

  /** An effect type as CreateEffectTypes defines it. */
  datatype EffectType = EffectType(typeId: int, inputFormat: StemFormat, outputFormat: StemFormat)

  /** CreateEffectTypes: one effect type per configuration, numbered from 'jcaa'. */
  method CreateEffectTypes(configs: seq<ChannelConfig>, sdkVersionMajor: int) returns (types: seq<EffectType>)
    ensures |types| == |configs|
    ensures forall i :: 0 <= i < |configs| ==>
      types[i].typeId == FirstEffectTypeId + i &&
      (types[i].inputFormat, types[i].outputFormat) == StemPair(configs[i], sdkVersionMajor)
    ensures forall i, j :: 0 <= i < j < |types| ==> types[i].typeId != types[j].typeId
  {
    types := [];
    var i := 0;
    while i < |configs|
      invariant 0 <= i <= |configs|
      invariant |types| == i
      invariant forall k :: 0 <= k < i ==>
        types[k].typeId == FirstEffectTypeId + k &&
        (types[k].inputFormat, types[k].outputFormat) == StemPair(configs[k], sdkVersionMajor)
    {
      var stems := StemPair(configs[i], sdkVersionMajor);
      types := types + [EffectType(FirstEffectTypeId + i, stems.0, stems.1)];
      i := i + 1;
    }
  }
}
