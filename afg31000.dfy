/** AFG31000.py: the Tektronix AFG31000 schema. Its channel node adds a
    validated function shape and a pulse width checked against the pulse
    period; the device adds a bounded internal trigger period. */
module AFG31000 {
  import opened PyText
  import opened FunctionGenerator

  /** The function shapes the AFG accepts. */
  const Shapes: set<string> :=
    {"SIN", "SQU", "PULS", "RAMP", "PRN", "DC", "SINC", "GAUS", "LOR", "ERIS", "EDEC", "EMEM"}

  /** The aliases of the two channel nodes the device installs. */
  const Channels: seq<string> := ["1", "2"]

  const FunctionShape: Descriptor := Descriptor("functionShape", "SOURce" + ChannelPlaceholder + ":FUNCtion", None)
  const PulseWidth: Descriptor := Descriptor("pulseWidth", "SOURce" + ChannelPlaceholder + ":PULS:WIDT", Some(SecondsFormat))
  const PulsePeriod: Descriptor := Descriptor("pulsePeriod", "SOURce" + ChannelPlaceholder + ":PULS:PER", Some(SecondsFormat))
  const BurstDelay: Descriptor := Descriptor("burstDelay", "SOURce" + ChannelPlaceholder + ":BURS:TDEL", Some(SecondsFormat))
  const TriggerTime: Descriptor := Descriptor("triggerTime", "TRIG:TIM", Some(SecondsFormat))

  /** The inclusive bounds of the internal trigger period: 1e-6 s and 500.0 s. */
  const MinTriggerTime: Float := Float(1, -6)
  const MaxTriggerTime: Float := Float(500, 0)

  function WidthMessage(value: Float, period: Float): string {
    "Invalid value for pulseWidth: " + FloatRepr(value) + ". Has to be smaller than the period " + FloatRepr(period)
  }

  predicate TriggerTimeInRange(t: Float) {
    RealOf(MinTriggerTime) <= RealOf(t) <= RealOf(MaxTriggerTime)
  }

  class AFGChannelNode {
    /** The inherited part: the on/off parameters, burst cycles and status. */
    const base: ChannelNodeBase
    var functionShape: string
    var pulseWidth: Option<Float>
    var pulsePeriod: Option<Float>

    /** The inherited fields are valid and the shape is one the AFG accepts. */
    ghost predicate Valid()
      reads this, base
    {
      base.Valid() && functionShape in Shapes
    }

    constructor ()
      ensures Valid() && fresh(base)
      ensures functionShape == "PULS" && pulseWidth == None && pulsePeriod == None
      ensures base.status == None
    {
      base := new ChannelNodeBase();
      functionShape := "PULS";
      pulseWidth := None;
      pulsePeriod := None;
    }

    /** The functionShape setter: the string form of the reply is stored when
        it is one of the shapes; otherwise the shape stays, the status names
        the reply, and nothing is raised. */
    method FunctionShapeSetter(value: Value)
      requires Valid()
      modifies this`functionShape, base`status
      ensures Valid()
      ensures Str(value) in Shapes ==> functionShape == Str(value) && base.status == old(base.status)
      ensures Str(value) !in Shapes ==>
                functionShape == old(functionShape) && base.status == Some(ShapeMessage(Str(value)))
    {
      var s := Str(value);
      if Accepts(Shapes, StrV(s)) {
        functionShape := s;
      } else {
        base.status := Some(ShapeMessage(s));
      }
    }

    /** The pulseWidth setter: with no period or a zero period any width is
        stored; a width above the period is refused with a status naming both;
        any other width is stored. The status is only written on refusal. */
    method PulseWidthSetter(value: Float)
      requires Valid()
      modifies this`pulseWidth, base`status
      ensures Valid()
      ensures PulseWidthAccepted(value, pulsePeriod) ==> pulseWidth == Some(value) && base.status == old(base.status)
      ensures !PulseWidthAccepted(value, pulsePeriod) ==>
                pulseWidth == old(pulseWidth) && base.status == Some(WidthMessage(value, pulsePeriod.value))
      ensures WidthWithinPeriod(old(pulseWidth), pulsePeriod) ==> WidthWithinPeriod(pulseWidth, pulsePeriod)
    {
      if pulsePeriod.None? || RealOf(pulsePeriod.value) == 0.0 {
        pulseWidth := Some(value);
        return;
      } else if RealOf(value) > RealOf(pulsePeriod.value) {
        base.status := Some(WidthMessage(value, pulsePeriod.value));
      } else {
        pulseWidth := Some(value);
      }
    }
  }

  class AFG31000 {
    /** The inherited part: the system-error parameter. */
    const device: FunctionGenerator
    var triggerTime: Float

    ghost predicate Valid()
      reads this, device
    {
      device.Valid() && TriggerTimeInRange(triggerTime)
    }

    constructor ()
      ensures Valid() && fresh(device) && triggerTime == Float(10, 0)
    {
      device := new FunctionGenerator();
      triggerTime := Float(10, 0);
    }

    /** Assigning triggerTime: the declared bounds refuse a value outside
        [1e-6, 500.0] and the field keeps its value. */
    method TriggerTimeSetter(t: Float) returns (refused: bool)
      requires Valid()
      modifies this`triggerTime
      ensures Valid()
      ensures refused <==> !TriggerTimeInRange(t)
      ensures triggerTime == if refused then old(triggerTime) else t
    {
      refused := !TriggerTimeInRange(t);
      if !refused {
        triggerTime := t;
      }
    }
  }

  /** Both bounds and the default are in range; zero and 600 s are not. */
  lemma TriggerTimeBounds()
    ensures TriggerTimeInRange(MinTriggerTime) && TriggerTimeInRange(MaxTriggerTime)
    ensures TriggerTimeInRange(Float(10, 0))
    ensures !TriggerTimeInRange(Float(0, 0)) && !TriggerTimeInRange(Float(600, 0))
    ensures !TriggerTimeInRange(Float(9, -7))
  {
    assert Pow10(6) == 1000000;
    assert Pow10(7) == 10000000;
  }

  /** The bounds print as the source writes them. */
  lemma TriggerTimeBoundsText()
    ensures FloatRepr(MinTriggerTime) == "1e-06" && FloatRepr(MaxTriggerTime) == "500.0"
  {
    assert StripZeros(1, -6) == (1, -6);
    assert NatToString(1) == "1" && NatToString(6) == "6";
    assert StripZeros(500, 0) == (5, 2);
    assert NatToString(5) == "5" && Zeros(2) == "00";
  }

  /** Pulse width, pulse period and burst delay are sent as the channel's
      address, a space, the value (translated if it is a shape name) and " s". */
  lemma PulseWidthCommand(value: Value, channelAlias: string, deviceFormat: string)
    ensures CreateNodeCommand(PulseWidth, value, channelAlias, deviceFormat)
            == Some("SOURce" + channelAlias + ":PULS:WIDT" + " " + Str(ShapeLookup(FuncShapeDecodeAsWritten, value)) + " s")
  {
    SecondsFormatShape();
    NodeCommandShape(FuncShapeDecodeAsWritten, PulseWidth, "SOURce", ":PULS:WIDT", " ", " s", value, channelAlias, deviceFormat);
  }

  lemma PulsePeriodCommand(value: Value, channelAlias: string, deviceFormat: string)
    ensures CreateNodeCommand(PulsePeriod, value, channelAlias, deviceFormat)
            == Some("SOURce" + channelAlias + ":PULS:PER" + " " + Str(ShapeLookup(FuncShapeDecodeAsWritten, value)) + " s")
  {
    SecondsFormatShape();
    NodeCommandShape(FuncShapeDecodeAsWritten, PulsePeriod, "SOURce", ":PULS:PER", " ", " s", value, channelAlias, deviceFormat);
  }

  lemma BurstDelayCommand(value: Value, channelAlias: string, deviceFormat: string)
    ensures CreateNodeCommand(BurstDelay, value, channelAlias, deviceFormat)
            == Some("SOURce" + channelAlias + ":BURS:TDEL" + " " + Str(ShapeLookup(FuncShapeDecodeAsWritten, value)) + " s")
  {
    SecondsFormatShape();
    NodeCommandShape(FuncShapeDecodeAsWritten, BurstDelay, "SOURce", ":BURS:TDEL", " ", " s", value, channelAlias, deviceFormat);
  }

  /** The function shape has no template of its own: under the framework
      default it is sent as the address, a space, the value looked up in the
      source's table, and a newline. */
  lemma FunctionShapeCommand(value: Value, channelAlias: string)
    ensures CreateNodeCommand(FunctionShape, value, channelAlias, DefaultCommandFormat)
            == Some("SOURce" + channelAlias + ":FUNCtion" + " " + Str(ShapeLookup(FuncShapeDecodeAsWritten, value)) + "\n")
  {
    DefaultCommandFormatShape();
    NodeCommandShape(FuncShapeDecodeAsWritten, FunctionShape, "SOURce", ":FUNCtion", " ", "\n", value, channelAlias, DefaultCommandFormat);
  }

  /** The trigger time is sent at device level as "TRIG:TIM", a space, the value and " s". */
  lemma TriggerTimeCommand(value: Value, deviceFormat: string)
    ensures DeviceCommand(TriggerTime, value, deviceFormat) == Some("TRIG:TIM" + " " + Str(value) + " s")
  {
    SecondsFormatShape();
    DeviceCommandShape(TriggerTime, " ", " s", value, deviceFormat);
  }

  /** Each channel queries the pulse width at its own address, and the two
      addresses differ only in the channel digit. */
  lemma ChannelQueries(channelAlias: string)
    ensures CreateNodeQuery(PulseWidth, channelAlias) == Some("SOURce" + channelAlias + ":PULS:WIDT" + "?\n")
    ensures NodeAddress(PulseWidth.alias, Channels[0]).Some? && NodeAddress(PulseWidth.alias, Channels[1]).Some?
    ensures DifferOnlyAt(NodeAddress(PulseWidth.alias, Channels[0]).value, NodeAddress(PulseWidth.alias, Channels[1]).value, 6)
  {
    QueryOfChannel("pulseWidth", "SOURce", ":PULS:WIDT", Some(SecondsFormat), channelAlias);
    AddressesDifferOnlyInChannel("SOURce", ":PULS:WIDT", Channels[0], Channels[1]);
  }

  /** The human names whose token the AFG accepts, with the corrected table. */
  const NamedShapes: set<string> :=
    {"Sine", "Square", "Ramp", "Pulse", "DC", "PR Noise", "Sin(x)/x", "Lorentz",
     "Exponential Rise", "Exponential Decay"}

  /** As written, "Exponential Rise" is sent as "ERSI", which is not among
      the AFG's shapes, and no name is sent as the AFG's own "ERIS". */
  lemma ExponentialRiseAsWritten(channelAlias: string)
    ensures CreateNodeCommand(FunctionShape, StrV("Exponential Rise"), channelAlias, DefaultCommandFormat)
            == Some("SOURce" + channelAlias + ":FUNCtion" + " " + "ERSI" + "\n")
    ensures "ERSI" !in Shapes
    ensures forall h :: h in FuncShapeDecodeAsWritten ==> FuncShapeDecodeAsWritten[h] != "ERIS"
  {
    ExponentialRiseCommand(StrV("Exponential Rise"), channelAlias);
    NoNameGivesERIS();
  }

  lemma ExponentialRiseCommand(v: Value, channelAlias: string)
    requires v == StrV("Exponential Rise")
    ensures CreateNodeCommand(FunctionShape, v, channelAlias, DefaultCommandFormat)
            == Some("SOURce" + channelAlias + ":FUNCtion" + " " + "ERSI" + "\n")
  {
    FunctionShapeCommand(v, channelAlias);
    ExponentialRiseToken();
  }

  lemma ExponentialRiseToken()
    ensures Str(ShapeLookup(FuncShapeDecodeAsWritten, StrV("Exponential Rise"))) == "ERSI"
  {
  }

  lemma NoNameGivesERIS()
    ensures "ERSI" !in Shapes
    ensures forall h :: h in FuncShapeDecodeAsWritten ==> FuncShapeDecodeAsWritten[h] != "ERIS"
  {
  }

  /** With the corrected table a human name is sent as its token; that token
      is one the AFG accepts exactly when the name is one of NamedShapes, and
      "Exponential Rise" is sent as "ERIS". */
  lemma CorrectedShapeCommand(name: string, channelAlias: string)
    requires name in FuncShapeDecode
    ensures CreateNodeCommandCorrected(FunctionShape, StrV(name), channelAlias, DefaultCommandFormat)
            == Some("SOURce" + channelAlias + ":FUNCtion" + " " + FuncShapeDecode[name] + "\n")
    ensures FuncShapeDecode[name] in Shapes <==> name in NamedShapes
    ensures name == "Exponential Rise" ==> FuncShapeDecode[name] == "ERIS" && "ERIS" in Shapes
  {
    DefaultCommandFormatShape();
    NodeCommandShape(FuncShapeDecode, FunctionShape, "SOURce", ":FUNCtion", " ", "\n", StrV(name), channelAlias,
                     DefaultCommandFormat);
    NamesReachShapes();
  }

  /** With the corrected table a name reaches an AFG shape exactly when it is
      one of NamedShapes. */
  lemma NamesReachShapes()
    ensures forall h :: h in FuncShapeDecode ==> (FuncShapeDecode[h] in Shapes <==> h in NamedShapes)
  {
  }

  /** Every AFG shape but the two without a human name ("GAUS", "EMEM") is
      reached, with the corrected table, from the name ShapeNameOf gives. */
  lemma ShapesReachedFromNames()
    ensures forall t :: t in Shapes && t != "GAUS" && t != "EMEM" ==>
              t in ShapeNameOf && ShapeNameOf[t] in FuncShapeDecode && FuncShapeDecode[ShapeNameOf[t]] == t
  {
    ShapeNameOfInverse();
  }

  /** "Sine" reaches a valid shape and "Triangle" does not. */
  lemma ShapeExamples()
    ensures ShapeLookup(FuncShapeDecode, StrV("Sine")) == StrV("SIN") && "SIN" in Shapes
    ensures ShapeLookup(FuncShapeDecode, StrV("Triangle")) == StrV("TRI") && "TRI" !in Shapes
    ensures ShapeLookup(FuncShapeDecode, StrV("Exponential Rise")) == StrV("ERIS") && "ERIS" in Shapes
  {
  }
}
