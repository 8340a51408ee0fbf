/** KeysightChannelNode.py: the channel node of the Keysight two-channel
    generators, with a validated function shape, a pulse width checked
    against the pulse period, and the arbitrary-waveform parameters. */
module KeysightChannelNode {
  import opened PyText
  import opened FunctionGenerator

  /** The function shapes the Keysight generators accept. */
  const Shapes: set<string> := {"SIN", "SQU", "RAMP", "NRAM", "TRI", "PULS", "NOIS", "PRBS", "ARB", "DC"}

  const OutputLoad: Descriptor := Descriptor("outputLoad", "OUTPut" + ChannelPlaceholder + ":LOAD", None)
  const FunctionShape: Descriptor := Descriptor("functionShape", "SOURce" + ChannelPlaceholder + ":FUNCtion", None)
  const PulseWidth: Descriptor := Descriptor("pulseWidth", "SOURce" + ChannelPlaceholder + ":FUNC:PULS:WIDT", Some(SecondsFormat))
  const PulsePeriod: Descriptor := Descriptor("pulsePeriod", "SOURce" + ChannelPlaceholder + ":FUNC:PULS:PER", Some(SecondsFormat))
  const ArbitraryForm: Descriptor := Descriptor("arbitraryForm", "SOURce" + ChannelPlaceholder + ":FUNC:ARB", None)
  const LoadForm: Descriptor := Descriptor("loadForm", "MMEMory:LOAD:DATA" + ChannelPlaceholder, None)
  const ArbitraryPeriod: Descriptor := Descriptor("arbitraryPeriod", "SOURce" + ChannelPlaceholder + ":FUNC:ARB:PER", Some(SecondsFormat))
  const RampSymmetry: Descriptor := Descriptor("rampSymmetry", "SOURce" + ChannelPlaceholder + ":FUNC:RAMP:SYMM", Some(SecondsFormat))
  const TriggerSource: Descriptor := Descriptor("triggerSource", "TRIG" + ChannelPlaceholder + ":SOUR", None)
  const TriggerTime: Descriptor := Descriptor("triggerTime", "TRIG" + ChannelPlaceholder + ":TIM", Some(SecondsFormat))

  class KeysightChannelNode {
    /** The inherited part: the on/off parameters, burst cycles and status. */
    const base: ChannelNodeBase
    var functionShape: string
    var pulseWidth: Option<Float>
    var pulsePeriod: Option<Float>

    /** The inherited fields are valid and the shape is one the generator accepts. */
    ghost predicate Valid()
      reads this, base
    {
      base.Valid() && functionShape in Shapes
    }

    constructor ()
      ensures Valid() && fresh(base)
      ensures functionShape == "SIN" && pulseWidth == None && pulsePeriod == None
      ensures base.status == None
    {
      base := new ChannelNodeBase();
      functionShape := "SIN";
      pulseWidth := None;
      pulsePeriod := None;
    }

    /** The functionShape setter: the string form of the reply is stored when
        it is one of the shapes; otherwise the shape stays, the status names
        the reply, and nothing is raised. */
    method FunctionShapeSetter(value: Value)
      requires Valid()
      modifies this`functionShape, base`status
      ensures Valid()
      ensures Str(value) in Shapes ==> functionShape == Str(value) && base.status == old(base.status)
      ensures Str(value) !in Shapes ==>
                functionShape == old(functionShape) && base.status == Some(ShapeMessage(Str(value)))
    {
      var s := Str(value);
      if Accepts(Shapes, StrV(s)) {
        functionShape := s;
      } else {
        base.status := Some(ShapeMessage(s));
      }
    }

    /** The pulseWidth setter: with no period or a zero period any width is
        stored; a width above the period is refused with a status naming both;
        any other width is stored. The status is only written on refusal. */
    method PulseWidthSetter(value: Float)
      requires Valid()
      modifies this`pulseWidth, base`status
      ensures Valid()
      ensures PulseWidthAccepted(value, pulsePeriod) ==> pulseWidth == Some(value) && base.status == old(base.status)
      ensures !PulseWidthAccepted(value, pulsePeriod) ==>
                pulseWidth == old(pulseWidth) && base.status == Some(KeysightWidthMessage(value, pulsePeriod.value))
      ensures WidthWithinPeriod(old(pulseWidth), pulsePeriod) ==> WidthWithinPeriod(pulseWidth, pulsePeriod)
    {
      if pulsePeriod.None? || RealOf(pulsePeriod.value) == 0.0 {
        pulseWidth := Some(value);
        return;
      }
      if RealOf(value) > RealOf(pulsePeriod.value) {
        base.status := Some(KeysightWidthMessage(value, pulsePeriod.value));
      } else {
        pulseWidth := Some(value);
      }
    }
  }

  /** Pulse width, pulse period, arbitrary period, ramp symmetry and trigger
      time are sent as the channel's address, a space, the value (translated
      if it is a shape name) and " s". */
  lemma PulseWidthCommand(value: Value, channelAlias: string, deviceFormat: string)
    ensures CreateNodeCommand(PulseWidth, value, channelAlias, deviceFormat)
            == Some("SOURce" + channelAlias + ":FUNC:PULS:WIDT" + " " + Str(ShapeLookup(FuncShapeDecodeAsWritten, value)) + " s")
  {
    SecondsFormatShape();
    NodeCommandShape(FuncShapeDecodeAsWritten, PulseWidth, "SOURce", ":FUNC:PULS:WIDT", " ", " s", value, channelAlias, deviceFormat);
  }

  lemma PulsePeriodCommand(value: Value, channelAlias: string, deviceFormat: string)
    ensures CreateNodeCommand(PulsePeriod, value, channelAlias, deviceFormat)
            == Some("SOURce" + channelAlias + ":FUNC:PULS:PER" + " " + Str(ShapeLookup(FuncShapeDecodeAsWritten, value)) + " s")
  {
    SecondsFormatShape();
    NodeCommandShape(FuncShapeDecodeAsWritten, PulsePeriod, "SOURce", ":FUNC:PULS:PER", " ", " s", value, channelAlias, deviceFormat);
  }

  lemma ArbitraryPeriodCommand(value: Value, channelAlias: string, deviceFormat: string)
    ensures CreateNodeCommand(ArbitraryPeriod, value, channelAlias, deviceFormat)
            == Some("SOURce" + channelAlias + ":FUNC:ARB:PER" + " " + Str(ShapeLookup(FuncShapeDecodeAsWritten, value)) + " s")
  {
    SecondsFormatShape();
    NodeCommandShape(FuncShapeDecodeAsWritten, ArbitraryPeriod, "SOURce", ":FUNC:ARB:PER", " ", " s", value, channelAlias, deviceFormat);
  }

  lemma RampSymmetryCommand(value: Value, channelAlias: string, deviceFormat: string)
    ensures CreateNodeCommand(RampSymmetry, value, channelAlias, deviceFormat)
            == Some("SOURce" + channelAlias + ":FUNC:RAMP:SYMM" + " " + Str(ShapeLookup(FuncShapeDecodeAsWritten, value)) + " s")
  {
    SecondsFormatShape();
    NodeCommandShape(FuncShapeDecodeAsWritten, RampSymmetry, "SOURce", ":FUNC:RAMP:SYMM", " ", " s", value, channelAlias, deviceFormat);
  }

  lemma TriggerTimeCommand(value: Value, channelAlias: string, deviceFormat: string)
    ensures CreateNodeCommand(TriggerTime, value, channelAlias, deviceFormat)
            == Some("TRIG" + channelAlias + ":TIM" + " " + Str(ShapeLookup(FuncShapeDecodeAsWritten, value)) + " s")
  {
    SecondsFormatShape();
    NodeCommandShape(FuncShapeDecodeAsWritten, TriggerTime, "TRIG", ":TIM", " ", " s", value, channelAlias, deviceFormat);
  }

  /** The trigger source is queried at "TRIG", the channel alias, ":SOUR", then "?\n". */
  lemma TriggerSourceQuery(channelAlias: string)
    ensures CreateNodeQuery(TriggerSource, channelAlias) == Some("TRIG" + channelAlias + ":SOUR" + "?\n")
  {
    QueryOfChannel("triggerSource", "TRIG", ":SOUR", None, channelAlias);
  }

  /** The placeholder may close the alias: the waveform load address is the
      fixed text with the channel alias appended. */
  lemma LoadFormAddress(channelAlias: string)
    ensures NodeAddress(LoadForm.alias, channelAlias) == Some("MMEMory:LOAD:DATA" + channelAlias)
    ensures channelAlias == "2" ==> NodeAddress(LoadForm.alias, channelAlias) == Some("MMEMory:LOAD:DATA" + "2")
  {
    assert LoadForm.alias == "MMEMory:LOAD:DATA" + ChannelPlaceholder + "";
    AddressOfChannel("MMEMory:LOAD:DATA", "", channelAlias);
    assert "MMEMory:LOAD:DATA" + channelAlias + "" == "MMEMory:LOAD:DATA" + channelAlias;
  }

  /** The human names whose token the Keysight generators accept. */
  const NamedShapes: set<string> :=
    {"Sine", "Square", "Ramp", "Triangle", "Pulse", "Noise", "PRBS", "Arbitrary", "DC"}

  /** Through the table as written, which the Keysight nodes use, a name
      reaches a Keysight shape exactly when it is one of NamedShapes; "NRAM"
      is the one shape no name reaches. */
  lemma NamesReachShapes()
    ensures forall h :: h in FuncShapeDecodeAsWritten ==> (FuncShapeDecodeAsWritten[h] in Shapes <==> h in NamedShapes)
  {
  }

  lemma ShapesReachedFromNames()
    ensures forall t :: t in Shapes && t != "NRAM" ==>
              t in ShapeNameOfAsWritten && ShapeNameOfAsWritten[t] in FuncShapeDecodeAsWritten && FuncShapeDecodeAsWritten[ShapeNameOfAsWritten[t]] == t
    ensures forall h :: h in FuncShapeDecodeAsWritten ==> FuncShapeDecodeAsWritten[h] != "NRAM"
  {
    ShapeNameOfAsWrittenInverse();
    FuncShapeDecodeAsWrittenInverse();
    assert "NRAM" !in ShapeNameOfAsWritten;
  }
}
