/** Keysight33511.py: the single-channel Keysight 33511 generator. That file
    declares its own channel-node class. Its parameters, options, templates
    and setters are those of the class in KeysightChannelNode.py; it leaves
    out the framework's read-back flags and the pause after a refused pulse
    width, neither of which this model covers. The class is therefore shared
    here; this file's schema is written out below and proved equal to the
    shared one, and what the file adds is the one channel the device installs. */
module Keysight33511 {
  import opened PyText
  import opened FunctionGenerator
  import KeysightChannelNode

  /** The alias of the only channel node the device installs. */
  const Channels: seq<string> := ["1"]

  /** The function shapes the node of this file accepts. */
  const Shapes: set<string> := {"SIN", "SQU", "RAMP", "NRAM", "TRI", "PULS", "NOIS", "PRBS", "ARB", "DC"}

  /** The node's parameters as this file declares them. */
  const OutputLoad: Descriptor := Descriptor("outputLoad", "OUTPut" + ChannelPlaceholder + ":LOAD", None)
  const FunctionShape: Descriptor := Descriptor("functionShape", "SOURce" + ChannelPlaceholder + ":FUNCtion", None)
  const PulseWidth: Descriptor := Descriptor("pulseWidth", "SOURce" + ChannelPlaceholder + ":FUNC:PULS:WIDT", Some(SecondsFormat))
  const PulsePeriod: Descriptor := Descriptor("pulsePeriod", "SOURce" + ChannelPlaceholder + ":FUNC:PULS:PER", Some(SecondsFormat))
  const ArbitraryForm: Descriptor := Descriptor("arbitraryForm", "SOURce" + ChannelPlaceholder + ":FUNC:ARB", None)
  const LoadForm: Descriptor := Descriptor("loadForm", "MMEMory:LOAD:DATA" + ChannelPlaceholder, None)
  const ArbitraryPeriod: Descriptor := Descriptor("arbitraryPeriod", "SOURce" + ChannelPlaceholder + ":FUNC:ARB:PER", Some(SecondsFormat))
  const RampSymmetry: Descriptor := Descriptor("rampSymmetry", "SOURce" + ChannelPlaceholder + ":FUNC:RAMP:SYMM", Some(SecondsFormat))
  const TriggerSource: Descriptor := Descriptor("triggerSource", "TRIG" + ChannelPlaceholder + ":SOUR", None)
  const TriggerTime: Descriptor := Descriptor("triggerTime", "TRIG" + ChannelPlaceholder + ":TIM", Some(SecondsFormat))

  /** The schema of this file is the one of KeysightChannelNode.py, parameter
      by parameter, so the shared node class and its lemmas apply to it. */
  lemma SameSchema()
    ensures Shapes == KeysightChannelNode.Shapes
    ensures OutputLoad == KeysightChannelNode.OutputLoad && FunctionShape == KeysightChannelNode.FunctionShape
    ensures PulseWidth == KeysightChannelNode.PulseWidth && PulsePeriod == KeysightChannelNode.PulsePeriod
    ensures ArbitraryForm == KeysightChannelNode.ArbitraryForm && LoadForm == KeysightChannelNode.LoadForm
    ensures ArbitraryPeriod == KeysightChannelNode.ArbitraryPeriod && RampSymmetry == KeysightChannelNode.RampSymmetry
    ensures TriggerSource == KeysightChannelNode.TriggerSource && TriggerTime == KeysightChannelNode.TriggerTime
  {
  }

  /** Every channel-scoped query of the device addresses channel "1"; the
      trigger source, for one, is queried as "TRIG1:SOUR?\n". */
  lemma TriggerSourceQuery()
    ensures CreateNodeQuery(TriggerSource, Channels[0]) == Some("TRIG1:SOUR?\n")
  {
    SameSchema();
    KeysightChannelNode.TriggerSourceQuery(Channels[0]);
    TriggerSourceQueryText();
  }

  lemma TriggerSourceQueryText()
    ensures "TRIG" + "1" + ":SOUR" + "?\n" == "TRIG1:SOUR?\n"
  {
  }

  /** The pulse width and the trigger time of the channel go out with " s"
      after the value. */
  lemma SecondsCommands(value: Value, deviceFormat: string)
    ensures CreateNodeCommand(PulseWidth, value, Channels[0], deviceFormat)
            == Some("SOURce1:FUNC:PULS:WIDT" + " " + Str(ShapeLookup(FuncShapeDecodeAsWritten, value)) + " s")
    ensures CreateNodeCommand(TriggerTime, value, Channels[0], deviceFormat)
            == Some("TRIG1:TIM" + " " + Str(ShapeLookup(FuncShapeDecodeAsWritten, value)) + " s")
  {
    SameSchema();
    KeysightChannelNode.PulseWidthCommand(value, Channels[0], deviceFormat);
    KeysightChannelNode.TriggerTimeCommand(value, Channels[0], deviceFormat);
    AddressText();
  }

  lemma AddressText()
    ensures "SOURce" + "1" + ":FUNC:PULS:WIDT" == "SOURce1:FUNC:PULS:WIDT"
    ensures "TRIG" + "1" + ":TIM" == "TRIG1:TIM"
  {
  }
}
