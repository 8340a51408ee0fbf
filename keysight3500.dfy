/** Keysight3500.py: the two-channel Keysight generator whose channel node
    carries only pulse, frequency and trigger parameters. That node does not
    extend the channel-node base class, so it keeps its own status. */
module Keysight3500 {
  import opened PyText
  import opened FunctionGenerator

  /** The aliases of the two channel nodes the device installs. */
  const Channels: seq<string> := ["1", "2"]

  const HertzFormat: string := "{alias} {value} Hz"

  const PulseWidth: Descriptor := Descriptor("pulseWidth", "SOURce" + ChannelPlaceholder + ":FUNC:PULS:WIDT", Some(SecondsFormat))
  const PulsePeriod: Descriptor := Descriptor("pulsePeriod", "SOURce" + ChannelPlaceholder + ":FUNC:PULS:PER", Some(SecondsFormat))
  const Frequency: Descriptor := Descriptor("frequency", "SOURce" + ChannelPlaceholder + ":FUNCtion:ARBitrary:FREQ", Some(HertzFormat))
  const TriggerSource: Descriptor := Descriptor("triggerSource", "TRIG" + ChannelPlaceholder + ":SOUR", None)
  const TriggerTime: Descriptor := Descriptor("triggerTime", "TRIG" + ChannelPlaceholder + ":TIM", Some(SecondsFormat))

  /** The node's parameters, all of them channel-scoped. */
  const Descriptors: set<Descriptor> := {PulseWidth, PulsePeriod, Frequency, TriggerSource, TriggerTime}

  class KeysightChannelNode {
    var pulseWidth: Option<Float>
    var pulsePeriod: Option<Float>
    var status: Option<string>

    constructor ()
      ensures pulseWidth == None && pulsePeriod == None && status == None
    {
      pulseWidth := None;
      pulsePeriod := None;
      status := None;
    }

    /** The pulseWidth setter: with no period or a zero period any width is
        stored; a width above the period is refused with a status naming both;
        any other width is stored. The status is only written on refusal. */
    method PulseWidthSetter(value: Float)
      modifies this`pulseWidth, this`status
      ensures PulseWidthAccepted(value, pulsePeriod) ==> pulseWidth == Some(value) && status == old(status)
      ensures !PulseWidthAccepted(value, pulsePeriod) ==>
                pulseWidth == old(pulseWidth) && status == Some(KeysightWidthMessage(value, pulsePeriod.value))
      ensures WidthWithinPeriod(old(pulseWidth), pulsePeriod) ==> WidthWithinPeriod(pulseWidth, pulsePeriod)
    {
      if pulsePeriod.None? || RealOf(pulsePeriod.value) == 0.0 {
        pulseWidth := Some(value);
        return;
      }
      if RealOf(value) > RealOf(pulsePeriod.value) {
        status := Some(KeysightWidthMessage(value, pulsePeriod.value));
      } else {
        pulseWidth := Some(value);
      }
    }
  }

  lemma HertzFormatShape()
    ensures HertzFormat == AliasValueTemplate(" ", " Hz")
  {
    assert "{alias} {value} Hz" == "{" + "alias" + "}" + " " + "{" + "value" + "}" + " Hz";
  }

  /** The frequency goes out as the channel's address, a space, the value and " Hz". */
  lemma FrequencyCommand(value: Value, channelAlias: string, deviceFormat: string)
    ensures CreateNodeCommand(Frequency, value, channelAlias, deviceFormat)
            == Some("SOURce" + channelAlias + ":FUNCtion:ARBitrary:FREQ" + " " + Str(ShapeLookup(FuncShapeDecodeAsWritten, value)) + " Hz")
  {
    HertzFormatShape();
    NodeCommandShape(FuncShapeDecodeAsWritten, Frequency, "SOURce", ":FUNCtion:ARBitrary:FREQ", " ", " Hz", value, channelAlias, deviceFormat);
  }

  /** Pulse width, pulse period and trigger time go out with " s" after the value. */
  lemma PulseWidthCommand(value: Value, channelAlias: string, deviceFormat: string)
    ensures CreateNodeCommand(PulseWidth, value, channelAlias, deviceFormat)
            == Some("SOURce" + channelAlias + ":FUNC:PULS:WIDT" + " " + Str(ShapeLookup(FuncShapeDecodeAsWritten, value)) + " s")
  {
    SecondsFormatShape();
    NodeCommandShape(FuncShapeDecodeAsWritten, PulseWidth, "SOURce", ":FUNC:PULS:WIDT", " ", " s", value, channelAlias, deviceFormat);
  }

  lemma PulsePeriodCommand(value: Value, channelAlias: string, deviceFormat: string)
    ensures CreateNodeCommand(PulsePeriod, value, channelAlias, deviceFormat)
            == Some("SOURce" + channelAlias + ":FUNC:PULS:PER" + " " + Str(ShapeLookup(FuncShapeDecodeAsWritten, value)) + " s")
  {
    SecondsFormatShape();
    NodeCommandShape(FuncShapeDecodeAsWritten, PulsePeriod, "SOURce", ":FUNC:PULS:PER", " ", " s", value, channelAlias, deviceFormat);
  }

  lemma TriggerTimeCommand(value: Value, channelAlias: string, deviceFormat: string)
    ensures CreateNodeCommand(TriggerTime, value, channelAlias, deviceFormat)
            == Some("TRIG" + channelAlias + ":TIM" + " " + Str(ShapeLookup(FuncShapeDecodeAsWritten, value)) + " s")
  {
    SecondsFormatShape();
    NodeCommandShape(FuncShapeDecodeAsWritten, TriggerTime, "TRIG", ":TIM", " ", " s", value, channelAlias, deviceFormat);
  }

  /** Every parameter's alias has exactly one channel placeholder between
      brace-free text. */
  lemma AliasSplit(d: Descriptor) returns (pre: string, post: string)
    requires d in Descriptors
    ensures d.alias == pre + ChannelPlaceholder + post && BraceFree(pre) && BraceFree(post)
  {
    if d == PulseWidth {
      pre, post := "SOURce", ":FUNC:PULS:WIDT";
    } else if d == PulsePeriod {
      pre, post := "SOURce", ":FUNC:PULS:PER";
    } else if d == Frequency {
      pre, post := "SOURce", ":FUNCtion:ARBitrary:FREQ";
    } else if d == TriggerSource {
      pre, post := "TRIG", ":SOUR";
    } else {
      pre, post := "TRIG", ":TIM";
    }
  }

  /** For every parameter of the node, the two channels' addresses differ
      in exactly one character, the channel digit. */
  lemma ChannelAddressesDiffer(d: Descriptor)
    requires d in Descriptors
    ensures NodeAddress(d.alias, Channels[0]).Some? && NodeAddress(d.alias, Channels[1]).Some?
    ensures exists k :: DifferOnlyAt(NodeAddress(d.alias, Channels[0]).value, NodeAddress(d.alias, Channels[1]).value, k)
  {
    var pre, post := AliasSplit(d);
    AddressesDifferOnlyInChannel(pre, post, Channels[0], Channels[1]);
  }
}
