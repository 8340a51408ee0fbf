/** FunctionGenerator.py: the channel-node base class that every model's
    channel nodes extend, the device base class, the table of human-readable
    function-shape names, and the builders of the query and command strings
    for parameters that live in a channel node. */
module FunctionGenerator {
  import opened PyText

  /** What the string builders read from a parameter declaration: its key,
      its alias template and, when it declares one, its command template. */
  datatype Descriptor = Descriptor(key: string, alias: string, commandFormat: Option<string>)

  /** The framework's command template, used when a descriptor declares none.
      The framework itself is not part of this model; this is its default. */
  const DefaultCommandFormat: string := "{alias} {value}\n"

  const OnOffOptions: set<string> := {"ON", "OFF"}

  /** The command template every model gives its parameters in seconds. */
  const SecondsFormat: string := "{alias} {value} s"

  lemma SecondsFormatShape()
    ensures SecondsFormat == AliasValueTemplate(" ", " s")
  {
    assert "{alias} {value} s" == "{" + "alias" + "}" + " " + "{" + "value" + "}" + " s";
  }

  /** The status the function-shape setters of the AFG and Keysight channel
      nodes record for a reply outside their options. */
  function ShapeMessage(value: string): string {
    "Function shape return value " + value + " not one of the valid options"
  }

  /** The status the pulse-width setters of the two Keysight channel nodes
      record on refusal; the source joins its two sentences without a space. */
  function KeysightWidthMessage(value: Float, period: Float): string {
    "Invalid value for pulseWidth: " + FloatRepr(value) + ".Has to be smaller than the period " + FloatRepr(period)
  }

  /** The framework's options check on assignment, as set membership: the
      value must be a string among the declared options. */
  predicate Accepts(options: set<string>, v: Value) {
    v.StrV? && v.s in options
  }

  // ---------------------------------------------------------------------------
  // on_off_setter

  /** The integer 0 reads as "OFF", 1 as "ON", any other stays an integer. */
  function IntToOnOff(n: int): Value {
    if n == 0 then StrV("OFF") else if n == 1 then StrV("ON") else IntV(n)
  }

  /** The value on_off_setter hands to the options check: "ON" and "OFF" stay,
      anything `int()` can read becomes "OFF" for 0, "ON" for 1 and that int
      otherwise, and a string `int()` refuses stays as it is. */
  function OnOffNormalize(v: Value): (r: Value)
    ensures v == StrV("ON") || v == StrV("OFF") ==> r == v
    ensures r.StrV? ==> r == v || r.s in OnOffOptions
    ensures r.IntV? ==> IntReading(v) == Some(r.i) && r.i != 0 && r.i != 1
  {
    match v
    case StrV(s) =>
      if s == "ON" || s == "OFF" then v
      else (match ParseInt(s)
            case Some(n) => IntToOnOff(n)
            case None => v)
    case IntV(n) => IntToOnOff(n)
    case FloatV(f) => IntToOnOff(Trunc(f))
  }

  /** What `int(v)` gives for a value, when it gives anything. */
  function IntReading(v: Value): Option<int> {
    match v
    case StrV(s) => ParseInt(s)
    case IntV(n) => Some(n)
    case FloatV(f) => Some(Trunc(f))
  }

  /** on_off_setter stores a value exactly when it is "ON" or "OFF" already or
      `int()` reads it as 0 or 1; what it stores is "OFF" for 0 and "ON" for 1. */
  lemma OnOffAccepted(v: Value)
    ensures Accepts(OnOffOptions, OnOffNormalize(v))
            <==> v == StrV("ON") || v == StrV("OFF") || IntReading(v) == Some(0) || IntReading(v) == Some(1)
    ensures v != StrV("ON") && v != StrV("OFF") && IntReading(v) == Some(0) ==> OnOffNormalize(v) == StrV("OFF")
    ensures v != StrV("ON") && v != StrV("OFF") && IntReading(v) == Some(1) ==> OnOffNormalize(v) == StrV("ON")
  {
    match v
    case StrV(s) =>
      if s == "ON" || s == "OFF" {
        assert OnOffNormalize(v) == v;
      } else {
        var p := ParseInt(s);
        if p.Some? {
          assert OnOffNormalize(v) == IntToOnOff(p.value);
          IntToOnOffAccepted(p.value);
        } else {
          assert OnOffNormalize(v) == v;
        }
      }
    case IntV(n) => IntToOnOffAccepted(n);
    case FloatV(f) => IntToOnOffAccepted(Trunc(f));
  }

  /** An integer passes the options check exactly when it is 0 or 1. */
  lemma IntToOnOffAccepted(n: int)
    ensures Accepts(OnOffOptions, IntToOnOff(n)) <==> n == 0 || n == 1
  {
  }

  /** The canonical replies: "ON"/"OFF" are kept, 0 and "0" give "OFF", 1 and "1" give "ON". */
  lemma OnOffCanonical()
    ensures OnOffNormalize(StrV("ON")) == StrV("ON") && OnOffNormalize(StrV("OFF")) == StrV("OFF")
    ensures OnOffNormalize(IntV(0)) == StrV("OFF") && OnOffNormalize(StrV("0")) == StrV("OFF")
    ensures OnOffNormalize(IntV(1)) == StrV("ON") && OnOffNormalize(StrV("1")) == StrV("ON")
  {
    DigitReading(0);
    DigitReading(1);
    assert [DigitChar(0)] == "0" && [DigitChar(1)] == "1";
  }

  /** A one-digit reply reads as that digit's integer. */
  lemma DigitReading(d: nat)
    requires d < 10
    ensures OnOffNormalize(StrV([DigitChar(d)])) == IntToOnOff(d)
  {
    ParseIntOfDigit(d);
    assert [DigitChar(d)] != "ON" && [DigitChar(d)] != "OFF";
  }

  /** A zero led by one of the ASCII separators 28 to 31 is refused: `int()`
      does not skip those characters, so the reply stays as it is and fails
      the options check. */
  lemma OnOffRefusesSeparatorZero(c: char)
    requires 28 <= c as int <= 31
    ensures OnOffNormalize(StrV([c] + "0")) == StrV([c] + "0")
    ensures !Accepts(OnOffOptions, OnOffNormalize(StrV([c] + "0")))
  {
    var t := [c] + "0";
    ParseIntRefusesOtherLead(c, "0");
    assert t[0] == c && t[0] != 'O';
    OnOffKeepsUnreadable(t);
  }

  /** A string `int()` refuses, other than "ON" and "OFF", is left as it is
      and fails the options check. */
  lemma OnOffKeepsUnreadable(t: string)
    requires ParseInt(t).None? && t != "ON" && t != "OFF"
    ensures OnOffNormalize(StrV(t)) == StrV(t)
    ensures !Accepts(OnOffOptions, OnOffNormalize(StrV(t)))
  {
  }

  /** Normalising a normalised value changes nothing. */
  lemma {:induction false} OnOffNormalizeIdempotent(v: Value)
    ensures OnOffNormalize(OnOffNormalize(v)) == OnOffNormalize(v)
  {
    var r := OnOffNormalize(v);
    if r == StrV("ON") || r == StrV("OFF") {
    } else if r.IntV? {
      assert IntToOnOff(r.i) == r;
    } else {
      assert r == v;
    }
  }

  function OnOffMessage(key: string, v: Value): string {
    key + " return value " + Str(v) + " is not one of the valid options"
  }

  /** The two parameters on_off_setter is installed on. */
  datatype OnOffKey = OutputState | BurstState {
    function Name(): string {
      match this
      case OutputState => "outputState"
      case BurstState => "burstState"
    }
  }

  // ---------------------------------------------------------------------------
  // The channel-node base class

  /** The fields of ChannelNodeBase that its setters write. A field the
      source declares without a default value is None until first stored. */
  class ChannelNodeBase {
    var outputState: Option<string>
    var burstState: string
    var burstCycles: string
    var status: Option<string>

    /** Both on/off fields only ever hold one of their options. */
    ghost predicate Valid()
      reads this
    {
      (outputState.Some? ==> outputState.value in OnOffOptions) && burstState in OnOffOptions
    }

    function Stored(key: OnOffKey): Option<string>
      reads this
    {
      match key
      case OutputState => outputState
      case BurstState => Some(burstState)
    }

    constructor ()
      ensures Valid()
      ensures outputState == None && burstState == "OFF" && burstCycles == "INF" && status == None
    {
      outputState := None;
      burstState := "OFF";
      burstCycles := "INF";
      status := None;
    }

    /** on_off_setter: stores the normalised value if it passes the options
        check; otherwise records a status naming the key and the value,
        leaves the field as it was, and re-raises (`raised`). */
    method OnOffSetter(value: Value, key: OnOffKey) returns (raised: bool)
      requires Valid()
      modifies this
      ensures Valid()
      ensures raised <==> !Accepts(OnOffOptions, OnOffNormalize(value))
      ensures !raised ==> Stored(key) == Some(OnOffNormalize(value).s) && status == old(status)
      ensures raised ==> Stored(key) == old(Stored(key))
                         && status == Some(OnOffMessage(key.Name(), OnOffNormalize(value)))
      ensures key == OutputState ==> burstState == old(burstState)
      ensures key == BurstState ==> outputState == old(outputState)
      ensures burstCycles == old(burstCycles)
    {
      var v := OnOffNormalize(value);
      if Accepts(OnOffOptions, v) {
        match key {
          case OutputState => outputState := Some(v.s);
          case BurstState => burstState := v.s;
        }
        raised := false;
      } else {
        status := Some(OnOffMessage(key.Name(), v));
        raised := true;
      }
    }

    /** output_state_setter is on_off_setter on outputState. */
    method OutputStateSetter(value: Value) returns (raised: bool)
      requires Valid()
      modifies this
      ensures Valid()
      ensures raised <==> !Accepts(OnOffOptions, OnOffNormalize(value))
      ensures outputState == (if raised then old(outputState) else Some(OnOffNormalize(value).s))
      ensures status == (if raised then Some(OnOffMessage("outputState", OnOffNormalize(value))) else old(status))
      ensures burstState == old(burstState) && burstCycles == old(burstCycles)
    {
      raised := OnOffSetter(value, OutputState);
    }

    /** burst_state_setter is on_off_setter on burstState. */
    method BurstStateSetter(value: Value) returns (raised: bool)
      requires Valid()
      modifies this
      ensures Valid()
      ensures raised <==> !Accepts(OnOffOptions, OnOffNormalize(value))
      ensures burstState == (if raised then old(burstState) else OnOffNormalize(value).s)
      ensures status == (if raised then Some(OnOffMessage("burstState", OnOffNormalize(value))) else old(status))
      ensures outputState == old(outputState) && burstCycles == old(burstCycles)
    {
      raised := OnOffSetter(value, BurstState);
    }

    /** burst_cycles_setter: whatever arrives is stored as its string form. */
    method BurstCyclesSetter(value: Value)
      modifies this`burstCycles
      ensures burstCycles == Str(value)
      ensures value.StrV? ==> burstCycles == value.s
      ensures value.IntV? ==> ParseInt(burstCycles) == Some(value.i)
    {
      burstCycles := Str(value);
      if value.IntV? {
        ParseIntOfIntToString(value.i);
      }
    }
  }

  // ---------------------------------------------------------------------------
  // The device base class

  class FunctionGenerator {
    var systemError: Option<string>

    /** systemError never holds a "No error" reply. */
    ghost predicate Valid()
      reads this
    {
      systemError.Some? ==> !Contains(systemError.value, "No error")
    }

    constructor ()
      ensures Valid() && systemError == None
    {
      systemError := None;
    }

    /** system_error_setter: a reply containing "No error" is dropped, any
        other reply is stored. */
    method SystemErrorSetter(reply: string)
      requires Valid()
      modifies this`systemError
      ensures Valid()
      ensures systemError == if Contains(reply, "No error") then old(systemError) else Some(reply)
    {
      if !Contains(reply, "No error") {
        systemError := Some(reply);
      }
    }
  }

  /** The keys whose commands are answered by the instrument. */
  const ReplyingKeys: set<string> := {"arbs", "catalog", "currentArbForm"}

  /** readCommandResult: after a command for one of the replying keys, the
      reply line (read by the framework, here a parameter) is returned;
      after any other command there is nothing to read. */
  function ReadCommandResult(key: string, reply: string): (r: Option<string>)
    ensures key in ReplyingKeys <==> r.Some?
    ensures r.Some? ==> r.value == reply
  {
    if key in ReplyingKeys then Some(reply) else None
  }

  // ---------------------------------------------------------------------------
  // func_shape_decode

  /** The table exactly as the source writes it. */
  const FuncShapeDecodeAsWritten: map<string, string> :=
    map["Sine" := "SIN", "Square" := "SQU", "Ramp" := "RAMP", "Triangle" := "TRI",
        "Pulse" := "PULS", "Noise" := "NOIS", "PRBS" := "PRBS", "Arbitrary" := "ARB",
        "DC" := "DC", "PR Noise" := "PRN", "Sin(x)/x" := "SINC", "Lorentz" := "LOR",
        "Exponential Rise" := "ERSI", "Exponential Decay" := "EDEC", "Harvesine" := "HAV"]

  /** The table with the exponential-rise token spelled as the AFG option set
      spells it ("ERIS"); the corrected command builder uses this one. */
  const FuncShapeDecode: map<string, string> :=
    map["Sine" := "SIN", "Square" := "SQU", "Ramp" := "RAMP", "Triangle" := "TRI",
        "Pulse" := "PULS", "Noise" := "NOIS", "PRBS" := "PRBS", "Arbitrary" := "ARB",
        "DC" := "DC", "PR Noise" := "PRN", "Sin(x)/x" := "SINC", "Lorentz" := "LOR",
        "Exponential Rise" := "ERIS", "Exponential Decay" := "EDEC", "Harvesine" := "HAV"]

  /** The correction touches the one entry and nothing else. */
  lemma CorrectionIsOneEntry()
    ensures FuncShapeDecode == FuncShapeDecodeAsWritten["Exponential Rise" := "ERIS"]
  {
  }

  /** `table.get(value, value)`: a string key is replaced by its token, any
      other value passes through. */
  function ShapeLookup(table: map<string, string>, v: Value): (r: Value)
    ensures v.StrV? && v.s in table ==> r == StrV(table[v.s])
    ensures !(v.StrV? && v.s in table) ==> r == v
  {
    if v.StrV? && v.s in table then StrV(table[v.s]) else v
  }

  ghost predicate IdempotentTable(table: map<string, string>) {
    forall h :: h in table && table[h] in table ==> table[table[h]] == table[h]
  }

  ghost predicate InjectiveTable(table: map<string, string>) {
    forall a, b :: a in table && b in table && table[a] == table[b] ==> a == b
  }

  /** Looking a looked-up value up again changes nothing, in any table whose
      tokens that are also names map to themselves. */
  lemma ShapeLookupIdempotent(table: map<string, string>, v: Value)
    requires IdempotentTable(table)
    ensures ShapeLookup(table, ShapeLookup(table, v)) == ShapeLookup(table, v)
  {
    if v.StrV? && v.s in table {
      assert ShapeLookup(table, v) == StrV(table[v.s]);
    }
  }

  /** The name each token of the (corrected) table comes from. */
  const ShapeNameOf: map<string, string> :=
    map["SIN" := "Sine", "SQU" := "Square", "RAMP" := "Ramp", "TRI" := "Triangle",
        "PULS" := "Pulse", "NOIS" := "Noise", "PRBS" := "PRBS", "ARB" := "Arbitrary",
        "DC" := "DC", "PRN" := "PR Noise", "SINC" := "Sin(x)/x", "LOR" := "Lorentz",
        "ERIS" := "Exponential Rise", "EDEC" := "Exponential Decay", "HAV" := "Harvesine"]

  /** The tokens of the as-written table, each with the name it comes from. */
  const ShapeNameOfAsWritten: map<string, string> :=
    map["SIN" := "Sine", "SQU" := "Square", "RAMP" := "Ramp", "TRI" := "Triangle",
        "PULS" := "Pulse", "NOIS" := "Noise", "PRBS" := "PRBS", "ARB" := "Arbitrary",
        "DC" := "DC", "PRN" := "PR Noise", "SINC" := "Sin(x)/x", "LOR" := "Lorentz",
        "ERSI" := "Exponential Rise", "EDEC" := "Exponential Decay", "HAV" := "Harvesine"]

  /** A table with a left inverse is injective. */
  lemma InverseMakesInjective(table: map<string, string>, inverse: map<string, string>)
    requires forall h :: h in table ==> table[h] in inverse && inverse[table[h]] == h
    ensures InjectiveTable(table)
  {
    forall a, b | a in table && b in table && table[a] == table[b]
      ensures a == b
    {
      assert a == inverse[table[a]] == inverse[table[b]] == b;
    }
  }

  /** ShapeNameOf gives back the name of every token of the corrected table. */
  lemma FuncShapeDecodeInverse()
    ensures forall h :: h in FuncShapeDecode ==> FuncShapeDecode[h] in ShapeNameOf && ShapeNameOf[FuncShapeDecode[h]] == h
  {
  }

  /** Every token ShapeNameOf knows is reached, through the corrected table,
      from the name it gives. */
  lemma ShapeNameOfInverse()
    ensures forall t :: t in ShapeNameOf ==> ShapeNameOf[t] in FuncShapeDecode && FuncShapeDecode[ShapeNameOf[t]] == t
  {
  }

  /** Every token ShapeNameOfAsWritten knows is reached, through the table as
      written, from the name it gives. */
  lemma ShapeNameOfAsWrittenInverse()
    ensures forall t :: t in ShapeNameOfAsWritten ==>
              ShapeNameOfAsWritten[t] in FuncShapeDecodeAsWritten && FuncShapeDecodeAsWritten[ShapeNameOfAsWritten[t]] == t
  {
  }

  /** ShapeNameOfAsWritten gives back the name of every token of the as-written table. */
  lemma FuncShapeDecodeAsWrittenInverse()
    ensures forall h :: h in FuncShapeDecodeAsWritten ==>
              FuncShapeDecodeAsWritten[h] in ShapeNameOfAsWritten && ShapeNameOfAsWritten[FuncShapeDecodeAsWritten[h]] == h
  {
  }

  lemma AsWrittenIdempotent()
    ensures IdempotentTable(FuncShapeDecodeAsWritten)
  {
    forall h | h in FuncShapeDecodeAsWritten && FuncShapeDecodeAsWritten[h] in FuncShapeDecodeAsWritten
      ensures FuncShapeDecodeAsWritten[FuncShapeDecodeAsWritten[h]] == FuncShapeDecodeAsWritten[h]
    {
      assert FuncShapeDecodeAsWritten[h] in {"DC", "PRBS"};
    }
  }

  lemma CorrectedIdempotent()
    ensures IdempotentTable(FuncShapeDecode)
  {
    forall h | h in FuncShapeDecode && FuncShapeDecode[h] in FuncShapeDecode
      ensures FuncShapeDecode[FuncShapeDecode[h]] == FuncShapeDecode[h]
    {
      assert FuncShapeDecode[h] in {"DC", "PRBS"};
    }
  }

  /** Both tables are idempotent (the only tokens that are also names, "DC"
      and "PRBS", map to themselves) and injective (each token comes from
      one name). */
  lemma FuncShapeDecodeLaws()
    ensures IdempotentTable(FuncShapeDecodeAsWritten) && IdempotentTable(FuncShapeDecode)
    ensures InjectiveTable(FuncShapeDecodeAsWritten) && InjectiveTable(FuncShapeDecode)
  {
    AsWrittenIdempotent();
    CorrectedIdempotent();
    FuncShapeDecodeInverse();
    FuncShapeDecodeAsWrittenInverse();
    InverseMakesInjective(FuncShapeDecode, ShapeNameOf);
    InverseMakesInjective(FuncShapeDecodeAsWritten, ShapeNameOfAsWritten);
  }

  // ---------------------------------------------------------------------------
  // createNodeQuery / createNodeCommand

  function ChannelFields(channelAlias: string): map<string, string> {
    map["channel_no" := channelAlias]
  }

  /** The wire address of a node parameter: its alias template with the
      channel's alias formatted in. An alias without a placeholder is its
      own address. */
  function NodeAddress(alias: string, channelAlias: string): (r: Option<string>)
    ensures BraceFree(alias) ==> r == Some(alias)
  {
    if BraceFree(alias) then
      FormatBraceFree(alias, ChannelFields(channelAlias));
      Format(alias, ChannelFields(channelAlias))
    else
      Format(alias, ChannelFields(channelAlias))
  }

  /** createNodeQuery: the channel's address followed by "?\n". */
  function CreateNodeQuery(d: Descriptor, channelAlias: string): (r: Option<string>)
    ensures r.Some? <==> NodeAddress(d.alias, channelAlias).Some?
    ensures r.Some? ==> |r.value| >= 2 && r.value[|r.value| - 2..] == "?\n"
  {
    match NodeAddress(d.alias, channelAlias)
    case None => None
    case Some(address) => Some(address + "?\n")
  }

  /** The command builder over a given shape table: the descriptor's command
      template (or the device's) with the channel's address and the value,
      human shape names translated through `table`. There is no command
      where there is no address. */
  function NodeCommand(table: map<string, string>, d: Descriptor, value: Value, channelAlias: string,
                       deviceFormat: string): (r: Option<string>)
    ensures NodeAddress(d.alias, channelAlias).None? ==> r.None?
  {
    match NodeAddress(d.alias, channelAlias)
    case None => None
    case Some(address) =>
      Format(if d.commandFormat.Some? then d.commandFormat.value else deviceFormat,
             map["alias" := address, "value" := Str(ShapeLookup(table, value))])
  }

  /** createNodeCommand as written: shape names go through the source's own
      table, so "Exponential Rise" is sent as "ERSI". */
  function CreateNodeCommand(d: Descriptor, value: Value, channelAlias: string, deviceFormat: string): (r: Option<string>)
    ensures NodeAddress(d.alias, channelAlias).None? ==> r.None?
    ensures value != StrV("Exponential Rise") ==> r == CreateNodeCommandCorrected(d, value, channelAlias, deviceFormat)
  {
    LookupsAgreeOffTheCorrection(value);
    NodeCommand(FuncShapeDecodeAsWritten, d, value, channelAlias, deviceFormat)
  }

  /** createNodeCommand with the exponential-rise token spelled "ERIS". */
  function CreateNodeCommandCorrected(d: Descriptor, value: Value, channelAlias: string, deviceFormat: string): (r: Option<string>)
    ensures NodeAddress(d.alias, channelAlias).None? ==> r.None?
  {
    NodeCommand(FuncShapeDecode, d, value, channelAlias, deviceFormat)
  }

  /** The two tables translate every value but "Exponential Rise" alike. */
  lemma LookupsAgreeOffTheCorrection(value: Value)
    ensures value != StrV("Exponential Rise") ==>
              ShapeLookup(FuncShapeDecodeAsWritten, value) == ShapeLookup(FuncShapeDecode, value)
  {
    CorrectionIsOneEntry();
  }

  /** A device-scoped command as the framework builds it: the template with
      the alias and the value, no channel and no shape translation. */
  function DeviceCommand(d: Descriptor, value: Value, deviceFormat: string): Option<string> {
    Format(if d.commandFormat.Some? then d.commandFormat.value else deviceFormat,
           map["alias" := d.alias, "value" := Str(value)])
  }

  /** The placeholder as it appears in every channel-scoped alias. The
      models write each such alias as its text around this placeholder. */
  const ChannelPlaceholder: string := "{channel_no}"

  /** An alias with one placeholder addresses the channel: its text around the
      placeholder with the channel alias in between. */
  lemma AddressOfChannel(pre: string, post: string, channelAlias: string)
    requires BraceFree(pre) && BraceFree(post)
    ensures NodeAddress(pre + ChannelPlaceholder + post, channelAlias) == Some(pre + channelAlias + post)
  {
    assert pre + ChannelPlaceholder + post == pre + "{" + "channel_no" + "}" + post;
    FormatOnePlaceholder(pre, "channel_no", post, ChannelFields(channelAlias));
  }

  /** The query of such an alias is that address followed by "?\n". */
  lemma QueryOfChannel(key: string, pre: string, post: string, f: Option<string>, channelAlias: string)
    requires BraceFree(pre) && BraceFree(post)
    ensures CreateNodeQuery(Descriptor(key, pre + ChannelPlaceholder + post, f), channelAlias)
            == Some(pre + channelAlias + post + "?\n")
  {
    AddressOfChannel(pre, post, channelAlias);
  }

  /** A command template with the alias, then brace-free text `mid`, then the
      value, then brace-free text `suffix`. */
  function AliasValueTemplate(mid: string, suffix: string): string {
    "{" + "alias" + "}" + mid + "{" + "value" + "}" + suffix
  }

  /** Such a template formats to the alias, `mid`, the value and `suffix`. */
  lemma FormatAliasValue(mid: string, suffix: string, alias: string, value: string)
    requires BraceFree(mid) && BraceFree(suffix)
    ensures Format(AliasValueTemplate(mid, suffix), map["alias" := alias, "value" := value])
            == Some(alias + mid + value + suffix)
  {
    var fields := map["alias" := alias, "value" := value];
    var rest2 := "{" + "value" + "}" + suffix;
    var rest1 := mid + rest2;
    assert AliasValueTemplate(mid, suffix) == "{" + "alias" + "}" + rest1;
    calc {
      Format("{" + "alias" + "}" + rest1, fields);
      { FormatField("alias", rest1, fields); }
      Prepend(alias, Format(rest1, fields));
      { FormatLiteral(mid, rest2, fields); }
      Prepend(alias, Prepend(mid, Format(rest2, fields)));
      { FormatField("value", suffix, fields); FormatBraceFree(suffix, fields); }
      Prepend(alias, Prepend(mid, Some(value + suffix)));
      { assert alias + (mid + (value + suffix)) == alias + mid + value + suffix; }
      Some(alias + mid + value + suffix);
    }
  }

  /** The framework default is the alias, a space, the value and a newline. */
  lemma DefaultCommandFormatShape()
    ensures DefaultCommandFormat == AliasValueTemplate(" ", "\n")
  {
    assert "{alias} {value}\n" == "{" + "alias" + "}" + " " + "{" + "value" + "}" + "\n";
  }

  /** A node command whose alias has one channel placeholder and whose
      template is alias-text-value-text is the channel's address, the text,
      the (translated) value and the closing text. */
  lemma NodeCommandShape(table: map<string, string>, d: Descriptor, pre: string, post: string, mid: string,
                         suffix: string, value: Value, channelAlias: string, deviceFormat: string)
    requires d.alias == pre + ChannelPlaceholder + post
    requires d.commandFormat == Some(AliasValueTemplate(mid, suffix))
             || (d.commandFormat.None? && deviceFormat == AliasValueTemplate(mid, suffix))
    requires BraceFree(pre) && BraceFree(post) && BraceFree(mid) && BraceFree(suffix)
    ensures NodeAddress(d.alias, channelAlias) == Some(pre + channelAlias + post)
    ensures NodeCommand(table, d, value, channelAlias, deviceFormat)
            == Some(pre + channelAlias + post + mid + Str(ShapeLookup(table, value)) + suffix)
  {
    AddressOfChannel(pre, post, channelAlias);
    FormatAliasValue(mid, suffix, pre + channelAlias + post, Str(ShapeLookup(table, value)));
  }

  /** The same for a device-scoped command: the alias itself, the text, the
      value untranslated and the closing text. */
  lemma DeviceCommandShape(d: Descriptor, mid: string, suffix: string, value: Value, deviceFormat: string)
    requires d.commandFormat == Some(AliasValueTemplate(mid, suffix))
             || (d.commandFormat.None? && deviceFormat == AliasValueTemplate(mid, suffix))
    requires BraceFree(mid) && BraceFree(suffix)
    ensures DeviceCommand(d, value, deviceFormat) == Some(d.alias + mid + Str(value) + suffix)
  {
    FormatAliasValue(mid, suffix, d.alias, Str(value));
  }

  /** `x` and `y` have the same length and differ at index `k` and nowhere else. */
  predicate DifferOnlyAt(x: string, y: string, k: int) {
    |x| == |y| && 0 <= k < |x| && x[k] != y[k] && forall j :: 0 <= j < |x| && j != k ==> x[j] == y[j]
  }

  /** Two distinct one-character channel aliases give addresses that differ
      exactly at the placeholder's position. */
  lemma AddressesDifferOnlyInChannel(pre: string, post: string, a: string, b: string)
    requires BraceFree(pre) && BraceFree(post) && |a| == 1 && |b| == 1 && a != b
    ensures NodeAddress(pre + ChannelPlaceholder + post, a).Some?
    ensures NodeAddress(pre + ChannelPlaceholder + post, b).Some?
    ensures DifferOnlyAt(NodeAddress(pre + ChannelPlaceholder + post, a).value,
                         NodeAddress(pre + ChannelPlaceholder + post, b).value, |pre|)
  {
    AddressOfChannel(pre, post, a);
    AddressOfChannel(pre, post, b);
    var x, y := pre + a + post, pre + b + post;
    assert x[|pre|] == a[0] && y[|pre|] == b[0];
    assert a == [a[0]] && b == [b[0]];
    forall k | 0 <= k < |x| && k != |pre|
      ensures x[k] == y[k]
    {
      if k < |pre| {
        assert x[k] == pre[k] == y[k];
      } else {
        assert k > |pre|;
        assert x[k] == post[k - |pre| - 1];
        assert y[k] == post[k - |pre| - 1];
      }
    }
  }

  // ---------------------------------------------------------------------------
  // The pulse-width rule shared by the channel nodes of every model

  /** A pulse width is taken when the period is unknown or zero (`not
      self.pulsePeriod`), and otherwise only when it does not exceed the period. */
  predicate PulseWidthAccepted(width: Float, period: Option<Float>) {
    period.None? || RealOf(period.value) == 0.0 || RealOf(width) <= RealOf(period.value)
  }

  /** The stored width satisfies the rule against the stored period. */
  predicate WidthWithinPeriod(width: Option<Float>, period: Option<Float>) {
    width.None? || PulseWidthAccepted(width.value, period)
  }

  /** Under a known nonzero period the rule admits exactly the widths up to
      and including the period, and of two widths it admits the smaller
      whenever it admits the larger. */
  lemma PulseWidthRule(width: Float, smaller: Float, period: Option<Float>)
    requires RealOf(smaller) <= RealOf(width)
    ensures period.Some? && RealOf(period.value) != 0.0 ==>
              (PulseWidthAccepted(width, period) <==> RealOf(width) <= RealOf(period.value))
    ensures PulseWidthAccepted(width, period) ==> PulseWidthAccepted(smaller, period)
    ensures period.Some? ==> PulseWidthAccepted(period.value, period)
  {
  }
}
