/** KeysightBase.py: the device base class of the Keysight generators. It
    adds the front-panel display switch and the discovery of the arbitrary
    waveforms stored on the instrument. */
module KeysightBase {
  import opened PyText
  import opened FunctionGenerator

  // ---------------------------------------------------------------------------
  // display_setter

  /** The display switch: 0 (an int or a float equal to it), "0" and "OFF"
      read as "OFF", every other value as "ON". */
  function DisplayNormalize(v: Value): (r: string)
    ensures r in OnOffOptions
  {
    if (v.IntV? && v.i == 0) || (v.FloatV? && RealOf(v.f) == 0.0) || v == StrV("0") || v == StrV("OFF")
    then "OFF" else "ON"
  }

  /** Reading the display's own value back changes nothing. */
  lemma DisplayIdempotent(v: Value)
    ensures DisplayNormalize(StrV(DisplayNormalize(v))) == DisplayNormalize(v)
  {
  }

  /** On the canonical replies (ON, OFF, 0, 1, "0", "1") the display switch
      and on_off_setter agree. */
  lemma DisplayAgreesWithOnOff(v: Value)
    requires v in {StrV("ON"), StrV("OFF"), IntV(0), IntV(1), StrV("0"), StrV("1")}
    ensures OnOffNormalize(v) == StrV(DisplayNormalize(v))
  {
    OnOffCanonical();
  }

  /** Elsewhere they part: "2" turns the display on where on_off_setter
      refuses it. */
  lemma DisplayAcceptsWhatOnOffRefuses()
    ensures DisplayNormalize(StrV("2")) == "ON" && !Accepts(OnOffOptions, OnOffNormalize(StrV("2")))
  {
    ParseTwo();
  }

  /** And "0" after leading whitespace (" 0", say), which `int()` reads as 0,
      turns the display on where on_off_setter stores "OFF". */
  lemma DisplayOnWhereOnOffIsOff(c: char)
    requires IsSpace(c)
    ensures DisplayNormalize(StrV([c] + "0")) == "ON" && OnOffNormalize(StrV([c] + "0")) == StrV("OFF")
  {
    SpaceZeroReadsOff(c);
    SpaceZeroShowsOn(c);
  }

  lemma SpaceZeroReadsOff(c: char)
    requires IsSpace(c)
    ensures OnOffNormalize(StrV([c] + "0")) == StrV("OFF")
  {
    SpaceZeroParses(c);
    var s := [c] + "0";
    assert |s| == 2 && s[0] == c;
    assert s != "ON" && s != "OFF";
  }

  lemma SpaceZeroParses(c: char)
    requires IsSpace(c)
    ensures ParseInt([c] + "0") == Some(0)
  {
    ParseZero();
    ParseIntIgnoresLeadingSpace(c, "0");
  }

  lemma SpaceZeroShowsOn(c: char)
    requires IsSpace(c)
    ensures DisplayNormalize(StrV([c] + "0")) == "ON"
  {
    var s := [c] + "0";
    assert |s| == 2 && s[0] == c;
    assert s != "0" && s != "OFF";
  }

  lemma ParseZero()
    ensures ParseInt("0") == Some(0)
  {
    ParseIntOfDigit(0);
    assert [DigitChar(0)] == "0";
  }

  lemma ParseTwo()
    ensures ParseInt("2") == Some(2)
  {
    ParseIntOfDigit(2);
    assert [DigitChar(2)] == "2";
  }

  // ---------------------------------------------------------------------------
  // arbs_setter

  /** A catalog field names a waveform when it mentions ".arb" or ".seq". */
  predicate IsWaveformFile(a: string) {
    Contains(a, ".arb") || Contains(a, ".seq")
  }

  /** A stored waveform name: a waveform file without surrounding quotes. */
  predicate IsWaveformName(x: string) {
    IsWaveformFile(x) && (|x| > 0 ==> x[0] != '"' && x[|x| - 1] != '"')
  }

  lemma ExtensionsHaveNoQuote()
    ensures forall k :: 0 <= k < |".arb"| ==> ".arb"[k] != '"'
    ensures forall k :: 0 <= k < |".seq"| ==> ".seq"[k] != '"'
  {
  }

  /** The fields that name waveforms, in order, each with its quotes stripped. */
  function KeepWaveforms(fields: seq<string>): (r: seq<string>)
    ensures |r| <= |fields|
    ensures forall x :: x in r ==> IsWaveformName(x)
  {
    if fields == [] then []
    else
      var rest := KeepWaveforms(fields[1..]);
      var a := fields[0];
      if IsWaveformFile(a) then
        ExtensionsHaveNoQuote();
        if Contains(a, ".arb") then StripKeepsSubstring(a, '"', ".arb"); [StripChar(a, '"')] + rest
        else StripKeepsSubstring(a, '"', ".seq"); [StripChar(a, '"')] + rest
      else rest
  }

  /** arbs_setter's parse of a catalog reply: its comma-separated fields that
      name waveforms, quotes stripped, in reply order. */
  function ParseArbCatalog(reply: string): (r: seq<string>)
    ensures |r| <= |Split(reply, ',')|
    ensures forall x :: x in r ==> IsWaveformName(x)
  {
    KeepWaveforms(Split(reply, ','))
  }

  /** A name is kept exactly when some field names a waveform and strips to it. */
  lemma {:induction false} KeepWaveformsMembers(fields: seq<string>, x: string)
    ensures x in KeepWaveforms(fields) <==> exists a :: a in fields && IsWaveformFile(a) && StripChar(a, '"') == x
  {
    if fields != [] {
      KeepWaveformsMembers(fields[1..], x);
      assert forall a :: a in fields <==> a == fields[0] || a in fields[1..];
    }
  }

  /** Filtering distributes over concatenation, so the order of the fields is kept. */
  lemma {:induction false} KeepWaveformsAppend(xs: seq<string>, ys: seq<string>)
    ensures KeepWaveforms(xs + ys) == KeepWaveforms(xs) + KeepWaveforms(ys)
  {
    if xs != [] {
      assert (xs + ys)[0] == xs[0];
      assert (xs + ys)[1..] == xs[1..] + ys;
      KeepWaveformsAppend(xs[1..], ys);
    } else {
      assert xs + ys == ys;
    }
  }

  /** The catalog entries of a reply are those of the entry before a comma
      followed by those of the rest. */
  lemma ArbCatalogAppend(a: string, b: string)
    ensures ParseArbCatalog(a + "," + b) == ParseArbCatalog(a) + ParseArbCatalog(b)
  {
    assert a + "," + b == a + [','] + b;
    SplitAppend(a, b, ',');
    KeepWaveformsAppend(Split(a, ','), Split(b, ','));
  }

  /** A reply without commas is one field: kept, stripped, when it names a
      waveform, and dropped otherwise. */
  lemma ArbCatalogSingleField(s: string)
    requires forall k :: 0 <= k < |s| ==> s[k] != ','
    ensures ParseArbCatalog(s) == if IsWaveformFile(s) then [StripChar(s, '"')] else []
  {
    SplitNoSeparator(s, ',');
    assert [s][1..] == [];
  }

  /** The instrument lists each file as a quoted "name,type,size" triple, so
      the split cuts it in three: the name keeps its opening quote and the
      size its closing one. Only the name is kept, unquoted. */
  lemma ArbCatalogQuotedEntry(file: string, kind: string, size: string)
    requires forall k :: 0 <= k < |file| ==> file[k] != ',' && file[k] != '"'
    requires forall k :: 0 <= k < |kind| ==> kind[k] != ','
    requires forall k :: 0 <= k < |size| ==> size[k] != ','
    requires IsWaveformFile(file) && !IsWaveformFile(kind) && !IsWaveformFile(size + "\"")
    ensures ParseArbCatalog("\"" + file + "," + kind + "," + size + "\"") == [file]
  {
    var name, last := "\"" + file, size + "\"";
    assert "\"" + file + "," + kind + "," + size + "\"" == name + "," + (kind + "," + last);
    ArbCatalogAppend(name, kind + "," + last);
    ArbCatalogAppend(kind, last);
    assert forall k :: 0 <= k < |name| ==> name[k] != ',' by {
      forall k | 0 <= k < |name| ensures name[k] != ',' {
        if k > 0 { assert name[k] == file[k - 1]; }
      }
    }
    assert forall k :: 0 <= k < |last| ==> last[k] != ',' by {
      forall k | 0 <= k < |last| ensures last[k] != ',' {
        if k < |size| { assert last[k] == size[k]; }
      }
    }
    ArbCatalogSingleField(name);
    ArbCatalogSingleField(kind);
    ArbCatalogSingleField(last);
    assert name[1..] == file;
    assert IsWaveformFile(name);
    assert |file| > 0;
    StripLeadingOne(file, '"');
  }

  /** A name is in the parsed catalog exactly when some field of the reply
      names a waveform and strips to it. */
  lemma ArbCatalogMembers(reply: string, x: string)
    ensures x in ParseArbCatalog(reply)
            <==> exists a :: a in Split(reply, ',') && IsWaveformFile(a) && StripChar(a, '"') == x
  {
    KeepWaveformsMembers(Split(reply, ','), x);
  }

  // ---------------------------------------------------------------------------
  // The arbs query and getArbs

  /** The catalog query: the alias, "? " and the (quoted) path, then a newline. */
  const ArbsFormat: string := "{alias}? {value}\n"
  const Arbs: Descriptor := Descriptor("arbs", "MMEMory:CAT:DATA:ARB", Some(ArbsFormat))

  /** The default waveform folder, `INT:\BUILTIN`. */
  const DefaultArbPath: string := "INT:\\BUILTIN"

  /** getArbs wraps the path in double quotes. */
  function QuotedPath(path: string): (r: string)
    ensures |r| == |path| + 2 && r[0] == '"' && r[|r| - 1] == '"' && r[1..|r| - 1] == path
  {
    "\"" + path + "\""
  }

  lemma ArbsFormatShape()
    ensures ArbsFormat == AliasValueTemplate("? ", "\n")
  {
    assert "{alias}? {value}\n" == "{" + "alias" + "}" + "? " + "{" + "value" + "}" + "\n";
  }

  /** The request getArbs sends: the catalog query carrying the quoted path,
      whatever the path holds; whatever the instrument replies is read back. */
  lemma ArbsRequest(path: string, reply: string, deviceFormat: string)
    ensures DeviceCommand(Arbs, StrV(QuotedPath(path)), deviceFormat)
            == Some("MMEMory:CAT:DATA:ARB" + "? " + QuotedPath(path) + "\n")
    ensures ReadCommandResult(Arbs.key, reply) == Some(reply)
  {
    ArbsFormatShape();
    DeviceCommandShape(Arbs, "? ", "\n", StrV(QuotedPath(path)), deviceFormat);
  }

  class KeysightBase {
    /** The inherited part: the system-error parameter. */
    const device: FunctionGenerator
    var display: string
    var arbPath: string
    /** `arb_options`: None until a catalog reply has been parsed. */
    var arbOptions: Option<seq<string>>
    /** The options and default installed on availableArbs; None before any. */
    var availableArbs: Option<seq<string>>
    var availableArbsDefault: Option<string>

    /** The display is ON or OFF, every parsed or installed waveform is a
        stripped waveform name, and installed options are non-empty with
        their first element as the default. */
    ghost predicate Valid()
      reads this, device
    {
      device.Valid()
      && display in OnOffOptions
      && (arbOptions.Some? ==> forall x :: x in arbOptions.value ==> IsWaveformName(x))
      && (availableArbs.Some? ==>
            |availableArbs.value| > 0 && availableArbsDefault == Some(availableArbs.value[0])
            && forall x :: x in availableArbs.value ==> IsWaveformName(x))
      && (availableArbs.None? ==> availableArbsDefault.None?)
    }

    constructor ()
      ensures Valid() && fresh(device)
      ensures display == "OFF" && arbPath == DefaultArbPath && arbOptions == None
      ensures availableArbs == None && availableArbsDefault == None
    {
      device := new FunctionGenerator();
      display := "OFF";
      arbPath := DefaultArbPath;
      arbOptions := None;
      availableArbs := None;
      availableArbsDefault := None;
    }

    /** display_setter: stores the normalised switch position; it never fails. */
    method DisplaySetter(value: Value)
      requires Valid()
      modifies this`display
      ensures Valid()
      ensures display == DisplayNormalize(value)
      ensures (value.IntV? && value.i == 0) || value == StrV("0") || value == StrV("OFF") ==> display == "OFF"
    {
      if (value.IntV? && value.i == 0) || (value.FloatV? && RealOf(value.f) == 0.0)
         || value == StrV("0") || value == StrV("OFF") {
        display := "OFF";
      } else {
        display := "ON";
      }
    }

    /** arbs_setter: the parsed catalog replaces arb_options. */
    method ArbsSetter(reply: string)
      requires Valid()
      modifies this`arbOptions
      ensures Valid()
      ensures arbOptions == Some(ParseArbCatalog(reply))
    {
      arbOptions := Some(ParseArbCatalog(reply));
    }

    /** getArbs: sends the catalog query for the quoted path (returned as
        `request`), hands the instrument's reply to arbs_setter, and installs
        the parsed names as the options of availableArbs, the first as the
        default, only when there is at least one. */
    method GetArbs(reply: string) returns (request: Option<string>)
      requires Valid()
      modifies this`arbOptions, this`availableArbs, this`availableArbsDefault
      ensures Valid()
      ensures request == Some("MMEMory:CAT:DATA:ARB" + "? " + QuotedPath(arbPath) + "\n")
      ensures arbOptions == Some(ParseArbCatalog(reply))
      ensures |ParseArbCatalog(reply)| > 0 ==>
                availableArbs == Some(ParseArbCatalog(reply)) && availableArbsDefault == Some(ParseArbCatalog(reply)[0])
      ensures |ParseArbCatalog(reply)| == 0 ==>
                availableArbs == old(availableArbs) && availableArbsDefault == old(availableArbsDefault)
    {
      request := DeviceCommand(Arbs, StrV(QuotedPath(arbPath)), DefaultCommandFormat);
      ArbsRequest(arbPath, reply, DefaultCommandFormat);
      var answer := ReadCommandResult(Arbs.key, reply);
      ArbsSetter(answer.value);
      var options := arbOptions.value;
      if |options| > 0 {
        availableArbs := Some(options);
        availableArbsDefault := Some(options[0]);
      }
    }
  }
}
