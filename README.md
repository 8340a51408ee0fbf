# FunctionGenerator parameter binding, in Dafny

This is a model of the parameter-binding layer of the European XFEL
FunctionGenerator device family. The family drives SCPI function generators:
a Tektronix AFG31000, a Keysight 33511, Keysight 33512-type two-channel units
and a Keysight 3500-type unit. SCPI (Standard Commands for Programmable
Instruments) is a line-oriented ASCII protocol. The devices sit on a framework
that connects, polls and reads replies; that framework is not part of this
model. What the repository itself adds, and what is modelled here, falls into
three parts:

- **The wire strings.** `createNodeQuery` and `createNodeCommand` put a
  channel's alias into a template such as `SOURce{channel_no}:VOLT:OFFS`.
  `createNodeCommand` also translates human shape names ("Sine") into
  instrument tokens ("SIN"). The result is formatted through the parameter's
  own `commandFormat` when it has one (for example `"{alias} {value} s"`),
  and through the device default otherwise.
- **The read-back setters.** These decide what an instrument reply does to the
  stored parameter and to the `status` text:
  - `on_off_setter` and the display switch normalise on/off replies.
  - The function-shape setters check the reply against the model's option set.
  - The pulse-width setters refuse a width above a known, nonzero period.
  - `systemError` drops "No error" replies.
  - `burstCycles` stores the string form of whatever arrives.
- **The waveform catalog.** The catalog reply is split at commas. Only the
  `.arb`/`.seq` entries are kept, with their quotes removed. `getArbs` sends
  the quoted path and installs the names found as the options of
  `availableArbs`, the first as the default.

There is one Dafny module per source file:

| file | module |
|---|---|
| `pytext.dfy` | `PyText` |
| `functiongenerator.dfy` | `FunctionGenerator` |
| `afg31000.dfy` | `AFG31000` |
| `keysightchannelnode.dfy` | `KeysightChannelNode` |
| `keysight33511.dfy` | `Keysight33511` |
| `keysight3500.dfy` | `Keysight3500` |
| `keysightbase.dfy` | `KeysightBase` |

`PyText` holds the pieces of Python's built-in behaviour that the source
relies on:
- `int(str)`, `int(float)`, `str(int)` and `str(float)`.
- `in` on strings.
- `str.split` at one character and its inverse `join`.
- `str.strip` of one character.
- `str.format` with named fields.

Modelling choices:
- **Values.** A value a setter receives is `IntV`, `StrV` or `FloatV`. A float
  is an exact decimal, mantissa times a power of ten, printed by Python's
  `repr` rule.
- **Options checks** are set membership.
- **Parameters without a default.** A parameter the source declares without a
  default value is `None` until it is first stored.
- **Classes.** A class whose fields the setters assign becomes a Dafny
  `class`. A channel node holds its `ChannelNodeBase` part as the field
  `base`, and a device holds its `FunctionGenerator` part as the field
  `device`, in place of inheritance.

**Keysight33511.py and KeysightChannelNode.py.** Keysight33511.py declares
its own `KeysightChannelNode` class. It has the same parameters, options,
templates and setters as KeysightChannelNode.py. It differs in two ways:
- It sets none of the framework's `commandReadBack` flags.
- Its pulse-width setter (Keysight33511.py:52-65) has no `await sleep(1)`
  after a refusal. KeysightChannelNode.py:59 has one.

Neither the flags nor the pause are part of this model. So the setters of
Keysight33511.py (Keysight33511.py:32-40 and 52-65) are modelled by the methods
of `KeysightChannelNode.KeysightChannelNode`. The `Keysight33511` module writes
out that file's own shapes and parameter declarations, and
`Keysight33511.SameSchema` proves them equal to the shared ones.

**The template used for a command:**
- A parameter's own `commandFormat` when it has one.
- Otherwise the device default, `deviceFormat`. The framework's own default
  is modelled as `"{alias} {value}\n"` (`DefaultCommandFormat`).

A device-level command (a parameter that is not in a channel node) is built by
the framework in the same way, from the parameter's alias and value with no
shape translation (`DeviceCommand`).

## Model

| member | source | states |
|---|---|---|
| `PyText.ParseIntOfIntToString` | src/FunctionGenerator/FunctionGenerator.py:27 | `int(str(n)) == n` for every integer `n`: the string form of an int reads back as that int |
| `PyText.ParseIntIgnoresLeadingSpace` | src/FunctionGenerator/FunctionGenerator.py:27 | `int()` gives the same result with one leading character it skips (space, tab, newline, vertical tab, form feed, carriage return) as without it |
| `PyText.ParseIntRefusesOtherLead` | src/FunctionGenerator/FunctionGenerator.py:27 | `int()` refuses digits led by a character it neither skips nor reads as a sign or digit, such as the ASCII separators 28 to 31 that `str.strip()` would remove |
| `PyText.ParseIntOfDigit` | src/FunctionGenerator/FunctionGenerator.py:27 | `int()` of a one-digit string is that digit |
| `PyText.TruncTowardZero` | src/FunctionGenerator/FunctionGenerator.py:27 | `int(x)` of a float has the sign of `x`, lies less than one away from it, and never goes beyond it |
| `PyText.ContainsAt` | src/FunctionGenerator/FunctionGenerator.py:225 | `sub in s` holds exactly when `sub` occurs in `s` at some index |
| `PyText.SplitFieldsHaveNoSeparator` | src/FunctionGenerator/KeysightBase.py:85 | no field `split(",")` returns contains a comma |
| `PyText.JoinSplit` | src/FunctionGenerator/KeysightBase.py:85 | joining the fields with the separator gives back the split string, so splitting loses nothing |
| `PyText.SplitAppend` | src/FunctionGenerator/KeysightBase.py:85 | splitting `a + sep + b` gives the fields of `a` followed by the fields of `b` |
| `PyText.SplitNoSeparator` | src/FunctionGenerator/KeysightBase.py:85 | a string without the separator splits into itself alone |
| `PyText.StripChar` | src/FunctionGenerator/KeysightBase.py:85 | `strip('"')` leaves no quote at either end and only removes quotes from the two ends |
| `PyText.StripLeadingOne` | src/FunctionGenerator/KeysightBase.py:85 | one leading quote before a string not starting or ending in a quote is removed, and nothing else is |
| `PyText.StripKeepsSubstring` | src/FunctionGenerator/KeysightBase.py:85-86 | stripping quotes keeps every occurrence of a substring that has no quote, such as ".arb" |
| `PyText.FormatLiteral` | src/FunctionGenerator/FunctionGenerator.py:261 | brace-free text at the front of a template is copied to the front of the result |
| `PyText.FormatField` | src/FunctionGenerator/FunctionGenerator.py:261 | a `{name}` at the front of a template is replaced by that field's value |
| `PyText.FormatOnePlaceholder` | src/FunctionGenerator/FunctionGenerator.py:261 | a template with one `{name}` between brace-free text formats to that text with the field's value in between |
| `PyText.FormatBraceFree` | src/FunctionGenerator/FunctionGenerator.py:261 | a template without braces formats to itself |
| `FunctionGenerator.OnOffNormalize` | src/FunctionGenerator/FunctionGenerator.py:25-33 | "ON" and "OFF" are left as they are. A string result is either the input unchanged or one of "ON"/"OFF". An integer result is what `int()` reads from the input, and it is neither 0 nor 1 |
| `FunctionGenerator.OnOffAccepted` | src/FunctionGenerator/FunctionGenerator.py:24-41 | a value passes the `{ON, OFF}` check after normalisation exactly when it is "ON" or "OFF" or `int()` reads it as 0 or 1 (both directions); 0 becomes "OFF" and 1 becomes "ON" |
| `FunctionGenerator.OnOffCanonical` | src/FunctionGenerator/FunctionGenerator.py:25-31 | "ON" and "OFF" are kept; `0` and `"0"` give "OFF"; `1` and `"1"` give "ON" |
| `FunctionGenerator.OnOffNormalizeIdempotent` | src/FunctionGenerator/FunctionGenerator.py:24-33 | normalising an already normalised value changes nothing |
| `FunctionGenerator.OnOffKeepsUnreadable` | src/FunctionGenerator/FunctionGenerator.py:25-38 | a string `int()` refuses, other than "ON" and "OFF", is passed on unchanged and fails the `{ON, OFF}` check |
| `FunctionGenerator.OnOffRefusesSeparatorZero` | src/FunctionGenerator/FunctionGenerator.py:25-34 | a "0" led by one of the ASCII separators 28 to 31 is left as it is, because `int()` raises, and so fails the `{ON, OFF}` check |
| `FunctionGenerator.ChannelNodeBase.constructor` | src/FunctionGenerator/FunctionGenerator.py:53-158 | initial state: outputState unset, burstState "OFF", burstCycles "INF", no status; the on/off invariant holds |
| `FunctionGenerator.ChannelNodeBase.OnOffSetter` | src/FunctionGenerator/FunctionGenerator.py:24-41 | raises exactly when the normalised value fails the options check. On success it stores that value and leaves status alone. On failure it keeps the field and sets status to "<key> return value <value> is not one of the valid options". Other fields are unchanged and the on/off invariant is kept |
| `FunctionGenerator.ChannelNodeBase.OutputStateSetter` | src/FunctionGenerator/FunctionGenerator.py:60-63 | exactly `on_off_setter` on outputState: new outputState and status as above; burstState and burstCycles untouched |
| `FunctionGenerator.ChannelNodeBase.BurstStateSetter` | src/FunctionGenerator/FunctionGenerator.py:137-140 | exactly `on_off_setter` on burstState: new burstState and status as above; outputState and burstCycles untouched |
| `FunctionGenerator.ChannelNodeBase.BurstCyclesSetter` | src/FunctionGenerator/FunctionGenerator.py:160-164 | burstCycles becomes `str(value)`: a string is kept verbatim, and an integer is stored in a form `int()` reads back as that integer |
| `FunctionGenerator.FunctionGenerator.constructor` | src/FunctionGenerator/FunctionGenerator.py:217-230 | systemError, declared without a default, starts unset, so the invariant that it never holds "No error" holds from the start |
| `FunctionGenerator.FunctionGenerator.SystemErrorSetter` | src/FunctionGenerator/FunctionGenerator.py:224-230 | a reply containing "No error" leaves systemError unchanged; any other reply is stored. systemError never holds "No error" |
| `FunctionGenerator.ReadCommandResult` | src/FunctionGenerator/FunctionGenerator.py:252-257 | a reply is returned exactly for the keys arbs, catalog and currentArbForm, and it is the instrument's reply; every other key gives None |
| `FunctionGenerator.ShapeLookup` | src/FunctionGenerator/FunctionGenerator.py:269 | `table.get(value, value)`: a string key of the table gives its token; any other value comes back as the value itself |
| `FunctionGenerator.LookupsAgreeOffTheCorrection` | src/FunctionGenerator/FunctionGenerator.py:269-287 | the table as written and the corrected table translate every value except "Exponential Rise" the same way |
| `FunctionGenerator.ShapeLookupIdempotent` | src/FunctionGenerator/FunctionGenerator.py:269 | `table.get(v, v)` applied twice equals applying it once, when tokens that are also names map to themselves |
| `FunctionGenerator.FuncShapeDecodeInverse` | src/FunctionGenerator/FunctionGenerator.py:273-287 | every token of the shape table (as corrected) maps back, through ShapeNameOf, to the one name it comes from |
| `FunctionGenerator.FuncShapeDecodeAsWrittenInverse` | src/FunctionGenerator/FunctionGenerator.py:273-287 | the same holds for the table exactly as written, with "ERSI" for "Exponential Rise" |
| `FunctionGenerator.CorrectionIsOneEntry` | src/FunctionGenerator/FunctionGenerator.py:273-287 | the corrected table is the table as written with only the "Exponential Rise" entry changed, to "ERIS" |
| `FunctionGenerator.ShapeNameOfInverse` | src/FunctionGenerator/FunctionGenerator.py:273-287 | every token that has a name is reached, through the corrected table, from that name |
| `FunctionGenerator.FuncShapeDecodeLaws` | src/FunctionGenerator/FunctionGenerator.py:273-287 | both tables are idempotent (only "DC" and "PRBS" are both token and name, and they map to themselves) and injective (distinct names give distinct tokens) |
| `FunctionGenerator.NodeAddress` | src/FunctionGenerator/FunctionGenerator.py:261 | `descr.alias.format(channel_no=child.alias)`: an alias without braces is its own address (the placeholder case is `AddressOfChannel`) |
| `FunctionGenerator.NodeCommand` | src/FunctionGenerator/FunctionGenerator.py:264-271 | the command builder over a given shape table: there is no command when the alias does not format |
| `FunctionGenerator.CreateNodeCommand` | src/FunctionGenerator/FunctionGenerator.py:264-271 | `createNodeCommand` as written, through the table as written (`FuncShapeDecodeAsWritten`). There is no command without an address. For every value except "Exponential Rise" it sends the same command as the corrected builder |
| `FunctionGenerator.CreateNodeCommandCorrected` | src/FunctionGenerator/FunctionGenerator.py:264-271 | the same builder through the corrected table; there is no command without an address |
| `FunctionGenerator.CreateNodeQuery` | src/FunctionGenerator/FunctionGenerator.py:260-262 | a query exists exactly when the alias formats, and it ends in "?\n" |
| `FunctionGenerator.AddressOfChannel` | src/FunctionGenerator/FunctionGenerator.py:261 | an alias `pre{channel_no}post` formats to `pre`, the channel alias, then `post` |
| `FunctionGenerator.QueryOfChannel` | src/FunctionGenerator/FunctionGenerator.py:260-262 | the query of such an alias is that address followed by "?\n" |
| `FunctionGenerator.FormatAliasValue` | src/FunctionGenerator/FunctionGenerator.py:270-271 | a template of the form alias, `mid` text, value, `suffix` text formats to those four pieces in that order |
| `FunctionGenerator.NodeCommandShape` | src/FunctionGenerator/FunctionGenerator.py:264-271 | for any shape table, a node command uses the parameter's template, or the device's when the parameter has none. It is the channel's address, the template text, the value looked up in that table, and the closing text |
| `FunctionGenerator.AddressesDifferOnlyInChannel` | src/FunctionGenerator/FunctionGenerator.py:261 | two distinct one-character channel aliases give addresses of equal length that differ at the placeholder's position and nowhere else |
| `FunctionGenerator.PulseWidthRule` | src/FunctionGenerator/AFG31000.py:54-66 | with a known nonzero period the rule admits exactly the widths not above the period, the period itself included. Of two widths it admits the smaller whenever it admits the larger |
| `AFG31000.AFGChannelNode.constructor` | src/FunctionGenerator/AFG31000.py:17-28 | initial function shape "PULS", which is among the AFG shapes; pulse width and period unset |
| `AFG31000.AFGChannelNode.FunctionShapeSetter` | src/FunctionGenerator/AFG31000.py:32-40 | `str(value)` is stored when it is one of the twelve AFG shapes, with status untouched. Otherwise the shape stays, status is "Function shape return value <value> not one of the valid options", and nothing is raised. The shape is always an AFG shape |
| `AFG31000.AFGChannelNode.PulseWidthSetter` | src/FunctionGenerator/AFG31000.py:54-68 | with no period or a zero period any width is stored. A width above the period is refused: the width is kept and status names the value and the period. A width at most the period is stored. Status changes only on refusal, a width within the period stays within it, and the node invariant is kept |
| `AFG31000.AFG31000.constructor` | src/FunctionGenerator/AFG31000.py:154-162 | initial trigger time 10 s, which lies within the bounds |
| `AFG31000.AFG31000.TriggerTimeSetter` | src/FunctionGenerator/AFG31000.py:154-162 | a trigger time outside [1e-6, 500.0] s is refused and the old value kept; any other is stored; the stored value is always within bounds |
| `AFG31000.TriggerTimeBounds` | src/FunctionGenerator/AFG31000.py:160-162 | both bounds and the default 10 s are accepted; 0 s, 9e-7 s and 600 s are refused |
| `AFG31000.TriggerTimeBoundsText` | src/FunctionGenerator/AFG31000.py:161-162 | the bounds print as "1e-06" and "500.0" |
| `AFG31000.PulseWidthCommand` | src/FunctionGenerator/AFG31000.py:42-52 | the pulse width is sent as "SOURce<ch>:PULS:WIDT", a space, the value after the lookup in the table as written, and " s" |
| `AFG31000.PulsePeriodCommand` | src/FunctionGenerator/AFG31000.py:70-77 | the pulse period is sent as "SOURce<ch>:PULS:PER", a space, the value after the lookup in the table as written, and " s" |
| `AFG31000.BurstDelayCommand` | src/FunctionGenerator/AFG31000.py:94-107 | the burst delay is sent as "SOURce<ch>:BURS:TDEL", a space, the value after the lookup in the table as written, and " s" |
| `AFG31000.FunctionShapeCommand` | src/FunctionGenerator/AFG31000.py:17-28 | with the framework default, the shape is sent as "SOURce<ch>:FUNCtion", a space, the value after the lookup in the table as written, and "\n" |
| `AFG31000.TriggerTimeCommand` | src/FunctionGenerator/AFG31000.py:154-165 | the trigger time is sent at device level as "TRIG:TIM", a space, the value and " s" |
| `AFG31000.ChannelQueries` | src/FunctionGenerator/AFG31000.py:179-186 | a channel's pulse-width query is "SOURce<ch>:PULS:WIDT?\n"; channels "1" and "2" give addresses that differ only in the channel digit |
| `AFG31000.ExponentialRiseAsWritten` | src/FunctionGenerator/FunctionGenerator.py:264-271 | as written, `createNodeCommand` for functionShape with the value "Exponential Rise" returns "SOURce<ch>:FUNCtion ERSI\n". "ERSI" is not an AFG shape, and no name is sent as the AFG's "ERIS" |
| `AFG31000.CorrectedShapeCommand` | src/FunctionGenerator/AFG31000.py:20-21 | with the corrected table, a name is sent as "SOURce<ch>:FUNCtion", a space, its token and "\n". That token is an AFG shape exactly when the name is in NamedShapes, and "Exponential Rise" is sent as "ERIS", which is an AFG shape |
| `AFG31000.NamesReachShapes` | src/FunctionGenerator/AFG31000.py:20-21 | with the corrected table, a name maps to an AFG shape exactly when it is one of the ten names in NamedShapes |
| `AFG31000.ShapesReachedFromNames` | src/FunctionGenerator/AFG31000.py:20-21 | every AFG shape except "GAUS" and "EMEM" (which have no human name) is reached, with the corrected table, from the name ShapeNameOf gives (with the table as written, "ERIS" is reached from no name: `AFG31000.ExponentialRiseAsWritten`) |
| `AFG31000.ShapeExamples` | src/FunctionGenerator/AFG31000.py:20-21 | with the corrected table, "Sine" becomes "SIN", which is valid; "Triangle" becomes "TRI", which is not; "Exponential Rise" becomes "ERIS", which is valid |
| `KeysightChannelNode.KeysightChannelNode.constructor` | src/FunctionGenerator/KeysightChannelNode.py:18-24 | initial function shape "SIN", which is among the Keysight shapes; pulse width and period unset |
| `KeysightChannelNode.KeysightChannelNode.FunctionShapeSetter` | src/FunctionGenerator/KeysightChannelNode.py:28-36 | `str(value)` is stored when it is one of the ten Keysight shapes, with status untouched. Otherwise the shape stays and status is set. Nothing is raised, and the shape is always a Keysight shape |
| `KeysightChannelNode.KeysightChannelNode.PulseWidthSetter` | src/FunctionGenerator/KeysightChannelNode.py:49-63 | any width is stored when the period is unset or zero. A width above the period is refused, with status set and the width kept. Any other width is stored with status untouched. The node invariant is kept |
| `KeysightChannelNode.PulseWidthCommand` | src/FunctionGenerator/KeysightChannelNode.py:38-47 | the pulse width is sent as "SOURce<ch>:FUNC:PULS:WIDT", a space, the value after the lookup in the table as written, and " s" |
| `KeysightChannelNode.PulsePeriodCommand` | src/FunctionGenerator/KeysightChannelNode.py:65-72 | the pulse period is sent as "SOURce<ch>:FUNC:PULS:PER", a space, the value after the lookup in the table as written, and " s" |
| `KeysightChannelNode.ArbitraryPeriodCommand` | src/FunctionGenerator/KeysightChannelNode.py:84-91 | the arbitrary period is sent as "SOURce<ch>:FUNC:ARB:PER", a space, the value after the lookup in the table as written, and " s" |
| `KeysightChannelNode.RampSymmetryCommand` | src/FunctionGenerator/KeysightChannelNode.py:93-99 | the ramp symmetry is sent as "SOURce<ch>:FUNC:RAMP:SYMM", a space, the value after the lookup in the table as written, and " s" |
| `KeysightChannelNode.TriggerTimeCommand` | src/FunctionGenerator/KeysightChannelNode.py:111-120 | the trigger time is sent as "TRIG<ch>:TIM", a space, the value after the lookup in the table as written, and " s" |
| `KeysightChannelNode.TriggerSourceQuery` | src/FunctionGenerator/KeysightChannelNode.py:101-109 | the trigger source is queried as "TRIG<ch>:SOUR?\n" |
| `KeysightChannelNode.LoadFormAddress` | src/FunctionGenerator/KeysightChannelNode.py:79-82 | with the placeholder at the end, the load address is "MMEMory:LOAD:DATA" followed by the channel alias, so "MMEMory:LOAD:DATA2" for channel "2" |
| `KeysightChannelNode.NamesReachShapes` | src/FunctionGenerator/KeysightChannelNode.py:21-22 | through the table as written, which the program uses, a name maps to a Keysight shape exactly when it is one of the nine names in NamedShapes |
| `KeysightChannelNode.ShapesReachedFromNames` | src/FunctionGenerator/KeysightChannelNode.py:21-22 | through the table as written, every Keysight shape except "NRAM" is reached from its name, and no name maps to "NRAM" |
| `FunctionGenerator.ShapeNameOfAsWrittenInverse` | src/FunctionGenerator/FunctionGenerator.py:273-287 | every token of the table as written is reached, through that table, from the name ShapeNameOfAsWritten gives |
| `Keysight33511.SameSchema` | src/FunctionGenerator/Keysight33511.py:15-117 | the shapes and the ten parameter declarations written out from Keysight33511.py (key, alias, command template) equal those of KeysightChannelNode.py, one by one |
| `Keysight33511.TriggerSourceQuery` | src/FunctionGenerator/Keysight33511.py:100-127 | the single channel has alias "1", so the trigger source is queried as "TRIG1:SOUR?\n" |
| `Keysight33511.SecondsCommands` | src/FunctionGenerator/Keysight33511.py:42-127 | on the single channel, pulse width and trigger time go out as "SOURce1:FUNC:PULS:WIDT" and "TRIG1:TIM", each followed by a space, the value and " s" |
| `Keysight3500.KeysightChannelNode.constructor` | src/FunctionGenerator/Keysight3500.py:17-51 | pulse width, pulse period and the node's own status start unset |
| `Keysight3500.KeysightChannelNode.PulseWidthSetter` | src/FunctionGenerator/Keysight3500.py:30-43 | any width is stored when the period is unset or zero. A width above the period is refused, with the node's status set and the width kept. Any other width is stored with status untouched |
| `Keysight3500.PulseWidthCommand` | src/FunctionGenerator/Keysight3500.py:19-28 | the pulse width is sent as "SOURce<ch>:FUNC:PULS:WIDT", a space, the value after the lookup in the table as written, and " s" |
| `Keysight3500.PulsePeriodCommand` | src/FunctionGenerator/Keysight3500.py:45-51 | the pulse period is sent as "SOURce<ch>:FUNC:PULS:PER", a space, the value after the lookup in the table as written, and " s" |
| `Keysight3500.FrequencyCommand` | src/FunctionGenerator/Keysight3500.py:53-65 | the frequency is sent as "SOURce<ch>:FUNCtion:ARBitrary:FREQ", a space, the value after the lookup in the table as written, and " Hz" |
| `Keysight3500.TriggerTimeCommand` | src/FunctionGenerator/Keysight3500.py:76-85 | the trigger time is sent as "TRIG<ch>:TIM", a space, the value after the lookup in the table as written, and " s" |
| `Keysight3500.AliasSplit` | src/FunctionGenerator/Keysight3500.py:19-85 | every parameter of the node has exactly one channel placeholder between brace-free text |
| `Keysight3500.ChannelAddressesDiffer` | src/FunctionGenerator/Keysight3500.py:91-96 | for every parameter of the node, channels "1" and "2" give addresses that differ in exactly one character |
| `KeysightBase.DisplayNormalize` | src/FunctionGenerator/KeysightBase.py:65-69 | the display switch always gives "ON" or "OFF" and never fails |
| `KeysightBase.DisplayIdempotent` | src/FunctionGenerator/KeysightBase.py:65-69 | applying the display switch to its own result changes nothing |
| `KeysightBase.DisplayAgreesWithOnOff` | src/FunctionGenerator/KeysightBase.py:65-69 | on ON, OFF, 0, 1, "0" and "1" the display switch gives what `on_off_setter` stores |
| `KeysightBase.DisplayAcceptsWhatOnOffRefuses` | src/FunctionGenerator/KeysightBase.py:65-69 | "2" turns the display on, while `on_off_setter` refuses it |
| `KeysightBase.DisplayOnWhereOnOffIsOff` | src/FunctionGenerator/KeysightBase.py:65-69 | "0" after a whitespace character (" 0", say) turns the display on, while `on_off_setter` reads it as 0 and stores "OFF" |
| `KeysightBase.KeepWaveforms` | src/FunctionGenerator/KeysightBase.py:85-86 | keeps at most as many entries as there are fields, each mentioning ".arb" or ".seq" and with no quote at either end |
| `KeysightBase.ParseArbCatalog` | src/FunctionGenerator/KeysightBase.py:84-86 | the parsed catalog is no longer than the list of comma-separated fields, and each entry is a waveform name with no quote at either end |
| `KeysightBase.KeepWaveformsMembers` | src/FunctionGenerator/KeysightBase.py:85-86 | a name is kept exactly when some field mentions ".arb" or ".seq" and strips to that name (both directions) |
| `KeysightBase.KeepWaveformsAppend` | src/FunctionGenerator/KeysightBase.py:85-86 | filtering two field lists one after the other gives the two results one after the other, so reply order is kept |
| `KeysightBase.ArbCatalogAppend` | src/FunctionGenerator/KeysightBase.py:85-86 | the catalog of `a + "," + b` is the catalog of `a` followed by that of `b` |
| `KeysightBase.ArbCatalogSingleField` | src/FunctionGenerator/KeysightBase.py:85-86 | a reply without commas gives its stripped self when it names a waveform, and nothing otherwise |
| `KeysightBase.ArbCatalogQuotedEntry` | src/FunctionGenerator/KeysightBase.py:85-86 | a quoted "name,type,size" entry gives exactly the name, unquoted |
| `KeysightBase.ArbCatalogMembers` | src/FunctionGenerator/KeysightBase.py:85-86 | a name is in the parsed catalog exactly when some field of the reply names a waveform and strips to it |
| `KeysightBase.QuotedPath` | src/FunctionGenerator/KeysightBase.py:35 | the path wrapped in one double quote on each side, with the path unchanged in between |
| `KeysightBase.ArbsRequest` | src/FunctionGenerator/KeysightBase.py:73-80 | the request is "MMEMory:CAT:DATA:ARB", then "? ", the quoted path and "\n", whatever the path holds; whatever the instrument replies is read back unchanged |
| `KeysightBase.KeysightBase.constructor` | src/FunctionGenerator/KeysightBase.py:24-57 | display "OFF", path `INT:\BUILTIN`, no parsed catalog and no installed options |
| `KeysightBase.KeysightBase.DisplaySetter` | src/FunctionGenerator/KeysightBase.py:65-71 | display becomes the switch position of the reply: "OFF" for 0 (int or float), "0" and "OFF", otherwise "ON"; the display is always ON or OFF |
| `KeysightBase.KeysightBase.ArbsSetter` | src/FunctionGenerator/KeysightBase.py:84-88 | arb_options becomes the parsed catalog of the reply, and every stored name is a waveform name with no quote at either end |
| `KeysightBase.KeysightBase.GetArbs` | src/FunctionGenerator/KeysightBase.py:32-40 | sends the catalog query with the path in quotes and stores the parsed reply. When the result is non-empty it installs the result as the availableArbs options, with the first entry as the default. Otherwise the installed options stay. Installed options are never empty |

## Left out

- `scpiml` and `karabo` are not part of this model. This covers the
  connection state machine, polling, read-back dispatch, `readQueryResult`,
  the device-level `createCommand` and the default `command_format`. The
  model assumes the device-level command is built like the node one, without
  channel or shape translation (`DeviceCommand`), and that the default is
  `"{alias} {value}\n"`. The framework's options checks are modelled as set
  membership.
- Options of parameters without a setter (for example outputPol, burstIdle,
  triggerSource, runMode) are checked by the framework only. They are not
  modelled.
- `KeysightBase.connect` (KeysightBase.py:92-94) is left out: it is
  asynchronous I/O with a five-second timeout.
- The `await sleep(1)` in two pulse-width setters (AFG31000.py:64,
  KeysightChannelNode.py:59) is left out; the setter of Keysight33511.py
  has none. It is a delay for the user
  interface. Python also refuses `await` inside a plain `def`. The refusal is
  modelled without the delay.
- `onInitialization` is left out: it injects channel nodes into the class at
  run time (AFG31000.py:179-186, Keysight33511.py:123-129,
  Keysight3500.py:91-98). The node aliases are fixed data (`Channels`).
  Keysight3500.py:98 calls `super.onInitialization()` on the built-in `super`
  itself rather than `super()`. That run-time path is outside the model.
- The slots `channelOn`, `channelOff`, `reset` and `getArbs`'s
  `publishInjectedParameters` are left out, because they call into the
  framework. For `getArbs`, the framework's sending of the request and
  reading of the reply is modelled as the returned request plus the reply
  parameter.
- KeysightBase.KeysightBase.GetArbs: the shared, class-level update is
  modelled per instance. The source replaces the class attribute
  `availableArbs` (KeysightBase.py:37-39), so every instance of the device
  class, including instances created later, sees the installed options. The
  model keeps them in fields of the one instance the method runs on.
- `FunctionGenerator.PulseWidthRule`, and each `PulseWidthSetter`, cover only
  the width side of the rule. The pulse period is stored by the framework
  without a check, so a later, smaller period can leave a stored width above
  it. `WidthWithinPeriod` is therefore kept by the width setter, not by every
  operation.
- Floats are exact decimals. IEEE rounding, `-0.0`, `inf` and `nan` are not
  modelled. The status texts render a float with Python's `repr`. A
  KaraboValue the framework hands in may print with its unit, and that
  rendering is framework behaviour.
- `int()` is modelled over ASCII digits and the six ASCII characters it
  skips (space, tab, newline, vertical tab, form feed, carriage return).
  Unicode digits and spaces are not modelled.
- ParseIntOfIntToString: holds for every integer in the unbounded model.
  Since Python 3.11, `int()` and `str()` raise ValueError for more than 4300
  digits by default, and that limit is not modelled.
- `str.format` is modelled with named fields and `{{`/`}}` escapes only.
  Conversions, format specs, attribute access and the `{device}` field the
  source passes are not modelled. A template that used them formats to None.
- The status messages are kept verbatim. This includes the missing space in
  ".Has to be" in the Keysight setters.
- Shape translation in `createNodeCommand` applies to every node parameter,
  not just functionShape, exactly as in the source.
- Keysight33512.py (node composition only), setup.py (packaging) and the
  tests are not part of this model. The tests call a `greeting`/`hello`
  interface the device does not have.

## Findings

| source | as written | input that shows it | evidently intended | confidence | as-written member | corrected member |
|---|---|---|---|---|---|---|
| src/FunctionGenerator/FunctionGenerator.py:285 | `func_shape_decode` maps 'Exponential Rise' to 'ERSI' | `createNodeCommand` called for functionShape with the value "Exponential Rise" returns "SOURce1:FUNCtion ERSI\n". 'ERSI' is not in the AFG option set (AFG31000.py:20-21), which spells the shape 'ERIS'. It is an assumption that the framework passes a human name through to `createNodeCommand`: the text does not show it, and assigning functionShape checks its options (FunctionGenerator.py:33-38 shows such a check) | 'Exponential Rise' maps to 'ERIS' | not executed | `AFG31000.ExponentialRiseAsWritten` | `AFG31000.CorrectedShapeCommand` |

In the model, `FunctionGenerator.FuncShapeDecodeAsWritten` is the table as
written and `FunctionGenerator.FuncShapeDecode` is the corrected table.
`CreateNodeCommand` is the builder as written: it uses the table as written,
and the per-parameter command lemmas are stated for it.
`CreateNodeCommandCorrected` uses the corrected table.
`LookupsAgreeOffTheCorrection` and the contract of `CreateNodeCommand` show
that the two builders differ only for "Exponential Rise".
