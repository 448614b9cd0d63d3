/** Binding a form submission: the validation gate over the submitted body, then the merge of declared defaults. The two
  * passes judge conditional visibility over different value maps; the theorems say when they agree. */
module FormBinding {

  import opened Wrappers

  const MAX_KEYS := 200
  const MAX_OPTIONS := 50

  // ----- Declarations and values -----

  datatype FieldType =
    | Text | Number | Boolean | Email | Date | Time | DateTime | Select | MultiSelect | TextArea | Url | Tel | File | Hidden
    | Heading | Paragraph | Divider

  predicate IsDisplay(kind: FieldType) {
    kind == Heading || kind == Paragraph || kind == Divider
  }

  /** A JSON value as the runtime parses it; an overflowing number literal becomes an infinity. A member that every object
    * inherits reads as a function. */
  datatype Value =
    | Null
    | Bool(b: bool)
    | Num(n: real)
    | NonFinite
    | Str(text: string)
    | List(items: seq<Value>)
    | Obj(entries: map<string, Value>)
    | Inherited(name: string)

  /** The names every plain object answers to and a field may have. */
  const INHERITED: set<string> :=
    {"constructor", "hasOwnProperty", "isPrototypeOf", "propertyIsEnumerable", "toLocaleString", "toString", "valueOf"}

  predicate IsScalar(value: Value) {
    value.Bool? || value.Num? || value.Str?
  }

  datatype Condition = Condition(field: string, equals: Value)

  datatype Field = Field(
    name: string, kind: FieldType, required: bool, maxLength: nat,
    fallback: Option<Value>, options: Option<seq<string>>, condition: Option<Condition>,
    min: Option<real>, max: Option<real>, pattern: Option<string>)

  predicate IsInternalKey(name: string) {
    |name| >= 2 && name[..2] == "__"
  }

  /** What the declaration parser guarantees about a persisted form. */
  ghost predicate WellFormed(fields: seq<Field>) {
    && (forall i, j :: 0 <= i < j < |fields| ==> fields[i].name != fields[j].name)
    && (forall f :: f in fields ==>
          && !IsInternalKey(f.name)
          && (IsDisplay(f.kind) ==> !f.required && f.fallback.None?)
          && (f.fallback.Some? ==> f.fallback.value != Null)
          && (f.condition.Some? ==> IsScalar(f.condition.value.equals) && exists t :: t in fields && t.name == f.condition.value.field))
  }

  /** A parsed JSON object: its keys in order and their values. */
  datatype Body = Body(keys: seq<string>, values: map<string, Value>)

  ghost predicate BodyOk(body: Body) {
    && (forall k :: k in body.keys <==> k in body.values)
    && (forall k :: k in body.values ==> !body.values[k].Inherited?)
  }

  /** Text measures the model leaves abstract: UTF-8 length, the per-type format and the declared pattern. */
  datatype Checks = Checks(byteLength: string -> nat, format: (FieldType, string) -> bool, pattern: (string, string) -> bool)

  datatype Context = Context(snapshot: map<string, Value>, allowed: map<string, seq<string>>, checks: Checks)

  /** An absent member reads as undefined, which every branch treats like null, unless the object inherits one. */
  function Lookup(values: map<string, Value>, name: string): Value {
    if name in values then values[name] else if name in INHERITED then Inherited(name) else Null
  }

  /** The member does not read as undefined. */
  predicate Reads(values: map<string, Value>, name: string) {
    name in values || name in INHERITED
  }

  predicate IsFieldVisible(field: Field, values: map<string, Value>) {
    field.condition.None? || Lookup(values, field.condition.value.field) == field.condition.value.equals
  }

  // ----- One entry -----

  datatype Outcome = Skip | Keep(value: Value) | Refuse(code: string)

  function FormatCode(kind: FieldType): string {
    match kind
    case Email => "INVALID_EMAIL"
    case Date => "INVALID_DATE"
    case Time => "INVALID_TIME"
    case DateTime => "INVALID_DATETIME"
    case Url => "INVALID_URL"
    case Tel => "INVALID_TEL"
    case _ => ""
  }

  function CheckString(field: Field, kind: FieldType, entry: Value, checks: Checks): Outcome {
    if !entry.Str? then Refuse("NOT_STRING")
    else if field.required && |entry.text| == 0 then Refuse("REQUIRED")
    else if checks.byteLength(entry.text) > field.maxLength then Refuse("TOO_LONG")
    else if FormatCode(kind) != "" && |entry.text| > 0 && !checks.format(kind, entry.text) then Refuse(FormatCode(kind))
    else if field.pattern.Some? && |entry.text| > 0 && !checks.pattern(field.pattern.value, entry.text) then Refuse("PATTERN_MISMATCH")
    else Keep(entry)
  }

  /** Provider options resolved at startup override the declared list. */
  function AllowedOptions(field: Field, ctx: Context): seq<string> {
    if field.name in ctx.allowed then ctx.allowed[field.name]
    else if field.options.Some? then field.options.value
    else []
  }

  predicate IsOption(item: Value, allowed: seq<string>) {
    item.Str? && item.text in allowed
  }

  function CheckMultiSelect(field: Field, entry: Value, allowed: seq<string>): Outcome {
    if !entry.List? then Refuse("NOT_ARRAY")
    else if |entry.items| > MAX_OPTIONS then Refuse("TOO_MANY_OPTIONS")
    else if exists i :: 0 <= i < |entry.items| && !IsOption(entry.items[i], allowed) then Refuse("INVALID_OPTION")
    else if field.required && |entry.items| == 0 then Refuse("REQUIRED")
    else Keep(entry)
  }

  function CheckNumber(field: Field, entry: Value): Outcome {
    if !entry.Num? then Refuse("NOT_NUMBER")
    else if field.min.Some? && entry.n < field.min.value then Refuse("TOO_SMALL")
    else if field.max.Some? && entry.n > field.max.value then Refuse("TOO_LARGE")
    else Keep(entry)
  }

  function CheckFile(entry: Value): Outcome {
    if !entry.Obj? || !Lookup(entry.entries, "location").Str? || !Lookup(entry.entries, "path").Str? then Refuse("NOT_FILE_REF")
    else Keep(Obj(map["location" := Lookup(entry.entries, "location"), "path" := Lookup(entry.entries, "path")]))
  }

  function CheckEntry(field: Field, entry: Value, ctx: Context): Outcome {
    match field.kind
    case Number => CheckNumber(field, entry)
    case Boolean => if entry.Bool? then Keep(entry) else Refuse("NOT_BOOLEAN")
    case Select =>
      var checked := CheckString(field, Text, entry, ctx.checks);
      if checked.Keep? && entry.text !in AllowedOptions(field, ctx) then Refuse("INVALID_OPTION") else checked
    case MultiSelect => CheckMultiSelect(field, entry, AllowedOptions(field, ctx))
    case File => CheckFile(entry)
    case _ => CheckString(field, field.kind, entry, ctx.checks)
  }

  // ----- Which entries are refused, and why -----

  /** What a file reference keeps of its object. */
  function FileRef(entries: map<string, Value>): Value
    requires "location" in entries && "path" in entries
  {
    Obj(map["location" := entries["location"], "path" := entries["path"]])
  }

  /** Options resolved at startup, else the declared ones. */
  ghost predicate Offers(field: Field, ctx: Context, option: string) {
    if field.name in ctx.allowed then option in ctx.allowed[field.name]
    else field.options.Some? && option in field.options.value
  }

  ghost predicate TextFits(field: Field, entry: Value, checks: Checks) {
    && entry.Str?
    && (field.required ==> entry.text != "")
    && checks.byteLength(entry.text) <= field.maxLength
    && (field.pattern.Some? && entry.text != "" ==> checks.pattern(field.pattern.value, entry.text))
  }

  /** Six of the text types have a format, which an empty text is excused from. */
  ghost predicate FormatFits(kind: FieldType, text: string, checks: Checks) {
    kind in {Email, Date, Time, DateTime, Url, Tel} && text != "" ==> checks.format(kind, text)
  }

  ghost predicate ItemsFit(field: Field, entry: Value, allowed: seq<string>) {
    && entry.List? && |entry.items| <= 50
    && (forall i :: 0 <= i < |entry.items| ==> entry.items[i].Str? && entry.items[i].text in allowed)
    && (field.required ==> entry.items != [])
  }

  /** What a field of each type takes. */
  ghost predicate Fits(field: Field, entry: Value, ctx: Context) {
    match field.kind
    case Number =>
      && entry.Num?
      && (field.min.Some? ==> field.min.value <= entry.n)
      && (field.max.Some? ==> entry.n <= field.max.value)
    case Boolean => entry.Bool?
    case Select => TextFits(field, entry, ctx.checks) && Offers(field, ctx, entry.text)
    case MultiSelect => ItemsFit(field, entry, AllowedOptions(field, ctx))
    case File =>
      && entry.Obj?
      && "location" in entry.entries && entry.entries["location"].Str?
      && "path" in entry.entries && entry.entries["path"].Str?
    case _ => TextFits(field, entry, ctx.checks) && FormatFits(field.kind, entry.text, ctx.checks)
  }

  /** A file keeps its two members, everything else is kept as given. */
  ghost predicate KeptAs(field: Field, entry: Value, kept: Value) {
    if field.kind == File then
      entry.Obj? && "location" in entry.entries && "path" in entry.entries && kept == FileRef(entry.entries)
    else kept == entry
  }

  /** Why a text is refused: the first of these that holds. */
  ghost predicate TextBlamed(field: Field, kind: FieldType, entry: Value, checks: Checks, code: string) {
    if !entry.Str? then code == "NOT_STRING"
    else if entry.text == "" then (if field.required then code == "REQUIRED" else checks.byteLength("") > field.maxLength && code == "TOO_LONG")
    else if checks.byteLength(entry.text) > field.maxLength then code == "TOO_LONG"
    else if kind in {Email, Date, Time, DateTime, Url, Tel} && !checks.format(kind, entry.text) then
      (kind, code) in {(Email, "INVALID_EMAIL"), (Date, "INVALID_DATE"), (Time, "INVALID_TIME"), (DateTime, "INVALID_DATETIME"),
                       (Url, "INVALID_URL"), (Tel, "INVALID_TEL")}
    else field.pattern.Some? && !checks.pattern(field.pattern.value, entry.text) && code == "PATTERN_MISMATCH"
  }

  ghost predicate ItemsBlamed(field: Field, entry: Value, allowed: seq<string>, code: string) {
    if !entry.List? then code == "NOT_ARRAY"
    else if |entry.items| > 50 then code == "TOO_MANY_OPTIONS"
    else if exists i :: 0 <= i < |entry.items| && !(entry.items[i].Str? && entry.items[i].text in allowed) then code == "INVALID_OPTION"
    else field.required && entry.items == [] && code == "REQUIRED"
  }

  /** The code an entry is refused with. */
  ghost predicate Blamed(field: Field, entry: Value, ctx: Context, code: string) {
    match field.kind
    case Number =>
      if !entry.Num? then code == "NOT_NUMBER"
      else if field.min.Some? && entry.n < field.min.value then code == "TOO_SMALL"
      else field.max.Some? && field.max.value < entry.n && code == "TOO_LARGE"
    case Boolean => !entry.Bool? && code == "NOT_BOOLEAN"
    case Select =>
      if TextFits(field, entry, ctx.checks) then !Offers(field, ctx, entry.text) && code == "INVALID_OPTION"
      else TextBlamed(field, Text, entry, ctx.checks, code)
    case MultiSelect => ItemsBlamed(field, entry, AllowedOptions(field, ctx), code)
    case File => !Fits(field, entry, ctx) && code == "NOT_FILE_REF"
    case _ => TextBlamed(field, field.kind, entry, ctx.checks, code)
  }

  lemma OptionsOffered(field: Field, ctx: Context)
    ensures forall option :: option in AllowedOptions(field, ctx) <==> Offers(field, ctx, option)
  {
  }

  lemma FileMembers()
    ensures "location" !in INHERITED && "path" !in INHERITED
  {
    assert forall n :: n in INHERITED ==> n != "location" && n != "path";
  }

  lemma TextExactly(field: Field, kind: FieldType, entry: Value, checks: Checks)
    ensures CheckString(field, kind, entry, checks) == Keep(entry) <==>
      TextFits(field, entry, checks) && FormatFits(kind, entry.text, checks)
    ensures CheckString(field, kind, entry, checks).Keep? ==> CheckString(field, kind, entry, checks).value == entry
    ensures forall code :: CheckString(field, kind, entry, checks) == Refuse(code) <==> TextBlamed(field, kind, entry, checks, code)
  {
  }

  lemma ItemsExactly(field: Field, entry: Value, allowed: seq<string>)
    ensures CheckMultiSelect(field, entry, allowed) == Keep(entry) <==> ItemsFit(field, entry, allowed)
    ensures CheckMultiSelect(field, entry, allowed).Keep? ==> CheckMultiSelect(field, entry, allowed).value == entry
    ensures forall code :: CheckMultiSelect(field, entry, allowed) == Refuse(code) <==> ItemsBlamed(field, entry, allowed, code)
  {
  }

  lemma FileExactly(entry: Value)
    ensures CheckFile(entry).Keep? <==>
      && entry.Obj? && "location" in entry.entries && entry.entries["location"].Str?
      && "path" in entry.entries && entry.entries["path"].Str?
    ensures CheckFile(entry).Keep? ==> CheckFile(entry).value == FileRef(entry.entries)
    ensures forall code :: CheckFile(entry) == Refuse(code) <==> !CheckFile(entry).Keep? && code == "NOT_FILE_REF"
  {
    FileMembers();
  }

  /** The checks of every type: which entries are kept, as what, and with which code any other is refused. */
  lemma EntryExactly(field: Field, entry: Value, ctx: Context)
    ensures CheckEntry(field, entry, ctx).Keep? <==> Fits(field, entry, ctx)
    ensures CheckEntry(field, entry, ctx).Keep? ==> KeptAs(field, entry, CheckEntry(field, entry, ctx).value)
    ensures forall code :: CheckEntry(field, entry, ctx) == Refuse(code) <==> Blamed(field, entry, ctx, code)
  {
    OptionsOffered(field, ctx);
    match field.kind
    case Number =>
    case Boolean =>
    case Select => TextExactly(field, Text, entry, ctx.checks);
    case MultiSelect => ItemsExactly(field, entry, AllowedOptions(field, ctx));
    case File => FileExactly(entry);
    case _ => TextExactly(field, field.kind, entry, ctx.checks);
  }

  /** The picking loop of a multiselect: it stops at the first item that is no option. */
  method PickOptions(field: Field, entry: Value, allowed: seq<string>) returns (outcome: Outcome)
    ensures outcome == CheckMultiSelect(field, entry, allowed)
    ensures outcome == Keep(entry) <==> ItemsFit(field, entry, allowed)
    ensures forall code :: outcome == Refuse(code) <==> ItemsBlamed(field, entry, allowed, code)
    ensures outcome.Keep? || outcome.Refuse?
  {
    ItemsExactly(field, entry, allowed);
    if !entry.List? {
      return Refuse("NOT_ARRAY");
    }
    if |entry.items| > MAX_OPTIONS {
      return Refuse("TOO_MANY_OPTIONS");
    }
    var picked: seq<Value> := [];
    for i := 0 to |entry.items|
      invariant picked == entry.items[..i]
      invariant forall j :: 0 <= j < i ==> IsOption(entry.items[j], allowed)
    {
      var item := entry.items[i];
      if !item.Str? || item.text !in allowed {
        assert !IsOption(entry.items[i], allowed);
        return Refuse("INVALID_OPTION");
      }
      picked := picked + [item];
    }
    if field.required && |picked| == 0 {
      return Refuse("REQUIRED");
    }
    return Keep(List(picked));
  }

  // ----- Validation -----

  datatype Failure = Failure(field: string, code: string)

  datatype Validation = Valid(values: map<string, Value>) | Invalid(failures: seq<Failure>)

  function Find(fields: seq<Field>, name: string): Option<Field> {
    if |fields| == 0 then None
    else if fields[|fields| - 1].name == name then Some(fields[|fields| - 1])
    else Find(fields[..|fields| - 1], name)
  }

  function KeyFailure(fields: seq<Field>, key: string): seq<Failure> {
    if IsInternalKey(key) then [Failure(key, "UNKNOWN_FIELD")]
    else
      match Find(fields, key)
      case None => [Failure(key, "UNKNOWN_FIELD")]
      case Some(field) => if IsDisplay(field.kind) then [Failure(key, "DISPLAY_ONLY_FIELD")] else []
  }

  function KeyFailures(fields: seq<Field>, keys: seq<string>): seq<Failure> {
    if |keys| == 0 then [] else KeyFailures(fields, keys[..|keys| - 1]) + KeyFailure(fields, keys[|keys| - 1])
  }

  /** The startup snapshot under the submitted body. */
  function Effective(body: Body, ctx: Context): map<string, Value> {
    ctx.snapshot + body.values
  }

  predicate IsSmuggled(field: Field, body: Body, ctx: Context) {
    !IsFieldVisible(field, Effective(body, ctx)) && Lookup(body.values, field.name) != Null
  }

  function HiddenFailures(fields: seq<Field>, body: Body, ctx: Context): seq<Failure> {
    if |fields| == 0 then []
    else
      var field := fields[|fields| - 1];
      HiddenFailures(fields[..|fields| - 1], body, ctx) +
      (if IsSmuggled(field, body, ctx) then [Failure(field.name, "HIDDEN_FIELD")] else [])
  }

  function EntryOutcome(field: Field, body: Body, ctx: Context): Outcome {
    if IsDisplay(field.kind) || !IsFieldVisible(field, Effective(body, ctx)) then Skip
    else if Lookup(body.values, field.name) == Null
    then if field.required && field.fallback.None? then Refuse("REQUIRED") else Skip
    else CheckEntry(field, Lookup(body.values, field.name), ctx)
  }

  function EntryFailures(fields: seq<Field>, body: Body, ctx: Context): seq<Failure> {
    if |fields| == 0 then []
    else
      var field, outcome := fields[|fields| - 1], EntryOutcome(fields[|fields| - 1], body, ctx);
      EntryFailures(fields[..|fields| - 1], body, ctx) + (if outcome.Refuse? then [Failure(field.name, outcome.code)] else [])
  }

  function Kept(fields: seq<Field>, body: Body, ctx: Context): map<string, Value> {
    if |fields| == 0 then map[]
    else
      var field, outcome := fields[|fields| - 1], EntryOutcome(fields[|fields| - 1], body, ctx);
      var kept := Kept(fields[..|fields| - 1], body, ctx);
      if outcome.Keep? then kept[field.name := outcome.value] else kept
  }

  function Validate(fields: seq<Field>, input: Option<Body>, ctx: Context): Validation {
    if input.None? then Invalid([Failure("", "NOT_OBJECT")])
    else if |input.value.keys| > MAX_KEYS then Invalid([Failure("", "TOO_MANY_FIELDS")])
    else
      var early := KeyFailures(fields, input.value.keys) + HiddenFailures(fields, input.value, ctx);
      var late := EntryFailures(fields, input.value, ctx);
      if |early| > 0 then Invalid(early)
      else if |late| > 0 then Invalid(late)
      else Valid(Kept(fields, input.value, ctx))
  }

  method ValidateFormInput(fields: seq<Field>, input: Option<Body>, ctx: Context) returns (result: Validation)
    ensures result == Validate(fields, input, ctx)
    ensures input == None ==> result == Invalid([Failure("", "NOT_OBJECT")])
    ensures input.Some? && |input.value.keys| > 200 ==> result == Invalid([Failure("", "TOO_MANY_FIELDS")])
  {
    if input.None? {
      return Invalid([Failure("", "NOT_OBJECT")]);
    }
    var body := input.value;
    if |body.keys| > MAX_KEYS {
      return Invalid([Failure("", "TOO_MANY_FIELDS")]);
    }
    var failures := GateKeys(fields, body);
    failures := GateHidden(fields, body, ctx, failures);
    if |failures| > 0 {
      return Invalid(failures);
    }
    var values;
    values, failures := GateEntries(fields, body, ctx);
    if |failures| > 0 {
      return Invalid(failures);
    }
    return Valid(values);
  }

  method GateEntries(fields: seq<Field>, body: Body, ctx: Context) returns (values: map<string, Value>, failures: seq<Failure>)
    ensures failures == EntryFailures(fields, body, ctx)
    ensures values == Kept(fields, body, ctx)
  {
    values, failures := map[], [];
    for i := 0 to |fields|
      invariant failures == EntryFailures(fields[..i], body, ctx)
      invariant values == Kept(fields[..i], body, ctx)
    {
      var field := fields[i];
      assert fields[..i + 1][..i] == fields[..i];
      var outcome := GateEntry(field, body, ctx);
      if outcome.Refuse? {
        failures := failures + [Failure(field.name, outcome.code)];
      } else if outcome.Keep? {
        values := values[field.name := outcome.value];
      }
    }
    assert fields[..|fields|] == fields;
  }

  /** One turn of the loop. */
  method GateEntry(field: Field, body: Body, ctx: Context) returns (outcome: Outcome)
    ensures outcome == EntryOutcome(field, body, ctx)
  {
    if IsDisplay(field.kind) || !IsFieldVisible(field, Effective(body, ctx)) {
      return Skip;
    }
    var entry := Lookup(body.values, field.name);
    if entry == Null {
      return if field.required && field.fallback.None? then Refuse("REQUIRED") else Skip;
    }
    if field.kind == MultiSelect {
      outcome := PickOptions(field, entry, AllowedOptions(field, ctx));
    } else {
      outcome := CheckEntry(field, entry, ctx);
    }
  }

  method GateKeys(fields: seq<Field>, body: Body) returns (failures: seq<Failure>)
    ensures failures == KeyFailures(fields, body.keys)
  {
    failures := [];
    for i := 0 to |body.keys|
      invariant failures == KeyFailures(fields, body.keys[..i])
    {
      assert body.keys[..i + 1][..i] == body.keys[..i];
      failures := failures + KeyFailure(fields, body.keys[i]);
    }
    assert body.keys[..|body.keys|] == body.keys;
  }

  method GateHidden(fields: seq<Field>, body: Body, ctx: Context, before: seq<Failure>) returns (failures: seq<Failure>)
    ensures failures == before + HiddenFailures(fields, body, ctx)
  {
    failures := before;
    for i := 0 to |fields|
      invariant failures == before + HiddenFailures(fields[..i], body, ctx)
    {
      var field := fields[i];
      assert fields[..i + 1][..i] == fields[..i];
      if field.condition.None? || IsFieldVisible(field, Effective(body, ctx)) {
        continue;
      }
      if Lookup(body.values, field.name) != Null {
        failures := failures + [Failure(field.name, "HIDDEN_FIELD")];
      }
    }
    assert fields[..|fields|] == fields;
  }

  // ----- Defaults -----

  function Merged(fields: seq<Field>, validated: map<string, Value>): map<string, Value> {
    if |fields| == 0 then map[]
    else
      var field, merged := fields[|fields| - 1], Merged(fields[..|fields| - 1], validated);
      if IsDisplay(field.kind) then merged
      else if Reads(validated, field.name) then merged[field.name := Lookup(validated, field.name)]
      else if field.fallback.None? || !IsFieldVisible(field, merged) then merged
      else merged[field.name := field.fallback.value]
  }

  method MergeFormDefaults(fields: seq<Field>, validated: map<string, Value>) returns (merged: map<string, Value>)
    ensures merged == Merged(fields, validated)
  {
    merged := map[];
    for i := 0 to |fields|
      invariant merged == Merged(fields[..i], validated)
    {
      var field := fields[i];
      assert fields[..i + 1][..i] == fields[..i];
      if IsDisplay(field.kind) {
        continue;
      }
      if Reads(validated, field.name) {
        merged := merged[field.name := Lookup(validated, field.name)];
        continue;
      }
      if field.fallback.None? {
        continue;
      }
      if !IsFieldVisible(field, merged) {
        continue;
      }
      merged := merged[field.name := field.fallback.value];
    }
    assert fields[..|fields|] == fields;
  }

  method ValidateAndMerge(fields: seq<Field>, input: Option<Body>, ctx: Context) returns (result: Validation)
    ensures result == Bind(fields, input, ctx)
  {
    var validated := ValidateFormInput(fields, input, ctx);
    if validated.Invalid? {
      return validated;
    }
    var merged := MergeFormDefaults(fields, validated.values);
    return Valid(merged);
  }

  function Bind(fields: seq<Field>, input: Option<Body>, ctx: Context): Validation {
    var validated := Validate(fields, input, ctx);
    if validated.Invalid? then validated else Valid(Merged(fields, validated.values))
  }

  // ----- What an accepted submission is -----

  ghost predicate Distinct(fields: seq<Field>) {
    forall i, j :: 0 <= i < j < |fields| ==> fields[i].name != fields[j].name
  }

  lemma {:induction false} FindIsDeclared(fields: seq<Field>, name: string)
    requires Distinct(fields)
    ensures Find(fields, name).Some? ==> Find(fields, name).value in fields && Find(fields, name).value.name == name
    ensures forall f :: f in fields && f.name == name ==> Find(fields, name) == Some(f)
    decreases |fields|
  {
    if |fields| > 0 {
      FindIsDeclared(fields[..|fields| - 1], name);
      assert fields == fields[..|fields| - 1] + [fields[|fields| - 1]];
    }
  }

  lemma {:induction false} NoKeyFailures(fields: seq<Field>, keys: seq<string>)
    ensures |KeyFailures(fields, keys)| == 0 <==> forall k :: k in keys ==> |KeyFailure(fields, k)| == 0
    decreases |keys|
  {
    if |keys| > 0 {
      NoKeyFailures(fields, keys[..|keys| - 1]);
      assert keys == keys[..|keys| - 1] + [keys[|keys| - 1]];
    }
  }

  lemma {:induction false} NoHiddenFailures(fields: seq<Field>, body: Body, ctx: Context)
    ensures |HiddenFailures(fields, body, ctx)| == 0 <==> forall f :: f in fields ==> !IsSmuggled(f, body, ctx)
    decreases |fields|
  {
    if |fields| > 0 {
      NoHiddenFailures(fields[..|fields| - 1], body, ctx);
      assert fields == fields[..|fields| - 1] + [fields[|fields| - 1]];
    }
  }

  lemma LastEntry(fields: seq<Field>, body: Body, ctx: Context)
    requires |fields| > 0
    ensures |EntryFailures(fields, body, ctx)| == 0 <==>
      |EntryFailures(fields[..|fields| - 1], body, ctx)| == 0 && !EntryOutcome(fields[|fields| - 1], body, ctx).Refuse?
  {
  }

  lemma {:induction false} NoEntryFailures(fields: seq<Field>, body: Body, ctx: Context)
    ensures |EntryFailures(fields, body, ctx)| == 0 <==> forall f :: f in fields ==> !EntryOutcome(f, body, ctx).Refuse?
    decreases |fields|
  {
    if |fields| > 0 {
      var init, last := fields[..|fields| - 1], fields[|fields| - 1];
      LastEntry(fields, body, ctx);
      NoEntryFailures(init, body, ctx);
      assert forall f :: f in fields <==> f in init || f == last by {
        assert fields == init + [last];
      }
    }
  }

  /** A key of the body names a declared field that can carry a value. */
  ghost predicate Binds(fields: seq<Field>, key: string) {
    exists f :: f in fields && f.name == key && !IsDisplay(f.kind)
  }

  lemma KeyFailsUnlessBound(fields: seq<Field>, key: string)
    requires WellFormed(fields)
    ensures |KeyFailure(fields, key)| == 0 <==> Binds(fields, key)
  {
    FindIsDeclared(fields, key);
  }

  /** The condition on this field holds over the startup snapshot under the body. */
  ghost predicate JudgedVisible(field: Field, body: Body, ctx: Context) {
    field.condition.Some? ==>
      var c := field.condition.value;
      Lookup(if c.field in body.values then body.values else ctx.snapshot, c.field) == c.equals
  }

  /** A hidden field reads as nothing; a visible one reads as something its type takes, or as nothing when that will do. */
  ghost predicate IsGood(field: Field, body: Body, ctx: Context) {
    var entry := Lookup(body.values, field.name);
    if !JudgedVisible(field, body, ctx) then entry == Null
    else if IsDisplay(field.kind) then true
    else if entry == Null then field.required ==> field.fallback.Some?
    else Fits(field, entry, ctx)
  }

  lemma GoodExactly(field: Field, body: Body, ctx: Context)
    ensures IsGood(field, body, ctx) <==> !IsSmuggled(field, body, ctx) && !EntryOutcome(field, body, ctx).Refuse?
  {
    var entry := Lookup(body.values, field.name);
    EntryExactly(field, entry, ctx);
    EntryIsDecided(field, entry, ctx);
    assert JudgedVisible(field, body, ctx) <==> IsFieldVisible(field, Effective(body, ctx));
  }

  /** Why the second pass refuses: one failure per refused field, with its code. */
  lemma {:induction false} FailuresExactly(fields: seq<Field>, body: Body, ctx: Context, failure: Failure)
    ensures failure in EntryFailures(fields, body, ctx) <==> exists f :: f in fields && f.name == failure.field && FailsWith(f, body, ctx, failure.code)
    decreases |fields|
  {
    if |fields| > 0 {
      var init, last := fields[..|fields| - 1], fields[|fields| - 1];
      FailuresExactly(init, body, ctx, failure);
      LastFails(last, body, ctx, failure.code);
      assert forall f :: f in fields <==> f in init || f == last by {
        assert fields == init + [last];
      }
    }
  }

  ghost predicate FailsWith(field: Field, body: Body, ctx: Context, code: string) {
    var entry := Lookup(body.values, field.name);
    && JudgedVisible(field, body, ctx) && !IsDisplay(field.kind)
    && if entry == Null then field.required && field.fallback.None? && code == "REQUIRED" else Blamed(field, entry, ctx, code)
  }

  lemma LastFails(field: Field, body: Body, ctx: Context, code: string)
    ensures EntryOutcome(field, body, ctx) == Refuse(code) <==> FailsWith(field, body, ctx, code)
  {
    EntryExactly(field, Lookup(body.values, field.name), ctx);
    assert JudgedVisible(field, body, ctx) <==> IsFieldVisible(field, Effective(body, ctx));
  }

  /** The gate accepts a submission exactly when it is an object of at most 200 members, every member names a declared
    * bindable field, nothing hidden carries a value and no visible entry is refused. */
  lemma AcceptedExactly(fields: seq<Field>, input: Option<Body>, ctx: Context)
    requires WellFormed(fields)
    ensures Bind(fields, input, ctx).Valid? <==>
      && input.Some? && |input.value.keys| <= MAX_KEYS
      && (forall k :: k in input.value.keys ==> Binds(fields, k))
      && (forall f :: f in fields ==> !IsSmuggled(f, input.value, ctx) && !EntryOutcome(f, input.value, ctx).Refuse?)
    ensures Bind(fields, input, ctx).Valid? <==>
      && input.Some? && |input.value.keys| <= 200
      && (forall k :: k in input.value.keys ==> Binds(fields, k))
      && (forall f :: f in fields ==> IsGood(f, input.value, ctx))
  {
    if input.Some? {
      var body := input.value;
      forall f ensures IsGood(f, body, ctx) <==> !IsSmuggled(f, body, ctx) && !EntryOutcome(f, body, ctx).Refuse? {
        GoodExactly(f, body, ctx);
      }
      NoKeyFailures(fields, body.keys);
      NoHiddenFailures(fields, body, ctx);
      NoEntryFailures(fields, body, ctx);
      forall k | k in body.keys ensures |KeyFailure(fields, k)| == 0 <==> Binds(fields, k) {
        KeyFailsUnlessBound(fields, k);
      }
    }
  }

  /** A key is refused for naming no declared field, or one that only displays. */
  ghost predicate KeyBlamed(fields: seq<Field>, key: string, code: string) {
    if forall f :: f in fields ==> f.name != key then code == "UNKNOWN_FIELD"
    else code == "DISPLAY_ONLY_FIELD" && forall f :: f in fields && f.name == key ==> IsDisplay(f.kind)
  }

  lemma KeyExactly(fields: seq<Field>, key: string, failure: Failure)
    requires WellFormed(fields)
    ensures failure in KeyFailure(fields, key) <==> failure.field == key && KeyBlamed(fields, key, failure.code)
  {
    FindIsDeclared(fields, key);
  }

  lemma {:induction false} KeysExactly(fields: seq<Field>, keys: seq<string>, failure: Failure)
    requires WellFormed(fields)
    ensures failure in KeyFailures(fields, keys) <==> failure.field in keys && KeyBlamed(fields, failure.field, failure.code)
    decreases |keys|
  {
    if |keys| > 0 {
      KeysExactly(fields, keys[..|keys| - 1], failure);
      KeyExactly(fields, keys[|keys| - 1], failure);
      assert keys == keys[..|keys| - 1] + [keys[|keys| - 1]];
    }
  }

  ghost predicate HiddenBlamed(fields: seq<Field>, body: Body, ctx: Context, failure: Failure) {
    failure.code == "HIDDEN_FIELD" &&
    exists f :: f in fields && f.name == failure.field && !JudgedVisible(f, body, ctx) && Lookup(body.values, f.name) != Null
  }

  lemma {:induction false} HiddenExactly(fields: seq<Field>, body: Body, ctx: Context, failure: Failure)
    ensures failure in HiddenFailures(fields, body, ctx) <==> HiddenBlamed(fields, body, ctx, failure)
    decreases |fields|
  {
    if |fields| > 0 {
      var init, last := fields[..|fields| - 1], fields[|fields| - 1];
      HiddenExactly(init, body, ctx, failure);
      assert JudgedVisible(last, body, ctx) <==> IsFieldVisible(last, Effective(body, ctx));
      assert forall f :: f in fields <==> f in init || f == last by {
        assert fields == init + [last];
      }
    }
  }

  ghost predicate EarlyBlamed(fields: seq<Field>, body: Body, ctx: Context, failure: Failure) {
    (failure.field in body.keys && KeyBlamed(fields, failure.field, failure.code)) || HiddenBlamed(fields, body, ctx, failure)
  }

  lemma EarlyExactly(fields: seq<Field>, body: Body, ctx: Context)
    requires WellFormed(fields)
    ensures var first := KeyFailures(fields, body.keys) + HiddenFailures(fields, body, ctx);
      && (forall failure :: failure in first <==> EarlyBlamed(fields, body, ctx, failure))
      && (|first| > 0 <==> exists failure :: EarlyBlamed(fields, body, ctx, failure))
  {
    var first := KeyFailures(fields, body.keys) + HiddenFailures(fields, body, ctx);
    forall failure ensures failure in first <==> EarlyBlamed(fields, body, ctx, failure) {
      KeysExactly(fields, body.keys, failure);
      HiddenExactly(fields, body, ctx, failure);
    }
    if |first| > 0 {
      assert first[0] in first;
    }
  }

  /** Whom a refused submission blames: if there is a bad key or a hidden value, those alone, and otherwise every entry that
    * is refused. */
  lemma RejectionExactly(fields: seq<Field>, body: Body, ctx: Context, failure: Failure)
    requires WellFormed(fields) && |body.keys| <= 200 && Validate(fields, Some(body), ctx).Invalid?
    ensures failure in Validate(fields, Some(body), ctx).failures <==>
      if exists other :: EarlyBlamed(fields, body, ctx, other) then EarlyBlamed(fields, body, ctx, failure)
      else exists f :: f in fields && f.name == failure.field && FailsWith(f, body, ctx, failure.code)
  {
    EarlyExactly(fields, body, ctx);
    FailuresExactly(fields, body, ctx, failure);
  }

  // ----- What the merge produces -----

  lemma {:induction false} KeptAt(fields: seq<Field>, body: Body, ctx: Context)
    requires Distinct(fields)
    ensures forall k :: k in Kept(fields, body, ctx) ==> exists f :: f in fields && f.name == k
    ensures forall f :: f in fields ==>
      (f.name in Kept(fields, body, ctx) <==> EntryOutcome(f, body, ctx).Keep?)
    ensures forall f :: f in fields && EntryOutcome(f, body, ctx).Keep? ==>
      Kept(fields, body, ctx)[f.name] == EntryOutcome(f, body, ctx).value
    decreases |fields|
  {
    if |fields| > 0 {
      KeptAt(fields[..|fields| - 1], body, ctx);
      assert fields == fields[..|fields| - 1] + [fields[|fields| - 1]];
    }
  }

  /** A field's condition as the merge sees it: only a target declared earlier can satisfy it. */
  ghost predicate MergeVisible(fields: seq<Field>, i: nat, merged: map<string, Value>)
    requires i < |fields|
  {
    fields[i].condition.None? ||
    exists t :: 0 <= t < i && fields[t].name == fields[i].condition.value.field &&
                Lookup(merged, fields[t].name) == fields[i].condition.value.equals
  }

  ghost predicate ConditionsScalar(fields: seq<Field>) {
    forall f :: f in fields && f.condition.Some? ==> IsScalar(f.condition.value.equals)
  }

  lemma {:induction false} MergedNames(fields: seq<Field>, validated: map<string, Value>)
    ensures forall k :: k in Merged(fields, validated) ==> Binds(fields, k)
    decreases |fields|
  {
    if |fields| > 0 {
      MergedNames(fields[..|fields| - 1], validated);
      assert fields == fields[..|fields| - 1] + [fields[|fields| - 1]];
    }
  }

  /** Later fields never touch what an earlier field got. */
  lemma {:induction false} MergedIsStable(fields: seq<Field>, validated: map<string, Value>, n: nat, name: string)
    requires Distinct(fields) && n <= |fields| && exists t :: 0 <= t < n && fields[t].name == name
    ensures Lookup(Merged(fields, validated), name) == Lookup(Merged(fields[..n], validated), name)
    ensures name in Merged(fields, validated) <==> name in Merged(fields[..n], validated)
    decreases |fields|
  {
    if n < |fields| {
      MergedIsStable(fields[..|fields| - 1], validated, n, name);
      assert fields[..|fields| - 1][..n] == fields[..n];
    } else {
      assert fields[..n] == fields;
    }
  }

  /** The merge, field by field: a validated value always wins; a default appears exactly when the field's condition is
    * met by the final value of a target declared before it. */
  lemma MergedAt(fields: seq<Field>, validated: map<string, Value>, i: nat)
    requires Distinct(fields) && ConditionsScalar(fields) && i < |fields|
    ensures var f, merged := fields[i], Merged(fields, validated);
      && (f.name in merged <==> !IsDisplay(f.kind) && (Reads(validated, f.name) || (f.fallback.Some? && MergeVisible(fields, i, merged))))
      && (f.name in merged ==> merged[f.name] == if Reads(validated, f.name) then Lookup(validated, f.name) else f.fallback.value)
  {
    var f, before := fields[i], Merged(fields[..i], validated);
    assert fields[..i + 1][..i] == fields[..i];
    MergedIsStable(fields, validated, i + 1, f.name);
    assert f.name !in before by {
      MergedNames(fields[..i], validated);
    }
    VisibleSoFar(fields, validated, i);
  }

  /** What the merge has bound when it comes to a field decides its condition as the final result does. */
  lemma VisibleSoFar(fields: seq<Field>, validated: map<string, Value>, i: nat)
    requires Distinct(fields) && ConditionsScalar(fields) && i < |fields|
    ensures IsFieldVisible(fields[i], Merged(fields[..i], validated)) <==> MergeVisible(fields, i, Merged(fields, validated))
  {
    if fields[i].condition.Some? {
      var target := fields[i].condition.value.field;
      assert fields[i] in fields;
      if exists t :: 0 <= t < i && fields[t].name == target {
        MergedIsStable(fields, validated, i, target);
      } else {
        MergedNames(fields[..i], validated);
        assert target !in Merged(fields[..i], validated);
      }
    }
  }

  /** The body itself carries a value for the field. */
  predicate Given(field: Field, body: Body) {
    field.name in body.values && body.values[field.name] != Null
  }

  lemma EntryIsDecided(field: Field, entry: Value, ctx: Context)
    ensures CheckEntry(field, entry, ctx).Keep? || CheckEntry(field, entry, ctx).Refuse?
    ensures entry.Inherited? ==> CheckEntry(field, entry, ctx).Refuse?
  {
  }

  lemma OutcomeOfGood(f: Field, body: Body, ctx: Context)
    requires !IsSmuggled(f, body, ctx) && !EntryOutcome(f, body, ctx).Refuse?
    requires Given(f, body) ==> !IsDisplay(f.kind)
    ensures EntryOutcome(f, body, ctx).Keep? <==> Given(f, body)
    ensures Given(f, body) ==> EntryOutcome(f, body, ctx) == CheckEntry(f, body.values[f.name], ctx)
    ensures f.required && !IsDisplay(f.kind) && IsFieldVisible(f, Effective(body, ctx)) ==> Given(f, body) || f.fallback.Some?
    ensures f.name in INHERITED && !IsDisplay(f.kind) ==> f.name in body.values
  {
    EntryIsDecided(f, Lookup(body.values, f.name), ctx);
  }

  /** On an accepted submission a field is kept exactly when it is given, and a visible required one has a default. */
  lemma AcceptedField(fields: seq<Field>, input: Option<Body>, ctx: Context, f: Field)
    requires WellFormed(fields) && Bind(fields, input, ctx).Valid? && BodyOk(input.value) && f in fields
    ensures EntryOutcome(f, input.value, ctx).Keep? <==> Given(f, input.value)
    ensures Given(f, input.value) ==> !IsDisplay(f.kind) && EntryOutcome(f, input.value, ctx) == CheckEntry(f, input.value.values[f.name], ctx)
    ensures f.required && IsFieldVisible(f, Effective(input.value, ctx)) ==> !IsDisplay(f.kind) && (Given(f, input.value) || f.fallback.Some?)
    ensures f.name in INHERITED && !IsDisplay(f.kind) ==> f.name in input.value.values
  {
    AcceptedExactly(fields, input, ctx);
    assert Given(f, input.value) ==> Binds(fields, f.name) by {
      assert Given(f, input.value) ==> f.name in input.value.keys;
    }
    if Given(f, input.value) {
      var g :| g in fields && g.name == f.name && !IsDisplay(g.kind);
      FindIsDeclared(fields, f.name);
      assert g == f;
    }
    OutcomeOfGood(f, input.value, ctx);
  }

  /** A bindable field may have a name that every object inherits. Omitting it, required or not, is then never accepted: it
    * reads as a function, which no field type takes. */
  lemma InheritedCannotBeOmitted(fields: seq<Field>, input: Option<Body>, ctx: Context, f: Field)
    requires WellFormed(fields) && input.Some? && BodyOk(input.value)
    requires f in fields && f.name in INHERITED && !IsDisplay(f.kind) && f.name !in input.value.values
    ensures !Bind(fields, input, ctx).Valid?
  {
    if Bind(fields, input, ctx).Valid? {
      AcceptedField(fields, input, ctx, f);
      assert false;
    }
  }

  /** The bound input of an accepted submission, field by field: a given value is there as validated; the default of an
    * omitted field is there exactly when the merge sees its condition met. A field whose name is inherited and that the
    * body sets to null is bound to the inherited member. */
  lemma BoundAt(fields: seq<Field>, input: Option<Body>, ctx: Context, i: nat)
    requires WellFormed(fields) && Bind(fields, input, ctx).Valid? && BodyOk(input.value) && i < |fields|
    ensures var f, body, bound := fields[i], input.value, Bind(fields, input, ctx).values;
      && (f.name in bound <==>
            || Given(f, body)
            || (f.name in INHERITED && !IsDisplay(f.kind))
            || (f.fallback.Some? && MergeVisible(fields, i, bound)))
      && (f.name in bound && Given(f, body) ==> CheckEntry(f, body.values[f.name], ctx) == Keep(bound[f.name]))
      && (f.name in bound && Given(f, body) ==> Fits(f, body.values[f.name], ctx) && KeptAs(f, body.values[f.name], bound[f.name]))
      && (f.name in bound && !Given(f, body) ==>
            if f.name in INHERITED then bound[f.name] == Inherited(f.name) else f.fallback == Some(bound[f.name]))
  {
    var f, kept := fields[i], Kept(fields, input.value, ctx);
    assert f in fields;
    EntryExactly(f, Lookup(input.value.values, f.name), ctx);
    AcceptedField(fields, input, ctx, f);
    KeptAt(fields, input.value, ctx);
    assert f.name in kept <==> EntryOutcome(f, input.value, ctx).Keep?;
    MergedAt(fields, kept, i);
  }

  /** Nothing else is bound: no undeclared name, no display field, no internal key; and nothing given is lost. */
  lemma BoundKeys(fields: seq<Field>, input: Option<Body>, ctx: Context, k: string)
    requires WellFormed(fields) && Bind(fields, input, ctx).Valid? && BodyOk(input.value)
    ensures k in Bind(fields, input, ctx).values ==> Binds(fields, k) && !(|k| >= 2 && k[0] == '_' && k[1] == '_')
    ensures k in input.value.values && input.value.values[k] != Null ==> k in Bind(fields, input, ctx).values
  {
    MergedNames(fields, Kept(fields, input.value, ctx));
    if k in input.value.values && input.value.values[k] != Null {
      AcceptedExactly(fields, input, ctx);
      assert k in input.value.keys && Binds(fields, k);
      var i :| 0 <= i < |fields| && fields[i].name == k;
      BoundAt(fields, input, ctx, i);
    }
  }

  // ----- Visibility and defaults agree -----

  /** Every condition names a field declared before the one it guards. */
  ghost predicate TargetsEarlier(fields: seq<Field>) {
    forall i :: 0 <= i < |fields| && fields[i].condition.Some? ==>
      exists t :: 0 <= t < i && fields[t].name == fields[i].condition.value.field
  }

  lemma ScalarIsKept(field: Field, entry: Value, ctx: Context)
    requires IsScalar(entry) && CheckEntry(field, entry, ctx).Keep?
    ensures CheckEntry(field, entry, ctx).value == entry
  {
  }

  /** With targets declared earlier and a snapshot that adds nothing to the body, the merge sees every condition the
    * validation saw met. */
  lemma VisibleStaysVisible(fields: seq<Field>, input: Option<Body>, ctx: Context, i: nat)
    requires WellFormed(fields) && TargetsEarlier(fields) && i < |fields|
    requires Bind(fields, input, ctx).Valid? && BodyOk(input.value) && ctx.snapshot.Keys <= input.value.values.Keys
    requires IsFieldVisible(fields[i], Effective(input.value, ctx))
    ensures MergeVisible(fields, i, Bind(fields, input, ctx).values)
  {
    var body, bound := input.value, Bind(fields, input, ctx).values;
    if fields[i].condition.Some? {
      assert fields[i] in fields;
      var c := fields[i].condition.value;
      var t :| 0 <= t < i && fields[t].name == c.field;
      assert Lookup(body.values, c.field) == c.equals;
      BoundAt(fields, input, ctx, t);
      ScalarIsKept(fields[t], c.equals, ctx);
      assert Lookup(bound, fields[t].name) == c.equals;
    }
  }

  /** The promise of the two passes together: every field that validation judged visible and required has a value in
    * the bound input. */
  lemma RequiredIsBound(fields: seq<Field>, input: Option<Body>, ctx: Context, i: nat)
    requires WellFormed(fields) && TargetsEarlier(fields) && i < |fields|
    requires Bind(fields, input, ctx).Valid? && BodyOk(input.value) && ctx.snapshot.Keys <= input.value.values.Keys
    requires fields[i].required && IsFieldVisible(fields[i], Effective(input.value, ctx))
    ensures fields[i].name in Bind(fields, input, ctx).values
  {
    AcceptedField(fields, input, ctx, fields[i]);
    VisibleStaysVisible(fields, input, ctx, i);
    BoundAt(fields, input, ctx, i);
  }

  /** Whether the merge will see field i's condition met, told from declaration and body alone: its target is declared
    * before it, and is given with the condition's value, or is omitted, has that value as its default, and has its own
    * condition met in the same sense. */
  predicate Resolves(fields: seq<Field>, i: nat, body: Body)
    requires i < |fields|
    decreases i, 0
  {
    fields[i].condition.None? ||
    exists t :: 0 <= t < i && fields[t].name == fields[i].condition.value.field && Supplies(fields, t, body, fields[i].condition.value.equals)
  }

  /** Field t ends up bound to this value. */
  predicate Supplies(fields: seq<Field>, t: nat, body: Body, value: Value)
    requires t < |fields|
    decreases t, 1
  {
    if Given(fields[t], body) then body.values[fields[t].name] == value
    else fields[t].name !in INHERITED && fields[t].fallback == Some(value) && Resolves(fields, t, body)
  }

  lemma ScalarIsChecked(field: Field, entry: Value, ctx: Context, value: Value)
    requires IsScalar(value) && CheckEntry(field, entry, ctx).Keep?
    ensures CheckEntry(field, entry, ctx).value == value <==> entry == value
  {
  }

  lemma {:induction false} TargetSupplies(fields: seq<Field>, input: Option<Body>, ctx: Context, t: nat, value: Value)
    requires WellFormed(fields) && t < |fields| && IsScalar(value)
    requires Bind(fields, input, ctx).Valid? && BodyOk(input.value)
    ensures Lookup(Bind(fields, input, ctx).values, fields[t].name) == value <==> Supplies(fields, t, input.value, value)
    decreases t, 1
  {
    BoundAt(fields, input, ctx, t);
    if Given(fields[t], input.value) {
      ScalarIsChecked(fields[t], input.value.values[fields[t].name], ctx, value);
    } else {
      MergeResolves(fields, input, ctx, t);
    }
  }

  /** The recursive reading is exact. */
  lemma {:induction false} MergeResolves(fields: seq<Field>, input: Option<Body>, ctx: Context, i: nat)
    requires WellFormed(fields) && i < |fields|
    requires Bind(fields, input, ctx).Valid? && BodyOk(input.value)
    ensures MergeVisible(fields, i, Bind(fields, input, ctx).values) <==> Resolves(fields, i, input.value)
    decreases i, 0
  {
    if fields[i].condition.Some? {
      assert fields[i] in fields;
      forall t | 0 <= t < i
        ensures Lookup(Bind(fields, input, ctx).values, fields[t].name) == fields[i].condition.value.equals <==>
                Supplies(fields, t, input.value, fields[i].condition.value.equals)
      {
        TargetSupplies(fields, input, ctx, t, fields[i].condition.value.equals);
      }
    }
  }

  /** Without those two hypotheses: a field that validation judged visible and required is bound exactly when the body
    * carries it or its condition resolves over declaration and body. */
  lemma RequiredIsBoundExactly(fields: seq<Field>, input: Option<Body>, ctx: Context, i: nat)
    requires WellFormed(fields) && i < |fields|
    requires Bind(fields, input, ctx).Valid? && BodyOk(input.value)
    requires fields[i].required && IsFieldVisible(fields[i], Effective(input.value, ctx))
    ensures fields[i].name in Bind(fields, input, ctx).values <==>
      Given(fields[i], input.value) || fields[i].name in INHERITED || Resolves(fields, i, input.value)
  {
    AcceptedField(fields, input, ctx, fields[i]);
    BoundAt(fields, input, ctx, i);
    MergeResolves(fields, input, ctx, i);
  }

  /** Judged by what the merge sees instead, a required field whose condition resolves is missing exactly when it has no
    * default and validation had judged it hidden. */
  lemma RequiredInBoundExactly(fields: seq<Field>, input: Option<Body>, ctx: Context, i: nat)
    requires WellFormed(fields) && i < |fields| && fields[i].required
    requires Bind(fields, input, ctx).Valid? && BodyOk(input.value)
    requires Resolves(fields, i, input.value)
    ensures fields[i].name !in Bind(fields, input, ctx).values <==>
      fields[i].name !in INHERITED && fields[i].fallback.None? && !IsFieldVisible(fields[i], Effective(input.value, ctx))
  {
    AcceptedField(fields, input, ctx, fields[i]);
    BoundAt(fields, input, ctx, i);
    MergeResolves(fields, input, ctx, i);
    AcceptedExactly(fields, input, ctx);
    assert fields[i] in fields && !IsSmuggled(fields[i], input.value, ctx);
  }

  // ----- When the two passes agree -----

  /** The two passes judge field i alike: validation over snapshot and body, the merge over what ends up bound. */
  ghost predicate Agree(fields: seq<Field>, i: nat, body: Body, ctx: Context, bound: map<string, Value>)
    requires i < |fields|
  {
    IsFieldVisible(fields[i], Effective(body, ctx)) <==> MergeVisible(fields, i, bound)
  }

  /** The body meets a condition on a field that is not declared earlier. */
  predicate MetTooLate(fields: seq<Field>, i: nat, body: Body)
    requires i < |fields| && fields[i].condition.Some?
  {
    var c := fields[i].condition.value;
    c.field in body.values && body.values[c.field] == c.equals && forall t :: 0 <= t < i ==> fields[t].name != c.field
  }

  /** The body leaves the target out and the startup snapshot meets the condition. */
  predicate MetBySnapshot(fields: seq<Field>, i: nat, body: Body, ctx: Context)
    requires i < |fields| && fields[i].condition.Some?
  {
    var c := fields[i].condition.value;
    c.field !in body.values && c.field in ctx.snapshot && ctx.snapshot[c.field] == c.equals
  }

  /** The body gives the target no value and the default of an earlier-declared target meets the condition. */
  predicate MetByDefault(fields: seq<Field>, i: nat, body: Body)
    requires i < |fields| && fields[i].condition.Some?
  {
    exists t :: 0 <= t < i && fields[t].name == fields[i].condition.value.field && !Given(fields[t], body)
                && Supplies(fields, t, body, fields[i].condition.value.equals)
  }

  /** What makes them differ, from declaration, body and snapshot. */
  predicate Differ(fields: seq<Field>, i: nat, body: Body, ctx: Context)
    requires i < |fields|
  {
    fields[i].condition.Some? &&
    (MetTooLate(fields, i, body) || (MetBySnapshot(fields, i, body, ctx) <==> !MetByDefault(fields, i, body)))
  }

  /** Validation sees a condition met by the body or, failing an entry there, by the snapshot. */
  lemma ValidationSees(fields: seq<Field>, i: nat, body: Body, ctx: Context)
    requires WellFormed(fields) && i < |fields| && fields[i].condition.Some?
    ensures var c := fields[i].condition.value;
      IsFieldVisible(fields[i], Effective(body, ctx)) <==>
      (c.field in body.values && body.values[c.field] == c.equals) || MetBySnapshot(fields, i, body, ctx)
  {
    assert fields[i] in fields;
    assert IsScalar(fields[i].condition.value.equals);
  }

  /** The merge sees it met by an earlier target's value or, failing one, by its default. */
  lemma MergeSees(fields: seq<Field>, i: nat, body: Body)
    requires WellFormed(fields) && i < |fields| && fields[i].condition.Some?
    ensures var c := fields[i].condition.value;
      Resolves(fields, i, body) <==>
      || (c.field in body.values && body.values[c.field] == c.equals && !MetTooLate(fields, i, body))
      || MetByDefault(fields, i, body)
  {
    var c := fields[i].condition.value;
    assert fields[i] in fields;
    assert IsScalar(c.equals);
    if c.field in body.values && body.values[c.field] == c.equals && !MetTooLate(fields, i, body) {
      var t :| 0 <= t < i && fields[t].name == c.field;
      assert Supplies(fields, t, body, c.equals);
    }
  }

  /** The two passes judge a field differently exactly when the body meets its condition on a field not declared earlier, or
    * exactly one of snapshot and earlier default meets it in the body's place. */
  lemma DifferExactly(fields: seq<Field>, input: Option<Body>, ctx: Context, i: nat)
    requires WellFormed(fields) && i < |fields| && Bind(fields, input, ctx).Valid? && BodyOk(input.value)
    ensures Agree(fields, i, input.value, ctx, Bind(fields, input, ctx).values) <==> !Differ(fields, i, input.value, ctx)
  {
    MergeResolves(fields, input, ctx, i);
    if fields[i].condition.Some? {
      var c, body := fields[i].condition.value, input.value;
      assert fields[i] in fields && IsScalar(c.equals);
      ValidationSees(fields, i, body, ctx);
      MergeSees(fields, i, body);
      if c.field in body.values && body.values[c.field] == c.equals {
        forall t | 0 <= t < i && fields[t].name == c.field ensures Given(fields[t], body) {
        }
        assert !MetByDefault(fields, i, body);
      }
    }
  }

  /** So they agree on a whole submission exactly when no field's condition is of that kind. */
  lemma PassesAgreeExactly(fields: seq<Field>, input: Option<Body>, ctx: Context)
    requires WellFormed(fields) && Bind(fields, input, ctx).Valid? && BodyOk(input.value)
    ensures (forall i :: 0 <= i < |fields| ==> Agree(fields, i, input.value, ctx, Bind(fields, input, ctx).values)) <==>
            (forall i :: 0 <= i < |fields| ==> !Differ(fields, i, input.value, ctx))
  {
    forall i | 0 <= i < |fields|
      ensures Agree(fields, i, input.value, ctx, Bind(fields, input, ctx).values) <==> !Differ(fields, i, input.value, ctx)
    {
      DifferExactly(fields, input, ctx, i);
    }
  }

  /** Targets declared earlier and a snapshot that adds nothing leave one way to differ: an omitted target's own default. */
  lemma OnlyDefaultsDiffer(fields: seq<Field>, body: Body, ctx: Context, i: nat)
    requires WellFormed(fields) && TargetsEarlier(fields) && i < |fields| && fields[i].condition.Some?
    requires ctx.snapshot.Keys <= body.values.Keys
    ensures Differ(fields, i, body, ctx) <==> MetByDefault(fields, i, body)
  {
    assert exists t :: 0 <= t < i && fields[t].name == fields[i].condition.value.field;
  }

  /** Where the passes agree on a required field it is bound exactly when they judge it visible. */
  lemma AgreementBindsRequired(fields: seq<Field>, input: Option<Body>, ctx: Context, i: nat)
    requires WellFormed(fields) && i < |fields| && fields[i].required && fields[i].name !in INHERITED
    requires Bind(fields, input, ctx).Valid? && BodyOk(input.value) && !Differ(fields, i, input.value, ctx)
    ensures fields[i].name in Bind(fields, input, ctx).values <==> IsFieldVisible(fields[i], Effective(input.value, ctx))
  {
    DifferExactly(fields, input, ctx, i);
    AcceptedField(fields, input, ctx, fields[i]);
    BoundAt(fields, input, ctx, i);
    AcceptedExactly(fields, input, ctx);
    assert fields[i] in fields && !IsSmuggled(fields[i], input.value, ctx);
  }

  // ----- Submissions on which the two passes disagree -----

  const LENIENT := Checks(_ => 0, (_, _) => true, (_, _) => true)

  function TextField(name: string, required: bool, fallback: Option<Value>, condition: Option<Condition>): Field {
    Field(name, Text, required, 1024, fallback, None, condition, None, None, None)
  }

  const WHEN_T: Option<Condition> := Some(Condition("t", Str("x")))

  lemma PlainNames()
    ensures "t" !in INHERITED && "f" !in INHERITED
  {
    assert forall n :: n in INHERITED ==> |n| > 1;
  }

  /** A condition on a field declared later: validation sees it met, the merge does not, and the required field's
    * default is dropped. */
  lemma ForwardTargetDropsRequired()
    ensures var fields := [TextField("f", true, Some(Str("d")), WHEN_T), TextField("t", false, None, None)];
      var input, ctx := Some(Body(["t"], map["t" := Str("x")])), Context(map[], map[], LENIENT);
      && WellFormed(fields) && Bind(fields, input, ctx).Valid?
      && fields[0].required && IsFieldVisible(fields[0], Effective(input.value, ctx))
      && fields[0].name !in Bind(fields, input, ctx).values
  {
    var fields := [TextField("f", true, Some(Str("d")), WHEN_T), TextField("t", false, None, None)];
    var input, ctx := Some(Body(["t"], map["t" := Str("x")])), Context(map[], map[], LENIENT);
    PlainNames();
    assert fields[1].name == "t" && fields[1] in fields;
    assert Binds(fields, "t");
    AcceptedExactly(fields, input, ctx);
    BoundAt(fields, input, ctx, 0);
  }

  /** A condition met only by the startup snapshot: same outcome. */
  lemma SnapshotConditionDropsRequired()
    ensures var fields := [TextField("t", false, None, None), TextField("f", true, Some(Str("d")), WHEN_T)];
      var input, ctx := Some(Body([], map[])), Context(map["t" := Str("x")], map[], LENIENT);
      && WellFormed(fields) && TargetsEarlier(fields) && Bind(fields, input, ctx).Valid?
      && fields[1].required && IsFieldVisible(fields[1], Effective(input.value, ctx))
      && fields[1].name !in Bind(fields, input, ctx).values
  {
    var fields := [TextField("t", false, None, None), TextField("f", true, Some(Str("d")), WHEN_T)];
    var input, ctx := Some(Body([], map[])), Context(map["t" := Str("x")], map[], LENIENT);
    PlainNames();
    assert fields[0].name == "t" && fields[0] in fields;
    AcceptedExactly(fields, input, ctx);
    BoundAt(fields, input, ctx, 0);
    BoundAt(fields, input, ctx, 1);
  }

  /** A target's own default meets the condition after validation judged it unmet, because the session was prefilled with
    * another value or not at all: the bound input then satisfies the condition of a required field that it does not
    * carry. */
  lemma DefaultRevealsRequired(prefill: map<string, Value>)
    requires prefill == map[] || exists v :: v != "x" && prefill == map["t" := Str(v)]
    ensures var fields := [TextField("t", false, Some(Str("x")), None), TextField("f", true, None, WHEN_T)];
      var input, ctx := Some(Body([], map[])), Context(prefill, map[], LENIENT);
      && WellFormed(fields) && TargetsEarlier(fields) && Bind(fields, input, ctx).Valid?
      && !IsFieldVisible(fields[1], Effective(input.value, ctx))
      && fields[1].required && IsFieldVisible(fields[1], Bind(fields, input, ctx).values)
      && fields[1].name !in Bind(fields, input, ctx).values
  {
    var fields := [TextField("t", false, Some(Str("x")), None), TextField("f", true, None, WHEN_T)];
    var input, ctx := Some(Body([], map[])), Context(prefill, map[], LENIENT);
    PlainNames();
    assert fields[0].name == "t" && fields[0] in fields;
    AcceptedExactly(fields, input, ctx);
    BoundAt(fields, input, ctx, 0);
    BoundAt(fields, input, ctx, 1);
  }

}
