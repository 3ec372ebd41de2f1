/**
 * The snapshot of a manifest that the ledger keeps (`core/manifest.py`), and its round trip: what
 * the validator accepted once, it accepts again from the ledger, and reads the same from it.
 */
module Snapshot {
  import opened Prelude
  import opened Values
  import opened Manifest
  import P = Placeholders

  function Entry(key: string, v: Option<Raw>): map<string, Raw> {
    if v.Some? then map[key := v.value] else map[]
  }

  function OptStr(s: Option<string>): Option<Raw> {
    if s.Some? then Some(Str(s.value)) else None
  }

  function LengthEntry(p: ParamSpec): Option<Raw> {
    if p.kind.StringType? && p.maxLength != DEFAULT_MAX_LENGTH then Some(Int(p.maxLength)) else None
  }

  function ChoicesEntry(p: ParamSpec): Option<Raw> {
    if p.choices.Some? then Some(FromStrings(p.choices.value)) else None
  }

  /** The snapshot of one param: its type, and what is set beyond the defaults. */
  function ParamTable(p: ParamSpec): map<string, Raw> {
    map["type" := Str(TypeName(p.kind))]
    + Entry("default", p.default)
    + Entry("min", p.min)
    + Entry("max", p.max)
    + Entry("choices", ChoicesEntry(p))
    + Entry("pattern", OptStr(p.pattern))
    + Entry("max_length", LengthEntry(p))
    + Entry("flag", OptStr(p.flag))
    + Entry("description", OptStr(p.description))
  }

  function EnvTable(e: EnvSpec): map<string, Raw> {
    map["required" := Bool(e.required), "description" := Str(e.description)] + Entry("help_url", OptStr(e.helpUrl))
  }

  /** Known devices in alphabetical order. */
  function SortedDevices(ds: set<string>): seq<string> {
    (if "audio" in ds then ["audio"] else [])
    + (if "camera" in ds then ["camera"] else [])
    + (if "motor_display" in ds then ["motor_display"] else [])
  }

  function MapValues<A, B>(m: map<string, A>, f: A -> B): map<string, B> {
    map n | n in m :: f(m[n])
  }

  function EnvRaw(e: EnvSpec): Raw {
    Table(EnvTable(e))
  }

  function ParamRaw(p: ParamSpec): Raw {
    Table(ParamTable(p))
  }

  function EnvTables(env: map<string, EnvSpec>): map<string, Raw> {
    MapValues(env, EnvRaw)
  }

  function ParamTables(params: map<string, ParamSpec>): map<string, Raw> {
    MapValues(params, ParamRaw)
  }

  function ManifestTable(m: Manifest): map<string, Raw> {
    map[
      "schema" := Int(m.schema),
      "name" := Str(m.name),
      "description" := Str(m.description),
      "command" := FromStrings(m.command),
      "url" := if m.url.Some? then Str(m.url.value) else Null,
      "devices" := FromStrings(SortedDevices(m.devices)),
      "env" := Table(EnvTables(m.env)),
      "params" := Table(ParamTables(m.params))]
  }

  /** `if x is not None: value[key] = x`. */
  method Put(value: map<string, Raw>, key: string, x: Option<Raw>) returns (r: map<string, Raw>)
    ensures r == value + Entry(key, x)
  {
    r := value;
    if x.Some? {
      r := r[key := x.value];
    }
  }

  method ParamSnapshot(p: ParamSpec) returns (value: map<string, Raw>)
    ensures value == ParamTable(p)
  {
    value := map["type" := Str(TypeName(p.kind))];
    value := Put(value, "default", p.default);
    value := Put(value, "min", p.min);
    value := Put(value, "max", p.max);
    value := Put(value, "choices", ChoicesEntry(p));
    value := Put(value, "pattern", OptStr(p.pattern));
    value := Put(value, "max_length", LengthEntry(p));
    value := Put(value, "flag", OptStr(p.flag));
    value := Put(value, "description", OptStr(p.description));
  }

  lemma MapValuesGrows<A, B>(m: map<string, A>, f: A -> B, n: string, a: A)
    ensures MapValues(m[n := a], f) == MapValues(m, f)[n := f(a)]
  {
  }

  method ParamsSnapshot(specs: map<string, ParamSpec>) returns (params: map<string, Raw>)
    ensures params == ParamTables(specs)
  {
    params := map[];
    ghost var done: map<string, ParamSpec> := map[];
    var left := specs.Keys;
    while left != {}
      invariant left <= specs.Keys && done == map n | n in specs && n !in left :: specs[n]
      invariant params == MapValues(done, ParamRaw)
      decreases left
    {
      var name :| name in left;
      left := left - {name};
      var value := ParamSnapshot(specs[name]);
      params := params[name := Table(value)];
      MapValuesGrows(done, ParamRaw, name, specs[name]);
      done := done[name := specs[name]];
    }
    assert done == specs;
  }

  method ManifestSnapshot(m: Manifest) returns (snapshot: map<string, Raw>)
    ensures snapshot == ManifestTable(m)
  {
    var params := ParamsSnapshot(m.params);
    snapshot := map[
      "schema" := Int(m.schema),
      "name" := Str(m.name),
      "description" := Str(m.description),
      "command" := FromStrings(m.command),
      "url" := if m.url.Some? then Str(m.url.value) else Null,
      "devices" := FromStrings(SortedDevices(m.devices)),
      "env" := Table(EnvTables(m.env)),
      "params" := Table(params)];
  }

  // ----- Round trip, piece by piece -----

  lemma EnvRoundTrip(n: string, raw: Raw)
    requires FaultOfEnv(n, raw).None?
    ensures var e := EnvOf(n, raw);
            FaultOfEnv(n, EnvRaw(e)).None? && EnvOf(n, EnvRaw(e)) == e
  {
  }

  /** A param as `ParamByType` can return it. */
  predicate Shaped(rx: Regex, p: ParamSpec) {
    var blank := ParamSpec(p.kind, p.default, None, None, None, None, DEFAULT_MAX_LENGTH, None, p.description);
    match p.kind
    case BoolType => p == blank.(flag := p.flag) && p.flag.Some? && p.flag.value != ""
    case EnumType => p == blank.(choices := p.choices) && p.choices.Some? && p.choices.value != []
    case StringType =>
      p == blank.(pattern := p.pattern, maxLength := p.maxLength) && p.maxLength > 0
      && (p.pattern.Some? ==> PatternOk(rx, p.pattern.value))
    case _ =>
      p == blank.(min := p.min, max := p.max)
      && (p.min.Some? ==> FiniteNumber(p.min.value)) && (p.max.Some? ==> FiniteNumber(p.max.value))
  }

  lemma ParsedIsShaped(rx: Regex, n: string, raw: Raw)
    requires ParseParam(rx, n, raw).Spec?
    ensures Shaped(rx, ParseParam(rx, n, raw).spec)
  {
  }

  /** A key's value in the snapshot of a param: the key that was set last comes first. */
  function ParamField(p: ParamSpec, k: string): Option<Raw> {
    if k == "description" && p.description.Some? then OptStr(p.description)
    else if k == "flag" && p.flag.Some? then OptStr(p.flag)
    else if k == "max_length" && LengthEntry(p).Some? then LengthEntry(p)
    else if k == "pattern" && p.pattern.Some? then OptStr(p.pattern)
    else if k == "choices" && p.choices.Some? then ChoicesEntry(p)
    else if k == "max" && p.max.Some? then p.max
    else if k == "min" && p.min.Some? then p.min
    else if k == "default" && p.default.Some? then p.default
    else if k == "type" then Some(Str(TypeName(p.kind)))
    else None
  }

  lemma EntryAdds(t: map<string, Raw>, key: string, v: Option<Raw>, k: string)
    ensures Get(t + Entry(key, v), k) == if k == key && v.Some? then v else Get(t, k)
  {
  }

  lemma TableField(p: ParamSpec, k: string)
    ensures Get(ParamTable(p), k) == ParamField(p, k)
  {
    var t0: map<string, Raw> := map["type" := Str(TypeName(p.kind))];
    var t1 := t0 + Entry("default", p.default);
    var t2 := t1 + Entry("min", p.min);
    var t3 := t2 + Entry("max", p.max);
    var t4 := t3 + Entry("choices", ChoicesEntry(p));
    var t5 := t4 + Entry("pattern", OptStr(p.pattern));
    var t6 := t5 + Entry("max_length", LengthEntry(p));
    var t7 := t6 + Entry("flag", OptStr(p.flag));
    EntryAdds(t0, "default", p.default, k);
    EntryAdds(t1, "min", p.min, k);
    EntryAdds(t2, "max", p.max, k);
    EntryAdds(t3, "choices", ChoicesEntry(p), k);
    EntryAdds(t4, "pattern", OptStr(p.pattern), k);
    EntryAdds(t5, "max_length", LengthEntry(p), k);
    EntryAdds(t6, "flag", OptStr(p.flag), k);
    EntryAdds(t7, "description", OptStr(p.description), k);
  }

  lemma SharedFields(p: ParamSpec)
    ensures ParamField(p, "type") == Some(Str(TypeName(p.kind))) && ParamField(p, "default") == p.default
    ensures ParamField(p, "description") == OptStr(p.description)
  {
  }

  lemma BoundFields(p: ParamSpec)
    ensures ParamField(p, "min") == p.min && ParamField(p, "max") == p.max
  {
  }

  lemma TextFields(p: ParamSpec)
    ensures ParamField(p, "pattern") == OptStr(p.pattern) && ParamField(p, "max_length") == LengthEntry(p)
  {
  }

  lemma ChoiceFields(p: ParamSpec)
    ensures ParamField(p, "choices") == ChoicesEntry(p) && ParamField(p, "flag") == OptStr(p.flag)
  {
  }

  lemma TableKeys(rx: Regex, p: ParamSpec)
    requires Shaped(rx, p)
    ensures ParamTable(p).Keys <= {"type", "default", "description"} + ExtraKeys(p.kind)
  {
    forall k | k in ParamTable(p) ensures k in {"type", "default", "description"} + ExtraKeys(p.kind) {
      TableField(p, k);
    }
  }

  lemma FieldIs(t: map<string, Raw>, k: string)
    ensures Field(t, k) == if Get(t, k).Some? then Get(t, k).value else Null
    ensures k in t <==> Get(t, k).Some?
    ensures k in t ==> t[k] == Get(t, k).value
  {
  }

  lemma BoolRoundTrip(rx: Regex, p: ParamSpec)
    requires Shaped(rx, p) && p.kind.BoolType?
    ensures ParamByType(rx, p.kind, ParamTable(p), p.default, p.description) == Spec(p)
  {
    TableField(p, "flag");
    ChoiceFields(p);
    FieldIs(ParamTable(p), "flag");
  }

  lemma EnumRoundTrip(rx: Regex, p: ParamSpec)
    requires Shaped(rx, p) && p.kind.EnumType?
    ensures ParamByType(rx, p.kind, ParamTable(p), p.default, p.description) == Spec(p)
  {
    TableField(p, "choices");
    ChoiceFields(p);
    FieldIs(ParamTable(p), "choices");
    assert |FromStrings(p.choices.value).items| == |p.choices.value|;
  }

  lemma StringRoundTrip(rx: Regex, p: ParamSpec)
    requires Shaped(rx, p) && p.kind.StringType?
    ensures ParamByType(rx, p.kind, ParamTable(p), p.default, p.description) == Spec(p)
  {
    TableField(p, "pattern");
    TableField(p, "max_length");
    TextFields(p);
    FieldIs(ParamTable(p), "pattern");
    FieldIs(ParamTable(p), "max_length");
  }

  lemma NumberRoundTrip(rx: Regex, p: ParamSpec)
    requires Shaped(rx, p) && (p.kind.IntType? || p.kind.FloatType?)
    ensures ParamByType(rx, p.kind, ParamTable(p), p.default, p.description) == Spec(p)
  {
    TableField(p, "min");
    TableField(p, "max");
    BoundFields(p);
    FieldIs(ParamTable(p), "min");
    FieldIs(ParamTable(p), "max");
  }

  lemma ByTypeRoundTrip(rx: Regex, p: ParamSpec)
    requires Shaped(rx, p)
    ensures ParamByType(rx, p.kind, ParamTable(p), p.default, p.description) == Spec(p)
  {
    match p.kind {
      case BoolType => BoolRoundTrip(rx, p);
      case EnumType => EnumRoundTrip(rx, p);
      case StringType => StringRoundTrip(rx, p);
      case _ => NumberRoundTrip(rx, p);
    }
  }

  lemma TypeNameRoundTrip(k: ParamType)
    ensures TypeNamed(TypeName(k)) == Some(k)
  {
  }

  lemma ParamTableRoundTrip(rx: Regex, p: ParamSpec)
    requires Shaped(rx, p)
    ensures ParseParamTable(rx, ParamTable(p)) == Spec(p)
  {
    TableField(p, "type");
    TableField(p, "default");
    TableField(p, "description");
    SharedFields(p);
    FieldIs(ParamTable(p), "type");
    FieldIs(ParamTable(p), "description");
    TypeNameRoundTrip(p.kind);
    TableKeys(rx, p);
    ByTypeRoundTrip(rx, p);
  }

  lemma {:induction false} ParamRoundTrip(rx: Regex, n: string, raw: Raw)
    requires ParseParam(rx, n, raw).Spec?
    ensures ParseParam(rx, n, ParamRaw(ParseParam(rx, n, raw).spec)) == ParseParam(rx, n, raw)
  {
    ParsedIsShaped(rx, n, raw);
    ParamTableRoundTrip(rx, ParseParam(rx, n, raw).spec);
  }

  lemma DevicesRoundTrip(ds: set<string>)
    requires ds <= KNOWN_DEVICES
    ensures ds == set d | d in SortedDevices(ds)
  {
  }

  // ----- Round trip -----

  lemma EnvsRoundTrip(table: map<string, Raw>, again: map<string, Raw>)
    requires forall n | n in table :: FaultOfEnv(n, table[n]).None?
    requires again == EnvTables(EnvIn(table))
    ensures forall n | n in again :: FaultOfEnv(n, again[n]).None?
    ensures EnvIn(again) == EnvIn(table)
  {
    assert again.Keys == table.Keys;
    forall n | n in again ensures FaultOfEnv(n, again[n]).None? && EnvEntry(n, again[n]) == EnvEntry(n, table[n]) {
      assert again[n] == EnvRaw(EnvOf(n, table[n]));
      EnvRoundTrip(n, table[n]);
    }
    EnvInCollects(again);
    EnvInCollects(table);
    SameCollection(again, table, EnvEntry);
  }

  function EnvEntry(n: string, raw: Raw): Option<EnvSpec> {
    if FaultOfEnv(n, raw).None? then Some(EnvOf(n, raw)) else None
  }

  /** The entries of a table that mean something. */
  function Collect<A, B>(table: map<string, A>, f: (string, A) -> Option<B>): map<string, B> {
    map n | n in table && f(n, table[n]).Some? :: f(n, table[n]).value
  }

  lemma EnvInCollects(table: map<string, Raw>)
    ensures EnvIn(table) == Collect(table, EnvEntry)
  {
  }

  lemma SameCollection<A, B>(a: map<string, A>, b: map<string, A>, f: (string, A) -> Option<B>)
    requires a.Keys == b.Keys && forall n | n in a :: f(n, a[n]) == f(n, b[n])
    ensures Collect(a, f) == Collect(b, f)
  {
  }

  lemma ParamsRoundTrip(rx: Regex, table: map<string, Raw>, again: map<string, Raw>)
    requires forall n | n in table :: ParseParam(rx, n, table[n]).Spec? && ParamFaults(rx, n, table[n]) == {}
    requires again == ParamTables(ParamsIn(rx, table))
    ensures forall n | n in again :: ParseParam(rx, n, again[n]).Spec? && ParamFaults(rx, n, again[n]) == {}
    ensures ParamsIn(rx, again) == ParamsIn(rx, table)
  {
    assert again.Keys == table.Keys;
    forall n | n in again
      ensures ParseParam(rx, n, again[n]) == ParseParam(rx, n, table[n]) && ParamFaults(rx, n, again[n]) == {}
    {
      assert again[n] == ParamRaw(ParseParam(rx, n, table[n]).spec);
      ParamRoundTrip(rx, n, table[n]);
      SameParseSameFaults(rx, n, again[n], table[n]);
    }
    SameParsesSameParams(rx, again, table);
  }

  lemma SameParsesSameParams(rx: Regex, a: map<string, Raw>, b: map<string, Raw>)
    requires a.Keys == b.Keys && forall n | n in a :: ParseParam(rx, n, a[n]) == ParseParam(rx, n, b[n])
    ensures ParamsIn(rx, a) == ParamsIn(rx, b)
  {
  }

  lemma SameParseSameFaults(rx: Regex, n: string, a: Raw, b: Raw)
    requires ParseParam(rx, n, a) == ParseParam(rx, n, b)
    ensures ParamFaults(rx, n, a) == ParamFaults(rx, n, b)
  {
  }

  lemma EntriesAreFaultless(rx: Regex, raw: map<string, Raw>)
    requires Acceptable(rx, raw)
    ensures var env, params := TableOf(SubTable(raw, "env")), TableOf(SubTable(raw, "params"));
            && (forall n | n in env :: FaultOfEnv(n, env[n]).None?)
            && (forall n | n in params :: ParseParam(rx, n, params[n]).Spec? && ParamFaults(rx, n, params[n]) == {})
  {
    var env, params := TableOf(SubTable(raw, "env")), TableOf(SubTable(raw, "params"));
    forall n | n in env ensures FaultOfEnv(n, env[n]).None? {
      if FaultOfEnv(n, env[n]).Some? {
        assert Violates(rx, raw, BadEnv(n, FaultOfEnv(n, env[n]).value));
      }
    }
    forall n | n in params ensures ParseParam(rx, n, params[n]).Spec? && ParamFaults(rx, n, params[n]) == {} {
      forall f ensures f !in ParamFaults(rx, n, params[n]) {
        assert !Violates(rx, raw, BadParam(n, f));
      }
      ParsedOrFaulty(rx, n, params[n]);
    }
  }

  lemma ParsedOrFaulty(rx: Regex, n: string, raw: Raw)
    ensures || ParseParam(rx, n, raw).Spec? || ParseParam(rx, n, raw).Crash?
            || (ParseParam(rx, n, raw).Fault? && ParamFaults(rx, n, raw) == {ParseParam(rx, n, raw).fault})
  {
  }

  lemma SnapshotTexts(m: Manifest)
    ensures var t := ManifestTable(m);
            && t["schema"] == Int(m.schema) && t["name"] == Str(m.name) && t["description"] == Str(m.description)
            && t["command"] == FromStrings(m.command)
  {
  }

  lemma SnapshotTables(m: Manifest)
    ensures var t := ManifestTable(m);
            && t["url"] == (if m.url.Some? then Str(m.url.value) else Null)
            && t["devices"] == FromStrings(SortedDevices(m.devices))
            && t["env"] == Table(EnvTables(m.env)) && t["params"] == Table(ParamTables(m.params))
  {
  }

  lemma SnapshotKeys(m: Manifest)
    ensures ManifestTable(m).Keys == TOP_LEVEL_KEYS
  {
  }

  lemma SnapshotTextsOk(rx: Regex, raw: map<string, Raw>, m: Manifest)
    requires Acceptable(rx, raw) && m == Meaning(rx, raw)
    ensures forall v | TextViolation(v) :: !Violates(rx, ManifestTable(m), v)
  {
    assert !Violates(rx, raw, BadName) && !Violates(rx, raw, BadDescription) && !Violates(rx, raw, BadCommand)
           && !Violates(rx, raw, BadUrl);
    SnapshotTexts(m);
    SnapshotTables(m);
    assert |FromStrings(m.command).items| == |m.command|;
  }

  lemma SnapshotDevicesOk(rx: Regex, raw: map<string, Raw>, m: Manifest)
    requires Acceptable(rx, raw) && m == Meaning(rx, raw)
    ensures forall v | KeyViolation(v) :: !Violates(rx, ManifestTable(m), v)
    ensures m.devices == set d | d in Strings(DevicesOf(ManifestTable(m)))
  {
    assert m.devices <= KNOWN_DEVICES by {
      forall d | d in m.devices ensures d in KNOWN_DEVICES {
        assert !Violates(rx, raw, UnknownDevice(d)) && !Violates(rx, raw, BadDevices);
      }
    }
    DevicesRoundTrip(m.devices);
    SnapshotTables(m);
    SnapshotKeys(m);
    assert DevicesOf(ManifestTable(m)) == FromStrings(SortedDevices(m.devices));
  }

  lemma SnapshotTemplates(rx: Regex, raw: map<string, Raw>, m: Manifest)
    requires Acceptable(rx, raw) && m == Meaning(rx, raw)
    ensures Templates(ManifestTable(m), InCommand) == Templates(raw, InCommand) == m.command
    ensures Templates(ManifestTable(m), InUrl) == Templates(raw, InUrl)
    ensures OptText(Field(ManifestTable(m), "url")) == m.url
  {
    assert !Violates(rx, raw, BadCommand) && !Violates(rx, raw, BadUrl);
    SnapshotTexts(m);
    SnapshotTables(m);
    assert |FromStrings(m.command).items| == |m.command|;
  }

  /**
   * Round trip. For every document the validator accepts, whatever translations its companion file
   * adds, the snapshot of its manifest is accepted too and stands for the same manifest without them.
   */
  lemma {:induction false} SnapshotRoundTrip(rx: Regex, raw: map<string, Raw>, translations: map<string, map<string, string>>)
    requires Acceptable(rx, raw)
    ensures var m := Meaning(rx, raw).(translations := translations);
            && Acceptable(rx, ManifestTable(m))
            && Meaning(rx, ManifestTable(m)) == m.(translations := map[])
  {
    var m := Meaning(rx, raw);
    var again := ManifestTable(m);
    assert again == ManifestTable(m.(translations := translations));
    EntriesAreFaultless(rx, raw);
    SnapshotTables(m);
    EnvsRoundTrip(TableOf(SubTable(raw, "env")), again["env"].entries);
    ParamsRoundTrip(rx, TableOf(SubTable(raw, "params")), again["params"].entries);
    SnapshotTextsOk(rx, raw, m);
    SnapshotDevicesOk(rx, raw, m);
    SnapshotTemplates(rx, raw, m);
    PlaceholdersCarryOver(rx, raw, again);
    SnapshotAccepted(rx, raw, again);
    SnapshotTexts(m);
  }

  lemma SnapshotAccepted(rx: Regex, raw: map<string, Raw>, again: map<string, Raw>)
    requires Acceptable(rx, raw)
    requires SubTable(again, "env").Table? && SubTable(again, "params").Table?
    requires forall v | TextViolation(v) || KeyViolation(v) :: !Violates(rx, again, v)
    requires forall v: Violation | v.UndefinedPlaceholder? || v.MixedBool? :: Violates(rx, again, v) == Violates(rx, raw, v)
    requires forall n | n in SubTable(again, "env").entries :: FaultOfEnv(n, SubTable(again, "env").entries[n]).None?
    requires forall n | n in SubTable(again, "params").entries ::
               && ParseParam(rx, n, SubTable(again, "params").entries[n]).Spec?
               && ParamFaults(rx, n, SubTable(again, "params").entries[n]) == {}
    ensures Acceptable(rx, again)
  {
    forall v ensures !Violates(rx, again, v) {
      if v.UndefinedPlaceholder? || v.MixedBool? {
        assert Violates(rx, again, v) == Violates(rx, raw, v);
      }
    }
  }

  lemma PlaceholdersCarryOver(rx: Regex, raw: map<string, Raw>, again: map<string, Raw>)
    requires Templates(again, InCommand) == Templates(raw, InCommand) && Templates(again, InUrl) == Templates(raw, InUrl)
    requires ParamsIn(rx, TableOf(SubTable(again, "params"))) == ParamsIn(rx, TableOf(SubTable(raw, "params")))
    ensures forall v: Violation | v.UndefinedPlaceholder? || v.MixedBool? :: Violates(rx, again, v) == Violates(rx, raw, v)
  {
    forall v: Violation | v.UndefinedPlaceholder? || v.MixedBool?
      ensures Violates(rx, again, v) == Violates(rx, raw, v)
    {
      var where := if v.MixedBool? then v.where else v.location;
      assert Templates(again, where) == Templates(raw, where);
    }
  }
}
