/**
 * The app manifest (`core/manifest.py`): its validator over an already parsed document, and the
 * snapshot that the ledger keeps of it. Every accepted manifest survives the ledger.
 */
module Manifest {
  import opened Prelude
  import opened Values
  import P = Placeholders
  import Patterns

  // ----- What the regular-expression engine answers -----

  /** Python's `re`: which patterns compile, and which values they match in full. */
  datatype Regex = Regex(compiles: string -> bool, matches: (string, string) -> bool)

  // ----- The manifest -----

  datatype EnvSpec = EnvSpec(required: bool, description: string, helpUrl: Option<string>)

  datatype ParamType = StringType | IntType | FloatType | EnumType | BoolType

  const DEFAULT_MAX_LENGTH := 256
  const MAX_PATTERN_LENGTH := 256

  datatype ParamSpec = ParamSpec(
    kind: ParamType,
    default: Option<Raw>,
    min: Option<Raw>,
    max: Option<Raw>,
    choices: Option<seq<string>>,
    pattern: Option<string>,
    maxLength: int,
    flag: Option<string>,
    description: Option<string>)

  datatype Manifest = Manifest(
    schema: int,
    name: string,
    description: string,
    command: seq<string>,
    url: Option<string>,
    devices: set<string>,
    env: map<string, EnvSpec>,
    params: map<string, ParamSpec>,
    translations: map<string, map<string, string>>)

  const TOP_LEVEL_KEYS := {"schema", "name", "description", "command", "url", "devices", "env", "params"}
  const ENV_TABLE_KEYS := {"required", "description", "help_url"}
  const KNOWN_DEVICES := {"camera", "audio", "motor_display"}
  const RESERVED_PLACEHOLDERS := {"host", "app_dir"}

  function TypeName(k: ParamType): string {
    match k
    case StringType => "string"
    case IntType => "int"
    case FloatType => "float"
    case EnumType => "enum"
    case BoolType => "bool"
  }

  function TypeNamed(s: string): (k: Option<ParamType>)
    ensures k.Some? ==> TypeName(k.value) == s
  {
    if s == "string" then Some(StringType)
    else if s == "int" then Some(IntType)
    else if s == "float" then Some(FloatType)
    else if s == "enum" then Some(EnumType)
    else if s == "bool" then Some(BoolType)
    else None
  }

  function ExtraKeys(k: ParamType): set<string> {
    match k
    case StringType => {"pattern", "max_length"}
    case IntType => {"min", "max"}
    case FloatType => {"min", "max"}
    case EnumType => {"choices"}
    case BoolType => {"flag"}
  }

  // ----- Names -----

  predicate Lower(c: char) { 'a' <= c <= 'z' }
  predicate Upper(c: char) { 'A' <= c <= 'Z' }
  predicate Digit(c: char) { '0' <= c <= '9' }

  predicate AppNameOk(s: string) {
    1 <= |s| <= 40 && Lower(s[0]) && forall i | 0 < i < |s| :: Lower(s[i]) || Digit(s[i]) || s[i] == '-'
  }

  predicate ParamNameOk(s: string) {
    1 <= |s| <= 32 && Lower(s[0]) && forall i | 0 < i < |s| :: Lower(s[i]) || Digit(s[i]) || s[i] == '_'
  }

  predicate EnvNameOk(s: string) {
    1 <= |s| <= 64 && Upper(s[0]) && forall i | 0 < i < |s| :: Upper(s[i]) || Digit(s[i]) || s[i] == '_'
  }

  predicate HttpUrl(r: Raw) {
    r.Str? && ("http://" <= r.s || "https://" <= r.s)
  }

  predicate FiniteNumber(r: Raw) {
    r.Int? || (r.Flt? && r.f.Finite?)
  }

  function NumberOf(r: Raw): real
    requires FiniteNumber(r)
  {
    if r.Int? then r.i as real else r.f.value
  }

  predicate ShortText(r: Raw) {
    r.Str? && 1 <= |r.s| <= 200
  }

  // ----- Patterns -----

  predicate PatternOk(rx: Regex, s: string) {
    |s| <= MAX_PATTERN_LENGTH && !Patterns.NestedQuantifier(s) && Patterns.SafeFrom(s, false, false) && rx.compiles(s)
  }

  // ----- Violations -----

  datatype EnvFault = EnvName | EnvReserved | EnvEntryNotTable | EnvKeys | EnvDescription | EnvRequired | EnvHelpUrl

  datatype ValueFault =
    | NotBool | NotAChoice | NotANumber | NotFinite | BelowMin | AboveMax | NotText | TooLong | NoMatch

  datatype ParamFault =
    | ParamName | ParamNotTable | ParamBadType | ParamKeys | ParamDescription
    | NeedsFlag | NeedsChoices | BadPattern | BadMaxLength | BadMin | BadMax
    | BadDefault(fault: ValueFault)

  datatype Location = InCommand | InUrl

  datatype Violation =
    | UnknownKey(key: string)
    | BadSchema | BadName | BadDescription | BadCommand | BadUrl
    | BadDevices
    | UnknownDevice(device: string)
    | EnvNotTable
    | BadEnv(env: string, envFault: EnvFault)
    | ParamsNotTable
    | BadParam(param: string, paramFault: ParamFault)
    | UndefinedPlaceholder(location: Location, placeholder: string)
    | MixedBool(where: Location, element: string, boolParam: string)

  // ----- Env entries -----

  /** The first thing wrong with an env entry, if anything is. */
  function FaultOfEnv(name: string, spec: Raw): Option<EnvFault> {
    if !EnvNameOk(name) then Some(EnvName)
    else if "PALMIMO_" <= name then Some(EnvReserved)
    else if !spec.Table? then Some(EnvEntryNotTable)
    else if !(spec.entries.Keys <= ENV_TABLE_KEYS) then Some(EnvKeys)
    else if !ShortText(Field(spec.entries, "description")) then Some(EnvDescription)
    else if "required" in spec.entries && !spec.entries["required"].Bool? then Some(EnvRequired)
    else if Field(spec.entries, "help_url") != Null && !HttpUrl(Field(spec.entries, "help_url")) then Some(EnvHelpUrl)
    else None
  }

  function EnvOf(name: string, spec: Raw): EnvSpec
    requires FaultOfEnv(name, spec).None?
  {
    EnvSpec(
      if "required" in spec.entries then spec.entries["required"].b else true,
      spec.entries["description"].s,
      if Field(spec.entries, "help_url") == Null then None else Some(spec.entries["help_url"].s))
  }

  function EnvIn(table: map<string, Raw>): map<string, EnvSpec> {
    map n | n in table && FaultOfEnv(n, table[n]).None? :: EnvOf(n, table[n])
  }

  // ----- Param values -----

  /** Everything wrong with a value for a param. */
  function ValueFaults(rx: Regex, spec: ParamSpec, v: Raw): set<ValueFault> {
    match spec.kind
    case BoolType => if v.Bool? then {} else {NotBool}
    case EnumType => if v.Str? && spec.choices.Some? && v.s in spec.choices.value then {} else {NotAChoice}
    case StringType =>
      if !v.Str? then {NotText} else
      (if |v.s| > spec.maxLength then {TooLong} else {})
      + (if spec.pattern.Some? && !rx.matches(spec.pattern.value, v.s) then {NoMatch} else {})
    case _ =>
      if !(v.Int? || (v.Flt? && spec.kind.FloatType?)) then {NotANumber}
      else if !FiniteNumber(v) then {NotFinite} else
      (if spec.min.Some? && FiniteNumber(spec.min.value) && NumberOf(v) < NumberOf(spec.min.value) then {BelowMin} else {})
      + (if spec.max.Some? && FiniteNumber(spec.max.value) && NumberOf(v) > NumberOf(spec.max.value) then {AboveMax} else {})
  }

  // ----- Param entries -----

  datatype Parsed =
    | Spec(spec: ParamSpec)
    | Fault(fault: ParamFault)
    /** A list or a table as `type` cannot be looked up in a set: Python raises TypeError. */
    | Crash

  function OptText(r: Raw): Option<string> {
    if r.Str? then Some(r.s) else None
  }

  function OptNumber(r: Raw): Option<Raw> {
    if r == Null then None else Some(r)
  }

  function ParamByType(rx: Regex, k: ParamType, t: map<string, Raw>, default: Option<Raw>, description: Option<string>)
    : (r: Parsed)
    ensures !r.Crash?
  {
    var blank := ParamSpec(k, default, None, None, None, None, DEFAULT_MAX_LENGTH, None, description);
    match k
    case BoolType =>
      var flag := Field(t, "flag");
      if flag.Str? && flag.s != "" then Spec(blank.(flag := Some(flag.s))) else Fault(NeedsFlag)
    case EnumType =>
      var choices := Field(t, "choices");
      if IsStrings(choices) && choices.items != [] then Spec(blank.(choices := Some(Strings(choices)))) else Fault(NeedsChoices)
    case StringType =>
      var pattern := Field(t, "pattern");
      var length := if "max_length" in t then t["max_length"] else Int(DEFAULT_MAX_LENGTH);
      if pattern != Null && !(pattern.Str? && PatternOk(rx, pattern.s)) then Fault(BadPattern)
      else if !(length.Int? && length.i > 0) then Fault(BadMaxLength)
      else Spec(blank.(pattern := OptText(pattern), maxLength := length.i))
    case _ =>
      var min, max := Field(t, "min"), Field(t, "max");
      if min != Null && !FiniteNumber(min) then Fault(BadMin)
      else if max != Null && !FiniteNumber(max) then Fault(BadMax)
      else Spec(blank.(min := OptNumber(min), max := OptNumber(max)))
  }

  function ParseParamTable(rx: Regex, t: map<string, Raw>): Parsed {
    if Field(t, "type").List? || Field(t, "type").Table? then Crash
    else if !Field(t, "type").Str? || TypeNamed(Field(t, "type").s).None? then Fault(ParamBadType)
    else if !(t.Keys <= {"type", "default", "description"} + ExtraKeys(TypeNamed(Field(t, "type").s).value)) then
      Fault(ParamKeys)
    else if Field(t, "description") != Null && !Field(t, "description").Str? then Fault(ParamDescription)
    else
      ParamByType(rx, TypeNamed(Field(t, "type").s).value, t, Get(t, "default"), OptText(Field(t, "description")))
  }

  /** What becomes of one entry of `params`. */
  function ParseParam(rx: Regex, name: string, raw: Raw): Parsed {
    if !ParamNameOk(name) then Fault(ParamName)
    else if !raw.Table? then Fault(ParamNotTable)
    else ParseParamTable(rx, raw.entries)
  }

  /** Everything wrong with one entry of `params`: it cannot be read, or its default does not fit it. */
  function ParamFaults(rx: Regex, name: string, raw: Raw): set<ParamFault> {
    match ParseParam(rx, name, raw)
    case Fault(f) => {f}
    case Spec(spec) =>
      if spec.default.None? then {}
      else set f | f in ValueFaults(rx, spec, spec.default.value) :: BadDefault(f)
    case Crash => {}
  }

  function ParamsIn(rx: Regex, table: map<string, Raw>): map<string, ParamSpec> {
    map n | n in table && ParseParam(rx, n, table[n]).Spec? :: ParseParam(rx, n, table[n]).spec
  }

  // ----- Documents -----

  function TableOf(r: Raw): map<string, Raw> {
    if r.Table? then r.entries else map[]
  }

  /** `raw.get(key, {})`. */
  function SubTable(raw: map<string, Raw>, key: string): Raw {
    if key in raw then raw[key] else Table(map[])
  }

  function DevicesOf(raw: map<string, Raw>): Raw {
    if "devices" in raw then raw["devices"] else List([])
  }

  predicate CommandOk(r: Raw) {
    IsStrings(r) && r.items != []
  }

  /** The templates in which placeholders are looked for. */
  function Templates(raw: map<string, Raw>, where: Location): seq<string> {
    match where
    case InCommand => if CommandOk(Field(raw, "command")) then Strings(Field(raw, "command")) else []
    case InUrl => if Field(raw, "url").Str? then [Field(raw, "url").s] else []
  }

  predicate Undefined(params: map<string, ParamSpec>, element: string, name: string) {
    name in P.Names(element) && name !in RESERVED_PLACEHOLDERS && !(ParamNameOk(name) && name in params)
  }

  predicate Mixed(params: map<string, ParamSpec>, element: string, name: string) {
    && name in P.Names(element) && name !in RESERVED_PLACEHOLDERS
    && ParamNameOk(name) && name in params && params[name].kind.BoolType? && element != P.Braced(name)
  }

  /** The document breaks this rule of the manifest format. */
  predicate Violates(rx: Regex, raw: map<string, Raw>, v: Violation) {
    match v
    case UnknownKey(k) => k in raw && k !in TOP_LEVEL_KEYS
    case BadSchema => Field(raw, "schema") != Int(1)
    case BadName => !(Field(raw, "name").Str? && AppNameOk(Field(raw, "name").s))
    case BadDescription => !ShortText(Field(raw, "description"))
    case BadCommand => !CommandOk(Field(raw, "command"))
    case BadUrl => Field(raw, "url") != Null && !HttpUrl(Field(raw, "url"))
    case BadDevices => !IsStrings(DevicesOf(raw))
    case UnknownDevice(d) => IsStrings(DevicesOf(raw)) && d in Strings(DevicesOf(raw)) && d !in KNOWN_DEVICES
    case EnvNotTable => !SubTable(raw, "env").Table?
    case BadEnv(n, f) =>
      var env := TableOf(SubTable(raw, "env"));
      n in env && FaultOfEnv(n, env[n]) == Some(f)
    case ParamsNotTable => !SubTable(raw, "params").Table?
    case BadParam(n, f) =>
      var params := TableOf(SubTable(raw, "params"));
      n in params && f in ParamFaults(rx, n, params[n])
    case UndefinedPlaceholder(where, n) =>
      exists e :: e in Templates(raw, where) && Undefined(ParamsIn(rx, TableOf(SubTable(raw, "params"))), e, n)
    case MixedBool(where, e, n) =>
      e in Templates(raw, where) && Mixed(ParamsIn(rx, TableOf(SubTable(raw, "params"))), e, n)
  }

  predicate Crashes(rx: Regex, raw: map<string, Raw>) {
    var params := TableOf(SubTable(raw, "params"));
    exists n :: n in params && ParseParam(rx, n, params[n]).Crash?
  }

  /** A document crashes the validator exactly by a well-named param table whose `type` is a list or a table. */
  lemma CrashesExactly(rx: Regex, raw: map<string, Raw>)
    ensures var params := TableOf(SubTable(raw, "params"));
            Crashes(rx, raw) <==>
            exists n :: && n in params && ParamNameOk(n) && params[n].Table?
                        && (Field(params[n].entries, "type").List? || Field(params[n].entries, "type").Table?)
  {
    var params := TableOf(SubTable(raw, "params"));
    if n :| n in params && ParamNameOk(n) && params[n].Table?
            && (Field(params[n].entries, "type").List? || Field(params[n].entries, "type").Table?)
    {
      assert ParseParam(rx, n, params[n]).Crash?;
    }
  }

  lemma CrashingDocument(rx: Regex) returns (raw: map<string, Raw>)
    ensures Crashes(rx, raw)
  {
    var entry := map["type" := List([])];
    raw := map["params" := Table(map["p" := Table(entry)])];
    assert "p" in TableOf(SubTable(raw, "params")) && ParamNameOk("p");
    CrashesExactly(rx, raw);
  }

  ghost predicate Acceptable(rx: Regex, raw: map<string, Raw>) {
    !Crashes(rx, raw) && forall v :: !Violates(rx, raw, v)
  }

  /** The manifest a document without violations stands for. */
  function Meaning(rx: Regex, raw: map<string, Raw>): Manifest
    requires !Violates(rx, raw, BadName) && !Violates(rx, raw, BadDescription) && !Violates(rx, raw, BadCommand)
    requires !Violates(rx, raw, BadUrl) && !Violates(rx, raw, BadDevices)
  {
    Manifest(
      1,
      raw["name"].s,
      raw["description"].s,
      Strings(raw["command"]),
      OptText(Field(raw, "url")),
      (set d | d in Strings(DevicesOf(raw))),
      EnvIn(TableOf(SubTable(raw, "env"))),
      ParamsIn(rx, TableOf(SubTable(raw, "params"))),
      map[])
  }

  // ----- The validator -----

  method ValidateParamValue(rx: Regex, spec: ParamSpec, v: Raw) returns (faults: set<ValueFault>)
    requires (spec.min.Some? ==> FiniteNumber(spec.min.value)) && (spec.max.Some? ==> FiniteNumber(spec.max.value))
    ensures faults == ValueFaults(rx, spec, v)
  {
    faults := {};
    match spec.kind {
      case BoolType =>
        if !v.Bool? {
          faults := faults + {NotBool};
        }
      case EnumType =>
        var choices := if spec.choices.Some? then spec.choices.value else [];
        if !(v.Str? && v.s in choices) {
          faults := faults + {NotAChoice};
        }
      case StringType =>
        if !v.Str? {
          return faults + {NotText};
        }
        if |v.s| > spec.maxLength {
          faults := faults + {TooLong};
        }
        if spec.pattern.Some? && !rx.matches(spec.pattern.value, v.s) {
          faults := faults + {NoMatch};
        }
      case _ =>
        if !(v.Int? || (v.Flt? && spec.kind == FloatType)) {
          return faults + {NotANumber};
        }
        if !FiniteNumber(v) {
          return faults + {NotFinite};
        }
        if spec.min.Some? && NumberOf(v) < NumberOf(spec.min.value) {
          faults := faults + {BelowMin};
        }
        if spec.max.Some? && NumberOf(v) > NumberOf(spec.max.value) {
          faults := faults + {AboveMax};
        }
    }
  }

  method ParseEnv(raw: Raw) returns (env: map<string, EnvSpec>, errors: set<Violation>)
    ensures env == EnvIn(TableOf(raw))
    ensures forall v :: v in errors <==>
              || (v == EnvNotTable && !raw.Table?)
              || (v.BadEnv? && v.env in TableOf(raw) && FaultOfEnv(v.env, TableOf(raw)[v.env]) == Some(v.envFault))
  {
    env, errors := map[], {};
    if !raw.Table? {
      return env, {EnvNotTable};
    }
    var left := raw.entries.Keys;
    while left != {}
      invariant left <= raw.entries.Keys
      invariant env == map n | n in raw.entries && n !in left && FaultOfEnv(n, raw.entries[n]).None? :: EnvOf(n, raw.entries[n])
      invariant forall v :: v in errors <==>
        v.BadEnv? && v.env in raw.entries && v.env !in left && FaultOfEnv(v.env, raw.entries[v.env]) == Some(v.envFault)
      decreases left
    {
      var name :| name in left;
      left := left - {name};
      var fault := FaultOfEnv(name, raw.entries[name]);
      if fault.Some? {
        errors := errors + {BadEnv(name, fault.value)};
      } else {
        env := env[name := EnvOf(name, raw.entries[name])];
      }
    }
  }

  method CheckPattern(rx: Regex, s: string) returns (ok: bool)
    ensures ok == PatternOk(rx, s)
  {
    if |s| > MAX_PATTERN_LENGTH || Patterns.NestedQuantifier(s) {
      return false;
    }
    var safe := Patterns.IsSafePattern(s);
    ok := safe && rx.compiles(s);
  }

  method ParseParamByType(rx: Regex, k: ParamType, t: map<string, Raw>, default: Option<Raw>, description: Option<string>)
    returns (parsed: Parsed)
    ensures parsed == ParamByType(rx, k, t, default, description)
  {
    var spec := ParamSpec(k, default, None, None, None, None, DEFAULT_MAX_LENGTH, None, description);
    match k {
      case BoolType =>
        var flag := Field(t, "flag");
        if !flag.Str? || flag.s == "" {
          return Fault(NeedsFlag);
        }
        return Spec(spec.(flag := Some(flag.s)));
      case EnumType =>
        var choices := Field(t, "choices");
        if !IsStrings(choices) || choices.items == [] {
          return Fault(NeedsChoices);
        }
        return Spec(spec.(choices := Some(Strings(choices))));
      case StringType =>
        parsed := ParseString(rx, t, spec);
        return;
      case _ =>
    }
    var min := Field(t, "min");
    if min != Null && !FiniteNumber(min) {
      return Fault(BadMin);
    }
    var max := Field(t, "max");
    if max != Null && !FiniteNumber(max) {
      return Fault(BadMax);
    }
    parsed := Spec(spec.(min := OptNumber(min), max := OptNumber(max)));
  }

  method ParseString(rx: Regex, t: map<string, Raw>, spec: ParamSpec) returns (parsed: Parsed)
    requires spec == ParamSpec(StringType, spec.default, None, None, None, None, DEFAULT_MAX_LENGTH, None, spec.description)
    ensures parsed == ParamByType(rx, StringType, t, spec.default, spec.description)
  {
    var pattern := Field(t, "pattern");
    if pattern != Null {
      if !pattern.Str? {
        return Fault(BadPattern);
      }
      var ok := CheckPattern(rx, pattern.s);
      if !ok {
        return Fault(BadPattern);
      }
    }
    var length := if "max_length" in t then t["max_length"] else Int(DEFAULT_MAX_LENGTH);
    if !length.Int? || length.i <= 0 {
      return Fault(BadMaxLength);
    }
    parsed := Spec(spec.(pattern := OptText(pattern), maxLength := length.i));
  }

  method ParseEntry(rx: Regex, name: string, raw: Raw) returns (parsed: Parsed)
    ensures parsed == ParseParam(rx, name, raw)
  {
    if !ParamNameOk(name) {
      return Fault(ParamName);
    }
    if !raw.Table? {
      return Fault(ParamNotTable);
    }
    var kind, description := Field(raw.entries, "type"), Field(raw.entries, "description");
    if kind.List? || kind.Table? {
      return Crash;
    }
    if !kind.Str? || TypeNamed(kind.s).None? {
      return Fault(ParamBadType);
    }
    if !(raw.entries.Keys <= {"type", "default", "description"} + ExtraKeys(TypeNamed(kind.s).value)) {
      return Fault(ParamKeys);
    }
    if description != Null && !description.Str? {
      return Fault(ParamDescription);
    }
    parsed := ParseParamByType(rx, TypeNamed(kind.s).value, raw.entries, Get(raw.entries, "default"), OptText(description));
  }

  /** One entry of `params`; the spec is kept even when its default does not fit it. */
  method ParseOneParam(rx: Regex, name: string, raw: Raw) returns (parsed: Parsed, faults: set<ParamFault>)
    ensures parsed == ParseParam(rx, name, raw)
    ensures faults == ParamFaults(rx, name, raw)
  {
    parsed := ParseEntry(rx, name, raw);
    faults := {};
    if parsed.Fault? {
      faults := {parsed.fault};
    } else if parsed.Spec? && parsed.spec.default.Some? {
      var wrong := ValidateParamValue(rx, parsed.spec, parsed.spec.default.value);
      faults := set f | f in wrong :: BadDefault(f);
    }
  }

  method ParseParams(rx: Regex, raw: Raw) returns (params: map<string, ParamSpec>, errors: set<Violation>, crashed: bool)
    ensures crashed <==> exists n :: n in TableOf(raw) && ParseParam(rx, n, TableOf(raw)[n]).Crash?
    ensures !crashed ==> params == ParamsIn(rx, TableOf(raw))
    ensures !crashed ==> forall v :: v in errors <==>
              || (v == ParamsNotTable && !raw.Table?)
              || (v.BadParam? && v.param in TableOf(raw) && v.paramFault in ParamFaults(rx, v.param, TableOf(raw)[v.param]))
  {
    params, errors, crashed := map[], {}, false;
    if !raw.Table? {
      return params, {ParamsNotTable}, false;
    }
    var left := raw.entries.Keys;
    while left != {}
      invariant left <= raw.entries.Keys
      invariant forall n | n in raw.entries && n !in left :: !ParseParam(rx, n, raw.entries[n]).Crash?
      invariant params == map n | n in raw.entries && n !in left && ParseParam(rx, n, raw.entries[n]).Spec? ::
                              ParseParam(rx, n, raw.entries[n]).spec
      invariant forall v :: v in errors <==>
        && v.BadParam? && v.param in raw.entries && v.param !in left
        && v.paramFault in ParamFaults(rx, v.param, raw.entries[v.param])
      decreases left
    {
      var name :| name in left;
      left := left - {name};
      var parsed, faults := ParseOneParam(rx, name, raw.entries[name]);
      if parsed.Crash? {
        assert name in TableOf(raw) && ParseParam(rx, name, TableOf(raw)[name]).Crash?;
        return params, errors, true;
      }
      errors := errors + set f | f in faults :: BadParam(name, f);
      if parsed.Spec? {
        params := params[name := parsed.spec];
      }
    }
  }

  method ValidatePlaceholders(elements: seq<string>, where: Location, params: map<string, ParamSpec>)
    returns (errors: set<Violation>)
    ensures forall v :: v in errors <==>
              || (v.UndefinedPlaceholder? && v.location == where
                  && exists e :: e in elements && Undefined(params, e, v.placeholder))
              || (v.MixedBool? && v.where == where && v.element in elements && Mixed(params, v.element, v.boolParam))
  {
    errors := {};
    for i := 0 to |elements|
      invariant forall v :: v in errors <==>
        || (v.UndefinedPlaceholder? && v.location == where
            && exists k :: 0 <= k < i && Undefined(params, elements[k], v.placeholder))
        || (v.MixedBool? && v.where == where && (exists k :: 0 <= k < i && elements[k] == v.element)
            && Mixed(params, v.element, v.boolParam))
    {
      var found := ValidateElement(elements[i], where, params);
      errors := errors + found;
    }
  }

  method ValidateElement(element: string, where: Location, params: map<string, ParamSpec>) returns (errors: set<Violation>)
    ensures forall v :: v in errors <==>
              || (v.UndefinedPlaceholder? && v.location == where && Undefined(params, element, v.placeholder))
              || (v.MixedBool? && v.where == where && v.element == element && Mixed(params, element, v.boolParam))
  {
    errors := {};
    var names := P.Names(element);
    for i := 0 to |names|
      invariant forall v :: v in errors <==>
        || (v.UndefinedPlaceholder? && v.location == where && v.placeholder in names[..i]
            && Undefined(params, element, v.placeholder))
        || (v.MixedBool? && v.where == where && v.element == element && v.boolParam in names[..i]
            && Mixed(params, element, v.boolParam))
    {
      var name := names[i];
      assert names[..i + 1] == names[..i] + [name];
      if name !in RESERVED_PLACEHOLDERS {
        var param := if ParamNameOk(name) then Get(params, name) else None;
        if param.None? {
          errors := errors + {UndefinedPlaceholder(where, name)};
        } else if param.value.kind.BoolType? && element != P.Braced(name) {
          errors := errors + {MixedBool(where, element, name)};
        }
      }
    }
    assert names[..|names|] == names;
  }

  datatype Outcome = Accepted(manifest: Manifest) | Rejected(errors: set<Violation>) | Crashed

  predicate KeyViolation(v: Violation) {
    v.UnknownKey? || v.BadDevices? || v.UnknownDevice?
  }

  predicate TextViolation(v: Violation) {
    v.BadSchema? || v.BadName? || v.BadDescription? || v.BadCommand? || v.BadUrl?
  }

  method ValidateTexts(rx: Regex, raw: map<string, Raw>) returns (errors: set<Violation>)
    ensures forall v :: v in errors <==> TextViolation(v) && Violates(rx, raw, v)
  {
    errors := {};
    if Field(raw, "schema") != Int(1) {
      errors := errors + {BadSchema};
    }
    var name := Field(raw, "name");
    if !name.Str? || !AppNameOk(name.s) {
      errors := errors + {BadName};
    }
    if !ShortText(Field(raw, "description")) {
      errors := errors + {BadDescription};
    }
    if !CommandOk(Field(raw, "command")) {
      errors := errors + {BadCommand};
    }
    if Field(raw, "url") != Null && !HttpUrl(Field(raw, "url")) {
      errors := errors + {BadUrl};
    }
  }

  method ValidateKeysAndDevices(rx: Regex, raw: map<string, Raw>) returns (errors: set<Violation>)
    ensures forall v :: v in errors <==> KeyViolation(v) && Violates(rx, raw, v)
  {
    errors := set k | k in raw && k !in TOP_LEVEL_KEYS :: UnknownKey(k);
    if !IsStrings(DevicesOf(raw)) {
      errors := errors + {BadDevices};
    } else {
      errors := errors + set d | d in Strings(DevicesOf(raw)) && d !in KNOWN_DEVICES :: UnknownDevice(d);
    }
  }

  /** The violations of entries of `env` and `params`. */
  predicate EntryViolation(v: Violation) {
    v.EnvNotTable? || v.BadEnv? || v.ParamsNotTable? || v.BadParam?
  }

  /** The passes of the validator together report what it should. */
  lemma PassesTogether(rx: Regex, raw: map<string, Raw>, fields: set<Violation>, entries: set<Violation>,
                       holes: set<Violation>)
    requires forall v :: v in fields <==> (KeyViolation(v) || TextViolation(v)) && Violates(rx, raw, v)
    requires forall v :: v in entries <==> EntryViolation(v) && Violates(rx, raw, v)
    requires forall v: Violation :: v in holes <==> (v.UndefinedPlaceholder? || v.MixedBool?) && Violates(rx, raw, v)
    ensures forall v :: v in fields + entries + holes <==> Violates(rx, raw, v)
  {
  }

  /** Every pass but the last word: the violations, and the parsed env and params. */
  method CollectViolations(rx: Regex, raw: map<string, Raw>)
    returns (errors: set<Violation>, env: map<string, EnvSpec>, params: map<string, ParamSpec>, crashed: bool)
    ensures crashed <==> Crashes(rx, raw)
    ensures !crashed ==> env == EnvIn(TableOf(SubTable(raw, "env"))) && params == ParamsIn(rx, TableOf(SubTable(raw, "params")))
    ensures !crashed ==> forall v :: v in errors <==> Violates(rx, raw, v)
  {
    var keyErrors := ValidateKeysAndDevices(rx, raw);
    var textErrors := ValidateTexts(rx, raw);
    var envErrors, paramErrors;
    env, envErrors := ParseEnv(SubTable(raw, "env"));
    params, paramErrors, crashed := ParseParams(rx, SubTable(raw, "params"));
    errors := {};
    if !crashed {
      var inCommand := ValidatePlaceholders(Templates(raw, InCommand), InCommand, params);
      var inUrl := ValidatePlaceholders(Templates(raw, InUrl), InUrl, params);
      errors := keyErrors + textErrors + (envErrors + paramErrors) + (inCommand + inUrl);
      PassesTogether(rx, raw, keyErrors + textErrors, envErrors + paramErrors, inCommand + inUrl);
    }
  }

  /**
   * The validator reports every rule the document breaks and no other, and accepts the document
   * exactly when it breaks none.
   */
  method ValidateManifestDict(rx: Regex, raw: map<string, Raw>) returns (r: Outcome)
    ensures r.Crashed? <==> Crashes(rx, raw)
    ensures r.Accepted? <==> Acceptable(rx, raw)
    ensures r.Accepted? ==> r.manifest == Meaning(rx, raw)
    ensures r.Rejected? ==> forall v :: v in r.errors <==> Violates(rx, raw, v)
  {
    var errors, env, params, crashed := CollectViolations(rx, raw);
    if crashed {
      return Crashed;
    }
    if errors != {} {
      return Rejected(errors);
    }
    assert !Violates(rx, raw, BadSchema) && !Violates(rx, raw, BadName) && !Violates(rx, raw, BadDescription)
           && !Violates(rx, raw, BadCommand) && !Violates(rx, raw, BadUrl) && !Violates(rx, raw, BadDevices);
    r := Accepted(Manifest(
      raw["schema"].i, raw["name"].s, raw["description"].s, Strings(raw["command"]), OptText(Field(raw, "url")),
      (set d | d in Strings(DevicesOf(raw))), env, params, map[]));
  }
}
