/**
 * From a manifest and stored param values to the command line of an app (`core/manifest.py`), and
 * the start prechecks that make rendering total (`core/apps_start.py`).
 */
module Rendering {
  import opened Prelude
  import opened Values
  import opened Manifest
  import P = Placeholders
  import Snapshot

  /** What a render is given: `str` is Python's, the rest are the two reserved placeholders. */
  datatype Context = Context(host: string, appDir: string, str: Raw -> string)

  // ----- Values for all params -----

  datatype ResolveFault = Missing(name: string) | Wrong(name: string, fault: ValueFault)

  /** The stored value of a declared param, or its default. */
  function ValueOf(m: Manifest, values: map<string, Raw>, n: string): Option<Raw>
    requires n in m.params
  {
    if n in values then Some(values[n]) else m.params[n].default
  }

  function Resolved(m: Manifest, values: map<string, Raw>): map<string, Raw> {
    map n | n in m.params && ValueOf(m, values, n).Some? :: ValueOf(m, values, n).value
  }

  predicate FailsToResolve(rx: Regex, m: Manifest, values: map<string, Raw>, f: ResolveFault) {
    match f
    case Missing(n) => n in m.params && ValueOf(m, values, n).None?
    case Wrong(n, fault) => n in m.params && n in values && fault in ValueFaults(rx, m.params[n], values[n])
  }

  predicate BoundsFinite(m: Manifest) {
    forall n | n in m.params ::
      && (m.params[n].min.Some? ==> FiniteNumber(m.params[n].min.value))
      && (m.params[n].max.Some? ==> FiniteNumber(m.params[n].max.value))
  }

  /** Every declared param gets a value that fits it, or every one that does not is reported. */
  method ResolveParams(rx: Regex, m: Manifest, values: map<string, Raw>)
    returns (r: Result<map<string, Raw>, set<ResolveFault>>)
    requires BoundsFinite(m)
    ensures r.Ok? ==> r.value == Resolved(m, values) && forall f :: !FailsToResolve(rx, m, values, f)
    ensures r.Err? ==> r.error != {} && forall f :: f in r.error <==> FailsToResolve(rx, m, values, f)
  {
    var errors: set<ResolveFault> := {};
    var resolved: map<string, Raw> := map[];
    var left := m.params.Keys;
    while left != {}
      invariant left <= m.params.Keys
      invariant resolved == map n | n in m.params && n !in left && ValueOf(m, values, n).Some? :: ValueOf(m, values, n).value
      invariant forall f :: f in errors <==> f.name !in left && FailsToResolve(rx, m, values, f)
      decreases left
    {
      var name :| name in left;
      left := left - {name};
      if name in values {
        var faults := ValidateParamValue(rx, m.params[name], values[name]);
        errors := errors + set f | f in faults :: Wrong(name, f);
        resolved := resolved[name := values[name]];
      } else if m.params[name].default.Some? {
        resolved := resolved[name := m.params[name].default.value];
      } else {
        errors := errors + {Missing(name)};
      }
    }
    if errors != {} {
      return Err(errors);
    }
    r := Ok(resolved);
  }

  // ----- One element -----

  predicate Truthy(v: Raw) {
    match v
    case Null => false
    case Bool(b) => b
    case Int(i) => i != 0
    case Flt(f) => f != Finite(0.0)
    case Str(s) => s != ""
    case List(items) => items != []
    case Table(entries) => entries != map[]
  }

  /** An element of the command: its text, nothing at all, or a lookup that fails. */
  datatype Piece = Text(text: string) | Dropped | KeyError

  function Fill(values: map<string, Raw>, c: Context): string -> string {
    n =>
      if n == "host" then c.host
      else if n == "app_dir" then c.appDir
      else if n in values then c.str(values[n])
      else ""
  }

  /** What `_substitute` makes of one element. */
  function Substitute(params: map<string, ParamSpec>, values: map<string, Raw>, c: Context, element: string): Piece {
    var names := P.Names(element);
    if names == [] then Text(element)
    else if |names| == 1 && element == P.Braced(names[0]) && names[0] in params && params[names[0]].kind.BoolType? then
      if names[0] !in values then KeyError
      else if Truthy(values[names[0]]) && params[names[0]].flag.Some? then Text(params[names[0]].flag.value)
      else Dropped
    else if exists n :: n in names && n !in RESERVED_PLACEHOLDERS && n !in values then KeyError
    else Text(P.Render(P.Scan(element), Fill(values, c)))
  }

  function SubstituteAll(params: map<string, ParamSpec>, values: map<string, Raw>, c: Context, elements: seq<string>)
    : Option<seq<string>>
  {
    if elements == [] then Some([])
    else
      var before := SubstituteAll(params, values, c, elements[..|elements| - 1]);
      var piece := Substitute(params, values, c, elements[|elements| - 1]);
      if before.None? || piece.KeyError? then None
      else Some(if piece.Text? then before.value + [piece.text] else before.value)
  }

  datatype Rendered = Argv(argv: seq<string>) | Refused(faults: set<ResolveFault>) | Raised

  method ResolveCommand(rx: Regex, m: Manifest, values: map<string, Raw>, c: Context) returns (r: Rendered)
    requires BoundsFinite(m)
    ensures r.Refused? <==> exists f :: FailsToResolve(rx, m, values, f)
    ensures r.Refused? ==> forall f :: f in r.faults <==> FailsToResolve(rx, m, values, f)
    ensures !r.Refused? ==>
              r == match SubstituteAll(m.params, Resolved(m, values), c, m.command)
                   case Some(argv) => Argv(argv)
                   case None => Raised
  {
    var resolved := ResolveParams(rx, m, values);
    if resolved.Err? {
      var f :| f in resolved.error;
      assert FailsToResolve(rx, m, values, f);
      return Refused(resolved.error);
    }
    var argv := [];
    for i := 0 to |m.command|
      invariant SubstituteAll(m.params, Resolved(m, values), c, m.command[..i]) == Some(argv)
    {
      var upTo := m.command[..i + 1];
      assert upTo[..|upTo| - 1] == m.command[..i] && upTo[|upTo| - 1] == m.command[i];
      var piece := Substitute(m.params, resolved.value, c, m.command[i]);
      if piece.KeyError? {
        SubstituteAllFails(m.params, resolved.value, c, m.command, i);
        return Raised;
      }
      if piece.Text? {
        argv := argv + [piece.text];
      }
    }
    assert m.command[..|m.command|] == m.command;
    r := Argv(argv);
  }

  lemma {:induction false} SubstituteAllFails(params: map<string, ParamSpec>, values: map<string, Raw>, c: Context,
                                              elements: seq<string>, i: nat)
    requires i < |elements| && Substitute(params, values, c, elements[i]).KeyError?
    ensures SubstituteAll(params, values, c, elements).None?
  {
    if i < |elements| - 1 {
      SubstituteAllFails(params, values, c, elements[..|elements| - 1], i);
    }
  }

  // ----- What accepted manifests and passed prechecks give -----

  /** The start prechecks on params: none missing, and every stored value one that its declared param accepts. */
  predicate PrechecksPass(rx: Regex, m: Manifest, stored: map<string, Raw>) {
    && (forall n | n in m.params :: m.params[n].default.Some? || n in stored)
    && (forall n | n in stored :: n in m.params && ValueFaults(rx, m.params[n], stored[n]) == {})
  }

  /** What the validator guarantees about the placeholders of one element. */
  predicate PlaceholdersFit(params: map<string, ParamSpec>, element: string) {
    forall n | n in P.Names(element) && n !in RESERVED_PLACEHOLDERS ::
      n in params && (params[n].kind.BoolType? ==> element == P.Braced(n))
  }

  lemma AcceptedPlaceholdersFit(rx: Regex, raw: map<string, Raw>, element: string)
    requires Acceptable(rx, raw) && element in Meaning(rx, raw).command
    ensures PlaceholdersFit(Meaning(rx, raw).params, element)
  {
    assert !Violates(rx, raw, BadCommand);
    assert element in Templates(raw, InCommand);
    forall n | n in P.Names(element) && n !in RESERVED_PLACEHOLDERS
      ensures n in Meaning(rx, raw).params && (Meaning(rx, raw).params[n].kind.BoolType? ==> element == P.Braced(n))
    {
      assert !Violates(rx, raw, UndefinedPlaceholder(InCommand, n));
      assert !Violates(rx, raw, MixedBool(InCommand, element, n));
    }
  }

  /** Every value is of its param's kind: a bool for a bool param, none for another. */
  predicate ValuesFit(params: map<string, ParamSpec>, values: map<string, Raw>) {
    && values.Keys == params.Keys
    && forall n | n in params ::
         && (params[n].kind.BoolType? <==> values[n].Bool?)
         && (params[n].kind.BoolType? ==> params[n].flag.Some?)
  }

  lemma FaultlessValueFits(rx: Regex, spec: ParamSpec, v: Raw)
    requires ValueFaults(rx, spec, v) == {}
    ensures spec.kind.BoolType? <==> v.Bool?
  {
  }

  lemma AcceptedParam(rx: Regex, raw: map<string, Raw>, n: string)
    requires Acceptable(rx, raw) && n in Meaning(rx, raw).params
    ensures var spec := Meaning(rx, raw).params[n];
            && (spec.default.Some? ==> ValueFaults(rx, spec, spec.default.value) == {})
            && (spec.kind.BoolType? ==> spec.flag.Some?)
            && (spec.min.Some? ==> FiniteNumber(spec.min.value)) && (spec.max.Some? ==> FiniteNumber(spec.max.value))
  {
    var table := TableOf(SubTable(raw, "params"));
    var spec := ParseParam(rx, n, table[n]).spec;
    Snapshot.ParsedIsShaped(rx, n, table[n]);
    if spec.default.Some? {
      forall f ensures f !in ValueFaults(rx, spec, spec.default.value) {
        assert !Violates(rx, raw, BadParam(n, BadDefault(f)));
      }
    }
  }

  lemma PrechecksGiveValue(rx: Regex, raw: map<string, Raw>, stored: map<string, Raw>, n: string)
    requires Acceptable(rx, raw) && PrechecksPass(rx, Meaning(rx, raw), stored) && n in Meaning(rx, raw).params
    ensures var m := Meaning(rx, raw);
            var spec := m.params[n];
            && ValueOf(m, stored, n).Some? && ValueFaults(rx, spec, ValueOf(m, stored, n).value) == {}
            && (spec.kind.BoolType? ==> spec.flag.Some?)
            && (spec.kind.BoolType? <==> ValueOf(m, stored, n).value.Bool?)
            && (spec.min.Some? ==> FiniteNumber(spec.min.value)) && (spec.max.Some? ==> FiniteNumber(spec.max.value))
  {
    AcceptedParam(rx, raw, n);
    FaultlessValueFits(rx, Meaning(rx, raw).params[n], ValueOf(Meaning(rx, raw), stored, n).value);
  }

  lemma PrechecksGiveValues(rx: Regex, raw: map<string, Raw>, stored: map<string, Raw>)
    requires Acceptable(rx, raw) && PrechecksPass(rx, Meaning(rx, raw), stored)
    ensures var m := Meaning(rx, raw);
            && BoundsFinite(m) && (forall f :: !FailsToResolve(rx, m, stored, f))
            && ValuesFit(m.params, Resolved(m, stored))
  {
    var m := Meaning(rx, raw);
    forall n | n in m.params
      ensures ValueOf(m, stored, n).Some? && ValueFaults(rx, m.params[n], ValueOf(m, stored, n).value) == {}
      ensures m.params[n].kind.BoolType? ==> m.params[n].flag.Some?
      ensures m.params[n].kind.BoolType? <==> ValueOf(m, stored, n).value.Bool?
      ensures m.params[n].min.Some? ==> FiniteNumber(m.params[n].min.value)
      ensures m.params[n].max.Some? ==> FiniteNumber(m.params[n].max.value)
    {
      PrechecksGiveValue(rx, raw, stored, n);
    }
    AllValuesFit(rx, m, stored);
  }

  lemma AllValuesFit(rx: Regex, m: Manifest, stored: map<string, Raw>)
    requires forall n | n in m.params ::
               && ValueOf(m, stored, n).Some? && ValueFaults(rx, m.params[n], ValueOf(m, stored, n).value) == {}
               && (m.params[n].kind.BoolType? ==> m.params[n].flag.Some?)
               && (m.params[n].kind.BoolType? <==> ValueOf(m, stored, n).value.Bool?)
    ensures (forall f :: !FailsToResolve(rx, m, stored, f)) && ValuesFit(m.params, Resolved(m, stored))
  {
  }

  // ----- The reference: an element's tokens, each rendered once -----

  /** A bool param stands alone and gives its flag or nothing; every other token gives its text. */
  function Meant(params: map<string, ParamSpec>, values: map<string, Raw>, c: Context, element: string): Piece {
    var tokens := P.Scan(element);
    if |tokens| == 1 && tokens[0].Hole? && tokens[0].name !in RESERVED_PLACEHOLDERS
       && tokens[0].name in values && values[tokens[0].name].Bool? && tokens[0].name in params
       && params[tokens[0].name].flag.Some?
    then
      if values[tokens[0].name].b then Text(params[tokens[0].name].flag.value) else Dropped
    else Text(P.Render(tokens, Fill(values, c)))
  }

  /** A bool param that shares a reserved name takes over an element that is just that placeholder. */
  predicate Shadowed(params: map<string, ParamSpec>, element: string) {
    exists r | r in RESERVED_PLACEHOLDERS :: element == P.Braced(r) && r in params && params[r].kind.BoolType?
  }

  lemma PlainElement(element: string, fill: string -> string)
    requires P.Names(element) == []
    ensures P.Render(P.Scan(element), fill) == element
    ensures |P.Scan(element)| == 1 ==> P.Scan(element)[0].Literal?
  {
    P.ScanSpells(element);
    forall n | P.Hole(n) in P.Scan(element) ensures fill(n) == P.Braced(n) {
      P.NamesAreHoles(element, n);
    }
    P.RenderSame(P.Scan(element), fill, P.Braced);
    if |P.Scan(element)| == 1 && P.Scan(element)[0].Hole? {
      P.NamesAreHoles(element, P.Scan(element)[0].name);
    }
  }

  /** A lone placeholder of a bool param that no reserved name shadows. */
  predicate LoneFlag(params: map<string, ParamSpec>, element: string, n: string) {
    && n !in RESERVED_PLACEHOLDERS && n in params && params[n].kind.BoolType?
    && P.BraceFree(n) && element == P.Braced(n)
  }

  lemma LoneFlagIsMeant(params: map<string, ParamSpec>, values: map<string, Raw>, c: Context, element: string, n: string)
    requires ValuesFit(params, values) && LoneFlag(params, element, n)
    ensures Substitute(params, values, c, element) == Meant(params, values, c, element)
  {
    P.SoleHole(n);
  }

  /** An element with placeholders, none of which is a lone bool param. */
  lemma TextIsMeant(params: map<string, ParamSpec>, values: map<string, Raw>, c: Context, element: string)
    requires ValuesFit(params, values) && PlaceholdersFit(params, element) && P.Names(element) != []
    requires !Shadowed(params, element) && forall n | n in P.Names(element) :: !LoneFlag(params, element, n)
    ensures Substitute(params, values, c, element) == Meant(params, values, c, element)
            == Text(P.Render(P.Scan(element), Fill(values, c)))
  {
    TextIsSubstituted(params, values, c, element);
    var tokens := P.Scan(element);
    if |tokens| == 1 && tokens[0].Hole? {
      P.NamesAreHoles(element, tokens[0].name);
    }
  }

  lemma TextIsSubstituted(params: map<string, ParamSpec>, values: map<string, Raw>, c: Context, element: string)
    requires ValuesFit(params, values) && PlaceholdersFit(params, element) && P.Names(element) != []
    requires !Shadowed(params, element) && forall n | n in P.Names(element) :: !LoneFlag(params, element, n)
    ensures Substitute(params, values, c, element) == Text(P.Render(P.Scan(element), Fill(values, c)))
  {
    var names := P.Names(element);
    if |names| == 1 && element == P.Braced(names[0]) {
      P.NamesAreHoles(element, names[0]);
      assert !LoneFlag(params, element, names[0]);
    }
  }

  /** Without shadowing, substitution is total and means its tokens. */
  lemma SubstituteIsMeant(params: map<string, ParamSpec>, values: map<string, Raw>, c: Context, element: string)
    requires ValuesFit(params, values) && PlaceholdersFit(params, element) && !Shadowed(params, element)
    ensures Substitute(params, values, c, element) == Meant(params, values, c, element)
  {
    if P.Names(element) == [] {
      PlainElement(element, Fill(values, c));
    } else if n :| n in P.Names(element) && LoneFlag(params, element, n) {
      LoneFlagIsMeant(params, values, c, element, n);
    } else {
      TextIsMeant(params, values, c, element);
    }
  }

  /** A host and a directory that no flag spells. */
  function Telling(params: map<string, ParamSpec>, str: Raw -> string): Context {
    var flag := (n: string) => if n in params && params[n].flag.Some? then params[n].flag.value + "!" else "";
    Context(flag("host"), flag("app_dir"), str)
  }

  lemma ShadowTells(params: map<string, ParamSpec>, values: map<string, Raw>, element: string, str: Raw -> string)
    requires ValuesFit(params, values) && Shadowed(params, element)
    ensures var c := Telling(params, str);
            && Meant(params, values, c, element).Text?
            && Substitute(params, values, c, element) != Meant(params, values, c, element)
  {
    var c := Telling(params, str);
    var r :| r in RESERVED_PLACEHOLDERS && element == P.Braced(r) && r in params && params[r].kind.BoolType?;
    P.SoleHole(r);
    assert P.Render([P.Hole(r)], Fill(values, c)) == Fill(values, c)(r) == params[r].flag.value + "!";
  }

  lemma MeantExactly(params: map<string, ParamSpec>, values: map<string, Raw>, element: string, str: Raw -> string)
    requires ValuesFit(params, values) && PlaceholdersFit(params, element)
    ensures (forall host, appDir ::
               var c := Context(host, appDir, str);
               Substitute(params, values, c, element) == Meant(params, values, c, element))
            <==> !Shadowed(params, element)
  {
    if Shadowed(params, element) {
      ShadowTells(params, values, element, str);
      var c := Telling(params, str);
      assert c == Context(c.host, c.appDir, str);
    } else {
      forall host, appDir
        ensures var c := Context(host, appDir, str);
                Substitute(params, values, c, element) == Meant(params, values, c, element)
      {
        SubstituteIsMeant(params, values, Context(host, appDir, str), element);
      }
    }
  }

  // ----- The theorems -----

  /**
   * When the prechecks of an accepted manifest pass, rendering an element means its tokens, whatever
   * the host and the directory, if and only if no bool param shadows the reserved placeholder it is.
   */
  lemma {:induction false} ElementMeansItsTokensExactly(rx: Regex, raw: map<string, Raw>, stored: map<string, Raw>, element: string,
                                     str: Raw -> string)
    requires Acceptable(rx, raw) && PrechecksPass(rx, Meaning(rx, raw), stored) && element in Meaning(rx, raw).command
    ensures var m := Meaning(rx, raw);
            var values := Resolved(m, stored);
            (forall host, appDir ::
               var c := Context(host, appDir, str);
               Substitute(m.params, values, c, element) == Meant(m.params, values, c, element))
            <==> !Shadowed(m.params, element)
  {
    PrechecksGiveValues(rx, raw, stored);
    AcceptedPlaceholdersFit(rx, raw, element);
    MeantExactly(Meaning(rx, raw).params, Resolved(Meaning(rx, raw), stored), element, str);
  }

  /** The argument list an accepted command means: its elements' tokens rendered once, dropped flags left out. */
  function MeantArgv(params: map<string, ParamSpec>, values: map<string, Raw>, c: Context, elements: seq<string>)
    : seq<string>
  {
    if elements == [] then []
    else
      var piece := Meant(params, values, c, elements[|elements| - 1]);
      var before := MeantArgv(params, values, c, elements[..|elements| - 1]);
      if piece.Text? then before + [piece.text] else before
  }

  /** An element whose placeholders all have values is rendered. */
  lemma SubstituteIsTotal(params: map<string, ParamSpec>, values: map<string, Raw>, c: Context, element: string)
    requires ValuesFit(params, values) && PlaceholdersFit(params, element)
    ensures !Substitute(params, values, c, element).KeyError?
  {
  }

  lemma {:induction false} AllElementsRendered(params: map<string, ParamSpec>, values: map<string, Raw>, c: Context,
                                               elements: seq<string>)
    requires ValuesFit(params, values) && forall e | e in elements :: PlaceholdersFit(params, e)
    ensures SubstituteAll(params, values, c, elements).Some?
  {
    if elements != [] {
      AllElementsRendered(params, values, c, elements[..|elements| - 1]);
      SubstituteIsTotal(params, values, c, elements[|elements| - 1]);
    }
  }

  /** Passing prechecks make rendering total, for every accepted manifest: it neither refuses nor raises. */
  lemma {:induction false} RenderingCannotFail(rx: Regex, raw: map<string, Raw>, stored: map<string, Raw>, c: Context)
    requires Acceptable(rx, raw) && PrechecksPass(rx, Meaning(rx, raw), stored)
    ensures var m := Meaning(rx, raw);
            && (forall f :: !FailsToResolve(rx, m, stored, f))
            && SubstituteAll(m.params, Resolved(m, stored), c, m.command).Some?
  {
    var m := Meaning(rx, raw);
    PrechecksGiveValues(rx, raw, stored);
    forall e | e in m.command ensures PlaceholdersFit(m.params, e) {
      AcceptedPlaceholdersFit(rx, raw, e);
    }
    AllElementsRendered(m.params, Resolved(m, stored), c, m.command);
  }

  lemma {:induction false} AllElementsMeant(params: map<string, ParamSpec>, values: map<string, Raw>, c: Context,
                                            elements: seq<string>)
    requires ValuesFit(params, values)
    requires forall e | e in elements :: PlaceholdersFit(params, e) && !Shadowed(params, e)
    ensures SubstituteAll(params, values, c, elements) == Some(MeantArgv(params, values, c, elements))
  {
    if elements != [] {
      AllElementsMeant(params, values, c, elements[..|elements| - 1]);
      SubstituteIsMeant(params, values, c, elements[|elements| - 1]);
    }
  }

  /** With that host and directory, the argument list of a command is what it means only if nothing is shadowed. */
  lemma {:induction false} ArgvTells(params: map<string, ParamSpec>, values: map<string, Raw>, elements: seq<string>,
                                     str: Raw -> string)
    requires ValuesFit(params, values) && forall e | e in elements :: PlaceholdersFit(params, e)
    ensures var c := Telling(params, str);
            var argv := SubstituteAll(params, values, c, elements);
            && argv.Some? && |argv.value| <= |MeantArgv(params, values, c, elements)|
            && (argv.value == MeantArgv(params, values, c, elements) <==> forall e | e in elements :: !Shadowed(params, e))
  {
    if elements != [] {
      var c := Telling(params, str);
      var before, last := elements[..|elements| - 1], elements[|elements| - 1];
      ArgvTells(params, values, before, str);
      SubstituteIsTotal(params, values, c, last);
      if Shadowed(params, last) {
        ShadowTells(params, values, last, str);
      } else {
        SubstituteIsMeant(params, values, c, last);
      }
      Appended(SubstituteAll(params, values, c, before).value, MeantArgv(params, values, c, before),
               Substitute(params, values, c, last), Meant(params, values, c, last));
      assert forall e :: e in elements <==> e in before || e == last;
    }
  }

  lemma Appended(a: seq<string>, b: seq<string>, x: Piece, y: Piece)
    requires |a| <= |b| && !x.KeyError? && (x == y || y.Text?)
    ensures var a', b' := if x.Text? then a + [x.text] else a, if y.Text? then b + [y.text] else b;
            |a'| <= |b'| && (a' == b' <==> a == b && x == y)
  {
    var a', b' := if x.Text? then a + [x.text] else a, if y.Text? then b + [y.text] else b;
    if a' == b' && |a| == |b| {
      assert a == a'[..|a|] && b == b'[..|b|];
    }
  }

  /**
   * The command of an accepted manifest renders to the argument list it means, whatever the host and
   * the directory, if and only if none of its elements is shadowed.
   */
  lemma {:induction false} RenderingMeansItsTokensExactly(rx: Regex, raw: map<string, Raw>, stored: map<string, Raw>,
                                                          str: Raw -> string)
    requires Acceptable(rx, raw) && PrechecksPass(rx, Meaning(rx, raw), stored)
    ensures var m := Meaning(rx, raw);
            var values := Resolved(m, stored);
            (forall host, appDir ::
               var c := Context(host, appDir, str);
               SubstituteAll(m.params, values, c, m.command) == Some(MeantArgv(m.params, values, c, m.command)))
            <==> forall e | e in m.command :: !Shadowed(m.params, e)
  {
    var m := Meaning(rx, raw);
    var values := Resolved(m, stored);
    PrechecksGiveValues(rx, raw, stored);
    forall e | e in m.command ensures PlaceholdersFit(m.params, e) {
      AcceptedPlaceholdersFit(rx, raw, e);
    }
    ArgvMeantExactly(m.params, values, m.command, str);
  }

  lemma ArgvMeantExactly(params: map<string, ParamSpec>, values: map<string, Raw>, elements: seq<string>,
                         str: Raw -> string)
    requires ValuesFit(params, values) && forall e | e in elements :: PlaceholdersFit(params, e)
    ensures (forall host, appDir ::
               var c := Context(host, appDir, str);
               SubstituteAll(params, values, c, elements) == Some(MeantArgv(params, values, c, elements)))
            <==> forall e | e in elements :: !Shadowed(params, e)
  {
    if forall e | e in elements :: !Shadowed(params, e) {
      forall host, appDir
        ensures var c := Context(host, appDir, str);
                SubstituteAll(params, values, c, elements) == Some(MeantArgv(params, values, c, elements))
      {
        AllElementsMeant(params, values, Context(host, appDir, str), elements);
      }
    } else {
      ArgvTells(params, values, elements, str);
      var c := Telling(params, str);
      assert c == Context(c.host, c.appDir, str);
    }
  }

  /** A manifest whose command is the host, and which declares a flag of that name. */
  function HostManifest(): map<string, Raw> {
    map["schema" := Int(1), "name" := Str("demo"), "description" := Str("Demo"), "command" := List([Str("{host}")]),
        "params" := Table(map["host" := Table(HostParam())])]
  }

  function HostParam(): map<string, Raw> {
    map["type" := Str("bool"), "flag" := Str("-h")]
  }

  lemma HostParamParses(rx: Regex)
    ensures ParseParam(rx, "host", Table(HostParam())).Spec? && ParseParam(rx, "host", Table(HostParam())).spec.kind.BoolType?
    ensures ParamFaults(rx, "host", Table(HostParam())) == {}
  {
  }

  lemma HostFields()
    ensures var raw := HostManifest();
            && Field(raw, "schema") == Int(1) && Field(raw, "name") == Str("demo") && Field(raw, "description") == Str("Demo")
            && Field(raw, "command") == List([Str("{host}")]) && Field(raw, "url") == Null && "devices" !in raw
            && "env" !in raw && SubTable(raw, "params") == Table(map["host" := Table(HostParam())])
            && raw.Keys <= TOP_LEVEL_KEYS
  {
  }

  lemma HostTextsOk(rx: Regex, v: Violation)
    requires TextViolation(v) || KeyViolation(v)
    ensures !Violates(rx, HostManifest(), v)
  {
    HostFields();
  }

  lemma HostEntriesOk(rx: Regex, v: Violation)
    requires EntryViolation(v)
    ensures !Violates(rx, HostManifest(), v) && !Crashes(rx, HostManifest())
  {
    HostFields();
    HostParamParses(rx);
  }

  lemma HostTemplates(where: Location, e: string, n: string)
    requires e in Templates(HostManifest(), where) && n in P.Names(e)
    ensures e == "{host}" && n == "host"
  {
    HostFields();
    assert e == "{host}";
    HostNames(n);
  }

  lemma HostNames(n: string)
    ensures n in P.Names("{host}") ==> n == "host"
  {
    P.SoleHole("host");
    assert P.Braced("host") == "{host}";
  }

  lemma HostPlaceholdersOk(rx: Regex, v: Violation)
    requires v.UndefinedPlaceholder? || v.MixedBool?
    ensures !Violates(rx, HostManifest(), v)
  {
    if Violates(rx, HostManifest(), v) {
      if v.MixedBool? {
        HostTemplates(v.where, v.element, v.boolParam);
      } else {
        var e :| e in Templates(HostManifest(), v.location)
                 && Undefined(ParamsIn(rx, TableOf(SubTable(HostManifest(), "params"))), e, v.placeholder);
        HostTemplates(v.location, e, v.placeholder);
      }
    }
  }

  /** The validator accepts a manifest whose command is shadowed. */
  lemma {:induction false} ShadowedManifestIsAccepted(rx: Regex)
    ensures Acceptable(rx, HostManifest())
    ensures Meaning(rx, HostManifest()).command == ["{host}"] && Shadowed(Meaning(rx, HostManifest()).params, "{host}")
  {
    forall v ensures !Violates(rx, HostManifest(), v) {
      HostViolatesNothing(rx, v);
    }
    HostEntriesOk(rx, EnvNotTable);
    HostMeaning(rx);
  }

  lemma HostViolatesNothing(rx: Regex, v: Violation)
    ensures !Violates(rx, HostManifest(), v)
  {
    if TextViolation(v) || KeyViolation(v) {
      HostTextsOk(rx, v);
    } else if EntryViolation(v) {
      HostEntriesOk(rx, v);
    } else {
      HostPlaceholdersOk(rx, v);
    }
  }

  lemma HostMeaning(rx: Regex)
    requires forall v :: !Violates(rx, HostManifest(), v)
    ensures Meaning(rx, HostManifest()).command == ["{host}"] && Shadowed(Meaning(rx, HostManifest()).params, "{host}")
  {
    HostFields();
    HostParams(rx);
  }

  lemma HostParams(rx: Regex)
    ensures Shadowed(ParamsIn(rx, TableOf(SubTable(HostManifest(), "params"))), "{host}")
  {
    HostFields();
    HostParamParses(rx);
    var params := ParamsIn(rx, TableOf(SubTable(HostManifest(), "params")));
    assert "host" in RESERVED_PLACEHOLDERS && "host" in params && "{host}" == P.Braced("host");
  }

  /** Two contexts that print the same text for everything but bools. */
  ghost predicate SameButBools(c: Context, d: Context) {
    c.host == d.host && c.appDir == d.appDir && forall v: Raw | !v.Bool? :: c.str(v) == d.str(v)
  }

  lemma TextIgnoresBools(params: map<string, ParamSpec>, values: map<string, Raw>, c: Context, d: Context,
                         element: string)
    requires ValuesFit(params, values) && PlaceholdersFit(params, element) && SameButBools(c, d)
    requires forall n | n in P.Names(element) :: !LoneFlag(params, element, n)
    ensures P.Render(P.Scan(element), Fill(values, c)) == P.Render(P.Scan(element), Fill(values, d))
  {
    forall n | P.Hole(n) in P.Scan(element) ensures Fill(values, c)(n) == Fill(values, d)(n) {
      P.NamesAreHoles(element, n);
      assert !LoneFlag(params, element, n);
    }
    P.RenderSame(P.Scan(element), Fill(values, c), Fill(values, d));
  }

  lemma SubstituteIgnoresBools(params: map<string, ParamSpec>, values: map<string, Raw>, c: Context, d: Context,
                               element: string)
    requires ValuesFit(params, values) && PlaceholdersFit(params, element) && SameButBools(c, d)
    ensures Substitute(params, values, c, element) == Substitute(params, values, d, element)
  {
    if n :| n in P.Names(element) && LoneFlag(params, element, n) {
      P.SoleHole(n);
    } else {
      TextIgnoresBools(params, values, c, d, element);
    }
  }

  /** No bool is ever printed as text: how a bool would print makes no difference to the command. */
  lemma {:induction false} NoBoolIsPrinted(rx: Regex, raw: map<string, Raw>, stored: map<string, Raw>, element: string,
                        c: Context, d: Context)
    requires Acceptable(rx, raw) && PrechecksPass(rx, Meaning(rx, raw), stored) && element in Meaning(rx, raw).command
    requires SameButBools(c, d)
    ensures var m := Meaning(rx, raw);
            Substitute(m.params, Resolved(m, stored), c, element) == Substitute(m.params, Resolved(m, stored), d, element)
  {
    PrechecksGiveValues(rx, raw, stored);
    AcceptedPlaceholdersFit(rx, raw, element);
    SubstituteIgnoresBools(Meaning(rx, raw).params, Resolved(Meaning(rx, raw), stored), c, d, element);
  }
}
