/**
 * App ids (`core/apps.py`): the namespace of a source, and the search for a free name under it.
 * Every id minted is unoccupied and one the ledger parser accepts, and the search is as complete as it can be.
 */
module AppNames {
  import opened Prelude
  import M = Manifest

  // ----- Decimals -----

  function DigitChar(d: nat): char
    requires d < 10
  {
    ('0' as int + d) as char
  }

  function Decimal(n: nat): (s: string)
    ensures s != "" && forall i | 0 <= i < |s| :: M.Digit(s[i])
  {
    if n < 10 then [DigitChar(n)] else Decimal(n / 10) + [DigitChar(n % 10)]
  }

  function Number(s: string): nat
    requires forall i | 0 <= i < |s| :: M.Digit(s[i])
  {
    if s == "" then 0 else
    assert M.Digit(s[|s| - 1]);
    10 * Number(s[..|s| - 1]) + (s[|s| - 1] as int - '0' as int)
  }

  lemma {:induction false} DecimalRoundTrip(n: nat)
    ensures Number(Decimal(n)) == n
  {
    if n < 10 {
      assert Decimal(n)[..0] == "";
    } else {
      DecimalRoundTrip(n / 10);
      assert Decimal(n)[..|Decimal(n)| - 1] == Decimal(n / 10);
    }
  }

  lemma {:induction false} DecimalLength(n: nat, digits: nat)
    requires digits > 0 && n < Power10(digits)
    ensures |Decimal(n)| <= digits
  {
    if n >= 10 {
      assert digits > 1;
      assert n / 10 < Power10(digits - 1);
      DecimalLength(n / 10, digits - 1);
    }
  }

  function Power10(k: nat): nat {
    if k == 0 then 1 else 10 * Power10(k - 1)
  }

  // ----- Ids the ledger accepts -----

  predicate NamespaceOk(s: string) {
    && 1 <= |s| <= 40 && (M.Lower(s[0]) || M.Digit(s[0]))
    && forall i | 0 < i < |s| :: M.Lower(s[i]) || M.Digit(s[i]) || s[i] == '-'
  }

  /** The app id pattern: a namespace, a dot and a name. */
  predicate AppIdOk(s: string) {
    exists i | 0 <= i < |s| :: s[i] == '.' && NamespaceOk(s[..i]) && M.AppNameOk(s[i + 1..])
  }

  lemma JoinedIdOk(namespace: string, name: string)
    requires NamespaceOk(namespace) && M.AppNameOk(name)
    ensures AppIdOk(namespace + "." + name)
  {
    var s := namespace + "." + name;
    assert s[..|namespace|] == namespace && s[|namespace| + 1..] == name;
  }

  // ----- Namespaces -----

  predicate NamespaceChar(c: char) {
    M.Lower(c) || M.Digit(c) || c == '-'
  }

  /** Everything but letters, digits and hyphens becomes a hyphen. */
  function Hyphenate(s: string): (r: string)
    ensures |r| == |s| && forall i | 0 <= i < |r| :: NamespaceChar(r[i])
  {
    seq(|s|, i requires 0 <= i < |s| => if NamespaceChar(s[i]) then s[i] else '-')
  }

  /** Runs of hyphens become one. */
  function Collapse(s: string): (r: string)
    requires forall i | 0 <= i < |s| :: NamespaceChar(s[i])
    ensures |r| <= |s| && forall i | 0 <= i < |r| :: NamespaceChar(r[i])
  {
    if s == "" then ""
    else if |s| > 1 && s[0] == '-' && s[1] == '-' then Collapse(s[1..])
    else [s[0]] + Collapse(s[1..])
  }

  function StripLeft(s: string): (r: string)
    ensures |r| <= |s| && (r != "" ==> r[0] != '-')
    ensures (forall i | 0 <= i < |s| :: NamespaceChar(s[i])) ==> forall i | 0 <= i < |r| :: NamespaceChar(r[i])
  {
    if s != "" && s[0] == '-' then StripLeft(s[1..]) else s
  }

  function StripRight(s: string): (r: string)
    ensures r <= s && (r != "" ==> r[|r| - 1] != '-')
  {
    if s != "" && s[|s| - 1] == '-' then StripRight(s[..|s| - 1]) else s
  }

  /** The namespace of a host or an owner; `lower` is what Python's `lower()` makes of it. */
  function NormalizeNamespace(lower: string): (r: string)
    ensures NamespaceOk(r)
  {
    var collapsed := Collapse(Hyphenate(lower));
    var short := if |collapsed| <= 40 then collapsed else collapsed[..40];
    var stripped := StripRight(StripLeft(short));
    if stripped == "" then "git" else stripped
  }

  /** A repository: host and owner in lower case, and its name. */
  datatype Repo = Repo(host: string, owner: string, name: string)

  datatype Source = ZipFile | GitUrl(repo: Option<Repo>)

  const RESERVED := {"palmimo", "zip", "git"}

  function AppNamespace(source: Source, catalog: Option<Repo>): (r: string)
    ensures NamespaceOk(r)
  {
    match source
    case ZipFile => "zip"
    case GitUrl(None) => "git"
    case GitUrl(Some(repo)) =>
      if catalog == Some(repo) then "palmimo"
      else if repo.host == "github.com" then
        var namespace := NormalizeNamespace(repo.owner);
        if namespace in RESERVED then namespace + "-gh" else namespace
      else NormalizeNamespace(repo.host)
  }

  /** No GitHub owner gets a reserved namespace, and the official one exactly the catalog's repository or a host so named. */
  lemma ReservedExactly(repo: Repo, catalog: Option<Repo>)
    ensures var namespace := AppNamespace(GitUrl(Some(repo)), catalog);
            && (namespace == "palmimo" <==>
                catalog == Some(repo) || (repo.host != "github.com" && NormalizeNamespace(repo.host) == "palmimo"))
            && (repo.host == "github.com" && catalog != Some(repo) ==> namespace !in RESERVED)
  {
    var owner := NormalizeNamespace(repo.owner);
    assert (owner + "-gh")[|owner|] == '-';
    assert |owner + "-gh"| == |owner| + 3;
  }

  predicate Alphanumeric(s: string) {
    forall i | 0 <= i < |s| :: M.Lower(s[i]) || M.Digit(s[i])
  }

  lemma {:induction false} CollapseKeeps(s: string)
    requires Alphanumeric(s)
    ensures Collapse(s) == s
  {
    if s != "" {
      CollapseKeeps(s[1..]);
    }
  }

  lemma NormalizeKeeps(s: string)
    requires Alphanumeric(s) && 1 <= |s| <= 40
    ensures NormalizeNamespace(s) == s
  {
    assert Hyphenate(s) == s;
    CollapseKeeps(s);
  }

  /** There is such a host: whoever serves repositories under the name `palmimo` gets the official namespace. */
  lemma HostTakesOfficialNamespace(repo: Repo, catalog: Option<Repo>)
    requires repo.host == "palmimo"
    ensures AppNamespace(GitUrl(Some(repo)), catalog) == "palmimo"
  {
    NormalizeKeeps("palmimo");
    assert |"palmimo"| != |"github.com"|;
  }

  // ----- Candidates -----

  const LAST_SUFFIX := 999999

  function Suffix(n: nat): (s: string)
    requires 1 <= n <= LAST_SUFFIX
    ensures |s| <= 7
  {
    if n == 1 then "" else
    assert LAST_SUFFIX < Power10(6) by { SixDigits(); }
    DecimalLength(n, 6);
    "-" + Decimal(n)
  }

  lemma SixDigits()
    ensures Power10(6) == 1000000
  {
    assert Power10(3) == 1000;
    assert Power10(4) == 10000;
    assert Power10(5) == 100000;
  }

  function Take(s: string, k: nat): string {
    if |s| <= k then s else s[..k]
  }

  /** The `n`-th candidate: the name, cut so that the suffix fits. */
  function Candidate(requested: string, n: nat): string
    requires 1 <= n <= LAST_SUFFIX
  {
    Take(Take(requested, 40), 40 - |Suffix(n)|) + Suffix(n)
  }

  lemma CandidateOk(requested: string, n: nat)
    requires M.AppNameOk(requested) && 1 <= n <= LAST_SUFFIX
    ensures M.AppNameOk(Candidate(requested, n))
  {
    var base := Take(Take(requested, 40), 40 - |Suffix(n)|);
    var c := Candidate(requested, n);
    forall i | 0 < i < |c| ensures M.Lower(c[i]) || M.Digit(c[i]) || c[i] == '-' {
      if i < |base| {
        assert c[i] == requested[i];
      } else if i > |base| {
        assert c[i] == Decimal(n)[i - |base| - 1];
      }
    }
  }

  /** What follows the last hyphen of a text is determined by the text. */
  lemma {:induction false} SameEnding(a: string, d: string, b: string, e: string)
    requires a + "-" + d == b + "-" + e && '-' !in d && '-' !in e
    ensures d == e
  {
    var s := a + "-" + d;
    assert s[|s| - 1] == (if d == "" then '-' else d[|d| - 1]) == (if e == "" then '-' else e[|e| - 1]);
    if d != "" && e != "" {
      var t := s[..|s| - 1];
      assert t == a + "-" + d[..|d| - 1] && t == b + "-" + e[..|e| - 1];
      SameEnding(a, d[..|d| - 1], b, e[..|e| - 1]);
      assert d == d[..|d| - 1] + [d[|d| - 1]] && e == e[..|e| - 1] + [e[|e| - 1]];
    }
  }

  lemma SuffixedForm(requested: string, n: nat) returns (base: string)
    requires 2 <= n <= LAST_SUFFIX
    ensures Candidate(requested, n) == base + "-" + Decimal(n)
  {
    base := Take(Take(requested, 40), 40 - |Suffix(n)|);
    assert base + ("-" + Decimal(n)) == base + "-" + Decimal(n);
  }

  lemma DigitsAreNotHyphens(s: string)
    requires forall i | 0 <= i < |s| :: M.Digit(s[i])
    ensures '-' !in s
  {
  }

  /** Two candidates with numeric suffixes differ: the digits after the last hyphen tell them apart. */
  lemma SuffixedDiffer(requested: string, m: nat, n: nat)
    requires 2 <= m < n <= LAST_SUFFIX
    ensures Candidate(requested, m) != Candidate(requested, n)
  {
    var a := SuffixedForm(requested, m);
    var b := SuffixedForm(requested, n);
    if Candidate(requested, m) == Candidate(requested, n) {
      DigitsAreNotHyphens(Decimal(m));
      DigitsAreNotHyphens(Decimal(n));
      SameEnding(a, Decimal(m), b, Decimal(n));
      DecimalRoundTrip(m);
      DecimalRoundTrip(n);
    }
  }

  /** The ids of the candidates with suffixes 2 to `n`. */
  function SuffixedIds(namespace: string, requested: string, n: nat): set<string>
    requires 1 <= n <= LAST_SUFFIX
  {
    if n == 1 then {} else SuffixedIds(namespace, requested, n - 1) + {namespace + "." + Candidate(requested, n)}
  }

  lemma SameName(namespace: string, a: string, b: string)
    requires namespace + "." + a == namespace + "." + b
    ensures a == b
  {
    assert (namespace + "." + a)[|namespace| + 1..] == a;
    assert (namespace + "." + b)[|namespace| + 1..] == b;
  }

  lemma {:induction false} NewSuffixedId(namespace: string, requested: string, k: nat, n: nat)
    requires 1 <= k < n <= LAST_SUFFIX
    ensures namespace + "." + Candidate(requested, n) !in SuffixedIds(namespace, requested, k)
  {
    if k > 1 {
      NewSuffixedId(namespace, requested, k - 1, n);
      SuffixedDiffer(requested, k, n);
      if namespace + "." + Candidate(requested, k) == namespace + "." + Candidate(requested, n) {
        SameName(namespace, Candidate(requested, k), Candidate(requested, n));
      }
    }
  }

  lemma {:induction false} ManySuffixedIds(namespace: string, requested: string, n: nat)
    requires 1 <= n <= LAST_SUFFIX
    ensures |SuffixedIds(namespace, requested, n)| == n - 1
  {
    if n > 1 {
      ManySuffixedIds(namespace, requested, n - 1);
      NewSuffixedId(namespace, requested, n - 1, n);
    }
  }

  lemma {:induction false} SuffixedIdsTaken(namespace: string, requested: string, n: nat, occupied: set<string>)
    requires 1 <= n <= LAST_SUFFIX
    requires forall k | 1 <= k <= LAST_SUFFIX :: namespace + "." + Candidate(requested, k) in occupied
    ensures SuffixedIds(namespace, requested, n) <= occupied
  {
    if n > 1 {
      SuffixedIdsTaken(namespace, requested, n - 1, occupied);
    }
  }

  // ----- The search -----

  /**
   * The first free name. It is found whenever fewer than 999,998 ids are occupied, and missed only
   * when every candidate is taken; the id it makes is free and one the ledger parser accepts.
   */
  method SuggestAppName(namespace: string, requested: string, apps: set<string>, currentJobApp: Option<string>)
    returns (r: Option<string>)
    requires NamespaceOk(namespace) && M.AppNameOk(requested)
    ensures var occupied := apps + (if currentJobApp.Some? && currentJobApp.value != "" then {currentJobApp.value} else {});
            && (r.Some? ==> AppIdOk(namespace + "." + r.value) && namespace + "." + r.value !in occupied)
            && (r.None? <==> forall n | 1 <= n <= LAST_SUFFIX :: namespace + "." + Candidate(requested, n) in occupied)
            && (|occupied| < 999998 ==> r.Some?)
            && (namespace + "." + requested !in occupied ==> r == Some(requested))
  {
    var occupied := apps;
    if currentJobApp.Some? && currentJobApp.value != "" {
      occupied := occupied + {currentJobApp.value};
    }
    assert Candidate(requested, 1) == requested;
    for n := 1 to LAST_SUFFIX + 1
      invariant forall k | 1 <= k < n :: namespace + "." + Candidate(requested, k) in occupied
    {
      var candidate := Candidate(requested, n);
      if namespace + "." + candidate !in occupied {
        CandidateOk(requested, n);
        JoinedIdOk(namespace, candidate);
        return Some(candidate);
      }
    }
    AllTakenIsMany(namespace, requested, occupied);
    r := None;
  }

  lemma AllTakenIsMany(namespace: string, requested: string, occupied: set<string>)
    requires forall n | 1 <= n <= LAST_SUFFIX :: namespace + "." + Candidate(requested, n) in occupied
    ensures |occupied| >= 999998
  {
    var ids := SuffixedIds(namespace, requested, LAST_SUFFIX);
    SuffixedIdsTaken(namespace, requested, LAST_SUFFIX, occupied);
    ManySuffixedIds(namespace, requested, LAST_SUFFIX);
    Subset(ids, occupied);
  }

  lemma {:induction false} Subset(a: set<string>, b: set<string>)
    requires a <= b
    ensures |a| <= |b|
  {
    if a != {} {
      var x :| x in a;
      Subset(a - {x}, b - {x});
    }
  }
}
