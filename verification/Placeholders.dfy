/**
 * Placeholders in command and URL templates (`core/manifest.py`): how a template is scanned for
 * `{name}`, and how a replacement is carried out in one pass.
 */
module Placeholders {

  /** A character that stands for itself, or a placeholder. */
  datatype Token = Literal(c: char) | Hole(name: string)

  predicate IsBrace(c: char) {
    c == '{' || c == '}'
  }

  predicate BraceFree(s: string) {
    forall i | 0 <= i < |s| :: !IsBrace(s[i])
  }

  /** How far the text goes before its first brace. */
  function UpToBrace(s: string): (k: nat)
    ensures k <= |s| && BraceFree(s[..k]) && (k < |s| ==> IsBrace(s[k]))
  {
    if s == "" || IsBrace(s[0]) then 0 else
    var k := 1 + UpToBrace(s[1..]);
    assert s[1..][..k - 1] == s[1..k];
    k
  }

  lemma {:induction false} UpToBraceIs(s: string, k: nat)
    requires k < |s| && BraceFree(s[..k]) && IsBrace(s[k])
    ensures UpToBrace(s) == k
  {
    if k > 0 {
      assert s[..k][0] == s[0] && s[1..][..k - 1] == s[..k][1..];
      UpToBraceIs(s[1..], k - 1);
    }
  }

  /** A placeholder starts here: a brace, a name without braces, and the closing brace. */
  predicate AtHole(s: string) {
    && s != "" && s[0] == '{'
    && var k := UpToBrace(s[1..]); k + 1 < |s| && s[k + 1] == '}'
  }

  function HoleName(s: string): (n: string)
    requires AtHole(s)
    ensures BraceFree(n) && |n| + 2 <= |s|
    ensures s == "{" + n + "}" + s[|n| + 2..]
  {
    var k := UpToBrace(s[1..]);
    assert s[1..1 + k] == s[1..][..k];
    s[1..1 + k]
  }

  /** The leftmost, non-overlapping matches of the placeholder pattern, and the text around them. */
  function Scan(s: string): seq<Token> {
    if s == "" then []
    else if AtHole(s) then [Hole(HoleName(s))] + Scan(s[|HoleName(s)| + 2..])
    else [Literal(s[0])] + Scan(s[1..])
  }

  /** The names a template refers to, in order. */
  function Names(s: string): seq<string> {
    if s == "" then []
    else if AtHole(s) then [HoleName(s)] + Names(s[|HoleName(s)| + 2..])
    else Names(s[1..])
  }

  function Braced(name: string): string {
    "{" + name + "}"
  }

  /** The text of tokens, each rendered once and none looked at again. */
  function Render(tokens: seq<Token>, fill: string -> string): string {
    if tokens == [] then ""
    else (match tokens[0] case Literal(c) => [c] case Hole(n) => fill(n)) + Render(tokens[1..], fill)
  }

  /** Scanning loses nothing: tokens spell the template they came from. */
  lemma {:induction false} ScanSpells(s: string)
    ensures Render(Scan(s), Braced) == s
  {
    if s == "" {
    } else if AtHole(s) {
      ScanSpells(s[|HoleName(s)| + 2..]);
    } else {
      ScanSpells(s[1..]);
    }
  }

  lemma {:induction false} NamesAreHoles(s: string, n: string)
    ensures n in Names(s) <==> Hole(n) in Scan(s)
    ensures n in Names(s) ==> BraceFree(n)
  {
    if s == "" {
    } else if AtHole(s) {
      NamesAreHoles(s[|HoleName(s)| + 2..], n);
    } else {
      NamesAreHoles(s[1..], n);
    }
  }

  /** An element that is nothing but one placeholder. */
  lemma SoleHole(n: string)
    requires BraceFree(n)
    ensures Names(Braced(n)) == [n] && Scan(Braced(n)) == [Hole(n)]
  {
    var s := Braced(n);
    assert s[1..] == n + "}" && s[1..][..|n|] == n;
    UpToBraceIs(s[1..], |n|);
    assert HoleName(s) == n && s[|n| + 2..] == "";
  }

  lemma {:induction false} RenderSame(tokens: seq<Token>, f: string -> string, g: string -> string)
    requires forall n | Hole(n) in tokens :: f(n) == g(n)
    ensures Render(tokens, f) == Render(tokens, g)
  {
    if tokens != [] {
      assert forall n | Hole(n) in tokens[1..] :: Hole(n) in tokens;
      RenderSame(tokens[1..], f, g);
      if tokens[0].Hole? {
        assert Hole(tokens[0].name) in tokens;
      }
    }
  }
}
