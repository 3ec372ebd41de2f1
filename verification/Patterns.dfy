/**
 * The syntax check on the patterns of string params (`core/manifest.py`): which patterns its two scans
 * let through, and that none of them has a group or an alternation as Python reads it.
 */
module Patterns {

  predicate Paren(c: char) { c == '(' || c == ')' }
  predicate Repeats(c: char) { c == '+' || c == '*' }
  /** What makes a group or an alternation outside a character class. */
  predicate Structural(c: char) { Paren(c) || c == '|' }

  /** From `i` to `j` there is a group, without another inside, that is repeated and repeats something inside. */
  predicate RepeatedGroup(s: string, i: nat, j: nat)
    requires i < j < |s|
  {
    && s[i] == '(' && s[j] == ')' && j + 1 < |s| && Repeats(s[j + 1])
    && (forall m | i < m < j :: !Paren(s[m])) && (exists m | i < m < j :: Repeats(s[m]))
  }

  predicate NestedQuantifier(s: string) {
    exists i: nat, j: nat | i < j < |s| :: RepeatedGroup(s, i, j)
  }

  // ----- The scan -----

  /** What the scan answers for the rest of a pattern. */
  function SafeFrom(s: string, inClass: bool, escaped: bool): bool {
    if s == "" then !escaped && !inClass
    else if escaped then SafeFrom(s[1..], inClass, false)
    else if s[0] == '\\' then SafeFrom(s[1..], inClass, true)
    else if s[0] == '[' && !inClass then SafeFrom(s[1..], true, false)
    else if s[0] == ']' && inClass then SafeFrom(s[1..], false, false)
    else if !inClass && Structural(s[0]) then false
    else SafeFrom(s[1..], inClass, false)
  }

  /** The scan for unsupported syntax: it accepts exactly the patterns of the grammar below. */
  method IsSafePattern(pattern: string) returns (safe: bool)
    ensures safe <==> exists atoms :: WellFormed(atoms) && Print(atoms) == pattern
    ensures safe == SafeFrom(pattern, false, false)
  {
    SafeIsGrammatical(pattern);
    var inClass, escaped := false, false;
    for i := 0 to |pattern|
      invariant SafeFrom(pattern[i..], inClass, escaped) == SafeFrom(pattern, false, false)
    {
      var c := pattern[i];
      assert pattern[i..][1..] == pattern[i + 1..];
      if escaped {
        escaped := false;
      } else if c == '\\' {
        escaped := true;
      } else if c == '[' && !inClass {
        inClass := true;
      } else if c == ']' && inClass {
        inClass := false;
      } else if !inClass && Structural(c) {
        return false;
      }
    }
    safe := !escaped && !inClass;
  }

  // ----- The grammar -----

  /** A character, with or without a backslash. */
  datatype Item = Escaped(c: char) | Plain(c: char)

  /** One item, or a character class. */
  datatype Atom = Single(item: Item) | Class(items: seq<Item>)

  predicate OutsideOk(item: Item) {
    item.Plain? ==> !Structural(item.c) && item.c != '[' && item.c != '\\'
  }

  predicate InsideOk(item: Item) {
    item.Plain? ==> item.c != ']' && item.c != '\\'
  }

  predicate AtomOk(atom: Atom) {
    match atom
    case Single(item) => OutsideOk(item)
    case Class(items) => forall item | item in items :: InsideOk(item)
  }

  predicate WellFormed(atoms: seq<Atom>) {
    forall atom | atom in atoms :: AtomOk(atom)
  }

  function PrintItem(item: Item): string {
    match item
    case Escaped(c) => ['\\', c]
    case Plain(c) => [c]
  }

  function PrintItems(items: seq<Item>): string {
    if items == [] then "" else PrintItem(items[0]) + PrintItems(items[1..])
  }

  function PrintAtom(atom: Atom): string {
    match atom
    case Single(item) => PrintItem(item)
    case Class(items) => "[" + PrintItems(items) + "]"
  }

  function Print(atoms: seq<Atom>): string {
    if atoms == [] then "" else PrintAtom(atoms[0]) + Print(atoms[1..])
  }

  lemma ItemScans(item: Item, rest: string, inClass: bool)
    requires if inClass then InsideOk(item) else OutsideOk(item)
    ensures SafeFrom(PrintItem(item) + rest, inClass, false) == SafeFrom(rest, inClass, false)
  {
    var s := PrintItem(item) + rest;
    if item.Escaped? {
      assert s[1..] == [item.c] + rest && s[1..][1..] == rest;
    } else {
      assert s[1..] == rest;
    }
  }

  lemma {:induction false} ClassScans(items: seq<Item>, rest: string)
    requires forall item | item in items :: InsideOk(item)
    ensures SafeFrom(PrintItems(items) + "]" + rest, true, false) == SafeFrom(rest, false, false)
  {
    if items == [] {
      assert (PrintItems(items) + "]" + rest)[1..] == rest;
    } else {
      ItemScans(items[0], PrintItems(items[1..]) + "]" + rest, true);
      ClassScans(items[1..], rest);
      Regroup(PrintItem(items[0]), PrintItems(items[1..]), rest);
    }
  }

  lemma Regroup(a: string, b: string, rest: string)
    ensures (a + b) + "]" + rest == a + (b + "]" + rest)
  {
  }

  lemma AtomScans(atom: Atom, rest: string)
    requires AtomOk(atom)
    ensures SafeFrom(PrintAtom(atom) + rest, false, false) == SafeFrom(rest, false, false)
  {
    match atom
    case Class(items) =>
      ClassScans(items, rest);
      assert (PrintAtom(atom) + rest)[1..] == PrintItems(items) + "]" + rest;
    case Single(item) =>
      ItemScans(item, rest, false);
  }

  lemma {:induction false} PrintedIsSafe(atoms: seq<Atom>)
    requires WellFormed(atoms)
    ensures SafeFrom(Print(atoms), false, false)
  {
    if atoms != [] {
      assert AtomOk(atoms[0]);
      AtomScans(atoms[0], Print(atoms[1..]));
      PrintedIsSafe(atoms[1..]);
    }
  }

  /** The next item of a safe pattern. */
  lemma ReadItem(s: string, inClass: bool) returns (item: Item, rest: string)
    requires s != "" && SafeFrom(s, inClass, false) && (if inClass then s[0] != ']' else s[0] != '[')
    ensures s == PrintItem(item) + rest && |rest| < |s| && SafeFrom(rest, inClass, false)
    ensures if inClass then InsideOk(item) else OutsideOk(item)
  {
    if s[0] == '\\' {
      item, rest := Escaped(s[1]), s[2..];
      assert s[1..][1..] == rest;
    } else {
      item, rest := Plain(s[0]), s[1..];
    }
  }

  lemma {:induction false} ReadClass(s: string) returns (items: seq<Item>, rest: string)
    requires SafeFrom(s, true, false)
    ensures s == PrintItems(items) + "]" + rest && |rest| < |s| && SafeFrom(rest, false, false)
    ensures forall item | item in items :: InsideOk(item)
    decreases |s|
  {
    if s[0] == ']' {
      items, rest := [], s[1..];
    } else {
      var first, more := ReadItem(s, true);
      var others;
      others, rest := ReadClass(more);
      items := [first] + others;
    }
  }

  lemma {:induction false} ReadPattern(s: string) returns (atoms: seq<Atom>)
    requires SafeFrom(s, false, false)
    ensures WellFormed(atoms) && Print(atoms) == s
    decreases |s|
  {
    if s == "" {
      atoms := [];
    } else {
      var atom, rest;
      if s[0] == '[' {
        var items;
        items, rest := ReadClass(s[1..]);
        atom := Class(items);
      } else {
        var item;
        item, rest := ReadItem(s, false);
        atom := Single(item);
      }
      var others := ReadPattern(rest);
      atoms := [atom] + others;
    }
  }

  /** The scan accepts a pattern if and only if it is items and classes, with nothing structural outside a class. */
  lemma {:induction false} SafeIsGrammatical(pattern: string)
    ensures SafeFrom(pattern, false, false) <==> exists atoms :: WellFormed(atoms) && Print(atoms) == pattern
  {
    if SafeFrom(pattern, false, false) {
      var atoms := ReadPattern(pattern);
    } else if atoms :| WellFormed(atoms) && Print(atoms) == pattern {
      PrintedIsSafe(atoms);
    }
  }

  // ----- How Python reads a pattern -----

  /** Outside a class, at its first character (perhaps after `^`), or further inside. */
  datatype Place = Outside | Opened(negated: bool) | Inside

  datatype Mode = Mode(place: Place, escaped: bool)

  /** In Python a `]` that is the first character of a class stands for itself. */
  function Read(m: Mode, c: char): Mode {
    if m.escaped then m.(escaped := false)
    else
      var inside := if m.place.Outside? then Outside else Inside;
      if c == '\\' then Mode(inside, true)
      else
        match m.place
        case Outside => Mode(if c == '[' then Opened(false) else Outside, false)
        case Opened(negated) => Mode(if c == '^' && !negated then Opened(true) else Inside, false)
        case Inside => Mode(if c == ']' then Outside else Inside, false)
  }

  /** Where Python stands before the `i`-th character. */
  function ModeAt(s: string, i: nat): Mode
    requires i <= |s|
  {
    if i == 0 then Mode(Outside, false) else Read(ModeAt(s, i - 1), s[i - 1])
  }

  /** Whatever could make a group or an alternation is escaped or in a class. */
  predicate Groupless(s: string) {
    forall i | 0 <= i < |s| && Structural(s[i]) :: ModeAt(s, i).escaped || !ModeAt(s, i).place.Outside?
  }

  /** Some class begins with `]`. */
  predicate LeadingBracket(s: string) {
    exists i | 0 <= i < |s| :: s[i] == ']' && ModeAt(s, i).place.Opened? && !ModeAt(s, i).escaped
  }

  /** Whether the scan takes itself to be in a class, or after a backslash, before the `i`-th character. */
  function ScanAt(s: string, i: nat): (r: (bool, bool))
    requires i <= |s|
  {
    if i == 0 then (false, false)
    else
      var (inClass, escaped), c := ScanAt(s, i - 1), s[i - 1];
      if escaped then (inClass, false)
      else if c == '\\' then (inClass, true)
      else if c == '[' && !inClass then (true, false)
      else if c == ']' && inClass then (false, false)
      else (inClass, false)
  }

  /** The scan is in a class only where Python is, and loses track only after a leading `]`. */
  lemma {:induction false} ScanFollows(s: string, i: nat)
    requires i <= |s|
    ensures var (scan, mode) := (ScanAt(s, i), ModeAt(s, i));
            && scan.1 == mode.escaped
            && (scan.0 ==> !mode.place.Outside?) && (mode.place.Opened? ==> scan.0)
            && (!LeadingBracket(s) ==> (scan.0 <==> !mode.place.Outside?))
  {
    if i > 0 {
      ScanFollows(s, i - 1);
    }
  }

  lemma {:induction false} SafeAt(s: string, i: nat)
    requires i <= |s| && SafeFrom(s, false, false)
    ensures SafeFrom(s[i..], ScanAt(s, i).0, ScanAt(s, i).1)
  {
    if i == 0 {
      assert s[0..] == s;
    } else {
      SafeAt(s, i - 1);
      assert s[i - 1..][1..] == s[i..];
    }
  }

  /** The scan accepts the rest of a pattern in which it finds nothing structural and ends outside. */
  lemma {:induction false} SafeFromAt(s: string, i: nat)
    requires i <= |s| && ScanAt(s, |s|) == (false, false)
    requires forall k | i <= k < |s| && Structural(s[k]) :: ScanAt(s, k).0 || ScanAt(s, k).1
    ensures SafeFrom(s[i..], ScanAt(s, i).0, ScanAt(s, i).1)
    decreases |s| - i
  {
    if i < |s| {
      SafeFromAt(s, i + 1);
      assert s[i..][1..] == s[i + 1..];
    }
  }

  /**
   * No pattern that the scan accepts has a group or an alternation, as Python reads it; and where no
   * class begins with `]`, the scan refuses nothing but those and patterns that Python finds unfinished.
   */
  lemma {:induction false} SafeIsGroupless(pattern: string)
    ensures SafeFrom(pattern, false, false) ==> Groupless(pattern)
    ensures !LeadingBracket(pattern) ==>
              (SafeFrom(pattern, false, false) <==>
               Groupless(pattern) && ModeAt(pattern, |pattern|) == Mode(Outside, false))
  {
    forall i | 0 <= i <= |pattern|
      ensures var (scan, mode) := (ScanAt(pattern, i), ModeAt(pattern, i));
              && scan.1 == mode.escaped && (scan.0 ==> !mode.place.Outside?)
              && (!LeadingBracket(pattern) ==> (scan.0 <==> !mode.place.Outside?))
    {
      ScanFollows(pattern, i);
    }
    assert pattern[0..] == pattern;
    if SafeFrom(pattern, false, false) {
      forall i | 0 <= i <= |pattern| ensures SafeFrom(pattern[i..], ScanAt(pattern, i).0, ScanAt(pattern, i).1) {
        SafeAt(pattern, i);
      }
      assert pattern[|pattern|..] == "";
    } else if !LeadingBracket(pattern) && Groupless(pattern) && ModeAt(pattern, |pattern|) == Mode(Outside, false) {
      SafeFromAt(pattern, 0);
    }
  }

  /** A class that begins with `]` can make the scan refuse a pattern without any group. */
  lemma LeadingBracketRefused()
    ensures Groupless("[](]") && !SafeFrom("[](]", false, false)
  {
    var s := "[](]";
    assert ModeAt(s, 1) == Mode(Opened(false), false);
    assert ModeAt(s, 2) == Mode(Inside, false);
    assert s[1..] == "](]" && s[1..][1..] == "(]";
  }
}
