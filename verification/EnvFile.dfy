/**
 * The environment file of an app (`adapters/rundir.py`), read back by the rules that systemd.exec(5)
 * documents for `EnvironmentFile=`: whatever the values, the app gets exactly them.
 */
module EnvFile {
  import opened Prelude
  import M = Manifest

  // ----- Writing -----

  /** `s.replace(c, with)` for a single character. */
  function Replace(s: string, c: char, with: string): string {
    if s == "" then "" else (if s[0] == c then with else [s[0]]) + Replace(s[1..], c, with)
  }

  /** What stands between the quotes. */
  function Inner(value: string): string {
    Replace(Replace(value, '\\', "\\\\"), '"', "\\\"")
  }

  function Quote(value: string): string {
    "\"" + Inner(value) + "\""
  }

  type Binding = (string, string)

  /** The text of the env file, in the order of the mapping. */
  function EnvText(env: seq<Binding>): string {
    if env == [] then ""
    else EnvText(env[..|env| - 1]) + env[|env| - 1].0 + "=" + Quote(env[|env| - 1].1) + "\n"
  }

  // ----- Reading -----

  datatype State =
    | PreKey | Key | PreValue | Value | ValueEscape | SingleQuote | DoubleQuote | DoubleQuoteEscape
    | Comment | CommentEscape

  /** Where trailing white space of the key or of an unquoted value began, if it has begun. */
  datatype Reader = Reader(
    state: State, key: string, keyCut: Option<nat>, value: string, valueCut: Option<nat>, read: seq<Binding>)

  const Start := Reader(PreKey, "", None, "", None, [])

  predicate IsNewline(c: char) { c == '\n' || c == '\r' }
  predicate IsSpace(c: char) { c == ' ' || c == '\t' || IsNewline(c) }
  predicate NeedsEscape(c: char) { c == '"' || c == '\\' || c == '`' || c == '$' }

  function Cut(s: string, at: Option<nat>): string {
    if at.Some? && at.value <= |s| then s[..at.value] else s
  }

  function CutAfter(at: Option<nat>, s: string, c: char): Option<nat> {
    if !IsSpace(c) then None else if at.None? then Some(|s|) else at
  }

  /** The end of an assignment. */
  function Push(r: Reader, valueCut: Option<nat>): Reader {
    Reader(PreKey, "", None, "", None, r.read + [(Cut(r.key, r.keyCut), Cut(r.value, valueCut))])
  }

  function StepKey(r: Reader, c: char): Reader
    requires r.state.PreKey? || r.state.Key?
  {
    if r.state.PreKey? then
      if c == '#' || c == ';' then r.(state := Comment)
      else if IsSpace(c) then r
      else r.(state := Key, keyCut := None, key := r.key + [c])
    else
      if IsNewline(c) then r.(state := PreKey, key := "")
      else if c == '=' then r.(state := PreValue, valueCut := None)
      else r.(keyCut := CutAfter(r.keyCut, r.key, c), key := r.key + [c])
  }

  function StepValue(r: Reader, c: char): Reader
    requires r.state.PreValue? || r.state.Value? || r.state.ValueEscape?
  {
    match r.state
    case PreValue =>
      if IsNewline(c) then Push(r, None)
      else if c == '\'' then r.(state := SingleQuote)
      else if c == '"' then r.(state := DoubleQuote)
      else if c == '\\' then r.(state := ValueEscape)
      else if IsSpace(c) then r
      else r.(state := Value, value := r.value + [c])
    case Value =>
      if IsNewline(c) then Push(r, r.valueCut)
      else if c == '\\' then r.(state := ValueEscape, valueCut := None)
      else r.(valueCut := CutAfter(r.valueCut, r.value, c), value := r.value + [c])
    case ValueEscape => if IsNewline(c) then r.(state := Value) else r.(state := Value, value := r.value + [c])
  }

  function StepQuoted(r: Reader, c: char): Reader
    requires r.state.SingleQuote? || r.state.DoubleQuote? || r.state.DoubleQuoteEscape?
  {
    match r.state
    case SingleQuote => if c == '\'' then r.(state := PreValue) else r.(value := r.value + [c])
    case DoubleQuote =>
      if c == '"' then r.(state := PreValue)
      else if c == '\\' then r.(state := DoubleQuoteEscape)
      else r.(value := r.value + [c])
    // A backslash is dropped before a character that needs it, and with a newline; else it stands for itself.
    case DoubleQuoteEscape =>
      if NeedsEscape(c) then r.(state := DoubleQuote, value := r.value + [c])
      else if c == '\n' then r.(state := DoubleQuote)
      else r.(state := DoubleQuote, value := r.value + ['\\', c])
  }

  function Step(r: Reader, c: char): Reader {
    match r.state
    case Comment => if c == '\\' then r.(state := CommentEscape) else if IsNewline(c) then r.(state := PreKey) else r
    case CommentEscape => r.(state := Comment)
    case PreKey => StepKey(r, c)
    case Key => StepKey(r, c)
    case SingleQuote => StepQuoted(r, c)
    case DoubleQuote => StepQuoted(r, c)
    case DoubleQuoteEscape => StepQuoted(r, c)
    case _ => StepValue(r, c)
  }

  function Feed(r: Reader, text: string): Reader
    decreases |text|
  {
    if text == "" then r else Feed(Step(r, text[0]), text[1..])
  }

  /** The assignments of a file; one that the file ends in the middle of counts too. */
  function Parse(text: string): seq<Binding> {
    var r := Feed(Start, text);
    match r.state
    case PreKey => r.read
    case Key => r.read
    case Comment => r.read
    case CommentEscape => r.read
    case Value => Push(r, r.valueCut).read
    case _ => Push(r, None).read
  }

  // ----- Round trip -----

  lemma {:induction false} FeedAppend(r: Reader, a: string, b: string)
    ensures Feed(r, a + b) == Feed(Feed(r, a), b)
    decreases |a|
  {
    if a == "" {
      assert a + b == b;
    } else {
      assert (a + b)[1..] == a[1..] + b;
      FeedAppend(Step(r, a[0]), a[1..], b);
    }
  }

  lemma FeedInTwo(r: Reader, a: string, b: string, whole: string, mid: Reader, end: Reader)
    requires whole == a + b && Feed(r, a) == mid && Feed(mid, b) == end
    ensures Feed(r, whole) == end
  {
    FeedAppend(r, a, b);
  }

  /** What a character of the value becomes. */
  function Escaped(c: char): string {
    if c == '\\' then "\\\\" else if c == '"' then "\\\"" else [c]
  }

  lemma {:induction false} ReplaceAppend(a: string, b: string, c: char, with: string)
    ensures Replace(a + b, c, with) == Replace(a, c, with) + Replace(b, c, with)
  {
    if a == "" {
      assert a + b == b;
    } else {
      assert (a + b)[1..] == a[1..] + b;
      ReplaceAppend(a[1..], b, c, with);
    }
  }

  /** The two replacements together escape each character on its own. */
  lemma QuoteHead(value: string)
    requires value != ""
    ensures Inner(value) == Escaped(value[0]) + Inner(value[1..])
  {
    var head := if value[0] == '\\' then "\\\\" else [value[0]];
    ReplaceAppend(head, Replace(value[1..], '\\', "\\\\"), '"', "\\\"");
    assert head[1..] == if value[0] == '\\' then "\\" else "";
    assert Replace(head, '"', "\\\"") == Escaped(value[0]) by {
      if value[0] == '\\' {
        assert "\\"[1..] == "";
      }
    }
  }

  /** Inside double quotes, the escape of a character is read back as that character. */
  lemma EscapedReadsBack(r: Reader, c: char)
    requires r.state.DoubleQuote?
    ensures Feed(r, Escaped(c)) == r.(value := r.value + [c])
  {
    var e := Escaped(c);
    if |e| == 2 {
      assert e[1..] == [e[1]] && [e[1]][1..] == "";
      assert Feed(r, e) == Feed(Step(r, e[0]), e[1..]);
      assert Feed(Step(r, e[0]), [e[1]]) == Step(Step(r, e[0]), e[1]);
    } else {
      assert e[1..] == "";
    }
  }

  lemma {:induction false} ValueReadsBack(r: Reader, value: string)
    requires r.state.DoubleQuote?
    ensures Feed(r, Inner(value)) == r.(value := r.value + value)
    decreases |value|
  {
    if value == "" {
      assert r.value + value == r.value;
    } else {
      var mid := r.(value := r.value + [value[0]]);
      var end := r.(value := r.value + value);
      assert mid.value + value[1..] == end.value;
      QuoteHead(value);
      EscapedReadsBack(r, value[0]);
      ValueReadsBack(mid, value[1..]);
      FeedInTwo(r, Escaped(value[0]), Inner(value[1..]), Inner(value), mid, end);
    }
  }

  /** A character of an env name after the first one. */
  predicate NameChar(c: char) {
    M.Upper(c) || M.Digit(c) || c == '_'
  }

  lemma {:induction false} NameReadsBack(r: Reader, name: string)
    requires r.state.Key? && r.keyCut.None? && forall i | 0 <= i < |name| :: NameChar(name[i])
    ensures Feed(r, name) == r.(key := r.key + name)
    decreases |name|
  {
    if name == "" {
      assert r.key + name == r.key;
    } else {
      NameReadsBack(Step(r, name[0]), name[1..]);
      assert r.key + [name[0]] + name[1..] == r.key + name;
    }
  }

  lemma KeyReadsBack(read: seq<Binding>, name: string)
    requires M.EnvNameOk(name)
    ensures Feed(Start.(read := read), name) == Start.(read := read, state := Key, key := name)
  {
    var r := Start.(read := read);
    NameReadsBack(Step(r, name[0]), name[1..]);
    assert [name[0]] + name[1..] == name;
  }

  lemma FeedOne(r: Reader, c: char)
    ensures Feed(r, [c]) == Step(r, c)
  {
    assert [c][1..] == "";
  }

  lemma {:induction false} QuotedReadsBack(r: Reader, value: string)
    requires r.state.PreValue? && r.value == ""
    ensures Feed(r, Quote(value)) == r.(value := value)
  {
    var inner := Inner(value);
    assert Quote(value) == "\"" + inner + "\"";
    FeedAppend(r, "\"" + inner, "\"");
    FeedAppend(r, "\"", inner);
    FeedOne(r, '"');
    ValueReadsBack(r.(state := DoubleQuote), value);
    assert "" + value == value;
    FeedOne(r.(state := DoubleQuote, value := value), '"');
  }

  lemma {:induction false} LineReadsBack(read: seq<Binding>, name: string, value: string)
    requires M.EnvNameOk(name)
    ensures Feed(Start.(read := read), name + "=" + Quote(value) + "\n") == Start.(read := read + [(name, value)])
  {
    var r := Start.(read := read);
    FeedAppend(r, name + "=" + Quote(value), "\n");
    FeedAppend(r, name + "=", Quote(value));
    FeedAppend(r, name, "=");
    KeyReadsBack(read, name);
    FeedOne(r.(state := Key, key := name), '=');
    QuotedReadsBack(r.(state := PreValue, key := name), value);
    FeedOne(r.(state := PreValue, key := name, value := value), '\n');
  }

  lemma {:induction false} TextReadsBack(env: seq<Binding>)
    requires forall i | 0 <= i < |env| :: M.EnvNameOk(env[i].0)
    ensures Feed(Start, EnvText(env)) == Start.(read := env)
  {
    if env != [] {
      var before, b := env[..|env| - 1], env[|env| - 1];
      TextReadsBack(before);
      assert EnvText(env) == EnvText(before) + (b.0 + "=" + Quote(b.1) + "\n");
      FeedAppend(Start, EnvText(before), b.0 + "=" + Quote(b.1) + "\n");
      LineReadsBack(before, b.0, b.1);
      assert before + [b] == env;
    }
  }

  /**
   * Round trip. For any valid names and any values at all, with quotes, backslashes, dollar signs,
   * white space at the edges and even newlines, the file is read back as exactly the mapping written.
   */
  lemma {:induction false} EnvRoundTrip(env: seq<Binding>)
    requires forall i | 0 <= i < |env| :: M.EnvNameOk(env[i].0)
    ensures Parse(EnvText(env)) == env
  {
    TextReadsBack(env);
  }
}
