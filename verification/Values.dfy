/** Parsed TOML and JSON values, as the manifest validator and the ledger see them. */
module Values {

  /** A float as TOML and Python's JSON can deliver it. */
  datatype Float = Finite(value: real) | PosInf | NegInf | NaN

  datatype Raw =
    | Null
    | Bool(b: bool)
    | Int(i: int)
    | Flt(f: Float)
    | Str(s: string)
    | List(items: seq<Raw>)
    | Table(entries: map<string, Raw>)

  /** A table's value for a key, or null when it has none. */
  function Field(t: map<string, Raw>, key: string): Raw {
    if key in t then t[key] else Null
  }

  predicate IsStrings(r: Raw) {
    r.List? && forall i | 0 <= i < |r.items| :: r.items[i].Str?
  }

  function Strings(r: Raw): (ss: seq<string>)
    requires IsStrings(r)
    ensures |ss| == |r.items| && forall i | 0 <= i < |ss| :: ss[i] == r.items[i].s
  {
    seq(|r.items|, i requires 0 <= i < |r.items| => r.items[i].s)
  }

  function FromStrings(ss: seq<string>): (r: Raw)
    ensures IsStrings(r) && Strings(r) == ss
  {
    List(seq(|ss|, i requires 0 <= i < |ss| => Str(ss[i])))
  }
}
