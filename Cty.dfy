/** Values of the configuration language, as the formatters see them, and their
    literal rendering (the part of `hclwrite.TokensForValue` the formatters rely on). */
module Cty {

  /** A typed value: the variants the formatters distinguish. Numbers are
      integers here; a map is kept as its entries in key order. */
  datatype Value =
    | Null
    | Str(s: string)
    | Num(n: int)
    | Bool(b: bool)
    | List(items: seq<Value>)
    | Map(entries: seq<Entry>)

  datatype Entry = Entry(key: string, value: Value)

  /** A string literal: the text between double quotes (escaping is not modelled). */
  function Quote(s: string): (r: string)
    ensures |r| == |s| + 2 && r[0] == '"' && r[|r| - 1] == '"' && r[1..|r| - 1] == s
  {
    "\"" + s + "\""
  }

  function DigitChar(d: nat): (c: char)
    requires d < 10
    ensures '0' <= c <= '9'
  {
    "0123456789"[d]
  }

  /** Decimal digits of a natural number, most significant first. */
  function NatToString(n: nat): (r: string)
    ensures |r| > 0
    ensures forall i :: 0 <= i < |r| ==> '0' <= r[i] <= '9'
  {
    if n < 10 then [DigitChar(n)] else NatToString(n / 10) + [DigitChar(n % 10)]
  }

  function IntToString(n: int): (r: string)
    ensures |r| > 0 && r[0] != '"' && r[|r| - 1] != '"'
  {
    if n < 0 then "-" + NatToString(-n) else NatToString(n)
  }

  /** The literal text `TokensForValue(v).Bytes()` stands for: strings quoted,
      lists as `[a, b]`, maps as one `key = value` line per entry in braces. */
  function Render(v: Value): (r: string)
    decreases v, 1
  {
    match v
    case Null => "null"
    case Str(s) => Quote(s)
    case Num(n) => IntToString(n)
    case Bool(b) => if b then "true" else "false"
    case List(items) => "[" + RenderItems(items) + "]"
    case Map(entries) => "{" + (if entries == [] then "" else "\n" + RenderEntries(entries)) + "}"
  }

  function RenderItems(items: seq<Value>): (r: string)
    decreases items, 0
  {
    if items == [] then ""
    else if |items| == 1 then Render(items[0])
    else Render(items[0]) + ", " + RenderItems(items[1..])
  }

  function RenderEntries(entries: seq<Entry>): (r: string)
    decreases entries, 0
  {
    if entries == [] then ""
    else "  " + entries[0].key + " = " + Render(entries[0].value) + "\n" + RenderEntries(entries[1..])
  }

  /** `TokensForValue(v).Bytes()`, as a call. */
  method TokensForValueBytes(v: Value) returns (b: string)
    ensures b == Render(v)
  {
    b := Render(v);
  }

  /** Only a string renders with a leading or a trailing double quote. */
  lemma RenderQuotesOnlyStrings(v: Value)
    requires !v.Str?
    ensures var r := Render(v); |r| > 0 && r[0] != '"' && r[|r| - 1] != '"'
  {
  }

  /** A list of strings renders as a bracketed, comma-separated list of quoted strings. */
  lemma {:induction false} RenderStringList(ss: seq<string>)
    ensures Render(List(seq(|ss|, i requires 0 <= i < |ss| => Str(ss[i]))))
         == "[" + JoinQuoted(ss) + "]"
  {
    StringItems(ss);
  }

  lemma {:induction false} StringItems(ss: seq<string>)
    ensures RenderItems(seq(|ss|, i requires 0 <= i < |ss| => Str(ss[i]))) == JoinQuoted(ss)
  {
    var items := seq(|ss|, i requires 0 <= i < |ss| => Str(ss[i]));
    if |ss| > 1 {
      assert items[1..] == seq(|ss[1..]|, i requires 0 <= i < |ss[1..]| => Str(ss[1..][i]));
      StringItems(ss[1..]);
    }
  }

  function JoinQuoted(ss: seq<string>): string
  {
    if ss == [] then ""
    else if |ss| == 1 then Quote(ss[0])
    else Quote(ss[0]) + ", " + JoinQuoted(ss[1..])
  }
}
