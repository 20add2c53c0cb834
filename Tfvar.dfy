/** The two output formatters of the tfvar package: environment-variable export
    lines, and a variable-definitions document built item by item. */
module Tfvar {
  import opened Wrappers
  import opened Cty
  import opened Stream
  import opened Hclwrite

  /** How an override of the variable is to be parsed; carried along, never used here. */
  datatype ParsingMode = ParseLiteral | ParseHCL

  /** A declared input variable. A variable without a default has value Null. */
  datatype Variable = Variable(
    name: string,
    value: Value,
    description: string,
    descriptionSet: bool,
    parsingMode: ParsingMode)

  const VarEnvPrefix: string := "TF_VAR_"

  /** A failed write, wrapped with the formatter it came from. */
  datatype Error =
    | EnvWriteError(cause: IoError)
    | TFVarsWriteError(cause: IoError)

  function Min(a: nat, b: nat): nat
  {
    if a <= b then a else b
  }

  /** The environment formatter renders a missing default as the empty string. */
  function ConvertNull(v: Value): (r: Value)
    ensures !r.Null?
    ensures v.Null? ==> r == Str("")
    ensures !v.Null? ==> r == v
  {
    if v.Null? then Str("") else v
  }

  // ---------------------------------------------------------------------------
  // Environment-variable format

  /** bytes.TrimPrefix with a one-quote prefix. */
  function TrimPrefixQuote(b: string): (r: string)
    ensures if |b| > 0 && b[0] == '"' then b == "\"" + r else r == b
  {
    if |b| > 0 && b[0] == '"' then b[1..] else b
  }

  /** bytes.TrimSuffix with a one-quote suffix. */
  function TrimSuffixQuote(b: string): (r: string)
    ensures if |b| > 0 && b[|b| - 1] == '"' then b == r + "\"" else r == b
  {
    if |b| > 0 && b[|b| - 1] == '"' then b[..|b| - 1] else b
  }

  function TrimQuotes(b: string): string
  {
    TrimSuffixQuote(TrimPrefixQuote(b))
  }

  /** Trimming drops the first and the last character exactly when it is a double
      quote, and keeps everything between them, quotes included. */
  lemma TrimQuotesSpec(b: string)
    ensures |b| >= 2 ==>
      TrimQuotes(b) == (if b[0] == '"' then "" else [b[0]]) + b[1..|b| - 1]
                     + (if b[|b| - 1] == '"' then "" else [b[|b| - 1]])
    ensures |b| == 1 ==> TrimQuotes(b) == (if b[0] == '"' then "" else b)
    ensures |b| == 0 ==> TrimQuotes(b) == ""
  {
    if |b| >= 2 {
      var p := TrimPrefixQuote(b);
      assert p == if b[0] == '"' then b[1..] else b;
      assert p[|p| - 1] == b[|b| - 1];
      if b[0] == '"' {
        assert b == "\"" + b[1..|b| - 1] + [b[|b| - 1]];
      } else {
        assert b == [b[0]] + b[1..|b| - 1] + [b[|b| - 1]];
      }
    }
  }

  /** A quoted literal loses exactly its enclosing quotes. */
  lemma TrimQuotesOfLiteral(t: string)
    ensures TrimQuotes(Quote(t)) == t
  {
    var q := Quote(t);
    TrimQuotesSpec(q);
    assert q[1..|q| - 1] == t;
  }

  /** Text that neither starts nor ends with a double quote is left as it is. */
  lemma TrimQuotesUnquoted(b: string)
    requires |b| == 0 || (b[0] != '"' && b[|b| - 1] != '"')
    ensures TrimQuotes(b) == b
  {
    TrimQuotesSpec(b);
    if |b| >= 2 {
      assert b == [b[0]] + b[1..|b| - 1] + [b[|b| - 1]];
    }
  }

  /** The text between the single quotes of an export line. */
  function EnvValue(v: Variable): string
  {
    TrimQuotes(Render(ConvertNull(v.value)))
  }

  /** What the single quotes hold: nothing for a missing default, the bare text
      for a string, and the literal unchanged for every other value. */
  lemma EnvValueSpec(v: Variable)
    ensures v.value.Null? ==> EnvValue(v) == ""
    ensures v.value.Str? ==> EnvValue(v) == v.value.s
    ensures !v.value.Null? && !v.value.Str? ==> EnvValue(v) == Render(v.value)
  {
    if v.value.Null? {
      TrimQuotesOfLiteral("");
    } else if v.value.Str? {
      TrimQuotesOfLiteral(v.value.s);
    } else {
      RenderQuotesOnlyStrings(v.value);
      TrimQuotesUnquoted(Render(v.value));
    }
  }

  function ExportLine(name: string, value: string): string
  {
    "export " + VarEnvPrefix + name + "='" + value + "'\n"
  }

  function DescriptionLine(v: Variable): string
  {
    "# " + v.description + "\n"
  }

  /** The one write made for a variable. */
  function EnvLine(v: Variable, enableDescriptions: bool): string
  {
    if enableDescriptions then DescriptionLine(v) + ExportLine(v.name, EnvValue(v))
    else ExportLine(v.name, EnvValue(v))
  }

  function EnvLines(vars: seq<Variable>, enableDescriptions: bool): seq<string>
  {
    seq(|vars|, i requires 0 <= i < |vars| => EnvLine(vars[i], enableDescriptions))
  }

  function HeaderWrites(header: string): seq<string>
  {
    if header == "" then [] else [header + "\n\n"]
  }

  /** Every write WriteAsEnvVars makes when no write fails, in order. */
  function EnvWrites(vars: seq<Variable>, header: string, enableDescriptions: bool): seq<string>
  {
    HeaderWrites(header) + EnvLines(vars, enableDescriptions)
  }

  /** The header, when there is one, is the first write; then each variable
      gives exactly one write, in input order. */
  lemma EnvWritesShape(vars: seq<Variable>, header: string, d: bool)
    ensures header != "" ==>
      |EnvWrites(vars, header, d)| == |vars| + 1 && EnvWrites(vars, header, d)[0] == header + "\n\n"
    ensures header == "" ==> |EnvWrites(vars, header, d)| == |vars|
    ensures forall i :: 0 <= i < |vars| ==>
      EnvWrites(vars, header, d)[|HeaderWrites(header)| + i] == EnvLine(vars[i], d)
  {
    PlannedWrites(vars, header, d);
    forall i | 0 <= i < |vars|
      ensures EnvWrites(vars, header, d)[|HeaderWrites(header)| + i] == EnvLine(vars[i], d)
    {
      PlannedLine(vars, header, d, i, EnvLine(vars[i], d));
    }
  }

  /** Turning descriptions on only puts a `# <description>` line before each
      export line, set or not; the export line itself does not change. */
  lemma DescriptionsOnlyAddComments(v: Variable)
    ensures EnvLine(v, true) == "# " + v.description + "\n" + EnvLine(v, false)
  {
  }

  function IndexOf(s: string, c: char): (r: Option<nat>)
    ensures r.None? ==> forall i :: 0 <= i < |s| ==> s[i] != c
    ensures r.Some? ==>
      r.value < |s| && s[r.value] == c && forall i :: 0 <= i < r.value ==> s[i] != c
  {
    if s == [] then None
    else if s[0] == c then Some(0)
    else match IndexOf(s[1..], c)
      case None => None
      case Some(k) => Some(k + 1)
  }

  /** Every export line opens with `export TF_VAR_` followed by the name. */
  lemma ExportLineHead(name: string, value: string)
    ensures |ExportLine(name, value)| == 14 + |name| + |value| + 4
    ensures ExportLine(name, value)[..14] == "export TF_VAR_"
    ensures ExportLine(name, value)[14..14 + |name|] == name
  {
    var line := ExportLine(name, value);
    assert line == ("export " + VarEnvPrefix) + name + ("='" + value + "'\n");
  }

  /** Takes an export line apart: the name is what lies between the prefix and
      the first `=`, the value what lies between the `='` after it and the final
      `'`. Single quotes inside the value are taken as part of it, which a shell
      would not do (see QuotesInExportLine). */
  function ParseExport(line: string): Option<(string, string)>
  {
    var head := "export " + VarEnvPrefix;
    if |line| < |head| + 2 || line[..|head|] != head || line[|line| - 2..] != "'\n" then None
    else
      var body := line[|head|..|line| - 2];
      match IndexOf(body, '=')
      case None => None
      case Some(k) =>
        if k + 1 < |body| && body[k + 1] == '\'' then Some((body[..k], body[k + 2..])) else None
  }

  /** An export line gives back its name and value, whenever the name has no `=`
      (true of every identifier). */
  lemma ExportLineRoundTrip(name: string, value: string)
    requires forall i :: 0 <= i < |name| ==> name[i] != '='
    ensures ParseExport(ExportLine(name, value)) == Some((name, value))
  {
    var head := "export " + VarEnvPrefix;
    var body := name + "='" + value;
    var line := ExportLine(name, value);
    assert line == head + body + "'\n";
    assert line[..|head|] == head;
    assert line[|line| - 2..] == "'\n";
    assert line[|head|..|line| - 2] == body;
    assert body[|name|] == '=';
    assert forall i :: 0 <= i < |name| ==> body[i] != '=' by {
      forall i | 0 <= i < |name| ensures body[i] != '=' {
        assert body[i] == name[i];
      }
    }
    match IndexOf(body, '=')
    case None =>
      assert false;
    case Some(k) =>
      assert k == |name|;
      assert body[..k] == name;
      assert body[k + 2..] == value;
  }

  /** The value is written between single quotes without escaping, so the line
      holds two single quotes more than its name and value do. A value with one
      `'` inside (`it's`) gives a line with an odd number of them, which a shell
      reads as an unterminated quotation. */
  lemma QuotesInExportLine(name: string, value: string)
    ensures Count(ExportLine(name, value), '\'') == Count(name, '\'') + Count(value, '\'') + 2
  {
    var head := "export " + VarEnvPrefix;
    CountAbsent(head, '\'');
    assert Count("='", '\'') == 1 by {
      assert "='"[1..] == "'";
      assert "'"[1..] == "";
    }
    assert Count("'\n", '\'') == 1 by {
      assert "'\n"[1..] == "\n";
      assert "\n"[1..] == "";
    }
    assert ExportLine(name, value) == head + (name + ("='" + (value + "'\n")));
    CountAppend(value, "'\n", '\'');
    CountAppend("='", value + "'\n", '\'');
    CountAppend(name, "='" + (value + "'\n"), '\'');
    CountAppend(head, name + ("='" + (value + "'\n")), '\'');
  }

  function Count(s: string, c: char): nat
  {
    if s == [] then 0 else (if s[0] == c then 1 else 0) + Count(s[1..], c)
  }

  lemma {:induction false} CountAppend(a: string, b: string, c: char)
    ensures Count(a + b, c) == Count(a, c) + Count(b, c)
  {
    if a == [] {
      assert a + b == b;
    } else {
      assert (a + b)[1..] == a[1..] + b;
      CountAppend(a[1..], b, c);
    }
  }

  lemma {:induction false} CountAbsent(s: string, c: char)
    requires forall i :: 0 <= i < |s| ==> s[i] != c
    ensures Count(s, c) == 0
  {
    if s != [] {
      CountAbsent(s[1..], c);
    }
  }

  predicate SingleLine(s: string)
  {
    forall i :: 0 <= i < |s| ==> s[i] != '\n'
  }

  lemma ExportLineCount(name: string, value: string)
    requires SingleLine(name) && SingleLine(value)
    ensures Count(ExportLine(name, value), '\n') == 1
  {
    var head := "export " + VarEnvPrefix;
    var a := head + name;
    var b := a + "='";
    var c := b + value;
    assert ExportLine(name, value) == c + "'\n";
    CountAbsent(head, '\n');
    CountAbsent(name, '\n');
    CountAppend(head, name, '\n');
    CountAbsent("='", '\n');
    CountAppend(a, "='", '\n');
    CountAbsent(value, '\n');
    CountAppend(b, value, '\n');
    CountAppend(c, "'\n", '\n');
    assert Count("'\n", '\n') == 1 by {
      assert "'\n"[1..] == "\n";
      assert "\n"[1..] == "";
    }
  }

  lemma DescriptionLineCount(v: Variable)
    requires SingleLine(v.description)
    ensures Count(DescriptionLine(v), '\n') == 1
  {
    var a := "# " + v.description;
    assert DescriptionLine(v) == a + "\n";
    CountAbsent("# ", '\n');
    CountAbsent(v.description, '\n');
    CountAppend("# ", v.description, '\n');
    CountAppend(a, "\n", '\n');
    assert Count("\n", '\n') == 1 by {
      assert "\n"[1..] == "";
    }
  }

  /** Each variable takes exactly one line of output, two with descriptions on,
      as long as its name, value and description hold no line break. */
  lemma EnvLineCount(v: Variable, d: bool)
    requires SingleLine(v.name) && SingleLine(EnvValue(v)) && (d ==> SingleLine(v.description))
    ensures Count(EnvLine(v, d), '\n') == if d then 2 else 1
  {
    ExportLineCount(v.name, EnvValue(v));
    if d {
      DescriptionLineCount(v);
      CountAppend(DescriptionLine(v), ExportLine(v.name, EnvValue(v)), '\n');
    } else {
      assert EnvLine(v, d) == ExportLine(v.name, EnvValue(v));
    }
  }

  /** The whole variable output has one line per variable (two with descriptions). */
  lemma EnvLinesCount(vars: seq<Variable>, d: bool)
    requires forall v :: v in vars ==>
      SingleLine(v.name) && SingleLine(EnvValue(v)) && (d ==> SingleLine(v.description))
    ensures Count(Concat(EnvLines(vars, d)), '\n') == |vars| * (if d then 2 else 1)
  {
    var lines := EnvLines(vars, d);
    forall i | 0 <= i < |lines| ensures Count(lines[i], '\n') == if d then 2 else 1 {
      assert vars[i] in vars;
      EnvLineCount(vars[i], d);
    }
    CountConcat(lines, if d then 2 else 1);
  }

  lemma {:induction false} CountConcat(chunks: seq<string>, n: nat)
    requires forall i :: 0 <= i < |chunks| ==> Count(chunks[i], '\n') == n
    ensures Count(Concat(chunks), '\n') == |chunks| * n
  {
    if chunks != [] {
      var rest := chunks[1..];
      forall i | 0 <= i < |rest| ensures Count(rest[i], '\n') == n {
        assert rest[i] == chunks[i + 1];
      }
      CountAppend(chunks[0], Concat(rest), '\n');
      CountConcat(rest, n);
      assert Count(chunks[0], '\n') == n;
      MulSucc(|rest|, n);
    }
  }

  lemma MulSucc(k: nat, n: nat)
    ensures (k + 1) * n == n + k * n
  {
  }

  /** The value as the export line shows it: null made an empty string,
      rendered, then stripped of one leading and one trailing quote. */
  method EnvRender(v: Variable) returns (b: string)
    ensures b == EnvValue(v)
  {
    var val := ConvertNull(v.value);
    b := TokensForValueBytes(val);
    b := TrimPrefixQuote(b);
    b := TrimSuffixQuote(b);
  }

  /** One guarded write: once an error is recorded nothing more is written;
      otherwise the write is made and its failure, wrapped, becomes the error. */
  method WriteUnlessFailed(w: Writer, we: Option<Error>, s: string) returns (we': Option<Error>)
    modifies w
    ensures we.Some? ==> we' == we && unchanged(w)
    ensures we.None? ==> w.attempts == old(w.attempts) + 1
    ensures we.None? && old(w.budget) > 0 ==>
      we' == None && w.written == old(w.written) + [s] && w.budget == old(w.budget) - 1
    ensures we.None? && old(w.budget) == 0 ==>
      we' == Some(EnvWriteError(IoError(old(w.attempts)))) && w.written == old(w.written) && w.budget == 0
  {
    we' := we;
    if we.None? {
      var e := w.Write(s);
      if e.Some? {
        we' := Some(EnvWriteError(e.value));
      }
    }
  }

  /** The line written for one variable, built as the loop body builds it. */
  method EnvLineFor(v: Variable, enableDescriptions: bool) returns (line: string)
    ensures line == EnvLine(v, enableDescriptions)
  {
    var b := EnvRender(v);
    // the two format strings "# %s\nexport %s%s='%s'\n" and "export %s%s='%s'\n"
    if enableDescriptions {
      line := DescriptionLine(v) + ExportLine(v.name, b);
    } else {
      line := ExportLine(v.name, b);
    }
  }

  /** Where the header and each variable's line sit among the planned writes. */
  lemma PlannedWrites(vars: seq<Variable>, header: string, d: bool)
    ensures |EnvWrites(vars, header, d)| == |HeaderWrites(header)| + |vars|
    ensures header != "" ==> EnvWrites(vars, header, d)[0] == header + "\n\n"
  {
  }

  lemma PlannedLine(vars: seq<Variable>, header: string, d: bool, i: nat, line: string)
    requires i < |vars| && line == EnvLine(vars[i], d)
    ensures EnvWrites(vars, header, d)[|HeaderWrites(header)| + i] == line
  {
  }

  /** The stream and the sticky error after the first k of the planned writes
      have been tried, starting from stream contents w0, budget b0 and a0 attempts. */
  ghost predicate StickyAfter(written: seq<string>, attempts: nat, budget: nat, we: Option<Error>,
                              w0: seq<string>, b0: nat, a0: nat, writes: seq<string>, k: nat)
  {
    && k <= |writes|
    && (we.None? <==> b0 >= k)
    && (we.None? ==> written == w0 + writes[..k] && attempts == a0 + k && budget == b0 - k)
    && (we.Some? ==> written == w0 + writes[..b0] && attempts == a0 + b0 + 1 && budget == 0
                     && we.value == EnvWriteError(IoError(a0 + b0)))
  }

  /** One guarded write of the next planned chunk keeps StickyAfter. */
  lemma StickyStep(written: seq<string>, attempts: nat, budget: nat, we: Option<Error>,
                   written': seq<string>, attempts': nat, budget': nat, we': Option<Error>,
                   w0: seq<string>, b0: nat, a0: nat, writes: seq<string>, k: nat)
    requires StickyAfter(written, attempts, budget, we, w0, b0, a0, writes, k)
    requires k < |writes|
    requires we.Some? ==> we' == we && written' == written && attempts' == attempts && budget' == budget
    requires we.None? ==> attempts' == attempts + 1
    requires we.None? && budget > 0 ==> we' == None && written' == written + [writes[k]] && budget' == budget - 1
    requires we.None? && budget == 0 ==>
      we' == Some(EnvWriteError(IoError(attempts))) && written' == written && budget' == 0
    ensures StickyAfter(written', attempts', budget', we', w0, b0, a0, writes, k + 1)
  {
    TakeOneMore(writes, k);
  }

  /** The guarded write of the k-th planned write, as StickyAfter sees it. */
  method WritePlanned(w: Writer, we: Option<Error>, s: string,
                      ghost w0: seq<string>, ghost b0: nat, ghost a0: nat, ghost writes: seq<string>, ghost k: nat)
    returns (we': Option<Error>)
    requires StickyAfter(w.written, w.attempts, w.budget, we, w0, b0, a0, writes, k)
    requires k < |writes| && s == writes[k]
    modifies w
    ensures StickyAfter(w.written, w.attempts, w.budget, we', w0, b0, a0, writes, k + 1)
  {
    ghost var s0, t0, u0 := w.written, w.attempts, w.budget;
    we' := WriteUnlessFailed(w, we, s);
    StickyStep(s0, t0, u0, we, w.written, w.attempts, w.budget, we', w0, b0, a0, writes, k);
  }

  /** Once every planned write has been tried, StickyAfter is the writer's contract. */
  lemma StickyDone(written: seq<string>, attempts: nat, budget: nat, we: Option<Error>,
                   w0: seq<string>, b0: nat, a0: nat, writes: seq<string>)
    requires StickyAfter(written, attempts, budget, we, w0, b0, a0, writes, |writes|)
    ensures written == w0 + writes[..Min(b0, |writes|)]
    ensures attempts == a0 + Min(b0 + 1, |writes|)
    ensures budget == b0 - Min(b0, |writes|)
    ensures we.None? <==> b0 >= |writes|
    ensures we.Some? ==> we == Some(EnvWriteError(IoError(a0 + b0)))
  {
    assert we.None? ==> writes[..|writes|] == writes[..Min(b0, |writes|)];
  }

  /** What a stream holds after WriteAsEnvVars, however many writes failed, is
      a prefix of what it would hold had every write succeeded. */
  lemma EnvOutputIsPrefix(w0: seq<string>, writes: seq<string>, b0: nat)
    ensures Concat(w0 + writes[..Min(b0, |writes|)]) <= Concat(w0 + writes)
  {
    var m := Min(b0, |writes|);
    ConcatAppend(w0, writes[..m]);
    ConcatAppend(w0, writes);
    ConcatPrefix(writes, m);
  }

  /** The header write, made only when there is a header; nothing has failed yet. */
  method WriteHeader(w: Writer, header: string,
                     ghost w0: seq<string>, ghost b0: nat, ghost a0: nat, ghost writes: seq<string>)
    returns (we: Option<Error>)
    requires StickyAfter(w.written, w.attempts, w.budget, None, w0, b0, a0, writes, 0)
    requires |HeaderWrites(header)| <= |writes| && (header != "" ==> writes[0] == header + "\n\n")
    modifies w
    ensures StickyAfter(w.written, w.attempts, w.budget, we, w0, b0, a0, writes, |HeaderWrites(header)|)
  {
    we := None;
    if header != "" {
      we := WritePlanned(w, we, header + "\n\n", w0, b0, a0, writes, 0);
    }
  }

  /** The formatter's loop: one guarded write per variable, in order. */
  method WriteVariables(w: Writer, we0: Option<Error>, vars: seq<Variable>, header: string, enableDescriptions: bool,
                        ghost w0: seq<string>, ghost b0: nat, ghost a0: nat)
    returns (we: Option<Error>)
    requires StickyAfter(w.written, w.attempts, w.budget, we0, w0, b0, a0,
                         EnvWrites(vars, header, enableDescriptions), |HeaderWrites(header)|)
    modifies w
    ensures StickyAfter(w.written, w.attempts, w.budget, we, w0, b0, a0,
                        EnvWrites(vars, header, enableDescriptions), |HeaderWrites(header)| + |vars|)
  {
    ghost var writes := EnvWrites(vars, header, enableDescriptions);
    ghost var h := |HeaderWrites(header)|;
    PlannedWrites(vars, header, enableDescriptions);
    we := we0;
    for i := 0 to |vars|
      invariant StickyAfter(w.written, w.attempts, w.budget, we, w0, b0, a0, writes, h + i)
    {
      var line := EnvLineFor(vars[i], enableDescriptions);
      PlannedLine(vars, header, enableDescriptions, i, line);
      we := WritePlanned(w, we, line, w0, b0, a0, writes, h + i);
    }
  }

  /** Writes the header (if any) and one export line per variable. The first
      failed write is sticky: nothing is written after it and its error, wrapped,
      is the result. The stream ends up with exactly the writes that fit in its
      budget, which by EnvOutputIsPrefix is a prefix of the full output. */
  method WriteAsEnvVars(w: Writer, vars: seq<Variable>, header: string, enableDescriptions: bool)
    returns (err: Option<Error>)
    modifies w
    ensures var writes := EnvWrites(vars, header, enableDescriptions);
      && w.written == old(w.written) + writes[..Min(old(w.budget), |writes|)]
      && w.attempts == old(w.attempts) + Min(old(w.budget) + 1, |writes|)
      && w.budget == old(w.budget) - Min(old(w.budget), |writes|)
      && (err.None? <==> old(w.budget) >= |writes|)
      && (err.Some? ==> err == Some(EnvWriteError(IoError(old(w.attempts) + old(w.budget)))))
  {
    ghost var writes := EnvWrites(vars, header, enableDescriptions);
    ghost var w0, b0, a0 := w.written, w.budget, w.attempts;
    PlannedWrites(vars, header, enableDescriptions);
    var we := WriteHeader(w, header, w0, b0, a0, writes);
    we := WriteVariables(w, we, vars, header, enableDescriptions, w0, b0, a0);
    StickyDone(w.written, w.attempts, w.budget, we, w0, b0, a0, writes);
    err := we;
  }

  // ---------------------------------------------------------------------------
  // Variable-definitions format

  /** The comment above a variable's assignment, built up as the formatter does. */
  function CommentText(v: Variable): string
  {
    (if v.value.Null? then "## REQUIRED\n" else "## OPTIONAL\n")
    + (if v.descriptionSet then "# " + v.description + "\n" else "")
    + (if v.value.Null? then "" else "#")
  }

  /** The comment opens with `## REQUIRED` exactly when there is no default and
      with `## OPTIONAL` otherwise; it ends in a bare `#` exactly when there is a
      default; in between sits the description line, present exactly when a
      description was set. */
  lemma CommentTextSpec(v: Variable)
    ensures |CommentText(v)| >= 12
    ensures CommentText(v)[..12] == "## REQUIRED\n" <==> v.value.Null?
    ensures CommentText(v)[..12] == "## OPTIONAL\n" <==> !v.value.Null?
    ensures CommentText(v)[|CommentText(v)| - 1] == '#' <==> !v.value.Null?
    ensures var r := CommentText(v);
      r[12..|r| - (if v.value.Null? then 0 else 1)] == (if v.descriptionSet then "# " + v.description + "\n" else "")
  {
    assert "## REQUIRED\n"[3] != "## OPTIONAL\n"[3];
  }

  /** A single comment token holding the text verbatim. */
  function MakeCommentTokens(text: string): (r: Tokens)
    ensures |r| == 1 && r[0].kind == TokenComment && TokensBytes(r) == text
  {
    [Token(TokenComment, text)]
  }

  /** A single newline token. */
  function MakeNewlineTokens(): (r: Tokens)
    ensures |r| == 1 && r[0].kind == TokenNewline && TokensBytes(r) == "\n"
  {
    [Token(TokenNewline, "\n")]
  }

  function HeaderItems(header: string): seq<Item>
  {
    if header == "" then [] else [Unstructured(MakeCommentTokens(header + "\n\n"))]
  }

  /** The body after one more variable has been added to it. */
  function AddVariable(items: seq<Item>, v: Variable, enableDescriptions: bool): seq<Item>
  {
    if enableDescriptions then
      SetAttribute(items + [Unstructured(MakeCommentTokens(CommentText(v)))], v.name, v.value)
        + [Unstructured(MakeNewlineTokens())]
    else
      SetAttribute(items, v.name, v.value)
  }

  function BuildBody(items: seq<Item>, vars: seq<Variable>, enableDescriptions: bool): seq<Item>
  {
    if vars == [] then items
    else AddVariable(BuildBody(items, vars[..|vars| - 1], enableDescriptions), vars[|vars| - 1], enableDescriptions)
  }

  /** The document WriteAsTFVars builds before writing it. */
  function Document(vars: seq<Variable>, header: string, enableDescriptions: bool): seq<Item>
  {
    BuildBody(HeaderItems(header), vars, enableDescriptions)
  }

  /** The comment text, built piece by piece as the formatter does. */
  method CommentTextFor(v: Variable) returns (commentText: string)
    ensures commentText == CommentText(v)
  {
    commentText := "";
    if v.value.Null? {
      commentText := commentText + "## REQUIRED\n";
    } else {
      commentText := commentText + "## OPTIONAL\n";
    }
    if v.descriptionSet {
      commentText := commentText + "# " + v.description + "\n";
    }
    if !v.value.Null? {
      commentText := commentText + "#";
    }
  }

  /** One iteration of the formatter's loop: the variable's optional comment,
      its assignment and an optional newline go into the body in place. */
  method AddVariableTo(rootBody: Body, v: Variable, enableDescriptions: bool)
    modifies rootBody
    ensures rootBody.items == AddVariable(old(rootBody.items), v, enableDescriptions)
  {
    if enableDescriptions {
      var commentText := CommentTextFor(v);
      var commentTokens := MakeCommentTokens(commentText);
      var appendTokens := MakeNewlineTokens();

      rootBody.AppendUnstructuredTokens(commentTokens);
      rootBody.SetAttributeValue(v.name, v.value);
      rootBody.AppendUnstructuredTokens(appendTokens);
    } else {
      rootBody.SetAttributeValue(v.name, v.value);
    }
  }

  lemma BuildBodyStep(items: seq<Item>, vars: seq<Variable>, i: nat, d: bool)
    requires i < |vars|
    ensures BuildBody(items, vars[..i + 1], d) == AddVariable(BuildBody(items, vars[..i], d), vars[i], d)
  {
    assert vars[..i + 1][..i] == vars[..i];
  }

  /** Builds the document (optional header comment, then per variable an optional
      comment, the assignment and an optional newline) and writes it once. */
  method WriteAsTFVars(w: Writer, vars: seq<Variable>, header: string, enableDescriptions: bool)
    returns (err: Option<Error>)
    modifies w
    ensures w.attempts == old(w.attempts) + 1
    ensures old(w.budget) > 0 ==>
      && err == None
      && w.written == old(w.written) + [Bytes(Document(vars, header, enableDescriptions))]
      && w.budget == old(w.budget) - 1
    ensures old(w.budget) == 0 ==>
      err == Some(TFVarsWriteError(IoError(old(w.attempts)))) && w.written == old(w.written) && w.budget == 0
  {
    var f := new File();
    var rootBody := f.body;

    if header != "" {
      var headerTokens := MakeCommentTokens(header + "\n\n");
      rootBody.AppendUnstructuredTokens(headerTokens);
    }

    for i := 0 to |vars|
      invariant rootBody.items == BuildBody(HeaderItems(header), vars[..i], enableDescriptions)
      modifies rootBody
    {
      BuildBodyStep(HeaderItems(header), vars, i, enableDescriptions);
      AddVariableTo(rootBody, vars[i], enableDescriptions);
    }
    assert vars[..|vars|] == vars;

    var e := f.WriteTo(w);
    err := if e.Some? then Some(TFVarsWriteError(e.value)) else None;
  }

  // Properties of the built document

  predicate DistinctNames(vars: seq<Variable>)
  {
    forall i, j :: 0 <= i < j < |vars| ==> vars[i].name != vars[j].name
  }

  /** The items one variable contributes when its name is new. */
  function VarBlock(v: Variable, enableDescriptions: bool): seq<Item>
  {
    if enableDescriptions then
      [Unstructured(MakeCommentTokens(CommentText(v))), Attribute(v.name, v.value), Unstructured(MakeNewlineTokens())]
    else
      [Attribute(v.name, v.value)]
  }

  function Blocks(vars: seq<Variable>, enableDescriptions: bool): seq<Item>
  {
    if vars == [] then []
    else Blocks(vars[..|vars| - 1], enableDescriptions) + VarBlock(vars[|vars| - 1], enableDescriptions)
  }

  lemma HasAttrAppend(a: seq<Item>, b: seq<Item>, name: string)
    ensures HasAttr(a + b, name) <==> HasAttr(a, name) || HasAttr(b, name)
  {
    if HasAttr(a + b, name) {
      var i :| 0 <= i < |a + b| && IsAttr((a + b)[i], name);
      if i >= |a| {
        assert IsAttr(b[i - |a|], name);
      }
    }
    if HasAttr(a, name) {
      var i :| 0 <= i < |a| && IsAttr(a[i], name);
      assert IsAttr((a + b)[i], name);
    }
    if HasAttr(b, name) {
      var i :| 0 <= i < |b| && IsAttr(b[i], name);
      assert IsAttr((a + b)[|a| + i], name);
    }
  }

  /** The blocks of a list of variables hold an attribute only for their names. */
  lemma {:induction false} BlocksNames(vars: seq<Variable>, d: bool, name: string)
    requires forall v :: v in vars ==> v.name != name
    ensures !HasAttr(Blocks(vars, d), name)
  {
    if vars != [] {
      var last := vars[|vars| - 1];
      assert forall v :: v in vars[..|vars| - 1] ==> v in vars;
      BlocksNames(vars[..|vars| - 1], d, name);
      HasAttrAppend(Blocks(vars[..|vars| - 1], d), VarBlock(last, d), name);
      assert last in vars;
    }
  }

  /** A variable whose name the body does not assign yet adds exactly its block. */
  lemma AddVariableFresh(items: seq<Item>, v: Variable, d: bool)
    requires !HasAttr(items, v.name)
    ensures AddVariable(items, v, d) == items + VarBlock(v, d)
  {
    if d {
      var c := [Unstructured(MakeCommentTokens(CommentText(v)))];
      HasAttrAppend(items, c, v.name);
      assert !HasAttr(c, v.name);
    }
  }

  lemma AppendAssoc(a: seq<Item>, b: seq<Item>, c: seq<Item>)
    ensures (a + b) + c == a + (b + c)
  {
  }

  lemma LastNameIsNew(vars: seq<Variable>)
    requires DistinctNames(vars) && vars != []
    ensures forall v :: v in vars[..|vars| - 1] ==> v.name != vars[|vars| - 1].name
  {
    var n := |vars| - 1;
    forall v | v in vars[..n] ensures v.name != vars[n].name {
      var j :| 0 <= j < n && vars[..n][j] == v;
      assert vars[j] == v;
    }
  }

  lemma {:induction false} BuildBodyFresh(items: seq<Item>, vars: seq<Variable>, d: bool)
    requires DistinctNames(vars)
    requires forall v :: v in vars ==> !HasAttr(items, v.name)
    ensures BuildBody(items, vars, d) == items + Blocks(vars, d)
  {
    if vars != [] {
      var n := |vars| - 1;
      var prefix, last := vars[..n], vars[n];
      assert forall v :: v in prefix ==> v in vars;
      BuildBodyFresh(items, prefix, d);
      LastNameIsNew(vars);
      BlocksNames(prefix, d, last.name);
      assert last in vars;
      HasAttrAppend(items, Blocks(prefix, d), last.name);
      AddVariableFresh(items + Blocks(prefix, d), last, d);
      AppendAssoc(items, Blocks(prefix, d), VarBlock(last, d));
    }
  }

  /** With distinct names (as the loader produces), the document is the header
      comment followed by one block per variable in input order: the assignment
      alone, or comment, assignment and newline with descriptions on. */
  lemma DocumentOfDistinctNames(vars: seq<Variable>, header: string, d: bool)
    requires DistinctNames(vars)
    ensures Document(vars, header, d) == HeaderItems(header) + Blocks(vars, d)
  {
    BuildBodyFresh(HeaderItems(header), vars, d);
  }

  function Pairs(vars: seq<Variable>): seq<(string, Value)>
  {
    seq(|vars|, i requires 0 <= i < |vars| => (vars[i].name, vars[i].value))
  }

  lemma VarBlockAssignments(v: Variable, d: bool)
    ensures Assignments(VarBlock(v, d)) == [(v.name, v.value)]
  {
    var vb := VarBlock(v, d);
    if d {
      var t := vb[1..];
      var u := t[1..];
      assert u[1..] == [];
      assert Assignments(u) == [];
      assert Assignments(t) == [(v.name, v.value)];
    }
  }

  lemma {:induction false} BlocksAssignments(vars: seq<Variable>, d: bool)
    ensures Assignments(Blocks(vars, d)) == Pairs(vars)
  {
    if vars != [] {
      var n := |vars| - 1;
      BlocksAssignments(vars[..n], d);
      AssignmentsAppend(Blocks(vars[..n], d), VarBlock(vars[n], d));
      VarBlockAssignments(vars[n], d);
      assert Pairs(vars) == Pairs(vars[..n]) + [(vars[n].name, vars[n].value)];
    }
  }

  /** With distinct names the document assigns each variable exactly once, in
      input order, to its own value: a missing default stays Null. */
  lemma DocumentAssignments(vars: seq<Variable>, header: string, d: bool)
    requires DistinctNames(vars)
    ensures Assignments(Document(vars, header, d)) == Pairs(vars)
  {
    DocumentOfDistinctNames(vars, header, d);
    AssignmentsAppend(HeaderItems(header), Blocks(vars, d));
    BlocksAssignments(vars, d);
    assert Assignments(HeaderItems(header)) == [];
  }

  /** The assignments of a body built from vars, read as a sequence of SetPair steps. */
  function FoldPairs(pairs: seq<(string, Value)>, vars: seq<Variable>): seq<(string, Value)>
  {
    if vars == [] then pairs
    else SetPair(FoldPairs(pairs, vars[..|vars| - 1]), vars[|vars| - 1].name, vars[|vars| - 1].value)
  }

  lemma {:induction false} BuildBodyAssignments(items: seq<Item>, vars: seq<Variable>, d: bool)
    ensures Assignments(BuildBody(items, vars, d)) == FoldPairs(Assignments(items), vars)
  {
    if vars != [] {
      var n := |vars| - 1;
      var built := BuildBody(items, vars[..n], d);
      BuildBodyAssignments(items, vars[..n], d);
      if d {
        var c := built + [Unstructured(MakeCommentTokens(CommentText(vars[n])))];
        AssignmentsUnstructured(built, MakeCommentTokens(CommentText(vars[n])));
        AssignmentsSetAttribute(c, vars[n].name, vars[n].value);
        AssignmentsUnstructured(SetAttribute(c, vars[n].name, vars[n].value), MakeNewlineTokens());
      } else {
        AssignmentsSetAttribute(built, vars[n].name, vars[n].value);
      }
    }
  }

  /** Turning descriptions on adds comments and newlines only: the assignments of
      the document, names and values, are the same either way, for any input. */
  lemma DescriptionsKeepAssignments(vars: seq<Variable>, header: string)
    ensures Assignments(Document(vars, header, true)) == Assignments(Document(vars, header, false))
  {
    BuildBodyAssignments(HeaderItems(header), vars, true);
    BuildBodyAssignments(HeaderItems(header), vars, false);
  }
}
