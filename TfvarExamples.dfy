/** The expectations of the package's tests, stated on the model. The tests call
    both writers with no header and with descriptions off, and sort the loaded
    variables by name first. Expected texts are written split at the field
    boundaries of each line. */
module TfvarExamples {
  import opened Wrappers
  import opened Cty
  import opened Stream
  import opened Hclwrite
  import opened Tfvar

  /** The three variables of the test configuration, sorted by name. */
  function SortedDefaults(): (vars: seq<Variable>)
    ensures DistinctNames(vars)
  {
    [ Variable("availability_zone_names", List([Str("us-west-1a")]), "", false, ParseLiteral),
      Variable("instance_name", Str("my-instance"), "", false, ParseLiteral),
      Variable("region", Null, "", false, ParseLiteral) ]
  }

  /** The three lines the environment test expects, one write each. */
  function ExpectedEnvLines(): seq<string>
  {
    [ "export TF_VAR_" + "availability_zone_names" + "='" + "[\"us-west-1a\"]" + "'\n",
      "export TF_VAR_" + "instance_name" + "='" + "my-instance" + "'\n",
      "export TF_VAR_" + "region" + "='" + "" + "'\n" ]
  }

  lemma RenderZones()
    ensures Render(List([Str("us-west-1a")])) == "[\"us-west-1a\"]"
  {
    var items := [Str("us-west-1a")];
    assert RenderItems(items) == Render(items[0]) == Quote("us-west-1a");
  }

  /** A list keeps its brackets and the quotes inside them; a string loses its
      enclosing quotes; a missing default becomes empty. */
  lemma EnvTestOutput()
    ensures EnvWrites(SortedDefaults(), "", false) == ExpectedEnvLines()
  {
    var vars := SortedDefaults();
    RenderZones();
    EnvValueSpec(vars[0]);
    EnvValueSpec(vars[1]);
    EnvValueSpec(vars[2]);
    PlainEnvLine(vars[0], "[\"us-west-1a\"]");
    PlainEnvLine(vars[1], "my-instance");
    PlainEnvLine(vars[2], "");
    ThreeEnvLines(vars);
  }

  lemma ThreeEnvLines(vars: seq<Variable>)
    requires |vars| == 3
    ensures EnvWrites(vars, "", false) == [EnvLine(vars[0], false), EnvLine(vars[1], false), EnvLine(vars[2], false)]
  {
    assert |HeaderWrites("")| == 0;
    PlannedWrites(vars, "", false);
    PlannedLine(vars, "", false, 0, EnvLine(vars[0], false));
    PlannedLine(vars, "", false, 1, EnvLine(vars[1], false));
    PlannedLine(vars, "", false, 2, EnvLine(vars[2], false));
  }

  lemma PlainEnvLine(v: Variable, value: string)
    requires EnvValue(v) == value
    ensures EnvLine(v, false) == "export TF_VAR_" + v.name + "='" + value + "'\n"
  {
    assert "export " + VarEnvPrefix == "export TF_VAR_";
  }

  /** The same writes, obtained by running the method on a stream that accepts
      all three. */
  method EnvTestRun() returns (written: seq<string>, err: Option<Error>)
    ensures err == None && written == ExpectedEnvLines()
  {
    var w := new Writer(3);
    err := WriteAsEnvVars(w, SortedDefaults(), "", false);
    EnvTestOutput();
    written := w.written;
  }

  /** A stream that fails at its second write gets the header alone, no later
      write is tried, and the error of that second write comes back. */
  method EnvStickyRun() returns (written: seq<string>, attempts: nat, err: Option<Error>)
    ensures written == ["header\n\n"] && attempts == 2 && err == Some(EnvWriteError(IoError(1)))
  {
    var w := new Writer(1);
    err := WriteAsEnvVars(w, SortedDefaults(), "header", false);
    EnvWritesShape(SortedDefaults(), "header", false);
    ghost var writes := EnvWrites(SortedDefaults(), "header", false);
    assert |writes| == 4;
    assert writes[..1] == [writes[0]];
    assert writes[0] == "header\n\n";
    written, attempts := w.written, w.attempts;
  }

  /** The document the definitions test expects: one assignment per variable in
      order, the missing default kept as null. */
  lemma TFVarsTestDocument()
    ensures Document(SortedDefaults(), "", false)
         == [ Attribute("availability_zone_names", List([Str("us-west-1a")])),
              Attribute("instance_name", Str("my-instance")),
              Attribute("region", Null) ]
  {
    var vars := SortedDefaults();
    DocumentOfDistinctNames(vars, "", false);
    assert vars[..1][..0] == [];
    assert Blocks(vars[..1], false) == [Attribute(vars[0].name, vars[0].value)];
    assert vars[..2][..1] == vars[..1];
    assert Blocks(vars[..2], false) == [Attribute(vars[0].name, vars[0].value), Attribute(vars[1].name, vars[1].value)];
    assert vars[..|vars| - 1] == vars[..2];
  }

  /** Its text, up to the alignment of `=` that the library's writer adds. */
  lemma TFVarsTestText()
    ensures Bytes(Document(SortedDefaults(), "", false))
         == ("availability_zone_names" + " = " + "[\"us-west-1a\"]" + "\n")
          + (("instance_name" + " = " + "\"my-instance\"" + "\n")
          + (("region" + " = " + "null" + "\n") + ""))
  {
    TFVarsTestDocument();
    var items := Document(SortedDefaults(), "", false);
    RenderZones();
    AttributeText("availability_zone_names", List([Str("us-west-1a")]), "[\"us-west-1a\"]");
    AttributeText("instance_name", Str("my-instance"), "\"my-instance\"");
    AttributeText("region", Null, "null");
    ThreeItemText(items, "availability_zone_names" + " = " + "[\"us-west-1a\"]" + "\n",
      "instance_name" + " = " + "\"my-instance\"" + "\n", "region" + " = " + "null" + "\n");
  }

  lemma AttributeText(name: string, v: Value, r: string)
    requires Render(v) == r
    ensures ItemBytes(Attribute(name, v)) == name + " = " + r + "\n"
  {
  }

  lemma ThreeItemText(items: seq<Item>, t0: string, t1: string, t2: string)
    requires |items| == 3
    requires ItemBytes(items[0]) == t0 && ItemBytes(items[1]) == t1 && ItemBytes(items[2]) == t2
    ensures Bytes(items) == t0 + (t1 + (t2 + ""))
  {
    var r1 := items[1..];
    var r2 := r1[1..];
    assert r2[1..] == [];
    assert Bytes(r2) == t2 + "";
    assert Bytes(r1) == t1 + Bytes(r2);
  }

  /** A string value holding an apostrophe goes between the single quotes as it
      is, so its export line holds three single quotes. */
  lemma ApostropheInValue()
    ensures var v := Variable("motd", Str("it's"), "", false, ParseLiteral);
      EnvValue(v) == "it's" && Count(EnvLine(v, false), '\'') == 3
  {
    var v := Variable("motd", Str("it's"), "", false, ParseLiteral);
    EnvValueSpec(v);
    QuotesInExportLine("motd", "it's");
    CountAbsent("motd", '\'');
    assert Count("it's", '\'') == 1 by {
      CountAppend("it", "'s", '\'');
      CountAbsent("it", '\'');
      assert "'s"[1..] == "s";
      CountAbsent("s", '\'');
    }
    assert EnvLine(v, false) == ExportLine("motd", EnvValue(v));
  }

  /** With descriptions on, a required variable gets `## REQUIRED` and its
      description; an optional one without a description gets `## OPTIONAL`
      and the bare `#`. */
  lemma TFVarsCommentExamples()
    ensures CommentText(Variable("region", Null, "AWS region", true, ParseLiteral))
         == "## REQUIRED\n" + "# " + "AWS region" + "\n"
    ensures CommentText(Variable("instance_name", Str("my-instance"), "", false, ParseLiteral))
         == "## OPTIONAL\n" + "#"
  {
  }
}
