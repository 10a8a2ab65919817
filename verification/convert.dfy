/**
 An imperative, line-by-line construction of the checklist: start from the
 header line and append one "\n"-terminated line per check, followed by one
 per sub-check. It is proved equal to `Render`.
 */
module OutputMessage {
  import opened Text
  import opened Checklist
  import RenderProperties

  /** The lines of a prefix of the sub-checks grow by one sub-check line at a time. */
  lemma SubRowsSnoc(subs: seq<Check>, j: nat)
    requires j < |subs|
    ensures SubRows(subs[..j + 1]) == SubRows(subs[..j]) + [SubRow(subs[j])]
  {
  }

  /** The text of a prefix of the sub-checks grows by one "\n"-terminated line at a time. */
  lemma SubTextSnoc(subs: seq<Check>, j: nat)
    requires j < |subs|
    ensures Terminate(SubRows(subs[..j + 1])) == Terminate(SubRows(subs[..j])) + SubRow(subs[j]) + "\n"
  {
    SubRowsSnoc(subs, j);
    TerminateSnoc(SubRows(subs[..j]), SubRow(subs[j]));
  }

  /** The rendering of a prefix of the checks grows by one check's lines at a time. */
  lemma {:induction false} RenderSnoc(ruleName: string, checks: seq<Check>, i: nat)
    requires i < |checks|
    ensures Render(ruleName, checks[..i + 1])
         == Render(ruleName, checks[..i]) + TopRow(checks[i]) + "\n" + Terminate(SubRows(checks[i].subs))
  {
    var c := checks[i];
    var x := Terminate(SubRows(c.subs));
    calc {
      Render(ruleName, checks[..i + 1]);
      { assert checks[..i + 1] == checks[..i] + [c]; }
      Render(ruleName, checks[..i] + [c]);
      { RenderProperties.RenderAppend(ruleName, checks[..i], [c]); }
      Render(ruleName, checks[..i]) + Terminate(BodyRows([c]));
      { RenderProperties.BodyRowsSingle(c); }
      Render(ruleName, checks[..i]) + Terminate(CheckRows(c));
      { assert CheckRows(c)[1..] == SubRows(c.subs); }
      Render(ruleName, checks[..i]) + (TopRow(c) + "\n" + x);
      Render(ruleName, checks[..i]) + TopRow(c) + "\n" + x;
    }
  }

  /** Appending a line to text that already extends a prefix. */
  lemma AppendLineAssoc(prefix: string, done: string, line: string)
    ensures (prefix + done) + line + "\n" == prefix + (done + line + "\n")
  {
  }

  /** One step of appending sub-check lines: the next sub-check's line and its "\n". */
  lemma AppendSubLine(prefix: string, subs: seq<Check>, j: nat, message: string)
    requires j < |subs|
    requires message == prefix + Terminate(SubRows(subs[..j]))
    ensures message + SubRow(subs[j]) + "\n" == prefix + Terminate(SubRows(subs[..j + 1]))
  {
    SubTextSnoc(subs, j);
    AppendLineAssoc(prefix, Terminate(SubRows(subs[..j])), SubRow(subs[j]));
  }

  /** Appends the line of every sub-check, in order, each followed by "\n". */
  method AppendSubLines(prefix: string, subs: seq<Check>) returns (message: string)
    ensures message == prefix + Terminate(SubRows(subs))
  {
    message := prefix;
    assert message == prefix + Terminate(SubRows(subs[..0])) by {
      assert subs[..0] == [];
      assert prefix + "" == prefix;
    }
    var j := 0;
    while j < |subs|
      invariant 0 <= j <= |subs|
      invariant message == prefix + Terminate(SubRows(subs[..j]))
    {
      var sub := subs[j];
      var line := SubMarker(sub.passed) + sub.message;
      assert line == SubRow(sub);
      AppendSubLine(prefix, subs, j, message);
      message := message + line + "\n";
      j := j + 1;
    }
    assert subs[..j] == subs;
  }

  /**
   Builds the checklist message by appending line after line: the header,
   then for each check its marked line followed by its sub-checks' lines.
   The result is exactly the rendered checklist.
   */
  method ConvertChecksIntoOutputMessage(ruleName: string, checks: seq<Check>) returns (message: string)
    ensures message == Render(ruleName, checks)
  {
    message := "Completeness checklist for " + ruleName + ":\n";
    assert message == Render(ruleName, checks[..0]) by {
      assert checks[..0] == [];
      RenderProperties.RenderEmpty(ruleName);
    }
    var i := 0;
    while i < |checks|
      invariant 0 <= i <= |checks|
      invariant message == Render(ruleName, checks[..i])
    {
      var check := checks[i];
      var line := Marker(check.passed) + check.message;
      RenderSnoc(ruleName, checks, i);
      message := AppendSubLines(message + line + "\n", check.subs);
      i := i + 1;
    }
    assert checks[..i] == checks;
  }
}
