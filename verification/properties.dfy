/**
 Properties of the rendered checklist: its header, its line structure, the
 order of its lines, the markers, and what the rendering ignores.
 */
module RenderProperties {
  import opened Text
  import opened Checklist

  /** The rule name and every rendered message are free of line breaks. */
  predicate SingleLineMessages(ruleName: string, checks: seq<Check>) {
    && NoNewline(ruleName)
    && (forall i :: 0 <= i < |checks| ==> NoNewline(checks[i].message))
    && (forall i, j :: 0 <= i < |checks| && 0 <= j < |checks[i].subs| ==> NoNewline(checks[i].subs[j].message))
  }

  /** An empty checklist renders as the header line alone. */
  lemma RenderEmpty(ruleName: string)
    ensures Render(ruleName, []) == "Completeness checklist for " + ruleName + ":\n"
  {
  }

  /** The body of two lists of checks, one after the other, is the first body followed by the second. */
  lemma {:induction false} BodyRowsAppend(a: seq<Check>, b: seq<Check>)
    ensures BodyRows(a + b) == BodyRows(a) + BodyRows(b)
  {
    if |a| == 0 {
      assert a + b == b;
    } else {
      assert (a + b)[0] == a[0];
      assert (a + b)[1..] == a[1..] + b;
      BodyRowsAppend(a[1..], b);
    }
  }

  /**
   Order preservation: rendering `a + b` renders `a` first and then appends
   the lines of `b`, in order, with nothing sorted or moved.
   */
  lemma {:induction false} RenderAppend(ruleName: string, a: seq<Check>, b: seq<Check>)
    ensures Render(ruleName, a + b) == Render(ruleName, a) + Terminate(BodyRows(b))
  {
    var h := Header(ruleName) + "\n";
    var x, y := Terminate(BodyRows(a)), Terminate(BodyRows(b));
    calc {
      Render(ruleName, a + b);
      h + Terminate(BodyRows(a + b));
      { BodyRowsAppend(a, b); }
      h + Terminate(BodyRows(a) + BodyRows(b));
      { TerminateAppend(BodyRows(a), BodyRows(b)); }
      h + (x + y);
      (h + x) + y;
      Render(ruleName, a) + y;
    }
  }

  /** A single check's body is that check's own lines. */
  lemma BodyRowsSingle(c: Check)
    ensures BodyRows([c]) == CheckRows(c)
  {
    assert [c][1..] == [];
  }

  /**
   A check without sub-checks contributes exactly one line: " ✔ " and its
   message when passed, three spaces and its message otherwise.
   */
  lemma RenderLeaf(ruleName: string, message: string, passed: bool)
    ensures Render(ruleName, [Check(message, passed, [])])
         == Header(ruleName) + "\n" + (if passed then " \U{2714} " else "   ") + message + "\n"
  {
    var c := Check(message, passed, []);
    BodyRowsSingle(c);
    assert CheckRows(c) == [TopRow(c)];
    assert Terminate([TopRow(c)]) == TopRow(c) + "\n" + Terminate([TopRow(c)][1..]);
    assert [TopRow(c)][1..] == [];
  }

  /** Rendering is check by check: the header line, then each check's lines in input order. */
  lemma RenderCons(ruleName: string, c: Check, rest: seq<Check>)
    ensures Render(ruleName, [c] + rest)
         == Render(ruleName, []) + Terminate(CheckRows(c)) + Terminate(BodyRows(rest))
  {
    RenderAppend(ruleName, [c], rest);
    RenderAppend(ruleName, [], [c]);
    assert [] + [c] == [c];
    BodyRowsSingle(c);
  }

  lemma {:induction false} SubRowsNoNewline(subs: seq<Check>)
    requires forall j :: 0 <= j < |subs| ==> NoNewline(subs[j].message)
    ensures AllNoNewline(SubRows(subs))
  {
    forall j | 0 <= j < |subs|
      ensures NoNewline(SubRows(subs)[j])
    {
      assert SubRows(subs)[j] == SubMarker(subs[j].passed) + subs[j].message;
    }
  }

  lemma {:induction false} BodyRowsNoNewline(checks: seq<Check>)
    requires SingleLineMessages("", checks)
    ensures AllNoNewline(BodyRows(checks))
  {
    if |checks| > 0 {
      var c := checks[0];
      assert SingleLineMessages("", checks[1..]) by {
        forall i, j | 0 <= i < |checks[1..]| && 0 <= j < |checks[1..][i].subs|
          ensures NoNewline(checks[1..][i].subs[j].message)
        {
          assert checks[1..][i] == checks[i + 1];
        }
      }
      BodyRowsNoNewline(checks[1..]);
      assert forall j :: 0 <= j < |c.subs| ==> NoNewline(c.subs[j].message) by {
        forall j | 0 <= j < |c.subs| ensures NoNewline(c.subs[j].message) {
          assert checks[0] == c;
        }
      }
      SubRowsNoNewline(c.subs);
      assert NoNewline(TopRow(c));
      var rows := CheckRows(c) + BodyRows(checks[1..]);
      forall i | 0 <= i < |rows| ensures NoNewline(rows[i]) {
        if i == 0 {
        } else if i <= |c.subs| {
          assert rows[i] == SubRows(c.subs)[i - 1];
        } else {
          assert rows[i] == BodyRows(checks[1..])[i - 1 - |c.subs|];
        }
      }
    }
  }

  /**
   When no message holds a line break, the output splits back into exactly
   the header line and one line per check and per sub-check, holding one
   "\n" per line: 1 + |checks| + (number of sub-checks) lines in all.
   */
  lemma {:induction false} RenderLines(ruleName: string, checks: seq<Check>)
    requires SingleLineMessages(ruleName, checks)
    ensures SplitLines(Render(ruleName, checks)) == Rows(ruleName, checks)
    ensures |SplitLines(Render(ruleName, checks))| == 1 + |checks| + TotalSubs(checks)
    ensures multiset(Render(ruleName, checks))['\n'] == 1 + |checks| + TotalSubs(checks)
  {
    assert SingleLineMessages("", checks);
    BodyRowsNoNewline(checks);
    var rows := Rows(ruleName, checks);
    assert AllNoNewline(rows) by {
      forall i | 0 <= i < |rows| ensures NoNewline(rows[i]) {
        if i > 0 {
          assert rows[i] == BodyRows(checks)[i - 1];
        }
      }
    }
    RenderTerminatesRows(ruleName, checks);
    SplitTerminate(rows);
    TerminateNewlineCount(rows);
  }

  /**
   No blank lines and a single trailing "\n": the output is its own split
   lines written back out, and when the rule name and messages hold no line
   break, every one of those lines is non-empty and the final "\n" is not
   preceded by another.
   */
  lemma {:induction false} RenderHasNoBlankLines(ruleName: string, checks: seq<Check>)
    ensures Terminate(SplitLines(Render(ruleName, checks))) == Render(ruleName, checks)
    ensures SingleLineMessages(ruleName, checks) ==>
      forall i :: 0 <= i < |SplitLines(Render(ruleName, checks))| ==> |SplitLines(Render(ruleName, checks))[i]| > 0
    ensures SingleLineMessages(ruleName, checks) ==> Render(ruleName, checks)[|Render(ruleName, checks)| - 2] != '\n'
  {
    var out := Render(ruleName, checks);
    TerminateSplit(out);
    if SingleLineMessages(ruleName, checks) {
      RenderLines(ruleName, checks);
      assert SplitLines(out) == Rows(ruleName, checks);
      RenderEndsInSingleNewline(ruleName, checks);
    }
  }

  /** With break-free text, the final "\n" of the output is not preceded by another. */
  lemma RenderEndsInSingleNewline(ruleName: string, checks: seq<Check>)
    requires SingleLineMessages(ruleName, checks)
    ensures Render(ruleName, checks)[|Render(ruleName, checks)| - 2] != '\n'
  {
    var rows := Rows(ruleName, checks);
    RenderLines(ruleName, checks);
    assert AllNoNewline(rows);
    RenderTerminatesRows(ruleName, checks);
    TerminateSingleFinalNewline(rows);
  }

  /**
   Markers: line i + 1 of the checklist carries the check mark at the column
   of entry i's marker exactly when that entry passed. The column is 1 for a
   top-level check and 4 for a sub-check, whatever its parent's flag.
   */
  lemma RowMarkers(ruleName: string, checks: seq<Check>, i: nat)
    requires i < |checks| + TotalSubs(checks)
    ensures var e := Entries(checks)[i];
      && e.depth <= 1
      && Rows(ruleName, checks)[1 + i] == Indent(e.depth) + Marker(e.passed) + e.message
    ensures var e := Entries(checks)[i];
      && |Rows(ruleName, checks)[1 + i]| >= 3 * e.depth + 3
      && (Rows(ruleName, checks)[1 + i][3 * e.depth + 1] == Tick <==> e.passed)
  {
    BodyRowsAreEntryRows(checks);
    EntryDepths(checks);
    var e := Entries(checks)[i];
    var row := Rows(ruleName, checks)[1 + i];
    assert row == BodyRows(checks)[i];
    assert row == Indent(e.depth) + Marker(e.passed) + e.message;
  }

  lemma {:induction false} SubEntryDepths(subs: seq<Check>)
    ensures forall k :: 0 <= k < |SubEntries(subs)| ==> SubEntries(subs)[k].depth == 1
  {
    if |subs| > 0 {
      SubEntryDepths(subs[1..]);
    }
  }

  /** Entries are only ever one level deep. */
  lemma {:induction false} EntryDepths(checks: seq<Check>)
    ensures forall k :: 0 <= k < |Entries(checks)| ==> Entries(checks)[k].depth <= 1
  {
    if |checks| > 0 {
      EntryDepths(checks[1..]);
      SubEntryDepths(checks[0].subs);
    }
  }

  /** A check with its sub-checks' own sub-checks removed. */
  function Prune(c: Check): (p: Check)
    ensures p.message == c.message && p.passed == c.passed && |p.subs| == |c.subs|
    ensures forall j :: 0 <= j < |p.subs| ==>
      p.subs[j].message == c.subs[j].message && p.subs[j].passed == c.subs[j].passed && p.subs[j].subs == []
  {
    Check(c.message, c.passed, seq(|c.subs|, j requires 0 <= j < |c.subs| => Check(c.subs[j].message, c.subs[j].passed, [])))
  }

  /**
   Only one level of sub-checks is rendered: dropping every sub-check's own
   sub-checks leaves the output unchanged.
   */
  lemma {:induction false} RenderIgnoresGrandchildren(ruleName: string, checks: seq<Check>)
    ensures Render(ruleName, seq(|checks|, i requires 0 <= i < |checks| => Prune(checks[i])))
         == Render(ruleName, checks)
  {
    var pruned := seq(|checks|, i requires 0 <= i < |checks| => Prune(checks[i]));
    BodyRowsIgnoreGrandchildren(checks, pruned);
  }

  lemma {:induction false} BodyRowsIgnoreGrandchildren(checks: seq<Check>, pruned: seq<Check>)
    requires |pruned| == |checks|
    requires forall i :: 0 <= i < |checks| ==> pruned[i] == Prune(checks[i])
    ensures BodyRows(pruned) == BodyRows(checks)
  {
    if |checks| > 0 {
      BodyRowsIgnoreGrandchildren(checks[1..], pruned[1..]);
      var c, p := checks[0], pruned[0];
      assert SubRows(p.subs) == SubRows(c.subs);
      assert CheckRows(p) == CheckRows(c);
    }
  }
}
