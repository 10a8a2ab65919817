/**
 The completeness checklist of a rule: an ordered list of checks, each with a
 message, a pass flag and an ordered list of sub-checks, rendered as one
 header line naming the rule followed by one line per check and sub-check.
 */
module Checklist {
  import opened Text

  /**
   One checklist entry. `subs` holds the entry's `sub_messages`; an entry
   without `sub_messages` has no sub-checks, so an absent list and an empty
   one are the same value. Only one level of sub-checks is ever rendered:
   the `subs` of a sub-check are ignored.
   */
  datatype Check = Check(message: string, passed: bool, subs: seq<Check>)

  /** U+2714 HEAVY CHECK MARK, the mark of a passed check. */
  const Tick: char := '\U{2714}'

  /** The first line of every checklist, naming the rule. */
  function Header(ruleName: string): string {
    "Completeness checklist for " + ruleName + ":"
  }

  /**
   Marker in front of a top-level check: " ✔ " when passed, three spaces
   otherwise, so that every message starts in the same column.
   */
  function Marker(passed: bool): (m: string)
    ensures |m| == 3 && m[0] == ' ' && m[2] == ' '
    ensures m[1] == (if passed then Tick else ' ')
    ensures NoNewline(m)
  {
    if passed then " \U{2714} " else "   "
  }

  /** The check mark appears in a marker exactly when the check passed. */
  lemma MarkerShowsPass(passed: bool)
    ensures Tick in Marker(passed) <==> passed
    ensures Tick in SubMarker(passed) <==> passed
  {
    if !passed {
      assert forall k :: 0 <= k < 3 ==> Marker(passed)[k] == ' ';
      assert forall k :: 0 <= k < 6 ==> SubMarker(passed)[k] == ' ';
    }
  }

  /**
   Marker in front of a sub-check: "    ✔ " when passed, six spaces otherwise.
   It is the top-level marker pushed three columns to the right.
   */
  function SubMarker(passed: bool): (m: string)
    ensures |m| == 6
    ensures m[0] == ' ' && m[1] == ' ' && m[2] == ' ' && m[3] == ' ' && m[5] == ' '
    ensures m[4] == (if passed then Tick else ' ')
  {
    if passed then "    \U{2714} " else "      "
  }

  /** A sub-check's marker is the top-level marker behind three more spaces. */
  lemma SubMarkerNests(passed: bool)
    ensures SubMarker(passed) == "   " + Marker(passed)
  {
  }

  /** The line of a top-level check, without its "\n". */
  function TopRow(c: Check): string {
    Marker(c.passed) + c.message
  }

  /** The line of a sub-check, without its "\n". */
  function SubRow(s: Check): string {
    SubMarker(s.passed) + s.message
  }

  /** The lines of a list of sub-checks: one per sub-check, in order. */
  function SubRows(subs: seq<Check>): (rows: seq<string>)
    ensures |rows| == |subs|
    ensures forall j :: 0 <= j < |subs| ==> rows[j] == SubRow(subs[j])
  {
    if |subs| == 0 then [] else [SubRow(subs[0])] + SubRows(subs[1..])
  }

  /** The lines one top-level check contributes: its own, then its sub-checks'. */
  function CheckRows(c: Check): (rows: seq<string>)
    ensures |rows| == 1 + |c.subs|
    ensures rows[0] == TopRow(c)
    ensures forall j :: 0 <= j < |c.subs| ==> rows[1 + j] == SubRow(c.subs[j])
  {
    [TopRow(c)] + SubRows(c.subs)
  }

  /** Number of sub-checks across all top-level checks. */
  function TotalSubs(checks: seq<Check>): nat {
    if |checks| == 0 then 0 else |checks[0].subs| + TotalSubs(checks[1..])
  }

  /** The lines after the header, check by check in input order. */
  function BodyRows(checks: seq<Check>): (rows: seq<string>)
    ensures |rows| == |checks| + TotalSubs(checks)
    ensures forall i :: 0 <= i < |rows| ==> |rows[i]| >= 3
  {
    if |checks| == 0 then [] else CheckRows(checks[0]) + BodyRows(checks[1..])
  }

  /** All lines of the checklist, without their "\n". */
  function Rows(ruleName: string, checks: seq<Check>): (rows: seq<string>)
    ensures |rows| == 1 + |checks| + TotalSubs(checks)
    ensures rows[0] == Header(ruleName)
    ensures forall i :: 0 <= i < |rows| ==> |rows[i]| > 0
  {
    [Header(ruleName)] + BodyRows(checks)
  }

  /** The rendered checklist: every line followed by "\n". */
  function Render(ruleName: string, checks: seq<Check>): (out: string)
    ensures |out| > |Header(ruleName)|
    ensures out[|out| - 1] == '\n'
  {
    Header(ruleName) + "\n" + Terminate(BodyRows(checks))
  }

  /** The output begins with the header line, "\n" included. */
  lemma RenderStartsWithHeader(ruleName: string, checks: seq<Check>)
    ensures Render(ruleName, checks)[..|Header(ruleName)| + 1] == Header(ruleName) + "\n"
  {
  }

  /** The rendered checklist is the list of all its lines, each followed by "\n". */
  lemma RenderTerminatesRows(ruleName: string, checks: seq<Check>)
    ensures Render(ruleName, checks) == Terminate(Rows(ruleName, checks))
  {
    assert Rows(ruleName, checks)[1..] == BodyRows(checks);
  }

  // ---------------------------------------------------------------------
  // Reference description: the flattened list of rendered entries
  // ---------------------------------------------------------------------

  /** One rendered entry: depth 0 for a top-level check, 1 for a sub-check. */
  datatype Entry = Entry(depth: nat, passed: bool, message: string)

  /** Sub-checks as depth-1 entries, in order. */
  function SubEntries(subs: seq<Check>): (es: seq<Entry>)
    ensures |es| == |subs|
  {
    if |subs| == 0 then [] else [Entry(1, subs[0].passed, subs[0].message)] + SubEntries(subs[1..])
  }

  /** Checks in pre-order: each top-level check, then its sub-checks. */
  function Entries(checks: seq<Check>): (es: seq<Entry>)
    ensures |es| == |checks| + TotalSubs(checks)
  {
    if |checks| == 0 then []
    else [Entry(0, checks[0].passed, checks[0].message)] + SubEntries(checks[0].subs) + Entries(checks[1..])
  }

  /** Three columns of indentation per level of nesting. */
  function Indent(depth: nat): string {
    seq(3 * depth, _ => ' ')
  }

  /** How an entry is laid out: indentation, the pass marker, then the message. */
  function EntryRow(e: Entry): string {
    Indent(e.depth) + Marker(e.passed) + e.message
  }

  /** The layout applied to each entry of a list. */
  function EntryRows(es: seq<Entry>): seq<string> {
    seq(|es|, i requires 0 <= i < |es| => EntryRow(es[i]))
  }

  lemma EntryRowsAppend(a: seq<Entry>, b: seq<Entry>)
    ensures EntryRows(a + b) == EntryRows(a) + EntryRows(b)
  {
  }

  lemma {:induction false} SubRowsAreEntryRows(subs: seq<Check>)
    ensures SubRows(subs) == EntryRows(SubEntries(subs))
  {
    if |subs| > 0 {
      SubRowsAreEntryRows(subs[1..]);
      var e := Entry(1, subs[0].passed, subs[0].message);
      assert Indent(1) == "   ";
      SubMarkerNests(subs[0].passed);
      assert EntryRow(e) == SubRow(subs[0]);
      EntryRowsAppend([e], SubEntries(subs[1..]));
    }
  }

  /**
   Every line after the header is the layout of the matching entry of the
   pre-order listing: top-level checks and sub-checks appear in input order,
   each sub-check right after its parent and three columns deeper, and each
   marker reflects that entry's own pass flag.
   */
  lemma {:induction false} BodyRowsAreEntryRows(checks: seq<Check>)
    ensures BodyRows(checks) == EntryRows(Entries(checks))
  {
    if |checks| > 0 {
      var c := checks[0];
      var e := Entry(0, c.passed, c.message);
      BodyRowsAreEntryRows(checks[1..]);
      SubRowsAreEntryRows(c.subs);
      assert Indent(0) == "";
      assert EntryRow(e) == TopRow(c);
      EntryRowsAppend([e], SubEntries(c.subs));
      EntryRowsAppend([e] + SubEntries(c.subs), Entries(checks[1..]));
    }
  }
}
