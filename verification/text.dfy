/**
 Line-oriented text: a list of lines written out with a "\n" after each one,
 and the inverse that splits such text back into its lines.
 */
module Text {

  /** True iff `s` contains no line break. */
  predicate NoNewline(s: string) {
    '\n' !in s
  }

  /** True iff every line of `lines` is free of line breaks. */
  predicate AllNoNewline(lines: seq<string>) {
    forall i :: 0 <= i < |lines| ==> NoNewline(lines[i])
  }

  /** Writes every line followed by "\n"; no lines give the empty text. */
  function Terminate(lines: seq<string>): (s: string)
    ensures |s| == 0 <==> |lines| == 0
    ensures |lines| > 0 ==> s[|s| - 1] == '\n'
    ensures |s| >= |lines|
  {
    if |lines| == 0 then "" else lines[0] + "\n" + Terminate(lines[1..])
  }

  /** Writing out two lists one after the other is writing out their concatenation. */
  lemma {:induction false} TerminateAppend(a: seq<string>, b: seq<string>)
    ensures Terminate(a + b) == Terminate(a) + Terminate(b)
  {
    if |a| == 0 {
      assert a + b == b;
    } else {
      assert (a + b)[1..] == a[1..] + b;
      TerminateAppend(a[1..], b);
    }
  }

  /** Appending one more line to written-out lines. */
  lemma TerminateSnoc(lines: seq<string>, line: string)
    ensures Terminate(lines + [line]) == Terminate(lines) + line + "\n"
  {
    TerminateAppend(lines, [line]);
    assert [line][1..] == [];
    assert Terminate([line]) == line + "\n" + "";
    assert line + "\n" + "" == line + "\n";
  }

  /**
   Written-out lines whose last line is non-empty and break-free end in a
   single "\n": the character before it is not a line break.
   */
  lemma TerminateSingleFinalNewline(lines: seq<string>)
    requires |lines| > 0
    requires |lines[|lines| - 1]| > 0 && NoNewline(lines[|lines| - 1])
    ensures |Terminate(lines)| >= 2
    ensures Terminate(lines)[|Terminate(lines)| - 2] != '\n'
  {
    var init, last := lines[..|lines| - 1], lines[|lines| - 1];
    assert lines == init + [last];
    TerminateSnoc(init, last);
    var s := Terminate(init) + last + "\n";
    assert s[|s| - 2] == last[|last| - 1];
  }

  /** Index of the first line break of `s`, or |s| when there is none. */
  function LineEnd(s: string): (i: nat)
    ensures i <= |s|
    ensures i < |s| ==> s[i] == '\n'
    ensures forall k :: 0 <= k < i ==> s[k] != '\n'
  {
    if |s| == 0 || s[0] == '\n' then 0 else 1 + LineEnd(s[1..])
  }

  /**
   Splits text into its lines, dropping each line's "\n"; a last line without
   a "\n" is kept, and text ending in "\n" yields no trailing empty line.
   */
  function SplitLines(s: string): (lines: seq<string>)
    ensures AllNoNewline(lines)
    decreases |s|
  {
    if |s| == 0 then []
    else
      var i := LineEnd(s);
      assert NoNewline(s[..i]) by {
        forall k | 0 <= k < i ensures s[..i][k] != '\n' { }
      }
      if i == |s| then [s] else [s[..i]] + SplitLines(s[i + 1..])
  }

  /** The first line break after a line free of breaks is the one that ends it. */
  lemma LineEndAfter(line: string, rest: string)
    requires NoNewline(line)
    ensures LineEnd(line + "\n" + rest) == |line|
  {
    var s := line + "\n" + rest;
    assert s[|line|] == '\n';
    assert forall k :: 0 <= k < |line| ==> s[k] == line[k];
  }

  /** Text made of a break-free line, "\n" and more text splits into that line and the rest's lines. */
  lemma SplitLinesCons(line: string, rest: string)
    requires NoNewline(line)
    ensures SplitLines(line + "\n" + rest) == [line] + SplitLines(rest)
  {
    var s := line + "\n" + rest;
    LineEndAfter(line, rest);
    assert s[..|line|] == line;
    assert s[|line| + 1..] == rest;
  }

  /** Splitting written-out lines gives the lines back. */
  lemma {:induction false} SplitTerminate(lines: seq<string>)
    requires AllNoNewline(lines)
    ensures SplitLines(Terminate(lines)) == lines
  {
    if |lines| > 0 {
      SplitLinesCons(lines[0], Terminate(lines[1..]));
      SplitTerminate(lines[1..]);
      assert lines == [lines[0]] + lines[1..];
    }
  }

  /** Writing out the split lines of text that ends in "\n" (or is empty) gives the text back. */
  lemma {:induction false} TerminateSplit(s: string)
    requires |s| == 0 || s[|s| - 1] == '\n'
    ensures Terminate(SplitLines(s)) == s
    decreases |s|
  {
    if |s| > 0 {
      var i := LineEnd(s);
      assert i < |s|;
      var line, rest := s[..i], s[i + 1..];
      assert s == line + "\n" + rest;
      assert NoNewline(line) by {
        forall k | 0 <= k < i ensures line[k] != '\n' { }
      }
      SplitLinesCons(line, rest);
      TerminateSplit(rest);
      var lines := [line] + SplitLines(rest);
      assert lines[1..] == SplitLines(rest);
      assert Terminate(lines) == line + "\n" + Terminate(SplitLines(rest));
    }
  }

  /** Written-out lines that are free of breaks hold exactly one "\n" per line. */
  lemma {:induction false} TerminateNewlineCount(lines: seq<string>)
    requires AllNoNewline(lines)
    ensures multiset(Terminate(lines))['\n'] == |lines|
  {
    if |lines| > 0 {
      TerminateNewlineCount(lines[1..]);
      assert multiset(lines[0])['\n'] == 0;
      assert Terminate(lines) == lines[0] + "\n" + Terminate(lines[1..]);
    }
  }
}
