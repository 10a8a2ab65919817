/**
 The checklists reported by the three completeness levels of the
 `ExpectColumnValuesToEqualThree` rule, taken as given snapshots, and the
 exact text each one renders to.
 */
module Iterations {
  import opened Text
  import opened Checklist
  import RenderProperties

  /** A check reported without `sub_messages`. */
  function Leaf(message: string, passed: bool): Check {
    Check(message, passed, [])
  }

  const MetadataCheck := "library_metadata object exists"
  const DocstringCheck := "Has a docstring, including a one-line short description"
  const ExamplesCheck := "Has at least one positive and negative example case, and all test cases pass"
  const CoreLogicCheck := "Core logic exists and passes tests on at least one Execution Engine"

  /** The hand-written checklist of the renderer's own test. */
  function SampleChecks(): seq<Check> {
    [ Leaf("AAA", true),
      Leaf("BBB", false),
      Check("CCC", false, [Leaf("ddd", true), Leaf("eee", false)]) ]
  }

  /** First iteration: nothing passes and no check carries sub-checks. */
  function FirstIteration(): seq<Check> {
    [ Leaf(MetadataCheck, false),
      Leaf(DocstringCheck, false),
      Leaf(ExamplesCheck, false),
      Leaf(CoreLogicCheck, false) ]
  }

  /**
   Second iteration: metadata and core logic pass, and the example check
   (itself unpassed) lists its three passing test cases.
   */
  function SecondIteration(): seq<Check> {
    [ Leaf(MetadataCheck, true),
      Leaf(DocstringCheck, false),
      Check(ExamplesCheck, false,
            [ Leaf("positive_test_with_mostly", true),
              Leaf("negative_test_with_mostly", true),
              Leaf("other_negative_test_with_mostly", true) ]),
      Leaf(CoreLogicCheck, true) ]
  }

  /** Third iteration: reports the same checklist as the second. */
  function ThirdIteration(): seq<Check> {
    SecondIteration()
  }

  /** The body of three checks is their lines one after another. */
  lemma BodyRowsOfThree(c0: Check, c1: Check, c2: Check)
    ensures BodyRows([c0, c1, c2]) == CheckRows(c0) + CheckRows(c1) + CheckRows(c2)
  {
    assert [c0, c1, c2] == ([c0] + [c1]) + [c2];
    RenderProperties.BodyRowsAppend([c0] + [c1], [c2]);
    RenderProperties.BodyRowsAppend([c0], [c1]);
    RenderProperties.BodyRowsSingle(c0);
    RenderProperties.BodyRowsSingle(c1);
    RenderProperties.BodyRowsSingle(c2);
  }

  /** The body of four checks is their lines one after another. */
  lemma BodyRowsOfFour(c0: Check, c1: Check, c2: Check, c3: Check)
    ensures BodyRows([c0, c1, c2, c3]) == CheckRows(c0) + CheckRows(c1) + CheckRows(c2) + CheckRows(c3)
  {
    assert [c0, c1, c2, c3] == [c0, c1, c2] + [c3];
    RenderProperties.BodyRowsAppend([c0, c1, c2], [c3]);
    BodyRowsOfThree(c0, c1, c2);
    RenderProperties.BodyRowsSingle(c3);
  }

  // ---------------------------------------------------------------------
  // The renderer's own test, as the exact output text
  // ---------------------------------------------------------------------

  lemma SampleRows()
    ensures Rows("ExpectColumnValuesToEqualThree", SampleChecks()) ==
      [ "Completeness checklist for " + "ExpectColumnValuesToEqualThree" + ":",
        " \U{2714} AAA",
        "   BBB",
        "   CCC",
        "    \U{2714} ddd",
        "      eee" ]
  {
    var cs := SampleChecks();
    BodyRowsOfThree(cs[0], cs[1], cs[2]);
    assert TopRow(cs[0]) == " \U{2714} AAA";
    assert TopRow(cs[1]) == "   BBB";
    assert TopRow(cs[2]) == "   CCC";
    assert SubRow(cs[2].subs[0]) == "    \U{2714} ddd";
    assert SubRow(cs[2].subs[1]) == "      eee";
    assert CheckRows(cs[2]) == ["   CCC", "    \U{2714} ddd", "      eee"];
  }

  lemma Regroup5(h: string, a: string, b: string, c: string, d: string, e: string)
    ensures h + (a + b + c + d + e) == h + a + b + c + d + e
  {
  }

  lemma SampleBodyText()
    ensures Terminate([" \U{2714} AAA", "   BBB", "   CCC", "    \U{2714} ddd", "      eee"])
         == " \U{2714} AAA\n" + "   BBB\n" + "   CCC\n" + "    \U{2714} ddd\n" + "      eee\n"
  {
    var lines := [" \U{2714} AAA", "   BBB", "   CCC", "    \U{2714} ddd", "      eee"];
    assert lines[1..][1..][1..][1..][1..] == [];
  }

  lemma SampleText()
    ensures Terminate(
      [ "Completeness checklist for " + "ExpectColumnValuesToEqualThree" + ":",
        " \U{2714} AAA",
        "   BBB",
        "   CCC",
        "    \U{2714} ddd",
        "      eee" ]) ==
      "Completeness checklist for " + "ExpectColumnValuesToEqualThree" + ":\n"
      + " \U{2714} AAA\n"
      + "   BBB\n"
      + "   CCC\n"
      + "    \U{2714} ddd\n"
      + "      eee\n"
  {
    var h := "Completeness checklist for " + "ExpectColumnValuesToEqualThree";
    var lines := [" \U{2714} AAA", "   BBB", "   CCC", "    \U{2714} ddd", "      eee"];
    var t := " \U{2714} AAA\n" + "   BBB\n" + "   CCC\n" + "    \U{2714} ddd\n" + "      eee\n";
    SampleBodyText();
    assert ([h + ":"] + lines)[1..] == lines;
    assert Terminate([h + ":"] + lines) == h + ":" + "\n" + t;
    assert h + ":" + "\n" == h + ":\n";
    Regroup5(h + ":\n", " \U{2714} AAA\n", "   BBB\n", "   CCC\n", "    \U{2714} ddd\n", "      eee\n");
    assert [h + ":"] + lines ==
      [ "Completeness checklist for " + "ExpectColumnValuesToEqualThree" + ":",
        " \U{2714} AAA",
        "   BBB",
        "   CCC",
        "    \U{2714} ddd",
        "      eee" ];
  }

  /** The renderer's own test: a mixed checklist with one nested block. */
  lemma RenderSampleChecks()
    ensures Render("ExpectColumnValuesToEqualThree", SampleChecks()) ==
      "Completeness checklist for " + "ExpectColumnValuesToEqualThree" + ":\n"
      + " \U{2714} AAA\n"
      + "   BBB\n"
      + "   CCC\n"
      + "    \U{2714} ddd\n"
      + "      eee\n"
  {
    RenderTerminatesRows("ExpectColumnValuesToEqualThree", SampleChecks());
    SampleRows();
    SampleText();
  }

  // ---------------------------------------------------------------------
  // The three completeness levels, line by line: each expected line is
  // written as its marker followed by its message
  // ---------------------------------------------------------------------

  lemma FirstRows()
    ensures BodyRows(FirstIteration()) ==
      [ "   " + "library_metadata object exists",
        "   " + "Has a docstring, including a one-line short description",
        "   " + "Has at least one positive and negative example case, and all test cases pass",
        "   " + "Core logic exists and passes tests on at least one Execution Engine" ]
  {
    var cs := FirstIteration();
    BodyRowsOfFour(cs[0], cs[1], cs[2], cs[3]);
  }

  /** The first iteration's checklist: four unpassed checks, no nested block. */
  lemma RenderFirstIteration()
    ensures Render("ExpectColumnValuesToEqualThree", FirstIteration()) == Terminate(
      [ "Completeness checklist for " + "ExpectColumnValuesToEqualThree" + ":",
        "   " + "library_metadata object exists",
        "   " + "Has a docstring, including a one-line short description",
        "   " + "Has at least one positive and negative example case, and all test cases pass",
        "   " + "Core logic exists and passes tests on at least one Execution Engine" ])
  {
    RenderTerminatesRows("ExpectColumnValuesToEqualThree", FirstIteration());
    FirstRows();
  }

  lemma ExamplesRows()
    ensures CheckRows(SecondIteration()[2]) ==
      [ "   " + "Has at least one positive and negative example case, and all test cases pass",
        "    \U{2714} " + "positive_test_with_mostly",
        "    \U{2714} " + "negative_test_with_mostly",
        "    \U{2714} " + "other_negative_test_with_mostly" ]
  {
    var subs := SecondIteration()[2].subs;
    assert SubRows(subs) == [SubRow(subs[0]), SubRow(subs[1]), SubRow(subs[2])];
  }

  lemma SecondRows()
    ensures BodyRows(SecondIteration()) ==
      [ " \U{2714} " + "library_metadata object exists",
        "   " + "Has a docstring, including a one-line short description",
        "   " + "Has at least one positive and negative example case, and all test cases pass",
        "    \U{2714} " + "positive_test_with_mostly",
        "    \U{2714} " + "negative_test_with_mostly",
        "    \U{2714} " + "other_negative_test_with_mostly",
        " \U{2714} " + "Core logic exists and passes tests on at least one Execution Engine" ]
  {
    var cs := SecondIteration();
    BodyRowsOfFour(cs[0], cs[1], cs[2], cs[3]);
    assert CheckRows(cs[0]) == [" \U{2714} " + MetadataCheck];
    assert CheckRows(cs[1]) == ["   " + DocstringCheck];
    ExamplesRows();
    assert CheckRows(cs[3]) == [" \U{2714} " + CoreLogicCheck];
  }

  /** The second iteration's checklist: passed checks, and one nested block of passed test cases. */
  lemma RenderSecondIteration()
    ensures Render("ExpectColumnValuesToEqualThree__SecondIteration", SecondIteration()) == Terminate(
      [ "Completeness checklist for " + "ExpectColumnValuesToEqualThree__SecondIteration" + ":",
        " \U{2714} " + "library_metadata object exists",
        "   " + "Has a docstring, including a one-line short description",
        "   " + "Has at least one positive and negative example case, and all test cases pass",
        "    \U{2714} " + "positive_test_with_mostly",
        "    \U{2714} " + "negative_test_with_mostly",
        "    \U{2714} " + "other_negative_test_with_mostly",
        " \U{2714} " + "Core logic exists and passes tests on at least one Execution Engine" ])
  {
    RenderTerminatesRows("ExpectColumnValuesToEqualThree__SecondIteration", SecondIteration());
    SecondRows();
  }

  /** The third iteration's checklist: the second iteration's lines under the third variant's name. */
  lemma RenderThirdIteration()
    ensures Render("ExpectColumnValuesToEqualThree__ThirdIteration", ThirdIteration()) == Terminate(
      [ "Completeness checklist for " + "ExpectColumnValuesToEqualThree__ThirdIteration" + ":",
        " \U{2714} " + "library_metadata object exists",
        "   " + "Has a docstring, including a one-line short description",
        "   " + "Has at least one positive and negative example case, and all test cases pass",
        "    \U{2714} " + "positive_test_with_mostly",
        "    \U{2714} " + "negative_test_with_mostly",
        "    \U{2714} " + "other_negative_test_with_mostly",
        " \U{2714} " + "Core logic exists and passes tests on at least one Execution Engine" ])
  {
    RenderTerminatesRows("ExpectColumnValuesToEqualThree__ThirdIteration", ThirdIteration());
    SecondRows();
  }

  /** An empty checklist renders as its header line alone. */
  lemma RenderNoChecks()
    ensures Render("X", []) == "Completeness checklist for X:\n"
  {
    RenderProperties.RenderEmpty("X");
    assert "Completeness checklist for " + "X" + ":\n" == "Completeness checklist for X:\n";
  }
}
