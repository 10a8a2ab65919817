# Completeness checklist renderer

This project models the renderer behind `_convert_checks_into_output_message`,
as used by the great_expectations rule authoring tools. The renderer turns an
ordered list of checks into a plain-text "completeness checklist". Each check
has a message, a `passed` flag and an optional list of `sub_messages`.
The output consists of:

- a header line, `Completeness checklist for <rule name>:`;
- one line per top-level check: ` ✔ ` before the message when the check passed, three spaces otherwise;
- right after its parent, one line per sub-check: `    ✔ ` before the message when passed, six spaces otherwise;
- a `"\n"` after every line, the last one included.

Only the test file of the renderer is part of this model, so the model is
built from what its assertions pin down. There are five modules:

- `Text` (text.dfy) writes out lines with a terminating `"\n"` each (`Terminate`). Its inverse is `SplitLines`.
- `Checklist` (checklist.dfy) holds:
  - the `Check` datatype;
  - the markers;
  - the rendered lines (`Rows`) and the rendered text (`Render`);
  - a reference description of the layout as a pre-order list of `Entry` values (depth, flag, message), each laid out as indentation, then marker, then message.
- `RenderProperties` (properties.dfy) proves the format properties: header, order, line count, no blank lines, markers, and that nested sub-checks are ignored.
- `OutputMessage` (convert.dfy) is an imperative, line-by-line construction of the message. It starts from the header and appends one `"\n"`-terminated line per check and per sub-check. It is proved equal to `Render`.
- `Iterations` (iterations.dfy) covers the four concrete checklists of the test file. Each is proved to render to the asserted text.

Sub-checks sit three columns deeper than top-level checks, not four. The
asserted strings place a sub-check's mark at column 4 and its message at
column 6, while a top-level check has them at columns 1 and 3. The model
follows the asserted strings (`Checklist.SubMarkerNests`).

## Model

| member | source | states |
|---|---|---|
| Checklist.Marker | tests/expectations/test_generate_diagnostic_checklist.py:28-30 | a top-level marker is three characters wide, blank at both ends, and its middle column is the check mark when the check passed and a space otherwise, so passed and unpassed messages start in the same column |
| Checklist.SubMarker | tests/expectations/test_generate_diagnostic_checklist.py:31-32 | a sub-check marker is six characters wide, four spaces, then the check mark when the sub-check passed and a space otherwise, then a space |
| Checklist.MarkerShowsPass | tests/expectations/test_generate_diagnostic_checklist.py:28-32 | the check mark occurs anywhere in a top-level or sub-check marker if and only if that check passed |
| Checklist.SubMarkerNests | tests/expectations/test_generate_diagnostic_checklist.py:28-32 | a sub-check's marker is the top-level marker for the same flag pushed three columns to the right |
| Checklist.SubRows | tests/expectations/test_generate_diagnostic_checklist.py:30-32 | the sub-check lines are one per sub-check, in input order, each laid out from that sub-check's own flag and message |
| Checklist.CheckRows | tests/expectations/test_generate_diagnostic_checklist.py:30-32 | a check contributes its own line first, then the lines of its sub-checks right after it and in order; no sub-check line depends on the parent's flag |
| Checklist.BodyRows | tests/expectations/test_generate_diagnostic_checklist.py:8-32 | the lines after the header number one per check plus one per sub-check, and each is at least three characters long |
| Checklist.Rows | tests/expectations/test_generate_diagnostic_checklist.py:27-32 | the first line is the header naming the rule, the count is 1 + checks + sub-checks, and no line is empty |
| Checklist.Render | tests/expectations/test_generate_diagnostic_checklist.py:26-33 | the output is longer than the header and always ends in "\n" |
| Checklist.RenderStartsWithHeader | tests/expectations/test_generate_diagnostic_checklist.py:26-27 | the output begins with "Completeness checklist for " + rule name + ":" and its "\n" |
| Checklist.RenderTerminatesRows | tests/expectations/test_generate_diagnostic_checklist.py:26-33 | the output is the header line and then every check and sub-check line, each followed by one "\n" |
| Checklist.BodyRowsAreEntryRows | tests/expectations/test_generate_diagnostic_checklist.py:8-32 | the lines after the header agree with an independent pre-order description: each top-level check at depth 0, then each of its sub-checks at depth 1, and each line is three columns of indentation per depth, then the marker of that entry's own flag, then its message |
| Text.SplitTerminate | tests/expectations/test_generate_diagnostic_checklist.py:26-33 | splitting written-out break-free lines at "\n" gives back exactly those lines |
| Text.TerminateSplit | tests/expectations/test_generate_diagnostic_checklist.py:26-33 | text that is empty or ends in "\n" is exactly its split lines written out again |
| Text.TerminateSingleFinalNewline | tests/expectations/test_generate_diagnostic_checklist.py:32-33 | written-out lines whose last line is non-empty and break-free end in exactly one "\n" |
| Text.TerminateNewlineCount | tests/expectations/test_generate_diagnostic_checklist.py:26-33 | written-out break-free lines hold exactly one "\n" per line |
| RenderProperties.RenderEmpty | tests/expectations/test_generate_diagnostic_checklist.py:26-27 | an empty checklist renders as the header line and its "\n" alone |
| RenderProperties.BodyRowsAppend | tests/expectations/test_generate_diagnostic_checklist.py:8-32 | the lines of two lists of checks, one after the other, are the first list's lines followed by the second's |
| RenderProperties.RenderAppend | tests/expectations/test_generate_diagnostic_checklist.py:8-33 | order preservation: rendering a + b renders a and then appends the lines of b, with nothing sorted, dropped or moved |
| RenderProperties.BodyRowsSingle | tests/expectations/test_generate_diagnostic_checklist.py:28-32 | a one-check list's lines are that check's line followed by its sub-check lines |
| RenderProperties.RenderLeaf | tests/expectations/test_generate_diagnostic_checklist.py:28-29 | a check without sub_messages contributes exactly one line: " ✔ " + message + "\n" when passed, three spaces + message + "\n" otherwise |
| RenderProperties.RenderCons | tests/expectations/test_generate_diagnostic_checklist.py:27-33 | the output is the header, then the first check's lines, then the rest's lines |
| RenderProperties.RenderLines | tests/expectations/test_generate_diagnostic_checklist.py:40-45 | when the rule name and messages hold no line break, the output splits into exactly the header and one line per check and per sub-check, 1 + checks + sub-checks lines, with as many "\n" characters |
| RenderProperties.RenderHasNoBlankLines | tests/expectations/test_generate_diagnostic_checklist.py:26-33 | the output is its own split lines written back out; when the rule name and messages hold no line break, none of those lines is empty and the output ends in a single "\n", with no empty line after the last check |
| RenderProperties.RenderEndsInSingleNewline | tests/expectations/test_generate_diagnostic_checklist.py:32-33 | when the rule name and messages hold no line break, the character before the output's final "\n" is not a line break, so the last check's line ends the text with a single "\n" |
| RenderProperties.RowMarkers | tests/expectations/test_generate_diagnostic_checklist.py:28-32 | line i + 1 is entry i's indentation, marker and message, entries are at most one level deep, and the mark sits at column 3 * depth + 1 exactly when that entry itself passed |
| RenderProperties.EntryDepths | tests/expectations/test_generate_diagnostic_checklist.py:30-32 | every rendered entry is a top-level check or a direct sub-check |
| RenderProperties.RenderIgnoresGrandchildren | tests/expectations/test_generate_diagnostic_checklist.py:17-32 | only one level of sub-checks is rendered: removing every sub-check's own sub-checks does not change the output |
| OutputMessage.RenderSnoc | tests/expectations/test_generate_diagnostic_checklist.py:27-33 | the rendering of one more check appends that check's line and its sub-check lines |
| OutputMessage.AppendSubLines | tests/expectations/test_generate_diagnostic_checklist.py:30-32 | appending sub-check lines one at a time, each with its "\n", gives the written-out sub-check lines |
| OutputMessage.ConvertChecksIntoOutputMessage | tests/expectations/test_generate_diagnostic_checklist.py:26-33 | building the message line by line (header, then each check's line followed by its sub-check lines) produces exactly the rendered checklist |
| Iterations.RenderSampleChecks | tests/expectations/test_generate_diagnostic_checklist.py:8-33 | the test's checklist AAA (passed), BBB, and CCC with sub-checks ddd (passed) and eee renders to exactly the asserted six lines |
| Iterations.RenderFirstIteration | tests/expectations/test_generate_diagnostic_checklist.py:35-45 | the first iteration's four unpassed checks render as the header followed by four lines, each three spaces and the check's message |
| Iterations.RenderSecondIteration | tests/expectations/test_generate_diagnostic_checklist.py:47-60 | the second iteration's checklist renders to the asserted eight lines, with the three passed test cases nested under the unpassed example check |
| Iterations.RenderThirdIteration | tests/expectations/test_generate_diagnostic_checklist.py:62-75 | the third iteration's checklist renders to the asserted eight lines under the third variant's name |
| Iterations.RenderNoChecks | tests/expectations/test_generate_diagnostic_checklist.py:26-27 | a rule with no checks renders its header line alone |

## Left out

- How each rule variant decides its checks and their `passed` flags is not modelled. This covers docstring inspection, `library_metadata`, running the example test cases, and Execution Engines. The implementation behind `generate_diagnostic_checklist` is not part of this model. The three iteration checklists are therefore taken as given snapshots (`Iterations.FirstIteration`, `SecondIteration`, `ThirdIteration`).
- The rule name is a parameter. In the source it is the class name of the rule object, found by reflection.
- `print(output_message)` is left out, because it is console output.
- Sub-checks of sub-checks are never rendered and never exercised. The model keeps them in the datatype and proves that they are ignored (`RenderProperties.RenderIgnoresGrandchildren`).
- RenderProperties.RenderLines: the line-count and split properties require every message and the rule name to be free of `"\n"`. A message with a line break would add lines.
- Iterations.RenderFirstIteration: the expected text is stated as the asserted lines, each written as marker + message, joined by `Text.Terminate`, rather than as one string literal. `Terminate` writes each line followed by `"\n"`, so this is the same text. `Iterations.RenderSampleChecks` states its text as a concatenation of string literals, one per asserted line.
- Iterations.RenderSecondIteration: as for the first iteration, the expected lines are written as marker + message and joined by `Text.Terminate`.
- Iterations.RenderThirdIteration: as for the first iteration, the expected lines are written as marker + message and joined by `Text.Terminate`.
- Unicode is taken at the level of code points. The check mark is the single character U+2714, and no byte encoding is modelled.
