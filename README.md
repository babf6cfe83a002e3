# Creativity ↔ Analytics quiz: a Dafny model

The quiz is a single Streamlit page (`app.py`). It asks ten fixed A/B
questions. "A" leans creative and "B" leans analytical. The page tallies the
answers with `score_profile` and puts the tally into one of three profiles by
a margin-of-two rule:

- "Creative Maven" when A leads by at least two;
- "Analytical Ace" when B leads by at least two;
- "Hybrid Synthesizer" otherwise.

The result screen greets the user by a display name, offers a share text, and
offers a one-row CSV download.

This project models that logic as pure Dafny functions and proves lemmas about
them. It has three modules:

- `PyText` (`pytext.dfy`) models the Python built-ins the page depends on:
  - `str.strip()`, using Python's `str.isspace` character set written out;
  - `str(int)`, used inside the f-strings.

  It also provides the reading side, used only as the partner of the export:
  - splitting on and joining with a separator character;
  - reading a decimal integer back.
- `Quiz` (`quiz.dfy`) holds:
  - the ten `QUESTIONS` (`Questions`);
  - the three labels;
  - `score_profile` (`ScoreProfile`), built from the A count `CountA` and the
    if/elif chain `Classify`;
  - the counting, order, ten-question and A/B-symmetry properties.
- `Report` (`report.dfy`) holds:
  - the display-name fallback `name.strip() or "You"`;
  - `share_text`;
  - the CSV record with its `name or 'Anonymous'` fallback;
  - the download file name;
  - the whole "See my result" branch (`SeeResult`);
  - a reader of the CSV record (`ReadCsv`), used to state what the export
    means.

Answers are strings, as in the source, so `score_profile` is modelled for any
list. Every entry that is not `"A"` counts towards `b`. `AllAB` describes the
two-option lists the radio buttons actually produce.

Three facts about the page shape the model:

- The page has no question-by-question navigation and no "unanswered" state.
  All ten radios are shown at once and each always holds "A" or "B".
- The page computes `b` as `len(answers) - a`. The
  ten-question facts are therefore stated as lemmas about answer lists of
  length `|Questions|`.
- The headline name is `"You"` whenever the stripped name is empty. It is
  also `"You"` when the user types "You". So "`who` is You" does not imply
  that the name was blank (`DisplayNameYouIsAmbiguous`).

## Model

| member | source | states |
|---|---|---|
| `Quiz.Questions` | app.py:23-34 | the ten prompts with their exact option texts; that there are ten is stated by `Quiz.TenItemLabels` |
| `Quiz.LabelName` | app.py:41-45 | the three label strings; that none holds a comma or a line break is stated by `Report.LabelNamesPlain` |
| `Quiz.CountA` | app.py:38 | the generator sum is the number of entries equal to "A" (their multiplicity in the multiset of answers), at most the length |
| `Quiz.Classify` | app.py:40-45 | Creative Maven iff a >= b + 2; Analytical Ace iff b >= a + 2; Hybrid Synthesizer iff a and b differ by at most one |
| `Quiz.ScoreProfile` | app.py:37-46 | a + b is the length; a counts the "A" entries; b counts every other entry whatever its value; the label satisfies the three margin-of-two conditions |
| `Quiz.CountsAreAB` | app.py:38-39 | when every answer is "A" or "B", b is exactly the number of "B" answers |
| `Quiz.ScoreIgnoresOrder` | app.py:38 | two answer lists that are permutations of each other get the same label and counts |
| `Quiz.ScoreIgnoresBlockOrder` | app.py:38 | answering two blocks in either order scores the same |
| `Quiz.TenItemLabels` | app.py:23-46 | there are ten questions; on a ten-answer list the result is Creative Maven iff a >= 6, Analytical Ace iff a <= 4, and Hybrid Synthesizer iff a == 5 |
| `Quiz.RepeatCounts` | app.py:38 | a list of n copies of one answer holds that answer n times and nothing else |
| `Quiz.SheetScore` | app.py:37-46 | a ten-answer list with k A's followed by B's scores (Classify(k, 10 - k), k, 10 - k) |
| `Quiz.TenItemBoundaries` | app.py:40-45 | 6/4 and 7/3 and 10/0 give Creative Maven, 5/5 gives Hybrid Synthesizer, 4/6 and 0/10 give Analytical Ace |
| `Quiz.CountASwapped` | app.py:38-39 | on an A/B list, exchanging A and B turns the A count into the length minus the A count |
| `Quiz.ScoreSymmetric` | app.py:37-46 | on an A/B list, exchanging every A and B swaps a and b, exchanges Creative Maven and Analytical Ace, and keeps Hybrid Synthesizer |
| `Quiz.SymmetryNeedsTwoOptions` | app.py:38-39 | for every value x other than "A" and "B", the exchange leaves x alone, and the one-answer list [x] breaks the equation of `ScoreSymmetric`, so the symmetry needs the two-option alphabet |
| `PyText.SkipSpace` | app.py:80 | the left end of the strip scan: everything skipped is whitespace, and it stops at the first non-whitespace character or at the end |
| `PyText.SkipSpaceBack` | app.py:80 | the right end of the strip scan: everything skipped is whitespace, and it stops after the last non-whitespace character or at the left end |
| `PyText.Strip` | app.py:80 | `str.strip()`; what it returns is stated by `PyText.StripIsInfix` and the other `Strip` lemmas |
| `PyText.StripIsInfix` | app.py:80 | `strip()` returns an infix `s[i..j]` such that everything before i and from j on is whitespace, and the infix neither starts nor ends with whitespace |
| `PyText.StripTrimmed` | app.py:80 | a non-empty `strip()` result neither starts nor ends with whitespace |
| `PyText.StripKeepsTrimmed` | app.py:80 | a string with no leading or trailing whitespace is its own `strip()` |
| `PyText.StripEmptyIff` | app.py:80 | `strip()` is empty iff the string is all whitespace |
| `PyText.StripIdempotent` | app.py:80 | stripping twice equals stripping once |
| `PyText.NatToString` | app.py:98 | the decimal numeral is non-empty, all digits, and has a leading zero only for 0 |
| `PyText.IntToString` | app.py:98 | `str(int)` starts with '-' iff the value is negative, and the rest is digits |
| `PyText.ParseNatToString` | app.py:98 | reading back a written natural number gives the number |
| `PyText.ParseIntToString` | app.py:98 | reading back `str(i)` gives i, so the count columns carry the counts exactly |
| `PyText.IntToStringPlain` | app.py:98 | `str(int)` never writes a comma or a line break |
| `PyText.SplitCons` | app.py:98 | a piece without the separator, followed by the separator, splits off as the first piece, and the rest splits as before |
| `PyText.SplitAppend` | app.py:98 | splitting at one separator gives the pieces of the left part followed by the pieces of the right part |
| `PyText.SplitBeforeJoin` | app.py:98 | a string, the separator and a join of separator-free pieces split into the string's pieces followed by those pieces |
| `PyText.SplitJoin` | app.py:98 | splitting comma-joined fields gives the fields back when none holds the separator |
| `PyText.JoinSplit` | app.py:98 | joining the pieces of a split gives the original string |
| `Report.DisplayName` | app.py:80 | the headline name is never empty |
| `Report.DisplayNameFallback` | app.py:80 | a blank name (empty or whitespace only) shows as "You"; any other name shows stripped; either way the name has no surrounding whitespace |
| `Report.DisplayNameYouIsAmbiguous` | app.py:80 | the names "You" and " " both show as "You", and only the second is blank |
| `Report.CsvName` | app.py:98 | the exported name is never empty |
| `Report.BlankNameKeptInCsv` | app.py:80-98 | a non-empty whitespace-only name is "You" on the page but is exported unchanged, because the CSV does not strip |
| `Report.Tally` | app.py:50 | the `({a}×A : {b}×B)` tally; that the share text contains it is stated by `Report.ShareTextMentions` |
| `Report.ShareText` | app.py:48-56 | `share_text`; its contract is carried by `Report.ShareTextMentions` and `Report.ShareTextIgnoresName` |
| `Report.ShareTextMentions` | app.py:48-56 | the share text contains the label, and contains the tally `({a}×A : {b}×B)` with both counts |
| `Report.ShareTextIgnoresName` | app.py:48-56 | the share text is the same whatever name is passed |
| `Report.CsvRecord` | app.py:98 | the CSV text; its meaning is stated by `Report.CsvRoundTrip` against `Report.ReadCsv`, and its shape by `Report.RecordIsLines` |
| `Report.DataLine` | app.py:98 | the data line; `Report.RowIsJoin` states that it is the comma-join of its five values |
| `Report.FileName` | app.py:99 | `quiz_result_{ts}.csv`; `Report.ExportAgreesWithScore` states that it carries the record's timestamp |
| `Report.RecordIsLines` | app.py:98 | the record is the header line, the comma-joined data line, and a final line break |
| `Report.RowIsJoin` | app.py:98 | the data line is the five values joined by commas |
| `Report.LinesOfRecord` | app.py:98 | a data line without line breaks makes the record split into exactly the header, the data line and an empty last line |
| `Report.DataLineFields` | app.py:98 | a data line of values without commas or line breaks holds no line break and splits on commas into exactly its five values |
| `Report.CsvRoundTrip` | app.py:98 | when name, label and timestamp hold no comma or line break, the record reads back as exactly one row: the name ("Anonymous" for an empty name), the label, both counts and the timestamp |
| `Report.DataLineSplit` | app.py:98 | the name is written unescaped: the data line splits on commas into the pieces of the name followed by the profile, both counts and the timestamp |
| `Report.CommaInNameBreaksRecord` | app.py:98 | the name is not escaped, so any name with at least one comma (and no line break) yields six or more fields and the record no longer reads as a five-column row |
| `Report.SeeResult` | app.py:78-99 | the "See my result" branch; its contract is carried by `Report.ExportAgreesWithScore` |
| `Report.ExportAgreesWithScore` | app.py:78-99 | for a ten-answer A/B sheet, the counts sum to ten; the exported profile and count columns are the classifier's label and counts; the share text names the same label; the file name carries the record's timestamp |

## Left out

- Streamlit rendering and event capture are not modelled. This covers
  `st.set_page_config`, `st.title`, `st.text_input`, `st.radio`, `st.button`,
  `st.success`, `st.code` and `st.download_button`. These are UI calls. The
  answer list they produce is a parameter of the model.
- The loop that collects one radio value per question (app.py:66-75) is left
  out. It is UI glue. Because an untouched radio shows its first option, each
  answer is "A" or "B". That is Streamlit behaviour, so `AllAB` and
  `IsAnswerSheet` state it as an assumption about the input.
- The export timestamp is the parameter `ts`. The model does not read the
  clock (`datetime.utcnow().strftime(...)`). The round-trip lemmas need only
  that `ts` holds no comma or line break, which the `%Y-%m-%d_%H%M%S` format
  guarantees.
- `RESULT_BLURBS`, the intro text, the result-card lines and the captions
  (app.py:13-20, 81-89) are not modelled. They are fixed display text keyed
  by the three labels.
- ShareText: `textwrap.dedent` and `.strip()` are applied to the template by
  hand. This is exact only for a label without a line break, because such a
  break would change dedent's common margin. The label always comes from
  `score_profile`, so it never holds one. The contract states only that the
  label and the tally are embedded and that the name is ignored. It does not
  state the exact whitespace.
- CsvRecord: the source does not escape the name, and neither does the
  model. The five-column reading is proved for names without a comma or a
  line break, and any name with a comma (and no line break) is proved to
  break it. A name with a line break is not covered either way.
- The model has no navigation, clear or restart state machine and no
  "unanswered" answer value. The source contains none of these.
