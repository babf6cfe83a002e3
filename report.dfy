/** What the page shows and exports once "See my result" is pressed: the
    display name, the share text, the one-row CSV record and its file name.
    The export timestamp is a parameter: reading the clock and formatting
    it is not part of this model. */
module Report {
  import opened PyText
  import opened Quiz

  /** Neither a comma nor a line break: a value that cannot disturb the
      columns or the rows of the CSV record. */
  predicate Plain(s: string)
  {
    ',' !in s && '\n' !in s
  }

  // ---------------------------------------------------------------------
  // Names
  // ---------------------------------------------------------------------

  /** `name.strip() or "You"`: the stripped name, or "You" when nothing but
      whitespace was typed. */
  function DisplayName(name: string): (who: string)
    ensures who != ""
  {
    var stripped := Strip(name);
    if stripped == "" then "You" else stripped
  }

  /** `name or 'Anonymous'`: the raw name unless it is the empty string. */
  function CsvName(name: string): (n: string)
    ensures n != ""
  {
    if name == "" then "Anonymous" else name
  }

  /** The headline greets "You" exactly when the name is blank (empty or
      whitespace only), and otherwise the name with the surrounding
      whitespace removed; either way it neither starts nor ends with
      whitespace. */
  lemma DisplayNameFallback(name: string)
    ensures AllSpace(name) ==> DisplayName(name) == "You"
    ensures !AllSpace(name) ==> DisplayName(name) == Strip(name)
    ensures var who := DisplayName(name); !IsSpace(who[0]) && !IsSpace(who[|who| - 1])
  {
  }

  /** "You" on the headline does not by itself mean the name was blank: a
      user who types "You" is greeted the same way. */
  lemma DisplayNameYouIsAmbiguous()
    ensures DisplayName("You") == "You" && DisplayName(" ") == "You"
    ensures !AllSpace("You")
  {
  }

  /** The headline strips the name but the CSV record does not: a name of
      only whitespace is "You" on the page and written as typed into the
      export. */
  lemma BlankNameKeptInCsv(name: string)
    requires name != "" && AllSpace(name)
    ensures DisplayName(name) == "You"
    ensures CsvName(name) == name
  {
  }

  // ---------------------------------------------------------------------
  // Share text
  // ---------------------------------------------------------------------

  const ShareLead := "I just took a quick Creativity \U{2194} Analytics quiz. Result: **"

  const ShareTail := ".\n\nI believe modern marketing needs both imagination *and* measurement \U{2014} the real edge is knowing when to lean which way.\n\nCurious where you land? Try the quiz here and comment your result."

  /** The tally as the share text writes it: `({a}×A : {b}×B)`. */
  function Tally(a: int, b: int): string
  {
    "(" + IntToString(a) + "\U{00D7}A : " + IntToString(b) + "\U{00D7}B)"
  }

  /** `share_text(name, label, a, b)`, with `textwrap.dedent` and `strip`
      applied to the template by hand (for a label on one line). The name
      is a parameter, as in the source, and is not used. */
  function ShareText(name: string, profile: string, a: int, b: int): string
  {
    ShareLead + profile + ShareRest(a, b)
  }

  /** The share text after the label: the closing bold marker, the tally and
      the two fixed paragraphs. */
  function ShareRest(a: int, b: int): string
  {
    "** " + Tally(a, b) + ShareTail
  }

  /** The share text embeds the label and the tally of both counts. */
  lemma ShareTextMentions(name: string, profile: string, a: int, b: int)
    ensures Contains(ShareText(name, profile, a, b), profile)
    ensures Contains(ShareText(name, profile, a, b), Tally(a, b))
  {
    ContainsMiddle(ShareLead, profile, ShareRest(a, b));
    ContainsMiddle("** ", Tally(a, b), ShareTail);
    ContainsAfter(ShareLead + profile, ShareRest(a, b), Tally(a, b));
  }

  /** The share text is the same whatever name was typed. */
  lemma ShareTextIgnoresName(name1: string, name2: string, profile: string, a: int, b: int)
    ensures ShareText(name1, profile, a, b) == ShareText(name2, profile, a, b)
  {
  }

  // ---------------------------------------------------------------------
  // CSV export
  // ---------------------------------------------------------------------

  const CsvHeader := "name,profile,A_count,B_count,timestamp_utc"

  /** The downloaded file: the fixed header line, then one data line with
      the (unescaped) name, the profile, both counts and the timestamp. */
  function CsvRecord(name: string, profile: string, a: int, b: int, ts: string): string
  {
    CsvHeader + "\n" + DataLine(CsvName(name), profile, IntToString(a), IntToString(b), ts) + "\n"
  }

  /** The data line of the record: the five values separated by commas. */
  function DataLine(name: string, profile: string, sa: string, sb: string, ts: string): string
  {
    name + "," + profile + "," + sa + "," + sb + "," + ts
  }

  /** `quiz_result_{ts}.csv`. */
  function FileName(ts: string): string
  {
    "quiz_result_" + ts + ".csv"
  }

  /** One data row as a reader of the export sees it. */
  datatype CsvRow = CsvRow(name: string, profile: string, aCount: int, bCount: int, timestamp: string)

  /** A reader of the export: the header line, exactly one data line of five
      comma-separated fields with integer counts, and the final line break.
      Anything else is `None`. */
  function ReadCsv(csv: string): Option<CsvRow>
  {
    var lines := Split(csv, '\n');
    if |lines| != 3 || lines[0] != CsvHeader || lines[2] != "" then None
    else
      var f := Split(lines[1], ',');
      if |f| != 5 then None
      else
        match (ParseInt(f[2]), ParseInt(f[3]))
        case (Some(a), Some(b)) => Some(CsvRow(f[0], f[1], a, b, f[4]))
        case _ => None
  }

  /** The data line is the five fields joined by commas. */
  lemma RowIsJoin(n: string, profile: string, sa: string, sb: string, ts: string)
    ensures Join([n, profile, sa, sb, ts], ',') == DataLine(n, profile, sa, sb, ts)
  {
    var f := [n, profile, sa, sb, ts];
    assert [sb, ts][1..] == [ts];
    assert Join([sb, ts], ',') == sb + "," + ts;
    assert [sa, sb, ts][1..] == [sb, ts];
    assert Join([sa, sb, ts], ',') == sa + "," + (sb + "," + ts);
    assert [profile, sa, sb, ts][1..] == [sa, sb, ts];
    assert Join([profile, sa, sb, ts], ',') == profile + "," + (sa + "," + (sb + "," + ts));
    assert f[1..] == [profile, sa, sb, ts];
    assert Join(f, ',') == n + "," + (profile + "," + (sa + "," + (sb + "," + ts)));
  }

  /** Neither the header nor a column name holds a line break. */
  lemma HeaderPlain()
    ensures '\n' !in CsvHeader
  {
  }

  /** The record is the header, the data line and an empty last line. */
  lemma RecordIsLines(name: string, profile: string, a: int, b: int, ts: string)
    ensures CsvRecord(name, profile, a, b, ts)
      == Join([CsvHeader, DataLine(CsvName(name), profile, IntToString(a), IntToString(b), ts), ""], '\n')
  {
    var row := DataLine(CsvName(name), profile, IntToString(a), IntToString(b), ts);
    var lines := [CsvHeader, row, ""];
    assert [row, ""][1..] == [""];
    assert Join([row, ""], '\n') == row + "\n";
    assert lines[1..] == [row, ""];
    assert Join(lines, '\n') == CsvHeader + "\n" + (row + "\n");
  }

  /** A data line without line breaks makes a record of exactly three
      lines: the header, the data line and an empty last line. */
  lemma LinesOfRecord(name: string, profile: string, a: int, b: int, ts: string)
    requires '\n' !in DataLine(CsvName(name), profile, IntToString(a), IntToString(b), ts)
    ensures Split(CsvRecord(name, profile, a, b, ts), '\n')
      == [CsvHeader, DataLine(CsvName(name), profile, IntToString(a), IntToString(b), ts), ""]
  {
    var lines := [CsvHeader, DataLine(CsvName(name), profile, IntToString(a), IntToString(b), ts), ""];
    RecordIsLines(name, profile, a, b, ts);
    HeaderPlain();
    assert Free(lines, '\n');
    SplitJoin(lines, '\n');
  }

  /** A data line made of values without commas or line breaks has no line
      break and splits back into its five values. */
  lemma DataLineFields(name: string, profile: string, a: int, b: int, ts: string)
    requires Plain(name) && Plain(profile) && Plain(ts)
    ensures var fields := [name, profile, IntToString(a), IntToString(b), ts];
      '\n' !in DataLine(name, profile, IntToString(a), IntToString(b), ts)
      && Split(DataLine(name, profile, IntToString(a), IntToString(b), ts), ',') == fields
  {
    var fields := [name, profile, IntToString(a), IntToString(b), ts];
    IntToStringPlain(a);
    IntToStringPlain(b);
    assert Free(fields, ',') && Free(fields, '\n');
    RowIsJoin(name, profile, IntToString(a), IntToString(b), ts);
    JoinAvoids(fields, ',', '\n');
    SplitJoin(fields, ',');
  }

  /** Reading the export back gives the fields that were written, as long as
      the name, the label and the timestamp hold no comma and no line break. */
  lemma CsvRoundTrip(name: string, profile: string, a: int, b: int, ts: string)
    requires Plain(name) && Plain(profile) && Plain(ts)
    ensures ReadCsv(CsvRecord(name, profile, a, b, ts)) == Some(CsvRow(CsvName(name), profile, a, b, ts))
  {
    DataLineFields(CsvName(name), profile, a, b, ts);
    LinesOfRecord(name, profile, a, b, ts);
    ParseIntToString(a);
    ParseIntToString(b);
  }

  /** The name is written unescaped: splitting the data line on commas
      gives the pieces of the name, then the four other values. */
  lemma DataLineSplit(name: string, profile: string, sa: string, sb: string, ts: string)
    requires Plain(profile) && Plain(sa) && Plain(sb) && Plain(ts)
    ensures Split(DataLine(name, profile, sa, sb, ts), ',') == Split(name, ',') + [profile, sa, sb, ts]
  {
    var rest := [profile, sa, sb, ts];
    RowIsJoin(name, profile, sa, sb, ts);
    assert [name, profile, sa, sb, ts] == [name] + rest;
    assert ([name] + rest)[1..] == rest;
    assert DataLine(name, profile, sa, sb, ts) == name + [','] + Join(rest, ',');
    assert Free(rest, ',');
    SplitBeforeJoin(name, ',', rest);
  }

  /** A name holding a comma (and no line break) adds at least one field to
      the data line, and the record no longer reads as one five-column row. */
  lemma CommaInNameBreaksRecord(name: string, profile: string, a: int, b: int, ts: string)
    requires ',' in name && '\n' !in name && Plain(profile) && Plain(ts)
    ensures |Split(DataLine(name, profile, IntToString(a), IntToString(b), ts), ',')| >= 6
    ensures ReadCsv(CsvRecord(name, profile, a, b, ts)) == None
  {
    var sa, sb := IntToString(a), IntToString(b);
    IntToStringPlain(a);
    IntToStringPlain(b);
    assert CsvName(name) == name;
    DataLineSplit(name, profile, sa, sb, ts);
    var i := IndexOf(name, ',');
    assert Split(name, ',') == [name[..i]] + Split(name[i + 1..], ',');
    assert '\n' !in DataLine(name, profile, sa, sb, ts);
    LinesOfRecord(name, profile, a, b, ts);
  }

  // ---------------------------------------------------------------------
  // The result screen
  // ---------------------------------------------------------------------

  /** Everything the "See my result" branch computes. */
  datatype ResultView = ResultView(who: string, score: Score, share: string, csv: string, fileName: string)

  /** The "See my result" branch: score the answers, then build the
      headline name, the share text, the CSV record and its file name from
      the same label and counts and the one timestamp `ts`. */
  function SeeResult(name: string, answers: seq<string>, ts: string): ResultView
  {
    var p := ScoreProfile(answers);
    var profile := LabelName(p.profile);
    ResultView(DisplayName(name), p, ShareText(name, profile, p.a, p.b),
      CsvRecord(name, profile, p.a, p.b, ts), FileName(ts))
  }

  lemma LabelNamesPlain(l: Label)
    ensures Plain(LabelName(l))
  {
  }

  /** For a full answer sheet, the exported profile column is the label the
      classifier chose, the two count columns are its counts and add up to
      ten, the share text names the same label, and the file name carries
      the record's own timestamp. */
  lemma ExportAgreesWithScore(name: string, answers: seq<string>, ts: string)
    requires IsAnswerSheet(answers) && Plain(name) && Plain(ts)
    ensures var v := SeeResult(name, answers, ts);
      && v.score.a + v.score.b == 10
      && ReadCsv(v.csv) == Some(CsvRow(CsvName(name), LabelName(v.score.profile), v.score.a, v.score.b, ts))
      && Contains(v.share, LabelName(v.score.profile))
      && v.fileName == "quiz_result_" + ReadCsv(v.csv).value.timestamp + ".csv"
  {
    var p := ScoreProfile(answers);
    LabelNamesPlain(p.profile);
    CsvRoundTrip(name, LabelName(p.profile), p.a, p.b, ts);
    ShareTextMentions(name, LabelName(p.profile), p.a, p.b);
  }
}
