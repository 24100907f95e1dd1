/**
 * The dashboard's reading of the published scouting sheet: its CSV line
 * splitter, the mapping of each line onto the header row, the grouping of
 * rows by team with a match count, and the picklist toggle.
 */
module Analysis {
  import opened Wrappers
  import opened Text
  import opened Collections
  import ChipSelect

  // ---------------------------------------------------------------------
  // parseCSVLine
  // ---------------------------------------------------------------------

  /** The splitter's state after some characters: the fields closed so far, the open field, and whether a quote is open. */
  datatype ScanState = ScanState(fields: seq<string>, current: string, inQuotes: bool)

  const START := ScanState([], "", false)

  /**
   * One character of the splitter: a quote toggles quoted mode and is
   * dropped, a comma outside quotes closes the open field (trimmed), and
   * anything else, a comma inside quotes included, joins the open field.
   */
  function Step(st: ScanState, c: char): ScanState {
    if c == '"' then st.(inQuotes := !st.inQuotes)
    else if c == ',' && !st.inQuotes then ScanState(st.fields + [Trim(st.current)], "", st.inQuotes)
    else st.(current := st.current + [c])
  }

  /** The splitter's state after reading `line` from the left. */
  function Scan(line: string): ScanState {
    if |line| == 0 then START else Step(Scan(line[..|line| - 1]), line[|line| - 1])
  }

  /** `parseCSVLine`: the closed fields, then the last open field, trimmed. */
  function CsvFields(line: string): seq<string> {
    var st := Scan(line);
    st.fields + [Trim(st.current)]
  }

  /** `parseCSVLine`, as the character loop the page runs. */
  method ParseCsvLine(line: string) returns (result: seq<string>)
    ensures result == CsvFields(line)
  {
    result := [];
    var current := "";
    var inQuotes := false;
    for i := 0 to |line|
      invariant ScanState(result, current, inQuotes) == Scan(line[..i])
    {
      var c := line[i];
      assert line[..i + 1][..i] == line[..i];
      if c == '"' {
        inQuotes := !inQuotes;
      } else if c == ',' && !inQuotes {
        result := result + [Trim(current)];
        current := "";
      } else {
        current := current + [c];
      }
    }
    assert line[..|line|] == line;
    result := result + [Trim(current)];
  }

  /** The number of commas in `line` that sit after an even number of quotes, that is, outside quotes. */
  function CommasOutsideQuotes(line: string): nat {
    if |line| == 0 then 0
    else
      var prefix := line[..|line| - 1];
      CommasOutsideQuotes(prefix) + (if line[|line| - 1] == ',' && Count(prefix, '"') % 2 == 0 then 1 else 0)
  }

  /** Quoted mode is open exactly after an odd number of quotes. */
  lemma {:induction false} ScanQuotes(line: string)
    ensures Scan(line).inQuotes <==> Count(line, '"') % 2 == 1
  {
    if |line| > 0 {
      var prefix, c := line[..|line| - 1], line[|line| - 1];
      ScanQuotes(prefix);
      StepQuotes(Scan(prefix), c);
      assert Count(line, '"') == Count(prefix, '"') + (if c == '"' then 1 else 0);
    }
  }

  /** Only a quote changes quoted mode. */
  lemma StepQuotes(st: ScanState, c: char)
    ensures Step(st, c).inQuotes == (if c == '"' then !st.inQuotes else st.inQuotes)
  {
  }

  /** Each comma outside quotes has closed one field. */
  lemma {:induction false} ScanFieldCount(line: string)
    ensures |Scan(line).fields| == CommasOutsideQuotes(line)
  {
    if |line| > 0 {
      var prefix := line[..|line| - 1];
      ScanFieldCount(prefix);
      ScanQuotes(prefix);
    }
  }

  /** `parseCSVLine` returns one field more than there are commas outside quotes, so never none. */
  lemma FieldCount(line: string)
    ensures |CsvFields(line)| == 1 + CommasOutsideQuotes(line)
  {
    ScanFieldCount(line);
  }

  /** Every field is free of quotes and has no whitespace at its ends. */
  predicate CleanField(f: string) {
    Free(f, '"') && Trimmed(f)
  }

  lemma TrimKeepsFree(s: string, c: char)
    requires Free(s, c)
    ensures Free(Trim(s), c)
  {
    var r := Trim(s);
    var k := TrimOffset(s);
    forall i | 0 <= i < |r|
      ensures r[i] != c
    {
      assert r[i] == s[k + i];
    }
  }

  lemma {:induction false} ScanClean(line: string)
    ensures CleanState(Scan(line))
  {
    if |line| > 0 {
      ScanClean(line[..|line| - 1]);
      StepClean(Scan(line[..|line| - 1]), line[|line| - 1]);
    }
  }

  /** The state the splitter keeps clean stays clean after one more character. */
  predicate CleanState(st: ScanState) {
    Free(st.current, '"') && forall k :: 0 <= k < |st.fields| ==> CleanField(st.fields[k])
  }

  lemma StepClean(st: ScanState, c: char)
    requires CleanState(st)
    ensures CleanState(Step(st, c))
  {
    if c != '"' && c == ',' && !st.inQuotes {
      TrimKeepsFree(st.current, '"');
      var fs := st.fields + [Trim(st.current)];
      assert forall k :: 0 <= k < |st.fields| ==> fs[k] == st.fields[k];
    }
  }

  /** The quote character never reaches a field, and each field is trimmed. */
  lemma FieldsClean(line: string)
    ensures forall k :: 0 <= k < |CsvFields(line)| ==> CleanField(CsvFields(line)[k])
  {
    ScanClean(line);
    TrimKeepsFree(Scan(line).current, '"');
  }

  lemma {:induction false} ScanQuoted(s: string)
    requires Free(s, '"')
    ensures Scan("\"" + s) == ScanState([], s, true)
  {
    if |s| > 0 {
      var t := "\"" + s;
      assert t[..|t| - 1] == "\"" + s[..|s| - 1];
      ScanQuoted(s[..|s| - 1]);
      assert s[..|s| - 1] + [s[|s| - 1]] == s;
    } else {
      assert "\"" + s == "\"";
      assert "\""[..0] == "";
    }
  }

  /**
   * A field wrapped in quotes comes out whole: commas inside it stay part
   * of it, and only the surrounding whitespace is removed.
   */
  lemma QuotedField(s: string)
    requires Free(s, '"')
    ensures CsvFields("\"" + s + "\"") == [Trim(s)]
  {
    var t := "\"" + s + "\"";
    assert t[..|t| - 1] == "\"" + s;
    ScanQuoted(s);
  }

  // ---------------------------------------------------------------------
  // parseCSVData: lines and rows
  // ---------------------------------------------------------------------

  /** `csvText.trim().split('\n')`. */
  function Lines(text: string): (r: seq<string>)
    ensures |r| >= 1
  {
    Split(Trim(text), '\n')
  }

  /** A row object: header to value. */
  type Row = map<string, string>

  /** `values[index] || ''`: a missing value becomes the empty string. */
  function ValueAt(values: seq<string>, i: nat): string {
    if i < |values| then values[i] else ""
  }

  /**
   * The header JavaScript does not store as a key of a `{}` row: assigning
   * to it calls the setter inherited from `Object.prototype`, which ignores
   * a string.
   */
  const PROTO_KEY: string := "__proto__"

  /**
   * The row object for one line: every header but `__proto__` becomes a key
   * holding the value in its column, the empty string where the line is
   * short. A header that occurs twice keeps the value of its last column.
   */
  function MakeRow(headers: seq<string>, values: seq<string>): (r: Row)
    ensures r.Keys == set h | h in headers && h != PROTO_KEY
  {
    if |headers| == 0 then map[]
    else
      var n := |headers| - 1;
      var prefix := MakeRow(headers[..n], values);
      if headers[n] == PROTO_KEY then prefix else prefix[headers[n] := ValueAt(values, n)]
  }

  /** Each header's key holds the value in the header's last column. */
  lemma {:induction false} MakeRowValue(headers: seq<string>, values: seq<string>, i: nat)
    requires i < |headers| && headers[i] != PROTO_KEY
    requires forall j :: i < j < |headers| ==> headers[j] != headers[i]
    ensures MakeRow(headers, values)[headers[i]] == ValueAt(values, i)
  {
    var n := |headers| - 1;
    if i < n {
      var prefix := headers[..n];
      assert prefix[i] == headers[i];
      forall j | i < j < |prefix|
        ensures prefix[j] != prefix[i]
      {
        assert prefix[j] == headers[j];
      }
      MakeRowValue(prefix, values, i);
    }
  }

  /** The rows of the sheet below its header line; none when there are fewer than two lines. */
  function SheetRows(text: string): (rows: seq<Row>)
    ensures |Lines(text)| < 2 ==> rows == []
    ensures |Lines(text)| >= 2 ==> |rows| == |Lines(text)| - 1
  {
    var lines := Lines(text);
    if |lines| < 2 then []
    else
      var headers := CsvFields(lines[0]);
      RowsOf(headers, lines[1..])
  }

  function RowsOf(headers: seq<string>, lines: seq<string>): (rows: seq<Row>)
    ensures |rows| == |lines|
    ensures forall k :: 0 <= k < |rows| ==> rows[k] == MakeRow(headers, CsvFields(lines[k]))
  {
    if |lines| == 0 then [] else [MakeRow(headers, CsvFields(lines[0]))] + RowsOf(headers, lines[1..])
  }

  /** Every row holds every header of the sheet as a key. */
  lemma RowsHaveHeaders(text: string)
    requires |Lines(text)| >= 2
    ensures forall k, h :: 0 <= k < |SheetRows(text)| && h in CsvFields(Lines(text)[0]) ==>
              (h in SheetRows(text)[k] <==> h != PROTO_KEY)
  {
  }

  // ---------------------------------------------------------------------
  // Grouping by team
  // ---------------------------------------------------------------------

  /** `row['Team']`, with a missing key read as the empty string (both are falsy). */
  function TeamOf(row: Row): string {
    if "Team" in row then row["Team"] else ""
  }

  /** The teams the rows name, in row order. */
  function Teams(rows: seq<Row>): (r: seq<string>)
    ensures |r| == |rows|
  {
    if |rows| == 0 then [] else Teams(rows[..|rows| - 1]) + [TeamOf(rows[|rows| - 1])]
  }

  /** The rows naming `team`, in order. */
  function MatchesOf(rows: seq<Row>, team: string): seq<Row> {
    if |rows| == 0 then []
    else
      var last := rows[|rows| - 1];
      MatchesOf(rows[..|rows| - 1], team) + (if TeamOf(last) == team then [last] else [])
  }

  /** The teams that get an entry: those a row names, the empty name excluded. */
  function NamedTeams(rows: seq<Row>): set<string> {
    set k | 0 <= k < |rows| && TeamOf(rows[k]) != "" :: TeamOf(rows[k])
  }

  /**
   * `teamData` holds, for every team some row names, that team's rows in
   * order, and nothing for the empty name.
   */
  ghost predicate Grouped(teamData: map<string, seq<Row>>, rows: seq<Row>) {
    && teamData.Keys == NamedTeams(rows)
    && (forall t :: t in teamData ==> teamData[t] == MatchesOf(rows, t))
    && (forall t :: t !in teamData ==> t == "" || MatchesOf(rows, t) == [])
  }

  /**
   * The names every plain object inherits from `Object.prototype`. Looking
   * one of them up on `{}` gives a function or an object, which is truthy.
   */
  const INHERITED_KEYS: seq<string> := [
    "constructor", "__proto__", "toString", "toLocaleString", "valueOf",
    "hasOwnProperty", "isPrototypeOf", "propertyIsEnumerable",
    "__defineGetter__", "__defineSetter__", "__lookupGetter__", "__lookupSetter__"
  ]

  /** Some row names a team that is one of `names`. */
  predicate NamesAny(rows: seq<Row>, names: seq<string>) {
    exists k :: 0 <= k < |rows| && TeamOf(rows[k]) in names
  }

  /**
   * The grouping loop of `parseCSVData`, over a plain object `{}`: rows
   * without a team are skipped, each other row is appended to its team's
   * list of matches. For a team named like an inherited property the entry
   * looks present, no list is made, and `.matches.push` throws a
   * `TypeError` (`None` here), which ends the whole parse.
   */
  method GroupByTeam(rows: seq<Row>) returns (r: Option<map<string, seq<Row>>>)
    ensures r.None? <==> NamesAny(rows, INHERITED_KEYS)
    ensures r.Some? ==> r.value.Keys == NamedTeams(rows)
    ensures r.Some? ==> forall t :: t in r.value ==> r.value[t] == MatchesOf(rows, t)
  {
    var teamData := map[];
    for i := 0 to |rows|
      invariant Grouped(teamData, rows[..i])
      invariant !NamesAny(rows[..i], INHERITED_KEYS)
    {
      var row := rows[i];
      var team := TeamOf(row);
      ghost var before := teamData;
      NamesAnyStep(rows, INHERITED_KEYS, i);
      if team != "" {
        if team in INHERITED_KEYS {
          return None;
        }
        var matches := if team in teamData then teamData[team] else [];
        teamData := teamData[team := matches + [row]];
      }
      GroupedStep(before, teamData, rows, i);
    }
    assert rows[..|rows|] == rows;
    return Some(teamData);
  }

  /** Whether the rows up to `i` name one of `names` is decided by the rows before it and row `i`. */
  lemma NamesAnyStep(rows: seq<Row>, names: seq<string>, i: nat)
    requires i < |rows|
    ensures NamesAny(rows[..i + 1], names) <==> NamesAny(rows[..i], names) || TeamOf(rows[i]) in names
    ensures TeamOf(rows[i]) in names ==> NamesAny(rows, names)
  {
    var p := rows[..i + 1];
    assert p[i] == rows[i];
    if NamesAny(p, names) {
      var k :| 0 <= k < |p| && TeamOf(p[k]) in names;
      if k < i {
        assert rows[..i][k] == p[k];
      }
    }
    if NamesAny(rows[..i], names) {
      var k :| 0 <= k < i && TeamOf(rows[..i][k]) in names;
      assert p[k] == rows[..i][k];
    }
  }

  /** A sheet whose one row is for a team named `constructor` gives no statistics at all. */
  method ConstructorTeamLost() returns (r: Option<map<string, seq<Row>>>)
    ensures r.None?
  {
    var row: Row := map["Team" := "constructor"];
    assert TeamOf([row][0]) in INHERITED_KEYS;
    r := GroupByTeam([row]);
  }

  /**
   * The grouping loop keyed by a `Map` (or an object without a prototype),
   * where only the teams the loop stored are present: every row with a
   * team is grouped, whatever the team is called.
   */
  method GroupByTeamMap(rows: seq<Row>) returns (teamData: map<string, seq<Row>>)
    ensures teamData.Keys == NamedTeams(rows)
    ensures forall t :: t in teamData ==> teamData[t] == MatchesOf(rows, t)
  {
    teamData := map[];
    for i := 0 to |rows|
      invariant Grouped(teamData, rows[..i])
    {
      var row := rows[i];
      var team := TeamOf(row);
      ghost var before := teamData;
      if team != "" {
        var matches := if team in teamData then teamData[team] else [];
        teamData := teamData[team := matches + [row]];
      }
      GroupedStep(before, teamData, rows, i);
    }
    assert rows[..|rows|] == rows;
  }

  /** `after` is `before` with `row` appended to its team's matches, the way the loop body does it. */
  predicate AddedRow(before: map<string, seq<Row>>, after: map<string, seq<Row>>, row: Row) {
    if TeamOf(row) == "" then after == before
    else after == before[TeamOf(row) := (if TeamOf(row) in before then before[TeamOf(row)] else []) + [row]]
  }

  /** Adding row `i` to the grouping of the rows before it gives the grouping of the rows up to it. */
  lemma GroupedStep(before: map<string, seq<Row>>, after: map<string, seq<Row>>, rows: seq<Row>, i: nat)
    requires i < |rows| && Grouped(before, rows[..i]) && AddedRow(before, after, rows[i])
    ensures Grouped(after, rows[..i + 1])
  {
    GroupStep(rows, i);
    GroupedStepMatches(before, after, rows, i);
    GroupedStepMissing(before, after, rows, i);
  }

  lemma GroupedStepMatches(before: map<string, seq<Row>>, after: map<string, seq<Row>>, rows: seq<Row>, i: nat)
    requires i < |rows| && Grouped(before, rows[..i]) && AddedRow(before, after, rows[i])
    ensures forall t :: t in after ==> after[t] == MatchesOf(rows[..i + 1], t)
  {
    GroupStep(rows, i);
    forall t | t in after
      ensures after[t] == MatchesOf(rows[..i + 1], t)
    {
      if t != TeamOf(rows[i]) {
        assert after[t] == before[t];
      }
    }
  }

  lemma GroupedStepMissing(before: map<string, seq<Row>>, after: map<string, seq<Row>>, rows: seq<Row>, i: nat)
    requires i < |rows| && Grouped(before, rows[..i]) && AddedRow(before, after, rows[i])
    ensures forall t :: t !in after ==> t == "" || MatchesOf(rows[..i + 1], t) == []
  {
    GroupStep(rows, i);
  }

  /** What one more row adds: its team, when it names one, and itself to that team's matches. */
  lemma GroupStep(rows: seq<Row>, i: nat)
    requires i < |rows|
    ensures NamedTeams(rows[..i + 1]) == NamedTeams(rows[..i]) + (if TeamOf(rows[i]) != "" then {TeamOf(rows[i])} else {})
    ensures forall t :: MatchesOf(rows[..i + 1], t) == MatchesOf(rows[..i], t) + (if TeamOf(rows[i]) == t then [rows[i]] else [])
  {
    var next := rows[..i + 1];
    assert next[..i] == rows[..i];
    var before, after := NamedTeams(rows[..i]), NamedTeams(next);
    forall t | t in after
      ensures t in before || (t == TeamOf(rows[i]) && t != "")
    {
      var k :| 0 <= k < |next| && TeamOf(next[k]) != "" && TeamOf(next[k]) == t;
      if k < i {
        assert next[k] == rows[..i][k];
      }
    }
    forall t | t in before
      ensures t in after
    {
      var k :| 0 <= k < i && TeamOf(rows[..i][k]) != "" && TeamOf(rows[..i][k]) == t;
      assert next[k] == rows[..i][k];
    }
    if TeamOf(rows[i]) != "" {
      assert next[i] == rows[i];
      assert TeamOf(rows[i]) in after;
    }
  }

  /** A team's `matches` is the number of rows that name it. */
  lemma {:induction false} MatchesCount(rows: seq<Row>, team: string)
    ensures |MatchesOf(rows, team)| == Count(Teams(rows), team)
  {
    if |rows| > 0 {
      var prefix := rows[..|rows| - 1];
      MatchesCount(prefix, team);
      var teams := Teams(rows);
      assert teams[..|teams| - 1] == Teams(prefix);
    }
  }

  // ---------------------------------------------------------------------
  // The picklist
  // ---------------------------------------------------------------------

  /**
   * `togglePicklist`: a listed team is removed (every occurrence), an
   * unlisted one is appended at the end; the others keep their order.
   */
  function TogglePicklist(picklist: seq<string>, team: string): (r: seq<string>)
    ensures team in r <==> team !in picklist
    ensures forall t :: t != team ==> (t in r <==> t in picklist)
    ensures team in picklist ==> r == Without(picklist, team)
    ensures team !in picklist ==> r == picklist + [team]
  {
    ChipSelect.ToggleMulti(picklist, team)
  }

  /** Toggling keeps the other teams in order, and toggling an unlisted team twice restores the picklist. */
  lemma TogglePicklistOrder(picklist: seq<string>, team: string)
    ensures Subsequence(Without(TogglePicklist(picklist, team), team), picklist)
    ensures team !in picklist ==> TogglePicklist(TogglePicklist(picklist, team), team) == picklist
  {
    if team in picklist {
      WithoutAbsent(Without(picklist, team), team);
      WithoutIsSubsequence(picklist, team);
    } else {
      ChipSelect.WithoutLast(picklist, team);
      WithoutIsSubsequence(picklist, team);
      ChipSelect.ToggleMultiTwice(picklist, team);
    }
  }
}
