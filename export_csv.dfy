/**
 * The text of the roster CSV export (`downloadCSV`): a fixed header line,
 * then one line per employee, joined with newlines behind a data-URI prefix.
 * Nothing is escaped: fields are wrapped in double quotes as they are.
 */
module ExportCsv {
  import opened Base
  import opened Text
  import opened Entities

  const Header: string := "ID,Name,Email,Role,Salary,Joined Date"
  const DataUriPrefix: string := "data:text/csv;charset=utf-8,"

  /** A cell wrapped in double quotes, its text left as it is. */
  function Quoted(s: string): (q: string)
    ensures |q| == |s| + 2 && q[0] == '"' && q[|q| - 1] == '"'
    ensures q[1..|q| - 1] == s
  {
    "\"" + s + "\""
  }

  /** The calendar date of an ISO timestamp: the part before the first 'T'. */
  function JoinedDate(createdAt: string): (d: string)
    ensures d <= createdAt && 'T' !in d
    ensures |d| < |createdAt| ==> createdAt[|d|] == 'T'
  {
    Split(createdAt, 'T')[0]
  }

  /** The six cells of an employee's line, in header order. */
  function RowFields(e: Employee): (cells: seq<string>)
    ensures |cells| == 6 && cells[0] == e.id
    ensures |cells[1]| >= 2 && |cells[2]| >= 2 && |cells[3]| >= 2
    ensures cells[1][1..|cells[1]| - 1] == e.name && cells[1][0] == '"' == cells[1][|cells[1]| - 1]
    ensures cells[2][1..|cells[2]| - 1] == e.email && cells[2][0] == '"' == cells[2][|cells[2]| - 1]
    ensures cells[3][1..|cells[3]| - 1] == e.role && cells[3][0] == '"' == cells[3][|cells[3]| - 1]
    ensures ParseDecimal(cells[4]) == Some(e.salary as real)
    ensures cells[5] <= e.createdAt && 'T' !in cells[5]
    ensures cells[5] == JoinedDate(e.createdAt)
  {
    DecimalRoundTrip(e.salary);
    [e.id, Quoted(e.name), Quoted(e.email), Quoted(e.role), IntToString(e.salary), JoinedDate(e.createdAt)]
  }

  /** One employee's line: the six cells separated by commas. */
  function CsvRow(e: Employee): (line: string)
    ensures line == e.id + "," + Quoted(e.name) + "," + Quoted(e.email) + "," + Quoted(e.role) + "," +
      IntToString(e.salary) + "," + JoinedDate(e.createdAt)
    ensures e.id + "," <= line
    ensures |line| == |e.id| + |e.name| + |e.email| + |e.role| +
      |IntToString(e.salary)| + |JoinedDate(e.createdAt)| + 11
    ensures line[|line| - |JoinedDate(e.createdAt)|..] == JoinedDate(e.createdAt)
  {
    var cells := RowFields(e);
    JoinSix(cells, ',');
    Join(cells, ',')
  }

  function CsvRows(data: seq<Employee>): (rows: seq<string>)
    ensures |rows| == |data|
    ensures forall i :: 0 <= i < |data| ==> rows[i] == CsvRow(data[i])
  {
    seq(|data|, i requires 0 <= i < |data| => CsvRow(data[i]))
  }

  /** The CSV text: the header line, then the employees' lines, separated by line breaks. */
  function CsvBody(data: seq<Employee>): (text: string)
    ensures Header <= text
    ensures data == [] ==> text == Header
    ensures data != [] ==> |text| > |Header| && text[|Header|] == '\n'
  {
    Join([Header] + CsvRows(data), '\n')
  }

  /**
   * `downloadCSV`'s content: nothing when the list is missing or empty (the
   * function alerts and returns), otherwise the data URI of the CSV text.
   */
  function DownloadCsv(data: Option<seq<Employee>>): (content: Option<string>)
    ensures content.None? <==> data.None? || data.value == []
    ensures content.Some? ==>
      DataUriPrefix <= content.value && content.value[|DataUriPrefix|..] == CsvBody(data.value)
  {
    match data
    case None => None
    case Some(list) =>
      if list == [] then None
      else
        var c := DataUriPrefix + CsvBody(list);
        assert c[|DataUriPrefix|..] == CsvBody(list);
        Some(c)
  }

  predicate NoNewline(s: string) { '\n' !in s }

  /** An employee none of whose text fields holds a line break. */
  predicate SingleLine(e: Employee)
  {
    NoNewline(e.id) && NoNewline(e.name) && NoNewline(e.email) && NoNewline(e.role) && NoNewline(e.createdAt)
  }

  lemma {:induction false} JoinKeeps(parts: seq<string>, sep: char, c: char)
    requires c != sep
    requires forall i :: 0 <= i < |parts| ==> c !in parts[i]
    ensures c !in Join(parts, sep)
  {
    if |parts| > 1 {
      JoinKeeps(parts[1..], sep, c);
    }
  }

  lemma RowSingleLine(e: Employee)
    requires SingleLine(e)
    ensures NoNewline(CsvRow(e))
  {
    var fields := RowFields(e);
    assert '\n' !in JoinedDate(e.createdAt) by {
      assert JoinedDate(e.createdAt) <= e.createdAt;
      forall i | 0 <= i < |JoinedDate(e.createdAt)| ensures JoinedDate(e.createdAt)[i] != '\n' {
        assert JoinedDate(e.createdAt)[i] == e.createdAt[i];
      }
    }
    JoinKeeps(fields, ',', '\n');
  }

  /**
   * When no field holds a line break, the CSV text has exactly one line more
   * than there are employees: the header, then each employee's line in list order.
   */
  lemma CsvLines(data: seq<Employee>)
    requires forall i :: 0 <= i < |data| ==> SingleLine(data[i])
    ensures Split(CsvBody(data), '\n') == [Header] + CsvRows(data)
    ensures |Split(CsvBody(data), '\n')| == |data| + 1
  {
    var lines := [Header] + CsvRows(data);
    forall i | 0 <= i < |lines| ensures '\n' !in lines[i] {
      if i > 0 { RowSingleLine(data[i - 1]); }
    }
    SplitJoin(lines, '\n');
  }

  /** An employee none of whose text cells holds a comma. */
  predicate PlainCells(e: Employee)
  {
    ',' !in e.id && ',' !in e.name && ',' !in e.email && ',' !in e.role &&
    ',' !in JoinedDate(e.createdAt)
  }

  /** Without commas in the cells, each line splits back into its six cells in header order. */
  lemma CsvRowCells(e: Employee)
    requires PlainCells(e)
    ensures Split(CsvRow(e), ',') ==
      [e.id, Quoted(e.name), Quoted(e.email), Quoted(e.role), IntToString(e.salary), JoinedDate(e.createdAt)]
  {
    var fields := RowFields(e);
    forall i | 0 <= i < |fields| ensures ',' !in fields[i] {
      if i == 4 {
        assert forall k :: 0 <= k < |fields[4]| ==> fields[4][k] != ',';
      }
    }
    SplitJoin(fields, ',');
  }

  lemma JoinSix(ps: seq<string>, sep: char)
    requires |ps| == 6
    ensures Join(ps, sep) ==
      ps[0] + [sep] + ps[1] + [sep] + ps[2] + [sep] + ps[3] + [sep] + ps[4] + [sep] + ps[5]
  {
    JoinFirstThree(ps, sep);
    var t := ps[3..];
    assert t[1..] == ps[4..] && ps[4..][1..] == ps[5..];
    assert Join(ps[5..], sep) == ps[5];
  }

  lemma JoinFirstThree(ps: seq<string>, sep: char)
    requires |ps| >= 4
    ensures Join(ps, sep) == ps[0] + [sep] + (ps[1] + [sep] + (ps[2] + [sep] + Join(ps[3..], sep)))
  {
    assert ps[1..][1..] == ps[2..] && ps[2..][1..] == ps[3..];
    assert Join(ps, sep) == ps[0] + [sep] + Join(ps[1..], sep);
    assert Join(ps[1..], sep) == ps[1] + [sep] + Join(ps[2..], sep);
    assert Join(ps[2..], sep) == ps[2] + [sep] + Join(ps[3..], sep);
  }

  /** The middle of two colliding lines, as plain text. */
  lemma QuoteShift(p: string, q: string, m: string, t: string)
    ensures Quoted(p + "\",\"" + q) + [','] + (Quoted(m) + [','] + t)
         == Quoted(p) + [','] + (Quoted(q + "\",\"" + m) + [','] + t)
  {
  }

  /**
   * Quotes inside a field are not escaped, so two different employees can
   * produce the same line: a name `p","q` reads like the name `p` followed by
   * an email starting with `q","`.
   */
  lemma UnescapedQuotesCollide(e: Employee, p: string, q: string)
    requires e.name == p + "\",\"" + q
    ensures var b := e.(name := p, email := q + "\",\"" + e.email);
            b != e && CsvRow(b) == CsvRow(e)
  {
    var b := e.(name := p, email := q + "\",\"" + e.email);
    assert |b.name| != |e.name|;
    var fe, fb := RowFields(e), RowFields(b);
    var tail := Join(fe[3..], ',');
    assert fb[3..] == fe[3..];
    JoinFirstThree(fe, ',');
    JoinFirstThree(fb, ',');
    QuoteShift(p, q, e.email, tail);
  }
}
