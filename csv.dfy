/**
 * The CSV export of the application list: a fixed header row, then one row
 * per application, fields joined by ',' and rows joined by '\n', with no
 * quoting, no escaping and no trailing newline.
 *
 * `Split` (the semantics of JavaScript's String.prototype.split with a
 * one-character separator) and `Parse`/`Decode` are the reading side,
 * used to state what the text means.
 */
module Csv {
  import opened Wrappers
  import opened Applications

  const Header: seq<string> := ["Company", "Role", "Status", "Date"]
  const HeaderLine: string := "Company,Role,Status,Date"

  /** Array.prototype.join: the parts with `sep` between consecutive ones. */
  function Join(parts: seq<string>, sep: char): string
    decreases |parts|
  {
    if |parts| == 0 then ""
    else if |parts| == 1 then parts[0]
    else parts[0] + [sep] + Join(parts[1..], sep)
  }

  /**
   * String.prototype.split on one character: the maximal pieces between
   * separators, so always at least one piece, and none holds `sep`.
   */
  function Split(s: string, sep: char): (pieces: seq<string>)
    ensures |pieces| >= 1
    ensures forall i :: 0 <= i < |pieces| ==> sep !in pieces[i]
    decreases |s|
  {
    if |s| == 0 then [""]
    else
      var rest := Split(s[1..], sep);
      if s[0] == sep then [""] + rest
      else [[s[0]] + rest[0]] + rest[1..]
  }

  /** True when no string in `parts` contains `c`. */
  predicate Avoids(parts: seq<string>, c: char) {
    forall i :: 0 <= i < |parts| ==> c !in parts[i]
  }

  /** The four fields of one row, in column order. */
  function Row(a: Application): seq<string> {
    [a.company, a.role, a.status, a.date]
  }

  /** One row per application, in list order. */
  function Rows(apps: seq<Application>): (rows: seq<seq<string>>)
    ensures |rows| == |apps|
    ensures forall i :: 0 <= i < |apps| ==> rows[i] == Row(apps[i])
  {
    seq(|apps|, i requires 0 <= i < |apps| => Row(apps[i]))
  }

  /** The header row followed by the application rows. */
  function Table(apps: seq<Application>): (t: seq<seq<string>>)
    ensures |t| == |apps| + 1 && t[0] == Header
    ensures forall i :: 0 <= i < |apps| ==> t[i + 1] == Row(apps[i])
  {
    [Header] + Rows(apps)
  }

  /** Each row of a table joined into one line. */
  function JoinRows(t: seq<seq<string>>, sep: char): (lines: seq<string>)
    ensures |lines| == |t|
    ensures forall i :: 0 <= i < |t| ==> lines[i] == Join(t[i], sep)
  {
    seq(|t|, i requires 0 <= i < |t| => Join(t[i], sep))
  }

  /** The text `exportCSV` writes to the downloaded file. */
  function Export(apps: seq<Application>): string {
    Join(JoinRows(Table(apps), ','), '\n')
  }

  /** Reading the text back: split into lines, each line into fields. */
  function Parse(csv: string): (t: seq<seq<string>>)
    ensures |t| >= 1
  {
    var lines := Split(csv, '\n');
    seq(|lines|, i requires 0 <= i < |lines| => Split(lines[i], ','))
  }

  /** The application a parsed row stands for, when it has exactly four fields. */
  function FromRow(fields: seq<string>): Option<Application> {
    if |fields| == 4 then Some(Application(fields[0], fields[1], fields[2], fields[3])) else None
  }

  /** The applications listed under the header, or None if the text is not such a table. */
  function FromRows(rows: seq<seq<string>>): (r: Option<seq<Application>>)
    ensures r.Some? ==> |r.value| == |rows|
    decreases |rows|
  {
    if |rows| == 0 then Some([])
    else match (FromRow(rows[0]), FromRows(rows[1..]))
      case (Some(a), Some(rest)) => Some([a] + rest)
      case _ => None
  }

  function Decode(csv: string): Option<seq<Application>> {
    var t := Parse(csv);
    if t[0] == Header then FromRows(t[1..]) else None
  }

  // ----- Join and Split -----

  lemma {:induction false} JoinSplit(s: string, sep: char)
    ensures Join(Split(s, sep), sep) == s
    decreases |s|
  {
    if |s| > 0 {
      var rest := Split(s[1..], sep);
      JoinSplit(s[1..], sep);
      if s[0] == sep {
        assert Split(s, sep) == [""] + rest;
        if |rest| == 1 {
          assert Join([""] + rest, sep) == "" + [sep] + rest[0];
        } else {
          assert ([""] + rest)[1..] == rest;
        }
      } else {
        var p := [[s[0]] + rest[0]] + rest[1..];
        assert Split(s, sep) == p;
        if |rest| == 1 {
          assert p == [[s[0]] + rest[0]];
        } else {
          assert p[1..] == rest[1..];
          assert Join(rest, sep) == rest[0] + [sep] + Join(rest[1..], sep);
          assert Join(p, sep) == [s[0]] + rest[0] + [sep] + Join(rest[1..], sep);
        }
        assert s == [s[0]] + s[1..];
      }
    }
  }

  lemma {:induction false} SplitNoSep(s: string, sep: char)
    requires sep !in s
    ensures Split(s, sep) == [s]
    decreases |s|
  {
    if |s| > 0 {
      assert s[0] != sep;
      SplitNoSep(s[1..], sep);
      assert [s[0]] + s[1..] == s;
    }
  }

  lemma {:induction false} SplitAfterPiece(p: string, sep: char, t: string)
    requires sep !in p
    ensures Split(p + [sep] + t, sep) == [p] + Split(t, sep)
    decreases |p|
  {
    var s := p + [sep] + t;
    if |p| == 0 {
      assert s[0] == sep && s[1..] == t;
    } else {
      assert s[0] == p[0] != sep;
      assert s[1..] == p[1..] + [sep] + t;
      SplitAfterPiece(p[1..], sep, t);
      assert [p[0]] + p[1..] == p;
    }
  }

  /** Splitting undoes joining, provided there is a part and no part holds the separator. */
  lemma {:induction false} SplitJoin(parts: seq<string>, sep: char)
    requires |parts| >= 1 && Avoids(parts, sep)
    ensures Split(Join(parts, sep), sep) == parts
    decreases |parts|
  {
    if |parts| == 1 {
      SplitNoSep(parts[0], sep);
    } else {
      SplitJoin(parts[1..], sep);
      SplitAfterPiece(parts[0], sep, Join(parts[1..], sep));
      assert [parts[0]] + parts[1..] == parts;
    }
  }

  /** Joining never introduces a character other than the separator. */
  lemma {:induction false} JoinAvoids(parts: seq<string>, sep: char, c: char)
    requires c != sep && Avoids(parts, c)
    ensures c !in Join(parts, sep)
    decreases |parts|
  {
    if |parts| > 1 {
      JoinAvoids(parts[1..], sep, c);
    }
  }

  /** A join begins with its first part, followed by the separator when more parts follow. */
  lemma JoinStartsWithFirst(parts: seq<string>, sep: char)
    requires |parts| >= 1
    ensures |parts| == 1 ==> Join(parts, sep) == parts[0]
    ensures |parts| > 1 ==> parts[0] + [sep] <= Join(parts, sep)
  {
  }

  /** A join ends with its last part. */
  lemma {:induction false} JoinEndsWithLast(parts: seq<string>, sep: char)
    requires |parts| >= 1
    ensures |parts[|parts| - 1]| <= |Join(parts, sep)|
    ensures Join(parts, sep)[|Join(parts, sep)| - |parts[|parts| - 1]|..] == parts[|parts| - 1]
    decreases |parts|
  {
    if |parts| > 1 {
      JoinEndsWithLast(parts[1..], sep);
    }
  }

  lemma JoinTwo(p: string, q: string, sep: char)
    ensures Join([p, q], sep) == p + [sep] + q
  {
    assert [p, q][1..] == [q];
  }

  // ----- the line of one application -----

  lemma HeaderLineIsJoin()
    ensures Join(Header, ',') == HeaderLine
  {
    assert Join(Header[3..], ',') == "Date";
    assert Join(Header[2..], ',') == "Status,Date";
    assert Join(Header[1..], ',') == "Role,Status,Date";
  }

  /** A row line is the four fields in column order with a comma between each two. */
  lemma RowLine(a: Application)
    ensures Join(Row(a), ',') == a.company + "," + a.role + "," + a.status + "," + a.date
  {
    var r := Row(a);
    assert Join(r[3..], ',') == a.date;
    assert Join(r[2..], ',') == a.status + "," + a.date;
    assert Join(r[1..], ',') == a.role + "," + a.status + "," + a.date;
  }

  // ----- properties of the export -----

  /** No field of any application contains `c`. */
  predicate FieldsAvoid(apps: seq<Application>, c: char) {
    forall i :: 0 <= i < |apps| ==> Avoids(Row(apps[i]), c)
  }

  /** The text begins with the header line; with no applications it is exactly the header line. */
  lemma ExportStartsWithHeader(apps: seq<Application>)
    ensures HeaderLine <= Export(apps)
    ensures apps == [] ==> Export(apps) == HeaderLine
    ensures apps != [] ==> HeaderLine + "\n" <= Export(apps)
  {
    HeaderLineIsJoin();
    JoinStartsWithFirst(JoinRows(Table(apps), ','), '\n');
  }

  /**
   * When no field contains a newline, N applications give exactly N + 1
   * lines: the header line, then line i + 1 holds application i's fields
   * in the order company, role, status, date.
   */
  lemma ExportLines(apps: seq<Application>)
    requires FieldsAvoid(apps, '\n')
    ensures |Split(Export(apps), '\n')| == |apps| + 1
    ensures Split(Export(apps), '\n')[0] == HeaderLine
    ensures forall i :: 0 <= i < |apps| ==>
      Split(Export(apps), '\n')[i + 1] == apps[i].company + "," + apps[i].role + "," + apps[i].status + "," + apps[i].date
  {
    var t := Table(apps);
    var lines := JoinRows(t, ',');
    forall i | 0 <= i < |lines| ensures '\n' !in lines[i] {
      JoinAvoids(t[i], ',', '\n');
    }
    SplitJoin(lines, '\n');
    HeaderLineIsJoin();
    forall i | 0 <= i < |apps|
      ensures lines[i + 1] == apps[i].company + "," + apps[i].role + "," + apps[i].status + "," + apps[i].date
    {
      RowLine(apps[i]);
    }
  }

  /** The text never ends with a newline when no field contains one. */
  lemma ExportNoTrailingNewline(apps: seq<Application>)
    requires FieldsAvoid(apps, '\n')
    ensures |Export(apps)| > 0 && Export(apps)[|Export(apps)| - 1] != '\n'
  {
    var t := Table(apps);
    var lines := JoinRows(t, ',');
    var last := lines[|lines| - 1];
    var csv := Export(apps);
    JoinEndsWithLast(lines, '\n');
    JoinAvoids(t[|t| - 1], ',', '\n');
    if apps == [] {
      HeaderLineIsJoin();
    } else {
      RowLine(apps[|apps| - 1]);
    }
    assert |last| > 0;
    assert csv[|csv| - |last|..] == last;
    assert csv[|csv| - 1] == last[|last| - 1];
  }

  /**
   * When no field contains ',' or '\n', splitting the text on '\n' and each
   * line on ',' gives back the header and every application's four fields, in order.
   */
  lemma ExportParse(apps: seq<Application>)
    requires FieldsAvoid(apps, ',') && FieldsAvoid(apps, '\n')
    ensures Parse(Export(apps)) == Table(apps)
  {
    var t := Table(apps);
    var lines := JoinRows(t, ',');
    forall i | 0 <= i < |lines| ensures '\n' !in lines[i] {
      JoinAvoids(t[i], ',', '\n');
    }
    SplitJoin(lines, '\n');
    forall i | 0 <= i < |t| ensures Split(lines[i], ',') == t[i] {
      SplitJoin(t[i], ',');
    }
  }

  lemma {:induction false} FromRowsOfRows(apps: seq<Application>)
    ensures FromRows(Rows(apps)) == Some(apps)
    decreases |apps|
  {
    var rows := Rows(apps);
    if |apps| > 0 {
      FromRowsOfRows(apps[1..]);
      assert FromRow(rows[0]) == Some(apps[0]);
      assert rows[1..] == Rows(apps[1..]);
      assert [apps[0]] + apps[1..] == apps;
    }
  }

  /** Under the same restriction the export decodes back to the very list it was made from. */
  lemma ExportRoundTrip(apps: seq<Application>)
    requires FieldsAvoid(apps, ',') && FieldsAvoid(apps, '\n')
    ensures Decode(Export(apps)) == Some(apps)
  {
    ExportParse(apps);
    FromRowsOfRows(apps);
    assert Table(apps)[1..] == Rows(apps);
  }

  /** The five fields of a company `x,y` join to the same line as the record's four. */
  lemma FiveFieldLine(a: Application, x: string, y: string)
    requires a.company == x + "," + y
    ensures Join([x, y, a.role, a.status, a.date], ',') == Join(Row(a), ',')
  {
    var fields := [x, y, a.role, a.status, a.date];
    RowLine(a);
    assert Join(fields[4..], ',') == a.date;
    assert Join(fields[3..], ',') == a.status + "," + a.date;
    assert Join(fields[2..], ',') == a.role + "," + a.status + "," + a.date;
    assert Join(fields[1..], ',') == y + "," + a.role + "," + a.status + "," + a.date;
  }

  /**
   * Without the restriction the round trip fails: a company name holding a
   * comma comes back as two fields, so its line has five fields and does not decode.
   */
  lemma CommaInCompanySplitsIt(a: Application, x: string, y: string)
    requires a.company == x + "," + y
    requires Avoids([x, y, a.role, a.status, a.date], ',') && Avoids([x, y, a.role, a.status, a.date], '\n')
    ensures |Parse(Export([a]))| == 2
    ensures Parse(Export([a]))[1] == [x, y, a.role, a.status, a.date]
    ensures Decode(Export([a])) == None
  {
    var fields := [x, y, a.role, a.status, a.date];
    var t := Table([a]);
    var lines := JoinRows(t, ',');
    assert Join(fields, ',') == lines[1] by {
      FiveFieldLine(a, x, y);
    }
    assert Split(lines[1], ',') == fields by {
      SplitJoin(fields, ',');
    }
    assert '\n' !in lines[0] by {
      JoinAvoids(Header, ',', '\n');
    }
    assert '\n' !in lines[1] by {
      assert fields[0] == x && fields[1] == y && fields[2] == a.role && fields[3] == a.status && fields[4] == a.date;
      assert '\n' !in a.company;
      assert Avoids(Row(a), '\n');
      JoinAvoids(Row(a), ',', '\n');
    }
    assert |lines| == 2 && Avoids(lines, '\n');
    SplitJoin(lines, '\n');
    var p := Parse(Export([a]));
    assert p[1..] == [fields];
    assert FromRow(fields) == None;
  }

  /** One application exports as the header line, a newline, and the application's line. */
  lemma ExportOne(a: Application)
    ensures Export([a]) == HeaderLine + "\n" + (a.company + "," + a.role + "," + a.status + "," + a.date)
  {
    var lines := JoinRows(Table([a]), ',');
    assert lines == [HeaderLine, a.company + "," + a.role + "," + a.status + "," + a.date] by {
      HeaderLineIsJoin();
      RowLine(a);
    }
    JoinTwo(HeaderLine, lines[1], '\n');
  }

  lemma ExampleText(today: string)
    ensures HeaderLine + "\n" + ("Acme" + "," + "Engineer" + "," + "Applied" + "," + today)
         == "Company,Role,Status,Date\nAcme,Engineer,Applied," + today
  {
    var text := "Acme" + "," + "Engineer" + "," + "Applied" + ",";
    assert text == "Acme,Engineer,Applied,";
    assert HeaderLine + "\n" + text == "Company,Role,Status,Date\nAcme,Engineer,Applied,";
    assert HeaderLine + "\n" + (text + today) == (HeaderLine + "\n" + text) + today;
  }

  /** The worked example: one application made from "Acme" and "Engineer" with a blank status. */
  lemma ExampleExport(today: string)
    ensures Export([NewApplication("Acme", "Engineer", "", today)])
         == "Company,Role,Status,Date\nAcme,Engineer,Applied," + today
  {
    ExportOne(NewApplication("Acme", "Engineer", "", today));
    ExampleText(today);
  }
}
