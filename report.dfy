/**
 * The weekly report (main.go, main): an NFL section and a college section, written line by
 * line to a file and to the console. Each line below is one write ending in a newline.
 */
module Report {
  import opened Types

  const NflRule := "-------------------"       // 19 dashes, under the NFL title
  const RowRule := "----------"                // 10 dashes, between rows
  const SectionRule := "-----------------"     // 17 dashes, around the college title

  /** The lines of one row followed by the row separator; the console also shows the name. */
  function Entry(row: Output, withName: bool): seq<string>
  {
    if withName then [row.date, row.shortname, row.name, row.spread, RowRule]
    else [row.date, row.shortname, row.spread, RowRule]
  }

  function Width(withName: bool): nat
  {
    if withName then 5 else 4
  }

  /** The entries of all rows, in row order. */
  function Entries(rows: seq<Output>, withName: bool): seq<string>
    decreases |rows|
  {
    if rows == [] then []
    else Entries(rows[..|rows| - 1], withName) + Entry(rows[|rows| - 1], withName)
  }

  /** NFL rows: every row but the last ends with the row separator, the last with a blank line. */
  function NflRows(rows: seq<Output>): seq<string>
  {
    if rows == [] then []
    else
      Entries(rows[..|rows| - 1], false) + LastRow(rows[|rows| - 1])
  }

  /** The NFL section; it is the same on both sinks. */
  function NflSection(week: string, rows: seq<Output>): seq<string>
  {
    ["NFL Week " + week, NflRule] + NflRows(rows) + [SectionRule]
  }

  /** The college title; it follows the 17-dash rule that closes the NFL section. */
  function CfbHeader(week: string): seq<string>
  {
    ["College Week " + week + "  ", SectionRule, ""]
  }

  /** The college section; `withName` selects the console form. */
  function CfbSection(week: string, rows: seq<Output>, withName: bool): seq<string>
  {
    CfbHeader(week) + Entries(rows, withName)
  }

  function FileReport(nflWeek: string, nflRows: seq<Output>, cfbWeek: string, cfbRows: seq<Output>): seq<string>
  {
    NflSection(nflWeek, nflRows) + CfbSection(cfbWeek, cfbRows, false)
  }

  function ConsoleReport(nflWeek: string, nflRows: seq<Output>, cfbWeek: string, cfbRows: seq<Output>): seq<string>
  {
    NflSection(nflWeek, nflRows) + CfbSection(cfbWeek, cfbRows, true)
  }

  /** Writes the NFL section to both sinks, breaking out of the loop after the last row. */
  method WriteNflSection(week: string, rows: seq<Output>) returns (file: seq<string>, console: seq<string>)
    ensures file == NflSection(week, rows)
    ensures console == NflSection(week, rows)
  {
    file := ["NFL Week " + week];
    console := ["NFL Week " + week];
    file := file + [NflRule];
    console := console + [NflRule];
    ghost var header := file;
    for k := 0 to |rows|
      invariant file == console == header + Entries(rows[..k], false)
      invariant rows != [] ==> k < |rows|
    {
      assert rows[..k + 1][..k] == rows[..k];
      var v := rows[k];
      console := console + [v.date];
      file := file + [v.date];
      console := console + [v.shortname];
      file := file + [v.shortname];
      console := console + [v.spread];
      file := file + [v.spread];
      if k == |rows| - 1 {
        console := console + [""];
        file := file + [""];
        assert rows[..k] == rows[..|rows| - 1];
        assert file == header + NflRows(rows);
        break;
      }
      console := console + [RowRule];
      file := file + [RowRule];
    }
    console := console + [SectionRule];
    file := file + [SectionRule];
  }

  /** Writes the college section; only the console gets each game's full name. */
  method WriteCfbSection(week: string, rows: seq<Output>) returns (file: seq<string>, console: seq<string>)
    ensures file == CfbSection(week, rows, false)
    ensures console == CfbSection(week, rows, true)
  {
    console := ["College Week " + week + "  "];
    file := ["College Week " + week + "  "];
    console := console + [SectionRule];
    file := file + [SectionRule];
    console := console + [""];
    file := file + [""];
    for k := 0 to |rows|
      invariant file == CfbHeader(week) + Entries(rows[..k], false)
      invariant console == CfbHeader(week) + Entries(rows[..k], true)
    {
      assert rows[..k + 1][..k] == rows[..k];
      var v := rows[k];
      console := console + [v.date];
      file := file + [v.date];
      console := console + [v.shortname];
      console := console + [v.name];
      file := file + [v.shortname];
      console := console + [v.spread];
      file := file + [v.spread];
      console := console + [RowRule];
      file := file + [RowRule];
    }
    assert rows[..|rows|] == rows;
  }

  /** Both sections, in the order main writes them. */
  method WriteReport(nflWeek: string, nflRows: seq<Output>, cfbWeek: string, cfbRows: seq<Output>)
    returns (file: seq<string>, console: seq<string>)
    ensures file == FileReport(nflWeek, nflRows, cfbWeek, cfbRows)
    ensures console == ConsoleReport(nflWeek, nflRows, cfbWeek, cfbRows)
  {
    var nflFile, nflConsole := WriteNflSection(nflWeek, nflRows);
    var cfbFile, cfbConsole := WriteCfbSection(cfbWeek, cfbRows);
    file := nflFile + cfbFile;
    console := nflConsole + cfbConsole;
  }

  /** Row k of the entries occupies the lines from Width * k on. */
  lemma {:induction false} EntriesAt(rows: seq<Output>, withName: bool, k: nat, j: nat)
    requires k < |rows| && j < Width(withName)
    ensures |Entries(rows, withName)| == Width(withName) * |rows|
    ensures Width(withName) * k + j < |Entries(rows, withName)|
    ensures Entries(rows, withName)[Width(withName) * k + j] == Entry(rows[k], withName)[j]
    decreases |rows|
  {
    var w := Width(withName);
    var n := |rows| - 1;
    var prefix := rows[..n];
    var e := Entries(prefix, withName);
    if k < n {
      EntriesAt(prefix, withName, k, j);
      assert w * k + j < w * n by {
        assert w * (k + 1) <= w * n;
      }
    } else {
      EntriesLength(prefix, withName);
      assert |e| == w * k;
    }
  }

  lemma {:induction false} EntriesLength(rows: seq<Output>, withName: bool)
    ensures |Entries(rows, withName)| == Width(withName) * |rows|
    decreases |rows|
  {
    if rows != [] {
      EntriesLength(rows[..|rows| - 1], withName);
    }
  }

  /** The lines of the last NFL row: date, short name, spread and a blank line. */
  function LastRow(row: Output): seq<string>
  {
    [row.date, row.shortname, row.spread, ""]
  }

  /** Line j of NFL row k: the row's entry, or for the last row its blank-terminated lines. */
  lemma NflRowsAt(rows: seq<Output>, k: nat, j: nat)
    requires k < |rows| && j < 4
    ensures |NflRows(rows)| == 4 * |rows|
    ensures NflRows(rows)[4 * k + j] ==
      (if k == |rows| - 1 then LastRow(rows[k]) else Entry(rows[k], false))[j]
  {
    var n := |rows| - 1;
    var e := Entries(rows[..n], false);
    EntriesLength(rows[..n], false);
    assert NflRows(rows) == e + LastRow(rows[n]);
    if k < n {
      EntriesAt(rows[..n], false, k, j);
      assert rows[..n][k] == rows[k];
    }
  }

  /** One NFL row: date, short name and spread, then a rule, or a blank line after the last row. */
  lemma NflRowAt(week: string, rows: seq<Output>, k: nat)
    requires k < |rows|
    ensures var s := NflSection(week, rows);
      |s| == 3 + 4 * |rows| &&
      s[2 + 4 * k] == rows[k].date && s[3 + 4 * k] == rows[k].shortname &&
      s[4 + 4 * k] == rows[k].spread &&
      s[5 + 4 * k] == (if k == |rows| - 1 then "" else RowRule)
  {
    var body := NflRows(rows);
    NflRowsAt(rows, k, 0);
    NflRowsAt(rows, k, 1);
    NflRowsAt(rows, k, 2);
    NflRowsAt(rows, k, 3);
    var s := NflSection(week, rows);
    var head := ["NFL Week " + week, NflRule];
    assert s == head + (body + [SectionRule]);
    var line := if k == |rows| - 1 then LastRow(rows[k]) else Entry(rows[k], false);
    assert s[2 + 4 * k] == body[4 * k] == line[0];
    assert s[3 + 4 * k] == body[4 * k + 1] == line[1];
    assert s[4 + 4 * k] == body[4 * k + 2] == line[2];
    assert s[5 + 4 * k] == body[4 * k + 3] == line[3];
  }

  /**
   * The NFL section: title and 19-dash rule, then date, short name and spread of every row,
   * each row followed by a 10-dash rule except the last, which is followed by a blank line,
   * then a 17-dash rule. Without rows there is no blank line.
   */
  lemma NflSectionShape(week: string, rows: seq<Output>)
    ensures var s := NflSection(week, rows);
      |s| == 3 + 4 * |rows| &&
      s[0] == "NFL Week " + week && s[1] == NflRule && s[|s| - 1] == SectionRule &&
      (forall k :: 0 <= k < |rows| ==>
         s[2 + 4 * k] == rows[k].date && s[3 + 4 * k] == rows[k].shortname &&
         s[4 + 4 * k] == rows[k].spread &&
         s[5 + 4 * k] == (if k == |rows| - 1 then "" else RowRule)) &&
      (rows == [] ==> s == ["NFL Week " + week, NflRule, SectionRule])
  {
    if rows != [] {
      NflRowAt(week, rows, 0);
    }
    forall k | 0 <= k < |rows|
      ensures var s := NflSection(week, rows);
        s[2 + 4 * k] == rows[k].date && s[3 + 4 * k] == rows[k].shortname &&
        s[4 + 4 * k] == rows[k].spread &&
        s[5 + 4 * k] == (if k == |rows| - 1 then "" else RowRule)
    {
      NflRowAt(week, rows, k);
    }
  }

  /**
   * The college section on the file: the title with two trailing spaces, a 17-dash rule and a
   * blank line, then per row date, short name, spread and a 10-dash rule, the last row included.
   */
  lemma CfbFileSectionShape(week: string, rows: seq<Output>)
    ensures var f := CfbSection(week, rows, false);
      |f| == 3 + 4 * |rows| &&
      f[..3] == ["College Week " + week + "  ", SectionRule, ""] &&
      forall k :: 0 <= k < |rows| ==>
        f[3 + 4 * k] == rows[k].date && f[4 + 4 * k] == rows[k].shortname &&
        f[5 + 4 * k] == rows[k].spread && f[6 + 4 * k] == RowRule
  {
    EntriesLength(rows, false);
    forall k | 0 <= k < |rows|
      ensures CfbSection(week, rows, false)[3 + 4 * k] == rows[k].date
      ensures CfbSection(week, rows, false)[4 + 4 * k] == rows[k].shortname
      ensures CfbSection(week, rows, false)[5 + 4 * k] == rows[k].spread
      ensures CfbSection(week, rows, false)[6 + 4 * k] == RowRule
    {
      EntriesAt(rows, false, k, 0);
      EntriesAt(rows, false, k, 1);
      EntriesAt(rows, false, k, 2);
      EntriesAt(rows, false, k, 3);
    }
  }

  /**
   * The college section on the console: the same header, and each row has the game's full
   * name between its short name and its spread.
   */
  lemma CfbConsoleSectionShape(week: string, rows: seq<Output>)
    ensures var c := CfbSection(week, rows, true);
      |c| == 3 + 5 * |rows| &&
      c[..3] == ["College Week " + week + "  ", SectionRule, ""] &&
      forall k :: 0 <= k < |rows| ==>
        c[3 + 5 * k] == rows[k].date && c[4 + 5 * k] == rows[k].shortname &&
        c[5 + 5 * k] == rows[k].name && c[6 + 5 * k] == rows[k].spread && c[7 + 5 * k] == RowRule
  {
    EntriesLength(rows, true);
    forall k | 0 <= k < |rows|
      ensures CfbSection(week, rows, true)[3 + 5 * k] == rows[k].date
      ensures CfbSection(week, rows, true)[4 + 5 * k] == rows[k].shortname
      ensures CfbSection(week, rows, true)[5 + 5 * k] == rows[k].name
      ensures CfbSection(week, rows, true)[6 + 5 * k] == rows[k].spread
      ensures CfbSection(week, rows, true)[7 + 5 * k] == RowRule
    {
      EntriesAt(rows, true, k, 0);
      EntriesAt(rows, true, k, 1);
      EntriesAt(rows, true, k, 2);
      EntriesAt(rows, true, k, 3);
      EntriesAt(rows, true, k, 4);
    }
  }

  /** Without rows, each sink gets six lines, with a single 17-dash rule before the college title. */
  lemma ReportWithoutRows(nflWeek: string, cfbWeek: string)
    ensures FileReport(nflWeek, [], cfbWeek, []) ==
      ["NFL Week " + nflWeek, NflRule, SectionRule, "College Week " + cfbWeek + "  ", SectionRule, ""]
    ensures ConsoleReport(nflWeek, [], cfbWeek, []) == FileReport(nflWeek, [], cfbWeek, [])
  {
  }

  /**
   * The two sinks agree on everything up to the first college row; afterwards the console
   * has exactly one more line per college row (its name).
   */
  lemma SinksShareNflSection(nflWeek: string, nflRows: seq<Output>, cfbWeek: string, cfbRows: seq<Output>)
    ensures var m := |NflSection(nflWeek, nflRows)| + 3;
      var f := FileReport(nflWeek, nflRows, cfbWeek, cfbRows);
      var c := ConsoleReport(nflWeek, nflRows, cfbWeek, cfbRows);
      m <= |f| && m <= |c| && f[..m] == c[..m] && |c| == |f| + |cfbRows|
  {
    var nfl := NflSection(nflWeek, nflRows);
    var m := |nfl| + 3;
    EntriesLength(cfbRows, false);
    EntriesLength(cfbRows, true);
    var f := FileReport(nflWeek, nflRows, cfbWeek, cfbRows);
    var c := ConsoleReport(nflWeek, nflRows, cfbWeek, cfbRows);
    assert f == (nfl + CfbHeader(cfbWeek)) + Entries(cfbRows, false);
    assert c == (nfl + CfbHeader(cfbWeek)) + Entries(cfbRows, true);
    assert f[..m] == nfl + CfbHeader(cfbWeek);
    assert c[..m] == nfl + CfbHeader(cfbWeek);
  }
}
