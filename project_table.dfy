/** The project-category tables edited on the projects page: the column list
    shown as one comma-separated text field, the empty row added for the
    current columns, and the cell text shown for a row. */
module ProjectTable {
  import opened Text
  import opened PageModel

  /** The columns of a newly added category. */
  const DefaultColumns: seq<string> := ["Client Name", "Location", "Status"]

  /** A column name as the text field can hand it back: non-empty, with no
      surrounding white space and no comma. */
  predicate IsColumnName(c: string) {
    c != [] && IsTrimmed(c) && ',' !in c
  }

  /** Trim each piece and drop the pieces that trim to nothing. */
  function TrimNonEmpty(pieces: seq<string>): (r: seq<string>)
    ensures |r| <= |pieces|
    ensures forall k :: 0 <= k < |r| ==> r[k] != [] && IsTrimmed(r[k])
  {
    if pieces == [] then []
    else
      var t := Trim(pieces[0]);
      var rest := TrimNonEmpty(pieces[1..]);
      if t == [] then rest
      else
        ConsPiece(t, rest);
        [t] + rest
  }

  /** Putting a clean piece in front of clean pieces keeps them all clean. */
  lemma ConsPiece(t: string, rest: seq<string>)
    requires t != [] && IsTrimmed(t)
    requires forall k :: 0 <= k < |rest| ==> rest[k] != [] && IsTrimmed(rest[k])
    ensures forall k :: 0 <= k < |[t] + rest| ==> ([t] + rest)[k] != [] && IsTrimmed(([t] + rest)[k])
  {
    forall k | 0 <= k < |[t] + rest|
      ensures ([t] + rest)[k] != [] && IsTrimmed(([t] + rest)[k])
    {
      if k > 0 {
        assert ([t] + rest)[k] == rest[k - 1];
      }
    }
  }

  /** Putting a comma-free piece in front of comma-free pieces keeps them all comma-free. */
  lemma ConsNoComma(t: string, rest: seq<string>)
    requires ',' !in t
    requires forall k :: 0 <= k < |rest| ==> ',' !in rest[k]
    ensures forall k :: 0 <= k < |[t] + rest| ==> ',' !in ([t] + rest)[k]
  {
    forall k | 0 <= k < |[t] + rest| ensures ',' !in ([t] + rest)[k] {
      if k > 0 {
        assert ([t] + rest)[k] == rest[k - 1];
      }
    }
  }

  /** One step of `TrimNonEmpty`. */
  lemma TrimNonEmptyStep(pieces: seq<string>)
    requires pieces != []
    ensures TrimNonEmpty(pieces) ==
      (if Trim(pieces[0]) == [] then TrimNonEmpty(pieces[1..]) else [Trim(pieces[0])] + TrimNonEmpty(pieces[1..]))
  {
  }

  /** Trimming only removes characters. */
  lemma TrimKeepsAbsent(s: string, c: char)
    requires c !in s
    ensures c !in Trim(s)
  {
    var t := Trim(s);
    var i :| 0 <= i <= |s| - |t| && IsSliceAt(s, t, i);
    forall j | 0 <= j < |t| ensures t[j] != c {
      assert t[j] == s[i + j];
    }
  }

  lemma {:induction false} TrimNonEmptyNoComma(pieces: seq<string>)
    requires forall k :: 0 <= k < |pieces| ==> ',' !in pieces[k]
    ensures forall k :: 0 <= k < |TrimNonEmpty(pieces)| ==> ',' !in TrimNonEmpty(pieces)[k]
  {
    if pieces != [] {
      TrimKeepsAbsent(pieces[0], ',');
      TrimNonEmptyNoComma(pieces[1..]);
      TrimNonEmptyStep(pieces);
      var t := Trim(pieces[0]);
      if t != [] {
        ConsNoComma(t, TrimNonEmpty(pieces[1..]));
      }
    }
  }

  /** The columns the text field's change handler stores: the text split at
      commas, each piece trimmed, the empty pieces dropped. Every stored
      column is a proper column name. */
  function ParseColumns(text: string): (r: seq<string>)
    ensures forall k :: 0 <= k < |r| ==> IsColumnName(r[k])
  {
    TrimNonEmptyNoComma(Split(text, ','));
    TrimNonEmpty(Split(text, ','))
  }

  /** The text field's value: the columns joined with a comma and a space. */
  function ShowColumns(columns: seq<string>): string {
    Join(columns, ", ")
  }

  /** Each name preceded by a space: the pieces that splitting the shown
      text at commas gives after the first. */
  function SpacedTail(columns: seq<string>): (r: seq<string>)
    ensures |r| == |columns|
    ensures forall k :: 0 <= k < |r| ==> r[k] == " " + columns[k]
  {
    if columns == [] then [] else [" " + columns[0]] + SpacedTail(columns[1..])
  }

  lemma JoinPrefixFirst(p: string, x: string, rest: seq<string>, glue: string)
    ensures Join([p + x] + rest, glue) == p + Join([x] + rest, glue)
  {
    assert ([p + x] + rest)[1..] == rest == ([x] + rest)[1..];
  }

  /** Joining with ", " is joining with "," after a space has been put in
      front of every name but the first. */
  lemma {:induction false} JoinWithSpace(columns: seq<string>)
    requires columns != []
    ensures Join(columns, ", ") == Join([columns[0]] + SpacedTail(columns[1..]), ",")
  {
    if |columns| >= 2 {
      var tail := columns[1..];
      JoinWithSpace(tail);
      assert SpacedTail(tail) == [" " + tail[0]] + SpacedTail(tail[1..]);
      assert tail[1..] == columns[2..];
      JoinPrefixFirst(" ", tail[0], SpacedTail(tail[1..]), ",");
      assert ([columns[0]] + SpacedTail(tail))[1..] == SpacedTail(tail);
    }
  }

  lemma {:induction false} TrimSpacedTail(columns: seq<string>)
    requires forall k :: 0 <= k < |columns| ==> IsColumnName(columns[k])
    ensures TrimNonEmpty(SpacedTail(columns)) == columns
  {
    if columns != [] {
      var spaced := SpacedTail(columns);
      TrimAfterWhitespace(" ", columns[0]);
      assert spaced[0] == " " + columns[0];
      TrimSpacedTail(columns[1..]);
      assert spaced[1..] == SpacedTail(columns[1..]);
      TrimNonEmptyStep(spaced);
      assert [columns[0]] + columns[1..] == columns;
    }
  }

  /** The shown text splits at commas into the first name and the other
      names each preceded by a space. */
  lemma ShownPieces(columns: seq<string>)
    requires columns != []
    requires forall k :: 0 <= k < |columns| ==> IsColumnName(columns[k])
    ensures Split(ShowColumns(columns), ',') == [columns[0]] + SpacedTail(columns[1..])
  {
    JoinWithSpace(columns);
    var pieces := [columns[0]] + SpacedTail(columns[1..]);
    forall k | 0 <= k < |pieces| ensures ',' !in pieces[k] {
      if k > 0 { assert pieces[k] == " " + columns[k]; }
    }
    SplitJoin(pieces, ',');
  }

  /** Trimming those pieces gives the names back. */
  lemma TrimPieces(columns: seq<string>)
    requires columns != []
    requires forall k :: 0 <= k < |columns| ==> IsColumnName(columns[k])
    ensures TrimNonEmpty([columns[0]] + SpacedTail(columns[1..])) == columns
  {
    var pieces := [columns[0]] + SpacedTail(columns[1..]);
    TrimTrimmed(columns[0]);
    TrimSpacedTail(columns[1..]);
    assert pieces[0] == columns[0] && pieces[1..] == SpacedTail(columns[1..]);
    TrimNonEmptyStep(pieces);
    assert [columns[0]] + columns[1..] == columns;
  }

  /** Showing a list of column names and reading the text back gives the
      same list: the field round-trips. */
  lemma ParseShow(columns: seq<string>)
    requires forall k :: 0 <= k < |columns| ==> IsColumnName(columns[k])
    ensures ParseColumns(ShowColumns(columns)) == columns
  {
    if columns == [] {
      assert Split("", ',') == [""];
    } else {
      ShownPieces(columns);
      TrimPieces(columns);
    }
  }

  /** Editing is stable: what the handler stored shows as text that parses
      back to the same columns. */
  lemma ParseShowParse(text: string)
    ensures ParseColumns(ShowColumns(ParseColumns(text))) == ParseColumns(text)
  {
    ParseShow(ParseColumns(text));
  }

  /** The default columns of a new category survive the text field. */
  lemma DefaultColumnsRoundTrip()
    ensures ParseColumns(ShowColumns(DefaultColumns)) == DefaultColumns
  {
    var d := DefaultColumns;
    assert IsColumnName(d[0]);
    assert IsColumnName(d[1]);
    assert IsColumnName(d[2]);
    ParseShow(d);
  }

  /** A new category: the given id (the editor uses the current time), the
      title "New Category", the default columns and no rows. */
  function NewCategory(id: string): (c: ProjectCategory)
    ensures c.id == id && c.rows == [] && c.columns == DefaultColumns
    ensures c.title == "New Category"
  {
    ProjectCategory(id, "New Category", DefaultColumns, [])
  }

  /** The row added by "Add Row": every current column set to the empty
      string, one column at a time. */
  method NewRow(columns: seq<string>) returns (row: Row)
    ensures row.Keys == set c | c in columns
    ensures forall c :: c in row ==> row[c] == ""
  {
    row := map[];
    for i := 0 to |columns|
      invariant row.Keys == set c | c in columns[..i]
      invariant forall c :: c in row ==> row[c] == ""
    {
      assert columns[..i + 1] == columns[..i] + [columns[i]];
      row := row[columns[i] := ""];
    }
    assert columns[..|columns|] == columns;
  }

  /** The text a cell shows: the row's value for the column, blank when the
      row has no such key. */
  function CellText(row: Row, column: string): (t: string)
    ensures column !in row ==> t == ""
    ensures column in row ==> t == row[column]
  {
    if column in row then row[column] else ""
  }
}
