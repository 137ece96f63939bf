/**
 Result queues: rows pushed in the order of the query, counted, and popped from the tail while they
 are printed.
 */
module Results {
  import opened Common
  import opened CursorQueue

  // A row of a result: a location, a consulate, a consular district or a zip code. The columns are
  // its codes as they are printed; the text is its name or its zip code.
  datatype Row = Row(maeCode: int, columns: seq<string>, text: Option<string>)

  // One line sent to a client.
  datatype Answer = Count(n: int) | Line(text: string) | Done | Undefined | Unavailable

  // How a client has its rows printed: names are sent in an encoding that may lack them, codes
  // are sent as they are, and some rows are sent even without a text.
  datatype Printer =
    | Encoding(delimiter: string, encoding: map<string, string>)
    | Plain(delimiter: string)
    | Always(delimiter: string)
  {
    predicate Prints(row: Row) {
      Always? || (row.text.Some? && (Encoding? ==> row.text.value in encoding))
    }

    // A missing text shows as the C library prints a null string.
    function Text(row: Row): string
      requires Prints(row)
    {
      var text := if row.text.None? then "(null)" else row.text.value;
      Columns(row.columns) + if Encoding? then encoding[text] else text
    }

    function Columns(columns: seq<string>): string {
      if columns == [] then "" else columns[0] + delimiter + Columns(columns[1..])
    }

    function LineOf(row: Row): (r: seq<Answer>)
      ensures |r| == if Prints(row) then 1 else 0
    {
      if Prints(row) then [Line(Text(row))] else []
    }
  }

  // Every column is followed by the delimiter, and the columns keep their order.
  lemma {:induction false} ColumnsInOrder(line: Printer, columns: seq<string>, more: seq<string>, column: string)
    ensures line.Columns([]) == ""
    ensures line.Columns(columns + [column] + more)
         == line.Columns(columns) + column + line.delimiter + line.Columns(more)
    decreases |columns|
  {
    var all := columns + [column] + more;
    if columns == [] {
      assert all[0] == column && all[1..] == more;
    } else {
      assert all[0] == columns[0] && all[1..] == columns[1..] + [column] + more;
      ColumnsInOrder(line, columns[1..], more, column);
    }
  }

  // A row of two codes as each way of printing shows it, and without a text.
  lemma RowOfTwo(maeCode: int, a: string, b: string, text: string, d: string, encoding: map<string, string>)
    ensures var row := Row(maeCode, [a, b], Some(text));
            && Plain(d).LineOf(row) == Always(d).LineOf(row) == [Line(a + d + b + d + text)]
            && Encoding(d, encoding).LineOf(row)
            == if text in encoding then [Line(a + d + b + d + encoding[text])] else []
    ensures var row := Row(maeCode, [a, b], None);
            && Plain(d).LineOf(row) == Encoding(d, encoding).LineOf(row) == []
            && Always(d).LineOf(row) == [Line(a + d + b + d + "(null)")]
  {
    TwoColumns(Plain(d), a, b);
    TwoColumns(Always(d), a, b);
    TwoColumns(Encoding(d, encoding), a, b);
  }

  lemma TwoColumns(line: Printer, a: string, b: string)
    ensures line.Columns([a, b]) == a + line.delimiter + b + line.delimiter
  {
    ColumnsInOrder(line, [], [b], a);
    ColumnsInOrder(line, [], [], b);
    assert [] + [a] + [b] == [a, b] && [] + [b] + [] == [b];
  }

  // The lines of a result, from its last row to its first.
  function Lines(rows: seq<Row>, line: Printer): seq<Answer>
    decreases |rows|
  {
    if rows == [] then [] else line.LineOf(rows[|rows| - 1]) + Lines(rows[..|rows| - 1], line)
  }

  function Printed(rows: seq<Row>, announce: bool, line: Printer): seq<Answer> {
    (if announce then [Count(|rows|)] else []) + Lines(rows, line)
  }

  lemma NoLines(line: Printer)
    ensures Lines([], line) == []
  {
  }

  lemma LinesStep(out: seq<Answer>, rows: seq<Row>, line: Printer)
    requires rows != []
    ensures out + Lines(rows, line)
         == (out + line.LineOf(rows[|rows| - 1])) + Lines(rows[..|rows| - 1], line)
  {
    hide Printer.LineOf;
  }

  // Pops the rows until none is left.
  method PrintRows(q: Queue<Row>, announce: bool, line: Printer) returns (found: bool, out: seq<Answer>)
    modifies q
    ensures q.items == [] && q.Valid()
    ensures out == Printed(old(q.items), announce, line)
    ensures found <==> Lines(old(q.items), line) != []
  {
    hide Printer.Columns, Printer.Text, Printer.Prints, Lines;
    out := if announce then [Count(q.Length())] else [];
    ghost var announced, lines := out, Lines(q.items, line);
    found := false;
    while true
      invariant announced + lines == out + Lines(q.items, line)
      invariant |out| >= |announced| && (found <==> |out| > |announced|)
      decreases |q.items|
    {
      ghost var items := q.items;
      var row := q.Pop();
      if row.None? {
        NoLines(line);
        break;
      }
      assert q.items == items[..|items| - 1];
      LinesStep(out, items, line);
      if !line.Prints(row.value) {
        assert out + [] == out;
        continue;
      }
      out := out + [Line(line.Text(row.value))];
      found := true;
    }
  }

  // Where the rows that are printed stand, in the order of printing: from the last one down.
  function PrintedAt(rows: seq<Row>, line: Printer): (at: seq<nat>)
    ensures forall i :: 0 <= i < |at| ==> at[i] < |rows| && line.Prints(rows[at[i]])
    ensures forall i, j :: 0 <= i < j < |at| ==> at[i] > at[j]
    ensures forall k: nat :: k < |rows| && line.Prints(rows[k]) ==> k in at
    decreases |rows|
  {
    if rows == [] then []
    else (if line.Prints(rows[|rows| - 1]) then [|rows| - 1] else []) + PrintedAt(rows[..|rows| - 1], line)
  }

  // Each row that can be printed is printed once and nothing else is, the last row first: line i
  // is the row at place i of PrintedAt.
  lemma {:induction false} EveryRowIsPrintedOnce(rows: seq<Row>, line: Printer, i: nat)
    requires i < |PrintedAt(rows, line)|
    ensures |Lines(rows, line)| == |PrintedAt(rows, line)|
    ensures Lines(rows, line)[i] == Line(line.Text(rows[PrintedAt(rows, line)[i]]))
    decreases |rows|
  {
    hide Printer.Columns, Printer.Text, Printer.Prints;
    var init := rows[..|rows| - 1];
    LinesPerPlace(rows, line);
    if !line.Prints(rows[|rows| - 1]) {
      EveryRowIsPrintedOnce(init, line, i);
    } else if i > 0 {
      EveryRowIsPrintedOnce(init, line, i - 1);
    }
  }

  lemma {:induction false} LinesPerPlace(rows: seq<Row>, line: Printer)
    ensures |Lines(rows, line)| == |PrintedAt(rows, line)|
    decreases |rows|
  {
    hide Printer.Columns, Printer.Text, Printer.Prints;
    if rows != [] {
      LinesPerPlace(rows[..|rows| - 1], line);
    }
  }

  predicate AllPrint(rows: seq<Row>, line: Printer) {
    forall k :: 0 <= k < |rows| ==> line.Prints(rows[k])
  }

  lemma AllPrintSnoc(rows: seq<Row>, row: Row, line: Printer)
    ensures AllPrint(rows + [row], line) <==> AllPrint(rows, line) && line.Prints(row)
  {
    hide Printer.Prints;
    if AllPrint(rows + [row], line) {
      assert (rows + [row])[|rows|] == row;
      forall k | 0 <= k < |rows| ensures line.Prints(rows[k]) {
        assert (rows + [row])[k] == rows[k];
      }
    }
  }

  // The announced count is the number of lines that follow exactly when every row can be printed.
  lemma {:induction false} CountIsHonest(rows: seq<Row>, line: Printer)
    ensures |Lines(rows, line)| <= |rows|
    ensures |Lines(rows, line)| == |rows| <==> AllPrint(rows, line)
    decreases |rows|
  {
    hide AllPrint, Printer.Prints;
    if rows == [] {
      NoneIsAll(line);
    } else {
      var init := rows[..|rows| - 1];
      CountIsHonest(init, line);
      AllPrintSnoc(init, rows[|rows| - 1], line);
      assert rows == init + [rows[|rows| - 1]];
    }
  }

  lemma NoneIsAll(line: Printer)
    ensures AllPrint([], line)
  {
  }

  // Rows that a query gave in descending order are printed in ascending order: of any two lines,
  // the earlier one shows the row that comes before.
  lemma DescendingPrintsAscending(rows: seq<Row>, line: Printer, before: (Row, Row) -> bool, i: nat, j: nat)
    requires forall a, b :: 0 <= a < b < |rows| ==> before(rows[b], rows[a])
    requires i < j < |Lines(rows, line)|
    ensures exists a, b :: 0 <= b < a < |rows|
                        && line.Prints(rows[a]) && line.Prints(rows[b]) && before(rows[a], rows[b])
                        && Lines(rows, line)[i] == Line(line.Text(rows[a]))
                        && Lines(rows, line)[j] == Line(line.Text(rows[b]))
  {
    LinesPerPlace(rows, line);
    EveryRowIsPrintedOnce(rows, line, i);
    EveryRowIsPrintedOnce(rows, line, j);
    var a, b := PrintedAt(rows, line)[i], PrintedAt(rows, line)[j];
    assert before(rows[a], rows[b]) && Lines(rows, line)[i] == Line(line.Text(rows[a]));
  }

  // Pushes the rows that a query gives, one at a time.
  method PushRows(q: Queue<Row>, rows: seq<Row>)
    modifies q
    ensures q.items == old(q.items) + rows && (old(q.Valid()) ==> q.Valid())
  {
    for i := 0 to |rows|
      invariant q.items == old(q.items) + rows[..i] && (old(q.Valid()) ==> q.Valid())
    {
      q.Push(rows[i]);
    }
  }

  function Matching(rows: seq<Row>, maeCode: int): seq<Row>
    decreases |rows|
  {
    if rows == [] then []
    else
      var n := |rows| - 1;
      Matching(rows[..n], maeCode) + if rows[n].maeCode == maeCode then [rows[n]] else []
  }

  lemma MatchingStep(rows: seq<Row>, i: nat, maeCode: int)
    requires i < |rows|
    ensures Matching(rows[..i + 1], maeCode)
         == Matching(rows[..i], maeCode) + if rows[i].maeCode == maeCode then [rows[i]] else []
  {
    assert rows[..i + 1][..i] == rows[..i];
  }

  lemma MatchingNone(maeCode: int)
    ensures Matching([], maeCode) == []
  {
  }

  // Walks the list of all consular districts with its own cursor.
  method FindDistricts(all: Queue<Row>, maeCode: int, found: Queue<Row>)
    requires all.Valid() && all != found
    modifies all, found
    ensures all.Valid() && all.items == old(all.items)
    ensures found.items == old(found.items) + Matching(all.items, maeCode) && (old(found.Valid()) ==> found.Valid())
  {
    hide Matching;
    MatchingNone(maeCode);
    var row := all.GetFirst();
    ghost var i := 0;
    while row.Some?
      invariant all.Valid() && all.items == old(all.items) && (old(found.Valid()) ==> found.Valid())
      invariant row.Some? ==> 0 <= i < |all.items| && all.position == i && row.value == all.items[i]
      invariant row.None? ==> i == |all.items|
      invariant found.items == old(found.items) + Matching(all.items[..i], maeCode)
      decreases row.Some?, |all.items| - i
    {
      var target := row.value.maeCode;
      MatchingStep(all.items, i, maeCode);
      if target == maeCode {
        found.Push(row.value);
      }
      row := all.GetNext();
      i := i + 1;
    }
    assert all.items[..i] == all.items;
  }

  // The districts found are in the order of the list.
  lemma {:induction false} MatchingAppend(rows: seq<Row>, more: seq<Row>, maeCode: int)
    ensures Matching(rows + more, maeCode) == Matching(rows, maeCode) + Matching(more, maeCode)
    decreases |more|
  {
    if more == [] {
      assert rows + more == rows;
    } else {
      var n := |more| - 1;
      assert (rows + more)[..|rows + more| - 1] == rows + more[..n];
      MatchingAppend(rows, more[..n], maeCode);
    }
  }

  // The districts of the code are all found, as many times as they are listed, and no other.
  lemma {:induction false} MatchingIsExact(rows: seq<Row>, maeCode: int, row: Row)
    ensures multiset(Matching(rows, maeCode))[row] == if row.maeCode == maeCode then multiset(rows)[row] else 0
    decreases |rows|
  {
    if rows != [] {
      var n := |rows| - 1;
      MatchingIsExact(rows[..n], maeCode, row);
      assert rows == rows[..n] + [rows[n]];
    }
  }
}
