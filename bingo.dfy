/** The bingo verifier page: a registry of 5x5 cards with a FREE centre, the
    list of drawn numbers, card analysis against the drawn numbers, manual
    card entry, random card generation and the verification log. */
module Bingo {
  import opened Common
  import Sorting

  // ---------------------------------------------------------------------
  // Data model

  /** A card cell: the FREE centre or a number.  Numbers typed by hand go
      through `Number(token)`, so a cell may hold a non-integral value. */
  datatype Cell = Free | Num(value: real)

  /** Rows of cells, `grid[row][column]`. */
  type Grid = seq<seq<Cell>>

  datatype Card = Card(id: string, labelText: string, grid: Grid, createdAt: string, notes: Option<string>)

  datatype Status = Valid | Invalid | NotFound

  datatype VerificationResult = VerificationResult(
    cardId: string,
    timestamp: string,
    status: Status,
    completedLines: seq<string>,
    missingNumbers: seq<real>,
    snapshot: Option<Grid>)

  datatype ParseError = Blank | WrongCount | NotNumeric | Duplicate | OutOfRange

  /** The manual-entry form. */
  datatype Draft = Draft(labelText: string, numbers: string, notes: string, error: Option<ParseError>)

  const EmptyDraft: Draft := Draft("", "", "", None)

  /** The page state: drawn numbers in call order, the card registry (newest
      first), the verification log (newest first) and the last result. */
  datatype Board = Board(
    drawn: seq<int>,
    cards: seq<Card>,
    logs: seq<VerificationResult>,
    lastResult: Option<VerificationResult>,
    draft: Draft)

  datatype Column = Column(heading: char, start: int, end: int)

  /** The B, I, N, G and O columns and their number ranges. */
  const ColumnRanges: seq<Column> := [
    Column('B', 1, 15), Column('I', 16, 30), Column('N', 31, 45),
    Column('G', 46, 60), Column('O', 61, 75)]

  predicate IsGrid(g: Grid)
  {
    |g| == 5 && forall r :: 0 <= r < 5 ==> |g[r]| == 5
  }

  predicate IsCentre(r: int, c: int) { r == 2 && c == 2 }

  predicate FreeOnlyAtCentre(g: Grid)
    requires IsGrid(g)
  {
    forall r, c :: 0 <= r < 5 && 0 <= c < 5 ==> (g[r][c] == Free <==> IsCentre(r, c))
  }

  /** A card as the page means it: FREE exactly at the centre and 24 distinct
      numbers from 1 to 75 around it. */
  predicate ValidCard(g: Grid)
  {
    IsGrid(g) && FreeOnlyAtCentre(g)
    && (forall r, c :: 0 <= r < 5 && 0 <= c < 5 && !IsCentre(r, c) ==> 1.0 <= g[r][c].value <= 75.0)
    && (forall r1, c1, r2, c2 ::
          0 <= r1 < 5 && 0 <= c1 < 5 && 0 <= r2 < 5 && 0 <= c2 < 5 && (r1, c1) != (r2, c2)
          ==> g[r1][c1] != g[r2][c2])
  }

  // ---------------------------------------------------------------------
  // Analysis of a card against the drawn numbers

  /** `drawnSet.has(v)`: the drawn list holds integers, so only an integral
      value can have been called. */
  predicate Called(drawn: seq<int>, v: real)
  {
    v.Floor as real == v && v.Floor in drawn
  }

  /** `isMarked`: the FREE cell, or a cell whose number has been called. */
  predicate Marked(cell: Cell, drawn: seq<int>)
  {
    cell.Free? || Called(drawn, cell.value)
  }

  datatype Line = Row(r: nat) | ColumnLine(c: nat) | MainDiagonal | AntiDiagonal

  /** The twelve lines in the order in which they are checked: rows 0-4,
      columns 0-4, the main diagonal, the anti-diagonal. */
  function LineAt(k: int): Line
  {
    if k < 5 then Row(if k < 0 then 0 else k)
    else if k < 10 then ColumnLine(k - 5)
    else if k == 10 then MainDiagonal
    else AntiDiagonal
  }

  /** The position of a line in the checking order. */
  function LineRank(l: Line): int
  {
    match l
    case Row(r) => r
    case ColumnLine(c) => 5 + c
    case MainDiagonal => 10
    case AntiDiagonal => 11
  }

  predicate ValidLine(l: Line)
  {
    match l
    case Row(r) => r < 5
    case ColumnLine(c) => c < 5
    case _ => true
  }

  /** The five cells of a line, top to bottom or left to right. */
  function LineCells(g: Grid, l: Line): (cells: seq<Cell>)
    requires IsGrid(g) && ValidLine(l)
    ensures |cells| == 5
  {
    match l
    case Row(r) => g[r]
    case ColumnLine(c) => seq(5, i requires 0 <= i < 5 => g[i][c])
    case MainDiagonal => seq(5, i requires 0 <= i < 5 => g[i][i])
    case AntiDiagonal => seq(5, i requires 0 <= i < 5 => g[i][4 - i])
  }

  /** `cells.every(isMarked)`. */
  predicate AllMarked(cells: seq<Cell>, drawn: seq<int>)
  {
    forall i :: 0 <= i < |cells| ==> Marked(cells[i], drawn)
  }

  /** Every cell of the line is marked. */
  predicate Completes(g: Grid, drawn: seq<int>, l: Line)
  {
    IsGrid(g) && ValidLine(l) && AllMarked(LineCells(g, l), drawn)
  }

  /** The completed lines among the first k lines of the checking order. */
  function CompletedUpTo(g: Grid, drawn: seq<int>, k: nat): seq<Line>
    requires k <= 12
  {
    if k == 0 then []
    else CompletedUpTo(g, drawn, k - 1) + (if Completes(g, drawn, LineAt(k - 1)) then [LineAt(k - 1)] else [])
  }

  /** The completed lines, in checking order. */
  function CompletedLines(g: Grid, drawn: seq<int>): seq<Line>
  {
    CompletedUpTo(g, drawn, 12)
  }

  /** The text pushed into completedLines for a line. */
  function Label(l: Line): string
  {
    match l
    case Row(r) => "横ライン " + NatToString(r + 1)
    case ColumnLine(c) => "縦ライン " + NatToString(c + 1)
    case MainDiagonal => "斜めライン \U{2198}\U{FE0E}"
    case AntiDiagonal => "斜めライン \U{2197}\U{FE0E}"
  }

  function Labels(ls: seq<Line>): (r: seq<string>)
    ensures |r| == |ls|
  {
    if ls == [] then [] else [Label(ls[0])] + Labels(ls[1..])
  }

  function CompletedLabels(g: Grid, drawn: seq<int>): seq<string>
  {
    Labels(CompletedLines(g, drawn))
  }

  /** `grid.flat()`: the cells in row-major order. */
  function Flat(g: Grid): seq<Cell>
  {
    if g == [] then [] else Flat(g[..|g| - 1]) + g[|g| - 1]
  }

  /** The numbers of the non-FREE cells that have not been called, in order. */
  function MissingOf(cells: seq<Cell>, drawn: seq<int>): seq<real>
  {
    if cells == [] then []
    else
      var last := cells[|cells| - 1];
      MissingOf(cells[..|cells| - 1], drawn) + (if last.Num? && !Called(drawn, last.value) then [last.value] else [])
  }

  function MissingNumbers(g: Grid, drawn: seq<int>): seq<real>
  {
    MissingOf(Flat(g), drawn)
  }

  lemma {:induction false} LabelsAppend(a: seq<Line>, b: seq<Line>)
    ensures Labels(a + b) == Labels(a) + Labels(b)
  {
    if a == [] {
      assert a + b == b;
    } else {
      assert (a + b)[0] == a[0];
      assert (a + b)[1..] == a[1..] + b;
      LabelsAppend(a[1..], b);
    }
  }

  /** One more line checked adds its label exactly when it is complete. */
  lemma {:induction false} StepLines(g: Grid, drawn: seq<int>, k: nat)
    requires k < 12
    ensures Labels(CompletedUpTo(g, drawn, k + 1))
         == Labels(CompletedUpTo(g, drawn, k)) + (if Completes(g, drawn, LineAt(k)) then [Label(LineAt(k))] else [])
  {
    LabelsAppend(CompletedUpTo(g, drawn, k), if Completes(g, drawn, LineAt(k)) then [LineAt(k)] else []);
  }

  lemma {:induction false} DiagonalSteps(g: Grid, drawn: seq<int>)
    requires IsGrid(g)
    ensures CompletedLabels(g, drawn) == Labels(CompletedUpTo(g, drawn, 10))
      + (if AllMarked(LineCells(g, MainDiagonal), drawn) then [Label(MainDiagonal)] else [])
      + (if AllMarked(LineCells(g, AntiDiagonal), drawn) then [Label(AntiDiagonal)] else [])
  {
    StepLines(g, drawn, 10);
    StepLines(g, drawn, 11);
  }

  /** analyseCard: rows, then columns, then the two diagonals, then the
      uncalled numbers of `grid.flat()`. */
  method AnalyseCard(card: Card, drawn: seq<int>) returns (completedLines: seq<string>, missingNumbers: seq<real>)
    requires IsGrid(card.grid)
    ensures completedLines == CompletedLabels(card.grid, drawn)
    ensures missingNumbers == MissingNumbers(card.grid, drawn)
  {
    var g := card.grid;
    completedLines := [];
    var row := 0;
    while row < 5
      invariant 0 <= row <= 5
      invariant completedLines == Labels(CompletedUpTo(g, drawn, row))
    {
      StepLines(g, drawn, row);
      var rowCells := LineCells(g, Row(row));
      if AllMarked(rowCells, drawn) {
        completedLines := completedLines + [Label(Row(row))];
      }
      row := row + 1;
    }
    var column := 0;
    while column < 5
      invariant 0 <= column <= 5
      invariant completedLines == Labels(CompletedUpTo(g, drawn, 5 + column))
    {
      StepLines(g, drawn, 5 + column);
      var columnCells := LineCells(g, ColumnLine(column));
      if AllMarked(columnCells, drawn) {
        completedLines := completedLines + [Label(ColumnLine(column))];
      }
      column := column + 1;
    }
    DiagonalSteps(g, drawn);
    var mainDiagonal := LineCells(g, MainDiagonal);
    if AllMarked(mainDiagonal, drawn) {
      completedLines := completedLines + [Label(MainDiagonal)];
    }
    var antiDiagonal := LineCells(g, AntiDiagonal);
    if AllMarked(antiDiagonal, drawn) {
      completedLines := completedLines + [Label(AntiDiagonal)];
    }

    missingNumbers := CollectMissing(Flat(g), drawn);
  }

  /** The `grid.flat().forEach` loop: pushes every non-FREE, uncalled number. */
  method CollectMissing(flat: seq<Cell>, drawn: seq<int>) returns (missingNumbers: seq<real>)
    ensures missingNumbers == MissingOf(flat, drawn)
  {
    missingNumbers := [];
    var i := 0;
    while i < |flat|
      invariant 0 <= i <= |flat|
      invariant missingNumbers == MissingOf(flat[..i], drawn)
    {
      assert flat[..i + 1][..i] == flat[..i];
      var cell := flat[i];
      if cell.Num? && !Called(drawn, cell.value) {
        missingNumbers := missingNumbers + [cell.value];
      }
      i := i + 1;
    }
    assert flat[..|flat|] == flat;
  }

  // ---------------------------------------------------------------------
  // What the analysis means

  lemma {:induction false} UpToMembers(g: Grid, drawn: seq<int>, k: nat)
    requires k <= 12
    ensures forall l :: l in CompletedUpTo(g, drawn, k) <==> ValidLine(l) && LineRank(l) < k && Completes(g, drawn, l)
  {
    if k > 0 {
      UpToMembers(g, drawn, k - 1);
      forall l | ValidLine(l) ensures LineRank(l) == k - 1 <==> l == LineAt(k - 1) {}
    }
  }

  /** A line is reported exactly when it is complete. */
  lemma {:induction false} ReportedIffComplete(g: Grid, drawn: seq<int>, l: Line)
    requires ValidLine(l)
    ensures l in CompletedLines(g, drawn) <==> Completes(g, drawn, l)
  {
    UpToMembers(g, drawn, 12);
  }

  /** Row r is reported exactly when all five of its cells are marked. */
  lemma {:induction false} RowReported(g: Grid, drawn: seq<int>, r: nat)
    requires IsGrid(g) && r < 5
    ensures Row(r) in CompletedLines(g, drawn) <==> forall c :: 0 <= c < 5 ==> Marked(g[r][c], drawn)
  {
    ReportedIffComplete(g, drawn, Row(r));
    RowCells(g, drawn, r);
  }

  lemma {:induction false} RowCells(g: Grid, drawn: seq<int>, r: nat)
    requires IsGrid(g) && r < 5
    ensures Completes(g, drawn, Row(r)) <==> forall c :: 0 <= c < 5 ==> Marked(g[r][c], drawn)
  {
    assert LineCells(g, Row(r)) == g[r];
  }

  lemma {:induction false} ColumnCells(g: Grid, drawn: seq<int>, c: nat)
    requires IsGrid(g) && c < 5
    ensures Completes(g, drawn, ColumnLine(c)) <==> forall r :: 0 <= r < 5 ==> Marked(g[r][c], drawn)
  {
    var cells := LineCells(g, ColumnLine(c));
    assert forall i :: 0 <= i < 5 ==> cells[i] == g[i][c];
  }

  lemma {:induction false} DiagonalCells(g: Grid, drawn: seq<int>)
    requires IsGrid(g)
    ensures Completes(g, drawn, MainDiagonal) <==> forall i :: 0 <= i < 5 ==> Marked(g[i][i], drawn)
    ensures Completes(g, drawn, AntiDiagonal) <==> forall i :: 0 <= i < 5 ==> Marked(g[i][4 - i], drawn)
  {
    var md := LineCells(g, MainDiagonal);
    assert forall i :: 0 <= i < 5 ==> md[i] == g[i][i];
    var ad := LineCells(g, AntiDiagonal);
    assert forall i :: 0 <= i < 5 ==> ad[i] == g[i][4 - i];
  }

  /** Column c is reported exactly when all five of its cells are marked. */
  lemma {:induction false} ColumnReported(g: Grid, drawn: seq<int>, c: nat)
    requires IsGrid(g) && c < 5
    ensures ColumnLine(c) in CompletedLines(g, drawn) <==> forall r :: 0 <= r < 5 ==> Marked(g[r][c], drawn)
  {
    ReportedIffComplete(g, drawn, ColumnLine(c));
    ColumnCells(g, drawn, c);
  }

  /** The diagonals grid[i][i] and grid[i][4 - i] are reported exactly when
      all five of their cells are marked. */
  lemma {:induction false} DiagonalsReported(g: Grid, drawn: seq<int>)
    requires IsGrid(g)
    ensures MainDiagonal in CompletedLines(g, drawn) <==> forall i :: 0 <= i < 5 ==> Marked(g[i][i], drawn)
    ensures AntiDiagonal in CompletedLines(g, drawn) <==> forall i :: 0 <= i < 5 ==> Marked(g[i][4 - i], drawn)
  {
    ReportedIffComplete(g, drawn, MainDiagonal);
    ReportedIffComplete(g, drawn, AntiDiagonal);
    DiagonalCells(g, drawn);
  }

  lemma {:induction false} UpToIncreasing(g: Grid, drawn: seq<int>, k: nat)
    requires k <= 12
    ensures |CompletedUpTo(g, drawn, k)| <= k
    ensures forall i :: 0 <= i < |CompletedUpTo(g, drawn, k)| ==> LineRank(CompletedUpTo(g, drawn, k)[i]) < k
    ensures forall i, j :: 0 <= i < j < |CompletedUpTo(g, drawn, k)| ==>
      LineRank(CompletedUpTo(g, drawn, k)[i]) < LineRank(CompletedUpTo(g, drawn, k)[j])
  {
    if k > 0 {
      UpToIncreasing(g, drawn, k - 1);
      assert LineRank(LineAt(k - 1)) == k - 1;
    }
  }

  /** At most twelve lines come out, rows first, then columns, then the
      two diagonals. */
  lemma {:induction false} LinesInOrder(g: Grid, drawn: seq<int>)
    ensures |CompletedLines(g, drawn)| <= 12
    ensures forall i, j :: 0 <= i < j < |CompletedLines(g, drawn)| ==>
      LineRank(CompletedLines(g, drawn)[i]) < LineRank(CompletedLines(g, drawn)[j])
  {
    UpToIncreasing(g, drawn, 12);
  }

  lemma {:induction false} FlatGrid(g: Grid)
    requires IsGrid(g)
    ensures Flat(g) == g[0] + g[1] + g[2] + g[3] + g[4]
    ensures |Flat(g)| == 25
    ensures forall r, c :: 0 <= r < 5 && 0 <= c < 5 ==> Flat(g)[5 * r + c] == g[r][c]
  {
    assert Flat(g[..1]) == g[0] by { assert g[..1][..0] == []; }
    assert Flat(g[..2]) == g[0] + g[1] by { assert g[..2][..1] == g[..1]; }
    assert Flat(g[..3]) == g[0] + g[1] + g[2] by { assert g[..3][..2] == g[..2]; }
    assert Flat(g[..4]) == g[0] + g[1] + g[2] + g[3] by { assert g[..4][..3] == g[..3]; }
    assert g[..5] == g;
    assert g[..5][..4] == g[..4];
    var f := Flat(g);
    forall r, c | 0 <= r < 5 && 0 <= c < 5 ensures f[5 * r + c] == g[r][c] {
      if r == 0 {} else if r == 1 {} else if r == 2 {} else if r == 3 {} else {}
    }
  }

  lemma {:induction false} MissingOfAppend(a: seq<Cell>, b: seq<Cell>, drawn: seq<int>)
    ensures MissingOf(a + b, drawn) == MissingOf(a, drawn) + MissingOf(b, drawn)
    decreases |b|
  {
    if b == [] {
      assert a + b == a;
    } else {
      var b' := b[..|b| - 1];
      assert (a + b)[..|a + b| - 1] == a + b';
      MissingOfAppend(a, b', drawn);
    }
  }

  lemma {:induction false} MissingOfMembers(cells: seq<Cell>, drawn: seq<int>)
    ensures forall v :: v in MissingOf(cells, drawn) <==>
      exists i :: 0 <= i < |cells| && cells[i] == Num(v) && !Called(drawn, v)
  {
    if cells != [] {
      var init := cells[..|cells| - 1];
      MissingOfMembers(init, drawn);
      forall v ensures v in MissingOf(cells, drawn) <==>
        exists i :: 0 <= i < |cells| && cells[i] == Num(v) && !Called(drawn, v)
      {
        if exists i :: 0 <= i < |cells| && cells[i] == Num(v) && !Called(drawn, v) {
          var i :| 0 <= i < |cells| && cells[i] == Num(v) && !Called(drawn, v);
          if i < |init| { assert init[i] == cells[i]; }
        }
        if v in MissingOf(init, drawn) {
          var i :| 0 <= i < |init| && init[i] == Num(v) && !Called(drawn, v);
          assert cells[i] == init[i];
        }
      }
    }
  }

  /** missingNumbers holds exactly the numbers of the non-FREE cells that
      have not been called. */
  lemma {:induction false} MissingMeaning(g: Grid, drawn: seq<int>)
    requires IsGrid(g)
    ensures forall v :: v in MissingNumbers(g, drawn) <==>
      exists r, c :: 0 <= r < 5 && 0 <= c < 5 && g[r][c] == Num(v) && !Called(drawn, v)
  {
    FlatGrid(g);
    MissingOfMembers(Flat(g), drawn);
    var f := Flat(g);
    forall v ensures v in MissingNumbers(g, drawn) <==>
      exists r, c :: 0 <= r < 5 && 0 <= c < 5 && g[r][c] == Num(v) && !Called(drawn, v)
    {
      if v in MissingNumbers(g, drawn) {
        var i :| 0 <= i < |f| && f[i] == Num(v) && !Called(drawn, v);
        var r, c := i / 5, i % 5;
        assert f[5 * r + c] == g[r][c];
      }
      if exists r, c :: 0 <= r < 5 && 0 <= c < 5 && g[r][c] == Num(v) && !Called(drawn, v) {
        var r, c :| 0 <= r < 5 && 0 <= c < 5 && g[r][c] == Num(v) && !Called(drawn, v);
        assert f[5 * r + c] == g[r][c];
      }
    }
  }

  lemma {:induction false} MissingOfAllNumbers(cells: seq<Cell>)
    requires forall i :: 0 <= i < |cells| ==> cells[i].Num?
    ensures |MissingOf(cells, [])| == |cells|
  {
    if cells != [] { MissingOfAllNumbers(cells[..|cells| - 1]); }
  }

  /** With nothing drawn only the centre is marked, so no line is complete. */
  lemma {:induction false} NoLineWithoutDraws(g: Grid, l: Line)
    requires IsGrid(g) && FreeOnlyAtCentre(g) && ValidLine(l)
    ensures !Completes(g, [], l)
  {
    var cells := LineCells(g, l);
    match l {
      case Row(r) =>
        var k := if r == 2 then 0 else 2;
        assert cells[k] == g[r][k];
        assert !Marked(cells[k], []);
      case ColumnLine(c) =>
        var k := if c == 2 then 0 else 2;
        assert cells[k] == g[k][c];
        assert !Marked(cells[k], []);
      case MainDiagonal =>
        assert cells[0] == g[0][0];
        assert !Marked(cells[0], []);
      case AntiDiagonal =>
        assert cells[0] == g[0][4];
        assert !Marked(cells[0], []);
    }
  }

  /** Before any number is drawn a card has no completed line. */
  lemma {:induction false} EmptyDrawNoLines(g: Grid)
    requires IsGrid(g) && FreeOnlyAtCentre(g)
    ensures CompletedLines(g, []) == []
  {
    var ls := CompletedLines(g, []);
    if ls != [] {
      var l := ls[0];
      assert l in ls;
      UpToMembers(g, [], 12);
      NoLineWithoutDraws(g, l);
    }
  }

  /** Before any number is drawn all 24 numbers of a card are missing. */
  lemma {:induction false} EmptyDrawMissing(g: Grid)
    requires IsGrid(g) && FreeOnlyAtCentre(g)
    ensures |MissingNumbers(g, [])| == 24
  {
    FlatGrid(g);
    var mid := g[2];
    assert mid == mid[..2] + [Free] + mid[3..];
    MissingOfAppend(g[0] + g[1], mid, []);
    MissingOfAppend(g[0] + g[1] + mid, g[3], []);
    MissingOfAppend(g[0] + g[1] + mid + g[3], g[4], []);
    MissingOfAppend(g[0], g[1], []);
    MissingOfAppend(mid[..2] + [Free], mid[3..], []);
    MissingOfAppend(mid[..2], [Free], []);
    assert MissingOf([Free], []) == [] by { assert [Free][..0] == []; }
    MissingOfAllNumbers(g[0]);
    MissingOfAllNumbers(g[1]);
    MissingOfAllNumbers(g[3]);
    MissingOfAllNumbers(g[4]);
    MissingOfAllNumbers(mid[..2]);
    MissingOfAllNumbers(mid[3..]);
  }

  lemma {:induction false} MissingOfShrinks(cells: seq<Cell>, drawn: seq<int>, more: seq<int>)
    requires forall x :: x in drawn ==> x in more
    ensures |MissingOf(cells, more)| <= |MissingOf(cells, drawn)|
    ensures forall v :: v in MissingOf(cells, more) ==> v in MissingOf(cells, drawn)
  {
    if cells != [] { MissingOfShrinks(cells[..|cells| - 1], drawn, more); }
  }

  /** Drawing more numbers only adds completed lines and only removes missing numbers. */
  lemma {:induction false} MoreDrawnMonotone(g: Grid, drawn: seq<int>, more: seq<int>)
    requires forall x :: x in drawn ==> x in more
    ensures forall l :: l in CompletedLines(g, drawn) ==> l in CompletedLines(g, more)
    ensures |MissingNumbers(g, more)| <= |MissingNumbers(g, drawn)|
    ensures forall v :: v in MissingNumbers(g, more) ==> v in MissingNumbers(g, drawn)
  {
    forall l | l in CompletedLines(g, drawn) ensures l in CompletedLines(g, more) {
      UpToMembers(g, drawn, 12);
      UpToMembers(g, more, 12);
    }
    MissingOfShrinks(Flat(g), drawn, more);
  }

  // ---------------------------------------------------------------------
  // The drawn numbers

  /** toggleNumber: a drawn number is withdrawn, any other number is called. */
  function ToggleNumber(b: Board, n: int): (r: Board)
    ensures r == b.(drawn := r.drawn)
    ensures n in b.drawn ==> n !in r.drawn && forall x :: x in r.drawn <==> x in b.drawn && x != n
    ensures n !in b.drawn ==> r.drawn == b.drawn + [n]
  {
    b.(drawn := Toggle(b.drawn, n))
  }

  /** Toggling keeps the drawn list free of repeats. */
  lemma {:induction false} ToggleNumberNoDup(b: Board, n: int)
    requires NoDup(b.drawn)
    ensures NoDup(ToggleNumber(b, n).drawn)
  {
    ToggleNoDup(b.drawn, n);
  }

  /** Toggling a number twice restores the drawn list when it was not drawn,
      and restores the set of drawn numbers when it was. */
  lemma {:induction false} ToggleNumberTwice(b: Board, n: int)
    ensures n !in b.drawn ==> ToggleNumber(ToggleNumber(b, n), n) == b
    ensures forall x :: x in ToggleNumber(ToggleNumber(b, n), n).drawn <==> x in b.drawn
  {
    ToggleTwice(b.drawn, n);
  }

  /** undoLastCall: `slice(0, -1)` drops the last call, if any. */
  function UndoLastCall(b: Board): (r: Board)
    ensures r == b.(drawn := r.drawn)
    ensures b.drawn == [] ==> r.drawn == []
    ensures b.drawn != [] ==> r.drawn + [b.drawn[|b.drawn| - 1]] == b.drawn
  {
    b.(drawn := if b.drawn == [] then [] else b.drawn[..|b.drawn| - 1])
  }

  /** Undo after calling a new number takes it back. */
  lemma {:induction false} UndoAfterCall(b: Board, n: int)
    requires n !in b.drawn
    ensures UndoLastCall(ToggleNumber(b, n)) == b
  {
    assert (b.drawn + [n])[..|b.drawn|] == b.drawn;
  }

  /** clearBoard. */
  function ClearBoard(b: Board): (r: Board)
    ensures r.drawn == [] && r == b.(drawn := [])
  {
    b.(drawn := [])
  }

  /** `String(n)` prefixed with the letter of its column; anything below 1
      or above 60 falls through the chain of tests to I or O. */
  function FormatBall(n: int): string
  {
    if n >= 1 && n <= 15 then "B-" + IntToString(n)
    else if n <= 30 then "I-" + IntToString(n)
    else if n <= 45 then "N-" + IntToString(n)
    else if n <= 60 then "G-" + IntToString(n)
    else "O-" + IntToString(n)
  }

  /** A number of a column's range is printed with that column's heading. */
  lemma {:induction false} FormatBallHeading(n: int, c: nat)
    requires c < 5 && ColumnRanges[c].start <= n <= ColumnRanges[c].end
    ensures FormatBall(n) == [ColumnRanges[c].heading, '-'] + NatToString(n)
  {
  }

  /** A number below 1 is printed with the I heading. */
  lemma FormatBallBelowRange(n: int)
    requires n < 1
    ensures FormatBall(n)[..2] == "I-"
  {
  }

  // ---------------------------------------------------------------------
  // The card registry and the verification log

  predicate AllGrids(cards: seq<Card>)
  {
    forall i :: 0 <= i < |cards| ==> IsGrid(cards[i].grid)
  }

  /** `cards.find(item => item.id === id)`: the first card with that id. */
  function FindCard(cards: seq<Card>, id: string): (r: Option<Card>)
    ensures r.None? <==> forall i :: 0 <= i < |cards| ==> cards[i].id != id
    ensures r.Some? ==>
      exists k :: 0 <= k < |cards| && cards[k] == r.value && r.value.id == id && forall i :: 0 <= i < k ==> cards[i].id != id
  {
    if cards == [] then None
    else if cards[0].id == id then Some(cards[0])
    else
      var r := FindCard(cards[1..], id);
      assert forall i :: 1 <= i < |cards| ==> cards[i] == cards[1..][i - 1];
      if r.Some? then
        ghost var k :| 0 <= k < |cards[1..]| && cards[1..][k] == r.value && r.value.id == id && forall i :: 0 <= i < k ==> cards[1..][i].id != id;
        assert cards[k + 1] == r.value;
        r
      else r
  }

  /** handleVerify: the trimmed id (from the argument, else the lookup
      field) is looked up and the result is put in front of the log. */
  function HandleVerify(b: Board, cardId: Option<string>, lookupId: string, timestamp: string): (r: Board)
    requires AllGrids(b.cards)
    ensures var target := Trim(if cardId.Some? then cardId.value else lookupId);
      if target == [] then r == b
      else
        |r.logs| == |b.logs| + 1 && r.logs[1..] == b.logs && r.lastResult == Some(r.logs[0])
        && r == b.(logs := r.logs, lastResult := r.lastResult)
        && r.logs[0].cardId == target && r.logs[0].timestamp == timestamp
  {
    var target := Trim(if cardId.Some? then cardId.value else lookupId);
    if target == [] then b
    else
      var result := match FindCard(b.cards, target)
        case None => VerificationResult(target, timestamp, NotFound, [], [], None)
        case Some(card) =>
          var lines := CompletedLabels(card.grid, b.drawn);
          VerificationResult(card.id, timestamp, if |lines| > 0 then Valid else Invalid,
            lines, MissingNumbers(card.grid, b.drawn), Some(card.grid));
      b.(logs := [result] + b.logs, lastResult := Some(result))
  }

  /** A card has some completed line exactly when some line is complete. */
  lemma {:induction false} AnyLineCompleted(g: Grid, drawn: seq<int>)
    ensures |CompletedLines(g, drawn)| > 0 <==> exists l :: Completes(g, drawn, l)
  {
    UpToMembers(g, drawn, 12);
    var ls := CompletedLines(g, drawn);
    if ls != [] { assert ls[0] in ls; }
    if exists l :: Completes(g, drawn, l) {
      var l :| Completes(g, drawn, l);
      assert l in ls;
    }
  }

  /** The outcome of a verification: not-found with empty lists for an
      unknown id; otherwise valid exactly when the first card with that id
      has a complete line, with its analysis and grid recorded. */
  lemma {:induction false} VerifyOutcome(b: Board, cardId: Option<string>, lookupId: string, timestamp: string)
    requires AllGrids(b.cards)
    requires Trim(if cardId.Some? then cardId.value else lookupId) != []
    ensures var target := Trim(if cardId.Some? then cardId.value else lookupId);
      var res := HandleVerify(b, cardId, lookupId, timestamp).logs[0];
      match FindCard(b.cards, target)
      case None => res.status == NotFound && res.completedLines == [] && res.missingNumbers == [] && res.snapshot == None
      case Some(card) =>
        res.status != NotFound
        && (res.status == Valid <==> exists l :: Completes(card.grid, b.drawn, l))
        && res.completedLines == CompletedLabels(card.grid, b.drawn)
        && res.missingNumbers == MissingNumbers(card.grid, b.drawn)
        && res.snapshot == Some(card.grid)
  {
    var target := Trim(if cardId.Some? then cardId.value else lookupId);
    var found := FindCard(b.cards, target);
    if found.Some? {
      AnyLineCompleted(found.value.grid, b.drawn);
    }
  }

  /** Only the newest 50 log entries are written to storage. */
  function PersistedLogs(logs: seq<VerificationResult>): (r: seq<VerificationResult>)
    ensures |r| <= 50
    ensures |r| == Min(50, |logs|)
    ensures forall i :: 0 <= i < |r| ==> r[i] == logs[i]
  {
    logs[..Min(50, |logs|)]
  }

  /** The newest result is always among the persisted ones. */
  lemma {:induction false} NewestPersisted(b: Board, cardId: Option<string>, lookupId: string, timestamp: string)
    requires AllGrids(b.cards)
    requires Trim(if cardId.Some? then cardId.value else lookupId) != []
    ensures var r := HandleVerify(b, cardId, lookupId, timestamp);
      PersistedLogs(r.logs) != [] && PersistedLogs(r.logs)[0] == r.lastResult.value
  {
  }

  /** handleDeleteCard: every card with that id goes, the rest keep their order. */
  function DeleteCard(b: Board, id: string): (r: Board)
    ensures r == b.(cards := r.cards)
    ensures forall c :: c in r.cards ==> c in b.cards && c.id != id
    ensures forall c :: c in b.cards && c.id != id ==> c in r.cards
  {
    b.(cards := Filter(b.cards, (c: Card) => c.id != id))
  }

  /** handleResetLogs. */
  function ResetLogs(b: Board): (r: Board)
    ensures r.logs == [] && r == b.(logs := [])
  {
    b.(logs := [])
  }

  // ---------------------------------------------------------------------
  // Manual card entry

  /** `.replace(/[,\n]/g, ' ')`. */
  function ReplaceSeparators(s: string): (r: string)
    ensures |r| == |s|
  {
    seq(|s|, i requires 0 <= i < |s| => if s[i] == ',' || s[i] == '\n' then ' ' else s[i])
  }

  /** s without its leading white space. */
  function DropSpaces(s: string): (r: string)
    ensures |r| <= |s|
    ensures s != [] && IsSpace(s[0]) ==> |r| < |s|
    decreases |s|
  {
    if s != [] && IsSpace(s[0]) then DropSpaces(s[1..]) else s
  }

  /** `.replace(/\s+/g, ' ')`: every run of white space becomes one space. */
  function CollapseSpaces(s: string): string
    decreases |s|
  {
    if s == [] then []
    else if IsSpace(s[0]) then " " + CollapseSpaces(DropSpaces(s))
    else [s[0]] + CollapseSpaces(s[1..])
  }

  function Cleaned(input: string): string
  {
    Trim(CollapseSpaces(ReplaceSeparators(input)))
  }

  /** The position of the first space. */
  function IndexOfSpace(s: string): (i: nat)
    requires ' ' in s
    ensures i < |s| && s[i] == ' ' && ' ' !in s[..i]
  {
    if s[0] == ' ' then 0
    else
      var i := IndexOfSpace(s[1..]);
      assert s[..i + 1] == [s[0]] + s[1..][..i];
      i + 1
  }

  /** `split(' ')`. */
  function SplitOnSpace(s: string): (parts: seq<string>)
    ensures |parts| >= 1
    decreases |s|
  {
    if ' ' in s then
      var i := IndexOfSpace(s);
      [s[..i]] + SplitOnSpace(s[i + 1..])
    else [s]
  }

  function Tokens(input: string): seq<string>
  {
    SplitOnSpace(Cleaned(input))
  }

  /** `tokens.map(token => Number(token))`. */
  function TokenValues(tokens: seq<string>, toNumber: string -> JsNumber): (r: seq<JsNumber>)
    ensures |r| == |tokens|
  {
    seq(|tokens|, i requires 0 <= i < |tokens| => toNumber(tokens[i]))
  }

  /** `.filter(value => Number.isFinite(value))`. */
  function FiniteValues(xs: seq<JsNumber>): (r: seq<real>)
    ensures |r| <= |xs|
  {
    if xs == [] then []
    else (if xs[0].Finite? then [xs[0].value] else []) + FiniteValues(xs[1..])
  }

  /** No value is lost to the finiteness filter exactly when every value is
      finite, and then the filter keeps every value in place. */
  lemma {:induction false} FiniteValuesAll(xs: seq<JsNumber>)
    ensures |FiniteValues(xs)| == |xs| <==> forall i :: 0 <= i < |xs| ==> xs[i].Finite?
    ensures |FiniteValues(xs)| == |xs| ==> forall i :: 0 <= i < |xs| ==> FiniteValues(xs)[i] == xs[i].value
  {
    if xs != [] {
      FiniteValuesAll(xs[1..]);
      assert forall i :: 1 <= i < |xs| ==> xs[i] == xs[1..][i - 1];
    }
  }

  /** The checks before the range check: blank input, token count, numeric
      tokens, repeated numbers. */
  function Screen(input: string, toNumber: string -> JsNumber): Result<seq<real>, ParseError>
  {
    if Cleaned(input) == [] then Err(Blank)
    else
      var tokens := Tokens(input);
      if |tokens| < 24 || |tokens| > 25 then Err(WrongCount)
      else
        var numbers := FiniteValues(TokenValues(tokens, toNumber));
        if |numbers| != |tokens| then Err(NotNumeric)
        else if |Dedup(numbers)| != |numbers| then Err(Duplicate)
        else Ok(numbers)
  }

  predicate OutsideRange(v: real) { v < 1.0 || v > 75.0 }

  /** `numbers.find(value => value < 1 || value > 75)`. */
  function FirstOutOfRange(numbers: seq<real>): (r: Option<real>)
    ensures r.None? <==> forall i :: 0 <= i < |numbers| ==> !OutsideRange(numbers[i])
    ensures r.Some? ==>
      exists k :: 0 <= k < |numbers| && numbers[k] == r.value && OutsideRange(r.value) && forall i :: 0 <= i < k ==> !OutsideRange(numbers[i])
  {
    if numbers == [] then None
    else if OutsideRange(numbers[0]) then Some(numbers[0])
    else
      var r := FirstOutOfRange(numbers[1..]);
      assert forall i :: 1 <= i < |numbers| ==> numbers[i] == numbers[1..][i - 1];
      if r.Some? then
        ghost var k :| 0 <= k < |numbers[1..]| && numbers[1..][k] == r.value && OutsideRange(r.value) && forall i :: 0 <= i < k ==> !OutsideRange(numbers[1..][i]);
        assert numbers[k + 1] == r.value;
        r
      else r
  }

  /** The range check as written: `if (outOfRange)` is false for a found 0. */
  predicate RejectsAsWritten(numbers: seq<real>)
  {
    var found := FirstOutOfRange(numbers);
    found.Some? && found.value != 0.0
  }

  /** The range check as intended: any value outside 1..75 is rejected. */
  predicate RejectsOutOfRange(numbers: seq<real>)
  {
    exists i :: 0 <= i < |numbers| && OutsideRange(numbers[i])
  }

  /** parseManualCard's validation as written. */
  function ValidateAsWritten(input: string, toNumber: string -> JsNumber): Result<seq<real>, ParseError>
  {
    match Screen(input, toNumber)
    case Err(e) => Err(e)
    case Ok(numbers) => if RejectsAsWritten(numbers) then Err(OutOfRange) else Ok(numbers)
  }

  /** parseManualCard's validation with the range check as intended: an
      accepted entry has 24 or 25 distinct numbers, all between 1 and 75. */
  function Validate(input: string, toNumber: string -> JsNumber): (r: Result<seq<real>, ParseError>)
    ensures r.Ok? ==>
      (24 <= |r.value| <= 25 && NoDup(r.value) && forall i :: 0 <= i < |r.value| ==> 1.0 <= r.value[i] <= 75.0)
  {
    match Screen(input, toNumber)
    case Err(e) => Err(e)
    case Ok(numbers) =>
      DedupLength(numbers);
      if RejectsOutOfRange(numbers) then Err(OutOfRange) else Ok(numbers)
  }

  /** Each rejection happens exactly under its condition, checked in order:
      blank input, a token count outside 24..25, a non-finite token, a
      repeated number, a number outside 1..75.  An accepted entry is the
      token values in order. */
  lemma {:induction false} ValidateMeaning(input: string, toNumber: string -> JsNumber)
    ensures var r := Validate(input, toNumber);
      var tokens := Tokens(input);
      var values := TokenValues(tokens, toNumber);
      (r == Err(Blank) <==> Cleaned(input) == [])
      && (r == Err(WrongCount) <==> Cleaned(input) != [] && (|tokens| < 24 || |tokens| > 25))
      && (r == Err(NotNumeric) <==>
            (Cleaned(input) != [] && 24 <= |tokens| <= 25 && exists i :: 0 <= i < |tokens| && values[i].NonFinite?))
      && (r == Err(Duplicate) <==>
            (Cleaned(input) != [] && 24 <= |tokens| <= 25 && (forall i :: 0 <= i < |tokens| ==> values[i].Finite?)
             && !NoDup(FiniteValues(values))))
      && (r == Err(OutOfRange) <==> (Screen(input, toNumber).Ok? && RejectsOutOfRange(Screen(input, toNumber).value)))
      && (r.Ok? ==> |r.value| == |tokens| && forall i :: 0 <= i < |tokens| ==> values[i] == Finite(r.value[i]))
  {
    var tokens := Tokens(input);
    var values := TokenValues(tokens, toNumber);
    FiniteValuesAll(values);
    DedupLength(FiniteValues(values));
  }

  /** As written, the entry is let through whenever the first value
      outside 1..75 is 0, although the intended check rejects it. */
  lemma {:induction false} ZeroSlipsThrough(input: string, toNumber: string -> JsNumber)
    requires Screen(input, toNumber).Ok?
    requires FirstOutOfRange(Screen(input, toNumber).value) == Some(0.0)
    ensures ValidateAsWritten(input, toNumber) == Screen(input, toNumber)
    ensures Validate(input, toNumber) == Err(OutOfRange)
  {
    var numbers := Screen(input, toNumber).value;
    var k :| 0 <= k < |numbers| && numbers[k] == 0.0 && OutsideRange(numbers[k])
      && forall i :: 0 <= i < k ==> !OutsideRange(numbers[i]);
    assert RejectsOutOfRange(numbers);
  }

  /** The written and the intended checks disagree on exactly those entries
      whose first value outside 1..75 is 0; everywhere else they agree. */
  lemma {:induction false} AsWrittenDiffersOnlyOnZero(input: string, toNumber: string -> JsNumber)
    ensures ValidateAsWritten(input, toNumber) != Validate(input, toNumber) <==>
      Screen(input, toNumber).Ok? && FirstOutOfRange(Screen(input, toNumber).value) == Some(0.0)
  {
    if Screen(input, toNumber).Ok? {
      var numbers := Screen(input, toNumber).value;
      var found := FirstOutOfRange(numbers);
      if found.Some? {
        var k :| 0 <= k < |numbers| && numbers[k] == found.value && OutsideRange(found.value)
          && forall i :: 0 <= i < k ==> !OutsideRange(numbers[i]);
        assert RejectsOutOfRange(numbers);
      }
    }
  }

  /** The numbers 0, 2, 3, ..., 24: distinct, 24 of them, one out of range. */
  lemma ZeroSlipsThroughExample()
    ensures var numbers := [0.0] + seq(23, i => (i + 2) as real);
      |numbers| == 24 && !RejectsAsWritten(numbers) && RejectsOutOfRange(numbers)
  {
    var numbers := [0.0] + seq(23, i => (i + 2) as real);
    assert OutsideRange(numbers[0]);
  }

  /** Cells other than the centre take the numbers in row-major order. */
  function CellIndex(r: int, c: int): int
  {
    if 5 * r + c > 12 then 5 * r + c - 1 else 5 * r + c
  }

  /** The 24 non-centre cells take indices 0 to 23, each exactly once, so a
      25th number is never placed. */
  lemma CellIndexBijective()
    ensures forall r, c :: 0 <= r < 5 && 0 <= c < 5 && !IsCentre(r, c) ==> 0 <= CellIndex(r, c) < 24
    ensures forall r1, c1, r2, c2 ::
      (0 <= r1 < 5 && 0 <= c1 < 5 && 0 <= r2 < 5 && 0 <= c2 < 5 && !IsCentre(r1, c1) && !IsCentre(r2, c2)
       && CellIndex(r1, c1) == CellIndex(r2, c2)) ==> r1 == r2 && c1 == c2
    ensures forall k :: 0 <= k < 24 ==>
      (0 <= CellRow(k) < 5 && 0 <= CellColumn(k) < 5 && !IsCentre(CellRow(k), CellColumn(k)) && CellIndex(CellRow(k), CellColumn(k)) == k)
  {
  }

  /** The cell that takes the k-th number. */
  function CellRow(k: int): int { (if k < 12 then k else k + 1) / 5 }
  function CellColumn(k: int): int { (if k < 12 then k else k + 1) % 5 }

  /** The value placed in a cell: FREE at the centre, otherwise
      `numbers[index] ?? 0`. */
  function Placed(numbers: seq<real>, r: int, c: int): Cell
  {
    if IsCentre(r, c) then Free
    else
      var k := CellIndex(r, c);
      if 0 <= k < |numbers| then Num(numbers[k]) else Num(0.0)
  }

  predicate PlacedRowMajor(g: Grid, numbers: seq<real>)
    requires IsGrid(g)
  {
    forall r, c :: 0 <= r < 5 && 0 <= c < 5 ==> g[r][c] == Placed(numbers, r, c)
  }

  /** The nested loops of parseManualCard that fill the grid. */
  method FillManualGrid(numbers: seq<real>) returns (grid: Grid)
    ensures IsGrid(grid) && PlacedRowMajor(grid, numbers)
  {
    grid := seq(5, _ => seq(5, _ => Num(0.0)));
    var index := 0;
    var row := 0;
    while row < 5
      invariant 0 <= row <= 5 && IsGrid(grid)
      invariant index == 5 * row - (if row > 2 then 1 else 0)
      invariant forall r, c :: 0 <= r < row && 0 <= c < 5 ==> grid[r][c] == Placed(numbers, r, c)
    {
      var column := 0;
      while column < 5
        invariant 0 <= column <= 5 && IsGrid(grid)
        invariant index == 5 * row + column - (if row > 2 || (row == 2 && column > 2) then 1 else 0)
        invariant forall r, c :: 0 <= r < row && 0 <= c < 5 ==> grid[r][c] == Placed(numbers, r, c)
        invariant forall c :: 0 <= c < column ==> grid[row][c] == Placed(numbers, row, c)
      {
        if row == 2 && column == 2 {
          grid := grid[row := grid[row][column := Free]];
        } else {
          grid := grid[row := grid[row][column := if index < |numbers| then Num(numbers[index]) else Num(0.0)]];
          index := index + 1;
        }
        column := column + 1;
      }
      row := row + 1;
    }
  }

  /** A card built from accepted numbers is a valid card. */
  lemma {:induction false} ManualCardValid(g: Grid, numbers: seq<real>)
    requires IsGrid(g) && PlacedRowMajor(g, numbers)
    requires 24 <= |numbers| && NoDup(numbers)
    requires forall i :: 0 <= i < 24 ==> 1.0 <= numbers[i] <= 75.0
    ensures ValidCard(g)
  {
    CellIndexBijective();
  }

  /** A card built from 24 or more distinct numbers is valid exactly when the
      24 numbers it places are within 1..75; a 25th number is never placed. */
  lemma {:induction false} ManualCardMeaning(g: Grid, numbers: seq<real>)
    requires IsGrid(g) && PlacedRowMajor(g, numbers)
    requires 24 <= |numbers| && NoDup(numbers)
    ensures ValidCard(g) <==> forall i :: 0 <= i < 24 ==> 1.0 <= numbers[i] <= 75.0
  {
    CellIndexBijective();
    if forall i :: 0 <= i < 24 ==> 1.0 <= numbers[i] <= 75.0 {
      ManualCardValid(g, numbers);
    }
    if ValidCard(g) {
      forall i | 0 <= i < 24 ensures 1.0 <= numbers[i] <= 75.0 {
        assert g[CellRow(i)][CellColumn(i)] == Num(numbers[i]);
      }
    }
  }

  /** An entry that passes the checks before the range check has 24 or 25
      distinct numbers. */
  lemma ScreenAccepts(input: string, toNumber: string -> JsNumber)
    requires Screen(input, toNumber).Ok?
    ensures 24 <= |Screen(input, toNumber).value| <= 25 && NoDup(Screen(input, toNumber).value)
  {
    var tokens := Tokens(input);
    var values := TokenValues(tokens, toNumber);
    DedupLength(FiniteValues(values));
  }

  function ManualLabel(count: nat): string
  {
    "手入力カード " + NatToString(count + 1)
  }

  /** The success path of parseManualCard: the numbers are placed row-major
      around the FREE centre, the card is put in front of the registry and
      the form is cleared. */
  method RegisterManualCard(b: Board, numbers: seq<real>, id: string, createdAt: string) returns (r: Board)
    ensures r == b.(cards := r.cards, draft := EmptyDraft)
    ensures |r.cards| == |b.cards| + 1 && r.cards[1..] == b.cards
    ensures r.cards[0].id == id && r.cards[0].createdAt == createdAt
    ensures r.cards[0].labelText == (if b.draft.labelText == "" then ManualLabel(|b.cards|) else b.draft.labelText)
    ensures r.cards[0].notes == (if b.draft.notes == "" then None else Some(Trim(b.draft.notes)))
    ensures IsGrid(r.cards[0].grid) && PlacedRowMajor(r.cards[0].grid, numbers)
  {
    var grid := FillManualGrid(numbers);
    var card := Card(id,
      if b.draft.labelText == "" then ManualLabel(|b.cards|) else b.draft.labelText,
      grid, createdAt,
      if b.draft.notes == "" then None else Some(Trim(b.draft.notes)));
    r := b.(cards := [card] + b.cards, draft := EmptyDraft);
  }

  /** parseManualCard as the page runs it, with the range check as written:
      on a rejection only the form's error changes; on success one card is
      registered, and it is a valid card unless a 0 slipped through. */
  method ParseManualCardAsWritten(b: Board, toNumber: string -> JsNumber, id: string, createdAt: string) returns (r: Board)
    ensures match ValidateAsWritten(b.draft.numbers, toNumber)
      case Err(e) => r == b.(draft := b.draft.(error := Some(e)))
      case Ok(numbers) =>
        r == b.(cards := r.cards, draft := EmptyDraft)
        && |r.cards| == |b.cards| + 1 && r.cards[1..] == b.cards
        && r.cards[0].id == id && r.cards[0].createdAt == createdAt
        && r.cards[0].labelText == (if b.draft.labelText == "" then ManualLabel(|b.cards|) else b.draft.labelText)
        && r.cards[0].notes == (if b.draft.notes == "" then None else Some(Trim(b.draft.notes)))
        && IsGrid(r.cards[0].grid) && PlacedRowMajor(r.cards[0].grid, numbers)
        && (ValidCard(r.cards[0].grid) <==> forall i :: 0 <= i < 24 ==> !OutsideRange(numbers[i]))
        && (!RejectsOutOfRange(numbers) ==> ValidCard(r.cards[0].grid))
  {
    match ValidateAsWritten(b.draft.numbers, toNumber)
    case Err(e) =>
      r := b.(draft := b.draft.(error := Some(e)));
    case Ok(numbers) =>
      ScreenAccepts(b.draft.numbers, toNumber);
      r := RegisterManualCard(b, numbers, id, createdAt);
      ManualCardMeaning(r.cards[0].grid, numbers);
  }

  /** parseManualCard with the range check as intended: on a rejection only
      the form's error changes; on success one valid card is registered. */
  method ParseManualCard(b: Board, toNumber: string -> JsNumber, id: string, createdAt: string) returns (r: Board)
    ensures match Validate(b.draft.numbers, toNumber)
      case Err(e) => r == b.(draft := b.draft.(error := Some(e)))
      case Ok(numbers) =>
        r == b.(cards := r.cards, draft := EmptyDraft)
        && |r.cards| == |b.cards| + 1 && r.cards[1..] == b.cards
        && r.cards[0].id == id && r.cards[0].createdAt == createdAt
        && r.cards[0].labelText == (if b.draft.labelText == "" then ManualLabel(|b.cards|) else b.draft.labelText)
        && r.cards[0].notes == (if b.draft.notes == "" then None else Some(Trim(b.draft.notes)))
        && IsGrid(r.cards[0].grid) && PlacedRowMajor(r.cards[0].grid, numbers) && ValidCard(r.cards[0].grid)
  {
    match Validate(b.draft.numbers, toNumber)
    case Err(e) =>
      r := b.(draft := b.draft.(error := Some(e)));
    case Ok(numbers) =>
      r := RegisterManualCard(b, numbers, id, createdAt);
      ManualCardValid(r.cards[0].grid, numbers);
  }

  // ---------------------------------------------------------------------
  // Random card generation

  /** `columnRange(start, end)`: the integers from start to end. */
  method ColumnRange(start: int, end: int) returns (range: seq<int>)
    ensures |range| == if end < start then 0 else end - start + 1
    ensures forall i :: 0 <= i < |range| ==> range[i] == start + i
  {
    range := [];
    var value := start;
    while value <= end
      invariant start <= value && (if end < start then value == start else value <= end + 1)
      invariant |range| == value - start
      invariant forall i :: 0 <= i < |range| ==> range[i] == start + i
      decreases end - value
    {
      range := range + [value];
      value := value + 1;
    }
  }

  /** `shuffle(array)`: Fisher-Yates on a copy.  `swaps[index]` stands for
      `Math.floor(Math.random() * (index + 1))`. */
  method Shuffle(xs: seq<int>, swaps: seq<nat>) returns (r: seq<int>)
    requires |swaps| == |xs| && forall i :: 0 <= i < |xs| ==> swaps[i] <= i
    ensures |r| == |xs| && multiset(r) == multiset(xs)
  {
    var cloned := new int[|xs|](i requires 0 <= i < |xs| => xs[i]);
    assert cloned[..] == xs;
    var index := cloned.Length - 1;
    while index > 0
      invariant -1 <= index < cloned.Length
      invariant multiset(cloned[..]) == multiset(xs)
    {
      var swapIndex := swaps[index];
      ghost var pre := cloned[..];
      cloned[index], cloned[swapIndex] := cloned[swapIndex], cloned[index];
      assert cloned[..] == pre[index := pre[swapIndex]][swapIndex := pre[index]];
      index := index - 1;
    }
    r := cloned[..];
  }

  function AscendingKey(x: int): seq<int> { [x] }

  /** Picks from a shuffled column pool, sorted ascending, are distinct
      numbers of the column's range in strictly increasing order. */
  lemma {:induction false} PicksAscending(pool: seq<int>, shuffled: seq<int>, count: nat, start: int, end: int)
    requires forall i :: 0 <= i < |pool| ==> pool[i] == start + i
    requires |pool| == end - start + 1
    requires |shuffled| == |pool| && multiset(shuffled) == multiset(pool) && count <= |shuffled|
    ensures var picks := Sorting.SortBy(shuffled[..count], AscendingKey, false);
      |picks| == count
      && (forall i :: 0 <= i < count ==> start <= picks[i] <= end)
      && (forall i, j :: 0 <= i < j < count ==> picks[i] < picks[j])
  {
    var picks := Sorting.SortBy(shuffled[..count], AscendingKey, false);
    assert NoDup(pool) by {
      forall i, j | 0 <= i < j < |pool| ensures pool[i] != pool[j] { }
    }
    NoDupMultiplicity(pool);
    assert shuffled == shuffled[..count] + shuffled[count..];
    assert multiset(picks) == multiset(shuffled[..count]);
    forall x ensures multiset(picks)[x] <= 1 {
      assert multiset(shuffled)[x] == multiset(shuffled[..count])[x] + multiset(shuffled[count..])[x];
    }
    MultiplicityNoDup(picks);
    forall i | 0 <= i < count ensures start <= picks[i] <= end {
      assert picks[i] in multiset(picks);
      assert picks[i] in multiset(shuffled);
      assert picks[i] in multiset(pool);
    }
    Sorting.SortBySorted(shuffled[..count], AscendingKey, false);
    forall i, j | 0 <= i < j < count ensures picks[i] < picks[j] {
      Sorting.SingletonKey(picks[j], picks[i]);
      assert picks[i] != picks[j];
    }
  }

  /** An integral number of column c's range. */
  predicate InColumnRange(v: real, c: int)
    requires 0 <= c < 5
  {
    v.Floor as real == v && ColumnRanges[c].start <= v.Floor <= ColumnRanges[c].end
  }

  /** Column c of a generated card: FREE exactly at the centre, numbers of the
      column's range elsewhere, increasing down the column. */
  predicate ColumnFilled(g: Grid, c: int)
    requires IsGrid(g) && 0 <= c < 5
  {
    (forall r :: 0 <= r < 5 ==> (g[r][c] == Free <==> IsCentre(r, c)))
    && (forall r :: 0 <= r < 5 && !IsCentre(r, c) ==> InColumnRange(g[r][c].value, c))
    && (forall r1, r2 :: 0 <= r1 < r2 < 5 && !IsCentre(r1, c) && !IsCentre(r2, c) ==> g[r1][c].value < g[r2][c].value)
  }

  predicate GeneratedCard(g: Grid)
  {
    IsGrid(g) && forall c :: 0 <= c < 5 ==> ColumnFilled(g, c)
  }

  /** A generated card is a valid card: the column ranges are disjoint and
      each column's numbers increase. */
  lemma {:induction false} GeneratedIsValid(g: Grid)
    requires GeneratedCard(g)
    ensures ValidCard(g)
  {
    assert forall c :: 0 <= c < 5 ==> ColumnFilled(g, c);
    forall r, c | 0 <= r < 5 && 0 <= c < 5 && !IsCentre(r, c) ensures g[r][c].Num? && 1.0 <= g[r][c].value <= 75.0 {
      assert ColumnFilled(g, c);
      assert InColumnRange(g[r][c].value, c);
    }
    forall r, c | 0 <= r < 5 && 0 <= c < 5 ensures g[r][c] == Free <==> IsCentre(r, c) {
      assert ColumnFilled(g, c);
    }
    forall r1, c1, r2, c2 | 0 <= r1 < 5 && 0 <= c1 < 5 && 0 <= r2 < 5 && 0 <= c2 < 5 && (r1, c1) != (r2, c2)
      ensures g[r1][c1] != g[r2][c2]
    {
      assert ColumnFilled(g, c1) && ColumnFilled(g, c2);
      if !IsCentre(r1, c1) && !IsCentre(r2, c2) {
        if c1 == c2 {
          if r1 < r2 { assert g[r1][c1].value < g[r2][c1].value; }
          else { assert g[r2][c1].value < g[r1][c1].value; }
        } else {
          assert InColumnRange(g[r1][c1].value, c1) && InColumnRange(g[r2][c2].value, c2);
        }
      }
    }
  }

  /** Fills column c of the grid from its ascending picks, leaving the other
      columns alone. */
  method FillColumn(grid: Grid, c: int, picks: seq<int>) returns (g: Grid)
    requires IsGrid(grid) && 0 <= c < 5
    requires |picks| == (if c == 2 then 4 else 5)
    requires forall i :: 0 <= i < |picks| ==> ColumnRanges[c].start <= picks[i] <= ColumnRanges[c].end
    requires forall i, j :: 0 <= i < j < |picks| ==> picks[i] < picks[j]
    ensures IsGrid(g) && ColumnFilled(g, c)
    ensures forall r, d :: 0 <= r < 5 && 0 <= d < 5 && d != c ==> g[r][d] == grid[r][d]
  {
    g := grid;
    var pickIndex := 0;
    var row := 0;
    while row < 5
      invariant 0 <= row <= 5 && IsGrid(g)
      invariant pickIndex == (if c == 2 && row > 2 then row - 1 else row)
      invariant forall r, d :: 0 <= r < 5 && 0 <= d < 5 && d != c ==> g[r][d] == grid[r][d]
      invariant forall r :: 0 <= r < row ==> g[r][c] == (if IsCentre(r, c) then Free else Num(picks[if c == 2 && r > 2 then r - 1 else r] as real))
    {
      if c == 2 && row == 2 {
        g := g[row := g[row][c := Free]];
        row := row + 1;
        continue;
      }
      g := g[row := g[row][c := Num(picks[pickIndex] as real)]];
      pickIndex := pickIndex + 1;
      row := row + 1;
    }
    forall r1, r2 | 0 <= r1 < r2 < 5 && !IsCentre(r1, c) && !IsCentre(r2, c) ensures g[r1][c].value < g[r2][c].value {
      var i1 := if c == 2 && r1 > 2 then r1 - 1 else r1;
      var i2 := if c == 2 && r2 > 2 then r2 - 1 else r2;
      assert i1 < i2;
    }
  }

  function GeneratedLabel(count: nat): string
  {
    "自動生成カード " + NatToString(count + 1)
  }

  /** generateRandomCard: each column takes 5 (the N column 4) numbers of
      its range from a shuffled pool, sorted ascending, around the FREE
      centre; the card goes in front of the registry and the form is
      cleared.  `swaps[c]` holds the random draws of column c's shuffle. */
  method GenerateRandomCard(b: Board, swaps: seq<seq<nat>>, id: string, createdAt: string) returns (r: Board)
    requires |swaps| == 5
    requires forall c :: 0 <= c < 5 ==> |swaps[c]| == 15 && forall i :: 0 <= i < 15 ==> swaps[c][i] <= i
    ensures r == b.(cards := r.cards, draft := EmptyDraft)
    ensures |r.cards| == |b.cards| + 1 && r.cards[1..] == b.cards
    ensures r.cards[0] == Card(id, GeneratedLabel(|b.cards|), r.cards[0].grid, createdAt, None)
    ensures GeneratedCard(r.cards[0].grid) && ValidCard(r.cards[0].grid)
  {
    var grid: Grid := seq(5, _ => seq(5, _ => Num(0.0)));
    var columnIndex := 0;
    while columnIndex < 5
      invariant 0 <= columnIndex <= 5 && IsGrid(grid)
      invariant forall c :: 0 <= c < columnIndex ==> ColumnFilled(grid, c)
    {
      var column := ColumnRanges[columnIndex];
      var pool := ColumnRange(column.start, column.end);
      var shuffled := Shuffle(pool, swaps[columnIndex]);
      var count := if columnIndex == 2 then 4 else 5;
      var picks := Sorting.SortBy(shuffled[..count], AscendingKey, false);
      PicksAscending(pool, shuffled, count, column.start, column.end);
      ghost var before := grid;
      grid := FillColumn(grid, columnIndex, picks);
      forall c | 0 <= c < columnIndex ensures ColumnFilled(grid, c) {
        assert ColumnFilled(before, c);
      }
      columnIndex := columnIndex + 1;
    }
    assert ColumnFilled(grid, 2) && grid[2][2] == Free;
    assert grid[2][2 := Free] == grid[2];
    assert grid[2 := grid[2][2 := Free]] == grid;
    grid := grid[2 := grid[2][2 := Free]];
    GeneratedIsValid(grid);
    var card := Card(id, GeneratedLabel(|b.cards|), grid, createdAt, None);
    r := b.(cards := [card] + b.cards, draft := EmptyDraft);
  }
}
