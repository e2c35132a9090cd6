/** Where on an observed layer the own, enemy and neutral units are: counts, bounds and centroids. */
module SpatialMetrics {
  import opened GameTypes

  /** One feature layer with a byte per cell. */
  datatype Channel = Channel(width: int, height: int, bitsPerPixel: int, data: seq<bv8>)

  predicate IsValid(c: Channel) {
    c.bitsPerPixel == 8 && c.width > 0 && c.height > 0 && |c.data| == c.width * c.height
  }

  lemma CellIndex(width: int, height: int, x: int, y: int)
    requires 0 <= x < width && 0 <= y < height
    ensures 0 <= x + y * width < width * height
  {
    assert y * width <= (height - 1) * width;
  }

  function Read(c: Channel, x: int, y: int): bv8
    requires IsValid(c)
  {
    if !(0 <= x < c.width && 0 <= y < c.height) then 0
    else
      CellIndex(c.width, c.height, x, y);
      c.data[x + y * c.width]
  }

  datatype Kind = Own | NeutralKind | EnemyKind | Ignored

  function KindOf(value: bv8): Kind {
    if value == 1 || value == 2 then Own
    else if value == 3 then NeutralKind
    else if value == 4 then EnemyKind
    else Ignored
  }

  datatype Bounds = Bounds(minX: int, minY: int, maxX: int, maxY: int)

  /** The fields FSpatialOccupancySummary keeps for one side. */
  datatype Side = Side(
    count: nat,
    present: bool,
    centroid: Position,
    hasBounds: bool,
    bounds: Bounds,
    sumX: real,
    sumY: real)

  const NOBODY := Side(0, false, Position(0.0, 0.0), false, Bounds(0, 0, 0, 0), 0.0, 0.0)

  function Min(a: int, b: int): int {
    if b < a then b else a
  }

  function Max(a: int, b: int): int {
    if a < b then b else a
  }

  function Widened(b: Bounds, x: int, y: int): Bounds {
    Bounds(Min(b.minX, x), Min(b.minY, y), Max(b.maxX, x), Max(b.maxY, y))
  }

  function Added(s: Side, x: int, y: int): Side {
    s.(
      count := s.count + 1,
      sumX := s.sumX + x as real,
      sumY := s.sumY + y as real,
      hasBounds := true,
      bounds := if s.hasBounds then Widened(s.bounds, x, y) else Bounds(x, y, x, y))
  }

  function Finalized(s: Side): Side {
    if s.count > 0
    then s.(present := true, centroid := Position(s.sumX / s.count as real, s.sumY / s.count as real))
    else s.(present := false)
  }

  datatype Cell = Cell(kind: Kind, x: int, y: int)

  /** The cells visited before column x of row y, row by row. */
  function CellsBefore(c: Channel, y: nat, x: nat): (cells: seq<Cell>)
    requires IsValid(c) && x <= c.width && y <= c.height
    decreases y, x
  {
    if x > 0 then CellsBefore(c, y, x - 1) + [Cell(KindOf(Read(c, x - 1, y)), x - 1, y)]
    else if y > 0 then CellsBefore(c, y - 1, c.width)
    else []
  }

  function AllCells(c: Channel): seq<Cell>
    requires IsValid(c)
  {
    CellsBefore(c, c.height, 0)
  }

  /** The side after accumulating some cells. */
  function SideOf(cells: seq<Cell>, kind: Kind): Side {
    if cells == [] then NOBODY
    else
      var last := cells[|cells| - 1];
      var before := SideOf(cells[..|cells| - 1], kind);
      if last.kind == kind then Added(before, last.x, last.y) else before
  }

  function CountOf(cells: seq<Cell>, kind: Kind): nat {
    if cells == [] then 0
    else CountOf(cells[..|cells| - 1], kind) + if cells[|cells| - 1].kind == kind then 1 else 0
  }

  lemma {:induction false} CellCount(c: Channel, y: nat, x: nat)
    requires IsValid(c) && x <= c.width && y <= c.height
    ensures |CellsBefore(c, y, x)| == y * c.width + x
    decreases y, x
  {
    if x > 0 {
      CellCount(c, y, x - 1);
    } else if y > 0 {
      CellCount(c, y - 1, c.width);
    }
  }

  lemma {:induction false} KindsPartition(cells: seq<Cell>)
    ensures CountOf(cells, Own) + CountOf(cells, EnemyKind) + CountOf(cells, NeutralKind) + CountOf(cells, Ignored)
         == |cells|
  {
    if cells != [] {
      KindsPartition(cells[..|cells| - 1]);
    }
  }

  /** Every cell of the layer is counted for exactly one side or ignored. */
  lemma CountsTotalArea(c: Channel)
    requires IsValid(c)
    ensures var cells := AllCells(c);
      SideOf(cells, Own).count + SideOf(cells, EnemyKind).count + SideOf(cells, NeutralKind).count
      + CountOf(cells, Ignored) == c.width * c.height
  {
    CellCount(c, c.height, 0);
    KindsPartition(AllCells(c));
    SideCounts(AllCells(c), Own);
    SideCounts(AllCells(c), EnemyKind);
    SideCounts(AllCells(c), NeutralKind);
  }

  lemma {:induction false} SideCounts(cells: seq<Cell>, kind: Kind)
    ensures SideOf(cells, kind).count == CountOf(cells, kind)
    ensures SideOf(cells, kind).hasBounds <==> CountOf(cells, kind) > 0
  {
    if cells != [] {
      SideCounts(cells[..|cells| - 1], kind);
    }
  }

  /** The cells visited are the cells of the layer, with their values. */
  lemma {:induction false} VisitedCell(c: Channel, y: nat, x: nat, cell: Cell)
    requires IsValid(c) && x <= c.width && y <= c.height
    ensures cell in CellsBefore(c, y, x) <==>
      && 0 <= cell.x < c.width && 0 <= cell.y
      && (cell.y < y || (cell.y == y && cell.x < x))
      && cell.kind == KindOf(Read(c, cell.x, cell.y))
    decreases y, x
  {
    if x > 0 {
      VisitedCell(c, y, x - 1, cell);
    } else if y > 0 {
      VisitedCell(c, y - 1, c.width, cell);
    }
  }

  /** A layer given row by row. */
  function LayerOf(rows: seq<seq<bv8>>, width: nat): Channel {
    Channel(width, |rows|, 8, Flatten(rows))
  }

  /** Its cells are read from their row and column, and everything outside reads as empty. */
  lemma ReadOfRows(rows: seq<seq<bv8>>, width: nat, x: int, y: int)
    requires HasWidth(rows, width) && rows != [] && width > 0
    ensures var c := LayerOf(rows, width);
      IsValid(c) && Read(c, x, y) == if 0 <= x < width && 0 <= y < |rows| then rows[y][x] else 0
  {
    FlattenLength(rows, width);
    if 0 <= x < width && 0 <= y < |rows| {
      FlattenAt(rows, width, x, y);
    }
  }

  /** Cells of the player and its allies, of neutral units and of enemies are told apart by their value. */
  lemma CellOfRows(rows: seq<seq<bv8>>, width: nat, x: int, y: int, kind: Kind)
    requires HasWidth(rows, width) && rows != [] && width > 0
    ensures IsValid(LayerOf(rows, width))
    ensures Cell(kind, x, y) in AllCells(LayerOf(rows, width)) <==>
      && 0 <= x < width && 0 <= y < |rows|
      && match kind
         case Own => rows[y][x] in {1, 2}
         case NeutralKind => rows[y][x] == 3
         case EnemyKind => rows[y][x] == 4
         case Ignored => rows[y][x] !in {1, 2, 3, 4}
  {
    ReadOfRows(rows, width, x, y);
    VisitedCell(LayerOf(rows, width), |rows|, 0, Cell(kind, x, y));
  }

  predicate Inside(b: Bounds, x: int, y: int) {
    b.minX <= x <= b.maxX && b.minY <= y <= b.maxY
  }

  predicate Encloses(b: Bounds, cells: seq<Cell>, kind: Kind) {
    forall i :: 0 <= i < |cells| && cells[i].kind == kind ==> Inside(b, cells[i].x, cells[i].y)
  }

  predicate Within(b: Bounds, other: Bounds) {
    other.minX <= b.minX && other.minY <= b.minY && b.maxX <= other.maxX && b.maxY <= other.maxY
  }

  /** The bounds of a side enclose its cells, and every box that does so encloses the bounds. */
  lemma {:induction false} BoundsAreTightest(cells: seq<Cell>, kind: Kind)
    requires CountOf(cells, kind) > 0
    ensures Encloses(SideOf(cells, kind).bounds, cells, kind)
    ensures forall other :: Encloses(other, cells, kind) ==> Within(SideOf(cells, kind).bounds, other)
  {
    var n := |cells| - 1;
    var before, last := SideOf(cells[..n], kind), cells[n];
    SideCounts(cells[..n], kind);
    if CountOf(cells[..n], kind) > 0 {
      BoundsAreTightest(cells[..n], kind);
    }
    forall other | Encloses(other, cells, kind) ensures Within(SideOf(cells, kind).bounds, other) {
      assert Encloses(other, cells[..n], kind);
    }
    NoneEnclosed(cells[..n], kind);
  }

  lemma {:induction false} NoneEnclosed(cells: seq<Cell>, kind: Kind)
    ensures CountOf(cells, kind) == 0 ==> forall i :: 0 <= i < |cells| ==> cells[i].kind != kind
  {
    if cells != [] {
      NoneEnclosed(cells[..|cells| - 1], kind);
    }
  }

  /** Bounds in the plane: between lo and hi times the number of summands. */
  predicate Between(lo: int, sum: real, hi: int, count: nat) {
    lo as real * count as real <= sum <= hi as real * count as real
  }

  lemma BetweenNext(lo: int, sum: real, hi: int, count: nat, x: int)
    requires Between(lo, sum, hi, count) && lo <= x <= hi
    ensures Between(lo, sum + x as real, hi, count + 1)
  {
  }

  lemma {:induction false} SumsWithin(cells: seq<Cell>, kind: Kind, b: Bounds)
    requires Encloses(b, cells, kind)
    ensures var s := SideOf(cells, kind);
      Between(b.minX, s.sumX, b.maxX, s.count) && Between(b.minY, s.sumY, b.maxY, s.count)
  {
    if cells != [] {
      var n := |cells| - 1;
      SumsWithin(cells[..n], kind, b);
      var before, last := SideOf(cells[..n], kind), cells[n];
      if last.kind == kind {
        BetweenNext(b.minX, before.sumX, b.maxX, before.count, last.x);
        BetweenNext(b.minY, before.sumY, b.maxY, before.count, last.y);
      }
    }
  }

  lemma MeanBetween(lo: int, sum: real, hi: int, count: nat)
    requires Between(lo, sum, hi, count) && count > 0
    ensures lo as real <= sum / count as real <= hi as real
  {
  }

  /** After Finalize, a side with units is marked present and its centroid lies within its bounds; a side
      without units is not present. */
  lemma {:induction false} CentroidWithinBounds(cells: seq<Cell>, kind: Kind)
    ensures var s := Finalized(SideOf(cells, kind));
      && (s.present <==> CountOf(cells, kind) > 0) && (s.hasBounds <==> s.present)
      && (s.present ==>
            && s.bounds.minX as real <= s.centroid.x <= s.bounds.maxX as real
            && s.bounds.minY as real <= s.centroid.y <= s.bounds.maxY as real)
  {
    SideCounts(cells, kind);
    var s := SideOf(cells, kind);
    if s.count > 0 {
      BoundsAreTightest(cells, kind);
      SumsWithin(cells, kind, s.bounds);
      MeanBetween(s.bounds.minX, s.sumX, s.bounds.maxX, s.count);
      MeanBetween(s.bounds.minY, s.sumY, s.bounds.maxY, s.count);
    } else {
      AbsentNotPresent(cells, kind);
    }
  }

  datatype Axis = Horizontal | Vertical

  function Coordinate(axis: Axis, c: Cell): int {
    if axis.Horizontal? then c.x else c.y
  }

  /** A coordinate summed over the cells of one side. */
  function Total(cells: seq<Cell>, kind: Kind, axis: Axis): int {
    if cells == [] then 0
    else
      var last := cells[|cells| - 1];
      Total(cells[..|cells| - 1], kind, axis) + if last.kind == kind then Coordinate(axis, last) else 0
  }

  lemma {:induction false} SumsAreTotals(cells: seq<Cell>, kind: Kind)
    ensures SideOf(cells, kind).sumX == Total(cells, kind, Horizontal) as real
    ensures SideOf(cells, kind).sumY == Total(cells, kind, Vertical) as real
  {
    if cells != [] {
      SumsAreTotals(cells[..|cells| - 1], kind);
    }
  }

  predicate IsMean(mean: real, total: int, count: nat) {
    mean * count as real == total as real
  }

  /** The centroid is the mean of the cells: its coordinates times their number are the totals. */
  lemma {:induction false} CentroidIsMean(cells: seq<Cell>, kind: Kind)
    requires CountOf(cells, kind) > 0
    ensures var s := Finalized(SideOf(cells, kind));
      && IsMean(s.centroid.x, Total(cells, kind, Horizontal), CountOf(cells, kind))
      && IsMean(s.centroid.y, Total(cells, kind, Vertical), CountOf(cells, kind))
  {
    SideCounts(cells, kind);
    SumsAreTotals(cells, kind);
    var s := SideOf(cells, kind);
    QuotientIsMean(s.sumX, Total(cells, kind, Horizontal), s.count);
    QuotientIsMean(s.sumY, Total(cells, kind, Vertical), s.count);
  }

  lemma QuotientIsMean(sum: real, total: int, count: nat)
    requires count > 0 && sum == total as real
    ensures IsMean(sum / count as real, total, count)
  {
  }

  lemma {:induction false} AbsentNotPresent(cells: seq<Cell>, kind: Kind)
    ensures !SideOf(cells, kind).present
  {
    if cells != [] {
      AbsentNotPresent(cells[..|cells| - 1], kind);
    }
  }

  class OccupancySummary {
    var own: Side
    var enemy: Side
    var neutral: Side

    constructor ()
      ensures own == enemy == neutral == NOBODY
    {
      own, enemy, neutral := NOBODY, NOBODY, NOBODY;
    }

    method Reset()
      modifies this
      ensures own == enemy == neutral == NOBODY
    {
      own, enemy, neutral := NOBODY, NOBODY, NOBODY;
    }

    ghost predicate Shows(cells: seq<Cell>)
      reads this
    {
      own == SideOf(cells, Own) && enemy == SideOf(cells, EnemyKind) && neutral == SideOf(cells, NeutralKind)
    }

    method Accumulate(value: bv8, x: int, y: int, ghost seen: seq<Cell>)
      requires Shows(seen)
      modifies this
      ensures Shows(seen + [Cell(KindOf(value), x, y)])
    {
      ghost var cells := seen + [Cell(KindOf(value), x, y)];
      assert cells[..|cells| - 1] == seen;
      match KindOf(value)
      case Own => own := Added(own, x, y);
      case NeutralKind => neutral := Added(neutral, x, y);
      case EnemyKind => enemy := Added(enemy, x, y);
      case Ignored =>
    }

    method Finalize()
      modifies this
      ensures own == Finalized(old(own)) && enemy == Finalized(old(enemy)) && neutral == Finalized(old(neutral))
    {
      own, enemy, neutral := Finalized(own), Finalized(enemy), Finalized(neutral);
    }

    /** An invalid layer leaves an empty summary; a valid one is summed up cell by cell. */
    method AccumulateChannel(c: Channel)
      modifies this
      ensures !IsValid(c) ==> own == enemy == neutral == NOBODY
      ensures IsValid(c) ==>
        && own == Finalized(SideOf(AllCells(c), Own))
        && enemy == Finalized(SideOf(AllCells(c), EnemyKind))
        && neutral == Finalized(SideOf(AllCells(c), NeutralKind))
    {
      Reset();
      if !IsValid(c) {
        return;
      }
      for y := 0 to c.height
        invariant Shows(CellsBefore(c, y, 0))
      {
        for x := 0 to c.width
          invariant Shows(CellsBefore(c, y, x))
        {
          Accumulate(Read(c, x, y), x, y, CellsBefore(c, y, x));
        }
      }
      Finalize();
    }
  }
}
