/** The scan of the pathing grid for the natural choke at the start of a game. */
module ChokeScan {
  import opened GameTypes

  /** An image with an origin in a corner, one bit or one byte per tile, row after row. */
  datatype SampleImage = SampleImage(data: seq<bv8>, width: int, height: int, bitsPerPixel: nat)

  predicate Contains(image: SampleImage, x: int, y: int) {
    0 <= x < image.width && 0 <= y < image.height
  }

  /** The game sends enough data for the size it announces. */
  predicate Complete(image: SampleImage) {
    && image.width >= 0 && image.height >= 0
    && (image.bitsPerPixel == 1 ==> image.width * image.height <= 8 * |image.data|)
    && (image.bitsPerPixel != 1 ==> |image.data| == image.width * image.height)
  }

  lemma IndexInImage(image: SampleImage, x: int, y: int)
    requires Contains(image, x, y)
    ensures 0 <= x + y * image.width < image.width * image.height
  {
    assert y * image.width <= (image.height - 1) * image.width;
  }

  function IndexOf(image: SampleImage, x: int, y: int): (index: nat)
    requires Contains(image, x, y)
    ensures index < image.width * image.height
  {
    IndexInImage(image, x, y);
    x + y * image.width
  }

  function IsPathable(image: SampleImage, x: int, y: int): bool
    requires Complete(image)
  {
    if !Contains(image, x, y) then false
    else
      var index := IndexOf(image, x, y);
      if image.bitsPerPixel == 1 then (image.data[index / 8] >> (7 - index % 8)) & 1 == 1
      else image.data[index] != 255
  }

  /** A grid packed as the game sends it: eight tiles a byte, the first tile in the highest bit. */
  function PackedByte(tiles: seq<bool>, start: nat): bv8 {
    Bit(tiles, start, 128) | Bit(tiles, start + 1, 64) | Bit(tiles, start + 2, 32) | Bit(tiles, start + 3, 16)
    | Bit(tiles, start + 4, 8) | Bit(tiles, start + 5, 4) | Bit(tiles, start + 6, 2) | Bit(tiles, start + 7, 1)
  }

  function Bit(tiles: seq<bool>, i: nat, mask: bv8): bv8 {
    if i < |tiles| && tiles[i] then mask else 0
  }

  function Packed(tiles: seq<bool>): (data: seq<bv8>)
    ensures |data| == (|tiles| + 7) / 8
    ensures forall j :: 0 <= j < |data| ==> data[j] == PackedByte(tiles, 8 * j)
  {
    seq((|tiles| + 7) / 8, j requires 0 <= j => PackedByte(tiles, 8 * j))
  }

  /** Reading a packed grid gives back every tile. */
  lemma PackedReadsBack(tiles: seq<bool>, width: nat, height: nat, x: int, y: int)
    requires |tiles| == width * height
    ensures var image := SampleImage(Packed(tiles), width, height, 1);
      && Complete(image)
      && IsPathable(image, x, y) == (Contains(image, x, y) && tiles[IndexOf(image, x, y)])
  {
    var image := SampleImage(Packed(tiles), width, height, 1);
    if Contains(image, x, y) {
      BitReadsBack(tiles, IndexOf(image, x, y));
    }
  }

  lemma PackedTile(tiles: seq<bool>, width: nat, height: nat, x: int, y: int)
    requires |tiles| == width * height
    ensures var image := SampleImage(Packed(tiles), width, height, 1);
      && Complete(image)
      && (IsPathable(image, x, y) <==>
            0 <= x < width && 0 <= y < height && 0 <= x + y * width < |tiles| && tiles[x + y * width])
  {
    PackedReadsBack(tiles, width, height, x, y);
  }

  /** So a grid packed row by row is read back by row and column. */
  lemma {:induction false} PackedRowsReadBack(rows: seq<seq<bool>>, width: nat, x: int, y: int)
    requires HasWidth(rows, width)
    ensures var image := SampleImage(Packed(Flatten(rows)), width, |rows|, 1);
      Complete(image) && (IsPathable(image, x, y) <==> 0 <= x < width && 0 <= y < |rows| && rows[y][x])
  {
    FlattenLength(rows, width);
    var tiles, height := Flatten(rows), |rows|;
    PackedTile(tiles, width, height, x, y);
    if 0 <= x < width && 0 <= y < height {
      FlattenAt(rows, width, x, y);
    }
  }

  lemma ByteTile(tiles: seq<bv8>, width: nat, height: nat, x: int, y: int)
    requires |tiles| == width * height
    ensures var image := SampleImage(tiles, width, height, 8);
      && Complete(image)
      && (IsPathable(image, x, y) <==>
            0 <= x < width && 0 <= y < height && 0 <= x + y * width < |tiles| && tiles[x + y * width] != 255)
  {
  }

  /** And so is one with a byte per tile, of which 255 is blocked. */
  lemma {:induction false} ByteRowsReadBack(rows: seq<seq<bv8>>, width: nat, x: int, y: int)
    requires HasWidth(rows, width)
    ensures var image := SampleImage(Flatten(rows), width, |rows|, 8);
      Complete(image) && (IsPathable(image, x, y) <==> 0 <= x < width && 0 <= y < |rows| && rows[y][x] != 255)
  {
    FlattenLength(rows, width);
    ByteTile(Flatten(rows), width, |rows|, x, y);
    if 0 <= x < width && 0 <= y < |rows| {
      FlattenAt(rows, width, x, y);
    }
  }

  lemma BitReadsBack(tiles: seq<bool>, i: nat)
    requires i < |tiles|
    ensures ((PackedByte(tiles, 8 * (i / 8)) >> (7 - i % 8)) & 1 == 1) == tiles[i]
  {
    var start, r := 8 * (i / 8), i % 8;
    assert i == start + r;
    ShiftedByte(Bit(tiles, start, 128), Bit(tiles, start + 1, 64), Bit(tiles, start + 2, 32), Bit(tiles, start + 3, 16),
                Bit(tiles, start + 4, 8), Bit(tiles, start + 5, 4), Bit(tiles, start + 6, 2), Bit(tiles, start + 7, 1),
                r);
  }

  /** Shifting and masking isolates one of eight disjoint bits. */
  lemma ShiftedByte(a: bv8, b: bv8, c: bv8, d: bv8, e: bv8, f: bv8, g: bv8, h: bv8, r: nat)
    requires r < 8
    requires (a == 0 || a == 128) && (b == 0 || b == 64) && (c == 0 || c == 32) && (d == 0 || d == 16)
    requires (e == 0 || e == 8) && (f == 0 || f == 4) && (g == 0 || g == 2) && (h == 0 || h == 1)
    ensures ((a | b | c | d | e | f | g | h) >> (7 - r)) & 1 == 1
      <==> (if r == 0 then a else if r == 1 then b else if r == 2 then c else if r == 3 then d
            else if r == 4 then e else if r == 5 then f else if r == 6 then g else h) != 0
  {
    var byte := a | b | c | d | e | f | g | h;
    if r == 0 { assert byte >> (7 - r) == byte >> 7; }
    else if r == 1 { assert byte >> (7 - r) == byte >> 6; }
    else if r == 2 { assert byte >> (7 - r) == byte >> 5; }
    else if r == 3 { assert byte >> (7 - r) == byte >> 4; }
    else if r == 4 { assert byte >> (7 - r) == byte >> 3; }
    else if r == 5 { assert byte >> (7 - r) == byte >> 2; }
    else if r == 6 { assert byte >> (7 - r) == byte >> 1; }
  }

  /** One row of the scan: the columns lo to hi, and the column the run should be near. */
  datatype Row = Row(image: SampleImage, y: int, lo: int, hi: int, mid: int)

  type ImageRow = r: Row | Complete(r.image) witness Row(SampleImage([], 0, 0, 8), 0, 0, 0, 0)

  predicate Open(row: ImageRow, x: int) {
    IsPathable(row.image, x, row.y)
  }

  datatype Run = Run(first: int, last: int)

  /** A contiguous pathable stretch of the row that cannot be extended within the scanned columns. */
  predicate IsRun(row: ImageRow, r: Run) {
    && row.lo <= r.first <= r.last <= row.hi
    && (forall x :: r.first <= x <= r.last ==> Open(row, x))
    && (r.first == row.lo || !Open(row, r.first - 1))
    && (r.last == row.hi || !Open(row, r.last + 1))
  }

  function Abs(n: int): int {
    if n < 0 then -n else n
  }

  function RunWidth(r: Run): int {
    r.last - r.first + 1
  }

  function RunDistance(row: Row, r: Run): int {
    Abs((r.first + r.last) / 2 - row.mid)
  }

  const FAR := 999
  const MIN_WIDTH := 3

  predicate Qualifies(row: ImageRow, r: Run) {
    IsRun(row, r) && RunWidth(r) >= MIN_WIDTH && RunDistance(row, r) < FAR
  }

  /** The run is nearer to the middle than the other, or as near and not to the right of it. */
  predicate Preferred(row: Row, r: Run, other: Run) {
    || RunDistance(row, r) < RunDistance(row, other)
    || (RunDistance(row, r) == RunDistance(row, other) && r.first <= other.first)
  }

  /** best is the preferred qualifying run among those that end before the given column. */
  ghost predicate BestBefore(row: ImageRow, end: int, best: Option<Run>) {
    && (best.Some? ==> Qualifies(row, best.value) && best.value.last < end)
    && (forall r :: Qualifies(row, r) && r.last < end ==> best.Some? && Preferred(row, best.value, r))
  }

  ghost predicate BestInRow(row: ImageRow, best: Option<Run>) {
    BestBefore(row, row.hi + 1, best)
  }

  /** Columns left of the map are never pathable, so -1 can stand for "no run". */
  lemma RunsAreOnTheMap(row: ImageRow, r: Run)
    requires IsRun(row, r)
    ensures 0 <= r.first && r.last < row.image.width
  {
    assert Open(row, r.first) && Open(row, r.last);
  }

  lemma BestIsUnique(row: ImageRow, a: Option<Run>, b: Option<Run>)
    requires BestInRow(row, a) && BestInRow(row, b)
    ensures a == b
  {
  }

  lemma RunsWithSameEnd(row: ImageRow, a: Run, b: Run)
    requires IsRun(row, a) && IsRun(row, b) && a.last == b.last
    ensures a == b
  {
  }

  /** The state of the inner loop before column x: the run under way, if any. */
  ghost predicate UnderWay(row: ImageRow, x: int, start: int) {
    if start < 0 then x == row.lo || !Open(row, x - 1)
    else
      && row.lo <= start < x
      && (forall c :: start <= c < x ==> Open(row, c))
      && (start == row.lo || !Open(row, start - 1))
  }

  function Found(first: int, last: int): Option<Run> {
    if first < 0 then None else Some(Run(first, last))
  }

  /** The run kept after one more run has ended. */
  function Better(row: Row, best: Option<Run>, r: Run): Option<Run> {
    if RunWidth(r) >= MIN_WIDTH && RunDistance(row, r) < BestDistance(row, best) then Some(r) else best
  }

  function BestDistance(row: Row, best: Option<Run>): int {
    if best.Some? then RunDistance(row, best.value) else FAR
  }

  lemma RunEnds(row: ImageRow, x: int, start: int, best: Option<Run>)
    requires row.lo <= x <= row.hi + 1 && UnderWay(row, x, start) && start >= 0
    requires x == row.hi + 1 || !Open(row, x)
    requires BestBefore(row, x - 1, best)
    ensures BestBefore(row, x, Better(row, best, Run(start, x - 1)))
  {
  }

  lemma EarlierRunStartsEarlier(row: ImageRow, a: Run, b: Run)
    requires IsRun(row, a) && IsRun(row, b) && a.last < b.last
    ensures a.last < b.first
  {
  }

  lemma NoRunEnds(row: ImageRow, x: int, start: int, best: Option<Run>)
    requires row.lo <= x <= row.hi + 1 && UnderWay(row, x, start)
    requires start < 0 || (x <= row.hi && Open(row, x))
    requires BestBefore(row, x - 1, best)
    ensures BestBefore(row, x, best)
  {
  }

  /** The variables of the inner loop. */
  datatype Scan = Scan(start: int, end: int, bestFirst: int, bestLast: int, bestDistance: int)

  function BestOf(s: Scan): Option<Run> {
    Found(s.bestFirst, s.bestLast)
  }

  ghost predicate ScannedTo(row: ImageRow, x: int, s: Scan) {
    && UnderWay(row, x, s.start) && (s.start >= 0 ==> s.end == x - 1)
    && BestBefore(row, x - 1, BestOf(s))
    && s.bestDistance == BestDistance(row, BestOf(s))
  }

  /** A pathable tile starts a run or continues the one under way. */
  function Extended(s: Scan, x: int): Scan {
    s.(start := if s.start < 0 then x else s.start, end := x)
  }

  lemma TileExtends(row: ImageRow, x: int, s: Scan)
    requires row.lo <= x <= row.hi && Open(row, x) && ScannedTo(row, x, s)
    ensures ScannedTo(row, x + 1, Extended(s, x))
  {
  }

  /** What is left when the run under way, if any, has ended. */
  function Ended(row: Row, s: Scan): Scan {
    var width, distance := s.end - s.start + 1, Abs((s.start + s.end) / 2 - row.mid);
    if s.start >= 0 && width >= MIN_WIDTH && distance < s.bestDistance
    then Scan(-1, s.end, s.start, s.end, distance)
    else s.(start := -1)
  }

  lemma TileEnds(row: ImageRow, x: int, s: Scan)
    requires row.lo <= x <= row.hi + 1 && (x == row.hi + 1 || !Open(row, x)) && ScannedTo(row, x, s)
    ensures BestBefore(row, x, BestOf(Ended(row, s)))
    ensures Ended(row, s).bestDistance == BestDistance(row, BestOf(Ended(row, s)))
  {
    if s.start >= 0 {
      RunEnds(row, x, s.start, BestOf(s));
    } else {
      NoRunEnds(row, x, s.start, BestOf(s));
    }
  }

  lemma LastRunEnds(row: ImageRow, x: int, s: Scan)
    requires ScannedTo(row, x, s) && row.hi < x && (x == row.hi + 1 || x == row.lo)
    ensures BestInRow(row, BestOf(Ended(row, s)))
  {
    if x == row.hi + 1 && row.lo <= x {
      TileEnds(row, x, s);
    }
  }

  function ScanNext(row: ImageRow, x: int, s: Scan): Scan {
    if Open(row, x) then Extended(s, x) else Ended(row, s)
  }

  lemma ScannedNext(row: ImageRow, x: int, s: Scan)
    requires row.lo <= x <= row.hi && ScannedTo(row, x, s)
    ensures ScannedTo(row, x + 1, ScanNext(row, x, s))
  {
    if Open(row, x) {
      TileExtends(row, x, s);
    } else {
      TileEnds(row, x, s);
    }
  }

  /** The scan of one row: the first and last column of the chosen run, or -1. */
  method ScanRow(row: ImageRow) returns (bestFirst: int, bestLast: int)
    ensures BestInRow(row, Found(bestFirst, bestLast))
  {
    var s := Scan(-1, -1, -1, -1, FAR);
    var x := row.lo;
    while x <= row.hi
      invariant row.lo <= x && (x <= row.hi + 1 || x == row.lo)
      invariant ScannedTo(row, x, s)
    {
      ScannedNext(row, x, s);
      if IsPathable(row.image, x, row.y) {
        s := Extended(s, x);
      } else {
        s := EndRun(row, s);
      }
      x := x + 1;
    }
    LastRunEnds(row, x, s);
    s := EndRun(row, s);
    bestFirst, bestLast := s.bestFirst, s.bestLast;
  }

  /** Compares the run that has just ended, if there was one, with the best so far. */
  method EndRun(row: Row, before: Scan) returns (s: Scan)
    ensures s == Ended(row, before)
  {
    s := before;
    if s.start >= 0 {
      var runMid := (s.start + s.end) / 2;
      var runDistance := Abs(runMid - row.mid);
      var runWidth := s.end - s.start + 1;
      if runWidth >= MIN_WIDTH && runDistance < s.bestDistance {
        s := s.(bestDistance := runDistance, bestFirst := s.start, bestLast := s.end);
      }
    }
    s := s.(start := -1);
  }

  /** Every row has a best run unless it has no qualifying one. */
  lemma {:induction false} BestExists(row: ImageRow, end: int) returns (best: Option<Run>)
    ensures BestBefore(row, end, best)
    decreases end - row.lo
  {
    if end <= row.lo {
      best := None;
    } else {
      best := BestExists(row, end - 1);
      if r :| Qualifies(row, r) && r.last == end - 1 {
        best := BestWith(row, best, r);
      }
    }
  }

  lemma BestWith(row: ImageRow, before: Option<Run>, r: Run) returns (best: Option<Run>)
    requires Qualifies(row, r) && BestBefore(row, r.last, before)
    ensures BestBefore(row, r.last + 1, best)
  {
    best := if before.Some? && RunDistance(row, before.value) <= RunDistance(row, r) then before else Some(r);
    forall other | Qualifies(row, other) && other.last < r.last + 1
      ensures Preferred(row, best.value, other)
    {
      if other.last == r.last {
        RunsWithSameEnd(row, other, r);
      }
    }
    if before.Some? {
      EarlierRunStartsEarlier(row, before.value, r);
    }
  }

  /** static_cast<int>: towards zero. */
  function Trunc(r: real): int {
    if r >= 0.0 then r.Floor else -((-r).Floor)
  }

  function Min(a: real, b: real): real {
    if b < a then b else a
  }

  function Max(a: real, b: real): real {
    if a < b then b else a
  }

  /** The part of the map that is searched: between the ramp and the natural expansion. */
  datatype Window = Window(image: SampleImage, ramp: Position, natural: Position)

  type ImageWindow = w: Window | Complete(w.image)
    witness Window(SampleImage([], 0, 0, 8), Position(0.0, 0.0), Position(0.0, 0.0))

  function MinY(w: Window): int {
    Trunc(Min(w.ramp.y, w.natural.y)) + 2
  }

  function MaxY(w: Window): int {
    Trunc(Max(w.ramp.y, w.natural.y)) - 2
  }

  function MidX(w: Window): int {
    Trunc((w.ramp.x + w.natural.x) * 0.5)
  }

  function RowAt(w: ImageWindow, y: int): ImageRow {
    Row(w.image, y, Trunc(Min(w.ramp.x, w.natural.x)) - 20, Trunc(Max(w.ramp.x, w.natural.x)) + 20, MidX(w))
  }

  /** Truncation stays within one of the value, on the side of zero. */
  lemma TruncTowardsZero(r: real)
    ensures r >= 0.0 ==> r - 1.0 < Trunc(r) as real <= r
    ensures r <= 0.0 ==> r <= Trunc(r) as real < r + 1.0
  {
  }

  predicate Near(n: int, r: real) {
    -1.0 < n as real - r < 1.0
  }

  /** The rows searched keep more than one tile from ramp and natural, between the two, and every row that
      keeps two tiles from both is among them; the columns reach twenty tiles beyond both, and the column
      aimed at is halfway between them. */
  lemma WindowIsBetween(w: ImageWindow, y: int)
    ensures MinY(w) <= y <= MaxY(w) ==>
      || w.ramp.y + 1.0 < y as real < w.natural.y - 1.0
      || w.natural.y + 1.0 < y as real < w.ramp.y - 1.0
    ensures w.ramp.y + 2.0 <= y as real <= w.natural.y - 2.0 || w.natural.y + 2.0 <= y as real <= w.ramp.y - 2.0 ==>
      MinY(w) <= y <= MaxY(w)
    ensures var row := RowAt(w, y);
      var left := if w.ramp.x <= w.natural.x then w.ramp.x else w.natural.x;
      var right := if w.ramp.x <= w.natural.x then w.natural.x else w.ramp.x;
      Near(row.lo, left - 20.0) && Near(row.hi, right + 20.0) && Near(row.mid, (left + right) / 2.0) && row.y == y
  {
  }

  datatype Choke = Choke(y: int, width: int, first: int, last: int)

  const NO_CHOKE := Choke(0, FAR, 0, 0)

  /** r is the run chosen in the scanned row y. */
  ghost predicate Chosen(w: ImageWindow, y: int, r: Run) {
    MinY(w) <= y <= MaxY(w) && BestInRow(RowAt(w, y), Some(r))
  }

  /** Among the rows before endY, the choke is the narrowest chosen run, in the first row that has it;
      runs of 999 columns and more are not considered. */
  ghost predicate NarrowestBefore(w: ImageWindow, endY: int, c: Choke) {
    && (c != NO_CHOKE ==> c.y < endY && Chosen(w, c.y, Run(c.first, c.last)))
    && (c != NO_CHOKE ==> c.width == c.last - c.first + 1 < FAR)
    && (forall y, r :: Chosen(w, y, r) && y < endY ==> NotNarrower(c, y, r))
  }

  predicate NotNarrower(c: Choke, y: int, r: Run) {
    c.width <= RunWidth(r) && (c != NO_CHOKE && y < c.y ==> c.width < RunWidth(r))
  }

  method FindNaturalChoke(w: ImageWindow) returns (c: Choke)
    ensures NarrowestBefore(w, MaxY(w) + 1, c)
  {
    c := NO_CHOKE;
    var y := MinY(w);
    while y <= MaxY(w)
      invariant MinY(w) <= y && (y <= MaxY(w) + 1 || y == MinY(w))
      invariant NarrowestBefore(w, y, c)
    {
      var first, last := ScanRow(RowAt(w, y));
      RowCompared(w, y, c, first, last);
      if first >= 0 {
        var width := last - first + 1;
        if width < c.width {
          c := Choke(y, width, first, last);
        }
      }
      y := y + 1;
    }
  }

  function Narrower(c: Choke, y: int, first: int, last: int): Choke {
    if first >= 0 && last - first + 1 < c.width then Choke(y, last - first + 1, first, last) else c
  }

  lemma RowCompared(w: ImageWindow, y: int, c: Choke, first: int, last: int)
    requires MinY(w) <= y <= MaxY(w) && NarrowestBefore(w, y, c)
    requires BestInRow(RowAt(w, y), Found(first, last))
    ensures NarrowestBefore(w, y + 1, Narrower(c, y, first, last))
  {
    forall z, r | Chosen(w, z, r) && z < y + 1 ensures NotNarrower(Narrower(c, y, first, last), z, r) {
      if z == y {
        BestIsUnique(RowAt(w, y), Some(r), Found(first, last));
      } else {
        assert NotNarrower(c, z, r);
      }
    }
  }

  /** On a map narrower than 999 columns the limits of the search do not matter: a choke is found exactly
      if some scanned row has a run of three columns. */
  lemma FoundOnNarrowMaps(w: ImageWindow, c: Choke)
    requires NarrowestBefore(w, MaxY(w) + 1, c)
    requires w.image.width < FAR && 0 <= MidX(w) < w.image.width
    ensures c != NO_CHOKE <==>
      exists y, r :: MinY(w) <= y <= MaxY(w) && IsRun(RowAt(w, y), r) && RunWidth(r) >= MIN_WIDTH
  {
    if c != NO_CHOKE {
      assert IsRun(RowAt(w, c.y), Run(c.first, c.last));
    }
    forall y, r | MinY(w) <= y <= MaxY(w) && IsRun(RowAt(w, y), r) && RunWidth(r) >= MIN_WIDTH
      ensures c != NO_CHOKE
    {
      RunsAreOnTheMap(RowAt(w, y), r);
      assert Qualifies(RowAt(w, y), r);
      var best := BestExists(RowAt(w, y), RowAt(w, y).hi + 1);
      assert Chosen(w, y, best.value);
      RunsAreOnTheMap(RowAt(w, y), best.value);
      assert NotNarrower(c, y, best.value);
    }
  }

  /** What a choke that was found is: a maximal stretch of at least three pathable columns, in a scanned row,
      and no row has a narrower chosen run, nor an earlier row one as narrow. */
  lemma ChokeMeaning(w: ImageWindow, c: Choke, y: int, r: Run)
    requires NarrowestBefore(w, MaxY(w) + 1, c) && c != NO_CHOKE
    ensures MinY(w) <= c.y <= MaxY(w) && c.width == c.last - c.first + 1 >= 3
    ensures forall x :: c.first <= x <= c.last ==> IsPathable(w.image, x, c.y)
    ensures IsScanned(w, c.first - 1) ==> !IsPathable(w.image, c.first - 1, c.y)
    ensures IsScanned(w, c.last + 1) ==> !IsPathable(w.image, c.last + 1, c.y)
    ensures Chosen(w, y, r) ==>
      c.width < r.last - r.first + 1 || (c.width == r.last - r.first + 1 && c.y <= y)
  {
    var row, chosen := RowAt(w, c.y), Run(c.first, c.last);
    assert IsRun(row, chosen);
    forall x | c.first <= x <= c.last ensures IsPathable(w.image, x, c.y) {
      assert Open(row, x);
    }
    assert IsScanned(w, c.first - 1) ==> !Open(row, c.first - 1);
    assert IsScanned(w, c.last + 1) ==> !Open(row, c.last + 1);
  }

  predicate IsScanned(w: ImageWindow, x: int) {
    RowAt(w, 0).lo <= x <= RowAt(w, 0).hi
  }

  /** There no chosen run is further from the middle than another one, without any limit. */
  lemma NearestOnNarrowMaps(w: ImageWindow, y: int, r: Run, other: Run)
    requires Chosen(w, y, r) && IsRun(RowAt(w, y), other) && RunWidth(other) >= MIN_WIDTH
    requires w.image.width < FAR && 0 <= MidX(w) < w.image.width
    ensures Preferred(RowAt(w, y), r, other)
  {
  }

  /** In terms of columns: its middle is no further from the column aimed at than that of any stretch of
      three columns in its row, and it starts no later than one as far. */
  lemma ChosenIsNearest(w: ImageWindow, y: int, r: Run, other: Run)
    requires Chosen(w, y, r) && IsRun(RowAt(w, y), other) && other.last - other.first >= 2
    requires w.image.width < 999 && 0 <= MidX(w) < w.image.width
    ensures var a, b := (r.first + r.last) / 2 - MidX(w), (other.first + other.last) / 2 - MidX(w);
      var da, db := if a < 0 then -a else a, if b < 0 then -b else b;
      da < db || (da == db && r.first <= other.first)
  {
    NearestOnNarrowMaps(w, y, r, other);
  }
}
