/**
 The program's two loops: the virtual keyboard, which loads a layout file into a key-to-matrix
 table and turns key events into matrix updates, and the layout generator, which asks for one
 key press per matrix position and writes the layout the presses describe.
 */
module App {
  import opened Wrappers
  import opened Ints
  import opened KeyCodeTable
  import opened KeyCodes
  import opened KeyEvents
  import opened MatrixMapper
  import opened Keyboard

  /** The key-to-matrix table has `u8::MAX` slots, indexed by key code. */
  const TABLE_SIZE: nat := U8_LIMIT - 1

  /** A key-to-matrix table. */
  type Table = t: seq<MatrixPosition> | |t| == TABLE_SIZE
    witness seq(TABLE_SIZE, _ => MatrixPosition(0, 0))

  /** The table before the layout is read: every slot holds `(0, 0).into()`. */
  function EmptyTable(): (t: Table)
    ensures forall k: KeyCode :: t[Slot(k)] == MatrixPosition(0, 0)
  {
    seq(TABLE_SIZE, _ => FromTuple((0, 0)))
  }

  /** The slot of a key. */
  function Slot(k: KeyCode): (i: nat)
    ensures i < TABLE_SIZE
  {
    ConversionsAgree(k);
    ToUsize(k)
  }

  /** One layout item read into the table: if its label names a key, that key's slot is overwritten. */
  function LoadItem(t: Table, item: LayoutItem): (r: Table)
    ensures forall k: KeyCode :: r[Slot(k)] == if Parse(item.label_) == Some(k) then item.matrix else t[Slot(k)]
  {
    match Parse(item.label_)
    case Some(k) => t[Slot(k) := item.matrix]
    case None => t
  }

  /** `v` is `init`, or the matrix of an item of `items` whose label names `k`. */
  predicate KeptOrNamed(v: MatrixPosition, init: MatrixPosition, items: seq<LayoutItem>, k: KeyCode)
  {
    v == init || exists i :: 0 <= i < |items| && Parse(items[i].label_) == Some(k) && v == items[i].matrix
  }

  /**
   The items read into the table in file order. A key's slot keeps its value or takes the
   matrix of an item that names the key.
   */
  function Fill(t: Table, items: seq<LayoutItem>): (r: Table)
    ensures forall k: KeyCode :: KeptOrNamed(r[Slot(k)], t[Slot(k)], items, k)
    decreases |items|
  {
    if items == [] then t else Fill(LoadItem(t, items[0]), items[1..])
  }

  /** Reading two runs of items one after the other. */
  lemma {:induction false} FillAppend(t: Table, a: seq<LayoutItem>, b: seq<LayoutItem>)
    ensures Fill(t, a + b) == Fill(Fill(t, a), b)
    decreases |a|
  {
    if a != [] {
      assert (a + b)[0] == a[0] && (a + b)[1..] == a[1..] + b;
      FillAppend(LoadItem(t, a[0]), a[1..], b);
    } else {
      assert a + b == b;
    }
  }

  /**
   The table `virtual_keyboard` builds from a layout file: a key's slot holds (0, 0) or the
   matrix of an item that names the key.
   */
  function BuildTable(layout: Layout): (t: Table)
    ensures forall k: KeyCode :: KeptOrNamed(t[Slot(k)], MatrixPosition(0, 0), layout.layout, k)
  {
    Fill(EmptyTable(), layout.layout)
  }

  /** The item of `items` whose label names `k`, the last one if several do. */
  predicate LastFor(items: seq<LayoutItem>, k: KeyCode, i: int)
  {
    && 0 <= i < |items|
    && Parse(items[i].label_) == Some(k)
    && forall j :: i < j < |items| ==> Parse(items[j].label_) != Some(k)
  }

  /** Filling the table with `items`: a key's slot ends up with the matrix of its last item. */
  lemma {:induction false} FillLast(t: Table, items: seq<LayoutItem>, k: KeyCode, i: int)
    requires LastFor(items, k, i)
    ensures Fill(t, items)[Slot(k)] == items[i].matrix
    decreases |items|
  {
    var rest := items[1..];
    if i == 0 {
      assert forall j :: 0 <= j < |rest| ==> Parse(rest[j].label_) != Some(k) by {
        forall j | 0 <= j < |rest|
          ensures Parse(rest[j].label_) != Some(k)
        {
          assert rest[j] == items[j + 1];
        }
      }
      FillUnnamed(LoadItem(t, items[0]), rest, k);
    } else {
      assert LastFor(rest, k, i - 1);
      FillLast(LoadItem(t, items[0]), rest, k, i - 1);
    }
  }

  /** Filling the table with `items`: the slot of a key that no label names is left as it was. */
  lemma {:induction false} FillUnnamed(t: Table, items: seq<LayoutItem>, k: KeyCode)
    requires forall j :: 0 <= j < |items| ==> Parse(items[j].label_) != Some(k)
    ensures Fill(t, items)[Slot(k)] == t[Slot(k)]
    decreases |items|
  {
    if items != [] {
      FillUnnamed(LoadItem(t, items[0]), items[1..], k);
    }
  }

  /** The loaded table maps each key to the matrix of the last item naming it, and any other key to (0, 0). */
  lemma BuildTableSpec(layout: Layout, k: KeyCode)
    ensures forall i :: LastFor(layout.layout, k, i) ==> BuildTable(layout)[Slot(k)] == layout.layout[i].matrix
    ensures (forall j :: 0 <= j < |layout.layout| ==> Parse(layout.layout[j].label_) != Some(k))
        ==> BuildTable(layout)[Slot(k)] == MatrixPosition(0, 0)
  {
    forall i | LastFor(layout.layout, k, i)
      ensures BuildTable(layout)[Slot(k)] == layout.layout[i].matrix
    {
      FillLast(EmptyTable(), layout.layout, k, i);
    }
    if forall j :: 0 <= j < |layout.layout| ==> Parse(layout.layout[j].label_) != Some(k) {
      FillUnnamed(EmptyTable(), layout.layout, k);
    }
  }

  /** The report `virtual_keyboard` sends for one event, if any. */
  function Dispatch(t: Table, e: KeyEvent): (op: Option<Operation>)
    ensures op.Some? <==> (e.Press? && !e.repeat && e.code != NONE) || e.Release?
    ensures op.Some? ==> op.value.UpdateMatrix? && op.value.pressed == e.Press?
    ensures op.Some? ==> op.value.row == t[Slot(e.code)].row && op.value.col == t[Slot(e.code)].col
  {
    match e
    case Press(code, held, _) =>
      if !held && code != NONE then
        var p := t[Slot(code)];
        Some(UpdateMatrix(true, p.row, p.col))
      else None
    case Release(code, _) =>
      var p := t[Slot(code)];
      Some(UpdateMatrix(false, p.row, p.col))
    case _ => None
  }

  /** The reports `virtual_keyboard` sends for a stream of events, every send answered. */
  function Run(t: Table, events: seq<KeyEvent>): (ops: seq<Operation>)
    ensures |ops| <= |events|
    ensures forall op <- ops :: op.UpdateMatrix?
  {
    if events == [] then []
    else
      var here := match Dispatch(t, events[0]) case Some(op) => [op] case None => [];
      here + Run(t, events[1..])
  }

  /** The loop handles the events one at a time: a stream's reports are those of its parts. */
  lemma {:induction false} RunAppend(t: Table, a: seq<KeyEvent>, b: seq<KeyEvent>)
    ensures Run(t, a + b) == Run(t, a) + Run(t, b)
    decreases |a|
  {
    if a != [] {
      assert (a + b)[0] == a[0] && (a + b)[1..] == a[1..] + b;
      RunAppend(t, a[1..], b);
      var here := match Dispatch(t, a[0]) case Some(op) => [op] case None => [];
      assert Run(t, a + b) == here + Run(t, a[1..] + b);
      assert Run(t, a) == here + Run(t, a[1..]);
    } else {
      assert a + b == b;
    }
  }

  /** A press and its release light up and release the same switch. */
  lemma PressRelease(t: Table, k: KeyCode, t0: MyTime, t1: MyTime)
    requires k != NONE
    ensures Run(t, [Press(k, false, t0), Release(k, t1)])
        == [UpdateMatrix(true, t[Slot(k)].row, t[Slot(k)].col), UpdateMatrix(false, t[Slot(k)].row, t[Slot(k)].col)]
  {
    assert [Press(k, false, t0), Release(k, t1)][1..] == [Release(k, t1)];
    assert Run(t, [Release(k, t1)]) == [UpdateMatrix(false, t[Slot(k)].row, t[Slot(k)].col)];
  }

  /** Held keys, synchronisation and scan-code events send nothing. */
  lemma RunIgnores(t: Table, e: KeyEvent)
    requires (e.Press? && e.repeat) || e.Sync? || e.Scancode? || e.Unsupported?
    ensures Run(t, [e]) == []
  {
  }

  // ----- generate_matrix_map -----

  /** The events the generator waits for: a first press, not an auto-repeat. */
  predicate IsPress(e: KeyEvent)
  {
    e.Press? && !e.repeat
  }

  /** The keys of the stream's first presses, in order. */
  function Presses(events: seq<KeyEvent>): (codes: seq<KeyCode>)
    ensures |codes| <= |events|
  {
    if events == [] then []
    else (if IsPress(events[0]) then [events[0].code] else []) + Presses(events[1..])
  }

  /** The wait loop: the first press at or after `pos`, and the position after it. */
  function NextPress(events: seq<KeyEvent>, pos: nat): (r: Option<(KeyCode, nat)>)
    requires pos <= |events|
    ensures r.None? <==> Presses(events[pos..]) == []
    ensures r.Some? ==> pos < r.value.1 <= |events|
    ensures r.Some? ==> Presses(events[pos..]) == [r.value.0] + Presses(events[r.value.1..])
    decreases |events| - pos
  {
    if pos == |events| then None
    else
      assert events[pos..][1..] == events[pos + 1..];
      if IsPress(events[pos]) then Some((events[pos].code, pos + 1))
      else NextPress(events, pos + 1)
  }

  /**
   The key the generator records for the `i`-th press: the first press sets the skip key, and
   a later press of the same key leaves its position empty (`NONE`).
   */
  function Cell(codes: seq<KeyCode>, i: nat): KeyCode
    requires i < |codes|
  {
    if 0 < i && codes[i] == codes[0] then NONE else codes[i]
  }

  /** Multiplication by a natural number is monotonic. */
  lemma MulMono(a: nat, b: nat, c: nat)
    requires a <= b
    ensures a * c <= b * c
  {
  }

  /** The next row starts `cols` positions later, and still within `rows` rows. */
  lemma RowStep(row: nat, rows: nat, cols: nat)
    requires row < rows
    ensures (row + 1) * cols == row * cols + cols
    ensures (row + 1) * cols <= rows * cols
  {
    MulMono(row + 1, rows, cols);
  }

  /** Quotient and remainder are the only such pair. */
  lemma DivModUnique(i: nat, cols: nat, q: nat, r: nat)
    requires r < cols && i == q * cols + r
    ensures i / cols == q && i % cols == r
  {
    var q' := i / cols;
    if q' < q {
      MulMono(q' + 1, q, cols);
    } else if q < q' {
      MulMono(q + 1, q', cols);
    }
  }

  /** A quotient by `cols` of a number below `n * cols` is below `n`. */
  lemma DivBound(i: nat, n: nat, cols: nat)
    requires i < n * cols
    ensures 0 < cols && i / cols < n
  {
    if i / cols >= n {
      MulMono(n, i / cols, cols);
    }
  }

  /** Where the `i`-th press goes when the presses fill `cols` columns row by row. */
  function PositionOf(i: nat, cols: u8): MatrixPosition
    requires i < TABLE_SIZE * cols as int
  {
    DivBound(i, TABLE_SIZE, cols as int);
    MatrixPosition((i / cols as int) as u8, (i % cols as int) as u8)
  }

  /** The layout item for the `i`-th press, recorded as `code` and labelled by `labelOf`. */
  function ItemOf(i: nat, cols: u8, code: KeyCode, labelOf: KeyCode -> string): LayoutItem
    requires i < TABLE_SIZE * cols as int
  {
    var p := PositionOf(i, cols);
    LayoutItem(p, p.col, p.row, labelOf(code))
  }

  /** The presses fit in `cols` columns of at most `u8::MAX` rows. */
  predicate Fits(codes: seq<KeyCode>, cols: u8)
  {
    |codes| <= TABLE_SIZE * cols as int
  }

  /** The layout the presses describe: one item per position whose recorded key is not `NONE`. */
  function Items(codes: seq<KeyCode>, cols: u8, labelOf: KeyCode -> string): seq<LayoutItem>
    requires Fits(codes, cols)
    decreases |codes|
  {
    if codes == [] then []
    else
      var n := |codes| - 1;
      Items(codes[..n], cols, labelOf)
        + (if Cell(codes, n) == NONE then [] else [ItemOf(n, cols, Cell(codes, n), labelOf)])
  }

  /** One more press adds at most the item for its position. */
  lemma ItemsSnoc(codes: seq<KeyCode>, code: KeyCode, cols: u8, labelOf: KeyCode -> string)
    requires Fits(codes + [code], cols)
    ensures Items(codes + [code], cols, labelOf) == Items(codes, cols, labelOf)
      + (if Cell(codes + [code], |codes|) == NONE then []
         else [ItemOf(|codes|, cols, Cell(codes + [code], |codes|), labelOf)])
  {
    assert (codes + [code])[..|codes|] == codes;
  }

  /** Position `row * cols + col` is row `row`, column `col`. */
  lemma RowMajor(row: u8, col: u8, cols: u8)
    requires col < cols && row as int < TABLE_SIZE
    ensures row as int * cols as int + col as int < TABLE_SIZE * cols as int
    ensures row as int * cols as int + col as int == 0 <==> row == 0 && col == 0
    ensures PositionOf(row as int * cols as int + col as int, cols) == MatrixPosition(row, col)
    ensures (row as int + 1) * cols as int == row as int * cols as int + cols as int
  {
    MulMono(row as int + 1, TABLE_SIZE, cols as int);
    DivModUnique(row as int * cols as int + col as int, cols as int, row as int, col as int);
  }

  /** The skip key after `captured`: unset before the first press, then the first press. */
  function SkipAfter(captured: seq<KeyCode>): KeyCode
  {
    if captured == [] then NONE else captured[0]
  }

  /** One pass of the wait loop records `code` at (`row`, `col`) as the generator does. */
  lemma GenerateStep(captured: seq<KeyCode>, code: KeyCode, row: u8, col: u8, cols: u8, labelOf: KeyCode -> string)
    requires |captured| < TABLE_SIZE * cols as int
    requires PositionOf(|captured|, cols) == MatrixPosition(row, col)
    requires |captured| == 0 <==> row == 0 && col == 0
    ensures Fits(captured + [code], cols)
    ensures var cell := if code == SkipAfter(captured) then NONE else code;
      Items(captured + [code], cols, labelOf) == Items(captured, cols, labelOf)
        + (if cell == NONE then [] else [LayoutItem(MatrixPosition(row, col), col, row, labelOf(cell))])
    ensures SkipAfter(captured + [code])
        == if code != SkipAfter(captured) && row == 0 && col == 0 then code else SkipAfter(captured)
  {
    ItemsSnoc(captured, code, cols, labelOf);
  }

  /** The number of matrix positions the generator asks for. */
  function CellCount(rows: u8, cols: u8): (n: nat)
    ensures n <= TABLE_SIZE * cols as int
  {
    MulMono(rows as int, TABLE_SIZE, cols as int);
    rows as int * cols as int
  }

  const DEVICE_CLOSED: string := "the event device closed"

  /** The generator's state between two positions: the device's read position, the skip key and the items so far. */
  datatype Scan = Scan(pos: nat, skip: KeyCode, items: seq<LayoutItem>)

  /** `s` is the state after the first `n` presses of `events`. */
  ghost predicate Scanned(events: seq<KeyEvent>, cols: u8, labelOf: KeyCode -> string, s: Scan, n: nat)
  {
    && s.pos <= |events|
    && n <= |Presses(events)|
    && n <= TABLE_SIZE * cols as int
    && Presses(events) == Presses(events)[..n] + Presses(events[s.pos..])
    && s.items == Items(Presses(events)[..n], cols, labelOf)
    && s.skip == SkipAfter(Presses(events)[..n])
  }

  /** Before the first press: nothing read, no skip key, no items. */
  lemma ScannedStart(events: seq<KeyEvent>, cols: u8, labelOf: KeyCode -> string)
    ensures Scanned(events, cols, labelOf, Scan(0, NONE, []), 0)
  {
    assert events[0..] == events;
  }

  /** The press found after the first `n` presses is press number `n`. */
  lemma PressesStep(events: seq<KeyEvent>, n: nat, pos: nat, code: KeyCode, after: nat)
    requires pos <= |events| && n <= |Presses(events)|
    requires Presses(events) == Presses(events)[..n] + Presses(events[pos..])
    requires NextPress(events, pos) == Some((code, after))
    ensures n + 1 <= |Presses(events)|
    ensures Presses(events)[..n + 1] == Presses(events)[..n] + [code]
    ensures Presses(events) == Presses(events)[..n + 1] + Presses(events[after..])
  {
    assert Presses(events) == (Presses(events)[..n] + [code]) + Presses(events[after..]);
  }

  /** After the press of `code`, read up to `after`, the state is that of one more press. */
  lemma ScannedStep(events: seq<KeyEvent>, n: nat, row: u8, col: u8, cols: u8, labelOf: KeyCode -> string, s: Scan, code: KeyCode, after: nat)
    requires n < TABLE_SIZE * cols as int
    requires PositionOf(n, cols) == MatrixPosition(row, col)
    requires n == 0 <==> row == 0 && col == 0
    requires Scanned(events, cols, labelOf, s, n)
    requires NextPress(events, s.pos) == Some((code, after))
    ensures var cell := if code == s.skip then NONE else code;
      var skip := if code != s.skip && row == 0 && col == 0 then code else s.skip;
      var items := s.items + (if cell == NONE then [] else [LayoutItem(MatrixPosition(row, col), col, row, labelOf(cell))]);
      Scanned(events, cols, labelOf, Scan(after, skip, items), n + 1)
  {
    var captured := Presses(events)[..n];
    PressesStep(events, n, s.pos, code, after);
    GenerateStep(captured, code, row, col, cols, labelOf);
  }

  /**
   One position of `generate_matrix_map`: wait for a press, record it at (`row`, `col`) unless it
   is the skip key, and set the skip key at (0, 0); `None` if the events run out first.
   */
  method RecordPosition(events: seq<KeyEvent>, row: u8, col: u8, cols: u8, labelOf: KeyCode -> string, s: Scan) returns (r: Option<Scan>)
    requires col < cols && row as int < TABLE_SIZE
    requires Scanned(events, cols, labelOf, s, row as int * cols as int + col as int)
    ensures r.Some? <==> row as int * cols as int + col as int < |Presses(events)|
    ensures r.Some? ==> Scanned(events, cols, labelOf, r.value, row as int * cols as int + col as int + 1)
  {
    var next := NextPress(events, s.pos);
    if next.None? {
      return None;
    }
    var code := next.value.0;
    RowMajor(row, col, cols);
    ScannedStep(events, row as int * cols as int + col as int, row, col, cols, labelOf, s, code, next.value.1);
    var skip := s.skip;
    var cell := code;
    if code == skip {
      cell := NONE;
    } else if row == 0 && col == 0 {
      skip := code;
    }
    var items := s.items;
    if cell != NONE {
      items := items + [LayoutItem(MatrixPosition(row, col), col, row, labelOf(cell))];
    }
    return Some(Scan(next.value.1, skip, items));
  }

  /** One row of `generate_matrix_map`: a press for each column, or `None` if the events run out. */
  method GenerateRow(events: seq<KeyEvent>, row: u8, cols: u8, labelOf: KeyCode -> string, s: Scan) returns (r: Option<Scan>)
    requires row as int < TABLE_SIZE && Scanned(events, cols, labelOf, s, row as int * cols as int)
    ensures r.Some? <==> row as int * cols as int + cols as int <= |Presses(events)|
    ensures r.Some? ==> Scanned(events, cols, labelOf, r.value, row as int * cols as int + cols as int)
  {
    var scan := s;
    var col: u8 := 0;
    while col < cols
      invariant col <= cols
      invariant Scanned(events, cols, labelOf, scan, row as int * cols as int + col as int)
    {
      RowMajor(row, col, cols);
      var next := RecordPosition(events, row, col, cols, labelOf, scan);
      if next.None? {
        return None;
      }
      scan := next.value;
      col := col + 1;
    }
    RowMajor(row, 0, if cols == 0 then 1 else cols);
    return Some(scan);
  }

  /** The rows from `row` on, each recorded by `GenerateRow`; `None` if the events run out first. */
  method GenerateRows(events: seq<KeyEvent>, row: u8, rows: u8, cols: u8, labelOf: KeyCode -> string, s: Scan)
    returns (r: Option<Scan>)
    requires row <= rows && Scanned(events, cols, labelOf, s, row as int * cols as int)
    ensures r.Some? <==> CellCount(rows, cols) <= |Presses(events)|
    ensures r.Some? ==> r.value.items == Items(Presses(events)[..CellCount(rows, cols)], cols, labelOf)
    decreases rows - row
  {
    if row == rows {
      return Some(s);
    }
    RowStep(row as int, rows as int, cols as int);
    var next := GenerateRow(events, row, cols, labelOf, s);
    if next.None? {
      return None;
    }
    r := GenerateRows(events, row + 1, rows, cols, labelOf, next.value);
  }

  /**
   `generate_matrix_map`: for each row and column, wait for the next press and record it. The
   events are the device's events until it fails; running out of them is the error.
   */
  method GenerateMatrixMap(events: seq<KeyEvent>, rows: u8, cols: u8, labelOf: KeyCode -> string) returns (r: Result<Layout, string>)
    ensures r.Success? <==> CellCount(rows, cols) <= |Presses(events)|
    ensures r.Success? ==> r.value.layout == Items(Presses(events)[..CellCount(rows, cols)], cols, labelOf)
    ensures r.Success? ==> |r.value.layout| <= CellCount(rows, cols)
    ensures r.Failure? ==> r.error == DEVICE_CLOSED
  {
    ScannedStart(events, cols, labelOf);
    var scan := GenerateRows(events, 0, rows, cols, labelOf, Scan(0, NONE, []));
    match scan
    case Some(s) =>
      ItemsAtFilled(Presses(events)[..CellCount(rows, cols)], cols, labelOf);
      return Success(Layout(s.items));
    case None => return Failure(DEVICE_CLOSED);
  }

  // ----- what the generated layout holds -----

  /** The positions that get an item: those whose recorded key is not `NONE`, in order. */
  function Filled(codes: seq<KeyCode>): seq<nat>
    decreases |codes|
  {
    if codes == [] then []
    else
      var n := |codes| - 1;
      Filled(codes[..n]) + (if Cell(codes, n) == NONE then [] else [n])
  }

  /** `Filled` lists exactly the non-empty positions, in increasing order. */
  lemma {:induction false} FilledSpec(codes: seq<KeyCode>)
    ensures forall i: nat :: i in Filled(codes) <==> i < |codes| && Cell(codes, i) != NONE
    ensures forall a, b :: 0 <= a < b < |Filled(codes)| ==> Filled(codes)[a] < Filled(codes)[b]
    decreases |codes|
  {
    if codes != [] {
      var n := |codes| - 1;
      FilledSpec(codes[..n]);
      forall i: nat | i < n
        ensures Cell(codes[..n], i) == Cell(codes, i)
      {
        CellPrefix(codes, n, i);
      }
      var prev := Filled(codes[..n]);
      forall a | 0 <= a < |prev|
        ensures prev[a] < n
      {
        assert prev[a] in prev;
      }
    }
  }

  /** The generated items are, in order, the items of the non-empty positions. */
  lemma {:induction false} ItemsAtFilled(codes: seq<KeyCode>, cols: u8, labelOf: KeyCode -> string)
    requires Fits(codes, cols)
    ensures |Items(codes, cols, labelOf)| == |Filled(codes)| <= |codes|
    ensures forall j :: 0 <= j < |Filled(codes)| ==> Filled(codes)[j] < |codes|
    ensures forall j :: 0 <= j < |Filled(codes)| ==>
      Items(codes, cols, labelOf)[j] == ItemOf(Filled(codes)[j], cols, Cell(codes, Filled(codes)[j]), labelOf)
    decreases |codes|
  {
    if codes != [] {
      var n := |codes| - 1;
      ItemsAtFilled(codes[..n], cols, labelOf);
      forall i: nat | i < n
        ensures Cell(codes[..n], i) == Cell(codes, i)
      {
        CellPrefix(codes, n, i);
      }
    }
  }

  /** Distinct presses go to distinct positions. */
  lemma PositionOfInjective(i: nat, j: nat, cols: u8)
    requires i < TABLE_SIZE * cols as int && j < TABLE_SIZE * cols as int
    ensures PositionOf(i, cols) == PositionOf(j, cols) ==> i == j
  {
    DivBound(i, TABLE_SIZE, cols as int);
  }

  /** Each item's matrix position agrees with its `x` and `y`, and no two items share a position. */
  lemma ItemsDistinct(codes: seq<KeyCode>, cols: u8, labelOf: KeyCode -> string, a: nat, b: nat)
    requires Fits(codes, cols)
    requires a < |Items(codes, cols, labelOf)| && b < |Items(codes, cols, labelOf)|
    ensures Items(codes, cols, labelOf)[a].matrix == MatrixPosition(Items(codes, cols, labelOf)[a].y, Items(codes, cols, labelOf)[a].x)
    ensures Items(codes, cols, labelOf)[a].x < cols
    ensures a != b ==> Items(codes, cols, labelOf)[a].matrix != Items(codes, cols, labelOf)[b].matrix
  {
    ItemsAtFilled(codes, cols, labelOf);
    FilledSpec(codes);
    var i := Filled(codes)[a];
    DivBound(i, TABLE_SIZE, cols as int);
    if a != b {
      PositionOfInjective(i, Filled(codes)[b], cols);
    }
  }

  // ----- reading a generated layout back -----

  /** A labelling whose labels each parse to their own key, or to nothing. */
  predicate HonestLabels(labelOf: KeyCode -> string)
  {
    forall c :: Parse(labelOf(c)).Some? ==> Parse(labelOf(c)).value == c
  }

  /** The `as_ref` spelling of a key, as a label. */
  function AsRefLabel(k: KeyCode): string
  {
    AsRef(k)
  }

  /** The `as_ref` spellings are honest labels, and each names its key. */
  lemma AsRefHonest()
    ensures HonestLabels(AsRefLabel)
    ensures forall k :: Parse(AsRefLabel(k)) == Some(k)
  {
    forall c
      ensures Parse(AsRefLabel(c)) == Some(c)
    {
      ParseAsRef(c);
    }
  }

  /**
   The Debug spellings are honest labels; those of the renamed keys name nothing, those of the
   other keys name their key.
   */
  lemma DebugNameHonest()
    ensures HonestLabels(DebugName)
    ensures forall k :: Parse(DebugName(k)) == Some(k) <==> !Renamed(k)
    ensures forall k :: Renamed(k) ==> Parse(DebugName(k)) == None
  {
    forall c
      ensures Parse(DebugName(c)) == Some(c) <==> !Renamed(c)
      ensures Renamed(c) ==> Parse(DebugName(c)) == None
    {
      DebugNameParses(c);
      if Renamed(c) {
        RenamedIdentifierRejected(c);
      }
    }
  }

  /**
   Loading the layout generated from `codes`: a key recorded last at press `i`, whose label
   names it, is loaded at the position of press `i`.
   */
  lemma LoadLearned(codes: seq<KeyCode>, cols: u8, labelOf: KeyCode -> string, k: KeyCode, i: nat)
    requires Fits(codes, cols) && HonestLabels(labelOf)
    requires i < |codes| && Cell(codes, i) == k && k != NONE
    requires forall j: nat :: i < j < |codes| ==> Cell(codes, j) != k
    requires Parse(labelOf(k)) == Some(k)
    ensures BuildTable(Layout(Items(codes, cols, labelOf)))[Slot(k)] == PositionOf(i, cols)
  {
    var items := Items(codes, cols, labelOf);
    var filled := Filled(codes);
    ItemsAtFilled(codes, cols, labelOf);
    FilledSpec(codes);
    assert i in filled;
    var a :| 0 <= a < |filled| && filled[a] == i;
    forall j | a < j < |items|
      ensures Parse(items[j].label_) != Some(k)
    {
      assert filled[j] > i;
    }
    assert LastFor(items, k, a);
    FillLast(EmptyTable(), items, k, a);
  }

  /**
   Loading the layout generated from `codes`: a key that was never recorded, or whose label
   names nothing, keeps the empty table's (0, 0).
   */
  lemma LoadUnlearned(codes: seq<KeyCode>, cols: u8, labelOf: KeyCode -> string, k: KeyCode)
    requires Fits(codes, cols) && HonestLabels(labelOf)
    requires || k == NONE
             || Parse(labelOf(k)).None?
             || forall j: nat :: j < |codes| ==> Cell(codes, j) != k
    ensures BuildTable(Layout(Items(codes, cols, labelOf)))[Slot(k)] == MatrixPosition(0, 0)
  {
    var items := Items(codes, cols, labelOf);
    var filled := Filled(codes);
    ItemsAtFilled(codes, cols, labelOf);
    FilledSpec(codes);
    forall j | 0 <= j < |items|
      ensures Parse(items[j].label_) != Some(k)
    {
      assert filled[j] in filled;
    }
    FillUnnamed(EmptyTable(), items, k);
  }

  /**
   As written, the generator labels items with the Debug spelling, so the loader forgets every
   renamed key (the digits and the 102nd key), wherever it was recorded.
   */
  lemma DebugLabelsForgetRenamed(codes: seq<KeyCode>, cols: u8, k: KeyCode)
    requires Fits(codes, cols) && Renamed(k)
    ensures BuildTable(Layout(Items(codes, cols, DebugName)))[Slot(k)] == MatrixPosition(0, 0)
  {
    DebugNameHonest();
    LoadUnlearned(codes, cols, DebugName, k);
  }

  /** Recording Esc then 1 on a two-column keyboard: the 1 key is learned at (0, 1) but loaded at (0, 0). */
  lemma DebugLabelsLoseKey1()
    ensures PositionOf(1, 2) == MatrixPosition(0, 1)
    ensures BuildTable(Layout(Items([ESC, KEY_1], 2, DebugName)))[Slot(KEY_1)] == MatrixPosition(0, 0)
    ensures BuildTable(Layout(Items([ESC, KEY_1], 2, AsRefLabel)))[Slot(KEY_1)] == MatrixPosition(0, 1)
  {
    DebugLabelsForgetRenamed([ESC, KEY_1], 2, KEY_1);
    AsRefHonest();
    LoadLearned([ESC, KEY_1], 2, AsRefLabel, KEY_1, 1);
  }

  /** The last press recorded as `k`, if any. */
  function LastPress(codes: seq<KeyCode>, k: KeyCode): (r: Option<nat>)
    ensures r.Some? ==> r.value < |codes|
    decreases |codes|
  {
    if codes == [] then None
    else
      var n := |codes| - 1;
      if Cell(codes, n) == k then Some(n) else LastPress(codes[..n], k)
  }

  /** Dropping the last presses does not change the cells before them. */
  lemma CellPrefix(codes: seq<KeyCode>, n: nat, i: nat)
    requires i < n <= |codes|
    ensures Cell(codes[..n], i) == Cell(codes, i)
  {
    assert codes[..n][i] == codes[i] && codes[..n][0] == codes[0];
  }

  /** `LastPress` finds the last press recorded as `k`, and nothing when there is none. */
  lemma {:induction false} LastPressSpec(codes: seq<KeyCode>, k: KeyCode)
    ensures LastPress(codes, k).Some? ==>
      && Cell(codes, LastPress(codes, k).value) == k
      && forall j: nat :: LastPress(codes, k).value < j < |codes| ==> Cell(codes, j) != k
    ensures LastPress(codes, k).None? <==> forall j: nat :: j < |codes| ==> Cell(codes, j) != k
    decreases |codes|
  {
    if codes != [] {
      var n := |codes| - 1;
      if Cell(codes, n) != k {
        LastPressSpec(codes[..n], k);
        forall j: nat | j < n
          ensures Cell(codes[..n], j) == Cell(codes, j)
        {
          CellPrefix(codes, n, j);
        }
      }
    }
  }

  /** The table the presses describe: each key at the position of its last press, every other key at (0, 0). */
  function Learned(codes: seq<KeyCode>, cols: u8, k: KeyCode): MatrixPosition
    requires Fits(codes, cols)
  {
    match LastPress(codes, k)
    case Some(i) => if k == NONE then MatrixPosition(0, 0) else PositionOf(i, cols)
    case None => MatrixPosition(0, 0)
  }

  /** With honest labels, a key whose label names it is loaded where the presses put it. */
  lemma HonestLayoutReloads(codes: seq<KeyCode>, cols: u8, labelOf: KeyCode -> string, k: KeyCode)
    requires Fits(codes, cols) && HonestLabels(labelOf)
    requires Parse(labelOf(k)) == Some(k)
    ensures BuildTable(Layout(Items(codes, cols, labelOf)))[Slot(k)] == Learned(codes, cols, k)
  {
    LastPressSpec(codes, k);
    match LastPress(codes, k)
    case Some(i) =>
      if k == NONE {
        LoadUnlearned(codes, cols, labelOf, k);
      } else {
        LoadLearned(codes, cols, labelOf, k, i);
      }
    case None => LoadUnlearned(codes, cols, labelOf, k);
  }

  /** With the `as_ref` spellings as labels, the generated layout loads back to the table the presses describe. */
  lemma AsRefLayoutReloads(codes: seq<KeyCode>, cols: u8, k: KeyCode)
    requires Fits(codes, cols)
    ensures BuildTable(Layout(Items(codes, cols, AsRefLabel)))[Slot(k)] == Learned(codes, cols, k)
  {
    AsRefHonest();
    HonestLayoutReloads(codes, cols, AsRefLabel, k);
  }

  /**
   With the Debug spellings as labels, the generated layout loads back to the table the presses
   describe, except that every renamed key is lost.
   */
  lemma DebugLayoutReloads(codes: seq<KeyCode>, cols: u8, k: KeyCode)
    requires Fits(codes, cols)
    ensures BuildTable(Layout(Items(codes, cols, DebugName)))[Slot(k)]
      == if Renamed(k) then MatrixPosition(0, 0) else Learned(codes, cols, k)
  {
    DebugNameHonest();
    if Renamed(k) {
      DebugLabelsForgetRenamed(codes, cols, k);
    } else {
      HonestLayoutReloads(codes, cols, DebugName, k);
    }
  }

  /**
   End to end: with a layout generated from the presses `codes` and labelled with the `as_ref`
   spellings, pressing a key lights up the switch it was recorded at.
   */
  lemma PressLearnedKey(codes: seq<KeyCode>, cols: u8, k: KeyCode, time: MyTime)
    requires Fits(codes, cols) && k != NONE
    ensures Dispatch(BuildTable(Layout(Items(codes, cols, AsRefLabel))), Press(k, false, time))
      == Some(UpdateMatrix(true, Learned(codes, cols, k).row, Learned(codes, cols, k).col))
  {
    AsRefLayoutReloads(codes, cols, k);
  }

  /**
   A layout file with one item labelled "a" whose matrix array is `[2, 3]`: the key A is loaded
   at row 2, column 3, since the array is read in field order.
   */
  lemma LoadOneItemExample()
    ensures Deserialized([2, 3]) == Some(MatrixPosition(2, 3))
    ensures BuildTable(Layout([LayoutItem(MatrixPosition(2, 3), 0, 0, "a")]))[Slot(A)] == MatrixPosition(2, 3)
  {
    ParseSpec("a", A);
    assert AsRef(A) == "A";
    assert LastFor([LayoutItem(MatrixPosition(2, 3), 0, 0, "a")], A, 0);
    FillLast(EmptyTable(), [LayoutItem(MatrixPosition(2, 3), 0, 0, "a")], A, 0);
  }
}
