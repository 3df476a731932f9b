/**
 Matrix positions and the layout file's items, and the fixed key-to-matrix table `map` for a
 full-size keyboard, together with the table its first three rows evidently intend.
 */
module MatrixMapper {
  import opened Wrappers
  import opened Ints
  import opened KeyCodeTable
  import opened KeyCodes

  /** A switch of the keyboard's matrix, `MatrixPosition`. */
  datatype MatrixPosition = MatrixPosition(row: u8, col: u8)

  /** `From<(u8, u8)>`: the pair is read as (column, row). */
  function FromTuple(t: (u8, u8)): (p: MatrixPosition)
    ensures (p.col, p.row) == t
  {
    MatrixPosition(t.1, t.0)
  }

  /** `FromTuple` is a bijection, with inverse "column, then row". */
  lemma FromTupleInverse(p: MatrixPosition, t: (u8, u8))
    ensures FromTuple((p.col, p.row)) == p
    ensures (FromTuple(t).col, FromTuple(t).row) == t
  {
  }

  /** `Serialize_tuple`: the fields as a JSON array in declaration order, `[row, col]`. */
  function Serialized(p: MatrixPosition): (s: seq<u8>)
    ensures |s| == 2
    ensures Deserialized(s) == Some(p)
  {
    [p.row, p.col]
  }

  /** `Deserialize_tuple`: a two-element array read back in declaration order. */
  function Deserialized(s: seq<u8>): (r: Option<MatrixPosition>)
    ensures r.Some? <==> |s| == 2
  {
    if |s| == 2 then Some(MatrixPosition(s[0], s[1])) else None
  }

  /** The layout file's encoding of a position round-trips, both ways. */
  lemma SerializedRoundTrip(p: MatrixPosition, s: seq<u8>)
    ensures Deserialized(Serialized(p)) == Some(p)
    ensures Deserialized(s).Some? ==> Serialized(Deserialized(s).value) == s
  {
  }

  /**
   The file's array and the tuple conversion disagree on the order: reading the serialized
   pair through `FromTuple` swaps row and column.
   */
  lemma SerializedOrderIsNotTupleOrder(p: MatrixPosition)
    ensures FromTuple((Serialized(p)[0], Serialized(p)[1])) == MatrixPosition(p.col, p.row)
  {
  }

  /** An entry of the layout file, `LayoutItem`. */
  datatype LayoutItem = LayoutItem(matrix: MatrixPosition, x: u8, y: u8, label_: string)

  /** The layout file, `Layout`. */
  datatype Layout = Layout(layout: seq<LayoutItem>)

  /** The rows `map` lays out, left to right, as it lists them (its third row ends with ENTER). */
  const FUNCTION_ROW: seq<KeyCode> := [ESC, F1, F2, F3, F4, F5, F6, F7, F8, F9, F10, F11, F12]
  const NUMBER_ROW: seq<KeyCode> :=
    [GRAVE, KEY_1, KEY_2, KEY_3, KEY_4, KEY_5, KEY_6, KEY_7, KEY_8, KEY_9, KEY_0, MINUS, EQUAL, BACKSPACE]
  const TAB_ROW: seq<KeyCode> := [TAB, Q, W, E, R, T, Y, U, I, O, P, LEFTBRACE, RIGHTBRACE, ENTER]

  /** The laid-out rows, top to bottom. */
  const ROWS: seq<seq<KeyCode>> := [FUNCTION_ROW, NUMBER_ROW, TAB_ROW]

  /**
   `map`, as written: the (column, row) pair of each listed key, converted by `FromTuple`.
   Every key after ENTER, listed or caught by the wildcard, gets (0, 0), so only Esc to Enter,
   the grave key and F1 to F12 can be given another switch.
   */
  function Map(k: KeyCode): (p: MatrixPosition)
    ensures p != MatrixPosition(0, 0) ==> ESC <= k <= ENTER || k == GRAVE || F1 <= k <= F10 || k == F11 || k == F12
  {
    var t: (u8, u8) :=
      if k == ESC then (0, 0)
      else if k == F1 then (1, 0)
      else if k == F2 then (2, 0)
      else if k == F3 then (3, 0)
      else if k == F4 then (4, 0)
      else if k == F5 then (5, 0)
      else if k == F6 then (6, 0)
      else if k == F7 then (7, 0)
      else if k == F8 then (8, 0)
      else if k == F9 then (9, 0)
      else if k == F10 then (10, 0)
      else if k == F11 then (11, 0)
      else if k == F12 then (12, 0)
      else if k == GRAVE then (0, 1)
      else if k == KEY_1 then (1, 1)
      else if k == KEY_2 then (2, 1)
      else if k == KEY_3 then (3, 1)
      else if k == KEY_4 then (4, 1)
      else if k == KEY_5 then (5, 1)
      else if k == KEY_6 then (6, 1)
      else if k == KEY_7 then (7, 1)
      else if k == KEY_8 then (8, 1)
      else if k == KEY_9 then (9, 1)
      else if k == KEY_0 then (10, 1)
      else if k == MINUS then (11, 1)
      else if k == EQUAL then (12, 1)
      else if k == BACKSPACE then (13, 1)
      else if k == TAB then (2, 0)
      else if k == Q then (2, 1)
      else if k == W then (2, 2)
      else if k == E then (2, 3)
      else if k == R then (2, 4)
      else if k == T then (2, 5)
      else if k == Y then (2, 6)
      else if k == U then (2, 7)
      else if k == I then (2, 8)
      else if k == O then (2, 9)
      else if k == P then (2, 10)
      else if k == LEFTBRACE then (2, 11)
      else if k == RIGHTBRACE then (2, 12)
      else if k == ENTER then (2, 13)
      else (0, 0);
    FromTuple(t)
  }

  /** The keys of the three laid-out rows. */
  predicate LaidOut(k: KeyCode)
  {
    k in FUNCTION_ROW || k in NUMBER_ROW || k in TAB_ROW
  }

  /**
   `map` with its Tab row written the way the other rows are, as (column, row) pairs, so that
   the `i`-th key of row `r` sits at row `r`, column `i`. The Tab row's key codes, TAB to
   ENTER, are consecutive.
   */
  function MapIntended(k: KeyCode): MatrixPosition
  {
    if TAB <= k <= ENTER then FromTuple(((k - TAB) as u8, 2)) else Map(k)
  }

  /** `map` puts the `i`-th key of the function and number rows at row 0 or 1, column `i`. */
  lemma MapFirstRows(i: nat)
    ensures i < |FUNCTION_ROW| ==> Map(FUNCTION_ROW[i]) == MatrixPosition(0, i as u8)
    ensures i < |NUMBER_ROW| ==> Map(NUMBER_ROW[i]) == MatrixPosition(1, i as u8)
  {
    if i < |FUNCTION_ROW| {
      MapFunctionRow(i);
    }
    if i < |NUMBER_ROW| {
      MapNumberRow(i);
    }
  }

  /** The function row, Esc and F1 to F12. */
  lemma MapFunctionRow(i: nat)
    requires i < |FUNCTION_ROW|
    ensures Map(FUNCTION_ROW[i]) == MatrixPosition(0, i as u8)
  {
  }

  /** The number row, the grave key to Backspace. */
  lemma MapNumberRow(i: nat)
    requires i < |NUMBER_ROW|
    ensures Map(NUMBER_ROW[i]) == MatrixPosition(1, i as u8)
  {
  }

  /** `map`'s Tab row, as written, puts the `i`-th key in column 2, row `i`. */
  lemma MapTabRowAsWritten(i: nat)
    requires i < |TAB_ROW|
    ensures Map(TAB_ROW[i]) == MatrixPosition(i as u8, 2)
  {
  }

  /** `map` gives (0, 0) to every key outside the three rows. */
  lemma MapOtherKeys(k: KeyCode)
    requires !LaidOut(k)
    ensures Map(k) == MatrixPosition(0, 0)
  {
  }

  /** As written, Tab and F2 press the same switch, and so do Q and the 2 key. */
  lemma MapTabRowCollides()
    ensures TAB != F2 && Map(TAB) == Map(F2)
    ensures Q != KEY_2 && Map(Q) == Map(KEY_2)
  {
  }

  /** The intended table puts the `i`-th key of laid-out row `r` at row `r`, column `i`. */
  lemma MapIntendedRows(r: nat, i: nat)
    requires r < |ROWS| && i < |ROWS[r]|
    ensures MapIntended(ROWS[r][i]) == MatrixPosition(r as u8, i as u8)
  {
    if r < 2 {
      MapFirstRows(i);
    }
  }

  /** In the intended table no two laid-out keys share a switch. */
  lemma MapIntendedInjective(j: KeyCode, k: KeyCode)
    requires LaidOut(j) && LaidOut(k)
    ensures MapIntended(j) == MapIntended(k) ==> j == k
  {
    var rj, ij := Place(j);
    var rk, ik := Place(k);
    MapIntendedRows(rj, ij);
    MapIntendedRows(rk, ik);
  }

  /** Where a laid-out key sits in the rows. */
  lemma Place(k: KeyCode) returns (r: nat, i: nat)
    requires LaidOut(k)
    ensures r < |ROWS| && i < |ROWS[r]| && ROWS[r][i] == k
  {
    if k in FUNCTION_ROW {
      r := 0;
      i :| i < |FUNCTION_ROW| && FUNCTION_ROW[i] == k;
    } else if k in NUMBER_ROW {
      r := 1;
      i :| i < |NUMBER_ROW| && NUMBER_ROW[i] == k;
    } else {
      r := 2;
      i :| i < |TAB_ROW| && TAB_ROW[i] == k;
    }
  }

  /** `map` and the intended table agree everywhere except the Tab row, where row and column are swapped. */
  lemma MapAgreesOffTabRow(k: KeyCode)
    ensures k !in TAB_ROW ==> Map(k) == MapIntended(k)
    ensures k in TAB_ROW ==> Map(k) == MatrixPosition(MapIntended(k).col, MapIntended(k).row)
  {
    if TAB <= k <= ENTER {
      var i := (k - TAB) as nat;
      assert TAB_ROW[i] == k;
      MapTabRowAsWritten(i);
    }
  }
}
