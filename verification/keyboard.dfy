/**
 The macropad's HID protocol: the 32-byte command reports, the parse of the 32-byte answer,
 the keyboard layers, the 33-byte wire buffer, and the rule that decides which read results
 are errors.
 */
module Keyboard {
  import opened Wrappers
  import opened Ints

  const REPORT_LENGTH: nat := 32

  // First byte of each command report.
  const OP_BOOTLOADER: u8 := 0x42
  const OP_GET_LAYER: u8 := 0x43
  const OP_CHANGE_LAYER: u8 := 0x44
  const OP_UPDATE_MATRIX: u8 := 0x45

  /** The keyboard's layers, `Layers`. */
  datatype Layer = Qwerty | Workman | Sys | Numrow | Game | Code | Numpad | LayerSel | Trans | Unknown

  /** The discriminant of each layer. */
  function LayerNumber(l: Layer): u8
  {
    match l
    case Qwerty => 0
    case Workman => 1
    case Sys => 2
    case Numrow => 3
    case Game => 5
    case Code => 6
    case Numpad => 7
    case LayerSel => 14
    case Trans => 15
    case Unknown => 255
  }

  /** `From<u8> for Layers`: a byte names the layer whose discriminant it is, and any other byte is `Unknown`. */
  function LayerFromByte(b: u8): (l: Layer)
    ensures l != Unknown <==> NamedLayerByte(b)
    ensures l != Unknown ==> LayerNumber(l) == b
  {
    match b
    case 0 => Qwerty
    case 1 => Workman
    case 2 => Sys
    case 3 => Numrow
    case 5 => Game
    case 6 => Code
    case 7 => Numpad
    case 14 => LayerSel
    case 15 => Trans
    case _ => Unknown
  }

  /** The bytes that name a layer. */
  predicate NamedLayerByte(b: int)
  {
    0 <= b <= 3 || 5 <= b <= 7 || b == 14 || b == 15
  }

  /** A byte names the layer whose discriminant it is, and any other byte is `Unknown`. */
  lemma LayerFromByteSpec(b: u8)
    ensures LayerFromByte(b) != Unknown <==> NamedLayerByte(b)
    ensures LayerFromByte(b) != Unknown ==> LayerNumber(LayerFromByte(b)) == b
  {
  }

  /** Every layer is read back from its discriminant (for `Unknown`, 255 is no named byte). */
  lemma LayerRoundTrip(l: Layer)
    ensures LayerFromByte(LayerNumber(l)) == l
  {
  }

  /** The commands the program sends, `Operation`. */
  datatype Operation =
    | Bootloader
    | GetLayer
    | ChangeLayer(layer: u8)
    | UpdateMatrix(pressed: bool, row: u8, col: u8)

  /** `n` zero bytes. */
  function Zeros(n: nat): (z: seq<u8>)
    ensures |z| == n
    ensures forall i :: 0 <= i < n ==> z[i] == 0
  {
    seq(n, _ => 0)
  }

  /** `Operation::report`: a zeroed 32-byte report with the command's bytes written at the front. */
  function Report(op: Operation): (r: seq<u8>)
    ensures |r| == REPORT_LENGTH
  {
    var ret := Zeros(REPORT_LENGTH);
    match op
    case Bootloader => ret[0 := OP_BOOTLOADER]
    case GetLayer => ret[0 := OP_GET_LAYER]
    case ChangeLayer(layer) => ret[0 := OP_CHANGE_LAYER][1 := layer]
    case UpdateMatrix(pressed, row, col) =>
      ret[0 := OP_UPDATE_MATRIX][1 := if pressed then 1 else 0][2 := row][3 := col]
  }

  /** The number of leading bytes a command uses; the rest of its report is zero. */
  function ArgumentBytes(op: Operation): nat
  {
    match op
    case Bootloader => 1
    case GetLayer => 1
    case ChangeLayer(_) => 2
    case UpdateMatrix(_, _, _) => 4
  }

  /** The byte layout of every report. */
  lemma ReportLayout(op: Operation)
    ensures Report(op)[0] == match op
      case Bootloader => OP_BOOTLOADER
      case GetLayer => OP_GET_LAYER
      case ChangeLayer(_) => OP_CHANGE_LAYER
      case UpdateMatrix(_, _, _) => OP_UPDATE_MATRIX
    ensures op.ChangeLayer? ==> Report(op)[1] == op.layer
    ensures op.UpdateMatrix? ==> Report(op)[1] == (if op.pressed then 1 else 0)
    ensures op.UpdateMatrix? ==> Report(op)[2] == op.row && Report(op)[3] == op.col
    ensures forall i :: ArgumentBytes(op) <= i < REPORT_LENGTH ==> Report(op)[i] == 0
  {
  }

  /**
   A left inverse of `Report`: the command a report was made from, recovered from its opcode
   and argument bytes. It is not part of the program; it witnesses that `Report` loses nothing.
   */
  function ReadReport(r: seq<u8>): Option<Operation>
    requires |r| == REPORT_LENGTH
  {
    if r[0] == OP_BOOTLOADER then Some(Bootloader)
    else if r[0] == OP_GET_LAYER then Some(GetLayer)
    else if r[0] == OP_CHANGE_LAYER then Some(ChangeLayer(r[1]))
    else if r[0] == OP_UPDATE_MATRIX && r[1] <= 1 then Some(UpdateMatrix(r[1] == 1, r[2], r[3]))
    else None
  }

  /** Every report reads back as the command it was made from. */
  lemma ReportRoundTrip(op: Operation)
    ensures ReadReport(Report(op)) == Some(op)
  {
  }

  /** Distinct commands have distinct reports. */
  lemma ReportInjective(a: Operation, b: Operation)
    ensures Report(a) == Report(b) ==> a == b
  {
    ReportRoundTrip(a);
    ReportRoundTrip(b);
  }

  /** The keyboard's answer, `KeyboardResponse`. */
  datatype KeyboardResponse = NoResponse | CurrentLayer(layer: u8)

  /** `KeyboardResponse::parse_response`. */
  function ParseResponse(buffer: seq<u8>): (r: KeyboardResponse)
    requires |buffer| == REPORT_LENGTH
    ensures r.CurrentLayer? <==> buffer[0] == OP_GET_LAYER || buffer[0] == OP_CHANGE_LAYER
    ensures r.CurrentLayer? ==> r.layer == buffer[1]
  {
    if buffer[0] == OP_GET_LAYER || buffer[0] == OP_CHANGE_LAYER then CurrentLayer(buffer[1])
    else NoResponse
  }

  /** A report fed to the parser: a layer change answers with its layer, a layer query with 0. */
  lemma ParseOwnReport(op: Operation)
    ensures ParseResponse(Report(op)) == match op
      case ChangeLayer(l) => CurrentLayer(l)
      case GetLayer => CurrentLayer(0)
      case _ => NoResponse
  {
  }

  /** The buffer `send_message` writes: a zero report-id byte, then the report. */
  function Frame(op: Operation): (w: seq<u8>)
    ensures |w| == REPORT_LENGTH + 1
    ensures w[0] == 0
    ensures w[1..] == Report(op)
  {
    var buffer := Zeros(REPORT_LENGTH + 1);
    buffer[..1] + Report(op)
  }

  /** `transpose`: swaps the success and error sides of a result. */
  function Transpose<T, U>(r: Result<T, U>): (t: Result<U, T>)
    ensures t.Success? <==> r.Failure?
    ensures r.Success? ==> t.error == r.value
    ensures r.Failure? ==> t.value == r.error
  {
    match r
    case Success(o) => Failure(o)
    case Failure(e) => Success(e)
  }

  /** `transpose` is an involution. */
  lemma TransposeInvolution<T, U>(r: Result<T, U>)
    ensures Transpose(Transpose(r)) == r
  {
  }

  /** `Result::and_then`. */
  function AndThen<T, U, E>(r: Result<T, E>, f: T -> Result<U, E>): Result<U, E>
  {
    match r
    case Success(v) => f(v)
    case Failure(e) => Failure(e)
  }

  /** `s` occurs in `text` starting at its first character. */
  predicate StartsWith(text: string, s: string)
  {
    |s| <= |text| && text[..|s|] == s
  }

  /** `str::contains`. */
  function Contains(text: string, s: string): bool
    decreases |text|
  {
    StartsWith(text, s) || (|text| > 0 && Contains(text[1..], s))
  }

  /** `s` occurs in `text` at position `i`. */
  predicate OccursAt(text: string, s: string, i: int)
  {
    0 <= i <= |text| - |s| && text[i..i + |s|] == s
  }

  /** A slice of `text` after its first character is the slice one further along in `text`. */
  lemma DropShift(text: string, i: nat, len: nat)
    requires 1 <= i && i + len <= |text|
    ensures text[1..][i - 1..i - 1 + len] == text[i..i + len]
  {
  }

  /** `Contains` finds exactly the texts in which `s` occurs at some position. */
  lemma {:induction false} ContainsSpec(text: string, s: string)
    ensures Contains(text, s) <==> exists i :: OccursAt(text, s, i)
    decreases |text|
  {
    if StartsWith(text, s) {
      assert OccursAt(text, s, 0);
    } else if |text| > 0 {
      ContainsSpec(text[1..], s);
      if Contains(text[1..], s) {
        var i :| OccursAt(text[1..], s, i);
        DropShift(text, i + 1, |s|);
        assert OccursAt(text, s, i + 1);
      } else {
        forall i | OccursAt(text, s, i)
          ensures false
        {
          if i > 0 {
            DropShift(text, i, |s|);
            assert OccursAt(text[1..], s, i - 1);
          }
        }
      }
    } else {
      forall i | OccursAt(text, s, i)
        ensures false
      {
      }
    }
  }

  const DISCONNECTED: string := "device disconnected"

  /** The error filter of `send_message`: a lost device is not an error. */
  function KeepUnlessDisconnected(e: string): Result<string, ()>
  {
    if Contains(e, DISCONNECTED) then Failure(()) else Success(e)
  }

  /**
   The read-result classification of `send_message`: the read's outcome (its byte count, or
   its error's text) is transposed, filtered, transposed back and mapped to the parse of the
   answer buffer.
   */
  function ClassifyRead(read: Result<nat, string>, buffer: seq<u8>): (r: Result<KeyboardResponse, string>)
    requires |buffer| == REPORT_LENGTH
    ensures r.Success? <==> read.Success? || Contains(read.error, DISCONNECTED)
    ensures r.Success? ==> r.value == ParseResponse(buffer)
    ensures r.Failure? ==> read.Failure? && r.error == read.error
  {
    var unit: Result<(), string> := match read
      case Success(_) => Success(())
      case Failure(e) => Failure(e);
    var kept := Transpose(AndThen(Transpose(unit), KeepUnlessDisconnected));
    match kept
    case Success(_) => Success(ParseResponse(buffer))
    case Failure(e) => Failure(e)
  }

  /** After a disconnection the answer buffer is still zero, so the exchange answers `NoResponse`. */
  lemma DisconnectedAnswersNothing(e: string)
    requires Contains(e, DISCONNECTED)
    ensures ClassifyRead(Failure(e), Zeros(REPORT_LENGTH)) == Success(NoResponse)
  {
  }
}
