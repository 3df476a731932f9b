# qmk-virtual-keyboard, modelled in Dafny

This project models the translation layer of qmk-virtual-keyboard. The program turns a Linux
keyboard, read through evdev, into a virtual keyboard for a QMK macropad. Each key press becomes
a "press matrix switch (row, col)" command in a 32-byte HID report. The switch for each key comes
from a JSON layout file, which the program can also generate by asking the user to press every
switch in turn.

The modules follow the program's structure:

- `Wrappers` and `Ints` define `Option`, `Result` and the bounded integer types (`u8`, `u16`,
  `i32`, `i64`, ...).
- `KeyCodeTable` and `KeyCodes` model the `KeyCode` enumeration, which has 243 variants:
  - the evdev numbers, with `from_repr` and the `as u16`/`as u8`/`as usize` conversions;
  - the strum spelling (`as_ref`) and the `{:?}` name;
  - the ASCII-case-insensitive `FromStr` parser.
  
  The spelling table is split into blocks only to keep each proof obligation small.
- `KeyEvents` models the codec between the kernel's `input_event` and `KeyEvent`, with the
  `timeval` ⇄ `MyTime` conversions.
- `Keyboard` models:
  - the command reports and the response parser;
  - the `Layers` conversion;
  - the 33-byte wire buffer;
  - the rule that classifies a HID read as an answer or an error.
- `MatrixMapper` models `MatrixPosition`, `LayoutItem` and `Layout`, the `(col, row)` tuple
  conversion, and the hard-coded `map` table.
- `App` models the two loops of `main.rs`:
  - `virtual_keyboard`: it folds the layout into a 255-entry key-to-switch table, then turns
    events into `UpdateMatrix` commands.
  - `generate_matrix_map`: it waits for one first press per switch, row by row, and
    treats the (0, 0) key as "skip".

  Two reference definitions serve as independent partners for the generator:
  - `Items` (the layout the presses describe);
  - `Learned` (the table those presses describe).

Two behaviours of the code are easy to misread, and the model follows the code in both:

- The parser accepts only the `serialize` spelling of a renamed key. `"1"` parses as `KEY_1`, but
  the identifier `"KEY_1"` does not parse (`KeyCodes.DebugNameParses`).
- A `MatrixPosition` is written to the layout file in field order, `[row, col]`. Only the tuple
  conversion reads a pair as `(col, row)` (`MatrixMapper.SerializedOrderIsNotTupleOrder`,
  `App.LoadOneItemExample`).

## Model

| member | source | states |
|---|---|---|
| KeyCodeTable.TableRows | src/key_event/key_code.rs:18-306 | exactly the assigned numbers (0..248 except 84 and 195..199) have a spelling, and looking a spelling up returns its number |
| KeyCodes.FromRepr | src/key_event/key_code.rs:15-18 | `from_repr(n)` is a variant exactly when `n` is an assigned number, and that variant's discriminant is `n` |
| KeyCodes.FromReprRoundTrip | src/key_event/key_code.rs:15-18 | `from_repr(k as u16) == Some(k)` for every variant, so distinct variants have distinct numbers |
| KeyCodes.FromReprUnassigned | src/key_event/key_code.rs:122-124 | 84, 195..199 and every number above 248 give `None` |
| KeyCodes.ToUsize | src/key_event/key_code.rs:308-312 | `usize::from(k)` is the discriminant, the same number as `u16::from(k)`, and is below 255 |
| KeyCodes.ToU16 | src/key_event/key_code.rs:314-318 | `u16::from(k)` is the discriminant: `from_repr` maps it back to `k` |
| KeyCodes.ToU8 | src/key_event/key_code.rs:320-324 | `u8::from(k)`, a truncating cast, loses nothing: it equals `u16::from(k)` |
| KeyCodes.ConversionsAgree | src/key_event/key_code.rs:308-324 | `as u8`, `as u16` and `as usize` agree on every variant (no truncation), and each indexes a 255-entry table |
| KeyCodes.Parse | src/key_event/key_code.rs:15-16 | a text that parses to `k` equals `as_ref(k)` up to ASCII case |
| KeyCodes.AsRef | src/key_event/key_code.rs:15-306 | the derived `as_ref` gives every variant a non-empty spelling, and the spelling lookup finds the variant again |
| KeyCodes.ParseSpec | src/key_event/key_code.rs:15-16 | `parse(s) == Some(k)` if and only if `s` equals `as_ref(k)` ignoring ASCII case |
| KeyCodes.ParseNone | src/key_event/key_code.rs:15-16 | parsing fails exactly when the text matches no variant's spelling |
| KeyCodes.ParseAsRef | src/key_event/key_code.rs:340-343 | parsing `as_ref(k)` gives back `k` for every variant |
| KeyCodes.AsRefInjective | src/key_event/key_code.rs:18-306 | distinct variants have distinct spellings |
| KeyCodes.DebugName | src/key_event/key_code.rs:15-127 | the derived `{:?}` name is the `as_ref` spelling, except for the digit keys and 102ND, whose name is `KEY_` + spelling |
| KeyCodes.ParseDigitExample | src/key_event/key_code.rs:332 | `"1"` parses as `KEY_1` and `"0"` as `KEY_0` |
| KeyCodes.Parse102ndExample | src/key_event/key_code.rs:333 | `"102Nd"` parses as `KEY_102ND` |
| KeyCodes.ParseLetterExample | src/key_event/key_code.rs:334 | `"a"` parses as `A` |
| KeyCodes.ParseMixedCaseExample | src/key_event/key_code.rs:335 | `"DoCumEntS"` parses as `DOCUMENTS` |
| KeyCodes.ParseFunctionKeyExample | src/key_event/key_code.rs:336 | `"f12"` parses as `F12` |
| KeyCodes.AsRefExamples | src/key_event/key_code.rs:340-343 | `as_ref(KEY_1) == "1"` and `as_ref(F12) == "F12"` |
| KeyCodes.RenamedIdentifierRejected | src/key_event/key_code.rs:21-23 | the `{:?}` name of a renamed key (`KEY_1`, ..., `KEY_102ND`) does not parse |
| KeyCodes.DebugNameParses | src/key_event/key_code.rs:21-50 | the `{:?}` name parses back to its key if and only if the key is not renamed |
| KeyEvents.TimeFromTimeval | src/key_event/mod.rs:83-87 | the time is `(tv_sec as u64)` seconds plus `(tv_usec as u32)` nanoseconds, with both casts wrapping |
| KeyEvents.TimevalFromTime | src/key_event/mod.rs:89-104 | `tv_sec` is the whole seconds and `tv_usec` the microseconds below one second |
| KeyEvents.TimevalRoundTrip | src/key_event/mod.rs:83-104 | for `tv_sec >= 0` and `0 <= tv_usec < 10^6`, decoding then encoding keeps `tv_sec` and turns `tv_usec` into `tv_usec / 1000` |
| KeyEvents.TimeRoundTrip | src/key_event/mod.rs:83-104 | encoding then decoding a time keeps its seconds and divides its nanoseconds by 1000 |
| KeyEvents.TimeRoundTripIsLossy | src/key_event/mod.rs:83-104 | 1.5 s comes back as 1.0005 s |
| KeyEvents.Decode | src/key_event/mod.rs:67-81 | decoding is total on every timestamp for which `SystemTime + Duration` does not panic; a record is `Unsupported` exactly when no typed arm matches it, and it then keeps the raw type, code and value |
| KeyEvents.DecodeSyncAndScan | src/key_event/mod.rs:70-71 | `(EV_SYN, SYN_REPORT, v)` decodes to `Sync(v)` and `(EV_MSC, MSC_SCAN, v)` to `Scancode(v)` |
| KeyEvents.DecodeKey | src/key_event/mod.rs:72-75 | a key record with a known code decodes to `Release`, `Press(false)` or `Press(true)` for values 0, 1 and 2 |
| KeyEvents.Encode | src/key_event/mod.rs:106-141 | each event kind is written with its type, code and value (2 for a repeat, 1 for a press, 0 for a release), and `Unsupported` passes its raw fields through |
| KeyEvents.EncodeDecode | src/key_event/mod.rs:67-141 | encoding a decoded record gives back its type, code and value |
| KeyEvents.DecodeEncode | src/key_event/mod.rs:67-141 | decoding an encoded event gives it back, up to the time stamp, exactly unless it is an `Unsupported` whose raw triple a typed arm claims |
| Keyboard.LayerFromByte | src/keyboard.rs:29-43 | `Layers::from(b)` is a named layer exactly for the bytes 0, 1, 2, 3, 5, 6, 7, 14 and 15, and that layer's discriminant is `b` |
| Keyboard.LayerFromByteSpec | src/keyboard.rs:29-43 | bytes 0, 1, 2, 3, 5, 6, 7, 14 and 15 name the layer with that discriminant, and every other byte is `Unknown` |
| Keyboard.LayerRoundTrip | src/keyboard.rs:16-43 | every layer is read back from its discriminant |
| Keyboard.Report | src/keyboard.rs:61-82 | every report is 32 bytes long |
| Keyboard.ReportLayout | src/keyboard.rs:61-82 | byte 0 is 0x42, 0x43, 0x44 or 0x45 by command; the layer, or the pressed flag, row and column, follow; every other byte is zero |
| Keyboard.ReportRoundTrip | src/keyboard.rs:61-82 | `report` has a left inverse, so distinct commands give distinct reports |
| Keyboard.ReportInjective | src/keyboard.rs:61-82 | distinct commands have distinct reports |
| Keyboard.ParseResponse | src/keyboard.rs:92-97 | an answer starting 0x43 or 0x44 is `CurrentLayer(byte 1)`, and any other answer is `None` |
| Keyboard.ParseOwnReport | src/keyboard.rs:61-97 | a `ChangeLayer(l)` report read as an answer is `CurrentLayer(l)` |
| Keyboard.Frame | src/keyboard.rs:144-146 | the wire buffer is 33 bytes: a zero report id, then the report |
| Keyboard.Transpose | src/keyboard.rs:110-117 | `transpose` swaps the sides of a result and keeps the value |
| Keyboard.TransposeInvolution | src/keyboard.rs:110-117 | `transpose` applied twice is the identity |
| Keyboard.ContainsSpec | src/keyboard.rs:164 | `contains` holds exactly when the pattern occurs at some position |
| Keyboard.ClassifyRead | src/keyboard.rs:158-171 | a successful read, or an error whose text contains "device disconnected", yields the parse of the answer buffer; any other error propagates unchanged |
| Keyboard.DisconnectedAnswersNothing | src/keyboard.rs:156-171 | after a disconnection the untouched buffer parses as `None` |
| MatrixMapper.FromTuple | src/key_event/matix_mapper.rs:25-32 | `MatrixPosition::from((a, b))` has column `a` and row `b` |
| MatrixMapper.Serialized | src/key_event/matix_mapper.rs:6-10 | a position is written as a two-element array that reads back as the same position |
| MatrixMapper.FromTupleInverse | src/key_event/matix_mapper.rs:25-32 | the tuple `(a, b)` becomes column `a`, row `b`, and this conversion is a bijection |
| MatrixMapper.Deserialized | src/key_event/matix_mapper.rs:6-10 | a position is read from an array exactly when the array has two elements |
| MatrixMapper.SerializedRoundTrip | src/key_event/matix_mapper.rs:6-10 | the `[row, col]` array encoding round-trips in both directions |
| MatrixMapper.SerializedOrderIsNotTupleOrder | src/key_event/matix_mapper.rs:6-32 | passing the serialized pair through the tuple conversion swaps row and column |
| MatrixMapper.Map | src/key_event/matix_mapper.rs:34-297 | `map` gives a switch other than (0, 0) only to Esc through Enter, the grave key and F1 to F12 |
| MatrixMapper.MapFirstRows | src/key_event/matix_mapper.rs:53-79 | ESC and F1..F12 map to row 0, columns 0..12; GRAVE, 1..0, MINUS, EQUAL and BACKSPACE map to row 1, columns 0..13 |
| MatrixMapper.MapTabRowAsWritten | src/key_event/matix_mapper.rs:80-93 | as written, the `i`-th key from TAB to ENTER maps to row `i`, column 2 |
| MatrixMapper.MapOtherKeys | src/key_event/matix_mapper.rs:94-296 | every other key, NONE included, maps to (0, 0) |
| MatrixMapper.MapTabRowCollides | src/key_event/matix_mapper.rs:55-81 | TAB and F2 share a switch, and so do Q and 2 |
| MatrixMapper.MapIntendedRows | src/key_event/matix_mapper.rs:53-93 | in the corrected table the `i`-th key of each of the three rows is at (row, `i`) |
| MatrixMapper.MapIntendedInjective | src/key_event/matix_mapper.rs:53-93 | in the corrected table no two laid-out keys share a switch |
| MatrixMapper.MapAgreesOffTabRow | src/key_event/matix_mapper.rs:52-296 | `map` and the corrected table agree except on the Tab row, where row and column are swapped |
| App.EmptyTable | src/main.rs:118-119 | before the layout is read, every key's slot holds (0, 0) |
| App.Slot | src/main.rs:118-124 | every key's `usize` conversion indexes the 255-entry table |
| App.LoadItem | src/main.rs:121-125 | an item whose label parses to `k` sets `k`'s slot to its matrix, and every other key's slot is unchanged |
| App.Fill | src/main.rs:121-126 | after loading items, each key's slot holds its old value or the matrix of an item whose label names the key |
| App.BuildTable | src/main.rs:118-126 | the loaded table gives each key (0, 0) or the matrix of an item whose label names it |
| App.FillAppend | src/main.rs:121-126 | loading items one run after another is loading them all |
| App.FillLast | src/main.rs:121-126 | a key's slot ends up with the matrix of the last item whose label parses to it |
| App.FillUnnamed | src/main.rs:121-126 | items whose labels do not parse to a key leave its slot unchanged |
| App.BuildTableSpec | src/main.rs:118-126 | the loaded table maps a key to the matrix of the last item naming it, and to (0, 0) if none does |
| App.Dispatch | src/main.rs:131-149 | a first press of a key other than NONE, or any release, gives exactly one `UpdateMatrix` with the key's switch and the pressed flag; any other event gives none |
| App.Run | src/main.rs:128-150 | a stream of events sends at most one command per event, and every command is an `UpdateMatrix` |
| App.RunAppend | src/main.rs:128-150 | the commands of a stream are those of its parts, in order |
| App.PressRelease | src/main.rs:131-149 | a press and its release press and release the same switch |
| App.RunIgnores | src/main.rs:128-150 | repeats, `Sync`, `Scancode` and `Unsupported` events send nothing |
| App.NextPress | src/main.rs:220-234 | the wait loop skips everything except a first press, and finds the next first press if there is one |
| App.ItemsSnoc | src/main.rs:236-245 | one more press adds at most the item for its position |
| App.GenerateStep | src/main.rs:220-245 | one pass of the wait loop leaves the cell empty for the skip key, sets the skip key at (0, 0), and emits the item `{matrix: (r, c), x: c, y: r}` |
| App.RecordPosition | src/main.rs:217-245 | one cell succeeds exactly when there is another first press, and extends the layout as the presses describe |
| App.GenerateRow | src/main.rs:216-248 | a row succeeds exactly when its presses are there, and extends the layout as the presses describe |
| App.GenerateRows | src/main.rs:214-251 | the remaining rows succeed exactly when enough first presses remain |
| App.GenerateMatrixMap | src/main.rs:206-261 | generation succeeds exactly when the stream has rows × cols first presses; the layout is then the items of those presses, at most rows × cols of them |
| App.FilledSpec | src/main.rs:237-245 | items are emitted, in increasing order, for exactly the presses whose cell is not NONE |
| App.ItemsAtFilled | src/main.rs:236-248 | the layout lists, in order, the item of each non-empty cell, and has no more items than presses |
| App.PositionOfInjective | src/main.rs:214-217 | distinct presses go to distinct cells |
| App.ItemsDistinct | src/main.rs:236-245 | every item has `matrix == (y, x)` with `x < cols`, and no two items share a switch |
| App.AsRefHonest | src/key_event/key_code.rs:340-343 | each `as_ref` label parses to its own key |
| App.DebugNameHonest | src/main.rs:243 | a `{:?}` label parses to its own key or to nothing, and to nothing exactly for renamed keys |
| App.LoadLearned | src/main.rs:121-126 | with labels that parse to their own key, a key last recorded at press `i` is loaded at that press's cell |
| App.LoadUnlearned | src/main.rs:121-126 | a key never recorded, or whose label does not parse, is loaded at (0, 0) |
| App.DebugLabelsForgetRenamed | src/main.rs:236-245 | with the `{:?}` labels, every renamed key is loaded at (0, 0), wherever it was recorded |
| App.DebugLabelsLoseKey1 | src/main.rs:236-245 | pressing Esc then 1 on two columns records 1 at (0, 1), but the layout reloads it at (0, 0) |
| App.LastPressSpec | src/main.rs:220-245 | `LastPress` finds the last press recorded as a key, and nothing when there is none |
| App.HonestLayoutReloads | src/main.rs:121-126 | with labels that parse to their own key, the generated layout reloads to the table the presses describe |
| App.AsRefLayoutReloads | src/main.rs:236-245 | with `as_ref` labels, the generated layout reloads to the table the presses describe |
| App.DebugLayoutReloads | src/main.rs:236-245 | with the `{:?}` labels, the layout reloads to the table the presses describe, except that renamed keys are lost |
| App.PressLearnedKey | src/main.rs:131-140 | after learning with `as_ref` labels, pressing a key sends `UpdateMatrix(true)` for the switch it was recorded at |
| App.LoadOneItemExample | src/key_event/matix_mapper.rs:6-10 | an item labelled "a" with matrix array `[2, 3]` loads A at row 2, column 3 |

## Left out

- Device I/O is not modelled:
  - the evdev device (open, exclusive grab, ungrab, raw reads and the byte reinterpretation into `input_event`);
  - the uinput virtual device;
  - hidapi device enumeration, `write` and `read_timeout`.
  
  Decoding is modelled at the field level of `input_event`.
- The read result is a parameter of `ClassifyRead`: the byte count, or the error's text. The
  answer buffer is a second parameter.
- The model leaves out:
  - clap argument parsing, logger setup and the tokio runtime;
  - reading the layout file, JSON (de)serialisation of the whole layout, and the stderr prompts and stdout printing.
  
  The array encoding of `MatrixPosition` is modelled, because its order matters.
- `tap_key`, `print_keyboard_layer`, `change_keyboard_layer` and `keyboard_bootloader` each send
  one or two `Operation`s and are not modelled as functions of their own. `tap_key` presses and
  then releases the switch at (0, 0). `print_keyboard_layer` sends `GetLayer`.
  `change_keyboard_layer` sends `ChangeLayer` with the layer given on the command line.
  `keyboard_bootloader` sends `Bootloader`. The reports and answers of these commands are
  modelled; the printing of the answer and `Layers::to_string` are left out.
- `MyTime::default()` reads the clock and is left out. `MyTime` is a duration since the epoch
  (whole seconds and nanoseconds).
- The panics of `SystemTime + Duration` (a wrapped negative `tv_sec`) and of `duration_since`
  become the precondition `Representable` and the non-negative fields of `MyTime`.
- App.Run: it assumes every send is answered. A failing `send_message` ends the loop with `?`
  in the source, and that exit is not modelled.
- App.GenerateMatrixMap: a device read error, or a failed stderr flush, ends generation in the
  source. The model represents it as the event stream running out, with the fixed error text
  `DEVICE_CLOSED` standing for whatever error the device returns.
- App.GenerateMatrixMap: it takes the label function as a parameter. The source labels with
  the `{:?}` name, which is `DebugName`. `AsRefLabel` is the corrected labelling.
- The serde renames on `KeyCode` (`"1"`, ..., `"102ND"`) apply only to JSON encoding of the
  enumeration, which the core never does. They are left out.

## Findings

| source | as written | input that shows it | evidently intended | confidence | as-written member | corrected member |
|---|---|---|---|---|---|---|
| src/key_event/matix_mapper.rs:80-93 | the Tab row lists `(2, i)` for its `i`-th key, which the tuple conversion reads as column 2, row `i`; `map` has no caller in src/main.rs (line 16 imports only `Layout`, `LayoutItem` and `MatrixPosition`), so the collision is latent and does not affect the bridge | `map(TAB) == map(F2) ==` row 0, column 2, and `map(Q) == map(KEY_2) ==` row 1, column 2 | `(i, 2)`, i.e. row 2, column `i`, the way the two rows above are written | high; not executed | MatrixMapper.MapTabRowCollides | MatrixMapper.MapIntendedInjective |
| src/main.rs:243 | the generator labels each item with `format!("{:?}", code)`, and for the digit keys and 102ND that is `KEY_1`, ..., `KEY_102ND`, which the label parser at src/main.rs:122 rejects | press Esc then 1 with 2 columns: 1 is learned at (0, 1), but the generated layout loads it at (0, 0) | label with `code.as_ref()`, so that every learned key reloads to its switch | high; not executed | App.DebugLabelsLoseKey1 | App.AsRefLayoutReloads |
