/**
 The key-code enumeration `KeyCode` as the program uses it: named codes, the numeric
 conversions (`from_repr`, `as u16`, `as u8`, `as usize`), the strum spelling (`as_ref`), the
 `{:?}` name, and the ASCII-case-insensitive text parser (`FromStr`).
 */
module KeyCodes {
  import opened Wrappers
  import opened Ints
  import opened KeyCodeTable

  // The codes the rest of the model names.
  const NONE: KeyCode := 0
  const ESC: KeyCode := 1
  const KEY_1: KeyCode := 2
  const KEY_2: KeyCode := 3
  const KEY_3: KeyCode := 4
  const KEY_4: KeyCode := 5
  const KEY_5: KeyCode := 6
  const KEY_6: KeyCode := 7
  const KEY_7: KeyCode := 8
  const KEY_8: KeyCode := 9
  const KEY_9: KeyCode := 10
  const KEY_0: KeyCode := 11
  const MINUS: KeyCode := 12
  const EQUAL: KeyCode := 13
  const BACKSPACE: KeyCode := 14
  const TAB: KeyCode := 15
  const Q: KeyCode := 16
  const W: KeyCode := 17
  const E: KeyCode := 18
  const R: KeyCode := 19
  const T: KeyCode := 20
  const Y: KeyCode := 21
  const U: KeyCode := 22
  const I: KeyCode := 23
  const O: KeyCode := 24
  const P: KeyCode := 25
  const LEFTBRACE: KeyCode := 26
  const RIGHTBRACE: KeyCode := 27
  const ENTER: KeyCode := 28
  const A: KeyCode := 30
  const GRAVE: KeyCode := 41
  const F1: KeyCode := 59
  const F2: KeyCode := 60
  const F3: KeyCode := 61
  const F4: KeyCode := 62
  const F5: KeyCode := 63
  const F6: KeyCode := 64
  const F7: KeyCode := 65
  const F8: KeyCode := 66
  const F9: KeyCode := 67
  const F10: KeyCode := 68
  const F11: KeyCode := 87
  const F12: KeyCode := 88
  const KEY_102ND: KeyCode := 86
  const DOCUMENTS: KeyCode := 235

  /** The variants whose strum spelling differs from their identifier: KEY_1..KEY_0 and KEY_102ND. */
  predicate Renamed(k: KeyCode)
  {
    KEY_1 <= k <= KEY_0 || k == KEY_102ND
  }

  /** `as_ref`: the `serialize` string of a renamed variant, the identifier of any other. */
  function AsRef(k: KeyCode): (r: UpperString)
    ensures r != ""
    ensures LookupSpelling(r) == Some(k as int)
  {
    TableRows(k as int);
    Spelling(k as int)
  }

  /**
   `format!("{:?}", k)`: the variant's identifier. That is the spelling, except that a renamed
   variant keeps its `KEY_` identifier.
   */
  function DebugName(k: KeyCode): (r: string)
    ensures r == if Renamed(k) then "KEY_" + AsRef(k) else AsRef(k)
  {
    match k
    case 2 => assert AsRef(2) == "1"; VariantName(2)
    case 3 => assert AsRef(3) == "2"; VariantName(3)
    case 4 => assert AsRef(4) == "3"; VariantName(4)
    case 5 => assert AsRef(5) == "4"; VariantName(5)
    case 6 => assert AsRef(6) == "5"; VariantName(6)
    case 7 => assert AsRef(7) == "6"; VariantName(7)
    case 8 => assert AsRef(8) == "7"; VariantName(8)
    case 9 => assert AsRef(9) == "8"; VariantName(9)
    case 10 => assert AsRef(10) == "9"; VariantName(10)
    case 11 => assert AsRef(11) == "0"; VariantName(11)
    case 86 => assert AsRef(86) == "102ND"; VariantName(86)
    case _ => VariantName(k as int)
  }

  /** `KeyCode::from_repr`: the variant with discriminant `n`, if there is one. */
  function FromRepr(n: u16): (r: Option<KeyCode>)
    ensures r.Some? <==> Spelling(n) != ""
    ensures r.Some? ==> r.value as int == n
  {
    TableRows(n);
    if Assigned(n) then Some(n as KeyCode) else None
  }

  /** `k as u16` (`From<KeyCode> for u16`). */
  function ToU16(k: KeyCode): (n: u16)
    ensures FromRepr(n) == Some(k)
  {
    k as int
  }

  /** `k as u8` (`From<KeyCode> for u8`): the discriminant truncated to its low eight bits. */
  function ToU8(k: KeyCode): (b: u8)
    ensures b as int == ToU16(k) as int
  {
    (k as int) % U8_LIMIT
  }

  /** `k as usize` (`From<KeyCode> for usize`). */
  function ToUsize(k: KeyCode): (n: nat)
    ensures n == ToU16(k) as int
    ensures n < U8_LIMIT - 1
  {
    k as int
  }

  /**
   The three conversions agree: no discriminant exceeds 248, so truncating to `u8` loses
   nothing, and every code indexes a table of `u8::MAX` (255) entries.
   */
  lemma ConversionsAgree(k: KeyCode)
    ensures ToU8(k) == ToU16(k) == ToUsize(k)
    ensures ToUsize(k) < U8_LIMIT - 1
  {
  }

  /** `from_repr` inverts `as u16`. */
  lemma FromReprRoundTrip(k: KeyCode)
    ensures FromRepr(ToU16(k)) == Some(k)
  {
  }

  /** `from_repr` of a number with no variant: the gaps 84 and 195..199, and everything past 248. */
  lemma FromReprUnassigned(n: u16)
    requires n == 84 || 195 <= n <= 199 || n > 248
    ensures FromRepr(n) == None
  {
  }

  /** Rust's `u8::to_ascii_uppercase`, on one character. */
  function AsciiUpperChar(c: char): char
  {
    if 'a' <= c <= 'z' then (c as int - 32) as char else c
  }

  /** Rust's `u8::to_ascii_lowercase`, on one character. */
  function AsciiLowerChar(c: char): char
  {
    if 'A' <= c <= 'Z' then (c as int + 32) as char else c
  }

  /** Rust's `str::to_ascii_uppercase`. */
  function AsciiUpper(s: string): (r: string)
    ensures |r| == |s|
    ensures forall i :: 0 <= i < |s| ==> r[i] == AsciiUpperChar(s[i])
  {
    seq(|s|, i requires 0 <= i < |s| => AsciiUpperChar(s[i]))
  }

  /** Rust's `str::eq_ignore_ascii_case`: same length, and equal after lowering ASCII letters. */
  predicate EqIgnoreAsciiCase(a: string, b: string)
  {
    |a| == |b| && forall i :: 0 <= i < |a| ==> AsciiLowerChar(a[i]) == AsciiLowerChar(b[i])
  }

  /** Comparing lowered characters is comparing raised characters. */
  lemma LowerUpperAgree(x: char, y: char)
    ensures AsciiLowerChar(x) == AsciiLowerChar(y) <==> AsciiUpperChar(x) == AsciiUpperChar(y)
  {
  }

  /** Two strings are equal ignoring ASCII case exactly when their upper-case forms are equal. */
  lemma EqIgnoreCaseByUpper(a: string, b: string)
    ensures EqIgnoreAsciiCase(a, b) <==> AsciiUpper(a) == AsciiUpper(b)
  {
    if |a| == |b| {
      forall i | 0 <= i < |a|
        ensures AsciiLowerChar(a[i]) == AsciiLowerChar(b[i]) <==> AsciiUpper(a)[i] == AsciiUpper(b)[i]
      {
        LowerUpperAgree(a[i], b[i]);
      }
    }
  }

  /** Raising the case of a text without lower-case letters changes nothing. */
  lemma UpperOfUpper(s: string)
    requires NoLower(s)
    ensures AsciiUpper(s) == s
  {
  }

  /**
   `FromStr` with `ascii_case_insensitive`: the variant whose spelling equals `s` when ASCII
   case is ignored. Only the spellings are accepted; a renamed variant's identifier is not.
   */
  function Parse(s: string): (r: Option<KeyCode>)
    ensures r.Some? ==> EqIgnoreAsciiCase(s, AsRef(r.value))
  {
    var u := AsciiUpper(s);
    match LookupSpelling(u)
    case None => None
    case Some(n) =>
      if Assigned(n) && Spelling(n) == u then
        UpperOfUpper(u);
        EqIgnoreCaseByUpper(s, u);
        Some(n as KeyCode)
      else
        None
  }

  /** Distinct variants have distinct spellings. */
  lemma AsRefInjective(j: KeyCode, k: KeyCode)
    ensures AsRef(j) == AsRef(k) ==> j == k
  {
    TableRows(j as int);
    TableRows(k as int);
  }

  /** The parser accepts exactly the spellings, in any ASCII case, and returns their variant. */
  lemma ParseSpec(s: string, k: KeyCode)
    ensures Parse(s) == Some(k) <==> EqIgnoreAsciiCase(s, AsRef(k))
  {
    EqIgnoreCaseByUpper(s, AsRef(k));
    UpperOfUpper(AsRef(k));
    TableRows(k as int);
    if EqIgnoreAsciiCase(s, AsRef(k)) {
      assert AsciiUpper(s) == AsRef(k);
    }
  }

  /** Parsing the spelling of a variant gives the variant back. */
  lemma ParseAsRef(k: KeyCode)
    ensures Parse(AsRef(k)) == Some(k)
  {
    ParseSpec(AsRef(k), k);
    EqIgnoreCaseByUpper(AsRef(k), AsRef(k));
  }

  /** A text that matches no spelling does not parse. */
  lemma ParseNone(s: string)
    ensures Parse(s) == None <==> forall k: KeyCode :: !EqIgnoreAsciiCase(s, AsRef(k))
  {
    if Parse(s) == None {
      forall k: KeyCode
        ensures !EqIgnoreAsciiCase(s, AsRef(k))
      {
        ParseSpec(s, k);
      }
    } else {
      ParseSpec(s, Parse(s).value);
    }
  }

  /** The source's parser tests: digit keys parse from their digit. */
  lemma ParseDigitExample()
    ensures Parse("1") == Some(KEY_1)
    ensures Parse("0") == Some(KEY_0)
  {
    assert AsRef(KEY_1) == "1";
    ParseSpec("1", KEY_1);
    assert AsRef(KEY_0) == "0";
    ParseSpec("0", KEY_0);
  }

  /** The source's parser tests: `102ND` parses in mixed case. */
  lemma Parse102ndExample()
    ensures Parse("102Nd") == Some(KEY_102ND)
  {
    assert AsRef(KEY_102ND) == "102ND";
    ParseSpec("102Nd", KEY_102ND);
  }

  /** The source's parser tests: a letter parses from its lower-case form. */
  lemma ParseLetterExample()
    ensures Parse("a") == Some(A)
  {
    assert AsRef(A) == "A";
    ParseSpec("a", A);
  }

  /** The source's parser tests: a name parses in mixed case. */
  lemma ParseMixedCaseExample()
    ensures Parse("DoCumEntS") == Some(DOCUMENTS)
  {
    assert AsRef(DOCUMENTS) == "DOCUMENTS";
    ParseSpec("DoCumEntS", DOCUMENTS);
  }

  /** The source's parser tests: a function key parses in lower case. */
  lemma ParseFunctionKeyExample()
    ensures Parse("f12") == Some(F12)
  {
    assert AsRef(F12) == "F12";
    ParseSpec("f12", F12);
  }

  /** The source's `as_ref` tests. */
  lemma AsRefExamples()
    ensures AsRef(KEY_1) == "1"
    ensures AsRef(F12) == "F12"
  {
  }

  /** No spelling begins with `KEY_`, so the lookup finds nothing for such a text. */
  lemma NoSpellingHasKeyPrefix(u: string)
    requires |u| >= 4 && u[0] == 'K' && u[1] == 'E' && u[2] == 'Y' && u[3] == '_'
    ensures LookupSpelling(u) == None
  {
  }

  /** The `{:?}` name of a renamed variant is not a spelling, so it does not parse. */
  lemma RenamedIdentifierRejected(k: KeyCode)
    requires Renamed(k)
    ensures Parse(DebugName(k)) == None
  {
    var u := AsciiUpper(DebugName(k));
    assert u[0] == 'K' && u[1] == 'E' && u[2] == 'Y' && u[3] == '_';
    NoSpellingHasKeyPrefix(u);
  }

  /** A label written with the `{:?}` name parses back exactly when the variant is not renamed. */
  lemma DebugNameParses(k: KeyCode)
    ensures Parse(DebugName(k)) == Some(k) <==> !Renamed(k)
  {
    if Renamed(k) {
      RenamedIdentifierRejected(k);
    } else {
      ParseAsRef(k);
    }
  }
}
