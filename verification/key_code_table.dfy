/**
 The declaration table of the evdev key-code enumeration (`KeyCode`): which numbers carry a
 variant, the identifier of each variant, the spelling strum gives it (`as_ref`, and the text
 its `FromStr` accepts), and a lookup from spelling back to number.

 The spellings are kept in blocks of eight numbers and the lookup in groups by first
 character, and `TableRows` is proved block by block: the cuts only keep each proof
 obligation small.
 */
module KeyCodeTable {
  import opened Wrappers

  /** The numbers that carry a variant: 0 (NONE) to 248 (MICMUTE), except 84 and 195..199. */
  predicate Assigned(n: int)
  {
    0 <= n <= 248 && n != 84 && !(195 <= n <= 199)
  }

  /**
   A key code is represented by its discriminant (`repr(u16)`), the evdev key number. The
   constraint is `Assigned` written out, so that the bounds of every `KeyCode` are at hand
   without unfolding a predicate; the two must be kept in step.
   */
  newtype KeyCode = n: int | 0 <= n <= 248 && n != 84 && !(195 <= n <= 199)

  /** No ASCII lower-case letter occurs in `s`. */
  predicate NoLower(s: string)
  {
    forall i | 0 <= i < |s| :: !('a' <= s[i] <= 'z')
  }

  /** Every spelling in the table is written in upper case. */
  type UpperString = s: string | NoLower(s)

  /**
   The strum spelling of the variant with number `n`: its `serialize` string where it has one
   (the digit keys and 102ND), its identifier otherwise; "" when no variant carries `n`.
   */
  function Spelling(n: int): UpperString
  {
    if n < 0 || n > 248 then ""
    else if n < 8 then SpellingBlock0(n)
    else if n < 16 then SpellingBlock1(n)
    else if n < 24 then SpellingBlock2(n)
    else if n < 32 then SpellingBlock3(n)
    else if n < 40 then SpellingBlock4(n)
    else if n < 48 then SpellingBlock5(n)
    else if n < 56 then SpellingBlock6(n)
    else if n < 64 then SpellingBlock7(n)
    else if n < 72 then SpellingBlock8(n)
    else if n < 80 then SpellingBlock9(n)
    else if n < 88 then SpellingBlock10(n)
    else if n < 96 then SpellingBlock11(n)
    else if n < 104 then SpellingBlock12(n)
    else if n < 112 then SpellingBlock13(n)
    else if n < 120 then SpellingBlock14(n)
    else if n < 128 then SpellingBlock15(n)
    else if n < 136 then SpellingBlock16(n)
    else if n < 144 then SpellingBlock17(n)
    else if n < 152 then SpellingBlock18(n)
    else if n < 160 then SpellingBlock19(n)
    else if n < 168 then SpellingBlock20(n)
    else if n < 176 then SpellingBlock21(n)
    else if n < 184 then SpellingBlock22(n)
    else if n < 192 then SpellingBlock23(n)
    else if n < 200 then SpellingBlock24(n)
    else if n < 208 then SpellingBlock25(n)
    else if n < 216 then SpellingBlock26(n)
    else if n < 224 then SpellingBlock27(n)
    else if n < 232 then SpellingBlock28(n)
    else if n < 240 then SpellingBlock29(n)
    else if n < 248 then SpellingBlock30(n)
    else if n < 256 then SpellingBlock31(n)
    else ""
  }

  /** Spellings of the numbers 0..7. */
  function SpellingBlock0(n: int): UpperString
  {
    match n
    case 0 => "NONE"
    case 1 => "ESC"
    case 2 => "1"
    case 3 => "2"
    case 4 => "3"
    case 5 => "4"
    case 6 => "5"
    case 7 => "6"
    case _ => ""
  }

  /** Spellings of the numbers 8..15. */
  function SpellingBlock1(n: int): UpperString
  {
    match n
    case 8 => "7"
    case 9 => "8"
    case 10 => "9"
    case 11 => "0"
    case 12 => "MINUS"
    case 13 => "EQUAL"
    case 14 => "BACKSPACE"
    case 15 => "TAB"
    case _ => ""
  }

  /** Spellings of the numbers 16..23. */
  function SpellingBlock2(n: int): UpperString
  {
    match n
    case 16 => "Q"
    case 17 => "W"
    case 18 => "E"
    case 19 => "R"
    case 20 => "T"
    case 21 => "Y"
    case 22 => "U"
    case 23 => "I"
    case _ => ""
  }

  /** Spellings of the numbers 24..31. */
  function SpellingBlock3(n: int): UpperString
  {
    match n
    case 24 => "O"
    case 25 => "P"
    case 26 => "LEFTBRACE"
    case 27 => "RIGHTBRACE"
    case 28 => "ENTER"
    case 29 => "LEFTCTRL"
    case 30 => "A"
    case 31 => "S"
    case _ => ""
  }

  /** Spellings of the numbers 32..39. */
  function SpellingBlock4(n: int): UpperString
  {
    match n
    case 32 => "D"
    case 33 => "F"
    case 34 => "G"
    case 35 => "H"
    case 36 => "J"
    case 37 => "K"
    case 38 => "L"
    case 39 => "SEMICOLON"
    case _ => ""
  }

  /** Spellings of the numbers 40..47. */
  function SpellingBlock5(n: int): UpperString
  {
    match n
    case 40 => "APOSTROPHE"
    case 41 => "GRAVE"
    case 42 => "LEFTSHIFT"
    case 43 => "BACKSLASH"
    case 44 => "Z"
    case 45 => "X"
    case 46 => "C"
    case 47 => "V"
    case _ => ""
  }

  /** Spellings of the numbers 48..55. */
  function SpellingBlock6(n: int): UpperString
  {
    match n
    case 48 => "B"
    case 49 => "N"
    case 50 => "M"
    case 51 => "COMMA"
    case 52 => "DOT"
    case 53 => "SLASH"
    case 54 => "RIGHTSHIFT"
    case 55 => "KPASTERISK"
    case _ => ""
  }

  /** Spellings of the numbers 56..63. */
  function SpellingBlock7(n: int): UpperString
  {
    match n
    case 56 => "LEFTALT"
    case 57 => "SPACE"
    case 58 => "CAPSLOCK"
    case 59 => "F1"
    case 60 => "F2"
    case 61 => "F3"
    case 62 => "F4"
    case 63 => "F5"
    case _ => ""
  }

  /** Spellings of the numbers 64..71. */
  function SpellingBlock8(n: int): UpperString
  {
    match n
    case 64 => "F6"
    case 65 => "F7"
    case 66 => "F8"
    case 67 => "F9"
    case 68 => "F10"
    case 69 => "NUMLOCK"
    case 70 => "SCROLLLOCK"
    case 71 => "KP7"
    case _ => ""
  }

  /** Spellings of the numbers 72..79. */
  function SpellingBlock9(n: int): UpperString
  {
    match n
    case 72 => "KP8"
    case 73 => "KP9"
    case 74 => "KPMINUS"
    case 75 => "KP4"
    case 76 => "KP5"
    case 77 => "KP6"
    case 78 => "KPPLUS"
    case 79 => "KP1"
    case _ => ""
  }

  /** Spellings of the numbers 80..87. */
  function SpellingBlock10(n: int): UpperString
  {
    match n
    case 80 => "KP2"
    case 81 => "KP3"
    case 82 => "KP0"
    case 83 => "KPDOT"
    case 85 => "ZENKAKUHANKAKU"
    case 86 => "102ND"
    case 87 => "F11"
    case _ => ""
  }

  /** Spellings of the numbers 88..95. */
  function SpellingBlock11(n: int): UpperString
  {
    match n
    case 88 => "F12"
    case 89 => "RO"
    case 90 => "KATAKANA"
    case 91 => "HIRAGANA"
    case 92 => "HENKAN"
    case 93 => "KATAKANAHIRAGANA"
    case 94 => "MUHENKAN"
    case 95 => "KPJPCOMMA"
    case _ => ""
  }

  /** Spellings of the numbers 96..103. */
  function SpellingBlock12(n: int): UpperString
  {
    match n
    case 96 => "KPENTER"
    case 97 => "RIGHTCTRL"
    case 98 => "KPSLASH"
    case 99 => "SYSRQ"
    case 100 => "RIGHTALT"
    case 101 => "LINEFEED"
    case 102 => "HOME"
    case 103 => "UP"
    case _ => ""
  }

  /** Spellings of the numbers 104..111. */
  function SpellingBlock13(n: int): UpperString
  {
    match n
    case 104 => "PAGEUP"
    case 105 => "LEFT"
    case 106 => "RIGHT"
    case 107 => "END"
    case 108 => "DOWN"
    case 109 => "PAGEDOWN"
    case 110 => "INSERT"
    case 111 => "DELETE"
    case _ => ""
  }

  /** Spellings of the numbers 112..119. */
  function SpellingBlock14(n: int): UpperString
  {
    match n
    case 112 => "MACRO"
    case 113 => "MUTE"
    case 114 => "VOLUMEDOWN"
    case 115 => "VOLUMEUP"
    case 116 => "POWER"
    case 117 => "KPEQUAL"
    case 118 => "KPPLUSMINUS"
    case 119 => "PAUSE"
    case _ => ""
  }

  /** Spellings of the numbers 120..127. */
  function SpellingBlock15(n: int): UpperString
  {
    match n
    case 120 => "SCALE"
    case 121 => "KPCOMMA"
    case 122 => "HANGEUL"
    case 123 => "HANJA"
    case 124 => "YEN"
    case 125 => "LEFTMETA"
    case 126 => "RIGHTMETA"
    case 127 => "COMPOSE"
    case _ => ""
  }

  /** Spellings of the numbers 128..135. */
  function SpellingBlock16(n: int): UpperString
  {
    match n
    case 128 => "STOP"
    case 129 => "AGAIN"
    case 130 => "PROPS"
    case 131 => "UNDO"
    case 132 => "FRONT"
    case 133 => "COPY"
    case 134 => "OPEN"
    case 135 => "PASTE"
    case _ => ""
  }

  /** Spellings of the numbers 136..143. */
  function SpellingBlock17(n: int): UpperString
  {
    match n
    case 136 => "FIND"
    case 137 => "CUT"
    case 138 => "HELP"
    case 139 => "MENU"
    case 140 => "CALC"
    case 141 => "SETUP"
    case 142 => "SLEEP"
    case 143 => "WAKEUP"
    case _ => ""
  }

  /** Spellings of the numbers 144..151. */
  function SpellingBlock18(n: int): UpperString
  {
    match n
    case 144 => "FILE"
    case 145 => "SENDFILE"
    case 146 => "DELETEFILE"
    case 147 => "XFER"
    case 148 => "PROG1"
    case 149 => "PROG2"
    case 150 => "WWW"
    case 151 => "MSDOS"
    case _ => ""
  }

  /** Spellings of the numbers 152..159. */
  function SpellingBlock19(n: int): UpperString
  {
    match n
    case 152 => "COFFEE"
    case 153 => "ROTATE_DISPLAY"
    case 154 => "CYCLEWINDOWS"
    case 155 => "MAIL"
    case 156 => "BOOKMARKS"
    case 157 => "COMPUTER"
    case 158 => "BACK"
    case 159 => "FORWARD"
    case _ => ""
  }

  /** Spellings of the numbers 160..167. */
  function SpellingBlock20(n: int): UpperString
  {
    match n
    case 160 => "CLOSECD"
    case 161 => "EJECTCD"
    case 162 => "EJECTCLOSECD"
    case 163 => "NEXTSONG"
    case 164 => "PLAYPAUSE"
    case 165 => "PREVIOUSSONG"
    case 166 => "STOPCD"
    case 167 => "RECORD"
    case _ => ""
  }

  /** Spellings of the numbers 168..175. */
  function SpellingBlock21(n: int): UpperString
  {
    match n
    case 168 => "REWIND"
    case 169 => "PHONE"
    case 170 => "ISO"
    case 171 => "CONFIG"
    case 172 => "HOMEPAGE"
    case 173 => "REFRESH"
    case 174 => "EXIT"
    case 175 => "MOVE"
    case _ => ""
  }

  /** Spellings of the numbers 176..183. */
  function SpellingBlock22(n: int): UpperString
  {
    match n
    case 176 => "EDIT"
    case 177 => "SCROLLUP"
    case 178 => "SCROLLDOWN"
    case 179 => "KPLEFTPAREN"
    case 180 => "KPRIGHTPAREN"
    case 181 => "NEW"
    case 182 => "REDO"
    case 183 => "F13"
    case _ => ""
  }

  /** Spellings of the numbers 184..191. */
  function SpellingBlock23(n: int): UpperString
  {
    match n
    case 184 => "F14"
    case 185 => "F15"
    case 186 => "F16"
    case 187 => "F17"
    case 188 => "F18"
    case 189 => "F19"
    case 190 => "F20"
    case 191 => "F21"
    case _ => ""
  }

  /** Spellings of the numbers 192..199. */
  function SpellingBlock24(n: int): UpperString
  {
    match n
    case 192 => "F22"
    case 193 => "F23"
    case 194 => "F24"
    case _ => ""
  }

  /** Spellings of the numbers 200..207. */
  function SpellingBlock25(n: int): UpperString
  {
    match n
    case 200 => "PLAYCD"
    case 201 => "PAUSECD"
    case 202 => "PROG3"
    case 203 => "PROG4"
    case 204 => "ALL_APPLICATIONS"
    case 205 => "SUSPEND"
    case 206 => "CLOSE"
    case 207 => "PLAY"
    case _ => ""
  }

  /** Spellings of the numbers 208..215. */
  function SpellingBlock26(n: int): UpperString
  {
    match n
    case 208 => "FASTFORWARD"
    case 209 => "BASSBOOST"
    case 210 => "PRINT"
    case 211 => "HP"
    case 212 => "CAMERA"
    case 213 => "SOUND"
    case 214 => "QUESTION"
    case 215 => "EMAIL"
    case _ => ""
  }

  /** Spellings of the numbers 216..223. */
  function SpellingBlock27(n: int): UpperString
  {
    match n
    case 216 => "CHAT"
    case 217 => "SEARCH"
    case 218 => "CONNECT"
    case 219 => "FINANCE"
    case 220 => "SPORT"
    case 221 => "SHOP"
    case 222 => "ALTERASE"
    case 223 => "CANCEL"
    case _ => ""
  }

  /** Spellings of the numbers 224..231. */
  function SpellingBlock28(n: int): UpperString
  {
    match n
    case 224 => "BRIGHTNESSDOWN"
    case 225 => "BRIGHTNESSUP"
    case 226 => "MEDIA"
    case 227 => "SWITCHVIDEOMODE"
    case 228 => "KBDILLUMTOGGLE"
    case 229 => "KBDILLUMDOWN"
    case 230 => "KBDILLUMUP"
    case 231 => "SEND"
    case _ => ""
  }

  /** Spellings of the numbers 232..239. */
  function SpellingBlock29(n: int): UpperString
  {
    match n
    case 232 => "REPLY"
    case 233 => "FORWARDMAIL"
    case 234 => "SAVE"
    case 235 => "DOCUMENTS"
    case 236 => "BATTERY"
    case 237 => "BLUETOOTH"
    case 238 => "WLAN"
    case 239 => "UWB"
    case _ => ""
  }

  /** Spellings of the numbers 240..247. */
  function SpellingBlock30(n: int): UpperString
  {
    match n
    case 240 => "UNKNOWN"
    case 241 => "VIDEO_NEXT"
    case 242 => "VIDEO_PREV"
    case 243 => "BRIGHTNESS_CYCLE"
    case 244 => "BRIGHTNESS_AUTO"
    case 245 => "DISPLAY_OFF"
    case 246 => "WWAN"
    case 247 => "RFKILL"
    case _ => ""
  }

  /** Spellings of the numbers 248..248. */
  function SpellingBlock31(n: int): UpperString
  {
    match n
    case 248 => "MICMUTE"
    case _ => ""
  }

  /** The identifier of the variant with number `n`, which is what `{:?}` prints. */
  function VariantName(n: int): string
  {
    match n
    case 2 => "KEY_1"
    case 3 => "KEY_2"
    case 4 => "KEY_3"
    case 5 => "KEY_4"
    case 6 => "KEY_5"
    case 7 => "KEY_6"
    case 8 => "KEY_7"
    case 9 => "KEY_8"
    case 10 => "KEY_9"
    case 11 => "KEY_0"
    case 86 => "KEY_102ND"
    case _ => Spelling(n)
  }

  /**
   Lookup of a spelling by its first character and then the whole text: the number whose
   spelling is `u`. The result is only trusted together with the table (see `TableRows`).
   */
  function LookupSpelling(u: string): Option<int>
  {
    if |u| == 0 then None else
    match u[0]
    case '0' => LookupGroup0(u)
    case '1' => LookupGroup1(u)
    case '2' => LookupGroup2(u)
    case '3' => LookupGroup3(u)
    case '4' => LookupGroup4(u)
    case '5' => LookupGroup5(u)
    case '6' => LookupGroup6(u)
    case '7' => LookupGroup7(u)
    case '8' => LookupGroup8(u)
    case '9' => LookupGroup9(u)
    case 'A' => LookupGroupA(u)
    case 'B' => LookupGroupB(u)
    case 'C' => LookupGroupC(u)
    case 'D' => LookupGroupD(u)
    case 'E' => LookupGroupE(u)
    case 'F' => LookupGroupF(u)
    case 'G' => LookupGroupG(u)
    case 'H' => LookupGroupH(u)
    case 'I' => LookupGroupI(u)
    case 'J' => LookupGroupJ(u)
    case 'K' => LookupGroupK(u)
    case 'L' => LookupGroupL(u)
    case 'M' => LookupGroupM(u)
    case 'N' => LookupGroupN(u)
    case 'O' => LookupGroupO(u)
    case 'P' => LookupGroupP(u)
    case 'Q' => LookupGroupQ(u)
    case 'R' => LookupGroupR(u)
    case 'S' => LookupGroupS(u)
    case 'T' => LookupGroupT(u)
    case 'U' => LookupGroupU(u)
    case 'V' => LookupGroupV(u)
    case 'W' => LookupGroupW(u)
    case 'X' => LookupGroupX(u)
    case 'Y' => LookupGroupY(u)
    case 'Z' => LookupGroupZ(u)
    case _ => None
  }

  /** Spellings that start with '0'. */
  function LookupGroup0(u: string): (r: Option<int>)
  {
    match u
    case "0" => Some(11)
    case _ => None
  }

  /** Spellings that start with '1'. */
  function LookupGroup1(u: string): (r: Option<int>)
  {
    match u
    case "1" => Some(2)
    case "102ND" => Some(86)
    case _ => None
  }

  /** Spellings that start with '2'. */
  function LookupGroup2(u: string): (r: Option<int>)
  {
    match u
    case "2" => Some(3)
    case _ => None
  }

  /** Spellings that start with '3'. */
  function LookupGroup3(u: string): (r: Option<int>)
  {
    match u
    case "3" => Some(4)
    case _ => None
  }

  /** Spellings that start with '4'. */
  function LookupGroup4(u: string): (r: Option<int>)
  {
    match u
    case "4" => Some(5)
    case _ => None
  }

  /** Spellings that start with '5'. */
  function LookupGroup5(u: string): (r: Option<int>)
  {
    match u
    case "5" => Some(6)
    case _ => None
  }

  /** Spellings that start with '6'. */
  function LookupGroup6(u: string): (r: Option<int>)
  {
    match u
    case "6" => Some(7)
    case _ => None
  }

  /** Spellings that start with '7'. */
  function LookupGroup7(u: string): (r: Option<int>)
  {
    match u
    case "7" => Some(8)
    case _ => None
  }

  /** Spellings that start with '8'. */
  function LookupGroup8(u: string): (r: Option<int>)
  {
    match u
    case "8" => Some(9)
    case _ => None
  }

  /** Spellings that start with '9'. */
  function LookupGroup9(u: string): (r: Option<int>)
  {
    match u
    case "9" => Some(10)
    case _ => None
  }

  /** Spellings that start with 'A'. */
  function LookupGroupA(u: string): (r: Option<int>)
  {
    match u
    case "A" => Some(30)
    case "AGAIN" => Some(129)
    case "ALL_APPLICATIONS" => Some(204)
    case "ALTERASE" => Some(222)
    case "APOSTROPHE" => Some(40)
    case _ => None
  }

  /** Spellings that start with 'B'. */
  function LookupGroupB(u: string): (r: Option<int>)
  {
    match u
    case "B" => Some(48)
    case "BACK" => Some(158)
    case "BACKSLASH" => Some(43)
    case "BACKSPACE" => Some(14)
    case "BASSBOOST" => Some(209)
    case "BATTERY" => Some(236)
    case "BLUETOOTH" => Some(237)
    case "BOOKMARKS" => Some(156)
    case "BRIGHTNESSDOWN" => Some(224)
    case "BRIGHTNESSUP" => Some(225)
    case "BRIGHTNESS_AUTO" => Some(244)
    case "BRIGHTNESS_CYCLE" => Some(243)
    case _ => None
  }

  /** Spellings that start with 'C'. */
  function LookupGroupC(u: string): (r: Option<int>)
  {
    match u
    case "C" => Some(46)
    case "CALC" => Some(140)
    case "CAMERA" => Some(212)
    case "CANCEL" => Some(223)
    case "CAPSLOCK" => Some(58)
    case "CHAT" => Some(216)
    case "CLOSE" => Some(206)
    case "CLOSECD" => Some(160)
    case "COFFEE" => Some(152)
    case "COMMA" => Some(51)
    case "COMPOSE" => Some(127)
    case "COMPUTER" => Some(157)
    case "CONFIG" => Some(171)
    case "CONNECT" => Some(218)
    case "COPY" => Some(133)
    case "CUT" => Some(137)
    case "CYCLEWINDOWS" => Some(154)
    case _ => None
  }

  /** Spellings that start with 'D'. */
  function LookupGroupD(u: string): (r: Option<int>)
  {
    match u
    case "D" => Some(32)
    case "DELETE" => Some(111)
    case "DELETEFILE" => Some(146)
    case "DISPLAY_OFF" => Some(245)
    case "DOCUMENTS" => Some(235)
    case "DOT" => Some(52)
    case "DOWN" => Some(108)
    case _ => None
  }

  /** Spellings that start with 'E'. */
  function LookupGroupE(u: string): (r: Option<int>)
  {
    match u
    case "E" => Some(18)
    case "EDIT" => Some(176)
    case "EJECTCD" => Some(161)
    case "EJECTCLOSECD" => Some(162)
    case "EMAIL" => Some(215)
    case "END" => Some(107)
    case "ENTER" => Some(28)
    case "EQUAL" => Some(13)
    case "ESC" => Some(1)
    case "EXIT" => Some(174)
    case _ => None
  }

  /** Spellings that start with 'F'. */
  function LookupGroupF(u: string): (r: Option<int>)
  {
    match u
    case "F" => Some(33)
    case "F1" => Some(59)
    case "F10" => Some(68)
    case "F11" => Some(87)
    case "F12" => Some(88)
    case "F13" => Some(183)
    case "F14" => Some(184)
    case "F15" => Some(185)
    case "F16" => Some(186)
    case "F17" => Some(187)
    case "F18" => Some(188)
    case "F19" => Some(189)
    case "F2" => Some(60)
    case "F20" => Some(190)
    case "F21" => Some(191)
    case "F22" => Some(192)
    case "F23" => Some(193)
    case "F24" => Some(194)
    case "F3" => Some(61)
    case "F4" => Some(62)
    case "F5" => Some(63)
    case "F6" => Some(64)
    case "F7" => Some(65)
    case "F8" => Some(66)
    case "F9" => Some(67)
    case "FASTFORWARD" => Some(208)
    case "FILE" => Some(144)
    case "FINANCE" => Some(219)
    case "FIND" => Some(136)
    case "FORWARD" => Some(159)
    case "FORWARDMAIL" => Some(233)
    case "FRONT" => Some(132)
    case _ => None
  }

  /** Spellings that start with 'G'. */
  function LookupGroupG(u: string): (r: Option<int>)
  {
    match u
    case "G" => Some(34)
    case "GRAVE" => Some(41)
    case _ => None
  }

  /** Spellings that start with 'H'. */
  function LookupGroupH(u: string): (r: Option<int>)
  {
    match u
    case "H" => Some(35)
    case "HANGEUL" => Some(122)
    case "HANJA" => Some(123)
    case "HELP" => Some(138)
    case "HENKAN" => Some(92)
    case "HIRAGANA" => Some(91)
    case "HOME" => Some(102)
    case "HOMEPAGE" => Some(172)
    case "HP" => Some(211)
    case _ => None
  }

  /** Spellings that start with 'I'. */
  function LookupGroupI(u: string): (r: Option<int>)
  {
    match u
    case "I" => Some(23)
    case "INSERT" => Some(110)
    case "ISO" => Some(170)
    case _ => None
  }

  /** Spellings that start with 'J'. */
  function LookupGroupJ(u: string): (r: Option<int>)
  {
    match u
    case "J" => Some(36)
    case _ => None
  }

  /** Spellings that start with 'K'. */
  function LookupGroupK(u: string): (r: Option<int>)
  {
    match u
    case "K" => Some(37)
    case "KATAKANA" => Some(90)
    case "KATAKANAHIRAGANA" => Some(93)
    case "KBDILLUMDOWN" => Some(229)
    case "KBDILLUMTOGGLE" => Some(228)
    case "KBDILLUMUP" => Some(230)
    case "KP0" => Some(82)
    case "KP1" => Some(79)
    case "KP2" => Some(80)
    case "KP3" => Some(81)
    case "KP4" => Some(75)
    case "KP5" => Some(76)
    case "KP6" => Some(77)
    case "KP7" => Some(71)
    case "KP8" => Some(72)
    case "KP9" => Some(73)
    case "KPASTERISK" => Some(55)
    case "KPCOMMA" => Some(121)
    case "KPDOT" => Some(83)
    case "KPENTER" => Some(96)
    case "KPEQUAL" => Some(117)
    case "KPJPCOMMA" => Some(95)
    case "KPLEFTPAREN" => Some(179)
    case "KPMINUS" => Some(74)
    case "KPPLUS" => Some(78)
    case "KPPLUSMINUS" => Some(118)
    case "KPRIGHTPAREN" => Some(180)
    case "KPSLASH" => Some(98)
    case _ => None
  }

  /** Spellings that start with 'L'. */
  function LookupGroupL(u: string): (r: Option<int>)
  {
    match u
    case "L" => Some(38)
    case "LEFT" => Some(105)
    case "LEFTALT" => Some(56)
    case "LEFTBRACE" => Some(26)
    case "LEFTCTRL" => Some(29)
    case "LEFTMETA" => Some(125)
    case "LEFTSHIFT" => Some(42)
    case "LINEFEED" => Some(101)
    case _ => None
  }

  /** Spellings that start with 'M'. */
  function LookupGroupM(u: string): (r: Option<int>)
  {
    match u
    case "M" => Some(50)
    case "MACRO" => Some(112)
    case "MAIL" => Some(155)
    case "MEDIA" => Some(226)
    case "MENU" => Some(139)
    case "MICMUTE" => Some(248)
    case "MINUS" => Some(12)
    case "MOVE" => Some(175)
    case "MSDOS" => Some(151)
    case "MUHENKAN" => Some(94)
    case "MUTE" => Some(113)
    case _ => None
  }

  /** Spellings that start with 'N'. */
  function LookupGroupN(u: string): (r: Option<int>)
  {
    match u
    case "N" => Some(49)
    case "NEW" => Some(181)
    case "NEXTSONG" => Some(163)
    case "NONE" => Some(0)
    case "NUMLOCK" => Some(69)
    case _ => None
  }

  /** Spellings that start with 'O'. */
  function LookupGroupO(u: string): (r: Option<int>)
  {
    match u
    case "O" => Some(24)
    case "OPEN" => Some(134)
    case _ => None
  }

  /** Spellings that start with 'P'. */
  function LookupGroupP(u: string): (r: Option<int>)
  {
    match u
    case "P" => Some(25)
    case "PAGEDOWN" => Some(109)
    case "PAGEUP" => Some(104)
    case "PASTE" => Some(135)
    case "PAUSE" => Some(119)
    case "PAUSECD" => Some(201)
    case "PHONE" => Some(169)
    case "PLAY" => Some(207)
    case "PLAYCD" => Some(200)
    case "PLAYPAUSE" => Some(164)
    case "POWER" => Some(116)
    case "PREVIOUSSONG" => Some(165)
    case "PRINT" => Some(210)
    case "PROG1" => Some(148)
    case "PROG2" => Some(149)
    case "PROG3" => Some(202)
    case "PROG4" => Some(203)
    case "PROPS" => Some(130)
    case _ => None
  }

  /** Spellings that start with 'Q'. */
  function LookupGroupQ(u: string): (r: Option<int>)
  {
    match u
    case "Q" => Some(16)
    case "QUESTION" => Some(214)
    case _ => None
  }

  /** Spellings that start with 'R'. */
  function LookupGroupR(u: string): (r: Option<int>)
  {
    match u
    case "R" => Some(19)
    case "RECORD" => Some(167)
    case "REDO" => Some(182)
    case "REFRESH" => Some(173)
    case "REPLY" => Some(232)
    case "REWIND" => Some(168)
    case "RFKILL" => Some(247)
    case "RIGHT" => Some(106)
    case "RIGHTALT" => Some(100)
    case "RIGHTBRACE" => Some(27)
    case "RIGHTCTRL" => Some(97)
    case "RIGHTMETA" => Some(126)
    case "RIGHTSHIFT" => Some(54)
    case "RO" => Some(89)
    case "ROTATE_DISPLAY" => Some(153)
    case _ => None
  }

  /** Spellings that start with 'S'. */
  function LookupGroupS(u: string): (r: Option<int>)
  {
    match u
    case "S" => Some(31)
    case "SAVE" => Some(234)
    case "SCALE" => Some(120)
    case "SCROLLDOWN" => Some(178)
    case "SCROLLLOCK" => Some(70)
    case "SCROLLUP" => Some(177)
    case "SEARCH" => Some(217)
    case "SEMICOLON" => Some(39)
    case "SEND" => Some(231)
    case "SENDFILE" => Some(145)
    case "SETUP" => Some(141)
    case "SHOP" => Some(221)
    case "SLASH" => Some(53)
    case "SLEEP" => Some(142)
    case "SOUND" => Some(213)
    case "SPACE" => Some(57)
    case "SPORT" => Some(220)
    case "STOP" => Some(128)
    case "STOPCD" => Some(166)
    case "SUSPEND" => Some(205)
    case "SWITCHVIDEOMODE" => Some(227)
    case "SYSRQ" => Some(99)
    case _ => None
  }

  /** Spellings that start with 'T'. */
  function LookupGroupT(u: string): (r: Option<int>)
  {
    match u
    case "T" => Some(20)
    case "TAB" => Some(15)
    case _ => None
  }

  /** Spellings that start with 'U'. */
  function LookupGroupU(u: string): (r: Option<int>)
  {
    match u
    case "U" => Some(22)
    case "UNDO" => Some(131)
    case "UNKNOWN" => Some(240)
    case "UP" => Some(103)
    case "UWB" => Some(239)
    case _ => None
  }

  /** Spellings that start with 'V'. */
  function LookupGroupV(u: string): (r: Option<int>)
  {
    match u
    case "V" => Some(47)
    case "VIDEO_NEXT" => Some(241)
    case "VIDEO_PREV" => Some(242)
    case "VOLUMEDOWN" => Some(114)
    case "VOLUMEUP" => Some(115)
    case _ => None
  }

  /** Spellings that start with 'W'. */
  function LookupGroupW(u: string): (r: Option<int>)
  {
    match u
    case "W" => Some(17)
    case "WAKEUP" => Some(143)
    case "WLAN" => Some(238)
    case "WWAN" => Some(246)
    case "WWW" => Some(150)
    case _ => None
  }

  /** Spellings that start with 'X'. */
  function LookupGroupX(u: string): (r: Option<int>)
  {
    match u
    case "X" => Some(45)
    case "XFER" => Some(147)
    case _ => None
  }

  /** Spellings that start with 'Y'. */
  function LookupGroupY(u: string): (r: Option<int>)
  {
    match u
    case "Y" => Some(21)
    case "YEN" => Some(124)
    case _ => None
  }

  /** Spellings that start with 'Z'. */
  function LookupGroupZ(u: string): (r: Option<int>)
  {
    match u
    case "Z" => Some(44)
    case "ZENKAKUHANKAKU" => Some(85)
    case _ => None
  }

  /**
   The table has a spelling exactly for the assigned numbers, and looking a spelling up
   gives back the number it was read from.
   */
  lemma {:induction false} TableRows(n: int)
    ensures Spelling(n) != "" <==> Assigned(n)
    ensures Assigned(n) ==> LookupSpelling(Spelling(n)) == Some(n)
  {
    if n < 0 || n > 248 {
    } else if n < 16 {
      TableBlock0(n);
    } else if n < 32 {
      TableBlock1(n);
    } else if n < 48 {
      TableBlock2(n);
    } else if n < 64 {
      TableBlock3(n);
    } else if n < 80 {
      TableBlock4(n);
    } else if n < 96 {
      TableBlock5(n);
    } else if n < 112 {
      TableBlock6(n);
    } else if n < 128 {
      TableBlock7(n);
    } else if n < 144 {
      TableBlock8(n);
    } else if n < 160 {
      TableBlock9(n);
    } else if n < 176 {
      TableBlock10(n);
    } else if n < 192 {
      TableBlock11(n);
    } else if n < 208 {
      TableBlock12(n);
    } else if n < 224 {
      TableBlock13(n);
    } else if n < 240 {
      TableBlock14(n);
    } else if n < 256 {
      TableBlock15(n);
    }
  }

  /** `TableRows` for the numbers 0..15, one case per number. */
  lemma TableBlock0(n: int)
    requires 0 <= n <= 15
    ensures Spelling(n) != "" <==> Assigned(n)
    ensures Assigned(n) ==> LookupSpelling(Spelling(n)) == Some(n)
  {
    match n
    case 0 =>
    case 1 =>
    case 2 =>
    case 3 =>
    case 4 =>
    case 5 =>
    case 6 =>
    case 7 =>
    case 8 =>
    case 9 =>
    case 10 =>
    case 11 =>
    case 12 =>
    case 13 =>
    case 14 =>
    case 15 =>
  }

  /** `TableRows` for the numbers 16..31, one case per number. */
  lemma TableBlock1(n: int)
    requires 16 <= n <= 31
    ensures Spelling(n) != "" <==> Assigned(n)
    ensures Assigned(n) ==> LookupSpelling(Spelling(n)) == Some(n)
  {
    match n
    case 16 =>
    case 17 =>
    case 18 =>
    case 19 =>
    case 20 =>
    case 21 =>
    case 22 =>
    case 23 =>
    case 24 =>
    case 25 =>
    case 26 =>
    case 27 =>
    case 28 =>
    case 29 =>
    case 30 =>
    case 31 =>
  }

  /** `TableRows` for the numbers 32..47, one case per number. */
  lemma TableBlock2(n: int)
    requires 32 <= n <= 47
    ensures Spelling(n) != "" <==> Assigned(n)
    ensures Assigned(n) ==> LookupSpelling(Spelling(n)) == Some(n)
  {
    match n
    case 32 =>
    case 33 =>
    case 34 =>
    case 35 =>
    case 36 =>
    case 37 =>
    case 38 =>
    case 39 =>
    case 40 =>
    case 41 =>
    case 42 =>
    case 43 =>
    case 44 =>
    case 45 =>
    case 46 =>
    case 47 =>
  }

  /** `TableRows` for the numbers 48..63, one case per number. */
  lemma TableBlock3(n: int)
    requires 48 <= n <= 63
    ensures Spelling(n) != "" <==> Assigned(n)
    ensures Assigned(n) ==> LookupSpelling(Spelling(n)) == Some(n)
  {
    match n
    case 48 =>
    case 49 =>
    case 50 =>
    case 51 =>
    case 52 =>
    case 53 =>
    case 54 =>
    case 55 =>
    case 56 =>
    case 57 =>
    case 58 =>
    case 59 =>
    case 60 =>
    case 61 =>
    case 62 =>
    case 63 =>
  }

  /** `TableRows` for the numbers 64..79, one case per number. */
  lemma TableBlock4(n: int)
    requires 64 <= n <= 79
    ensures Spelling(n) != "" <==> Assigned(n)
    ensures Assigned(n) ==> LookupSpelling(Spelling(n)) == Some(n)
  {
    match n
    case 64 =>
    case 65 =>
    case 66 =>
    case 67 =>
    case 68 =>
    case 69 =>
    case 70 =>
    case 71 =>
    case 72 =>
    case 73 =>
    case 74 =>
    case 75 =>
    case 76 =>
    case 77 =>
    case 78 =>
    case 79 =>
  }

  /** `TableRows` for the numbers 80..95, one case per number. */
  lemma TableBlock5(n: int)
    requires 80 <= n <= 95
    ensures Spelling(n) != "" <==> Assigned(n)
    ensures Assigned(n) ==> LookupSpelling(Spelling(n)) == Some(n)
  {
    match n
    case 80 =>
    case 81 =>
    case 82 =>
    case 83 =>
    case 84 =>
    case 85 =>
    case 86 =>
    case 87 =>
    case 88 =>
    case 89 =>
    case 90 =>
    case 91 =>
    case 92 =>
    case 93 =>
    case 94 =>
    case 95 =>
  }

  /** `TableRows` for the numbers 96..111, one case per number. */
  lemma TableBlock6(n: int)
    requires 96 <= n <= 111
    ensures Spelling(n) != "" <==> Assigned(n)
    ensures Assigned(n) ==> LookupSpelling(Spelling(n)) == Some(n)
  {
    match n
    case 96 =>
    case 97 =>
    case 98 =>
    case 99 =>
    case 100 =>
    case 101 =>
    case 102 =>
    case 103 =>
    case 104 =>
    case 105 =>
    case 106 =>
    case 107 =>
    case 108 =>
    case 109 =>
    case 110 =>
    case 111 =>
  }

  /** `TableRows` for the numbers 112..127, one case per number. */
  lemma TableBlock7(n: int)
    requires 112 <= n <= 127
    ensures Spelling(n) != "" <==> Assigned(n)
    ensures Assigned(n) ==> LookupSpelling(Spelling(n)) == Some(n)
  {
    match n
    case 112 =>
    case 113 =>
    case 114 =>
    case 115 =>
    case 116 =>
    case 117 =>
    case 118 =>
    case 119 =>
    case 120 =>
    case 121 =>
    case 122 =>
    case 123 =>
    case 124 =>
    case 125 =>
    case 126 =>
    case 127 =>
  }

  /** `TableRows` for the numbers 128..143, one case per number. */
  lemma TableBlock8(n: int)
    requires 128 <= n <= 143
    ensures Spelling(n) != "" <==> Assigned(n)
    ensures Assigned(n) ==> LookupSpelling(Spelling(n)) == Some(n)
  {
    match n
    case 128 =>
    case 129 =>
    case 130 =>
    case 131 =>
    case 132 =>
    case 133 =>
    case 134 =>
    case 135 =>
    case 136 =>
    case 137 =>
    case 138 =>
    case 139 =>
    case 140 =>
    case 141 =>
    case 142 =>
    case 143 =>
  }

  /** `TableRows` for the numbers 144..159, one case per number. */
  lemma TableBlock9(n: int)
    requires 144 <= n <= 159
    ensures Spelling(n) != "" <==> Assigned(n)
    ensures Assigned(n) ==> LookupSpelling(Spelling(n)) == Some(n)
  {
    match n
    case 144 =>
    case 145 =>
    case 146 =>
    case 147 =>
    case 148 =>
    case 149 =>
    case 150 =>
    case 151 =>
    case 152 =>
    case 153 =>
    case 154 =>
    case 155 =>
    case 156 =>
    case 157 =>
    case 158 =>
    case 159 =>
  }

  /** `TableRows` for the numbers 160..175, one case per number. */
  lemma TableBlock10(n: int)
    requires 160 <= n <= 175
    ensures Spelling(n) != "" <==> Assigned(n)
    ensures Assigned(n) ==> LookupSpelling(Spelling(n)) == Some(n)
  {
    match n
    case 160 =>
    case 161 =>
    case 162 =>
    case 163 =>
    case 164 =>
    case 165 =>
    case 166 =>
    case 167 =>
    case 168 =>
    case 169 =>
    case 170 =>
    case 171 =>
    case 172 =>
    case 173 =>
    case 174 =>
    case 175 =>
  }

  /** `TableRows` for the numbers 176..191, one case per number. */
  lemma TableBlock11(n: int)
    requires 176 <= n <= 191
    ensures Spelling(n) != "" <==> Assigned(n)
    ensures Assigned(n) ==> LookupSpelling(Spelling(n)) == Some(n)
  {
    match n
    case 176 =>
    case 177 =>
    case 178 =>
    case 179 =>
    case 180 =>
    case 181 =>
    case 182 =>
    case 183 =>
    case 184 =>
    case 185 =>
    case 186 =>
    case 187 =>
    case 188 =>
    case 189 =>
    case 190 =>
    case 191 =>
  }

  /** `TableRows` for the numbers 192..207, one case per number. */
  lemma TableBlock12(n: int)
    requires 192 <= n <= 207
    ensures Spelling(n) != "" <==> Assigned(n)
    ensures Assigned(n) ==> LookupSpelling(Spelling(n)) == Some(n)
  {
    match n
    case 192 =>
    case 193 =>
    case 194 =>
    case 195 =>
    case 196 =>
    case 197 =>
    case 198 =>
    case 199 =>
    case 200 =>
    case 201 =>
    case 202 =>
    case 203 =>
    case 204 =>
    case 205 =>
    case 206 =>
    case 207 =>
  }

  /** `TableRows` for the numbers 208..223, one case per number. */
  lemma TableBlock13(n: int)
    requires 208 <= n <= 223
    ensures Spelling(n) != "" <==> Assigned(n)
    ensures Assigned(n) ==> LookupSpelling(Spelling(n)) == Some(n)
  {
    match n
    case 208 =>
    case 209 =>
    case 210 =>
    case 211 =>
    case 212 =>
    case 213 =>
    case 214 =>
    case 215 =>
    case 216 =>
    case 217 =>
    case 218 =>
    case 219 =>
    case 220 =>
    case 221 =>
    case 222 =>
    case 223 =>
  }

  /** `TableRows` for the numbers 224..239, one case per number. */
  lemma TableBlock14(n: int)
    requires 224 <= n <= 239
    ensures Spelling(n) != "" <==> Assigned(n)
    ensures Assigned(n) ==> LookupSpelling(Spelling(n)) == Some(n)
  {
    match n
    case 224 =>
    case 225 =>
    case 226 =>
    case 227 =>
    case 228 =>
    case 229 =>
    case 230 =>
    case 231 =>
    case 232 =>
    case 233 =>
    case 234 =>
    case 235 =>
    case 236 =>
    case 237 =>
    case 238 =>
    case 239 =>
  }

  /** `TableRows` for the numbers 240..248, one case per number. */
  lemma TableBlock15(n: int)
    requires 240 <= n <= 248
    ensures Spelling(n) != "" <==> Assigned(n)
    ensures Assigned(n) ==> LookupSpelling(Spelling(n)) == Some(n)
  {
    match n
    case 240 =>
    case 241 =>
    case 242 =>
    case 243 =>
    case 244 =>
    case 245 =>
    case 246 =>
    case 247 =>
    case 248 =>
  }

}
