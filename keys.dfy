/**
 * Keyboard symbols as SDL2 reports them, the engine's key numbers, and the
 * pure mappings between them in neo/sys/events.cpp: mapkey, the scancode
 * overrides applied to every keyboard event, and the scancode-name table
 * with its two lookups.
 *
 * The engine's key numbers (K_*) come from a header that is not part of this
 * model, so they are abstract here: distinct constructors rather than numbers.
 * SDL2 scancodes are the keyboard usage IDs of the USB HID usage tables
 * (section 10, "Keyboard/Keypad Page"), used as plain integers.
 */
module Keys {
  import opened Wrappers
  import opened IdStr

  // ---------------------------------------------------------------- SDL side

  /**
   * SDL2 key symbols that are not characters. SDL2 derives each of them from
   * a scancode with bit 30 set, so every one compares greater than SDLK_z.
   */
  datatype SdlNamedKey =
    | Pause | Application | CapsLock | ScrollLock | Power
    | Up | Down | Left | Right
    | LGui | RGui | Menu
    | LAlt | RAlt | RCtrl | LCtrl | RShift | LShift
    | Insert | PageDown | PageUp | Home | End
    | F(n: int)
    | Kp0 | Kp1 | Kp2 | Kp3 | Kp4 | Kp5 | Kp6 | Kp7 | Kp8 | Kp9
    | KpEnter | KpPeriod | KpDivide | KpMinus | KpPlus | KpMultiply | KpEquals
    | NumLockClear | PrintScreen | Mode
    | OtherNamed(id: int)

  /**
   * An SDL2 keycode: a character symbol (its value is the character code,
   * e.g. SDLK_BACKSPACE is '\b' and SDLK_DELETE is 127) or a named symbol.
   */
  datatype Keycode = Char(code: int) | Named(key: SdlNamedKey)

  const SDLK_BACKSPACE := 8
  const SDLK_RETURN := 13
  const SDLK_DELETE := 127
  const SDLK_z := 122

  /** SDL2 scancodes the event code names (USB HID usage IDs). */
  const SCANCODE_1 := 30
  const SCANCODE_9 := 38
  const SCANCODE_0 := 39
  const SCANCODE_GRAVE := 53

  // ------------------------------------------------------------- engine side

  /** The engine's named key numbers (K_*). */
  datatype EngineKey =
    | Escape | Backspace | Pause | Command | CapsLock | Scroll | Power
    | UpArrow | DownArrow | LeftArrow | RightArrow
    | LWin | RWin | Menu
    | Alt | RightAlt | Ctrl | RightCtrl | Shift | RightShift
    | Ins | Del | PgDn | PgUp | Home | End
    | F(n: int)
    | KpHome | KpUpArrow | KpPgUp | KpLeftArrow | Kp5 | KpRightArrow
    | KpEnd | KpDownArrow | KpPgDn | KpEnter | KpIns | KpDel
    | KpSlash | KpMinus | KpPlus | KpNumLock | KpStar | KpEquals
    | PrintScr | Console | MWheelUp | MWheelDown
    | Mouse(n: int)  // K_MOUSE1 + (n - 1)
    | Joy(n: int)    // K_JOY1 + n

  /**
   * A key number as the engine receives it. NoKey is the 0 that the source
   * uses for "not mapped"; Byte(b), 0 < b < 256, is a key whose number is a
   * character code; Sc(i) is K_FIRST_SCANCODE + i.
   */
  datatype KeyNum = NoKey | Byte(b: int) | K(key: EngineKey) | Sc(index: int)

  // ------------------------------------------------------------------ mapkey

  /** `code & 0xff` as a key number: two's complement keeps the remainder modulo 256. */
  function LowByte(code: int): KeyNum
  {
    if code % 256 == 0 then NoKey else Byte(code % 256)
  }

  /** Sys_MapCharForKey: `key & 0xff` as an unsigned char, the key number's class modulo 256. */
  function MapCharForKey(key: int): (r: int)
    ensures 0 <= r < 256 && (key - r) % 256 == 0
  {
    key % 256
  }

  /** A key number that is a character code maps back to that character, and mapkey's low byte survives the round trip. */
  lemma MapCharForKeyOfByte(code: int)
    ensures 0 <= code < 256 ==> MapCharForKey(code) == code
    ensures LowByte(code).Byte? ==> MapCharForKey(LowByte(code).b) == MapCharForKey(code)
  {
  }

  /** The second switch of mapkey: the named symbols it lists. */
  function NamedKeyNum(n: SdlNamedKey): KeyNum
  {
    match n
    case Application => K(Command)
    case CapsLock => K(EngineKey.CapsLock)
    case ScrollLock => K(Scroll)
    case Power => K(EngineKey.Power)
    case Up => K(UpArrow)
    case Down => K(DownArrow)
    case Left => K(LeftArrow)
    case Right => K(RightArrow)
    case LGui => K(LWin)
    case RGui => K(RWin)
    case Menu => K(EngineKey.Menu)
    case LAlt => K(Alt)
    case RAlt => K(RightAlt)
    case RCtrl => K(RightCtrl)
    case LCtrl => K(Ctrl)
    case RShift => K(RightShift)
    case LShift => K(Shift)
    case Insert => K(Ins)
    case PageDown => K(PgDn)
    case PageUp => K(PgUp)
    case Home => K(EngineKey.Home)
    case End => K(EngineKey.End)
    case F(i) => if 1 <= i <= 15 then K(EngineKey.F(i)) else NoKey
    case Kp7 => K(KpHome)
    case Kp8 => K(KpUpArrow)
    case Kp9 => K(KpPgUp)
    case Kp4 => K(KpLeftArrow)
    case Kp5 => K(EngineKey.Kp5)
    case Kp6 => K(KpRightArrow)
    case Kp1 => K(KpEnd)
    case Kp2 => K(KpDownArrow)
    case Kp3 => K(KpPgDn)
    case KpEnter => K(EngineKey.KpEnter)
    case Kp0 => K(KpIns)
    case KpPeriod => K(KpDel)
    case KpDivide => K(KpSlash)
    case KpMinus => K(EngineKey.KpMinus)
    case KpPlus => K(EngineKey.KpPlus)
    case NumLockClear => K(KpNumLock)
    case KpMultiply => K(KpStar)
    case KpEquals => K(EngineKey.KpEquals)
    case PrintScreen => K(PrintScr)
    case Mode => K(RightAlt)
    case _ => NoKey
  }

  /**
   * mapkey: backspace and pause first, then every symbol up to SDLK_z by its
   * low byte, then the listed symbols; anything else is 0.
   */
  function MapKey(key: Keycode): (r: KeyNum)
    ensures !r.Sc?
    ensures r.Byte? ==> key.Char? && key.code <= SDLK_z && 0 < r.b < 256 && r.b == key.code % 256
    ensures key.Char? && 0 < key.code <= SDLK_z && key.code != SDLK_BACKSPACE ==> r == Byte(key.code)
    ensures key == Char(SDLK_BACKSPACE) <==> r == K(Backspace)
    ensures key == Named(SdlNamedKey.Pause) <==> r == K(EngineKey.Pause)
    ensures key.Char? && key.code > SDLK_z && key.code != SDLK_DELETE ==> r == NoKey
    ensures key == Char(SDLK_DELETE) ==> r == K(Del)
    // a named symbol maps to an engine key iff the second switch lists it
    ensures key.Named? ==>
              ((key.key.OtherNamed? || (key.key.F? && !(1 <= key.key.n <= 15))) <==> r == NoKey)
    ensures key.Named? && !r.NoKey? ==> r.K?
  {
    if key == Char(SDLK_BACKSPACE) then K(Backspace)
    else if key == Named(SdlNamedKey.Pause) then K(EngineKey.Pause)
    else if key.Char? && key.code <= SDLK_z then LowByte(key.code)
    else match key
      case Char(c) => if c == SDLK_DELETE then K(Del) else NoKey
      case Named(n) => NamedKeyNum(n)
  }

  /** The one SDL2 named symbol mapkey sends to each engine key (RAlt for K_RIGHT_ALT). */
  function SymbolForEngineKey(k: EngineKey): Option<SdlNamedKey>
  {
    match k
    case Pause => Some(SdlNamedKey.Pause)
    case Command => Some(Application)
    case CapsLock => Some(SdlNamedKey.CapsLock)
    case Scroll => Some(ScrollLock)
    case Power => Some(SdlNamedKey.Power)
    case UpArrow => Some(Up)
    case DownArrow => Some(Down)
    case LeftArrow => Some(Left)
    case RightArrow => Some(Right)
    case LWin => Some(LGui)
    case RWin => Some(RGui)
    case Menu => Some(SdlNamedKey.Menu)
    case Alt => Some(LAlt)
    case RightAlt => Some(RAlt)
    case RightCtrl => Some(RCtrl)
    case Ctrl => Some(LCtrl)
    case RightShift => Some(RShift)
    case Shift => Some(LShift)
    case Ins => Some(Insert)
    case PgDn => Some(PageDown)
    case PgUp => Some(PageUp)
    case Home => Some(SdlNamedKey.Home)
    case End => Some(SdlNamedKey.End)
    case F(i) => Some(SdlNamedKey.F(i))
    case KpHome => Some(Kp7)
    case KpUpArrow => Some(Kp8)
    case KpPgUp => Some(Kp9)
    case KpLeftArrow => Some(Kp4)
    case Kp5 => Some(SdlNamedKey.Kp5)
    case KpRightArrow => Some(Kp6)
    case KpEnd => Some(Kp1)
    case KpDownArrow => Some(Kp2)
    case KpPgDn => Some(Kp3)
    case KpEnter => Some(SdlNamedKey.KpEnter)
    case KpIns => Some(Kp0)
    case KpDel => Some(KpPeriod)
    case KpSlash => Some(KpDivide)
    case KpMinus => Some(SdlNamedKey.KpMinus)
    case KpPlus => Some(SdlNamedKey.KpPlus)
    case KpNumLock => Some(NumLockClear)
    case KpStar => Some(KpMultiply)
    case KpEquals => Some(SdlNamedKey.KpEquals)
    case PrintScr => Some(PrintScreen)
    case _ => None
  }

  /**
   * Distinct named symbols reach distinct engine keys, apart from SDLK_MODE,
   * which shares K_RIGHT_ALT with SDLK_RALT: every mapped named symbol is
   * recovered from its engine key.
   */
  lemma NamedSymbolsRecoverable(n: SdlNamedKey)
    requires MapKey(Named(n)) != NoKey
    ensures MapKey(Named(n)).K?
    ensures n == Mode || SymbolForEngineKey(MapKey(Named(n)).key) == Some(n)
  {
    if n != SdlNamedKey.Pause {
      assert MapKey(Named(n)) == NamedKeyNum(n);
      NamedKeyNumRecoverable(n);
    }
  }

  /** The second switch of mapkey on its own: each listed symbol comes back from its engine key. */
  lemma NamedKeyNumRecoverable(n: SdlNamedKey)
    requires NamedKeyNum(n) != NoKey
    ensures NamedKeyNum(n).K?
    ensures n == Mode || SymbolForEngineKey(NamedKeyNum(n).key) == Some(n)
  {
    if IsKeypad(n) {
      KeypadRecoverable(n);
    } else if !n.F? {
      OtherNamedRecoverable(n);
    }
  }

  predicate IsKeypadDigit(n: SdlNamedKey)
  {
    n.Kp0? || n.Kp1? || n.Kp2? || n.Kp3? || n.Kp4? || n.Kp5? || n.Kp6? || n.Kp7? || n.Kp8? || n.Kp9?
  }

  predicate IsKeypad(n: SdlNamedKey)
  {
    IsKeypadDigit(n)
    || n.KpEnter? || n.KpPeriod? || n.KpDivide? || n.KpMinus? || n.KpPlus? || n.KpMultiply? || n.KpEquals?
    || n.NumLockClear?
  }

  lemma KeypadRecoverable(n: SdlNamedKey)
    requires IsKeypad(n)
    ensures NamedKeyNum(n).K? && SymbolForEngineKey(NamedKeyNum(n).key) == Some(n)
  {
    if n.Kp0? || n.Kp1? || n.Kp2? || n.Kp3? || n.Kp4? {
      KeypadLowDigitRecoverable(n);
    } else if IsKeypadDigit(n) {
      KeypadHighDigitRecoverable(n);
    } else if n.KpEnter? || n.KpPeriod? || n.KpDivide? || n.KpMinus? {
      KeypadOperatorRecoverable(n);
    } else {
      KeypadOtherRecoverable(n);
    }
  }

  lemma KeypadLowDigitRecoverable(n: SdlNamedKey)
    requires n.Kp0? || n.Kp1? || n.Kp2? || n.Kp3? || n.Kp4?
    ensures NamedKeyNum(n).K? && SymbolForEngineKey(NamedKeyNum(n).key) == Some(n)
  {
  }

  lemma KeypadHighDigitRecoverable(n: SdlNamedKey)
    requires n.Kp5? || n.Kp6? || n.Kp7? || n.Kp8? || n.Kp9?
    ensures NamedKeyNum(n).K? && SymbolForEngineKey(NamedKeyNum(n).key) == Some(n)
  {
  }

  lemma KeypadOperatorRecoverable(n: SdlNamedKey)
    requires n.KpEnter? || n.KpPeriod? || n.KpDivide? || n.KpMinus?
    ensures NamedKeyNum(n).K? && SymbolForEngineKey(NamedKeyNum(n).key) == Some(n)
  {
  }

  lemma KeypadOtherRecoverable(n: SdlNamedKey)
    requires n.KpPlus? || n.KpMultiply? || n.KpEquals? || n.NumLockClear?
    ensures NamedKeyNum(n).K? && SymbolForEngineKey(NamedKeyNum(n).key) == Some(n)
  {
  }

  lemma OtherNamedRecoverable(n: SdlNamedKey)
    requires !IsKeypad(n) && !n.F? && NamedKeyNum(n) != NoKey
    ensures NamedKeyNum(n).K?
    ensures n == Mode || SymbolForEngineKey(NamedKeyNum(n).key) == Some(n)
  {
  }

  // ------------------------------------------------------ scancode-name table

  /** One entry of scancodemappings: an SDL2 scancode and its engine name. */
  datatype ScancodeMapping = ScancodeMapping(sdlScancode: int, name: string)

  // The table is written in four parts so that indexing it stays cheap for the verifier.
  const LETTERS_A_TO_M: seq<ScancodeMapping> := [
    ScancodeMapping(4, "SC_A"), ScancodeMapping(5, "SC_B"), ScancodeMapping(6, "SC_C"),
    ScancodeMapping(7, "SC_D"), ScancodeMapping(8, "SC_E"), ScancodeMapping(9, "SC_F"),
    ScancodeMapping(10, "SC_G"), ScancodeMapping(11, "SC_H"), ScancodeMapping(12, "SC_I"),
    ScancodeMapping(13, "SC_J"), ScancodeMapping(14, "SC_K"), ScancodeMapping(15, "SC_L"),
    ScancodeMapping(16, "SC_M")
  ]

  const LETTERS_N_TO_Z: seq<ScancodeMapping> := [
    ScancodeMapping(17, "SC_N"), ScancodeMapping(18, "SC_O"), ScancodeMapping(19, "SC_P"),
    ScancodeMapping(20, "SC_Q"), ScancodeMapping(21, "SC_R"), ScancodeMapping(22, "SC_S"),
    ScancodeMapping(23, "SC_T"), ScancodeMapping(24, "SC_U"), ScancodeMapping(25, "SC_V"),
    ScancodeMapping(26, "SC_W"), ScancodeMapping(27, "SC_X"), ScancodeMapping(28, "SC_Y"),
    ScancodeMapping(29, "SC_Z")
  ]

  const PUNCTUATION: seq<ScancodeMapping> := [
    ScancodeMapping(45, "SC_MINUS"), ScancodeMapping(46, "SC_EQUALS"),
    ScancodeMapping(47, "SC_LEFTBRACKET"), ScancodeMapping(48, "SC_RIGHTBRACKET"),
    ScancodeMapping(49, "SC_BACKSLASH"), ScancodeMapping(50, "SC_NONUSHASH"),
    ScancodeMapping(51, "SC_SEMICOLON"), ScancodeMapping(52, "SC_APOSTROPHE"),
    ScancodeMapping(53, "SC_GRAVE"), ScancodeMapping(54, "SC_COMMA"),
    ScancodeMapping(55, "SC_PERIOD"), ScancodeMapping(56, "SC_SLASH")
  ]

  const NON_US_AND_INTERNATIONAL: seq<ScancodeMapping> := [
    ScancodeMapping(100, "SC_NONUSBACKSLASH"), ScancodeMapping(135, "SC_INTERNATIONAL1"),
    ScancodeMapping(136, "SC_INTERNATIONAL2"), ScancodeMapping(137, "SC_INTERNATIONAL3"),
    ScancodeMapping(138, "SC_INTERNATIONAL4"), ScancodeMapping(139, "SC_INTERNATIONAL5"),
    ScancodeMapping(140, "SC_INTERNATIONAL6"), ScancodeMapping(141, "SC_INTERNATIONAL7"),
    ScancodeMapping(142, "SC_INTERNATIONAL8"), ScancodeMapping(143, "SC_INTERNATIONAL9"),
    ScancodeMapping(178, "SC_THOUSANDSSEPARATOR"), ScancodeMapping(179, "SC_DECIMALSEPARATOR"),
    ScancodeMapping(180, "SC_CURRENCYUNIT"), ScancodeMapping(181, "SC_CURRENCYSUBUNIT")
  ]

  /** scancodemappings: entry i belongs to key number K_FIRST_SCANCODE + i. */
  const SCANCODE_MAPPINGS: seq<ScancodeMapping> :=
    LETTERS_A_TO_M + LETTERS_N_TO_Z + PUNCTUATION + NON_US_AND_INTERNATIONAL

  /** K_NUM_SCANCODES; Sys_InitInput asserts that it is the size of the table. */
  const K_NUM_SCANCODES := |SCANCODE_MAPPINGS|

  /** Sys_GetScancodeName: the table name of a scancode key number, NULL for any other key. */
  function GetScancodeName(key: KeyNum): (r: Option<string>)
    ensures r.Some? <==> key.Sc? && 0 <= key.index < K_NUM_SCANCODES
  {
    if key.Sc? && 0 <= key.index < K_NUM_SCANCODES then Some(SCANCODE_MAPPINGS[key.index].name) else None
  }

  /** The first table index at or after `from` whose name matches `name` case-insensitively. */
  function FindName(table: seq<ScancodeMapping>, name: string, from: nat): (r: Option<nat>)
    requires from <= |table|
    ensures r.Some? ==> from <= r.value < |table| && IEquals(name, table[r.value].name)
    ensures r.Some? ==> forall j :: from <= j < r.value ==> !IEquals(name, table[j].name)
    ensures r.None? ==> forall j :: from <= j < |table| ==> !IEquals(name, table[j].name)
    decreases |table| - from
  {
    if from == |table| then None
    else if IEquals(name, table[from].name) then Some(from)
    else FindName(table, name, from + 1)
  }

  /** What Sys_GetKeynumForScancodeName returns; None is its -1. */
  function KeynumForScancodeName(name: string): Option<KeyNum>
  {
    match FindName(SCANCODE_MAPPINGS, name, 0)
    case Some(i) => Some(Sc(i))
    case None => None
  }

  /** Sys_GetKeynumForScancodeName: a linear search with idStr::Icmp. */
  method GetKeynumForScancodeName(name: string) returns (r: Option<KeyNum>)
    ensures r == KeynumForScancodeName(name)
  {
    for scIdx := 0 to K_NUM_SCANCODES
      invariant FindName(SCANCODE_MAPPINGS, name, 0) == FindName(SCANCODE_MAPPINGS, name, scIdx)
    {
      if IEquals(name, SCANCODE_MAPPINGS[scIdx].name) {
        return Some(Sc(scIdx));
      }
    }
    return None;
  }

  /** The first table index at or after `from` whose SDL scancode is `sc`. */
  function FindScancode(table: seq<ScancodeMapping>, sc: int, from: nat): (r: Option<nat>)
    requires from <= |table|
    ensures r.Some? ==> from <= r.value < |table| && table[r.value].sdlScancode == sc
    ensures r.Some? ==> forall j :: from <= j < r.value ==> table[j].sdlScancode != sc
    ensures r.None? ==> forall j :: from <= j < |table| ==> table[j].sdlScancode != sc
    decreases |table| - from
  {
    if from == |table| then None
    else if table[from].sdlScancode == sc then Some(from)
    else FindScancode(table, sc, from + 1)
  }

  /** What getKeynumForSDLscancode returns: K_SC_* for a table scancode, 0 otherwise. */
  function ScancodeKeyNum(sc: int): KeyNum
  {
    match FindScancode(SCANCODE_MAPPINGS, sc, 0)
    case Some(i) => Sc(i)
    case None => NoKey
  }

  /** getKeynumForSDLscancode: a linear search over the table. */
  method GetKeynumForSdlScancode(sc: int) returns (r: KeyNum)
    ensures r == ScancodeKeyNum(sc)
  {
    for scIdx := 0 to K_NUM_SCANCODES
      invariant FindScancode(SCANCODE_MAPPINGS, sc, 0) == FindScancode(SCANCODE_MAPPINGS, sc, scIdx)
    {
      if SCANCODE_MAPPINGS[scIdx].sdlScancode == sc {
        return Sc(scIdx);
      }
    }
    return NoKey;
  }

  // Distinctness of the table. Each entry is told apart by a signature that
  // case folding cannot change: the name's length, its fourth and last
  // characters folded, and the scancode. The signature is decoded back to the
  // index, which makes both columns of the table injective.

  ghost function Folded(c: char): int { ToLower(c) as int }

  /** The table index an entry's name decodes to. */
  ghost function NameIndex(n: string): int
  {
    if |n| < 4 then -1
    else
      var len, c, last := |n|, Folded(n[3]), Folded(n[|n| - 1]);
      if len == 4 then c - 'a' as int
      else if len == 8 then (if c == 'm' as int then 26 else if c == 'g' as int then 34 else if c == 'c' as int then 35 else 37)
      else if len == 9 then (if c == 'e' as int then 27 else 36)
      else if len == 12 then (if c == 'b' as int then 30 else if c == 'n' as int then 31 else 32)
      else if len == 13 then 33
      else if len == 14 then 28
      else if len == 15 then (if c == 'r' as int then 29 else 50)
      else if len == 17 then (if c == 'n' as int then 38 else 39 + (last - '1' as int))
      else if len == 18 then 51
      else if len == 19 then 49
      else 48
  }

  /** The table index an SDL scancode decodes to. */
  ghost function ScancodeIndex(sc: int): int
  {
    if sc <= 29 then sc - 4
    else if sc <= 56 then sc - 19
    else if sc == 100 then 38
    else if sc <= 143 then sc - 96
    else sc - 130
  }

  lemma LettersAToMDecode(i: nat)
    requires i < |LETTERS_A_TO_M|
    ensures NameIndex(LETTERS_A_TO_M[i].name) == i
    ensures ScancodeIndex(LETTERS_A_TO_M[i].sdlScancode) == i
  {
    assert i == 0 || i == 1 || i == 2 || i == 3 || i == 4 || i == 5 || i == 6
        || i == 7 || i == 8 || i == 9 || i == 10 || i == 11 || i == 12;
  }

  lemma LettersNToZDecode(i: nat)
    requires i < |LETTERS_N_TO_Z|
    ensures NameIndex(LETTERS_N_TO_Z[i].name) == i + 13
    ensures ScancodeIndex(LETTERS_N_TO_Z[i].sdlScancode) == i + 13
  {
    assert i == 0 || i == 1 || i == 2 || i == 3 || i == 4 || i == 5 || i == 6
        || i == 7 || i == 8 || i == 9 || i == 10 || i == 11 || i == 12;
  }

  lemma PunctuationDecode(i: nat)
    requires i < |PUNCTUATION|
    ensures NameIndex(PUNCTUATION[i].name) == i + 26
    ensures ScancodeIndex(PUNCTUATION[i].sdlScancode) == i + 26
  {
    assert i == 0 || i == 1 || i == 2 || i == 3 || i == 4 || i == 5
        || i == 6 || i == 7 || i == 8 || i == 9 || i == 10 || i == 11;
  }

  lemma NonUsAndInternationalDecode(i: nat)
    requires i < |NON_US_AND_INTERNATIONAL|
    ensures NameIndex(NON_US_AND_INTERNATIONAL[i].name) == i + 38
    ensures ScancodeIndex(NON_US_AND_INTERNATIONAL[i].sdlScancode) == i + 38
  {
    if i < 7 {
      NonUsAndInternationalDecodeFirst(i);
    } else {
      NonUsAndInternationalDecodeLast(i);
    }
  }

  lemma NonUsAndInternationalDecodeFirst(i: nat)
    requires i < 7
    ensures NameIndex(NON_US_AND_INTERNATIONAL[i].name) == i + 38
    ensures ScancodeIndex(NON_US_AND_INTERNATIONAL[i].sdlScancode) == i + 38
  {
    assert i == 0 || i == 1 || i == 2 || i == 3 || i == 4 || i == 5 || i == 6;
  }

  lemma NonUsAndInternationalDecodeLast(i: nat)
    requires 7 <= i < |NON_US_AND_INTERNATIONAL|
    ensures NameIndex(NON_US_AND_INTERNATIONAL[i].name) == i + 38
    ensures ScancodeIndex(NON_US_AND_INTERNATIONAL[i].sdlScancode) == i + 38
  {
    assert i == 7 || i == 8 || i == 9 || i == 10 || i == 11 || i == 12 || i == 13;
  }

  lemma TableDecode(i: nat)
    requires i < K_NUM_SCANCODES
    ensures NameIndex(SCANCODE_MAPPINGS[i].name) == i
    ensures ScancodeIndex(SCANCODE_MAPPINGS[i].sdlScancode) == i
  {
    if i < 13 {
      LettersAToMDecode(i);
    } else if i < 26 {
      LettersNToZDecode(i - 13);
    } else if i < 38 {
      PunctuationDecode(i - 26);
    } else {
      NonUsAndInternationalDecode(i - 38);
    }
  }

  lemma NameIndexIgnoresCase(a: string, b: string)
    requires IEquals(a, b)
    ensures NameIndex(a) == NameIndex(b)
  {
    if |a| >= 4 {
      assert Folded(a[3]) == Folded(b[3]);
      assert Folded(a[|a| - 1]) == Folded(b[|b| - 1]);
    }
  }

  /** No two table names are equal under idStr::Icmp. */
  lemma ScancodeNamesDistinct(i: nat, j: nat)
    requires i < K_NUM_SCANCODES && j < K_NUM_SCANCODES
    requires IEquals(SCANCODE_MAPPINGS[i].name, SCANCODE_MAPPINGS[j].name)
    ensures i == j
  {
    NameIndexIgnoresCase(SCANCODE_MAPPINGS[i].name, SCANCODE_MAPPINGS[j].name);
    TableDecode(i);
    TableDecode(j);
  }

  /** No SDL scancode appears twice in the table. */
  lemma ScancodesDistinct(i: nat, j: nat)
    requires i < K_NUM_SCANCODES && j < K_NUM_SCANCODES
    requires SCANCODE_MAPPINGS[i].sdlScancode == SCANCODE_MAPPINGS[j].sdlScancode
    ensures i == j
  {
    TableDecode(i);
    TableDecode(j);
  }

  /** Sys_GetKeynumForScancodeName(Sys_GetScancodeName(k)) == k for every scancode key. */
  lemma ScancodeNameRoundTrip(key: KeyNum)
    requires GetScancodeName(key).Some?
    ensures KeynumForScancodeName(GetScancodeName(key).value) == Some(key)
  {
    var name := SCANCODE_MAPPINGS[key.index].name;
    var found := FindName(SCANCODE_MAPPINGS, name, 0);
    assert found.Some? by {
      assert IEquals(name, SCANCODE_MAPPINGS[key.index].name);
    }
    ScancodeNamesDistinct(key.index, found.value);
  }

  /** The name lookup only sees names up to case: "sc_a" finds K_SC_A like "SC_A". */
  lemma {:induction false} FindNameIgnoresCase(table: seq<ScancodeMapping>, a: string, b: string, from: nat)
    requires IEquals(a, b) && from <= |table|
    ensures FindName(table, a, from) == FindName(table, b, from)
    decreases |table| - from
  {
    if from < |table| {
      var entry := table[from].name;
      assert IEquals(a, entry) <==> IEquals(b, entry);
      FindNameIgnoresCase(table, a, b, from + 1);
    }
  }

  lemma KeynumForScancodeNameIgnoresCase(a: string, b: string)
    requires IEquals(a, b)
    ensures KeynumForScancodeName(a) == KeynumForScancodeName(b)
  {
    FindNameIgnoresCase(SCANCODE_MAPPINGS, a, b, 0);
  }

  /** A name no table entry matches gives -1 (None). */
  lemma KeynumForUnknownName(name: string)
    requires forall j :: 0 <= j < K_NUM_SCANCODES ==> !IEquals(name, SCANCODE_MAPPINGS[j].name)
    ensures KeynumForScancodeName(name) == None
  {
  }

  /** getKeynumForSDLscancode(scancodemappings[i].sdlScancode) == K_FIRST_SCANCODE + i. */
  lemma ScancodeRoundTrip(i: nat)
    requires i < K_NUM_SCANCODES
    ensures ScancodeKeyNum(SCANCODE_MAPPINGS[i].sdlScancode) == Sc(i)
    ensures GetScancodeName(ScancodeKeyNum(SCANCODE_MAPPINGS[i].sdlScancode)) == Some(SCANCODE_MAPPINGS[i].name)
  {
    var found := FindScancode(SCANCODE_MAPPINGS, SCANCODE_MAPPINGS[i].sdlScancode, 0);
    ScancodesDistinct(i, found.value);
  }

  /** A scancode outside the table gives 0. */
  lemma ScancodeOutsideTable(sc: int)
    requires forall j :: 0 <= j < K_NUM_SCANCODES ==> SCANCODE_MAPPINGS[j].sdlScancode != sc
    ensures ScancodeKeyNum(sc) == NoKey
  {
  }

  // ------------------------------------------------ keyboard-event overrides

  /**
   * The key number Sys_GetEvent gives an SDL2 key event: the number row by
   * scancode whatever the layout, otherwise mapkey; the grave scancode is the
   * console key unless in_ignoreConsoleKey is set; a key still unmapped falls
   * back to the scancode table. NoKey means the event is dropped.
   */
  function KeyForKeyEvent(sym: Keycode, sc: int, ignoreConsoleKey: bool): (r: KeyNum)
    ensures sc == SCANCODE_0 ==> r == Byte('0' as int)
    ensures SCANCODE_1 <= sc <= SCANCODE_9 ==> r == Byte('1' as int + (sc - SCANCODE_1))
    ensures !ignoreConsoleKey && sc == SCANCODE_GRAVE ==> r == K(Console)
    ensures r == NoKey <==>
      (!(SCANCODE_1 <= sc <= SCANCODE_0) && !(!ignoreConsoleKey && sc == SCANCODE_GRAVE)
       && MapKey(sym) == NoKey && FindScancode(SCANCODE_MAPPINGS, sc, 0).None?)
  {
    var key :=
      if sc == SCANCODE_0 then Byte('0' as int)
      else if SCANCODE_1 <= sc <= SCANCODE_9 then Byte('1' as int + (sc - SCANCODE_1))
      else MapKey(sym);
    var key := if !ignoreConsoleKey && sc == SCANCODE_GRAVE then K(Console) else key;
    if key == NoKey then ScancodeKeyNum(sc) else key
  }

  /** The number row and the console key do not depend on the keyboard layout. */
  lemma KeyForKeyEventIgnoresLayout(sym1: Keycode, sym2: Keycode, sc: int, ignoreConsoleKey: bool)
    requires SCANCODE_1 <= sc <= SCANCODE_0 || (!ignoreConsoleKey && sc == SCANCODE_GRAVE)
    ensures KeyForKeyEvent(sym1, sc, ignoreConsoleKey) == KeyForKeyEvent(sym2, sc, ignoreConsoleKey)
  {
  }
}
