/**
 * The console key per keyboard layout (neo/sys/events.cpp): the
 * consoleKeyMappings table, initConsoleKeyMapping and Sys_GetConsoleKey.
 * The cvars in_kbd and in_ignoreConsoleKey are fields here; the keycode SDL
 * reports for the grave scancode (SDL_GetKeyFromScancode) is a parameter.
 */
module ConsoleKey {
  import opened IdStr

  datatype ConsoleKeyMapping = ConsoleKeyMapping(langName: string, key: int, keyShifted: int)

  /** consoleKeyMappings as initialised; the key of entry 0 ("auto") is rewritten at run time. */
  const CONSOLE_KEY_MAPPINGS: seq<ConsoleKeyMapping> := [
    ConsoleKeyMapping("auto", 0, 0),
    ConsoleKeyMapping("english", '`' as int, '~' as int),
    ConsoleKeyMapping("french", '<' as int, '>' as int),
    ConsoleKeyMapping("german", '^' as int, 176),
    ConsoleKeyMapping("italian", '\\' as int, '|' as int),
    ConsoleKeyMapping("spanish", 186, 170),
    ConsoleKeyMapping("turkish", '"' as int, 233),
    ConsoleKeyMapping("norwegian", 124, 167),
    ConsoleKeyMapping("brazilian", '\'' as int, '"' as int)
  ]

  /** The mapping state initConsoleKeyMapping derives: the index and the key of entry 0. */
  datatype Mapping = Mapping(idx: nat, autoKey: int)

  /** The first entry at or after `from` (never entry 0) whose unshifted key is `keycode`; 0 if none. */
  function FindKey(keycode: int, from: nat): (r: nat)
    requires 1 <= from <= |CONSOLE_KEY_MAPPINGS|
    ensures r != 0 ==> from <= r < |CONSOLE_KEY_MAPPINGS| && CONSOLE_KEY_MAPPINGS[r].key == keycode
    ensures r != 0 ==> forall j :: from <= j < r ==> CONSOLE_KEY_MAPPINGS[j].key != keycode
    ensures r == 0 ==> forall j :: from <= j < |CONSOLE_KEY_MAPPINGS| ==> CONSOLE_KEY_MAPPINGS[j].key != keycode
    decreases |CONSOLE_KEY_MAPPINGS| - from
  {
    if from == |CONSOLE_KEY_MAPPINGS| then 0
    else if CONSOLE_KEY_MAPPINGS[from].key == keycode then from
    else FindKey(keycode, from + 1)
  }

  /** The first entry at or after `from` (never entry 0) whose language name matches `lang` up to case; 0 if none. */
  function FindLang(lang: string, from: nat): (r: nat)
    requires 1 <= from <= |CONSOLE_KEY_MAPPINGS|
    ensures r != 0 ==> from <= r < |CONSOLE_KEY_MAPPINGS| && IEquals(lang, CONSOLE_KEY_MAPPINGS[r].langName)
    ensures r != 0 ==> forall j :: from <= j < r ==> !IEquals(lang, CONSOLE_KEY_MAPPINGS[j].langName)
    ensures r == 0 ==> forall j :: from <= j < |CONSOLE_KEY_MAPPINGS| ==> !IEquals(lang, CONSOLE_KEY_MAPPINGS[j].langName)
    decreases |CONSOLE_KEY_MAPPINGS| - from
  {
    if from == |CONSOLE_KEY_MAPPINGS| then 0
    else if IEquals(lang, CONSOLE_KEY_MAPPINGS[from].langName) then from
    else FindLang(lang, from + 1)
  }

  /** An empty in_kbd or "auto" in any case asks for auto-detection. */
  predicate IsAuto(lang: string)
  {
    |lang| == 0 || IEquals(lang, "auto")
  }

  /** What initConsoleKeyMapping leaves behind for layout `lang`. */
  function InitMapping(lang: string, graveKeycode: int): Mapping
  {
    if IsAuto(lang) then
      if 0 < graveKeycode <= 0xFF then
        var i := FindKey(graveKeycode, 1);
        Mapping(i, if i == 0 then graveKeycode else 0)
      else Mapping(0, 0)
    else Mapping(FindLang(lang, 1), 0)
  }

  /** consoleKeyMappings[idx] as it stands, with entry 0's key rewritten. */
  function CurrentEntry(m: Mapping): ConsoleKeyMapping
    requires m.idx < |CONSOLE_KEY_MAPPINGS|
  {
    if m.idx == 0 then ConsoleKeyMapping("auto", m.autoKey, 0) else CONSOLE_KEY_MAPPINGS[m.idx]
  }

  function ConsoleKeyOf(m: Mapping, shifted: bool): int
    requires m.idx < |CONSOLE_KEY_MAPPINGS|
  {
    var e := CurrentEntry(m);
    if shifted then e.keyShifted else e.key
  }

  /**
   * Auto-detection: whenever SDL reports a keycode 1..255 for the grave
   * scancode, the unshifted console key becomes exactly that keycode, either
   * through the first table entry with that key or through entry 0.
   */
  lemma AutoDetectedConsoleKey(lang: string, graveKeycode: int)
    requires IsAuto(lang) && 0 < graveKeycode <= 0xFF
    ensures InitMapping(lang, graveKeycode).idx < |CONSOLE_KEY_MAPPINGS|
    ensures ConsoleKeyOf(InitMapping(lang, graveKeycode), false) == graveKeycode
    ensures InitMapping(lang, graveKeycode).idx == 0 <==>
      forall j :: 1 <= j < |CONSOLE_KEY_MAPPINGS| ==> CONSOLE_KEY_MAPPINGS[j].key != graveKeycode
  {
  }

  /** Auto-detection with a keycode outside 1..255 falls back to entry 0 with key 0. */
  lemma AutoDetectionOutOfRange(lang: string, graveKeycode: int)
    requires IsAuto(lang) && !(0 < graveKeycode <= 0xFF)
    ensures InitMapping(lang, graveKeycode) == Mapping(0, 0)
    ensures ConsoleKeyOf(InitMapping(lang, graveKeycode), false) == 0
    ensures ConsoleKeyOf(InitMapping(lang, graveKeycode), true) == 0
  {
  }

  // Distinctness of the language names: their first letters, folded, differ.

  ghost function LangIndex(name: string): int
  {
    if |name| == 0 then -1
    else
      var c := ToLower(name[0]);
      if c == 'a' then 0 else if c == 'e' then 1 else if c == 'f' then 2
      else if c == 'g' then 3 else if c == 'i' then 4 else if c == 's' then 5
      else if c == 't' then 6 else if c == 'n' then 7 else 8
  }

  lemma LangIndexDecodes(i: nat)
    requires i < |CONSOLE_KEY_MAPPINGS|
    ensures LangIndex(CONSOLE_KEY_MAPPINGS[i].langName) == i
  {
    assert i == 0 || i == 1 || i == 2 || i == 3 || i == 4 || i == 5 || i == 6 || i == 7 || i == 8;
  }

  lemma LangNamesDistinct(i: nat, j: nat, lang: string)
    requires i < |CONSOLE_KEY_MAPPINGS| && j < |CONSOLE_KEY_MAPPINGS|
    requires IEquals(lang, CONSOLE_KEY_MAPPINGS[i].langName) && IEquals(lang, CONSOLE_KEY_MAPPINGS[j].langName)
    ensures i == j
  {
    LangIndexDecodes(i);
    LangIndexDecodes(j);
    assert ToLower(CONSOLE_KEY_MAPPINGS[i].langName[0]) == ToLower(lang[0]) == ToLower(CONSOLE_KEY_MAPPINGS[j].langName[0]);
  }

  /**
   * Naming a layout in any case selects that layout's entry, and the console
   * key is that entry's key or shifted key.
   */
  lemma NamedLayoutSelectsEntry(lang: string, i: nat, graveKeycode: int, shifted: bool)
    requires 1 <= i < |CONSOLE_KEY_MAPPINGS| && IEquals(lang, CONSOLE_KEY_MAPPINGS[i].langName)
    ensures InitMapping(lang, graveKeycode) == Mapping(i, 0)
    ensures ConsoleKeyOf(InitMapping(lang, graveKeycode), shifted)
         == if shifted then CONSOLE_KEY_MAPPINGS[i].keyShifted else CONSOLE_KEY_MAPPINGS[i].key
  {
    assert !IsAuto(lang) by {
      if IsAuto(lang) {
        LangIndexDecodes(0);
        LangNamesDistinct(0, i, lang);
      }
    }
    var found := FindLang(lang, 1);
    if found != 0 && found != i {
      LangNamesDistinct(found, i, lang);
    }
  }

  /** A layout name that matches no entry leaves index 0 with key 0: no console key. */
  lemma UnknownLayoutHasNoConsoleKey(lang: string, graveKeycode: int, shifted: bool)
    requires !IsAuto(lang)
    requires forall j :: 1 <= j < |CONSOLE_KEY_MAPPINGS| ==> !IEquals(lang, CONSOLE_KEY_MAPPINGS[j].langName)
    ensures ConsoleKeyOf(InitMapping(lang, graveKeycode), shifted) == 0
  {
  }

  /** The console-key state of the input code and the two cvars it reads. */
  class ConsoleKeys {
    var autoKey: int            // consoleKeyMappings[0].key
    var mappingIdx: nat         // consoleKeyMappingIdx
    var kbd: string             // in_kbd
    var kbdModified: bool       // in_kbd.IsModified()
    var ignoreConsoleKey: bool  // in_ignoreConsoleKey

    ghost predicate Valid()
      reads this
    {
      mappingIdx < |CONSOLE_KEY_MAPPINGS|
    }

    /** The state at start-up: in_kbd defaults to "auto" and a new cvar counts as modified. */
    constructor ()
      ensures Valid()
      ensures autoKey == 0 && mappingIdx == 0
      ensures kbd == "auto" && kbdModified && !ignoreConsoleKey
    {
      autoKey := 0;
      mappingIdx := 0;
      kbd := "auto";
      kbdModified := true;
      ignoreConsoleKey := false;
    }

    /** Setting in_kbd to a different value marks it modified. */
    method SetKbd(lang: string)
      modifies this`kbd, this`kbdModified
      ensures kbd == lang
      ensures kbdModified == (old(kbdModified) || lang != old(kbd))
    {
      if lang != kbd {
        kbd := lang;
        kbdModified := true;
      }
    }

    /** initConsoleKeyMapping: two bounded searches over the table. */
    method InitConsoleKeyMapping(graveKeycode: int)
      modifies this`mappingIdx, this`autoKey
      ensures Valid()
      ensures Mapping(mappingIdx, autoKey) == InitMapping(kbd, graveKeycode)
    {
      var numMappings := |CONSOLE_KEY_MAPPINGS|;
      mappingIdx := 0;
      autoKey := 0;
      if |kbd| == 0 || IEquals(kbd, "auto") {
        var keycode := graveKeycode;
        if 0 < keycode <= 0xFF {
          var i := 1;
          while i < numMappings
            invariant 1 <= i <= numMappings
            invariant mappingIdx == 0 && autoKey == 0
            invariant FindKey(keycode, 1) == FindKey(keycode, i)
          {
            if CONSOLE_KEY_MAPPINGS[i].key == keycode {
              mappingIdx := i;
              break;
            }
            i := i + 1;
          }
          if mappingIdx == 0 {
            autoKey := keycode;
          }
        }
      } else {
        var i := 1;
        while i < numMappings
          invariant 1 <= i <= numMappings
          invariant mappingIdx == 0 && autoKey == 0
          invariant FindLang(kbd, 1) == FindLang(kbd, i)
        {
          if IEquals(kbd, CONSOLE_KEY_MAPPINGS[i].langName) {
            mappingIdx := i;
            break;
          }
          i := i + 1;
        }
      }
    }

    /**
     * Sys_GetConsoleKey: 0 while in_ignoreConsoleKey is set; otherwise the
     * mapping is re-derived only if in_kbd was modified, and the result is
     * the current entry's key or shifted key.
     */
    method GetConsoleKey(shifted: bool, graveKeycode: int) returns (key: int)
      requires Valid()
      modifies this`mappingIdx, this`autoKey, this`kbdModified
      ensures Valid()
      ensures old(ignoreConsoleKey) ==> key == 0 && unchanged(this)
      ensures !old(ignoreConsoleKey) && old(kbdModified) ==>
        Mapping(mappingIdx, autoKey) == InitMapping(kbd, graveKeycode) && !kbdModified
      ensures !old(ignoreConsoleKey) && !old(kbdModified) ==> unchanged(this)
      ensures !old(ignoreConsoleKey) ==> key == ConsoleKeyOf(Mapping(mappingIdx, autoKey), shifted)
    {
      if ignoreConsoleKey {
        return 0;
      }
      if kbdModified {
        InitConsoleKeyMapping(graveKeycode);
        kbdModified := false;
      }
      key := ConsoleKeyOf(Mapping(mappingIdx, autoKey), shifted);
    }
  }
}
