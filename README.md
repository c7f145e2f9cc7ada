# dhewm3 (Sailfish OS port): input, window set-up and launcher logic in Dafny

This project models the sequential, integer-and-string logic of five files of
the dhewm3 Doom 3 engine as ported to Sailfish OS, and proves what that logic
promises.

- **`neo/sys/events.cpp`** (files `keys.dfy`, `console_key.dfy`, `events.dfy`).
  - Key translation: `mapkey`, the number-row and console-key scancode
    overrides of `Sys_GetEvent`, and the `scancodemappings` table looked up by
    name and by SDL scancode.
  - The per-language console key table behind `Sys_GetConsoleKey`.
  - `Sys_GetEvent` as a state machine over SDL's event queue, which is a
    sequence. It has the static text buffer `s`/`s_pos`, the pending
    character `c` and the draining loop.
  - `Sys_joypadEvent`, with its dead zone, trigger latches, buttons and
    device opening.
  - The four poll queues, `Sys_ClearEvents` and the `handleMouseGrab`
    policy.
  - The abstract specification is the function `GetEventSpec` on a value
    `InputState`. The class `EventSystem` keeps the same state in fields and
    arrays, and its `GetEvent` is proved to compute `GetEventSpec`.
- **`neo/sys/linux/launcher/launcher.cpp`** (`launcher.dfy`).
  - The name-keyed settings list with its `set_setting_*` upserts and
    `SettingsValue::last_uid`.
  - `default_settings` and the count-prefixed save file (`save_settings`
    and `load_settings`).
  - The filtering of the launcher's own command line around `fs_basepath`.
  - The engine arguments built from the settings when the launcher closes.
- **`neo/sys/glimp.cpp`** (`glimp.dfy`).
  - The sixteen-attempt colour/depth/stencil reduction of `GLimp_Init`,
    including the `case 1` fall-through.
  - The MSAA retry and its termination.
  - The display pick, the framebuffer-size override and `GLimp_GrabInput`.
- **`neo/renderer/framebuffer.cpp`** (`framebuffer.dfy`). `fixNpot` and
  the skip-or-pad decision of `R_InitFrameBuffer`. Also the early returns of
  `R_FrameBufferStart` and `R_FrameBufferEnd`.
- **`neo/sys/linux/main.cpp`** (`linux_main.dfy`).
  - The RAM rounding of `Sys_GetSystemRam`.
  - The XDG configuration and save paths.
  - The `PATH_CONFIG`, `PATH_SAVE` and `PATH_EXE` branches of
    `Sys_GetPath`.
  - The `fs_basepath` handling of `main`'s start-up launcher.

Some of what the code reads comes from outside it: SDL's answers, the
environment, `sysconf`, the files the launcher opens, and the results of
floating-point scaling. All of these are parameters of the model.

- `K_*` engine keys and `SDLK_*` symbols are distinct abstract constructors,
  because `framework/KeyInput.h` is not part of this model.
- SDL scancodes are their USB HID usage numbers.
- A C string pointer is an `Option<string>`, with `None` for `NULL`.
- `wrappers.dfy` holds the `Option` type.
- `idstr.dfy` holds `idStr::Icmp` equality (ASCII case folding).

## Model

| member | source | states |
|---|---|---|
| Keys.MapCharForKey | neo/sys/events.cpp:914-916 | `key & 0xff` is a byte congruent to the key modulo 256 |
| Keys.MapCharForKeyOfByte | neo/sys/events.cpp:914-916 | a byte maps to itself, and mapkey's low byte gives the same character as the full code |
| Keys.MapKey | neo/sys/events.cpp:393-559 | backspace gives K_BACKSPACE and pause gives K_PAUSE (both iff); every other symbol up to SDLK_z gives its own low byte; delete gives K_DEL; any other character symbol above SDLK_z gives 0; a named symbol gives an engine key iff the second switch lists it, so an unlisted one or a function key outside F1-F15 gives 0; no symbol gives a scancode key |
| Keys.NamedSymbolsRecoverable | neo/sys/events.cpp:404-558 | every named symbol mapkey maps comes back from its engine key, except SDLK_MODE, which shares K_RIGHT_ALT with SDLK_RALT |
| Keys.NamedKeyNumRecoverable | neo/sys/events.cpp:404-558 | the second switch of mapkey is injective apart from SDLK_MODE |
| Keys.KeypadRecoverable | neo/sys/events.cpp:487-524 | each keypad symbol maps to a distinct K_KP_* key from which it is recovered |
| Keys.KeypadLowDigitRecoverable | neo/sys/events.cpp:487-508 | keypad 0 to 4 are recovered from their engine keys |
| Keys.KeypadHighDigitRecoverable | neo/sys/events.cpp:487-498 | keypad 5 to 9 are recovered from their engine keys |
| Keys.KeypadOperatorRecoverable | neo/sys/events.cpp:505-516 | keypad enter, period, divide and minus are recovered from their engine keys |
| Keys.KeypadOtherRecoverable | neo/sys/events.cpp:517-524 | keypad plus, multiply, equals and num-lock are recovered from their engine keys |
| Keys.OtherNamedRecoverable | neo/sys/events.cpp:404-484 | the non-keypad, non-function named symbols are recovered from their engine keys (SDLK_MODE aside) |
| Keys.GetScancodeName | neo/sys/events.cpp:276-282 | a name is returned iff the key lies in the K_SC_* range; NULL otherwise |
| Keys.FindName | neo/sys/events.cpp:372-379 | finds the first table entry whose name equals the argument up to case, or reports that none does |
| Keys.GetKeynumForScancodeName | neo/sys/events.cpp:372-379 | the loop computes the specification KeynumForScancodeName |
| Keys.FindScancode | neo/sys/events.cpp:382-390 | finds the first table entry with the SDL scancode, or reports that none has it |
| Keys.GetKeynumForSdlScancode | neo/sys/events.cpp:382-390 | the loop computes the specification ScancodeKeyNum |
| Keys.LettersAToMDecode | neo/sys/events.cpp:215-227 | entries SC_A to SC_M sit at indices 0 to 12, by name and by scancode |
| Keys.LettersNToZDecode | neo/sys/events.cpp:228-240 | entries SC_N to SC_Z sit at indices 13 to 25 |
| Keys.PunctuationDecode | neo/sys/events.cpp:243-254 | the punctuation entries sit at indices 26 to 37 |
| Keys.NonUsAndInternationalDecode | neo/sys/events.cpp:256-271 | the remaining entries sit at indices 38 on |
| Keys.NonUsAndInternationalDecodeFirst | neo/sys/events.cpp:256-262 | the first seven of them decode to their indices |
| Keys.NonUsAndInternationalDecodeLast | neo/sys/events.cpp:263-271 | the rest decode to their indices |
| Keys.TableDecode | neo/sys/events.cpp:206-272 | every table entry's name and scancode identify its index |
| Keys.NameIndexIgnoresCase | neo/sys/events.cpp:372-379 | names equal up to case identify the same entry |
| Keys.ScancodeNamesDistinct | neo/sys/events.cpp:206-272 | no two table names are equal under idStr::Icmp |
| Keys.ScancodesDistinct | neo/sys/events.cpp:206-272 | no SDL scancode appears twice in the table |
| Keys.ScancodeNameRoundTrip | neo/sys/events.cpp:276-379 | looking up the name of a scancode key gives that key back |
| Keys.FindNameIgnoresCase | neo/sys/events.cpp:372-379 | the name search gives the same answer for names equal up to case |
| Keys.KeynumForScancodeNameIgnoresCase | neo/sys/events.cpp:372-379 | Sys_GetKeynumForScancodeName does not depend on letter case |
| Keys.KeynumForUnknownName | neo/sys/events.cpp:372-379 | a name matching no entry gives -1 |
| Keys.ScancodeRoundTrip | neo/sys/events.cpp:382-390 | the scancode of entry i gives K_FIRST_SCANCODE + i, whose name is entry i's |
| Keys.ScancodeOutsideTable | neo/sys/events.cpp:382-390 | a scancode not in the table gives 0 |
| Keys.KeyForKeyEvent | neo/sys/events.cpp:1088-1124 | the number-row scancodes give '0' to '9' whatever the symbol; the grave scancode gives K_CONSOLE unless in_ignoreConsoleKey; the key is dropped iff no override applies and both mapkey and the scancode table give 0 |
| Keys.KeyForKeyEventIgnoresLayout | neo/sys/events.cpp:1092-1112 | for the number row and the console key, the keyboard layout (the symbol) does not matter |
| ConsoleKey.FindKey | neo/sys/events.cpp:860-866 | finds the first entry from 1 on with the given unshifted key, or 0 if none has it |
| ConsoleKey.FindLang | neo/sys/events.cpp:874-886 | finds the first entry from 1 on whose language matches up to case, or 0 |
| ConsoleKey.AutoDetectedConsoleKey | neo/sys/events.cpp:853-870 | with "auto" or an empty in_kbd and a keycode 1..255, the console key becomes that keycode; entry 0 is used iff no entry has it |
| ConsoleKey.AutoDetectionOutOfRange | neo/sys/events.cpp:853-870 | a keycode outside 1..255 leaves entry 0 with key 0, shifted or not |
| ConsoleKey.LangIndexDecodes | neo/sys/events.cpp:831-843 | each language name identifies its entry |
| ConsoleKey.LangNamesDistinct | neo/sys/events.cpp:831-843 | no name matches two entries up to case |
| ConsoleKey.NamedLayoutSelectsEntry | neo/sys/events.cpp:874-907 | naming a layout in any case selects its entry, and the console key is that entry's key or shifted key |
| ConsoleKey.UnknownLayoutHasNoConsoleKey | neo/sys/events.cpp:846-888 | an unknown layout name leaves entry 0 with key 0: no console key |
| ConsoleKey.ConsoleKeys.constructor | neo/sys/events.cpp:73-84 | in_kbd starts as "auto" and modified, in_ignoreConsoleKey off, index 0 |
| ConsoleKey.ConsoleKeys.SetKbd | neo/sys/events.cpp:900-903 | stands in for the cvar setter: in_kbd takes the new value and is marked modified when the value changes, which Sys_GetConsoleKey then reads and clears |
| ConsoleKey.ConsoleKeys.InitConsoleKeyMapping | neo/sys/events.cpp:846-888 | the two bounded searches compute the specification InitMapping |
| ConsoleKey.ConsoleKeys.GetConsoleKey | neo/sys/events.cpp:895-907 | 0 with nothing changed while in_ignoreConsoleKey is set; the mapping is re-derived iff in_kbd was modified; the result is the current entry's key or shifted key |
| Events.Zeros | neo/sys/events.cpp:943 | the cleared buffer holds only NULs |
| Events.InitialState | neo/sys/events.cpp:174-182 | the start-up state satisfies the buffer invariant |
| Events.DeadZone | neo/sys/events.cpp:1414-1431 | 0 within the dead zone; outside it the sign is kept and the magnitude shrinks by 8000 |
| Events.HandleKey | neo/sys/events.cpp:1061-1141 | Alt+Enter on key-down returns no event; otherwise the event is skipped, with nothing changed, iff KeyForKeyEvent gives no key, and a mapped key returns KeyEv(key, 1 on press, 0 on release) and appends exactly KbdPoll(key, pressed), keeping a pressed backspace as the pending character |
| Events.HandleText | neo/sys/events.cpp:1144-1167 | a text event keeps the buffer invariant and appends no polls; converted non-ASCII text returns its first character, with s cleared when it is the only one and kept from s_pos 1 otherwise; text that cannot be converted is skipped with s holding what the conversion wrote |
| Events.HandleWheel | neo/sys/events.cpp:1288-1301 | always a key event with value 1: wheel up gives K_MWHEELUP and appends a +1 M_DELTAZ poll, wheel down K_MWHEELDOWN and -1; a zero wheel gives no key and appends nothing |
| Events.HandleButton | neo/sys/events.cpp:1304-1354 | a button at SDL_BUTTON_LEFT + 8 or above is skipped with nothing changed; any other returns K_MOUSE1 + n - 1 with the press flag and appends the matching M_ACTION poll, n being the SDL button with middle and right swapped |
| Events.EngineButton | neo/sys/events.cpp:1312-1344 | SDL middle (2) becomes engine button 3 and right (3) becomes 2, each iff; every other button keeps its number |
| Events.EngineButtonInvolution | neo/sys/events.cpp:1312-1344 | the swap undoes itself, so distinct SDL buttons give distinct engine buttons |
| Events.HandleTrigger | neo/sys/events.cpp:1433-1456 | for either trigger: a key event K_MOUSE<n> with the pressed state and one M_ACTION poll iff the pressed state differs from the latch, nothing otherwise; the latch then holds the pressed state |
| Events.HandleAxis | neo/sys/events.cpp:1406-1461 | the left stick stores and appends one joystick poll, AXIS_FORWARD with the negated scaled value for y and AXIS_SIDE with the scaled value for x; the right stick only stores its look value; the left trigger is K_MOUSE2 and the right K_MOUSE1; other axes change nothing |
| Events.HandleJoypad | neo/sys/events.cpp:1397-1515 | only appends to the queues; a controller button is skipped iff it is outside INVALID..MAX, and otherwise returns K_ESCAPE for START or K_JOY1 + b with the press flag and appends exactly that keyboard poll; a device added is opened only when none is open and SDL returns a handle, and a failed open changes nothing |
| Events.Handle | neo/sys/events.cpp:986-1377 | one pass of the draining loop keeps the invariant, leaves the rest of SDL's queue alone and only appends to the poll queues |
| Events.RightStickPolls | neo/sys/events.cpp:1380-1387 | with a device open, each non-zero right-stick value is appended as a mouse delta, M_DELTAX before M_DELTAY; with none open nothing changes |
| Events.OpenFirstDevice | neo/sys/events.cpp:961-968 | only the device handles change; afterwards a device is open iff one was already, or SDL reports a joystick and returns a handle for it |
| Events.Drain | neo/sys/events.cpp:982-1389 | the draining loop keeps the buffer invariant |
| Events.TakeBufferedChar | neo/sys/events.cpp:946-958 | taking a buffered character keeps the buffer invariant |
| Events.GetEventSpec | neo/sys/events.cpp:937-1390 | Sys_GetEvent keeps the buffer invariant |
| Events.Run | neo/sys/events.cpp:937-1390 | m calls return m events and keep the invariant |
| Events.BufferedTextComesFirst | neo/sys/events.cpp:946-958 | the characters left in s come back one per call, in order, without reading SDL's queue; afterwards s is cleared and s_pos is 0 |
| Events.TakeRunChars | neo/sys/events.cpp:946-958 | taking a buffered run yields its characters in order |
| Events.TakeRunFirst | neo/sys/events.cpp:946-958 | a run starts with the character at s_pos and continues one position further |
| Events.TakeRunClears | neo/sys/events.cpp:950-956 | the last character of a run clears s and resets s_pos |
| Events.RunIsTakeRun | neo/sys/events.cpp:946-958 | while s holds a run, Sys_GetEvent takes only from it |
| Events.BufferedStep | neo/sys/events.cpp:946-958 | one call takes the first character of a run and leaves a shorter run, or the cleared buffer |
| Events.RunFirstStep | neo/sys/events.cpp:946-958 | with text in s, the next call returns a buffered character |
| Events.AsciiTextFirstChar | neo/sys/events.cpp:1144-1154 | an ASCII text event returns its first character and, when more follow, keeps the text in s with s_pos 1 |
| Events.AsciiTextReturnedInOrder | neo/sys/events.cpp:1144-1154 | the k characters of an ASCII text event come back from k successive calls, in order, before any other SDL event is drained |
| Events.BackspaceQueuesChar | neo/sys/events.cpp:1126-1135 | a pressed backspace is a key event now and the character K_BACKSPACE on the next call, with nothing more taken from SDL's queue |
| Events.BackspaceKeyEvent | neo/sys/events.cpp:1126-1141 | the first of those calls leaves the backspace pending |
| Events.PendingCharComesNext | neo/sys/events.cpp:970-979 | a pending character is returned by the next call before SDL's queue is read, and then cleared |
| Events.KeyEventReturned | neo/sys/events.cpp:1061-1141 | a mapped key at the head of SDL's queue is returned by the next call with 1 or 0, with one keyboard poll appended and the event consumed |
| Events.KeyDownUpScenario | neo/sys/events.cpp:1061-1141 | a key pressed then released gives KeyEv(key, 1) then KeyEv(key, 0) over two calls, and the keyboard queue gains exactly those two polls |
| Events.DroppedKeyIsSkipped | neo/sys/events.cpp:1088-1124 | a key that maps to nothing leaves the call exactly as if it had not been queued |
| Events.FailedOpenIsRetried | neo/sys/events.cpp:1496-1505 | a device SDL could not open leaves none open, so the next device added is opened |
| Events.TriggerReportsChanges | neo/sys/events.cpp:1433-1444 | a trigger reports a key event and a mouse poll iff its pressed state differs from the latch; the latch then holds that state, and nothing changes otherwise |
| Events.HeldTriggerPressedOnce | neo/sys/events.cpp:1445-1456 | a trigger held past the dead zone is reported pressed once and then ignored |
| Events.RightStickLooks | neo/sys/events.cpp:1380-1420 | a right-stick event with a device open returns no event: the call ends with the new x look value and the stored y appended as mouse deltas when non-zero, keyboard and joystick queues unchanged |
| Events.DrainExtends | neo/sys/events.cpp:982-1389 | the draining loop only appends to the poll queues and only consumes SDL's queue from the front |
| Events.GetEventExtends | neo/sys/events.cpp:937-1390 | Sys_GetEvent only appends to the poll queues and only consumes SDL's queue from the front |
| Events.NoGrabClearsOnlyGrabFlags | neo/sys/events.cpp:1534-1584 | in_nograb removes GRABMOUSE and RELATIVEMOUSE and changes nothing else, in_relativeMouseMode included |
| Events.GrabMouseCursorFlags | neo/sys/events.cpp:926-930 | grabbing gives the in-game flags and releasing gives the no-focus flags |
| Events.IsAscii | neo/sys/events.cpp:285-294 | the scan is true iff no byte before the NUL exceeds 127 |
| Events.EventSystem.constructor | neo/sys/events.cpp:174-182 | the fields hold the start-up state |
| Events.EventSystem.GetEvent | neo/sys/events.cpp:937-1390 | the method's result and new state are exactly GetEventSpec's |
| Events.EventSystem.NextBufferedChar | neo/sys/events.cpp:946-958 | returns s[s_pos] and advances, clearing s after its last character |
| Events.EventSystem.ClearText | neo/sys/events.cpp:953 | the buffer is all NULs |
| Events.EventSystem.DrainEvents | neo/sys/events.cpp:982-1389 | the loop computes Drain |
| Events.EventSystem.PollRightStick | neo/sys/events.cpp:1380-1387 | a non-zero right-stick deflection is queued as mouse motion while a device is open |
| Events.EventSystem.HandleEvent | neo/sys/events.cpp:986-1377 | one pass computes Handle |
| Events.EventSystem.MouseEvent | neo/sys/events.cpp:1174-1354 | the mouse branches compute Handle, whose wheel and button results HandleWheel and HandleButton state |
| Events.EventSystem.KeyEventKeyNum | neo/sys/events.cpp:1088-1124 | computes KeyForKeyEvent |
| Events.EventSystem.KeyboardEvent | neo/sys/events.cpp:1061-1141 | the key branch computes HandleKey: the returned key event, the one keyboard poll, or a skipped key |
| Events.EventSystem.CopyText | neo/sys/events.cpp:1151 | the buffer holds the copied text |
| Events.EventSystem.TextInputEvent | neo/sys/events.cpp:1144-1167 | the text branch computes HandleText |
| Events.EventSystem.TriggerEvent | neo/sys/events.cpp:1433-1456 | the trigger cases compute HandleTrigger |
| Events.EventSystem.StickEvent | neo/sys/events.cpp:1413-1432 | the stick cases compute HandleJoypad's state |
| Events.EventSystem.ButtonEvent | neo/sys/events.cpp:1462-1474 | the button case computes HandleJoypad: K_ESCAPE for START, K_JOY1 + b otherwise, out-of-range buttons skipped |
| Events.EventSystem.DeviceAdded | neo/sys/events.cpp:1496-1505 | a device is opened only when none is open and SDL returns a handle; otherwise nothing changes, so a later event retries |
| Events.EventSystem.JoypadEvent | neo/sys/events.cpp:1397-1515 | Sys_joypadEvent computes HandleJoypad, button map and device opening included |
| Events.EventSystem.HandleMouseGrab | neo/sys/events.cpp:1534-1584 | the flags and in_relativeMouseMode are those of the GrabPolicy table |
| Events.EventSystem.PollKeyboardInputEvents | neo/sys/events.cpp:1624-1626 | the number of keyboard polls |
| Events.EventSystem.ReturnKeyboardInputEvent | neo/sys/events.cpp:1633-1640 | 1 and the n-th poll for n below the count; 0 with the outputs untouched otherwise |
| Events.EventSystem.EndKeyboardInputEvents | neo/sys/events.cpp:1647-1649 | empties the keyboard queue only |
| Events.EventSystem.PollMouseInputEvents | neo/sys/events.cpp:1707-1709 | the number of mouse polls |
| Events.EventSystem.ReturnMouseInputEvent | neo/sys/events.cpp:1716-1723 | 1 and the n-th poll for n below the count; 0 with the outputs untouched otherwise |
| Events.EventSystem.EndMouseInputEvents | neo/sys/events.cpp:1730-1732 | empties the mouse queue only |
| Events.EventSystem.PollJoystickInputEvents | neo/sys/events.cpp:1656-1658 | the number of joystick polls |
| Events.EventSystem.ReturnJoystickInputEvent | neo/sys/events.cpp:1665-1672 | 1 and the n-th poll for n below the count; 0 with the outputs untouched otherwise |
| Events.EventSystem.EndJoystickInputEvents | neo/sys/events.cpp:1679-1681 | empties the joystick queue only |
| Events.EventSystem.PollImGuiEvents | neo/sys/events.cpp:1684-1686 | the number of imgui polls |
| Events.EventSystem.ReturnImGuiEvent | neo/sys/events.cpp:1688-1695 | 1 and the n-th poll for n below the count; 0 with the outputs untouched otherwise |
| Events.EventSystem.EndImGuiEvents | neo/sys/events.cpp:1697-1699 | empties the imgui queue only |
| Events.EventSystem.ClearEvents | neo/sys/events.cpp:1522-1532 | SDL's queue and all four poll queues are empty |
| Launcher.TypeCode | neo/sys/linux/launcher/launcher.cpp:48-54 | the type codes are 0 to 4, with 0 only for None |
| Launcher.Assign | neo/sys/linux/launcher/launcher.cpp:150-153 | a setter gives the entry the name and typed value; it keeps uid and save, and keeps the description when the new one is empty |
| Launcher.FindIndex | neo/sys/linux/launcher/launcher.cpp:138-140 | find_if gives the first entry with the name, or none iff no entry has it |
| Launcher.UpsertThenLookup | neo/sys/linux/launcher/launcher.cpp:137-223 | after a setter, get_setting finds the entry with the new type and value; an existing entry keeps uid, save flag and (for an empty description) its description; a new one has uid last_uid + 1, save on, and the given description |
| Launcher.FindIndexOfFirst | neo/sys/linux/launcher/launcher.cpp:215-223 | the search returns the first index holding the name |
| Launcher.UpsertKeepsOthers | neo/sys/linux/launcher/launcher.cpp:137-213 | a setter leaves every other name's entry, or its absence, as it was |
| Launcher.UpsertShape | neo/sys/linux/launcher/launcher.cpp:137-213 | a setter appends exactly one entry for a new name and none otherwise; no other entry changes and names stay unique |
| Launcher.UpsertKeepsUidsOrdered | neo/sys/linux/launcher/launcher.cpp:63-86 | each new SettingsValue has a uid above every earlier one, and last_uid never decreases |
| Launcher.ClearSaveThenLookup | neo/sys/linux/launcher/launcher.cpp:683 | get_setting_edit(name)->save = false changes only that entry's save flag |
| Launcher.HalfTruncated | neo/sys/linux/launcher/launcher.cpp:689-693 | the half of n truncated toward zero: rounded down for n >= 0, up for n < 0 |
| Launcher.ApplyDefaultsKeeps | neo/sys/linux/launcher/launcher.cpp:684-726 | setters of other names leave an entry alone |
| Launcher.ApplyDefaultsPresent | neo/sys/linux/launcher/launcher.cpp:684-726 | an entry, once present or set, is present afterwards |
| Launcher.DefaultNamesAreNotFsGame | neo/sys/linux/launcher/launcher.cpp:684-726 | no default after the first sets fs_game |
| Launcher.FsGameUnsavedThrough | neo/sys/linux/launcher/launcher.cpp:682-726 | default_settings leaves fs_game as the empty string, marked not to be saved |
| Launcher.ApplyDefaultsAllPresent | neo/sys/linux/launcher/launcher.cpp:684-726 | every default name is present afterwards |
| Launcher.ReadRecordItems | neo/sys/linux/launcher/launcher.cpp:729-805 | reading a written record gives back its name and typed value and leaves the rest of the file |
| Launcher.ApplyRecordKeepsOthers | neo/sys/linux/launcher/launcher.cpp:772-803 | loading a record of another name changes nothing for this name |
| Launcher.LoadRecordsStep | neo/sys/linux/launcher/launcher.cpp:773-804 | the load loop applies the first saved record first |
| Launcher.LoadedValueStep | neo/sys/linux/launcher/launcher.cpp:772-803 | the expected value of a name is unchanged by applying the first saved record first |
| Launcher.LoadRecordsRoundTrip | neo/sys/linux/launcher/launcher.cpp:729-805 | loading the records of a list of settings gives each name its expected value |
| Launcher.SaveLoadRoundTrip | neo/sys/linux/launcher/launcher.cpp:729-805 | save then load gives each saved name its type and value, except a string whose current entry is not to be saved; names not in the file keep their value |
| Launcher.SaveLoadIdentity | neo/sys/linux/launcher/launcher.cpp:729-805 | loading a store's own save file changes none of its values |
| Launcher.LoadRefusesLargeCount | neo/sys/linux/launcher/launcher.cpp:767-771 | a count above 50 leaves the settings exactly as they were |
| Launcher.SettingsArgsParse | neo/sys/linux/launcher/launcher.cpp:919-939 | read as `+set name value` triples and single words (a stand-in for the engine's own parsing), the generated arguments hold exactly one command per setting, in list order: +set with the value, the name of an enabled option, nothing for a disabled option |
| Launcher.BasepathIndex | neo/sys/linux/launcher/launcher.cpp:410-417 | the index after the first "fs_basepath" at index 1 or later, or -1 iff there is none |
| Launcher.KeptArgs | neo/sys/linux/launcher/launcher.cpp:420-426 | the filter never adds arguments |
| Launcher.Texts | neo/sys/linux/launcher/launcher.cpp:425 | each argument is kept as itself |
| Launcher.KeptArgsOutside | neo/sys/linux/launcher/launcher.cpp:420-426 | without fs_basepath every argument is kept in order |
| Launcher.KeptArgsDropWindow | neo/sys/linux/launcher/launcher.cpp:420-426 | with fs_basepath, exactly the arguments idx - 2 to idx are dropped and the rest are kept in order |
| Launcher.KeptTail | neo/sys/linux/launcher/launcher.cpp:420-426 | arguments from idx - 2 to the end of a short command line are all dropped |
| Launcher.LauncherState.constructor | neo/sys/linux/launcher/launcher.cpp:309-439 | when SDL_Init fails nothing is set up: no arguments, no settings, no_basepath set; otherwise argv is the filtered command line, no_basepath holds iff fs_basepath is absent, and the settings are fs_basepath, then the defaults for the native size (native_landscape iff wider than high), then the save file |
| Launcher.NativeSize | neo/sys/linux/launcher/launcher.cpp:353-362 | the display mode's size on Sailfish OS, otherwise 1280x720, which is landscape |
| Launcher.LauncherState.InitSettings | neo/sys/linux/launcher/launcher.cpp:428-438 | the settings become StartupStore |
| Launcher.LauncherState.FilterArgs | neo/sys/linux/launcher/launcher.cpp:407-426 | the two loops compute BasepathIndex and append KeptArgs |
| Launcher.LauncherState.FindSetting | neo/sys/linux/launcher/launcher.cpp:216-218 | the search computes FindIndex |
| Launcher.LauncherState.GetSetting | neo/sys/linux/launcher/launcher.cpp:215-223 | returns the entry with the name, or null iff no entry has it |
| Launcher.LauncherState.SetSetting | neo/sys/linux/launcher/launcher.cpp:137-213 | the settings become Upsert of the old ones, and the invariant holds |
| Launcher.LauncherState.DefaultSettings | neo/sys/linux/launcher/launcher.cpp:680-727 | the settings become DefaultSettingsOf of the old ones |
| Launcher.LauncherState.MarkUnsaved | neo/sys/linux/launcher/launcher.cpp:683 | the settings become ClearSave of the old ones |
| Launcher.LauncherState.ApplyAll | neo/sys/linux/launcher/launcher.cpp:684-726 | the setter calls compute ApplyDefaults |
| Launcher.LauncherState.SaveSettings | neo/sys/linux/launcher/launcher.cpp:729-754 | the file written is Serialize of the settings |
| Launcher.LauncherState.WriteRecord | neo/sys/linux/launcher/launcher.cpp:734-750 | one entry is written as its RecordItems |
| Launcher.LauncherState.LoadSettings | neo/sys/linux/launcher/launcher.cpp:756-808 | the loop computes Load |
| Launcher.LauncherState.ReadRecordAt | neo/sys/linux/launcher/launcher.cpp:775-801 | reads one record from a position exactly as ReadRecord does and moves past it |
| Launcher.LauncherState.AppendSettingsArgs | neo/sys/linux/launcher/launcher.cpp:919-939 | appends SettingsArgs of the settings to argv |
| Glimp.PassBitsClosedForm | neo/sys/glimp.cpp:230-260 | the persistent sizes are 24/24/8, then 24/16/8 from attempt 4, then 16/16/8 from attempt 8; the case 1 fall-through leaves stencil 8 |
| Glimp.PassOfAttempt | neo/sys/glimp.cpp:242-260 | the sizes at attempt i are those of pass i / 4, reduced only at the start of a pass |
| Glimp.PassBitsNeverIncrease | neo/sys/glimp.cpp:230-260 | no persistent size ever increases |
| Glimp.TrialValues | neo/sys/glimp.cpp:262-294 | attempt i % 4 == 1 drops stencil to 0, 2 lowers depth, 3 gives 4-bit channels; channels are 8 bits iff the trial colour is 24; alpha equals the channel size |
| Glimp.MsaaNext | neo/sys/glimp.cpp:365-371 | a failed count above 1 strictly decreases and stays non-negative |
| Glimp.Tries | neo/sys/glimp.cpp:296-371 | the retries start with the requested count, each next count is strictly smaller, and only the count changes |
| Glimp.FirstAcceptedIsFirst | neo/sys/glimp.cpp:234-377 | the window is created with an accepted attempt all of whose predecessors failed, and with none iff every attempt fails |
| Glimp.FirstAcceptedAppend | neo/sys/glimp.cpp:234-377 | the first accepted attempt of a concatenation is the first part's, if any, else the second's |
| Glimp.AttemptsFromStep | neo/sys/glimp.cpp:234-377 | attempt i's retries are exhausted before attempt i + 1 begins |
| Glimp.MsaaRetryBound | neo/sys/glimp.cpp:365-371 | a count m above 1 is retried at most m times, so the goto loop ends |
| Glimp.FindDisplay | neo/sys/glimp.cpp:337-349 | finds the first display with known bounds containing the point (half-open), or reports that none does |
| Glimp.PickDisplay | neo/sys/glimp.cpp:328-351 | the chosen display is the first containing the mouse, else 0 |
| Glimp.VideoSizeFor | neo/sys/glimp.cpp:507-517 | the real size is the window's; the render size is r_framebufferWidth/Height iff both are non-zero |
| Glimp.GlWindow.constructor | neo/sys/glimp.cpp:116 | there is no window yet |
| Glimp.GlWindow.CreateWindow | neo/sys/glimp.cpp:234-377 | the loop creates the window with the first accepted attempt, if any |
| Glimp.GlWindow.ReduceBits | neo/sys/glimp.cpp:242-260 | the switch computes ReducePass |
| Glimp.GlWindow.AttemptTrial | neo/sys/glimp.cpp:262-294 | the attempt-local reductions compute TrialFor |
| Glimp.GlWindow.TryMultisamples | neo/sys/glimp.cpp:296-377 | the try_again loop gives the first accepted count of the retries |
| Glimp.GlWindow.Init | neo/sys/glimp.cpp:189-647 | success iff some attempt is accepted; then r_multiSamples is the used count and the video size is set; otherwise there is no window and r_multiSamples is unchanged |
| Glimp.GlWindow.SetVideoSize | neo/sys/glimp.cpp:467-517 | the video size becomes VideoSizeFor |
| Glimp.GlWindow.GrabInput | neo/sys/glimp.cpp:930-946 | each flag sets its own SDL setting; nothing changes without a window |
| FrameBuffer.FixNpot | neo/renderer/framebuffer.cpp:25-31 | the result is the least power of two at least v, and fits in an int |
| FrameBuffer.PowersOfTwoWithinFactorTwo | neo/renderer/framebuffer.cpp:25-31 | two powers of two within a factor two are equal |
| FrameBuffer.LeastPowerOfTwoUnique | neo/renderer/framebuffer.cpp:25-31 | only one value meets fixNpot's contract |
| FrameBuffer.NpotOfSmallIsOne | neo/renderer/framebuffer.cpp:25-31 | fixNpot(v) is 1 for v at most 1 |
| FrameBuffer.NpotOfPowerOfTwo | neo/renderer/framebuffer.cpp:25-31 | fixNpot(p) is p for a power of two, so fixNpot is idempotent |
| FrameBuffer.FrameBufferState.constructor | neo/renderer/framebuffer.cpp:11 | m_framebuffer starts as -1 |
| FrameBuffer.FrameBufferState.InitFrameBuffer | neo/renderer/framebuffer.cpp:161-201 | equal real and render sizes set nothing up; otherwise npot is switched off, both sizes are padded to the least power of two, and the framebuffer name is set |
| FrameBuffer.FrameBufferState.Start | neo/renderer/framebuffer.cpp:222-229 | a no-op while m_framebuffer is -1; otherwise rendering goes to the framebuffer |
| FrameBuffer.FrameBufferState.End | neo/renderer/framebuffer.cpp:253-259 | a no-op while m_framebuffer is -1; otherwise rendering goes back to the window |
| LinuxMain.RoundRam | neo/sys/linux/main.cpp:311-313 | the rounding gives a multiple of 16 within [mb - 7, mb + 8] |
| LinuxMain.RoundRamIsNearest | neo/sys/linux/main.cpp:311-313 | it is the only such multiple: the nearest, ties upward |
| LinuxMain.SystemRam | neo/sys/linux/main.cpp:297-314 | 512 when either sysconf fails; otherwise a multiple of 16 within 8 of the megabytes |
| LinuxMain.Truncate | neo/sys/linux/main.cpp:246-261 | snprintf keeps a prefix of at most size - 1 characters, all of a short string |
| LinuxMain.XdgPath | neo/sys/linux/main.cpp:246-261 | the path is a prefix of $XDG_..._HOME/app when the variable is set, of $HOME/fallback/app otherwise, and fits the buffer |
| LinuxMain.ConfigPath | neo/sys/linux/main.cpp:246-261 | the configuration path fits in MAX_OSPATH |
| LinuxMain.SavePath | neo/sys/linux/main.cpp:95-109 | the save path fits in PATH_MAX |
| LinuxMain.ConfigPathExact | neo/sys/linux/main.cpp:246-261 | when nothing is cut off the path is exactly XDG_CONFIG_HOME/app, or $HOME/.config/app |
| LinuxMain.SavePathNonEmpty | neo/sys/linux/main.cpp:95-109 | the save path is never empty |
| LinuxMain.PosixPaths.constructor | neo/sys/linux/main.cpp:87-88 | both path buffers start empty |
| LinuxMain.PosixPaths.InitPaths | neo/sys/linux/main.cpp:441-452 | path_exe is the platform's answer, else realpath(argv[0]); save_path is SavePath |
| LinuxMain.PosixPaths.GetPath | neo/sys/linux/main.cpp:201-276 | PATH_CONFIG always succeeds with ConfigPath; PATH_SAVE and PATH_EXE succeed iff their buffer is non-empty, and clear the path otherwise |
| LinuxMain.Pointers | neo/sys/linux/main.cpp:577-579 | the copied pointers are the arguments in order |
| LinuxMain.ScanArgs | neo/sys/linux/main.cpp:564-583 | the scan finds the first fs_basepath at index 1 or later and takes the next argument; without it argv_copy has argc + 3 slots: argv, "+set", "fs_basepath", NULL |
| LinuxMain.AsWrittenAgreesOutsideFaults | neo/sys/linux/main.cpp:564-734 | outside the three faults below, the start-up as written is the corrected one |
| LinuxMain.SavedPathWithCommandLineBasepathFaults | neo/sys/linux/main.cpp:589-601 | with fs_basepath on the command line and a saved path, the code writes through the NULL argv_copy |
| LinuxMain.PickedPathDroppedAsWritten | neo/sys/linux/main.cpp:676-730 | a directory picked in the dialog does not reach common->Init |
| LinuxMain.IconLaunchDropsBasepathAsWritten | neo/sys/linux/main.cpp:723-734 | launched with the program name only, common->Init gets no arguments although the picked directory is saved |
| LinuxMain.CorrectedStartupPassesBasepath | neo/sys/linux/main.cpp:564-734 | corrected, for any argc ≥ 1: common->Init gets argv[1..] and, when argv_copy was built, "+set fs_basepath" with the intended path (command line, else picked, else saved); a picked path is written back |

## Findings

| source | as written | input that shows it | evidently intended | confidence | as-written member | corrected member |
|---|---|---|---|---|---|---|
| neo/sys/linux/main.cpp:589-601 | argv_copy[argc + 2] is written whenever the settings file holds a non-empty path. But argv_copy is only allocated when fs_basepath is not on the command line | `doom3 +set fs_basepath /x` with "/y" stored in imgui_settings.cfg: a write through a NULL pointer | read the stored path only when argv_copy exists | high (not executed) | LinuxMain.SavedPathWithCommandLineBasepathFaults | LinuxMain.CorrectedStartupPassesBasepath |
| neo/sys/linux/main.cpp:676-730 | picking a directory sets no_basepath to false, so common->Init gets the original argv and the picked path in argv_copy is never passed | `doom3 +set r_mode 3`, no settings file, "/data" picked in the dialog: the engine gets `+set r_mode 3` only | pass argv_copy whenever it was built | medium (not executed) | LinuxMain.PickedPathDroppedAsWritten | LinuxMain.CorrectedStartupPassesBasepath |
| neo/sys/linux/main.cpp:723-734 | with argc ≤ 1 common->Init(0, NULL) is called, so argv_copy with the picked or saved base path is built and then discarded | `doom3` alone, as launched from an icon, with "/data" picked in the dialog: the engine gets no arguments and starts without the base path | pass argv_copy whenever it was built, whatever argc | medium (not executed) | LinuxMain.IconLaunchDropsBasepathAsWritten | LinuxMain.CorrectedStartupPassesBasepath |

## Left out

- Floating point.
  - The stick scalings `JOY_AXIS_RMOUSE` and `coef * 127` are given functions (`Config.lookScale`, `Config.moveScale`).
  - The `(int)(double)` of `Sys_GetSystemRam` is integer division.
  - `(int)((float)n * 0.5f)` is exact halving, truncated toward zero.
- Launcher.HalfTruncated: exact; float rounding of sizes above 2^24 is not modelled.
- LinuxMain.SystemRam: the ±8 bound is stated for non-negative sysconf results; overflow of the `int` conversion is not modelled.
- FrameBuffer.FixNpot: requires v ≤ 2^30. Above that the 32-bit `ret <<= 1` overflows, and the loop would never end.
- FrameBuffer.FrameBufferState.InitFrameBuffer: requires sizes ≤ 2^30, for the same reason.
- Events.EventSystem.ReturnKeyboardInputEvent: requires n ≥ 0. The source indexes the idList with a negative n, which idList's own bounds assertion rejects. The same holds for ReturnMouseInputEvent, ReturnJoystickInputEvent and ReturnImGuiEvent.
- Events.TakeBufferedChar: `s_pos == SDL_TEXTINPUTEVENT_TEXT_SIZE` is tested before `s[s_pos]` is read. The source reads first, which matters only for a 32-byte text with no NUL.
- Keys.MapKey: `K_*` and `SDLK_*` values are abstract. Numeric facts about them, such as K_MOUSE1 + n or the value of K_FIRST_SCANCODE, hold only as constructors.
- SDL itself is not modelled.
  - Event polling is replaced by a sequence of raw events.
  - `SDL_CreateWindow` success is a given predicate; `SDL_GetDisplayBounds` results and the mouse position are given.
  - The modifier reset on focus gain and `session->SetPlayingSoundWorld` are left out.
  - The console commands queued by PushConsoleEvent (`vid_restart`, `quit`) are left out.
- `utf8ToISO8859_1` is an opaque input carried by the text event, as is `Sys_GetLocalizedScancodeName`.
- The `IMGUI_TOUCHSCREEN` and `USE_LIPSTICK_FBO` branches of events.cpp and glimp.cpp are left out: touch handling, display orientation, the imgui overlay. In main.cpp, by contrast, the `IMGUI_TOUCHSCREEN` start-up launcher (lines 466-735) is what `LinuxMain` models; the desktop `#else` branch (lines 736-741), which passes argv[1..] unchanged or no arguments at all, is not modelled.
  - No desktop event feeds the imgui queue.
- SDL 1.2 branches are left out.
- The SDL bug 4700 display-mode work-around of GLimp_Init is left out.
  - Its early `return false` paths and the Win32 pixel format are not modelled.
  - Stereo, the swap interval and gamma are not modelled either.
- GL object creation in framebuffer.cpp is reduced to the framebuffer name. Shaders, textures, renderbuffers and the final quad are left out.
- ConsoleKey.ConsoleKeys.SetKbd: stands in for idCVar's setter, which is not part of this model. It compares the old and new values character by character; the engine's own comparison, and whether it ignores case, is not modelled.
- Launcher.LauncherState.constructor: settings are a sequence of values, so pointer aliasing into the list is not modelled.
  - The ImGui user interface, D-Bus, images and fonts are left out.
  - `argv[argc]`, the NULL after the last argument, becomes the empty string.
  - The descriptions passed by default_settings are not carried.
- Launcher.Load: a short or mistyped file stops the load. idFile's behaviour of leaving stale values on a short read is not modelled.
- LinuxMain.PosixPaths.GetPath: PATH_BASE needs `stat` on the file system and is left out.
  - An unset HOME (snprintf of NULL) is not modelled: HOME is a string.
- LinuxMain.StartupCorrected: with argc = 0 (no program name) the engine gets no arguments, as in `common->Init(0, NULL)`.
- LinuxMain.StartupAsWritten: a dialog closed without a choice leaves the NULL path slot in place.
- `main`'s root check, signal handlers, `Sys_DoStartProcess`, `OpenURL` and the frame loop are left out.
- Console output (`common->Printf`, `Warning`) is left out.
