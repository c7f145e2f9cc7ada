/**
 * The event side of neo/sys/events.cpp for the SDL2 desktop build:
 * Sys_GetEvent with its static text buffer and pending character, the
 * controller handling of Sys_joypadEvent, the four poll queues the engine
 * reads back (keyboard, mouse, joystick, imgui), Sys_ClearEvents, and the
 * mouse-grab decision of handleMouseGrab.
 *
 * SDL's event queue is a sequence of raw events the system owns and pops from
 * the front. What SDL or floating point computes for the engine (the UTF-8 to
 * ISO-8859-1 conversion, the stick scaling) arrives as given values.
 *
 * The specification is the function GetEventSpec on an abstract InputState;
 * the class EventSystem holds the same state in fields and arrays, and its
 * GetEvent method is proved to compute exactly GetEventSpec.
 */
module Events {
  import opened Keys

  // --------------------------------------------------------------- constants

  newtype uint8 = x: int | 0 <= x < 256

  /** SDL_TEXTINPUTEVENT_TEXT_SIZE: the text of a text-input event and the static buffer s. */
  const TEXT_SIZE := 32
  const JOYSTICK_DEAD_ZONE := 8000
  /** SDL_CONTROLLER_BUTTON_INVALID, _START and _MAX in SDL2. */
  const BUTTON_INVALID := -1
  const BUTTON_START := 6
  const BUTTON_MAX := 21
  /** SDL_BUTTON_LEFT, _MIDDLE and _RIGHT; buttons below LEFT + 8 are mapped. */
  const BUTTON_LEFT := 1
  const BUTTON_MIDDLE := 2
  const BUTTON_RIGHT := 3
  /** Indices into joy_axis_state (five entries) and joy_shoulder_state (two). */
  const LEFT_STICK_X := 0
  const LEFT_STICK_Y := 1
  const RIGHT_STICK_X := 2
  const RIGHT_STICK_Y := 3
  const LEFT_SHOULDER := 0
  const RIGHT_SHOULDER := 1

  /** A NUL-padded character buffer of SDL_TEXTINPUTEVENT_TEXT_SIZE bytes. */
  type TextBuffer = b: seq<uint8> | |b| == TEXT_SIZE witness seq(TEXT_SIZE, _ => 0)

  function Zeros(): (b: TextBuffer)
    ensures forall i :: 0 <= i < TEXT_SIZE ==> b[i] == 0
  {
    seq(TEXT_SIZE, _ => 0)
  }

  // ------------------------------------------------------------------- polls

  /** The action of a mouse or joystick poll: M_ACTION1 + n - 1, M_DELTAX/Y/Z, AXIS_SIDE/FORWARD. */
  datatype Action = MAction(n: int) | MDeltaX | MDeltaY | MDeltaZ | AxisSide | AxisForward

  datatype KbdPoll = KbdPoll(key: KeyNum, state: bool)
  datatype MousePoll = MousePoll(action: Action, value: int)

  // ------------------------------------------------------------- raw events

  datatype Axis = LeftX | LeftY | RightX | RightY | TriggerLeft | TriggerRight | OtherAxis(id: int)

  /**
   * The SDL2 events Sys_GetEvent distinguishes. A text-input event carries
   * its 32-byte text and, for the non-ASCII path, what utf8ToISO8859_1
   * returned and what it left in the static buffer. A key event's `alt` is
   * whether an Alt modifier is held. A device-added event carries whether
   * SDL_GameControllerOpen or SDL_JoystickOpen returns a handle for it.
   */
  datatype RawEvent =
    | FocusGained
    | FocusLost
    | OtherWindowEvent
    | KeyEvent(down: bool, sym: Keycode, scancode: int, alt: bool)
    | TextInput(text: TextBuffer, converted: bool, iso: TextBuffer)
    | TextEditing
    | MouseMotion(x: int, y: int, xrel: int, yrel: int)
    | MouseWheel(wheelY: int)
    | MouseButton(button: int, pressed: bool)
    | Quit
    | UserEvent(isConsole: bool, data: string)
    | ControllerAxis(axis: Axis, value: int)
    | ControllerButton(cbutton: int, cdown: bool)
    | JoyDeviceAdded(isGameController: bool, opens: bool)
    | OtherEvent

  /** The sysEvent_t Sys_GetEvent returns: SE_NONE, SE_KEY, SE_CHAR, SE_MOUSE, SE_MOUSE_ABS, SE_CONSOLE. */
  datatype SysEvent =
    | NoEvent
    | KeyEv(key: KeyNum, value2: int)
    | CharEv(ch: KeyNum)
    | MouseEv(dx: int, dy: int)
    | MouseAbsEv(x: int, y: int)
    | ConsoleEv(text: string)

  /**
   * What the event code reads besides its own state: the in_ignoreConsoleKey
   * cvar, the joysticks SDL reports at the time of the call (whether the
   * first is a game controller, and whether opening it returns a handle),
   * and the float scalings JOY_AXIS_RMOUSE (right stick) and coef * 127
   * (left stick) of a dead-zoned axis value.
   */
  datatype Config = Config(
    ignoreConsoleKey: bool,
    numJoysticks: int,
    firstIsController: bool,
    firstOpens: bool,
    lookScale: int -> int,
    moveScale: int -> int)

  // ------------------------------------------------------------ the state

  /** The static state of events.cpp together with SDL's pending events. */
  datatype InputState = InputState(
    kbd: seq<KbdPoll>,
    mouse: seq<MousePoll>,
    joystick: seq<MousePoll>,
    imgui: seq<MousePoll>,
    text: seq<uint8>,
    textPos: int,
    pending: KeyNum,
    hasFocus: bool,
    relativeMouseMode: bool,
    axis: seq<int>,
    shoulder: seq<int>,
    joystickOpen: bool,
    controllerOpen: bool,
    events: seq<RawEvent>)

  /**
   * The buffer is 32 bytes and s_pos indexes it; an empty buffer (s[0] == 0)
   * has s_pos 0, and a non-empty one has a character at s_pos.
   */
  predicate Inv(st: InputState)
  {
    |st.text| == TEXT_SIZE && 0 <= st.textPos < TEXT_SIZE
    && (st.text[0] == 0 ==> st.textPos == 0)
    && (st.text[0] != 0 ==> st.text[st.textPos] != 0)
    && |st.axis| == 5 && |st.shoulder| == 2
  }

  /** The state at start-up, with `events` waiting in SDL's queue. */
  function InitialState(events: seq<RawEvent>): (st: InputState)
    ensures Inv(st)
  {
    InputState([], [], [], [], Zeros(), 0, NoKey, true, true,
               [0, 0, 0, 0, 0], [0, 0], false, false, events)
  }

  // ------------------------------------------------------ helper functions

  function Abs(v: int): int { if v < 0 then -v else v }

  /** The dead zone applied to every controller stick value. */
  function DeadZone(v: int): (r: int)
    ensures Abs(v) <= JOYSTICK_DEAD_ZONE ==> r == 0
    ensures Abs(v) > JOYSTICK_DEAD_ZONE ==> Abs(r) == Abs(v) - JOYSTICK_DEAD_ZONE
    ensures r > 0 ==> v > 0
    ensures r < 0 ==> v < 0
  {
    if Abs(v) < JOYSTICK_DEAD_ZONE then 0
    else v + (if v < 0 then JOYSTICK_DEAD_ZONE else -JOYSTICK_DEAD_ZONE)
  }

  /** isAscii from position i: no byte above 127 before the terminating NUL. */
  predicate AsciiFrom(b: seq<uint8>, i: nat)
    decreases |b| - i
  {
    i >= |b| || b[i] == 0 || (b[i] <= 127 && AsciiFrom(b, i + 1))
  }

  // ------------------------------------------------ one raw event, specified

  /**
   * The result of handling one raw event: return an event to the engine, or
   * continue draining SDL's queue.
   */
  datatype Outcome = Return(ev: SysEvent, st: InputState) | Continue(st: InputState)

  /**
   * An SDL2 key event: Alt+Enter on key-down is taken for the fullscreen
   * toggle; otherwise the key number of KeyForKeyEvent, a dropped event when
   * that is NoKey, and a keyboard poll. A pressed backspace is also kept as
   * the pending character.
   */
  function HandleKey(st: InputState, down: bool, sym: Keycode, sc: int, alt: bool, ignoreConsoleKey: bool): (r: Outcome)
    requires Inv(st) && st.textPos == 0
    ensures Inv(r.st) && r.st.events == st.events && QueuesExtend(st, r.st)
    ensures r.Continue? ==> r.st.textPos == 0
    ensures down && sym == Char(SDLK_RETURN) && alt ==> r == Return(NoEvent, st)
    ensures !(down && sym == Char(SDLK_RETURN) && alt) ==>
              var key := KeyForKeyEvent(sym, sc, ignoreConsoleKey);
              (key == NoKey <==> r == Continue(st))
              && (key != NoKey ==>
                    r.Return? && r.ev == KeyEv(key, if down then 1 else 0)
                    && r.st.kbd == st.kbd + [KbdPoll(key, down)]
                    && r.st.mouse == st.mouse && r.st.joystick == st.joystick && r.st.text == st.text
                    && r.st.pending == (if key == K(Backspace) && down then key else st.pending))
  {
    if down && sym == Char(SDLK_RETURN) && alt then Return(NoEvent, st)
    else
      var key := KeyForKeyEvent(sym, sc, ignoreConsoleKey);
      if key == NoKey then Continue(st)
      else Return(KeyEv(key, if down then 1 else 0),
                  st.(kbd := st.kbd + [KbdPoll(key, down)],
                      pending := if key == K(Backspace) && down then key else st.pending))
  }

  /**
   * An SDL2 text-input event: the first character is returned now and, when
   * more follow, the buffer keeps the text with s_pos 1. Non-ASCII text goes
   * through the conversion, which writes the buffer whether it succeeds or not.
   */
  function HandleText(st: InputState, text: TextBuffer, converted: bool, iso: TextBuffer): (r: Outcome)
    requires Inv(st) && st.textPos == 0
    ensures Inv(r.st) && r.st.events == st.events && QueuesExtend(st, r.st)
    ensures r.Continue? ==> r.st.textPos == 0
    // converted non-ASCII text: its first character now, the rest kept in s from s_pos 1
    ensures text[0] != 0 && !AsciiFrom(text, 0) && converted && iso[0] != 0 ==>
              r.Return? && r.ev == CharEv(Byte(iso[0] as int))
              && (iso[1] == 0 ==> r.st.text == iso[0 := 0] && r.st.textPos == 0)
              && (iso[1] != 0 ==> r.st.text == iso && r.st.textPos == 1)
              && r.st == st.(text := r.st.text, textPos := r.st.textPos)
    // text that cannot be converted is skipped, leaving whatever the conversion wrote
    ensures text[0] != 0 && !AsciiFrom(text, 0) && !(converted && iso[0] != 0) ==>
              r == Continue(st.(text := iso))
  {
    if text[0] == 0 then Continue(st)
    else if AsciiFrom(text, 0) then
      if text[1] != 0 then Return(CharEv(Byte(text[0] as int)), st.(text := text, textPos := 1))
      else Return(CharEv(Byte(text[0] as int)), st)
    else if converted && iso[0] != 0 then
      if iso[1] == 0 then Return(CharEv(Byte(iso[0] as int)), st.(text := iso[0 := 0], textPos := 0))
      else Return(CharEv(Byte(iso[0] as int)), st.(text := iso, textPos := 1))
    else Continue(st.(text := iso))
  }

  /** SDL_MOUSEWHEEL: one notch up or down, or a key event with no key for a zero wheel. */
  function HandleWheel(st: InputState, y: int): (r: Outcome)
    requires Inv(st) && st.textPos == 0
    ensures Inv(r.st) && r.st.events == st.events && QueuesExtend(st, r.st)
    ensures r.Return? && r.ev.KeyEv? && r.ev.value2 == 1 && r.st == st.(mouse := r.st.mouse)
    ensures y > 0 ==> r.ev.key == K(MWheelUp) && r.st.mouse == st.mouse + [MousePoll(MDeltaZ, 1)]
    ensures y < 0 ==> r.ev.key == K(MWheelDown) && r.st.mouse == st.mouse + [MousePoll(MDeltaZ, -1)]
    ensures y == 0 ==> r.ev.key == NoKey && r.st == st
  {
    if y > 0 then Return(KeyEv(K(MWheelUp), 1), st.(mouse := st.mouse + [MousePoll(MDeltaZ, 1)]))
    else if y < 0 then Return(KeyEv(K(MWheelDown), 1), st.(mouse := st.mouse + [MousePoll(MDeltaZ, -1)]))
    else Return(KeyEv(NoKey, 1), st)
  }

  /**
   * The engine button (K_MOUSE1 + n - 1, M_ACTION1 + n - 1) of an SDL mouse
   * button below SDL_BUTTON_LEFT + 8: SDL numbers middle 2 and right 3, the
   * engine the other way round.
   */
  function EngineButton(button: int): (n: int)
    ensures button == BUTTON_MIDDLE <==> n == 3
    ensures button == BUTTON_RIGHT <==> n == 2
    ensures button != BUTTON_MIDDLE && button != BUTTON_RIGHT ==> n == button
  {
    if button == BUTTON_MIDDLE then 3
    else if button == BUTTON_RIGHT then 2
    else button
  }

  /** Swapping middle and right is its own inverse, so no two SDL buttons share an engine button. */
  lemma EngineButtonInvolution(button: int)
    ensures EngineButton(EngineButton(button)) == button
  {
  }

  /**
   * SDL_MOUSEBUTTONDOWN/UP: a button below SDL_BUTTON_LEFT + 8 is the key
   * K_MOUSE1 + n - 1 with the press flag as its value and a matching
   * M_ACTION poll; higher buttons are skipped and the drain goes on.
   */
  function HandleButton(st: InputState, button: int, pressed: bool): (r: Outcome)
    requires Inv(st) && st.textPos == 0
    ensures Inv(r.st) && r.st.events == st.events && QueuesExtend(st, r.st)
    ensures r.Continue? ==> r.st.textPos == 0
    ensures button >= BUTTON_LEFT + 8 <==> r == Continue(st)
    ensures button < BUTTON_LEFT + 8 ==>
              var n := EngineButton(button);
              var v := if pressed then 1 else 0;
              r.Return? && r.ev == KeyEv(K(Mouse(n)), v)
              && r.st == st.(mouse := st.mouse + [MousePoll(MAction(n), v)])
  {
    if button >= BUTTON_LEFT + 8 then Continue(st)
    else
      var n := EngineButton(button);
      var v := if pressed then 1 else 0;
      Return(KeyEv(K(Mouse(n)), v), st.(mouse := st.mouse + [MousePoll(MAction(n), v)]))
  }

  /** A trigger is pressed beyond the dead zone; only a change of the latch is reported. */
  function HandleTrigger(st: InputState, side: nat, value: int, n: int): (r: Outcome)
    requires Inv(st) && st.textPos == 0 && side < |st.shoulder|
    ensures Inv(r.st) && r.st.events == st.events && QueuesExtend(st, r.st)
    ensures r.Continue? ==> r.st.textPos == 0
    // a report iff the latch changes, as K_MOUSE<n> with the new latch value and one M_ACTION poll
    ensures var pressed := if value > JOYSTICK_DEAD_ZONE then 1 else 0;
            (r.Return? <==> st.shoulder[side] != pressed)
            && r.st.shoulder == st.shoulder[side := pressed]
            && (r.Return? ==> r.ev == KeyEv(K(Mouse(n)), pressed)
                              && r.st == st.(shoulder := r.st.shoulder,
                                             mouse := st.mouse + [MousePoll(MAction(n), pressed)]))
            && (r.Continue? ==> r.st == st)
  {
    var pressed := if value > JOYSTICK_DEAD_ZONE then 1 else 0;
    if st.shoulder[side] != pressed then
      Return(KeyEv(K(Mouse(n)), pressed),
             st.(shoulder := st.shoulder[side := pressed],
                 mouse := st.mouse + [MousePoll(MAction(n), pressed)]))
    else Continue(st)
  }

  /** A controller axis moved: the sticks update the axis state, the triggers act as buttons. */
  function HandleAxis(st: InputState, axis: Axis, value: int, cfg: Config): (r: Outcome)
    requires Inv(st) && st.textPos == 0
    ensures Inv(r.st) && r.st.events == st.events && QueuesExtend(st, r.st)
    ensures r.Continue? ==> r.st.textPos == 0
    // the left stick moves the player: one joystick poll per event, forward negated
    ensures axis == LeftY ==>
              var a := -cfg.moveScale(DeadZone(value));
              r.Continue? && r.st.joystick == st.joystick + [MousePoll(AxisForward, a)]
              && r.st.axis == st.axis[LEFT_STICK_Y := a] && r.st == st.(axis := r.st.axis, joystick := r.st.joystick)
    ensures axis == LeftX ==>
              var a := cfg.moveScale(DeadZone(value));
              r.Continue? && r.st.joystick == st.joystick + [MousePoll(AxisSide, a)]
              && r.st.axis == st.axis[LEFT_STICK_X := a] && r.st == st.(axis := r.st.axis, joystick := r.st.joystick)
    // the right stick only stores its look value; the polls come when the queue runs dry
    ensures axis == RightY ==>
              r == Continue(st.(axis := st.axis[RIGHT_STICK_Y := cfg.lookScale(DeadZone(value))]))
    ensures axis == RightX ==>
              r == Continue(st.(axis := st.axis[RIGHT_STICK_X := cfg.lookScale(DeadZone(value))]))
    // the left trigger is the right mouse button and the right trigger the left one
    ensures axis == TriggerLeft ==> r == HandleTrigger(st, LEFT_SHOULDER, value, 2)
    ensures axis == TriggerRight ==> r == HandleTrigger(st, RIGHT_SHOULDER, value, 1)
    ensures axis.OtherAxis? ==> r == Continue(st)
  {
    match axis
    case RightY => Continue(st.(axis := st.axis[RIGHT_STICK_Y := cfg.lookScale(DeadZone(value))]))
    case RightX => Continue(st.(axis := st.axis[RIGHT_STICK_X := cfg.lookScale(DeadZone(value))]))
    case LeftY =>
      var a := -cfg.moveScale(DeadZone(value));
      Continue(st.(axis := st.axis[LEFT_STICK_Y := a], joystick := st.joystick + [MousePoll(AxisForward, a)]))
    case LeftX =>
      var a := cfg.moveScale(DeadZone(value));
      Continue(st.(axis := st.axis[LEFT_STICK_X := a], joystick := st.joystick + [MousePoll(AxisSide, a)]))
    case TriggerLeft => HandleTrigger(st, LEFT_SHOULDER, value, 2)
    case TriggerRight => HandleTrigger(st, RIGHT_SHOULDER, value, 1)
    case OtherAxis(_) => Continue(st)
  }

  /** Sys_joypadEvent, with `true` as Return and `false` as Continue. */
  function HandleJoypad(st: InputState, ev: RawEvent, cfg: Config): (r: Outcome)
    requires Inv(st) && st.textPos == 0
    ensures Inv(r.st) && r.st.events == st.events && QueuesExtend(st, r.st)
    ensures r.Continue? ==> r.st.textPos == 0
    // a controller button: START is Escape, any other valid button b is K_JOY1 + b
    ensures ev.ControllerButton? ==>
              ((ev.cbutton <= BUTTON_INVALID || ev.cbutton > BUTTON_MAX) <==> r == Continue(st))
    ensures ev.ControllerButton? && BUTTON_INVALID < ev.cbutton <= BUTTON_MAX ==>
              r.Return? && r.ev.KeyEv? && r.ev.value2 == (if ev.cdown then 1 else 0)
              && (ev.cbutton == BUTTON_START ==> r.ev.key == K(Escape))
              && (ev.cbutton != BUTTON_START ==> r.ev.key == K(Joy(ev.cbutton)))
              && r.st == st.(kbd := st.kbd + [KbdPoll(r.ev.key, ev.cdown)])
    // a device added: opened only when none is open and SDL returns a handle for it
    ensures ev.JoyDeviceAdded? ==>
              r.Continue? && r.st == st.(joystickOpen := r.st.joystickOpen, controllerOpen := r.st.controllerOpen)
              && ((r.st.joystickOpen || r.st.controllerOpen)
                  <==> (st.joystickOpen || st.controllerOpen || ev.opens))
              && (!st.joystickOpen && !st.controllerOpen && ev.opens ==>
                    r.st.controllerOpen == ev.isGameController && r.st.joystickOpen == !ev.isGameController)
              && (st.joystickOpen || st.controllerOpen || !ev.opens ==> r.st == st)
  {
    match ev
    case ControllerAxis(axis, value) => HandleAxis(st, axis, value, cfg)
    case ControllerButton(button, down) =>
      if button <= BUTTON_INVALID || button > BUTTON_MAX then Continue(st)
      else
        var key := if button == BUTTON_START then K(Escape) else K(Joy(button));
        Return(KeyEv(key, if down then 1 else 0), st.(kbd := st.kbd + [KbdPoll(key, down)]))
    case JoyDeviceAdded(isGameController, opens) =>
      if !st.joystickOpen && !st.controllerOpen && opens
      then Continue(st.(controllerOpen := isGameController, joystickOpen := !isGameController))
      else Continue(st)
    case _ => Continue(st)
  }

  /**
   * One pass of the draining loop of Sys_GetEvent over the event `ev` already
   * taken from SDL's queue. Handling an event never touches the rest of the
   * queue, and a continued drain keeps the text position at 0.
   */
  function Handle(st: InputState, ev: RawEvent, cfg: Config): (r: Outcome)
    requires Inv(st) && st.textPos == 0
    ensures Inv(r.st) && r.st.events == st.events && QueuesExtend(st, r.st)
    ensures r.Continue? ==> r.st.textPos == 0
  {
    match ev
    case FocusGained => Continue(st.(hasFocus := true))
    case FocusLost => Continue(st.(hasFocus := false))
    case OtherWindowEvent => Continue(st)
    case KeyEvent(down, sym, sc, alt) => HandleKey(st, down, sym, sc, alt, cfg.ignoreConsoleKey)
    case TextInput(text, converted, iso) => HandleText(st, text, converted, iso)
    case TextEditing => Continue(st)
    case MouseMotion(x, y, xrel, yrel) =>
      if st.relativeMouseMode
      then Return(MouseEv(xrel, yrel), st.(mouse := st.mouse + [MousePoll(MDeltaX, xrel), MousePoll(MDeltaY, yrel)]))
      else Return(MouseAbsEv(x, y), st)
    case MouseWheel(y) => HandleWheel(st, y)
    case MouseButton(button, pressed) => HandleButton(st, button, pressed)
    case Quit => Return(NoEvent, st)
    case UserEvent(isConsole, data) => if isConsole then Return(ConsoleEv(data), st) else Continue(st)
    case _ => HandleJoypad(st, ev, cfg)
  }

  /** After the queue runs dry, an open controller's right stick feeds the mouse queue. */
  function RightStickPolls(st: InputState): (r: InputState)
    requires |st.axis| == 5
    ensures r == st.(mouse := r.mouse)
    // with a device open, each non-zero right-stick value becomes one mouse delta, x before y
    ensures st.joystickOpen || st.controllerOpen ==>
              var x := st.axis[RIGHT_STICK_X];
              var y := st.axis[RIGHT_STICK_Y];
              r.mouse == st.mouse + (if x != 0 then [MousePoll(MDeltaX, x)] else [])
                                  + (if y != 0 then [MousePoll(MDeltaY, y)] else [])
    ensures !st.joystickOpen && !st.controllerOpen ==> r == st
  {
    if st.joystickOpen || st.controllerOpen then
      st.(mouse := st.mouse
                   + (if st.axis[RIGHT_STICK_X] != 0 then [MousePoll(MDeltaX, st.axis[RIGHT_STICK_X])] else [])
                   + (if st.axis[RIGHT_STICK_Y] != 0 then [MousePoll(MDeltaY, st.axis[RIGHT_STICK_Y])] else []))
    else st
  }

  /** The draining loop: handle events until one returns, or the queue is empty. */
  function Drain(st: InputState, cfg: Config): (r: (SysEvent, InputState))
    requires Inv(st) && st.textPos == 0
    ensures Inv(r.1)
    decreases |st.events|
  {
    if st.events == [] then (NoEvent, RightStickPolls(st))
    else
      match Handle(st.(events := st.events[1..]), st.events[0], cfg)
      case Return(ev, st') => (ev, st')
      case Continue(st') => Drain(st', cfg)
  }

  /** One buffered character from s, clearing the buffer after its last one. */
  function TakeBufferedChar(st: InputState): (r: (SysEvent, InputState))
    requires Inv(st) && st.text[0] != 0
    ensures Inv(r.1)
  {
    var ch := CharEv(Byte(st.text[st.textPos] as int));
    var pos := st.textPos + 1;
    if pos == TEXT_SIZE || st.text[pos] == 0 then (ch, st.(text := Zeros(), textPos := 0))
    else (ch, st.(textPos := pos))
  }

  /**
   * With no device open, the first joystick SDL reports is opened, as a
   * controller if it is one; when SDL returns no handle nothing is open and
   * the next call tries again.
   */
  function OpenFirstDevice(st: InputState, cfg: Config): (r: InputState)
    ensures r == st.(joystickOpen := r.joystickOpen, controllerOpen := r.controllerOpen)
    ensures (r.joystickOpen || r.controllerOpen)
            <==> (st.joystickOpen || st.controllerOpen || (cfg.numJoysticks > 0 && cfg.firstOpens))
  {
    if !st.joystickOpen && !st.controllerOpen && cfg.numJoysticks > 0 && cfg.firstOpens
    then st.(controllerOpen := cfg.firstIsController, joystickOpen := !cfg.firstIsController)
    else st
  }

  /** Sys_GetEvent: buffered text first, then the pending character, then SDL's queue. */
  function GetEventSpec(st: InputState, cfg: Config): (r: (SysEvent, InputState))
    requires Inv(st)
    ensures Inv(r.1)
  {
    if st.text[0] != 0 then TakeBufferedChar(st)
    else
      var st1 := OpenFirstDevice(st, cfg);
      if st1.pending != NoKey then (CharEv(st1.pending), st1.(pending := NoKey))
      else Drain(st1, cfg)
  }

  /** The events m successive calls of Sys_GetEvent return, and the state after them. */
  function Run(st: InputState, cfg: Config, m: nat): (r: (seq<SysEvent>, InputState))
    requires Inv(st)
    ensures |r.0| == m && Inv(r.1)
    decreases m
  {
    if m == 0 then ([], st)
    else
      var (e, st1) := GetEventSpec(st, cfg);
      var (es, st2) := Run(st1, cfg, m - 1);
      ([e] + es, st2)
  }

  /** The character events for the bytes of `b`, in order. */
  function Chars(b: seq<uint8>): (r: seq<SysEvent>)
    ensures |r| == |b|
  {
    if b == [] then [] else [CharEv(Byte(b[0] as int))] + Chars(b[1..])
  }

  // ------------------------------------------------------------ properties

  /**
   * The characters left in the buffer come back one per call, in order,
   * without touching SDL's queue; after the last one the buffer is empty.
   */
  lemma BufferedTextComesFirst(st: InputState, cfg: Config, m: nat)
    requires Inv(st) && 1 <= m && st.textPos + m <= TEXT_SIZE
    requires forall k :: st.textPos <= k < st.textPos + m ==> st.text[k] != 0
    requires st.textPos + m == TEXT_SIZE || st.text[st.textPos + m] == 0
    ensures Run(st, cfg, m).0 == Chars(st.text[st.textPos..st.textPos + m])
    ensures Run(st, cfg, m).1 == st.(text := Zeros(), textPos := 0)
  {
    assert BufferedRun(st, m);
    RunIsTakeRun(st, cfg, m);
    TakeRunChars(st, m);
    TakeRunClears(st, m);
  }

  /** s holds m characters from s_pos on, and nothing after them. */
  predicate BufferedRun(st: InputState, m: nat)
  {
    Inv(st) && 1 <= m && st.textPos + m <= TEXT_SIZE
    && (forall k :: st.textPos <= k < st.textPos + m ==> st.text[k] != 0)
    && (st.textPos + m == TEXT_SIZE || st.text[st.textPos + m] == 0)
  }

  /**
   * m characters taken one by one from s without looking at SDL's queue;
   * taking stops early once s is empty.
   */
  function TakeRun(st: InputState, m: nat): (r: (seq<SysEvent>, InputState))
    decreases m
  {
    if m == 0 || !Inv(st) || st.text[0] == 0 then ([], st)
    else
      var (e, st1) := TakeBufferedChar(st);
      var (es, st2) := TakeRun(st1, m - 1);
      ([e] + es, st2)
  }

  /** Taking a buffered run yields its characters in order. */
  lemma {:induction false} TakeRunChars(st: InputState, m: nat)
    ensures BufferedRun(st, m) ==> TakeRun(st, m).0 == Chars(st.text[st.textPos..st.textPos + m])
    decreases m
  {
    if BufferedRun(st, m) && m > 1 {
      var st1 := st.(textPos := st.textPos + 1);
      TakeRunChars(st1, m - 1);
      TakeRunCharsStep(st, m);
    } else if BufferedRun(st, m) {
      TakeRunFirst(st, m);
    }
  }

  /** The inductive step of TakeRunChars, from the run one position further on. */
  lemma TakeRunCharsStep(st: InputState, m: nat)
    requires BufferedRun(st, m) && m > 1
    requires var st1 := st.(textPos := st.textPos + 1);
             BufferedRun(st1, m - 1) ==> TakeRun(st1, m - 1).0 == Chars(st1.text[st1.textPos..st1.textPos + (m - 1)])
    ensures TakeRun(st, m).0 == Chars(st.text[st.textPos..st.textPos + m])
  {
    TakeRunFirst(st, m);
  }

  /**
   * The first step of TakeRunChars: the run starts with the character at
   * s_pos and goes on with the run one position further.
   */
  lemma TakeRunFirst(st: InputState, m: nat)
    requires BufferedRun(st, m)
    ensures var st1 := st.(textPos := st.textPos + 1);
            var rest := Chars(st.text[st.textPos + 1..st.textPos + m]);
            (m > 1 ==> BufferedRun(st1, m - 1)
                       && Chars(st1.text[st1.textPos..st1.textPos + (m - 1)]) == rest
                       && TakeRun(st, m).0 == [TakeBufferedChar(st).0] + TakeRun(st1, m - 1).0)
            && (m == 1 ==> TakeRun(st, m).0 == [TakeBufferedChar(st).0] && rest == [])
            && Chars(st.text[st.textPos..st.textPos + m]) == [TakeBufferedChar(st).0] + rest
  {
    BufferedStep(st, m);
    if m > 1 {
      var st1 := st.(textPos := st.textPos + 1);
      assert st1.text[st1.textPos..st1.textPos + (m - 1)] == st.text[st.textPos + 1..st.textPos + m];
    } else {
      assert |Chars(st.text[st.textPos + 1..st.textPos + m])| == 0;
    }
  }

  /** Taking a buffered run leaves the buffer cleared and the rest of the state as it was. */
  lemma {:induction false} TakeRunClears(st: InputState, m: nat)
    ensures BufferedRun(st, m) ==> TakeRun(st, m).1 == st.(text := Zeros(), textPos := 0)
    decreases m
  {
    if BufferedRun(st, m) {
      BufferedStep(st, m);
      if m > 1 {
        var st1 := st.(textPos := st.textPos + 1);
        assert TakeRun(st, m).1 == TakeRun(st1, m - 1).1;
        TakeRunClears(st1, m - 1);
        assert st1.(text := Zeros(), textPos := 0) == st.(text := Zeros(), textPos := 0);
      }
    }
  }

  /** While s holds a run, Sys_GetEvent only takes from it. */
  lemma {:induction false} RunIsTakeRun(st: InputState, cfg: Config, m: nat)
    ensures BufferedRun(st, m) ==> Run(st, cfg, m) == TakeRun(st, m)
    decreases m
  {
    if BufferedRun(st, m) {
      BufferedStep(st, m);
      RunFirstStep(st, cfg, m);
      var st1 := TakeBufferedChar(st).1;
      RunIsTakeRun(st1, cfg, m - 1);
      assert Run(st1, cfg, m - 1) == TakeRun(st1, m - 1);
    }
  }

  /**
   * One character of a buffered run of m characters: it is the first of the
   * run, and what is left is a run of m - 1 characters, or the cleared buffer.
   */
  lemma BufferedStep(st: InputState, m: nat)
    requires BufferedRun(st, m)
    ensures st.text[0] != 0
    ensures Chars(st.text[st.textPos..st.textPos + m]) == [TakeBufferedChar(st).0] + Chars(st.text[st.textPos + 1..st.textPos + m])
    ensures m > 1 ==> TakeBufferedChar(st).1 == st.(textPos := st.textPos + 1) && BufferedRun(TakeBufferedChar(st).1, m - 1)
    ensures m == 1 ==> TakeBufferedChar(st).1 == st.(text := Zeros(), textPos := 0)
  {
    var b := st.text[st.textPos..st.textPos + m];
    assert b[1..] == st.text[st.textPos + 1..st.textPos + m];
    assert st.text[st.textPos] != 0;
  }

  /** With text in s, a run starts with the buffered character. */
  lemma RunFirstStep(st: InputState, cfg: Config, m: nat)
    requires Inv(st) && st.text[0] != 0 && m >= 1
    ensures Run(st, cfg, m) == ([TakeBufferedChar(st).0] + Run(TakeBufferedChar(st).1, cfg, m - 1).0,
                                Run(TakeBufferedChar(st).1, cfg, m - 1).1)
  {
    assert GetEventSpec(st, cfg) == TakeBufferedChar(st);
  }

  /** The first call after an ASCII text event returns its first character and keeps the rest in s. */
  lemma AsciiTextFirstChar(st: InputState, cfg: Config, text: TextBuffer, converted: bool, iso: TextBuffer)
    requires Inv(st) && st.text[0] == 0 && st.pending == NoKey
    requires st.events != [] && st.events[0] == TextInput(text, converted, iso)
    requires AsciiFrom(text, 0) && text[0] != 0
    ensures GetEventSpec(st, cfg).0 == CharEv(Byte(text[0] as int))
    ensures GetEventSpec(st, cfg).1.events == st.events[1..]
    ensures text[1] != 0 ==> GetEventSpec(st, cfg).1.text == text && GetEventSpec(st, cfg).1.textPos == 1
  {
    var st0 := OpenFirstDevice(st, cfg).(events := st.events[1..]);
    assert Handle(st0, st.events[0], cfg) == HandleText(st0, text, converted, iso);
  }

  /**
   * A multi-character ASCII text event: its characters are returned by as
   * many successive calls, in order, before any further SDL event is drained.
   */
  lemma AsciiTextReturnedInOrder(st: InputState, cfg: Config, text: TextBuffer, converted: bool, iso: TextBuffer, k: nat)
    requires Inv(st) && st.text[0] == 0 && st.pending == NoKey
    requires st.events != [] && st.events[0] == TextInput(text, converted, iso)
    requires AsciiFrom(text, 0)
    requires 1 <= k < TEXT_SIZE && text[k] == 0
    requires forall j :: 0 <= j < k ==> text[j] != 0
    ensures Run(st, cfg, k).0 == Chars(text[..k])
    ensures Run(st, cfg, k).1.events == st.events[1..]
  {
    AsciiTextFirstChar(st, cfg, text, converted, iso);
    var st2 := GetEventSpec(st, cfg).1;
    var rest := Run(st2, cfg, k - 1);
    assert Run(st, cfg, k) == ([CharEv(Byte(text[0] as int))] + rest.0, rest.1);
    assert text[..k][1..] == text[1..k];
    assert Chars(text[..k]) == [CharEv(Byte(text[0] as int))] + Chars(text[1..k]);
    if k > 1 {
      BufferedTextComesFirst(st2, cfg, k - 1);
    } else {
      assert rest == ([], st2);
    }
  }

  /** A pressed backspace is reported as a key now and as the character K_BACKSPACE on the next call. */
  lemma BackspaceQueuesChar(st: InputState, cfg: Config, sym: Keycode, sc: int, alt: bool)
    requires Inv(st) && st.text[0] == 0 && st.pending == NoKey
    requires st.events != [] && st.events[0] == KeyEvent(true, sym, sc, alt)
    requires !(sym == Char(SDLK_RETURN) && alt)
    requires KeyForKeyEvent(sym, sc, cfg.ignoreConsoleKey) == K(Backspace)
    ensures GetEventSpec(st, cfg).0 == KeyEv(K(Backspace), 1)
    ensures GetEventSpec(GetEventSpec(st, cfg).1, cfg).0 == CharEv(K(Backspace))
    ensures GetEventSpec(GetEventSpec(st, cfg).1, cfg).1.events == st.events[1..]
  {
    BackspaceKeyEvent(st, cfg, sym, sc, alt);
    PendingCharComesNext(GetEventSpec(st, cfg).1, cfg);
  }

  /** The first call of BackspaceQueuesChar: the key event, with the backspace left pending. */
  lemma BackspaceKeyEvent(st: InputState, cfg: Config, sym: Keycode, sc: int, alt: bool)
    requires Inv(st) && st.text[0] == 0 && st.pending == NoKey
    requires st.events != [] && st.events[0] == KeyEvent(true, sym, sc, alt)
    requires !(sym == Char(SDLK_RETURN) && alt)
    requires KeyForKeyEvent(sym, sc, cfg.ignoreConsoleKey) == K(Backspace)
    ensures GetEventSpec(st, cfg).0 == KeyEv(K(Backspace), 1)
    ensures var st1 := GetEventSpec(st, cfg).1;
            st1.text[0] == 0 && st1.pending == K(Backspace) && st1.events == st.events[1..]
  {
    var st0 := OpenFirstDevice(st, cfg).(events := st.events[1..]);
    var o := HandleKey(st0, true, sym, sc, alt, cfg.ignoreConsoleKey);
    assert o == Return(KeyEv(K(Backspace), 1), st0.(kbd := st0.kbd + [KbdPoll(K(Backspace), true)], pending := K(Backspace)));
    assert Handle(st0, st.events[0], cfg) == o;
    assert GetEventSpec(st, cfg) == (o.ev, o.st);
  }

  /** A character left pending is returned by the next call, before SDL's queue is read. */
  lemma PendingCharComesNext(st: InputState, cfg: Config)
    requires Inv(st) && st.text[0] == 0 && st.pending != NoKey
    ensures GetEventSpec(st, cfg).0 == CharEv(st.pending)
    ensures GetEventSpec(st, cfg).1 == OpenFirstDevice(st, cfg).(pending := NoKey)
  {
  }

  /**
   * A mapped key at the head of SDL's queue is what the next call returns:
   * the key with 1 for a press and 0 for a release, and one keyboard poll.
   */
  lemma KeyEventReturned(st: InputState, cfg: Config, down: bool, sym: Keycode, sc: int, alt: bool)
    requires Inv(st) && st.text[0] == 0 && st.pending == NoKey
    requires st.events != [] && st.events[0] == KeyEvent(down, sym, sc, alt)
    requires !(down && sym == Char(SDLK_RETURN) && alt)
    requires KeyForKeyEvent(sym, sc, cfg.ignoreConsoleKey) != NoKey
    ensures var key := KeyForKeyEvent(sym, sc, cfg.ignoreConsoleKey);
            var r := GetEventSpec(st, cfg);
            r.0 == KeyEv(key, if down then 1 else 0)
            && r.1.kbd == st.kbd + [KbdPoll(key, down)] && r.1.events == st.events[1..]
            && r.1.text == st.text && r.1.pending == (if key == K(Backspace) && down then key else NoKey)
  {
    var st0 := OpenFirstDevice(st, cfg).(events := st.events[1..]);
    assert Handle(st0, st.events[0], cfg) == HandleKey(st0, down, sym, sc, alt, cfg.ignoreConsoleKey);
  }

  /**
   * A key pressed and released: two calls return the press and the release
   * of the same engine key, and the keyboard queue gains exactly those two
   * polls.
   */
  lemma KeyDownUpScenario(st: InputState, cfg: Config, sym: Keycode, sc: int, alt1: bool, alt2: bool,
                          rest: seq<RawEvent>)
    requires Inv(st) && st.text[0] == 0 && st.pending == NoKey
    requires st.events == [KeyEvent(true, sym, sc, alt1), KeyEvent(false, sym, sc, alt2)] + rest
    requires !(sym == Char(SDLK_RETURN) && alt1)
    requires KeyForKeyEvent(sym, sc, cfg.ignoreConsoleKey) != NoKey
    requires KeyForKeyEvent(sym, sc, cfg.ignoreConsoleKey) != K(Backspace)
    ensures var key := KeyForKeyEvent(sym, sc, cfg.ignoreConsoleKey);
            var r := Run(st, cfg, 2);
            r.0 == [KeyEv(key, 1), KeyEv(key, 0)]
            && r.1.kbd == st.kbd + [KbdPoll(key, true), KbdPoll(key, false)]
            && r.1.events == rest
  {
    KeyEventReturned(st, cfg, true, sym, sc, alt1);
    var st1 := GetEventSpec(st, cfg).1;
    assert st1.events == [KeyEvent(false, sym, sc, alt2)] + rest;
    KeyEventReturned(st1, cfg, false, sym, sc, alt2);
    RunTwo(st, cfg);
  }

  /** Two calls of Sys_GetEvent, one after the other. */
  lemma RunTwo(st: InputState, cfg: Config)
    requires Inv(st)
    ensures var (e1, st1) := GetEventSpec(st, cfg);
            var (e2, st2) := GetEventSpec(st1, cfg);
            Run(st, cfg, 2) == ([e1, e2], st2)
  {
    var (e1, st1) := GetEventSpec(st, cfg);
    var (e2, st2) := GetEventSpec(st1, cfg);
    assert Run(st2, cfg, 0) == ([], st2);
    assert Run(st1, cfg, 1) == ([e2] + [], st2);
    assert [e1] + ([e2] + []) == [e1, e2];
  }

  /** A key that maps to nothing is skipped: the call goes on as if it had not been queued. */
  lemma DroppedKeyIsSkipped(st: InputState, cfg: Config, down: bool, sym: Keycode, sc: int, alt: bool)
    requires Inv(st) && st.text[0] == 0 && st.pending == NoKey
    requires st.events != [] && st.events[0] == KeyEvent(down, sym, sc, alt)
    requires !(down && sym == Char(SDLK_RETURN) && alt)
    requires KeyForKeyEvent(sym, sc, cfg.ignoreConsoleKey) == NoKey
    ensures GetEventSpec(st, cfg) == GetEventSpec(st.(events := st.events[1..]), cfg)
  {
    var st1 := OpenFirstDevice(st, cfg);
    var st0 := st1.(events := st.events[1..]);
    assert Handle(st0, st.events[0], cfg) == Continue(st0);
    assert Drain(st1, cfg) == Drain(st0, cfg);
    assert OpenFirstDevice(st.(events := st.events[1..]), cfg) == st0;
  }

  /** A device SDL could not open leaves none open, so the next device added is opened. */
  lemma FailedOpenIsRetried(st: InputState, cfg: Config, first: bool, second: bool)
    requires Inv(st) && st.textPos == 0 && !st.joystickOpen && !st.controllerOpen
    ensures var r1 := Handle(st, JoyDeviceAdded(first, false), cfg);
            r1 == Continue(st)
            && var r2 := Handle(r1.st, JoyDeviceAdded(second, true), cfg);
               r2.Continue? && r2.st.controllerOpen == second && r2.st.joystickOpen == !second
  {
  }

  /**
   * A trigger reports exactly the changes of its latch: a key event and a
   * mouse poll when the pressed state differs from the stored one, nothing
   * otherwise; afterwards the latch holds the pressed state.
   */
  lemma TriggerReportsChanges(st: InputState, cfg: Config, value: int)
    requires Inv(st) && st.textPos == 0
    ensures var pressed := if value > JOYSTICK_DEAD_ZONE then 1 else 0;
            var r := Handle(st, ControllerAxis(TriggerLeft, value), cfg);
            (r.Return? <==> st.shoulder[LEFT_SHOULDER] != pressed)
            && r.st.shoulder[LEFT_SHOULDER] == pressed
            && (r.Return? ==> r.ev == KeyEv(K(Mouse(2)), pressed)
                              && r.st.mouse == st.mouse + [MousePoll(MAction(2), pressed)])
            && (r.Continue? ==> r.st == st)
  {
  }

  /** A trigger held down past the dead zone is reported as pressed once. */
  lemma HeldTriggerPressedOnce(st: InputState, cfg: Config, v1: int, v2: int)
    requires Inv(st) && st.textPos == 0 && st.shoulder[RIGHT_SHOULDER] == 0
    requires v1 > JOYSTICK_DEAD_ZONE && v2 > JOYSTICK_DEAD_ZONE
    ensures var r1 := Handle(st, ControllerAxis(TriggerRight, v1), cfg);
            r1.Return? && r1.ev == KeyEv(K(Mouse(1)), 1) && r1.st.textPos == 0
            && Handle(r1.st, ControllerAxis(TriggerRight, v2), cfg) == Continue(r1.st)
  {
  }

  /**
   * A right-stick movement with a device open is not returned as an event:
   * the call that handles it ends with the queue empty and turns the stored
   * look values, the new x and the old y, into mouse deltas.
   */
  lemma RightStickLooks(st: InputState, cfg: Config, value: int)
    requires Inv(st) && st.text[0] == 0 && st.pending == NoKey
    requires st.joystickOpen || st.controllerOpen
    requires st.events == [ControllerAxis(RightX, value)]
    ensures var x := cfg.lookScale(DeadZone(value));
            var y := st.axis[RIGHT_STICK_Y];
            var r := GetEventSpec(st, cfg);
            r.0 == NoEvent && r.1.events == [] && r.1.axis[RIGHT_STICK_X] == x
            && r.1.mouse == st.mouse + (if x != 0 then [MousePoll(MDeltaX, x)] else [])
                                     + (if y != 0 then [MousePoll(MDeltaY, y)] else [])
            && r.1.kbd == st.kbd && r.1.joystick == st.joystick
  {
    var st0 := st.(events := []);
    assert OpenFirstDevice(st, cfg) == st;
    var st2 := st0.(axis := st.axis[RIGHT_STICK_X := cfg.lookScale(DeadZone(value))]);
    assert Handle(st0, st.events[0], cfg) == Continue(st2);
    assert Drain(st, cfg) == Drain(st2, cfg);
    assert Drain(st2, cfg) == (NoEvent, RightStickPolls(st2));
  }

  /**
   * The engine-visible queues only grow at their ends, and the imgui queue is
   * not fed by any desktop event.
   */
  predicate QueuesExtend(a: InputState, b: InputState)
  {
    a.kbd <= b.kbd && a.mouse <= b.mouse && a.joystick <= b.joystick && b.imgui == a.imgui
  }

  /** ... and what is left of SDL's queue is a suffix of what was there. */
  predicate Extends(a: InputState, b: InputState)
  {
    QueuesExtend(a, b) && |b.events| <= |a.events| && b.events == a.events[|a.events| - |b.events|..]
  }

  lemma ExtendsTransitive(a: InputState, b: InputState, c: InputState)
    requires Extends(a, b) && Extends(b, c)
    ensures Extends(a, c)
  {
    assert a.kbd <= b.kbd <= c.kbd;
    assert c.events == a.events[|a.events| - |c.events|..] by {
      var k := |a.events| - |b.events|;
      assert c.events == b.events[|b.events| - |c.events|..];
      assert b.events == a.events[k..];
    }
  }

  lemma {:induction false} DrainExtends(st: InputState, cfg: Config)
    requires Inv(st) && st.textPos == 0
    ensures Extends(st, Drain(st, cfg).1)
    decreases |st.events|
  {
    if st.events == [] {
      assert Drain(st, cfg).1 == RightStickPolls(st);
    } else {
      var st0 := st.(events := st.events[1..]);
      assert Extends(st, st0);
      var o := Handle(st0, st.events[0], cfg);
      assert Extends(st0, o.st);
      ExtendsTransitive(st, st0, o.st);
      if o.Continue? {
        assert Drain(st, cfg) == Drain(o.st, cfg);
        DrainExtends(o.st, cfg);
        ExtendsTransitive(st, o.st, Drain(o.st, cfg).1);
      }
    }
  }

  /** Sys_GetEvent only appends to the poll queues and only consumes SDL's queue from the front. */
  lemma GetEventExtends(st: InputState, cfg: Config)
    requires Inv(st)
    ensures Extends(st, GetEventSpec(st, cfg).1)
  {
    var st1 := OpenFirstDevice(st, cfg);
    if st.text[0] != 0 {
      SameQueuesExtend(st, TakeBufferedChar(st).1);
    } else if st1.pending != NoKey {
      SameQueuesExtend(st, st1.(pending := NoKey));
    } else {
      SameQueuesExtend(st, st1);
      DrainExtends(st1, cfg);
      ExtendsTransitive(st, st1, Drain(st1, cfg).1);
    }
  }

  /** A step that leaves every queue as it was extends the state trivially. */
  lemma SameQueuesExtend(a: InputState, b: InputState)
    requires a.kbd == b.kbd && a.mouse == b.mouse && a.joystick == b.joystick
    requires a.imgui == b.imgui && a.events == b.events
    ensures Extends(a, b)
  {
    assert b.events == a.events[0..];
  }

  // ------------------------------------------------------------ mouse grab

  datatype GrabFlag = HideCursor | GrabMouse | RelativeMouse

  /** The flags passed to GLimp_GrabInput and the new in_relativeMouseMode. */
  datatype GrabDecision = GrabDecision(flags: set<GrabFlag>, relativeMouseMode: bool)

  /**
   * The grab policy as a table: release everything without focus or in the
   * editor; a menu hides the cursor only; the console shows it; in game the
   * cursor is hidden, grabbed and relative, and in_nograb keeps only the
   * hiding while the engine still uses relative mouse events.
   */
  function GrabPolicy(hasFocus: bool, editorActive: bool, menuActive: bool, consoleActive: bool, noGrab: bool): GrabDecision
  {
    if !hasFocus || editorActive then GrabDecision({}, false)
    else if menuActive then GrabDecision({HideCursor}, false)
    else if consoleActive then GrabDecision({}, false)
    else if noGrab then GrabDecision({HideCursor}, true)
    else GrabDecision({HideCursor, GrabMouse, RelativeMouse}, true)
  }

  /** in_nograb clears GRABMOUSE and RELATIVEMOUSE from the flags and changes nothing else. */
  lemma NoGrabClearsOnlyGrabFlags(hasFocus: bool, editorActive: bool, menuActive: bool, consoleActive: bool)
    ensures var free := GrabPolicy(hasFocus, editorActive, menuActive, consoleActive, true);
            var grab := GrabPolicy(hasFocus, editorActive, menuActive, consoleActive, false);
            free.flags == grab.flags - {GrabMouse, RelativeMouse}
            && free.relativeMouseMode == grab.relativeMouseMode
  {
  }

  /** Sys_GrabMouseCursor: everything or nothing, as in game without in_nograb, or with no focus. */
  function GrabMouseCursorFlags(grabIt: bool): (r: set<GrabFlag>)
    ensures grabIt ==> r == GrabPolicy(true, false, false, false, false).flags
    ensures !grabIt ==> r == GrabPolicy(false, false, false, false, false).flags
  {
    if grabIt then {GrabMouse, HideCursor, RelativeMouse} else {}
  }

  // ------------------------------------------------------------ the system

  /** isAscii: a scan of the text up to its NUL. */
  method IsAscii(b: seq<uint8>) returns (r: bool)
    ensures r == AsciiFrom(b, 0)
  {
    var i := 0;
    while i < |b| && b[i] != 0
      invariant 0 <= i <= |b|
      invariant AsciiFrom(b, 0) == AsciiFrom(b, i)
    {
      if b[i] > 127 {
        return false;
      }
      i := i + 1;
    }
    return true;
  }

  /**
   * The static state of events.cpp: the poll queues, the text buffer s with
   * s_pos, the pending character c, focus and relative-mouse flags, the
   * controller axis and trigger state and handles, and SDL's event queue.
   */
  class EventSystem {
    var kbdPolls: seq<KbdPoll>
    var mousePolls: seq<MousePoll>
    var joystickPolls: seq<MousePoll>
    var imguiPolls: seq<MousePoll>
    const textBuf: array<uint8>
    var textPos: int
    var pendingChar: KeyNum
    var hasFocus: bool
    var relativeMouseMode: bool
    const joyAxisState: array<int>
    const joyShoulderState: array<int>
    var joystickOpen: bool
    var controllerOpen: bool
    var sdlEvents: seq<RawEvent>

    ghost function State(): InputState
      reads this, textBuf, joyAxisState, joyShoulderState
    {
      InputState(kbdPolls, mousePolls, joystickPolls, imguiPolls, textBuf[..], textPos, pendingChar,
                 hasFocus, relativeMouseMode, joyAxisState[..], joyShoulderState[..],
                 joystickOpen, controllerOpen, sdlEvents)
    }

    ghost predicate Valid()
      reads this, textBuf, joyAxisState, joyShoulderState
    {
      textBuf.Length == TEXT_SIZE && joyAxisState.Length == 5 && joyShoulderState.Length == 2
      && joyAxisState != joyShoulderState && Inv(State())
    }

    constructor (events: seq<RawEvent>)
      ensures Valid() && State() == InitialState(events)
      ensures fresh(textBuf) && fresh(joyAxisState) && fresh(joyShoulderState)
    {
      kbdPolls, mousePolls, joystickPolls, imguiPolls := [], [], [], [];
      textBuf := new uint8[TEXT_SIZE](_ => 0);
      textPos := 0;
      pendingChar := NoKey;
      hasFocus, relativeMouseMode := true, true;
      joyAxisState := new int[5](_ => 0);
      joyShoulderState := new int[2](_ => 0);
      joystickOpen, controllerOpen := false, false;
      sdlEvents := events;
      new;
      assert textBuf[..] == Zeros();
      assert joyAxisState[..] == [0, 0, 0, 0, 0];
      assert joyShoulderState[..] == [0, 0];
    }

    /** Sys_GetEvent. */
    method GetEvent(cfg: Config) returns (res: SysEvent)
      requires Valid()
      modifies this, textBuf, joyAxisState, joyShoulderState
      ensures Valid()
      ensures (res, State()) == GetEventSpec(old(State()), cfg)
    {
      if textBuf[0] != 0 {
        res := NextBufferedChar();
        return;
      }

      if !joystickOpen && !controllerOpen && cfg.numJoysticks > 0 && cfg.firstOpens {
        if cfg.firstIsController {
          controllerOpen := true;
        } else {
          joystickOpen := true;
        }
      }
      assert State() == OpenFirstDevice(old(State()), cfg);

      if pendingChar != NoKey {
        res := CharEv(pendingChar);
        pendingChar := NoKey;
        return;
      }

      res := DrainEvents(cfg);
    }

    /** The head of Sys_GetEvent: one character of s, which is emptied after its last one. */
    method NextBufferedChar() returns (res: SysEvent)
      requires Valid() && textBuf[0] != 0
      modifies this`textPos, textBuf
      ensures Valid()
      ensures (res, State()) == TakeBufferedChar(old(State()))
    {
      ghost var st := State();
      res := CharEv(Byte(textBuf[textPos] as int));
      textPos := textPos + 1;
      if textPos == TEXT_SIZE || textBuf[textPos] == 0 {
        ClearText();
        textPos := 0;
        assert State() == st.(text := Zeros(), textPos := 0);
      } else {
        assert State() == st.(textPos := st.textPos + 1);
      }
    }

    /** memset(s, 0, sizeof(s)). */
    method ClearText()
      requires textBuf.Length == TEXT_SIZE
      modifies textBuf
      ensures textBuf[..] == Zeros()
    {
      forall i | 0 <= i < TEXT_SIZE {
        textBuf[i] := 0;
      }
    }

    /** The draining loop of Sys_GetEvent and the right-stick polls after it. */
    method DrainEvents(cfg: Config) returns (res: SysEvent)
      requires Valid() && textPos == 0
      modifies this, textBuf, joyAxisState, joyShoulderState
      ensures Valid()
      ensures (res, State()) == Drain(old(State()), cfg)
    {
      while sdlEvents != []
        invariant Valid() && textPos == 0
        invariant Drain(State(), cfg) == Drain(old(State()), cfg)
        decreases |sdlEvents|
      {
        ghost var pre := State();
        var ev := sdlEvents[0];
        sdlEvents := sdlEvents[1..];
        assert State() == pre.(events := pre.events[1..]);
        var done;
        done, res := HandleEvent(ev, cfg);
        if done {
          return;
        }
      }
      assert Drain(State(), cfg) == (NoEvent, RightStickPolls(State()));
      PollRightStick();
      res := NoEvent;
    }

    /** The right stick's deflection, queued as mouse motion once the queue is empty. */
    method PollRightStick()
      requires Valid()
      modifies this`mousePolls
      ensures Valid()
      ensures State() == RightStickPolls(old(State()))
    {
      if joystickOpen || controllerOpen {
        if joyAxisState[RIGHT_STICK_X] != 0 {
          mousePolls := mousePolls + [MousePoll(MDeltaX, joyAxisState[RIGHT_STICK_X])];
        }
        if joyAxisState[RIGHT_STICK_Y] != 0 {
          mousePolls := mousePolls + [MousePoll(MDeltaY, joyAxisState[RIGHT_STICK_Y])];
        }
      }
    }

    /** One pass of the draining loop of Sys_GetEvent; `done` is a return to the engine. */
    method HandleEvent(ev: RawEvent, cfg: Config) returns (done: bool, res: SysEvent)
      requires Valid() && textPos == 0
      modifies this, textBuf, joyAxisState, joyShoulderState
      ensures Valid()
      ensures var o := Handle(old(State()), ev, cfg);
              State() == o.st && done == o.Return? && (done ==> res == o.ev)
    {
      done, res := false, NoEvent;
      match ev {
        case FocusGained =>
          hasFocus := true;
        case FocusLost =>
          hasFocus := false;
        case OtherWindowEvent =>
        case KeyEvent(down, sym, sc, alt) =>
          done, res := KeyboardEvent(down, sym, sc, alt, cfg.ignoreConsoleKey);
        case TextInput(text, converted, iso) =>
          done, res := TextInputEvent(text, converted, iso);
        case TextEditing =>
        case MouseMotion(_, _, _, _) =>
          done, res := MouseEvent(ev, cfg);
        case MouseWheel(_) =>
          done, res := MouseEvent(ev, cfg);
        case MouseButton(_, _) =>
          done, res := MouseEvent(ev, cfg);
        case Quit =>
          done := true;
        case UserEvent(isConsole, data) =>
          if isConsole {
            res := ConsoleEv(data);
            done := true;
          }
        case _ =>
          done, res := JoypadEvent(ev, cfg);
      }
    }

    /** The mouse branches: motion, wheel and buttons. */
    method MouseEvent(ev: RawEvent, cfg: Config) returns (done: bool, res: SysEvent)
      requires Valid() && textPos == 0
      requires ev.MouseMotion? || ev.MouseWheel? || ev.MouseButton?
      modifies this`mousePolls
      ensures Valid()
      ensures var o := Handle(old(State()), ev, cfg);
            State() == o.st && done == o.Return? && (done ==> res == o.ev)
    {
      done, res := false, NoEvent;
      match ev {
        case MouseMotion(x, y, xrel, yrel) =>
          if relativeMouseMode {
            res := MouseEv(xrel, yrel);
            mousePolls := mousePolls + [MousePoll(MDeltaX, xrel), MousePoll(MDeltaY, yrel)];
          } else {
            res := MouseAbsEv(x, y);
          }
          done := true;
        case MouseWheel(y) =>
          if y > 0 {
            res := KeyEv(K(MWheelUp), 1);
            mousePolls := mousePolls + [MousePoll(MDeltaZ, 1)];
          } else if y < 0 {
            res := KeyEv(K(MWheelDown), 1);
            mousePolls := mousePolls + [MousePoll(MDeltaZ, -1)];
          } else {
            res := KeyEv(NoKey, 1);
          }
          done := true;
        case MouseButton(button, pressed) =>
          if button < BUTTON_LEFT + 8 {
            var n := EngineButton(button);
            var v := if pressed then 1 else 0;
            res := KeyEv(K(Mouse(n)), v);
            mousePolls := mousePolls + [MousePoll(MAction(n), v)];
            done := true;
          }
        case _ =>
      }
    }

    /** The key number computation of the SDL_KEYDOWN/SDL_KEYUP branch. */
    static method KeyEventKeyNum(sym: Keycode, sc: int, ignoreConsoleKey: bool) returns (key: KeyNum)
      ensures key == KeyForKeyEvent(sym, sc, ignoreConsoleKey)
    {
      if sc == SCANCODE_0 {
        key := Byte('0' as int);
      } else if SCANCODE_1 <= sc <= SCANCODE_9 {
        key := Byte('1' as int + (sc - SCANCODE_1));
      } else {
        key := MapKey(sym);
      }
      if !ignoreConsoleKey && sc == SCANCODE_GRAVE {
        key := K(Console);
      }
      if key == NoKey {
        key := GetKeynumForSdlScancode(sc);
      }
    }

    /** The SDL_KEYDOWN / SDL_KEYUP branch. */
    method KeyboardEvent(down: bool, sym: Keycode, sc: int, alt: bool, ignoreConsoleKey: bool)
      returns (done: bool, res: SysEvent)
      requires Valid() && textPos == 0
      modifies this`kbdPolls, this`pendingChar
      ensures Valid()
      ensures var o := HandleKey(old(State()), down, sym, sc, alt, ignoreConsoleKey);
              State() == o.st && done == o.Return? && (done ==> res == o.ev)
    {
      if down && sym == Char(SDLK_RETURN) && alt {
        return true, NoEvent;
      }
      var key := KeyEventKeyNum(sym, sc, ignoreConsoleKey);
      if key == NoKey {
        return false, NoEvent;
      }
      kbdPolls := kbdPolls + [KbdPoll(key, down)];
      if key == K(Backspace) && down {
        pendingChar := key;
      }
      return true, KeyEv(key, if down then 1 else 0);
    }

    /** memcpy of a whole text buffer into s. */
    method CopyText(b: TextBuffer)
      requires textBuf.Length == TEXT_SIZE
      modifies textBuf
      ensures textBuf[..] == b
    {
      forall i | 0 <= i < TEXT_SIZE {
        textBuf[i] := b[i];
      }
    }

    /** The SDL_TEXTINPUT branch; `iso` is what utf8ToISO8859_1 leaves in s. */
    method TextInputEvent(text: TextBuffer, converted: bool, iso: TextBuffer) returns (done: bool, res: SysEvent)
      requires Valid() && textPos == 0
      modifies this`textPos, textBuf
      ensures Valid()
      ensures var o := HandleText(old(State()), text, converted, iso);
              State() == o.st && done == o.Return? && (done ==> res == o.ev)
    {
      if text[0] == 0 {
        return false, NoEvent;
      }
      var ascii := IsAscii(text);
      if ascii {
        res := CharEv(Byte(text[0] as int));
        if text[1] != 0 {
          CopyText(text);
          textPos := 1;
        }
        return true, res;
      }
      CopyText(iso);
      if converted && textBuf[0] != 0 {
        res := CharEv(Byte(textBuf[0] as int));
        if textBuf[1] == 0 {
          textPos := 0;
          textBuf[0] := 0;
        } else {
          textPos := 1;
        }
        return true, res;
      }
      return false, NoEvent;
    }

    /** A trigger axis: report and latch a change of its pressed state. */
    method TriggerEvent(side: nat, value: int, n: int) returns (done: bool, res: SysEvent)
      requires Valid() && textPos == 0 && side < 2
      modifies this`mousePolls, joyShoulderState
      ensures Valid()
      ensures var o := HandleTrigger(old(State()), side, value, n);
              State() == o.st && done == o.Return? && (done ==> res == o.ev)
    {
      var pressed := if value > JOYSTICK_DEAD_ZONE then 1 else 0;
      done, res := false, NoEvent;
      if joyShoulderState[side] != pressed {
        joyShoulderState[side] := pressed;
        res := KeyEv(K(Mouse(n)), pressed);
        mousePolls := mousePolls + [MousePoll(MAction(n), pressed)];
        done := true;
      }
    }

    /** A stick axis: record its scaled value; the left stick also queues a joystick poll. */
    method StickEvent(axis: Axis, value: int, cfg: Config)
      requires Valid() && textPos == 0
      requires axis.LeftX? || axis.LeftY? || axis.RightX? || axis.RightY?
      modifies this`joystickPolls, joyAxisState
      ensures Valid()
      ensures State() == HandleJoypad(old(State()), ControllerAxis(axis, value), cfg).st
    {
      match axis {
        case RightY =>
          joyAxisState[RIGHT_STICK_Y] := cfg.lookScale(DeadZone(value));
        case RightX =>
          joyAxisState[RIGHT_STICK_X] := cfg.lookScale(DeadZone(value));
        case LeftY =>
          joyAxisState[LEFT_STICK_Y] := -cfg.moveScale(DeadZone(value));
          joystickPolls := joystickPolls + [MousePoll(AxisForward, joyAxisState[LEFT_STICK_Y])];
        case LeftX =>
          joyAxisState[LEFT_STICK_X] := cfg.moveScale(DeadZone(value));
          joystickPolls := joystickPolls + [MousePoll(AxisSide, joyAxisState[LEFT_STICK_X])];
        case _ =>
      }
    }

    /** A controller button: valid buttons are engine keys, START being Escape. */
    method ButtonEvent(ev: RawEvent, cfg: Config) returns (done: bool, res: SysEvent)
      requires Valid() && textPos == 0 && ev.ControllerButton?
      modifies this`kbdPolls
      ensures Valid()
      ensures var o := HandleJoypad(old(State()), ev, cfg);
              State() == o.st && done == o.Return? && (done ==> res == o.ev)
    {
      done, res := false, NoEvent;
      var button, down := ev.cbutton, ev.cdown;
      if BUTTON_INVALID < button <= BUTTON_MAX {
        var key := if button == BUTTON_START then K(Escape) else K(Joy(button));
        res := KeyEv(key, if down then 1 else 0);
        kbdPolls := kbdPolls + [KbdPoll(key, down)];
        done := true;
      }
    }

    /**
     * A device added: it is opened only when none is open yet, and a handle
     * SDL does not return leaves it closed for a later event to retry.
     */
    method DeviceAdded(ev: RawEvent, cfg: Config)
      requires Valid() && textPos == 0 && ev.JoyDeviceAdded?
      modifies this`joystickOpen, this`controllerOpen
      ensures Valid()
      ensures State() == HandleJoypad(old(State()), ev, cfg).st
    {
      if !joystickOpen && !controllerOpen && ev.opens {
        if ev.isGameController {
          controllerOpen := true;
        } else {
          joystickOpen := true;
        }
      }
    }

    /** Sys_joypadEvent. */
    method JoypadEvent(ev: RawEvent, cfg: Config) returns (done: bool, res: SysEvent)
      requires Valid() && textPos == 0
      modifies this`joystickPolls, this`mousePolls, this`kbdPolls, this`joystickOpen, this`controllerOpen
      modifies joyAxisState, joyShoulderState
      ensures Valid()
      ensures var o := HandleJoypad(old(State()), ev, cfg);
              State() == o.st && done == o.Return? && (done ==> res == o.ev)
    {
      done, res := false, NoEvent;
      match ev {
        case ControllerAxis(axis, value) =>
          match axis {
            case RightY =>
              StickEvent(axis, value, cfg);
            case RightX =>
              StickEvent(axis, value, cfg);
            case LeftY =>
              StickEvent(axis, value, cfg);
            case LeftX =>
              StickEvent(axis, value, cfg);
            case TriggerLeft =>
              done, res := TriggerEvent(LEFT_SHOULDER, value, 2);
            case TriggerRight =>
              done, res := TriggerEvent(RIGHT_SHOULDER, value, 1);
            case OtherAxis(_) =>
          }
        case ControllerButton(_, _) =>
          done, res := ButtonEvent(ev, cfg);
        case JoyDeviceAdded(_, _) =>
          DeviceAdded(ev, cfg);
        case _ =>
      }
    }

    /** handleMouseGrab: decides the grab flags and writes in_relativeMouseMode. */
    method HandleMouseGrab(editorActive: bool, menuActive: bool, consoleActive: bool, noGrab: bool)
      returns (flags: set<GrabFlag>)
      modifies this`relativeMouseMode
      ensures GrabDecision(flags, relativeMouseMode) == GrabPolicy(hasFocus, editorActive, menuActive, consoleActive, noGrab)
    {
      var showCursor, grabMouse, relativeMouse := true, false, false;
      if hasFocus && !editorActive {
        if menuActive {
          showCursor, relativeMouse, grabMouse := false, false, false;
        } else if consoleActive {
          showCursor, relativeMouse, grabMouse := true, false, false;
        } else {
          showCursor, grabMouse, relativeMouse := false, true, true;
        }
        relativeMouseMode := relativeMouse;
        if noGrab {
          grabMouse, relativeMouse := false, false;
        }
      } else {
        relativeMouseMode := false;
      }
      flags := {};
      if !showCursor {
        flags := flags + {HideCursor};
      }
      if grabMouse {
        flags := flags + {GrabMouse};
      }
      if relativeMouse {
        flags := flags + {RelativeMouse};
      }
    }

    // ------------------------------------------------------- poll queues

    method PollKeyboardInputEvents() returns (n: int)
      ensures n == |kbdPolls|
    {
      return |kbdPolls|;
    }

    /** The n-th keyboard poll, or 0 with the outputs left as they were. */
    method ReturnKeyboardInputEvent(n: int, key: KeyNum, state: bool) returns (found: int, key': KeyNum, state': bool)
      requires 0 <= n
      ensures found == (if n < |kbdPolls| then 1 else 0)
      ensures n < |kbdPolls| ==> KbdPoll(key', state') == kbdPolls[n]
      ensures n >= |kbdPolls| ==> key' == key && state' == state
    {
      if n >= |kbdPolls| {
        return 0, key, state;
      }
      return 1, kbdPolls[n].key, kbdPolls[n].state;
    }

    method EndKeyboardInputEvents()
      modifies this`kbdPolls
      ensures kbdPolls == []
    {
      kbdPolls := [];
    }

    method PollMouseInputEvents() returns (n: int)
      ensures n == |mousePolls|
    {
      return |mousePolls|;
    }

    method ReturnMouseInputEvent(n: int, action: Action, value: int) returns (found: int, action': Action, value': int)
      requires 0 <= n
      ensures found == (if n < |mousePolls| then 1 else 0)
      ensures n < |mousePolls| ==> MousePoll(action', value') == mousePolls[n]
      ensures n >= |mousePolls| ==> action' == action && value' == value
    {
      if n >= |mousePolls| {
        return 0, action, value;
      }
      return 1, mousePolls[n].action, mousePolls[n].value;
    }

    method EndMouseInputEvents()
      modifies this`mousePolls
      ensures mousePolls == []
    {
      mousePolls := [];
    }

    method PollJoystickInputEvents() returns (n: int)
      ensures n == |joystickPolls|
    {
      return |joystickPolls|;
    }

    method ReturnJoystickInputEvent(n: int, action: Action, value: int) returns (found: int, action': Action, value': int)
      requires 0 <= n
      ensures found == (if n < |joystickPolls| then 1 else 0)
      ensures n < |joystickPolls| ==> MousePoll(action', value') == joystickPolls[n]
      ensures n >= |joystickPolls| ==> action' == action && value' == value
    {
      if n >= |joystickPolls| {
        return 0, action, value;
      }
      return 1, joystickPolls[n].action, joystickPolls[n].value;
    }

    method EndJoystickInputEvents()
      modifies this`joystickPolls
      ensures joystickPolls == []
    {
      joystickPolls := [];
    }

    method PollImGuiEvents() returns (n: int)
      ensures n == |imguiPolls|
    {
      return |imguiPolls|;
    }

    method ReturnImGuiEvent(n: int, action: Action, value: int) returns (found: int, action': Action, value': int)
      requires 0 <= n
      ensures found == (if n < |imguiPolls| then 1 else 0)
      ensures n < |imguiPolls| ==> MousePoll(action', value') == imguiPolls[n]
      ensures n >= |imguiPolls| ==> action' == action && value' == value
    {
      if n >= |imguiPolls| {
        return 0, action, value;
      }
      return 1, imguiPolls[n].action, imguiPolls[n].value;
    }

    method EndImGuiEvents()
      modifies this`imguiPolls
      ensures imguiPolls == []
    {
      imguiPolls := [];
    }

    /** Sys_ClearEvents: discard SDL's pending events and empty all four queues. */
    method ClearEvents()
      modifies this`sdlEvents, this`kbdPolls, this`mousePolls, this`joystickPolls, this`imguiPolls
      ensures sdlEvents == [] && kbdPolls == [] && mousePolls == [] && joystickPolls == [] && imguiPolls == []
    {
      while sdlEvents != []
        decreases |sdlEvents|
      {
        sdlEvents := sdlEvents[1..];
      }
      kbdPolls := [];
      mousePolls := [];
      joystickPolls := [];
      imguiPolls := [];
    }
  }
}
