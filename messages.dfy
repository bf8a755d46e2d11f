/**
 * The `Message` union of src/window/message.rs, its native-message
 * constructors `new_keyboard_message` and `new_mouse_button_message`, its
 * predicates, and the cursor enter/leave classification
 * `get_cursor_move_kind`.
 *
 * `GetClientRect` is a system call; its outcome enters as an optional
 * rectangle (`None` when the call fails).
 */
module Messages {
  import opened Bits
  import opened Wrappers
  import opened Geometry
  import opened Keys
  import opened InputState
  import InputTypes
  import WindowTypes
  import NativeInput

  datatype Focus = Gained | Lost

  /** `LoopMessage`: messages the window loop makes up itself. */
  datatype LoopMessage = Command(command: WindowTypes.Command) | Empty | Exit

  /** `RawInputMessage`, without the raw key state (its type is not part of this model). */
  datatype RawInputMessage =
    | RawKeyboard(key: Key)
    | RawMouseButton(button: InputTypes.Mouse, state: ButtonState)
    | RawMouseMove(deltaX: real, deltaY: real)

  /** `CursorMoveKind`. */
  datatype CursorMoveKind = Entered | Left | Inside

  datatype Message =
    | Loop(loopMessage: LoopMessage)
    | RawInput(rawInput: RawInputMessage)
    | Created(hwnd: nat, hinstance: nat)
    | CloseRequested
    | Paint
    | Key(key: Key, state: KeyState, scanCode: u16, isExtendedKey: bool)
    | Text(text: string)
    | ModifiersChanged(shift: ButtonState, ctrl: ButtonState, alt: ButtonState, win: ButtonState)
    | MouseButton(button: InputTypes.Mouse, buttonState: ButtonState, position: PhysicalPosition, isDoubleClick: bool)
    | MouseWheel(deltaX: real, deltaY: real)
    | CursorMove(position: PhysicalPosition, kind: CursorMoveKind)
    | Resized(size: PhysicalSize)
    | Moved(movedTo: PhysicalPosition)
    | BoundsChanged(outerPosition: PhysicalPosition, outerSize: PhysicalSize)
    | Command
    | SystemCommand
    | Focus(focus: Focus)
    | ScaleFactorChanged(scaleFactor: real)

  /** `Message::new_keyboard_message`. */
  function NewKeyboardMessage(lParam: i64, mapVirtualKey: MapVirtualKey): (m: Message)
    ensures m.Key?
    ensures var d := NativeInput.DecodeKeyboard(lParam, mapVirtualKey);
            m.key == d.key && m.state == d.state && m.scanCode == d.scanCode && m.isExtendedKey == d.isExtendedKey
  {
    var d := NativeInput.DecodeKeyboard(lParam, mapVirtualKey);
    Key(d.key, d.state, d.scanCode, d.isExtendedKey)
  }

  /** `Message::new_mouse_button_message`: the position widens the signed words to i32. */
  function NewMouseButtonMessage(message: u32, wParam: u64, lParam: i64): (m: Message)
    ensures m.MouseButton?
    ensures var d := NativeInput.DecodeMouseButton(message, wParam, lParam);
            m.button == d.button && m.buttonState == d.state && m.isDoubleClick == d.isDoubleClick
            && m.position == PhysicalPosition(d.x, d.y)
  {
    var d := NativeInput.DecodeMouseButton(message, wParam, lParam);
    MouseButton(d.button, d.state, PhysicalPosition(d.x, d.y), d.isDoubleClick)
  }

  /** `is_key`: a key message with this key and state, whatever its scan code and extended bit. */
  function IsKey(m: Message, key: Key, state: KeyState): (r: bool)
    ensures r ==> m.Key? && m == Key(key, state, m.scanCode, m.isExtendedKey)
    ensures m.Key? && m.key == key && m.state == state ==> r
  {
    match m
    case Key(k, s, _, _) => k == key && s == state
    case _ => false
  }

  /** `is_mouse_button`: a button message with this button and state, whatever its position. */
  function IsMouseButton(m: Message, button: InputTypes.Mouse, state: ButtonState): (r: bool)
    ensures r ==> m.MouseButton? && m == MouseButton(button, state, m.position, m.isDoubleClick)
    ensures m.MouseButton? && m.button == button && m.buttonState == state ==> r
  {
    match m
    case MouseButton(b, s, _, _) => b == button && s == state
    case _ => false
  }

  /** `is_empty`: the loop's "no message" tick. */
  function IsEmpty(m: Message): (r: bool)
    ensures r <==> m == Loop(Empty)
  {
    match m
    case Loop(Empty) => true
    case _ => false
  }

  /** `is_key` holds exactly for the key messages that carry the key and state, and ignores the other two fields. */
  lemma IsKeyIff(m: Message, key: Key, state: KeyState)
    ensures IsKey(m, key, state) <==> exists scanCode: u16, extended: bool :: m == Key(key, state, scanCode, extended)
  {
    if IsKey(m, key, state) {
      assert m == Key(key, state, m.scanCode, m.isExtendedKey);
    }
  }

  /** `is_mouse_button` holds exactly for the button messages that carry the button and state. */
  lemma IsMouseButtonIff(m: Message, button: InputTypes.Mouse, state: ButtonState)
    ensures IsMouseButton(m, button, state) <==>
            exists position: PhysicalPosition, double: bool :: m == MouseButton(button, state, position, double)
  {
    if IsMouseButton(m, button, state) {
      assert m == MouseButton(button, state, m.position, m.isDoubleClick);
    }
  }

  /** A decoded keystroke answers `is_key` for its own key and state. */
  lemma KeyboardMessageIsKey(lParam: i64, mapVirtualKey: MapVirtualKey)
    ensures var d := NativeInput.DecodeKeyboard(lParam, mapVirtualKey);
            IsKey(NewKeyboardMessage(lParam, mapVirtualKey), d.key, d.state)
    ensures !IsEmpty(NewKeyboardMessage(lParam, mapVirtualKey))
  {
  }

  /** A client rectangle (`RECT`). */
  datatype Rect = Rect(left: i32, top: i32, right: i32, bottom: i32)

  /** The half-open test `(left..right).contains(x) && (top..bottom).contains(y)`. */
  function InRect(rect: Rect, x: i32, y: i32): (r: bool)
    ensures r ==> rect.left < rect.right && rect.top < rect.bottom
  {
    rect.left <= x < rect.right && rect.top <= y < rect.bottom
  }

  /**
   * `get_cursor_move_kind`: whether the cursor entered or left the client
   * area; `Inside` when nothing changed or the rectangle is unavailable.
   */
  function GetCursorMoveKind(clientRect: Option<Rect>, mouseWasInsideWindow: bool, x: i32, y: i32): (kind: CursorMoveKind)
    ensures clientRect.None? ==> kind == Inside
    ensures clientRect.Some? ==> (kind == Entered <==> !mouseWasInsideWindow && InRect(clientRect.value, x, y))
    ensures clientRect.Some? ==> (kind == CursorMoveKind.Left <==> mouseWasInsideWindow && !InRect(clientRect.value, x, y))
  {
    match clientRect
    case None => Inside
    case Some(rect) =>
      var inX := rect.left <= x < rect.right;
      var inY := rect.top <= y < rect.bottom;
      if !mouseWasInsideWindow && inX && inY then Entered
      else if mouseWasInsideWindow && !(inX && inY) then CursorMoveKind.Left
      else Inside
  }

  /** The classification only reports a change: with the same inside/outside status as before, it says `Inside`. */
  lemma CursorMoveKindReportsChanges(rect: Rect, wasInside: bool, x: i32, y: i32)
    requires InRect(rect, x, y) == wasInside
    ensures GetCursorMoveKind(Some(rect), wasInside, x, y) == Inside
  {
  }

  /** The right and bottom edges are outside: a cursor arriving on them has not entered. */
  lemma CursorMoveKindHalfOpen(rect: Rect)
    requires rect.left < rect.right && rect.top < rect.bottom
    ensures GetCursorMoveKind(Some(rect), false, rect.left, rect.top) == Entered
    ensures GetCursorMoveKind(Some(rect), false, rect.right, rect.top) == Inside
    ensures GetCursorMoveKind(Some(rect), true, rect.left, rect.bottom) == CursorMoveKind.Left
  {
  }
}
