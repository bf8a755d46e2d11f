/**
 * The later `Message` union of src/window/window_message.rs and its
 * dispatch `Message::new`, which turns a native message id and its two
 * parameters into a library message.
 *
 * The wheel delta is a float division; it is kept as a `real` quotient of
 * the signed high word of wParam by WHEEL_DELTA.
 */
module WindowMessages {
  import opened Bits
  import opened Keys
  import opened InputState
  import InputTypes
  import opened NativeInput

  const SIZE_MINIMIZED: u32 := 1
  const WHEEL_DELTA: u32 := 120
  /** The first id of the private window-message range; every system message lies below it. */
  const WM_USER: u32 := 0x0400

  datatype WindowMode = Normal | Minimized

  datatype WindowMessage =
    | Ready(hwnd: i64, hinstance: i64)
    | Draw
    | Resizing(sizeState: WindowMode)
    | Moving
    | Resized
    | Moved
    | StartedSizingOrMoving
    | StoppedSizingOrMoving

  datatype MouseMessage =
    | Button(button: InputTypes.Mouse, state: ButtonState, x: i16, y: i16, isDoubleClick: bool)
    | Cursor(x: i16, y: i16)
    | Scroll(scrollX: real, scrollY: real)

  /** `Message`; its default is `None`. */
  datatype Message =
    | None
    | Window(window: WindowMessage)
    | Keyboard(key: Key, state: KeyState, scanCode: u16, isExtendedKey: bool)
    | Mouse(mouse: MouseMessage)
    | Other(hwnd: i64, message: u32, wparam: u64, lparam: i64)
    | CloseRequested
    | Closing

  /** `Message::default()`. */
  function DefaultMessage(): (m: Message)
    ensures m.None?
  {
    None
  }

  /** The messages `Message::new` recognises by id, ahead of the catch-all. */
  function IsTranslated(message: u32): (r: bool)
    ensures r ==> message < WM_USER
  {
    message in {WM_CLOSE, WM_DESTROY, WM_PAINT, WM_ENTERSIZEMOVE, WM_EXITSIZEMOVE,
                WM_SIZING, WM_MOVING, WM_SIZE, WM_MOVE, WM_MOUSEMOVE, WM_MOUSEWHEEL, WM_MOUSEHWHEEL}
    || (WM_KEYFIRST <= message <= WM_KEYLAST)
    || IsButtonMessage(message)
  }

  /** The wheel delta: the signed high word of wParam in notches of WHEEL_DELTA. */
  function WheelDelta(wParam: u64): (notches: real)
    ensures notches * WHEEL_DELTA as real == SignedHiWord(WrapI32(wParam)) as real
    ensures notches < 0.0 <==> SignedHiWord(WrapI32(wParam)) < 0
  {
    SignedHiWord(WrapI32(wParam)) as real / WHEEL_DELTA as real
  }

  /** `Message::new`. */
  function NewMessage(hwnd: i64, message: u32, wParam: u64, lParam: i64, mapVirtualKey: MapVirtualKey): (m: Message)
    ensures message == WM_CLOSE ==> m == CloseRequested
    ensures message == WM_DESTROY ==> m == Closing
    ensures message == WM_PAINT ==> m == Window(Draw)
    ensures message == WM_ENTERSIZEMOVE ==> m == Window(StartedSizingOrMoving)
    ensures message == WM_EXITSIZEMOVE ==> m == Window(StoppedSizingOrMoving)
    ensures message == WM_SIZING ==>
              m == Window(Resizing(if WrapU32(wParam) == SIZE_MINIMIZED then Minimized else Normal))
    ensures message == WM_MOVING ==> m == Window(Moving)
    ensures message == WM_SIZE ==> m == Window(Resized)
    ensures message == WM_MOVE ==> m == Window(Moved)
    ensures WM_KEYFIRST <= message <= WM_KEYLAST ==> m == NewKeyboardMessage(lParam, mapVirtualKey)
    ensures IsButtonMessage(message) ==> m == NewMouseButtonMessage(message, wParam, lParam)
    ensures m.Mouse? && m.mouse.Button? <==> IsButtonMessage(message)
    ensures message == WM_MOUSEMOVE ==>
              m == Mouse(Cursor(SignedLoWord(WrapI32(lParam)), SignedHiWord(WrapI32(lParam))))
    ensures message == WM_MOUSEWHEEL ==> m == Mouse(Scroll(0.0, WheelDelta(wParam)))
    ensures message == WM_MOUSEHWHEEL ==> m == Mouse(Scroll(WheelDelta(wParam), 0.0))
    ensures !IsTranslated(message) ==> m == Other(hwnd, message, wParam, lParam)
    ensures m.Other? <==> !IsTranslated(message)
    ensures m != None
  {
    if message == WM_CLOSE then CloseRequested
    else if message == WM_DESTROY then Closing
    else if message == WM_PAINT then Window(Draw)
    else if message == WM_ENTERSIZEMOVE then Window(StartedSizingOrMoving)
    else if message == WM_EXITSIZEMOVE then Window(StoppedSizingOrMoving)
    else if message == WM_SIZING then
      Window(Resizing(if WrapU32(wParam) != SIZE_MINIMIZED then Normal else Minimized))
    else if message == WM_MOVING then Window(Moving)
    else if message == WM_SIZE then Window(Resized)
    else if message == WM_MOVE then Window(Moved)
    else if WM_KEYFIRST <= message <= WM_KEYLAST then NewKeyboardMessage(lParam, mapVirtualKey)
    else if IsButtonMessage(message) then NewMouseButtonMessage(message, wParam, lParam)
    else if message == WM_MOUSEMOVE then
      Mouse(Cursor(SignedLoWord(WrapI32(lParam)), SignedHiWord(WrapI32(lParam))))
    else if message == WM_MOUSEWHEEL then Mouse(Scroll(0.0, WheelDelta(wParam)))
    else if message == WM_MOUSEHWHEEL then Mouse(Scroll(WheelDelta(wParam), 0.0))
    else Other(hwnd, message, wParam, lParam)
  }

  /** `Message::new_keyboard_message`. */
  function NewKeyboardMessage(lParam: i64, mapVirtualKey: MapVirtualKey): (m: Message)
    ensures m.Keyboard?
    ensures var d := DecodeKeyboard(lParam, mapVirtualKey);
            m == Keyboard(d.key, d.state, d.scanCode, d.isExtendedKey)
  {
    var d := DecodeKeyboard(lParam, mapVirtualKey);
    Keyboard(d.key, d.state, d.scanCode, d.isExtendedKey)
  }

  /** `Message::new_mouse_button_message`. */
  function NewMouseButtonMessage(message: u32, wParam: u64, lParam: i64): (m: Message)
    ensures m.Mouse? && m.mouse.Button?
    ensures var d := DecodeMouseButton(message, wParam, lParam);
            m == Mouse(Button(d.button, d.state, d.x, d.y, d.isDoubleClick))
  {
    var d := DecodeMouseButton(message, wParam, lParam);
    Mouse(Button(d.button, d.state, d.x, d.y, d.isDoubleClick))
  }

  /** The ids the dispatch names are distinct, so no id reaches two arms. */
  lemma DispatchIdsDistinct()
    ensures |{WM_CLOSE, WM_DESTROY, WM_PAINT, WM_ENTERSIZEMOVE, WM_EXITSIZEMOVE, WM_SIZING,
              WM_MOVING, WM_SIZE, WM_MOVE, WM_MOUSEMOVE, WM_MOUSEWHEEL, WM_MOUSEHWHEEL}| == 12
    ensures forall m: u32 :: WM_KEYFIRST <= m <= WM_KEYLAST ==> !IsButtonMessage(m) && m != WM_MOUSEMOVE
  {
  }

  /** A keystroke message decodes its state from lParam's top bits: bit 31 means released, else bit 30 means held. */
  lemma KeystrokeState(hwnd: i64, message: u32, wParam: u64, lParam: i64, mapVirtualKey: MapVirtualKey)
    requires WM_KEYFIRST <= message <= WM_KEYLAST
    ensures var m := NewMessage(hwnd, message, wParam, lParam, mapVirtualKey);
            (m.state.Released? <==> (WrapU32(lParam) / 0x8000_0000) % 2 == 1)
            && (m.state.Held? <==> (WrapU32(lParam) / 0x8000_0000) % 2 == 0 && (WrapU32(lParam) / 0x4000_0000) % 2 == 1)
            && (m.state.Held? ==> m.state.repeatCount == LoWord(WrapU32(lParam)))
  {
    KeyboardFlagBits(lParam);
  }

  /** A button message's position is the one a mouse-move message at the same lParam reports. */
  lemma ButtonAndMovePositionsAgree(hwnd: i64, button: u32, wParam: u64, lParam: i64, mapVirtualKey: MapVirtualKey)
    requires IsButtonMessage(button)
    ensures var b := NewMessage(hwnd, button, wParam, lParam, mapVirtualKey);
            var c := NewMessage(hwnd, WM_MOUSEMOVE, wParam, lParam, mapVirtualKey);
            b.mouse.x == c.mouse.x && b.mouse.y == c.mouse.y
  {
  }
}
