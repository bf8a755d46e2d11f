/**
 * Decoding of native keyboard and mouse-button window messages, written
 * twice in the source with the same logic: `new_keyboard_message` and
 * `new_mouse_button_message` of src/window/message.rs:178-313 and of
 * src/window/window_message.rs:160-295. Both `Message` generations build
 * their variants from the records defined here.
 *
 * `MapVirtualKeyW` enters as a function parameter; message ids and flag bits
 * are the Win32 SDK header values (WinUser.h, WinNT.h).
 */
module NativeInput {
  import opened Bits
  import opened Wrappers
  import opened Keys
  import opened InputState
  import InputTypes

  // Window message ids.
  const WM_MOVE: u32 := 0x0003
  const WM_SIZE: u32 := 0x0005
  const WM_PAINT: u32 := 0x000F
  const WM_CLOSE: u32 := 0x0010
  const WM_DESTROY: u32 := 0x0002
  const WM_KEYFIRST: u32 := 0x0100
  const WM_KEYLAST: u32 := 0x0109
  const WM_MOUSEMOVE: u32 := 0x0200
  const WM_LBUTTONDOWN: u32 := 0x0201
  const WM_LBUTTONUP: u32 := 0x0202
  const WM_LBUTTONDBLCLK: u32 := 0x0203
  const WM_RBUTTONDOWN: u32 := 0x0204
  const WM_RBUTTONUP: u32 := 0x0205
  const WM_RBUTTONDBLCLK: u32 := 0x0206
  const WM_MBUTTONDOWN: u32 := 0x0207
  const WM_MBUTTONUP: u32 := 0x0208
  const WM_MBUTTONDBLCLK: u32 := 0x0209
  const WM_MOUSEWHEEL: u32 := 0x020A
  const WM_XBUTTONDOWN: u32 := 0x020B
  const WM_XBUTTONUP: u32 := 0x020C
  const WM_XBUTTONDBLCLK: u32 := 0x020D
  const WM_MOUSEHWHEEL: u32 := 0x020E
  const WM_SIZING: u32 := 0x0214
  const WM_MOVING: u32 := 0x0216
  const WM_ENTERSIZEMOVE: u32 := 0x0231
  const WM_EXITSIZEMOVE: u32 := 0x0232

  // Keystroke flags, in the high word of lParam.
  const KF_EXTENDED: u16 := 0x0100
  const KF_REPEAT: u16 := 0x4000
  const KF_UP: u16 := 0x8000

  // Mouse-key flags, in the low word of wParam, and the X-button bit of its high word.
  const MK_LBUTTON: u32 := 0x0001
  const MK_RBUTTON: u32 := 0x0002
  const MK_MBUTTON: u32 := 0x0010
  const MK_XBUTTON1: u32 := 0x0020
  const MK_XBUTTON2: u32 := 0x0040
  const XBUTTON1: u16 := 0x0001

  // ---------------------------------------------------------------------------
  // Keyboard messages.

  /** A decoded keystroke: the fields of both generations' key message. */
  datatype KeyboardInput = KeyboardInput(key: Key, state: KeyState, scanCode: u16, isExtendedKey: bool)

  /** The keystroke flags: the high word of lParam (`l_param.0 as i32`, reinterpreted as u32). */
  function KeyboardFlags(lParam: i64): u16
  {
    HiWord(WrapU32(WrapI32(lParam)))
  }

  /** The repeat count: the low word of `l_param.0 as u32`. */
  function RepeatCount(lParam: i64): u16
  {
    LoWord(WrapU32(lParam))
  }

  /** KF_UP decides first, then KF_REPEAT: a released key is never held. */
  function KeyStateOfFlags(flags: u16, repeatCount: u16): (s: KeyState)
    ensures s.Released? <==> IsFlagSet(flags, KF_UP)
    ensures s.Held? <==> !IsFlagSet(flags, KF_UP) && IsFlagSet(flags, KF_REPEAT)
    ensures s.Held? ==> s.repeatCount == repeatCount
  {
    if IsFlagSet(flags, KF_UP) then KeyState.Released
    else if IsFlagSet(flags, KF_REPEAT) then Held(repeatCount)
    else KeyState.Pressed
  }

  /** `u16::from_le_bytes([scan_code, 0xE0])`: the scan code with the 0xE0 prefix byte. */
  function ExtendedScanCode(scanCode: u8): (extended: u16)
    ensures HiByte(extended) == 0xE0 && LoByte(extended) == scanCode
  {
    0xE000 + scanCode
  }

  /** The virtual key the extended scan code maps to (0 when there is none). */
  function ExtendedVirtualKey(flags: u16, mapVirtualKey: MapVirtualKey): u16
  {
    LoWord(WrapU32(mapVirtualKey(ExtendedScanCode(LoByte(flags)), MAPVK_VSC_TO_VK_EX)))
  }

  /** Whether the extended mapping is used: the key is extended and the mapping found a key. */
  predicate UsesExtendedMapping(flags: u16, mapVirtualKey: MapVirtualKey)
  {
    ExtendedVirtualKey(flags, mapVirtualKey) != 0 && IsFlagSet(flags, KF_EXTENDED)
  }

  /** `new_keyboard_message`: key, state, scan code and extended bit of a keystroke message. */
  function DecodeKeyboard(lParam: i64, mapVirtualKey: MapVirtualKey): (input: KeyboardInput)
    ensures input.isExtendedKey <==> IsFlagSet(KeyboardFlags(lParam), KF_EXTENDED)
    ensures input.scanCode == if UsesExtendedMapping(KeyboardFlags(lParam), mapVirtualKey)
                              then 0xE000 + LoByte(KeyboardFlags(lParam))
                              else LoByte(KeyboardFlags(lParam))
    ensures UsesExtendedMapping(KeyboardFlags(lParam), mapVirtualKey) ==>
              input.key == FromVirtualKey(ExtendedVirtualKey(KeyboardFlags(lParam), mapVirtualKey))
    ensures !UsesExtendedMapping(KeyboardFlags(lParam), mapVirtualKey) ==>
              input.key == FromVirtualKey(LoWord(WrapU32(mapVirtualKey(LoByte(KeyboardFlags(lParam)), MAPVK_VSC_TO_VK_EX))))
    ensures input.state == KeyStateOfFlags(KeyboardFlags(lParam), RepeatCount(lParam))
  {
    var flags := KeyboardFlags(lParam);
    var isExtendedKey := IsFlagSet(flags, KF_EXTENDED);
    var scanCode: u16 := LoByte(flags);
    var extendedScanCode := ExtendedScanCode(LoByte(flags));
    var extendedVirtualKey := ExtendedVirtualKey(flags, mapVirtualKey);
    var (virtualKey, finalScanCode) :=
      if extendedVirtualKey != 0 && isExtendedKey then (extendedVirtualKey, extendedScanCode)
      else (LoWord(WrapU32(mapVirtualKey(scanCode, MAPVK_VSC_TO_VK_EX))), scanCode);
    KeyboardInput(FromVirtualKey(virtualKey), KeyStateOfFlags(flags, RepeatCount(lParam)), finalScanCode, isExtendedKey)
  }

  /** The keystroke flags are bits 16 to 31 of lParam: KF_UP is bit 31, KF_REPEAT bit 30, KF_EXTENDED bit 24. */
  lemma KeyboardFlagBits(lParam: i64)
    ensures IsFlagSet(KeyboardFlags(lParam), KF_UP) <==> (WrapU32(lParam) / 0x8000_0000) % 2 == 1
    ensures IsFlagSet(KeyboardFlags(lParam), KF_REPEAT) <==> (WrapU32(lParam) / 0x4000_0000) % 2 == 1
    ensures IsFlagSet(KeyboardFlags(lParam), KF_EXTENDED) <==> (WrapU32(lParam) / 0x0100_0000) % 2 == 1
  {
    var u := WrapU32(lParam);
    WrapU32OfWrapI32(lParam);
    var flags := KeyboardFlags(lParam);
    assert flags == u / 0x1_0000 by {
      WordSplit(u);
    }
    Pow2Values();
    assert Pow2(15) == 0x8000 && Pow2(14) == 0x4000;
    SingleBitFlag(flags, 15);
    SingleBitFlag(flags, 14);
    SingleBitFlag(flags, 8);
    DivDivBy(u, 0x1_0000, 0x8000);
    DivDivBy(u, 0x1_0000, 0x4000);
    DivDivBy(u, 0x1_0000, 0x100);
  }

  /** Dividing twice is dividing by the product. */
  lemma DivDivBy(x: nat, p: nat, q: nat)
    requires p >= 1 && q >= 1
    ensures x / p / q == x / (p * q)
  {
    var a, r1 := x / p, x % p;
    var b, r2 := a / q, a % q;
    assert x == a * p + r1;
    assert a == b * q + r2;
    RegroupProduct(b, q, r2, p);
    assert x == b * (p * q) + (r2 * p + r1);
    ScaleBelow(r2, q, p);
    DivUnique(x, p * q, b, r2 * p + r1);
  }

  /** `(b·q + r)·p` regrouped around the product `p·q`. */
  lemma RegroupProduct(b: int, q: int, r: int, p: int)
    ensures (b * q + r) * p == b * (p * q) + r * p
  {
  }

  /** A remainder below `q`, scaled by `p`, leaves room for another remainder below `p`. */
  lemma ScaleBelow(r: nat, q: nat, p: nat)
    requires r < q && p >= 1
    ensures r * p + p <= p * q
  {
    assert r * p + p == (r + 1) * p;
    assert (r + 1) * p <= q * p;
  }

  /** `l_param.0 as i32` reinterpreted as u32 has the same bits as `l_param.0 as u32`. */
  lemma WrapU32OfWrapI32(x: int)
    ensures WrapU32(WrapI32(x)) == WrapU32(x)
  {
  }

  /** A scan code reported with a message is a single byte, possibly behind the 0xE0 prefix. */
  lemma ScanCodeShape(lParam: i64, mapVirtualKey: MapVirtualKey)
    ensures DecodeKeyboard(lParam, mapVirtualKey).scanCode < 0x100
            || 0xE000 <= DecodeKeyboard(lParam, mapVirtualKey).scanCode < 0xE100
    ensures DecodeKeyboard(lParam, mapVirtualKey).scanCode >= 0xE000 ==> DecodeKeyboard(lParam, mapVirtualKey).isExtendedKey
  {
  }

  // ---------------------------------------------------------------------------
  // Mouse-button messages.

  predicate IsLeftButtonMessage(message: u32) {
    message == WM_LBUTTONDBLCLK || message == WM_LBUTTONDOWN || message == WM_LBUTTONUP
  }

  predicate IsMiddleButtonMessage(message: u32) {
    message == WM_MBUTTONDBLCLK || message == WM_MBUTTONDOWN || message == WM_MBUTTONUP
  }

  predicate IsRightButtonMessage(message: u32) {
    message == WM_RBUTTONDBLCLK || message == WM_RBUTTONDOWN || message == WM_RBUTTONUP
  }

  predicate IsXButtonMessage(message: u32) {
    message == WM_XBUTTONDBLCLK || message == WM_XBUTTONDOWN || message == WM_XBUTTONUP
  }

  /** The twelve button messages. */
  predicate IsButtonMessage(message: u32) {
    IsLeftButtonMessage(message) || IsMiddleButtonMessage(message)
    || IsRightButtonMessage(message) || IsXButtonMessage(message)
  }

  /** The button a message is about: X buttons by the XBUTTON1 bit of wParam's high word. */
  function MouseButtonOf(message: u32, wParam: u64): (button: InputTypes.Mouse)
    ensures IsLeftButtonMessage(message) ==> button.Left?
    ensures IsMiddleButtonMessage(message) ==> button.Middle?
    ensures IsRightButtonMessage(message) ==> button.Right?
    ensures IsXButtonMessage(message) ==>
              if IsFlagSet(HiWord(WrapU32(wParam)), XBUTTON1) then button.Back? else button.Forward?
    ensures !IsButtonMessage(message) ==> button.Unknown?
    ensures button.Unknown? <==> !IsButtonMessage(message)
  {
    var flags := WrapU32(wParam);
    if IsLeftButtonMessage(message) then InputTypes.Left
    else if IsMiddleButtonMessage(message) then InputTypes.Middle
    else if IsRightButtonMessage(message) then InputTypes.Right
    else if IsXButtonMessage(message) then
      (if IsFlagSet(HiWord(flags), XBUTTON1) then InputTypes.Back else InputTypes.Forward)
    else InputTypes.Unknown
  }

  /** `is_double_click`: the four *DBLCLK ids. */
  predicate IsDoubleClick(message: u32) {
    message in {WM_LBUTTONDBLCLK, WM_MBUTTONDBLCLK, WM_RBUTTONDBLCLK, WM_XBUTTONDBLCLK}
  }

  /** A down or double-click id of some button. */
  predicate IsDownMessage(message: u32) {
    message in {WM_LBUTTONDBLCLK, WM_LBUTTONDOWN, WM_MBUTTONDBLCLK, WM_MBUTTONDOWN,
                WM_RBUTTONDBLCLK, WM_RBUTTONDOWN, WM_XBUTTONDBLCLK, WM_XBUTTONDOWN}
  }

  /** An up id of some button. */
  predicate IsUpMessage(message: u32) {
    message in {WM_LBUTTONUP, WM_MBUTTONUP, WM_RBUTTONUP, WM_XBUTTONUP}
  }

  /**
   * The button is down when the message is a down or double-click id and the
   * MK_* bit of that button is set in wParam (either X bit for the X button).
   */
  function MouseButtonState(message: u32, wParam: u64): (state: ButtonState)
    ensures state.Pressed? ==> IsDownMessage(message)
    ensures IsUpMessage(message) ==> state.Released?
    ensures !IsButtonMessage(message) ==> state.Released?
  {
    var modFlags := WrapU32(wParam);
    var isLDown := IsFlagSet(modFlags, MK_LBUTTON);
    var isMDown := IsFlagSet(modFlags, MK_MBUTTON);
    var isRDown := IsFlagSet(modFlags, MK_RBUTTON);
    var isX1Down := IsFlagSet(modFlags, MK_XBUTTON1);
    var isX2Down := IsFlagSet(modFlags, MK_XBUTTON2);
    var isDown :=
      if (message == WM_LBUTTONDBLCLK || message == WM_LBUTTONDOWN) && isLDown then true
      else if (message == WM_MBUTTONDBLCLK || message == WM_MBUTTONDOWN) && isMDown then true
      else if (message == WM_RBUTTONDBLCLK || message == WM_RBUTTONDOWN) && isRDown then true
      else if (message == WM_XBUTTONDBLCLK || message == WM_XBUTTONDOWN) && (isX1Down || isX2Down) then true
      else false;
    if isDown then ButtonState.Pressed else ButtonState.Released
  }

  /** The MK_* bit that reports the button of a message as held. */
  predicate ButtonHeldInFlags(message: u32, wParam: u64)
  {
    var flags := WrapU32(wParam);
    if IsLeftButtonMessage(message) then IsFlagSet(flags, MK_LBUTTON)
    else if IsMiddleButtonMessage(message) then IsFlagSet(flags, MK_MBUTTON)
    else if IsRightButtonMessage(message) then IsFlagSet(flags, MK_RBUTTON)
    else if IsXButtonMessage(message) then IsFlagSet(flags, MK_XBUTTON1) || IsFlagSet(flags, MK_XBUTTON2)
    else false
  }

  /** Pressed exactly for a down or double-click id whose button's MK_* bit is set. */
  lemma MouseButtonStatePressedIff(message: u32, wParam: u64)
    ensures MouseButtonState(message, wParam).Pressed? <==> IsDownMessage(message) && ButtonHeldInFlags(message, wParam)
  {
  }

  /** Double clicks are button messages too, and every double click is a down message. */
  lemma DoubleClickIsDown(message: u32)
    ensures IsDoubleClick(message) ==> IsButtonMessage(message) && IsDownMessage(message)
    ensures IsButtonMessage(message) <==> IsDownMessage(message) || IsUpMessage(message)
  {
  }

  /** The pointer position of a mouse message: the signed words of `l_param.0 as i32`. */
  function PointerPosition(lParam: i64): (xy: (i16, i16))
    ensures xy.1 as int * 0x1_0000 + xy.0 as int % 0x1_0000 == WrapI32(lParam)
  {
    SignedWordSplit(WrapI32(lParam));
    (SignedLoWord(WrapI32(lParam)), SignedHiWord(WrapI32(lParam)))
  }

  /** A decoded mouse-button message, as both generations report it. */
  datatype MouseButtonInput = MouseButtonInput(button: InputTypes.Mouse, state: ButtonState, x: i16, y: i16, isDoubleClick: bool)

  /** `new_mouse_button_message`. */
  function DecodeMouseButton(message: u32, wParam: u64, lParam: i64): (input: MouseButtonInput)
    ensures input.button == MouseButtonOf(message, wParam)
    ensures input.state == MouseButtonState(message, wParam)
    ensures (input.x, input.y) == PointerPosition(lParam)
    ensures input.isDoubleClick <==> IsDoubleClick(message)
  {
    var (x, y) := PointerPosition(lParam);
    MouseButtonInput(MouseButtonOf(message, wParam), MouseButtonState(message, wParam), x, y, IsDoubleClick(message))
  }
}
