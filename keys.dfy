/**
 * The key codes of src/window/input/key.rs: the `Key` enumeration, its
 * translation from and to Win32 virtual-key codes, and `Key::from_raw`, which
 * turns a raw-input keyboard record into a key or filters it out.
 *
 * `MapVirtualKeyW` is a system call; it enters `FromRaw` as the function
 * parameter `mapVirtualKey`.
 */
module Keys {
  import opened Bits
  import opened Wrappers

  // Virtual-key codes, with their values from the Win32 SDK header WinUser.h.
  const VK_BACK: u16 := 0x08
  const VK_TAB: u16 := 0x09
  const VK_RETURN: u16 := 0x0D
  const VK_SHIFT: u16 := 0x10
  const VK_PAUSE: u16 := 0x13
  const VK_CAPITAL: u16 := 0x14
  const VK_KANA: u16 := 0x15
  const VK_KANJI: u16 := 0x19
  const VK_ESCAPE: u16 := 0x1B
  const VK_CONVERT: u16 := 0x1C
  const VK_NONCONVERT: u16 := 0x1D
  const VK_SPACE: u16 := 0x20
  const VK_PRIOR: u16 := 0x21
  const VK_NEXT: u16 := 0x22
  const VK_END: u16 := 0x23
  const VK_HOME: u16 := 0x24
  const VK_LEFT: u16 := 0x25
  const VK_UP: u16 := 0x26
  const VK_RIGHT: u16 := 0x27
  const VK_DOWN: u16 := 0x28
  const VK_SNAPSHOT: u16 := 0x2C
  const VK_INSERT: u16 := 0x2D
  const VK_DELETE: u16 := 0x2E
  const VK_0: u16 := 0x30
  const VK_1: u16 := 0x31
  const VK_2: u16 := 0x32
  const VK_3: u16 := 0x33
  const VK_4: u16 := 0x34
  const VK_5: u16 := 0x35
  const VK_6: u16 := 0x36
  const VK_7: u16 := 0x37
  const VK_8: u16 := 0x38
  const VK_9: u16 := 0x39
  const VK_A: u16 := 0x41
  const VK_B: u16 := 0x42
  const VK_C: u16 := 0x43
  const VK_D: u16 := 0x44
  const VK_E: u16 := 0x45
  const VK_F: u16 := 0x46
  const VK_G: u16 := 0x47
  const VK_H: u16 := 0x48
  const VK_I: u16 := 0x49
  const VK_J: u16 := 0x4A
  const VK_K: u16 := 0x4B
  const VK_L: u16 := 0x4C
  const VK_M: u16 := 0x4D
  const VK_N: u16 := 0x4E
  const VK_O: u16 := 0x4F
  const VK_P: u16 := 0x50
  const VK_Q: u16 := 0x51
  const VK_R: u16 := 0x52
  const VK_S: u16 := 0x53
  const VK_T: u16 := 0x54
  const VK_U: u16 := 0x55
  const VK_V: u16 := 0x56
  const VK_W: u16 := 0x57
  const VK_X: u16 := 0x58
  const VK_Y: u16 := 0x59
  const VK_Z: u16 := 0x5A
  const VK_LWIN: u16 := 0x5B
  const VK_RWIN: u16 := 0x5C
  const VK_APPS: u16 := 0x5D
  const VK_SLEEP: u16 := 0x5F
  const VK_NUMPAD0: u16 := 0x60
  const VK_NUMPAD1: u16 := 0x61
  const VK_NUMPAD2: u16 := 0x62
  const VK_NUMPAD3: u16 := 0x63
  const VK_NUMPAD4: u16 := 0x64
  const VK_NUMPAD5: u16 := 0x65
  const VK_NUMPAD6: u16 := 0x66
  const VK_NUMPAD7: u16 := 0x67
  const VK_NUMPAD8: u16 := 0x68
  const VK_NUMPAD9: u16 := 0x69
  const VK_MULTIPLY: u16 := 0x6A
  const VK_ADD: u16 := 0x6B
  const VK_SUBTRACT: u16 := 0x6D
  const VK_DECIMAL: u16 := 0x6E
  const VK_DIVIDE: u16 := 0x6F
  const VK_F1: u16 := 0x70
  const VK_F2: u16 := 0x71
  const VK_F3: u16 := 0x72
  const VK_F4: u16 := 0x73
  const VK_F5: u16 := 0x74
  const VK_F6: u16 := 0x75
  const VK_F7: u16 := 0x76
  const VK_F8: u16 := 0x77
  const VK_F9: u16 := 0x78
  const VK_F10: u16 := 0x79
  const VK_F11: u16 := 0x7A
  const VK_F12: u16 := 0x7B
  const VK_F13: u16 := 0x7C
  const VK_F14: u16 := 0x7D
  const VK_F15: u16 := 0x7E
  const VK_F16: u16 := 0x7F
  const VK_F17: u16 := 0x80
  const VK_F18: u16 := 0x81
  const VK_F19: u16 := 0x82
  const VK_F20: u16 := 0x83
  const VK_F21: u16 := 0x84
  const VK_F22: u16 := 0x85
  const VK_F23: u16 := 0x86
  const VK_F24: u16 := 0x87
  const VK_NUMLOCK: u16 := 0x90
  const VK_SCROLL: u16 := 0x91
  const VK_LSHIFT: u16 := 0xA0
  const VK_RSHIFT: u16 := 0xA1
  const VK_LCONTROL: u16 := 0xA2
  const VK_RCONTROL: u16 := 0xA3
  const VK_LMENU: u16 := 0xA4
  const VK_RMENU: u16 := 0xA5
  const VK_BROWSER_BACK: u16 := 0xA6
  const VK_BROWSER_FORWARD: u16 := 0xA7
  const VK_BROWSER_REFRESH: u16 := 0xA8
  const VK_BROWSER_STOP: u16 := 0xA9
  const VK_BROWSER_SEARCH: u16 := 0xAA
  const VK_BROWSER_FAVORITES: u16 := 0xAB
  const VK_BROWSER_HOME: u16 := 0xAC
  const VK_VOLUME_MUTE: u16 := 0xAD
  const VK_VOLUME_DOWN: u16 := 0xAE
  const VK_VOLUME_UP: u16 := 0xAF
  const VK_MEDIA_NEXT_TRACK: u16 := 0xB0
  const VK_MEDIA_PREV_TRACK: u16 := 0xB1
  const VK_MEDIA_STOP: u16 := 0xB2
  const VK_MEDIA_PLAY_PAUSE: u16 := 0xB3
  const VK_LAUNCH_MAIL: u16 := 0xB4
  const VK_LAUNCH_MEDIA_SELECT: u16 := 0xB5
  const VK_OEM_1: u16 := 0xBA
  const VK_OEM_PLUS: u16 := 0xBB
  const VK_OEM_COMMA: u16 := 0xBC
  const VK_OEM_MINUS: u16 := 0xBD
  const VK_OEM_PERIOD: u16 := 0xBE
  const VK_OEM_2: u16 := 0xBF
  const VK_OEM_3: u16 := 0xC0
  const VK_ABNT_C1: u16 := 0xC1
  const VK_ABNT_C2: u16 := 0xC2
  const VK_OEM_4: u16 := 0xDB
  const VK_OEM_5: u16 := 0xDC
  const VK_OEM_6: u16 := 0xDD
  const VK_OEM_7: u16 := 0xDE
  const VK_OEM_AX: u16 := 0xE1
  const VK_OEM_102: u16 := 0xE2
  const VK_OEM_COPY: u16 := 0xF2
  const VK_NONAME: u16 := 0xFC

  datatype Key =
    | Unknown | Tab | Enter | Space | Apostrophe | Comma | Minus | Period | ForwardSlash
    | Digit0 | Digit1 | Digit2 | Digit3 | Digit4 | Digit5 | Digit6 | Digit7 | Digit8
    | Digit9 | Semicolon | Equals | A | B | C | D | E | F | G | H | I | J | K | L
    | M | N | O | P | Q | R | S | T | U | V | W | X | Y | Z | LeftBracket | BackSlash
    | RightBracket | Accent | Escape | NumEnter | Backspace | Insert | Delete | Up
    | Down | Left | Right | PageUp | PageDown | Home | End | CapsLock | ScrollLock
    | NumLock | PrintScreen | Pause | Num0 | Num1 | Num2 | Num3 | Num4 | Num5 | Num6
    | Num7 | Num8 | Num9 | F1 | F2 | F3 | F4 | F5 | F6 | F7 | F8 | F9 | F10 | F11
    | F12 | F13 | F14 | F15 | F16 | F17 | F18 | F19 | F20 | F21 | F22 | F23 | F24
    | NumPeriod | NumComma | NumPlus | NumMinus | NumDivide | NumMultiply | NumEquals
    | LeftShift | LeftControl | LeftAlt | LeftSuper | RightShift | RightControl | RightAlt
    | RightSuper | Menu | AbntC1 | AbntC2 | Ax | Convert | Kana | Kanji | Mail | MediaPlayPause
    | MediaStop | MediaSelect | MediaNextTrack | MediaPrevTrack | VolumeDown | VolumeUp
    | VolumeMute | NoConvert | OEM102 | Sleep | NoName | WebBack | WebFavorites | WebForward
    | WebHome | WebRefresh | WebSearch | WebStop | Copy

  /** `Key::from(VIRTUAL_KEY)`: a virtual key outside the table is `Unknown`. */
  function FromVirtualKey(vk: u16): (k: Key)
    ensures vk == 0 || vk >= 0x100 ==> k == Unknown
  {
    if vk == VK_1 then Digit1
    else if vk == VK_2 then Digit2
    else if vk == VK_3 then Digit3
    else if vk == VK_4 then Digit4
    else if vk == VK_5 then Digit5
    else if vk == VK_6 then Digit6
    else if vk == VK_7 then Digit7
    else if vk == VK_8 then Digit8
    else if vk == VK_9 then Digit9
    else if vk == VK_0 then Digit0
    else if vk == VK_A then A
    else if vk == VK_B then B
    else if vk == VK_C then C
    else if vk == VK_D then D
    else if vk == VK_E then E
    else if vk == VK_F then F
    else if vk == VK_G then G
    else if vk == VK_H then H
    else if vk == VK_I then I
    else if vk == VK_J then J
    else if vk == VK_K then K
    else if vk == VK_L then L
    else if vk == VK_M then M
    else if vk == VK_N then N
    else if vk == VK_O then O
    else if vk == VK_P then P
    else if vk == VK_Q then Q
    else if vk == VK_R then R
    else if vk == VK_S then S
    else if vk == VK_T then T
    else if vk == VK_U then U
    else if vk == VK_V then V
    else if vk == VK_W then W
    else if vk == VK_X then X
    else if vk == VK_Y then Y
    else if vk == VK_Z then Z
    else if vk == VK_ESCAPE then Escape
    else if vk == VK_F1 then F1
    else if vk == VK_F2 then F2
    else if vk == VK_F3 then F3
    else if vk == VK_F4 then F4
    else if vk == VK_F5 then F5
    else if vk == VK_F6 then F6
    else if vk == VK_F7 then F7
    else if vk == VK_F8 then F8
    else if vk == VK_F9 then F9
    else if vk == VK_F10 then F10
    else if vk == VK_F11 then F11
    else if vk == VK_F12 then F12
    else if vk == VK_F13 then F13
    else if vk == VK_F14 then F14
    else if vk == VK_F15 then F15
    else if vk == VK_F16 then F16
    else if vk == VK_F17 then F17
    else if vk == VK_F18 then F18
    else if vk == VK_F19 then F19
    else if vk == VK_F20 then F20
    else if vk == VK_F21 then F21
    else if vk == VK_F22 then F22
    else if vk == VK_F23 then F23
    else if vk == VK_F24 then F24
    else if vk == VK_SNAPSHOT then PrintScreen
    else if vk == VK_SCROLL then ScrollLock
    else if vk == VK_PAUSE then Pause
    else if vk == VK_INSERT then Insert
    else if vk == VK_HOME then Home
    else if vk == VK_DELETE then Delete
    else if vk == VK_END then End
    else if vk == VK_NEXT then PageDown
    else if vk == VK_PRIOR then PageUp
    else if vk == VK_LEFT then Left
    else if vk == VK_UP then Up
    else if vk == VK_RIGHT then Right
    else if vk == VK_DOWN then Down
    else if vk == VK_BACK then Backspace
    else if vk == VK_RETURN then Enter
    else if vk == VK_SPACE then Space
    else if vk == VK_NUMLOCK then NumLock
    else if vk == VK_NUMPAD0 then Num0
    else if vk == VK_NUMPAD1 then Num1
    else if vk == VK_NUMPAD2 then Num2
    else if vk == VK_NUMPAD3 then Num3
    else if vk == VK_NUMPAD4 then Num4
    else if vk == VK_NUMPAD5 then Num5
    else if vk == VK_NUMPAD6 then Num6
    else if vk == VK_NUMPAD7 then Num7
    else if vk == VK_NUMPAD8 then Num8
    else if vk == VK_NUMPAD9 then Num9
    else if vk == VK_ADD then NumPlus
    else if vk == VK_SUBTRACT then NumMinus
    else if vk == VK_MULTIPLY then NumMultiply
    else if vk == VK_DIVIDE then NumDivide
    else if vk == VK_DECIMAL then NumPeriod
    else if vk == VK_ABNT_C1 then AbntC1
    else if vk == VK_ABNT_C2 then AbntC2
    else if vk == VK_OEM_7 then Apostrophe
    else if vk == VK_APPS then Menu
    else if vk == VK_OEM_AX then Ax
    else if vk == VK_OEM_5 then BackSlash
    else if vk == VK_CAPITAL then CapsLock
    else if vk == VK_OEM_COMMA then Comma
    else if vk == VK_CONVERT then Convert
    else if vk == VK_OEM_PLUS then Equals
    else if vk == VK_OEM_3 then Accent
    else if vk == VK_KANA then Kana
    else if vk == VK_KANJI then Kanji
    else if vk == VK_LMENU then LeftAlt
    else if vk == VK_OEM_4 then LeftBracket
    else if vk == VK_LCONTROL then LeftControl
    else if vk == VK_LSHIFT then LeftShift
    else if vk == VK_LWIN then LeftSuper
    else if vk == VK_LAUNCH_MAIL then Mail
    else if vk == VK_LAUNCH_MEDIA_SELECT then MediaSelect
    else if vk == VK_MEDIA_STOP then MediaStop
    else if vk == VK_OEM_MINUS then Minus
    else if vk == VK_VOLUME_MUTE then VolumeMute
    else if vk == VK_MEDIA_NEXT_TRACK then MediaNextTrack
    else if vk == VK_NONCONVERT then NoConvert
    else if vk == VK_OEM_102 then OEM102
    else if vk == VK_OEM_PERIOD then Period
    else if vk == VK_MEDIA_PLAY_PAUSE then MediaPlayPause
    else if vk == VK_MEDIA_PREV_TRACK then MediaPrevTrack
    else if vk == VK_RMENU then RightAlt
    else if vk == VK_OEM_6 then RightBracket
    else if vk == VK_RCONTROL then RightControl
    else if vk == VK_RSHIFT then RightShift
    else if vk == VK_RWIN then RightSuper
    else if vk == VK_OEM_1 then Semicolon
    else if vk == VK_OEM_2 then ForwardSlash
    else if vk == VK_SLEEP then Sleep
    else if vk == VK_TAB then Tab
    else if vk == VK_NONAME then NoName
    else if vk == VK_VOLUME_DOWN then VolumeDown
    else if vk == VK_VOLUME_UP then VolumeUp
    else if vk == VK_BROWSER_BACK then WebBack
    else if vk == VK_BROWSER_FAVORITES then WebFavorites
    else if vk == VK_BROWSER_FORWARD then WebForward
    else if vk == VK_BROWSER_HOME then WebHome
    else if vk == VK_BROWSER_REFRESH then WebRefresh
    else if vk == VK_BROWSER_SEARCH then WebSearch
    else if vk == VK_BROWSER_STOP then WebStop
    else if vk == VK_OEM_COPY then Copy
    else Unknown
  }

  /**
   * `VIRTUAL_KEY::from(Key)`. `Unknown` is the only key encoded as 0.
   */
  function ToVirtualKey(k: Key): (vk: u16)
    ensures vk == 0 <==> k == Unknown
  {
    match k
    case Digit1 => VK_1
    case Digit2 => VK_2
    case Digit3 => VK_3
    case Digit4 => VK_4
    case Digit5 => VK_5
    case Digit6 => VK_6
    case Digit7 => VK_7
    case Digit8 => VK_8
    case Digit9 => VK_9
    case Digit0 => VK_0
    case A => VK_A
    case B => VK_B
    case C => VK_C
    case D => VK_D
    case E => VK_E
    case F => VK_F
    case G => VK_G
    case H => VK_H
    case I => VK_I
    case J => VK_J
    case K => VK_K
    case L => VK_L
    case M => VK_M
    case N => VK_N
    case O => VK_O
    case P => VK_P
    case Q => VK_Q
    case R => VK_R
    case S => VK_S
    case T => VK_T
    case U => VK_U
    case V => VK_V
    case W => VK_W
    case X => VK_X
    case Y => VK_Y
    case Z => VK_Z
    case Escape => VK_ESCAPE
    case F1 => VK_F1
    case F2 => VK_F2
    case F3 => VK_F3
    case F4 => VK_F4
    case F5 => VK_F5
    case F6 => VK_F6
    case F7 => VK_F7
    case F8 => VK_F8
    case F9 => VK_F9
    case F10 => VK_F10
    case F11 => VK_F11
    case F12 => VK_F12
    case F13 => VK_F13
    case F14 => VK_F14
    case F15 => VK_F15
    case F16 => VK_F16
    case F17 => VK_F17
    case F18 => VK_F18
    case F19 => VK_F19
    case F20 => VK_F20
    case F21 => VK_F21
    case F22 => VK_F22
    case F23 => VK_F23
    case F24 => VK_F24
    case PrintScreen => VK_SNAPSHOT
    case ScrollLock => VK_SCROLL
    case Pause => VK_PAUSE
    case Insert => VK_INSERT
    case Home => VK_HOME
    case Delete => VK_DELETE
    case End => VK_END
    case PageDown => VK_NEXT
    case PageUp => VK_PRIOR
    case Left => VK_LEFT
    case Up => VK_UP
    case Right => VK_RIGHT
    case Down => VK_DOWN
    case Backspace => VK_BACK
    case Enter => VK_RETURN
    case Space => VK_SPACE
    case NumLock => VK_NUMLOCK
    case Num0 => VK_NUMPAD0
    case Num1 => VK_NUMPAD1
    case Num2 => VK_NUMPAD2
    case Num3 => VK_NUMPAD3
    case Num4 => VK_NUMPAD4
    case Num5 => VK_NUMPAD5
    case Num6 => VK_NUMPAD6
    case Num7 => VK_NUMPAD7
    case Num8 => VK_NUMPAD8
    case Num9 => VK_NUMPAD9
    case NumPlus => VK_ADD
    case NumMinus => VK_SUBTRACT
    case NumMultiply => VK_MULTIPLY
    case NumDivide => VK_DIVIDE
    case NumPeriod => VK_DECIMAL
    case AbntC1 => VK_ABNT_C1
    case AbntC2 => VK_ABNT_C2
    case Apostrophe => VK_OEM_7
    case Menu => VK_APPS
    case Ax => VK_OEM_AX
    case BackSlash => VK_OEM_5
    case CapsLock => VK_CAPITAL
    case Comma => VK_OEM_COMMA
    case Convert => VK_CONVERT
    case Equals => VK_OEM_PLUS
    case Accent => VK_OEM_3
    case Kana => VK_KANA
    case Kanji => VK_KANJI
    case LeftAlt => VK_LMENU
    case LeftBracket => VK_OEM_4
    case LeftControl => VK_LCONTROL
    case LeftShift => VK_LSHIFT
    case LeftSuper => VK_LWIN
    case Mail => VK_LAUNCH_MAIL
    case MediaSelect => VK_LAUNCH_MEDIA_SELECT
    case MediaStop => VK_MEDIA_STOP
    case Minus => VK_OEM_MINUS
    case VolumeMute => VK_VOLUME_MUTE
    case MediaNextTrack => VK_MEDIA_NEXT_TRACK
    case NoConvert => VK_NONCONVERT
    case OEM102 => VK_OEM_102
    case Period => VK_OEM_PERIOD
    case MediaPlayPause => VK_MEDIA_PLAY_PAUSE
    case MediaPrevTrack => VK_MEDIA_PREV_TRACK
    case RightAlt => VK_RMENU
    case RightBracket => VK_OEM_6
    case RightControl => VK_RCONTROL
    case RightShift => VK_RSHIFT
    case RightSuper => VK_RWIN
    case Semicolon => VK_OEM_1
    case ForwardSlash => VK_OEM_2
    case Sleep => VK_SLEEP
    case Tab => VK_TAB
    case NoName => VK_NONAME
    case VolumeDown => VK_VOLUME_DOWN
    case VolumeUp => VK_VOLUME_UP
    case WebBack => VK_BROWSER_BACK
    case WebFavorites => VK_BROWSER_FAVORITES
    case WebForward => VK_BROWSER_FORWARD
    case WebHome => VK_BROWSER_HOME
    case WebRefresh => VK_BROWSER_REFRESH
    case WebSearch => VK_BROWSER_SEARCH
    case WebStop => VK_BROWSER_STOP
    case Copy => VK_OEM_COPY
    case NumEnter => VK_RETURN
    case NumComma => VK_OEM_COMMA
    case NumEquals => VK_OEM_PLUS
    case Unknown => 0x00
  }

  // Decoding followed by encoding gives the code back. The proof goes range
  // by range over the virtual-key codes.

  /** The three keys that share a virtual-key code with another key. */
  function Canonical(k: Key): (c: Key)
    ensures c != NumEnter && c != NumComma && c != NumEquals
    ensures k != NumEnter && k != NumComma && k != NumEquals ==> c == k
  {
    match k
    case NumEnter => Enter
    case NumComma => Comma
    case NumEquals => Equals
    case _ => k
  }

  // ---------------------------------------------------------------------------
  // The two tables row by row: one lemma per key for its code, and one per
  // decoded code for the key it decodes to. The round-trip lemmas below split
  // the keys (and the codes) into blocks and use one row per case.

  lemma EncodeRowDigit1() ensures ToVirtualKey(Digit1) == VK_1 {}
  lemma EncodeRowDigit2() ensures ToVirtualKey(Digit2) == VK_2 {}
  lemma EncodeRowDigit3() ensures ToVirtualKey(Digit3) == VK_3 {}
  lemma EncodeRowDigit4() ensures ToVirtualKey(Digit4) == VK_4 {}
  lemma EncodeRowDigit5() ensures ToVirtualKey(Digit5) == VK_5 {}
  lemma EncodeRowDigit6() ensures ToVirtualKey(Digit6) == VK_6 {}
  lemma EncodeRowDigit7() ensures ToVirtualKey(Digit7) == VK_7 {}
  lemma EncodeRowDigit8() ensures ToVirtualKey(Digit8) == VK_8 {}
  lemma EncodeRowDigit9() ensures ToVirtualKey(Digit9) == VK_9 {}
  lemma EncodeRowDigit0() ensures ToVirtualKey(Digit0) == VK_0 {}
  lemma EncodeRowA() ensures ToVirtualKey(A) == VK_A {}
  lemma EncodeRowB() ensures ToVirtualKey(B) == VK_B {}
  lemma EncodeRowC() ensures ToVirtualKey(C) == VK_C {}
  lemma EncodeRowD() ensures ToVirtualKey(D) == VK_D {}
  lemma EncodeRowE() ensures ToVirtualKey(E) == VK_E {}
  lemma EncodeRowF() ensures ToVirtualKey(F) == VK_F {}
  lemma EncodeRowG() ensures ToVirtualKey(G) == VK_G {}
  lemma EncodeRowH() ensures ToVirtualKey(H) == VK_H {}
  lemma EncodeRowI() ensures ToVirtualKey(I) == VK_I {}
  lemma EncodeRowJ() ensures ToVirtualKey(J) == VK_J {}
  lemma EncodeRowK() ensures ToVirtualKey(K) == VK_K {}
  lemma EncodeRowL() ensures ToVirtualKey(L) == VK_L {}
  lemma EncodeRowM() ensures ToVirtualKey(M) == VK_M {}
  lemma EncodeRowN() ensures ToVirtualKey(N) == VK_N {}
  lemma EncodeRowO() ensures ToVirtualKey(O) == VK_O {}
  lemma EncodeRowP() ensures ToVirtualKey(P) == VK_P {}
  lemma EncodeRowQ() ensures ToVirtualKey(Q) == VK_Q {}
  lemma EncodeRowR() ensures ToVirtualKey(R) == VK_R {}
  lemma EncodeRowS() ensures ToVirtualKey(S) == VK_S {}
  lemma EncodeRowT() ensures ToVirtualKey(T) == VK_T {}
  lemma EncodeRowU() ensures ToVirtualKey(U) == VK_U {}
  lemma EncodeRowV() ensures ToVirtualKey(V) == VK_V {}
  lemma EncodeRowW() ensures ToVirtualKey(W) == VK_W {}
  lemma EncodeRowX() ensures ToVirtualKey(X) == VK_X {}
  lemma EncodeRowY() ensures ToVirtualKey(Y) == VK_Y {}
  lemma EncodeRowZ() ensures ToVirtualKey(Z) == VK_Z {}
  lemma EncodeRowEscape() ensures ToVirtualKey(Escape) == VK_ESCAPE {}
  lemma EncodeRowF1() ensures ToVirtualKey(F1) == VK_F1 {}
  lemma EncodeRowF2() ensures ToVirtualKey(F2) == VK_F2 {}
  lemma EncodeRowF3() ensures ToVirtualKey(F3) == VK_F3 {}
  lemma EncodeRowF4() ensures ToVirtualKey(F4) == VK_F4 {}
  lemma EncodeRowF5() ensures ToVirtualKey(F5) == VK_F5 {}
  lemma EncodeRowF6() ensures ToVirtualKey(F6) == VK_F6 {}
  lemma EncodeRowF7() ensures ToVirtualKey(F7) == VK_F7 {}
  lemma EncodeRowF8() ensures ToVirtualKey(F8) == VK_F8 {}
  lemma EncodeRowF9() ensures ToVirtualKey(F9) == VK_F9 {}
  lemma EncodeRowF10() ensures ToVirtualKey(F10) == VK_F10 {}
  lemma EncodeRowF11() ensures ToVirtualKey(F11) == VK_F11 {}
  lemma EncodeRowF12() ensures ToVirtualKey(F12) == VK_F12 {}
  lemma EncodeRowF13() ensures ToVirtualKey(F13) == VK_F13 {}
  lemma EncodeRowF14() ensures ToVirtualKey(F14) == VK_F14 {}
  lemma EncodeRowF15() ensures ToVirtualKey(F15) == VK_F15 {}
  lemma EncodeRowF16() ensures ToVirtualKey(F16) == VK_F16 {}
  lemma EncodeRowF17() ensures ToVirtualKey(F17) == VK_F17 {}
  lemma EncodeRowF18() ensures ToVirtualKey(F18) == VK_F18 {}
  lemma EncodeRowF19() ensures ToVirtualKey(F19) == VK_F19 {}
  lemma EncodeRowF20() ensures ToVirtualKey(F20) == VK_F20 {}
  lemma EncodeRowF21() ensures ToVirtualKey(F21) == VK_F21 {}
  lemma EncodeRowF22() ensures ToVirtualKey(F22) == VK_F22 {}
  lemma EncodeRowF23() ensures ToVirtualKey(F23) == VK_F23 {}
  lemma EncodeRowF24() ensures ToVirtualKey(F24) == VK_F24 {}
  lemma EncodeRowPrintScreen() ensures ToVirtualKey(PrintScreen) == VK_SNAPSHOT {}
  lemma EncodeRowScrollLock() ensures ToVirtualKey(ScrollLock) == VK_SCROLL {}
  lemma EncodeRowPause() ensures ToVirtualKey(Pause) == VK_PAUSE {}
  lemma EncodeRowInsert() ensures ToVirtualKey(Insert) == VK_INSERT {}
  lemma EncodeRowHome() ensures ToVirtualKey(Home) == VK_HOME {}
  lemma EncodeRowDelete() ensures ToVirtualKey(Delete) == VK_DELETE {}
  lemma EncodeRowEnd() ensures ToVirtualKey(End) == VK_END {}
  lemma EncodeRowPageDown() ensures ToVirtualKey(PageDown) == VK_NEXT {}
  lemma EncodeRowPageUp() ensures ToVirtualKey(PageUp) == VK_PRIOR {}
  lemma EncodeRowLeft() ensures ToVirtualKey(Left) == VK_LEFT {}
  lemma EncodeRowUp() ensures ToVirtualKey(Up) == VK_UP {}
  lemma EncodeRowRight() ensures ToVirtualKey(Right) == VK_RIGHT {}
  lemma EncodeRowDown() ensures ToVirtualKey(Down) == VK_DOWN {}
  lemma EncodeRowBackspace() ensures ToVirtualKey(Backspace) == VK_BACK {}
  lemma EncodeRowEnter() ensures ToVirtualKey(Enter) == VK_RETURN {}
  lemma EncodeRowSpace() ensures ToVirtualKey(Space) == VK_SPACE {}
  lemma EncodeRowNumLock() ensures ToVirtualKey(NumLock) == VK_NUMLOCK {}
  lemma EncodeRowNum0() ensures ToVirtualKey(Num0) == VK_NUMPAD0 {}
  lemma EncodeRowNum1() ensures ToVirtualKey(Num1) == VK_NUMPAD1 {}
  lemma EncodeRowNum2() ensures ToVirtualKey(Num2) == VK_NUMPAD2 {}
  lemma EncodeRowNum3() ensures ToVirtualKey(Num3) == VK_NUMPAD3 {}
  lemma EncodeRowNum4() ensures ToVirtualKey(Num4) == VK_NUMPAD4 {}
  lemma EncodeRowNum5() ensures ToVirtualKey(Num5) == VK_NUMPAD5 {}
  lemma EncodeRowNum6() ensures ToVirtualKey(Num6) == VK_NUMPAD6 {}
  lemma EncodeRowNum7() ensures ToVirtualKey(Num7) == VK_NUMPAD7 {}
  lemma EncodeRowNum8() ensures ToVirtualKey(Num8) == VK_NUMPAD8 {}
  lemma EncodeRowNum9() ensures ToVirtualKey(Num9) == VK_NUMPAD9 {}
  lemma EncodeRowNumPlus() ensures ToVirtualKey(NumPlus) == VK_ADD {}
  lemma EncodeRowNumMinus() ensures ToVirtualKey(NumMinus) == VK_SUBTRACT {}
  lemma EncodeRowNumMultiply() ensures ToVirtualKey(NumMultiply) == VK_MULTIPLY {}
  lemma EncodeRowNumDivide() ensures ToVirtualKey(NumDivide) == VK_DIVIDE {}
  lemma EncodeRowNumPeriod() ensures ToVirtualKey(NumPeriod) == VK_DECIMAL {}
  lemma EncodeRowAbntC1() ensures ToVirtualKey(AbntC1) == VK_ABNT_C1 {}
  lemma EncodeRowAbntC2() ensures ToVirtualKey(AbntC2) == VK_ABNT_C2 {}
  lemma EncodeRowApostrophe() ensures ToVirtualKey(Apostrophe) == VK_OEM_7 {}
  lemma EncodeRowMenu() ensures ToVirtualKey(Menu) == VK_APPS {}
  lemma EncodeRowAx() ensures ToVirtualKey(Ax) == VK_OEM_AX {}
  lemma EncodeRowBackSlash() ensures ToVirtualKey(BackSlash) == VK_OEM_5 {}
  lemma EncodeRowCapsLock() ensures ToVirtualKey(CapsLock) == VK_CAPITAL {}
  lemma EncodeRowComma() ensures ToVirtualKey(Comma) == VK_OEM_COMMA {}
  lemma EncodeRowConvert() ensures ToVirtualKey(Convert) == VK_CONVERT {}
  lemma EncodeRowEquals() ensures ToVirtualKey(Equals) == VK_OEM_PLUS {}
  lemma EncodeRowAccent() ensures ToVirtualKey(Accent) == VK_OEM_3 {}
  lemma EncodeRowKana() ensures ToVirtualKey(Kana) == VK_KANA {}
  lemma EncodeRowKanji() ensures ToVirtualKey(Kanji) == VK_KANJI {}
  lemma EncodeRowLeftAlt() ensures ToVirtualKey(LeftAlt) == VK_LMENU {}
  lemma EncodeRowLeftBracket() ensures ToVirtualKey(LeftBracket) == VK_OEM_4 {}
  lemma EncodeRowLeftControl() ensures ToVirtualKey(LeftControl) == VK_LCONTROL {}
  lemma EncodeRowLeftShift() ensures ToVirtualKey(LeftShift) == VK_LSHIFT {}
  lemma EncodeRowLeftSuper() ensures ToVirtualKey(LeftSuper) == VK_LWIN {}
  lemma EncodeRowMail() ensures ToVirtualKey(Mail) == VK_LAUNCH_MAIL {}
  lemma EncodeRowMediaSelect() ensures ToVirtualKey(MediaSelect) == VK_LAUNCH_MEDIA_SELECT {}
  lemma EncodeRowMediaStop() ensures ToVirtualKey(MediaStop) == VK_MEDIA_STOP {}
  lemma EncodeRowMinus() ensures ToVirtualKey(Minus) == VK_OEM_MINUS {}
  lemma EncodeRowVolumeMute() ensures ToVirtualKey(VolumeMute) == VK_VOLUME_MUTE {}
  lemma EncodeRowMediaNextTrack() ensures ToVirtualKey(MediaNextTrack) == VK_MEDIA_NEXT_TRACK {}
  lemma EncodeRowNoConvert() ensures ToVirtualKey(NoConvert) == VK_NONCONVERT {}
  lemma EncodeRowOEM102() ensures ToVirtualKey(OEM102) == VK_OEM_102 {}
  lemma EncodeRowPeriod() ensures ToVirtualKey(Period) == VK_OEM_PERIOD {}
  lemma EncodeRowMediaPlayPause() ensures ToVirtualKey(MediaPlayPause) == VK_MEDIA_PLAY_PAUSE {}
  lemma EncodeRowMediaPrevTrack() ensures ToVirtualKey(MediaPrevTrack) == VK_MEDIA_PREV_TRACK {}
  lemma EncodeRowRightAlt() ensures ToVirtualKey(RightAlt) == VK_RMENU {}
  lemma EncodeRowRightBracket() ensures ToVirtualKey(RightBracket) == VK_OEM_6 {}
  lemma EncodeRowRightControl() ensures ToVirtualKey(RightControl) == VK_RCONTROL {}
  lemma EncodeRowRightShift() ensures ToVirtualKey(RightShift) == VK_RSHIFT {}
  lemma EncodeRowRightSuper() ensures ToVirtualKey(RightSuper) == VK_RWIN {}
  lemma EncodeRowSemicolon() ensures ToVirtualKey(Semicolon) == VK_OEM_1 {}
  lemma EncodeRowForwardSlash() ensures ToVirtualKey(ForwardSlash) == VK_OEM_2 {}
  lemma EncodeRowSleep() ensures ToVirtualKey(Sleep) == VK_SLEEP {}
  lemma EncodeRowTab() ensures ToVirtualKey(Tab) == VK_TAB {}
  lemma EncodeRowNoName() ensures ToVirtualKey(NoName) == VK_NONAME {}
  lemma EncodeRowVolumeDown() ensures ToVirtualKey(VolumeDown) == VK_VOLUME_DOWN {}
  lemma EncodeRowVolumeUp() ensures ToVirtualKey(VolumeUp) == VK_VOLUME_UP {}
  lemma EncodeRowWebBack() ensures ToVirtualKey(WebBack) == VK_BROWSER_BACK {}
  lemma EncodeRowWebFavorites() ensures ToVirtualKey(WebFavorites) == VK_BROWSER_FAVORITES {}
  lemma EncodeRowWebForward() ensures ToVirtualKey(WebForward) == VK_BROWSER_FORWARD {}
  lemma EncodeRowWebHome() ensures ToVirtualKey(WebHome) == VK_BROWSER_HOME {}
  lemma EncodeRowWebRefresh() ensures ToVirtualKey(WebRefresh) == VK_BROWSER_REFRESH {}
  lemma EncodeRowWebSearch() ensures ToVirtualKey(WebSearch) == VK_BROWSER_SEARCH {}
  lemma EncodeRowWebStop() ensures ToVirtualKey(WebStop) == VK_BROWSER_STOP {}
  lemma EncodeRowCopy() ensures ToVirtualKey(Copy) == VK_OEM_COPY {}
  lemma EncodeRowNumEnter() ensures ToVirtualKey(NumEnter) == VK_RETURN {}
  lemma EncodeRowNumComma() ensures ToVirtualKey(NumComma) == VK_OEM_COMMA {}
  lemma EncodeRowNumEquals() ensures ToVirtualKey(NumEquals) == VK_OEM_PLUS {}

  lemma DecodeRowDigit1() ensures FromVirtualKey(VK_1) == Digit1 {}
  lemma DecodeRowDigit2() ensures FromVirtualKey(VK_2) == Digit2 {}
  lemma DecodeRowDigit3() ensures FromVirtualKey(VK_3) == Digit3 {}
  lemma DecodeRowDigit4() ensures FromVirtualKey(VK_4) == Digit4 {}
  lemma DecodeRowDigit5() ensures FromVirtualKey(VK_5) == Digit5 {}
  lemma DecodeRowDigit6() ensures FromVirtualKey(VK_6) == Digit6 {}
  lemma DecodeRowDigit7() ensures FromVirtualKey(VK_7) == Digit7 {}
  lemma DecodeRowDigit8() ensures FromVirtualKey(VK_8) == Digit8 {}
  lemma DecodeRowDigit9() ensures FromVirtualKey(VK_9) == Digit9 {}
  lemma DecodeRowDigit0() ensures FromVirtualKey(VK_0) == Digit0 {}
  lemma DecodeRowA() ensures FromVirtualKey(VK_A) == A {}
  lemma DecodeRowB() ensures FromVirtualKey(VK_B) == B {}
  lemma DecodeRowC() ensures FromVirtualKey(VK_C) == C {}
  lemma DecodeRowD() ensures FromVirtualKey(VK_D) == D {}
  lemma DecodeRowE() ensures FromVirtualKey(VK_E) == E {}
  lemma DecodeRowF() ensures FromVirtualKey(VK_F) == F {}
  lemma DecodeRowG() ensures FromVirtualKey(VK_G) == G {}
  lemma DecodeRowH() ensures FromVirtualKey(VK_H) == H {}
  lemma DecodeRowI() ensures FromVirtualKey(VK_I) == I {}
  lemma DecodeRowJ() ensures FromVirtualKey(VK_J) == J {}
  lemma DecodeRowK() ensures FromVirtualKey(VK_K) == K {}
  lemma DecodeRowL() ensures FromVirtualKey(VK_L) == L {}
  lemma DecodeRowM() ensures FromVirtualKey(VK_M) == M {}
  lemma DecodeRowN() ensures FromVirtualKey(VK_N) == N {}
  lemma DecodeRowO() ensures FromVirtualKey(VK_O) == O {}
  lemma DecodeRowP() ensures FromVirtualKey(VK_P) == P {}
  lemma DecodeRowQ() ensures FromVirtualKey(VK_Q) == Q {}
  lemma DecodeRowR() ensures FromVirtualKey(VK_R) == R {}
  lemma DecodeRowS() ensures FromVirtualKey(VK_S) == S {}
  lemma DecodeRowT() ensures FromVirtualKey(VK_T) == T {}
  lemma DecodeRowU() ensures FromVirtualKey(VK_U) == U {}
  lemma DecodeRowV() ensures FromVirtualKey(VK_V) == V {}
  lemma DecodeRowW() ensures FromVirtualKey(VK_W) == W {}
  lemma DecodeRowX() ensures FromVirtualKey(VK_X) == X {}
  lemma DecodeRowY() ensures FromVirtualKey(VK_Y) == Y {}
  lemma DecodeRowZ() ensures FromVirtualKey(VK_Z) == Z {}
  lemma DecodeRowEscape() ensures FromVirtualKey(VK_ESCAPE) == Escape {}
  lemma DecodeRowF1() ensures FromVirtualKey(VK_F1) == F1 {}
  lemma DecodeRowF2() ensures FromVirtualKey(VK_F2) == F2 {}
  lemma DecodeRowF3() ensures FromVirtualKey(VK_F3) == F3 {}
  lemma DecodeRowF4() ensures FromVirtualKey(VK_F4) == F4 {}
  lemma DecodeRowF5() ensures FromVirtualKey(VK_F5) == F5 {}
  lemma DecodeRowF6() ensures FromVirtualKey(VK_F6) == F6 {}
  lemma DecodeRowF7() ensures FromVirtualKey(VK_F7) == F7 {}
  lemma DecodeRowF8() ensures FromVirtualKey(VK_F8) == F8 {}
  lemma DecodeRowF9() ensures FromVirtualKey(VK_F9) == F9 {}
  lemma DecodeRowF10() ensures FromVirtualKey(VK_F10) == F10 {}
  lemma DecodeRowF11() ensures FromVirtualKey(VK_F11) == F11 {}
  lemma DecodeRowF12() ensures FromVirtualKey(VK_F12) == F12 {}
  lemma DecodeRowF13() ensures FromVirtualKey(VK_F13) == F13 {}
  lemma DecodeRowF14() ensures FromVirtualKey(VK_F14) == F14 {}
  lemma DecodeRowF15() ensures FromVirtualKey(VK_F15) == F15 {}
  lemma DecodeRowF16() ensures FromVirtualKey(VK_F16) == F16 {}
  lemma DecodeRowF17() ensures FromVirtualKey(VK_F17) == F17 {}
  lemma DecodeRowF18() ensures FromVirtualKey(VK_F18) == F18 {}
  lemma DecodeRowF19() ensures FromVirtualKey(VK_F19) == F19 {}
  lemma DecodeRowF20() ensures FromVirtualKey(VK_F20) == F20 {}
  lemma DecodeRowF21() ensures FromVirtualKey(VK_F21) == F21 {}
  lemma DecodeRowF22() ensures FromVirtualKey(VK_F22) == F22 {}
  lemma DecodeRowF23() ensures FromVirtualKey(VK_F23) == F23 {}
  lemma DecodeRowF24() ensures FromVirtualKey(VK_F24) == F24 {}
  lemma DecodeRowPrintScreen() ensures FromVirtualKey(VK_SNAPSHOT) == PrintScreen {}
  lemma DecodeRowScrollLock() ensures FromVirtualKey(VK_SCROLL) == ScrollLock {}
  lemma DecodeRowPause() ensures FromVirtualKey(VK_PAUSE) == Pause {}
  lemma DecodeRowInsert() ensures FromVirtualKey(VK_INSERT) == Insert {}
  lemma DecodeRowHome() ensures FromVirtualKey(VK_HOME) == Home {}
  lemma DecodeRowDelete() ensures FromVirtualKey(VK_DELETE) == Delete {}
  lemma DecodeRowEnd() ensures FromVirtualKey(VK_END) == End {}
  lemma DecodeRowPageDown() ensures FromVirtualKey(VK_NEXT) == PageDown {}
  lemma DecodeRowPageUp() ensures FromVirtualKey(VK_PRIOR) == PageUp {}
  lemma DecodeRowLeft() ensures FromVirtualKey(VK_LEFT) == Left {}
  lemma DecodeRowUp() ensures FromVirtualKey(VK_UP) == Up {}
  lemma DecodeRowRight() ensures FromVirtualKey(VK_RIGHT) == Right {}
  lemma DecodeRowDown() ensures FromVirtualKey(VK_DOWN) == Down {}
  lemma DecodeRowBackspace() ensures FromVirtualKey(VK_BACK) == Backspace {}
  lemma DecodeRowEnter() ensures FromVirtualKey(VK_RETURN) == Enter {}
  lemma DecodeRowSpace() ensures FromVirtualKey(VK_SPACE) == Space {}
  lemma DecodeRowNumLock() ensures FromVirtualKey(VK_NUMLOCK) == NumLock {}
  lemma DecodeRowNum0() ensures FromVirtualKey(VK_NUMPAD0) == Num0 {}
  lemma DecodeRowNum1() ensures FromVirtualKey(VK_NUMPAD1) == Num1 {}
  lemma DecodeRowNum2() ensures FromVirtualKey(VK_NUMPAD2) == Num2 {}
  lemma DecodeRowNum3() ensures FromVirtualKey(VK_NUMPAD3) == Num3 {}
  lemma DecodeRowNum4() ensures FromVirtualKey(VK_NUMPAD4) == Num4 {}
  lemma DecodeRowNum5() ensures FromVirtualKey(VK_NUMPAD5) == Num5 {}
  lemma DecodeRowNum6() ensures FromVirtualKey(VK_NUMPAD6) == Num6 {}
  lemma DecodeRowNum7() ensures FromVirtualKey(VK_NUMPAD7) == Num7 {}
  lemma DecodeRowNum8() ensures FromVirtualKey(VK_NUMPAD8) == Num8 {}
  lemma DecodeRowNum9() ensures FromVirtualKey(VK_NUMPAD9) == Num9 {}
  lemma DecodeRowNumPlus() ensures FromVirtualKey(VK_ADD) == NumPlus {}
  lemma DecodeRowNumMinus() ensures FromVirtualKey(VK_SUBTRACT) == NumMinus {}
  lemma DecodeRowNumMultiply() ensures FromVirtualKey(VK_MULTIPLY) == NumMultiply {}
  lemma DecodeRowNumDivide() ensures FromVirtualKey(VK_DIVIDE) == NumDivide {}
  lemma DecodeRowNumPeriod() ensures FromVirtualKey(VK_DECIMAL) == NumPeriod {}
  lemma DecodeRowAbntC1() ensures FromVirtualKey(VK_ABNT_C1) == AbntC1 {}
  lemma DecodeRowAbntC2() ensures FromVirtualKey(VK_ABNT_C2) == AbntC2 {}
  lemma DecodeRowApostrophe() ensures FromVirtualKey(VK_OEM_7) == Apostrophe {}
  lemma DecodeRowMenu() ensures FromVirtualKey(VK_APPS) == Menu {}
  lemma DecodeRowAx() ensures FromVirtualKey(VK_OEM_AX) == Ax {}
  lemma DecodeRowBackSlash() ensures FromVirtualKey(VK_OEM_5) == BackSlash {}
  lemma DecodeRowCapsLock() ensures FromVirtualKey(VK_CAPITAL) == CapsLock {}
  lemma DecodeRowComma() ensures FromVirtualKey(VK_OEM_COMMA) == Comma {}
  lemma DecodeRowConvert() ensures FromVirtualKey(VK_CONVERT) == Convert {}
  lemma DecodeRowEquals() ensures FromVirtualKey(VK_OEM_PLUS) == Equals {}
  lemma DecodeRowAccent() ensures FromVirtualKey(VK_OEM_3) == Accent {}
  lemma DecodeRowKana() ensures FromVirtualKey(VK_KANA) == Kana {}
  lemma DecodeRowKanji() ensures FromVirtualKey(VK_KANJI) == Kanji {}
  lemma DecodeRowLeftAlt() ensures FromVirtualKey(VK_LMENU) == LeftAlt {}
  lemma DecodeRowLeftBracket() ensures FromVirtualKey(VK_OEM_4) == LeftBracket {}
  lemma DecodeRowLeftControl() ensures FromVirtualKey(VK_LCONTROL) == LeftControl {}
  lemma DecodeRowLeftShift() ensures FromVirtualKey(VK_LSHIFT) == LeftShift {}
  lemma DecodeRowLeftSuper() ensures FromVirtualKey(VK_LWIN) == LeftSuper {}
  lemma DecodeRowMail() ensures FromVirtualKey(VK_LAUNCH_MAIL) == Mail {}
  lemma DecodeRowMediaSelect() ensures FromVirtualKey(VK_LAUNCH_MEDIA_SELECT) == MediaSelect {}
  lemma DecodeRowMediaStop() ensures FromVirtualKey(VK_MEDIA_STOP) == MediaStop {}
  lemma DecodeRowMinus() ensures FromVirtualKey(VK_OEM_MINUS) == Minus {}
  lemma DecodeRowVolumeMute() ensures FromVirtualKey(VK_VOLUME_MUTE) == VolumeMute {}
  lemma DecodeRowMediaNextTrack() ensures FromVirtualKey(VK_MEDIA_NEXT_TRACK) == MediaNextTrack {}
  lemma DecodeRowNoConvert() ensures FromVirtualKey(VK_NONCONVERT) == NoConvert {}
  lemma DecodeRowOEM102() ensures FromVirtualKey(VK_OEM_102) == OEM102 {}
  lemma DecodeRowPeriod() ensures FromVirtualKey(VK_OEM_PERIOD) == Period {}
  lemma DecodeRowMediaPlayPause() ensures FromVirtualKey(VK_MEDIA_PLAY_PAUSE) == MediaPlayPause {}
  lemma DecodeRowMediaPrevTrack() ensures FromVirtualKey(VK_MEDIA_PREV_TRACK) == MediaPrevTrack {}
  lemma DecodeRowRightAlt() ensures FromVirtualKey(VK_RMENU) == RightAlt {}
  lemma DecodeRowRightBracket() ensures FromVirtualKey(VK_OEM_6) == RightBracket {}
  lemma DecodeRowRightControl() ensures FromVirtualKey(VK_RCONTROL) == RightControl {}
  lemma DecodeRowRightShift() ensures FromVirtualKey(VK_RSHIFT) == RightShift {}
  lemma DecodeRowRightSuper() ensures FromVirtualKey(VK_RWIN) == RightSuper {}
  lemma DecodeRowSemicolon() ensures FromVirtualKey(VK_OEM_1) == Semicolon {}
  lemma DecodeRowForwardSlash() ensures FromVirtualKey(VK_OEM_2) == ForwardSlash {}
  lemma DecodeRowSleep() ensures FromVirtualKey(VK_SLEEP) == Sleep {}
  lemma DecodeRowTab() ensures FromVirtualKey(VK_TAB) == Tab {}
  lemma DecodeRowNoName() ensures FromVirtualKey(VK_NONAME) == NoName {}
  lemma DecodeRowVolumeDown() ensures FromVirtualKey(VK_VOLUME_DOWN) == VolumeDown {}
  lemma DecodeRowVolumeUp() ensures FromVirtualKey(VK_VOLUME_UP) == VolumeUp {}
  lemma DecodeRowWebBack() ensures FromVirtualKey(VK_BROWSER_BACK) == WebBack {}
  lemma DecodeRowWebFavorites() ensures FromVirtualKey(VK_BROWSER_FAVORITES) == WebFavorites {}
  lemma DecodeRowWebForward() ensures FromVirtualKey(VK_BROWSER_FORWARD) == WebForward {}
  lemma DecodeRowWebHome() ensures FromVirtualKey(VK_BROWSER_HOME) == WebHome {}
  lemma DecodeRowWebRefresh() ensures FromVirtualKey(VK_BROWSER_REFRESH) == WebRefresh {}
  lemma DecodeRowWebSearch() ensures FromVirtualKey(VK_BROWSER_SEARCH) == WebSearch {}
  lemma DecodeRowWebStop() ensures FromVirtualKey(VK_BROWSER_STOP) == WebStop {}
  lemma DecodeRowCopy() ensures FromVirtualKey(VK_OEM_COPY) == Copy {}

  // Blocks of keys, in the order of the encoding table.

  /** Keys of the digit row. */
  predicate IsDigitKey(k: Key) {
    k.Digit1? || k.Digit2? || k.Digit3? || k.Digit4? || k.Digit5? || k.Digit6? || k.Digit7?
    || k.Digit8? || k.Digit9? || k.Digit0?
  }

  /** Keys of the letters A to M. */
  predicate IsLetterAToM(k: Key) {
    k.A? || k.B? || k.C? || k.D? || k.E? || k.F? || k.G? || k.H? || k.I? || k.J? || k.K? || k.L?
    || k.M?
  }

  /** Keys of the letters N to Z. */
  predicate IsLetterNToZ(k: Key) {
    k.N? || k.O? || k.P? || k.Q? || k.R? || k.S? || k.T? || k.U? || k.V? || k.W? || k.X? || k.Y?
    || k.Z?
  }

  /** Keys of Escape and F1 to F12. */
  predicate IsEscapeOrLowFunctionKey(k: Key) {
    k.Escape? || k.F1? || k.F2? || k.F3? || k.F4? || k.F5? || k.F6? || k.F7? || k.F8? || k.F9?
    || k.F10? || k.F11? || k.F12?
  }

  /** Keys of F13 to F24. */
  predicate IsHighFunctionKey(k: Key) {
    k.F13? || k.F14? || k.F15? || k.F16? || k.F17? || k.F18? || k.F19? || k.F20? || k.F21?
    || k.F22? || k.F23? || k.F24?
  }

  /** Keys of the editing and navigation keys. */
  predicate IsEditingKey(k: Key) {
    k.PrintScreen? || k.ScrollLock? || k.Pause? || k.Insert? || k.Home? || k.Delete? || k.End?
    || k.PageDown? || k.PageUp? || k.Left? || k.Up? || k.Right? || k.Down? || k.Backspace?
    || k.Enter? || k.Space?
  }

  /** Keys of the numpad keys with a code of their own. */
  predicate IsNumpadKey(k: Key) {
    k.NumLock? || k.Num0? || k.Num1? || k.Num2? || k.Num3? || k.Num4? || k.Num5? || k.Num6?
    || k.Num7? || k.Num8? || k.Num9? || k.NumPlus? || k.NumMinus? || k.NumMultiply?
    || k.NumDivide? || k.NumPeriod?
  }

  /** Keys of the remaining keys, first block (AbntC1 to LeftAlt). */
  predicate IsOemKeyFirst(k: Key) {
    k.AbntC1? || k.AbntC2? || k.Apostrophe? || k.Menu? || k.Ax? || k.BackSlash? || k.CapsLock?
    || k.Comma? || k.Convert? || k.Equals? || k.Accent? || k.Kana? || k.Kanji? || k.LeftAlt?
  }

  /** Keys of the remaining keys, second block (LeftBracket to RightAlt). */
  predicate IsOemKeySecond(k: Key) {
    k.LeftBracket? || k.LeftControl? || k.LeftShift? || k.LeftSuper? || k.Mail?
    || k.MediaSelect? || k.MediaStop? || k.Minus? || k.VolumeMute? || k.MediaNextTrack?
    || k.NoConvert? || k.OEM102? || k.Period? || k.MediaPlayPause? || k.MediaPrevTrack?
    || k.RightAlt?
  }

  /** Keys of the remaining keys, third block (RightBracket to Copy). */
  predicate IsOemKeyThird(k: Key) {
    k.RightBracket? || k.RightControl? || k.RightShift? || k.RightSuper? || k.Semicolon?
    || k.ForwardSlash? || k.Sleep? || k.Tab? || k.NoName? || k.VolumeDown? || k.VolumeUp?
    || k.WebBack? || k.WebFavorites? || k.WebForward? || k.WebHome? || k.WebRefresh?
    || k.WebSearch? || k.WebStop? || k.Copy?
  }

  /** Keys of the three aliases and Unknown. */
  predicate IsAliasOrUnknown(k: Key) {
    k.NumEnter? || k.NumComma? || k.NumEquals? || k.Unknown?
  }

  lemma KeyRoundTripDigitKey(k: Key)
    requires IsDigitKey(k)
    ensures FromVirtualKey(ToVirtualKey(k)) == Canonical(k)
  {
    match k
    case Digit1 =>
      EncodeRowDigit1();
      DecodeRowDigit1();
    case Digit2 =>
      EncodeRowDigit2();
      DecodeRowDigit2();
    case Digit3 =>
      EncodeRowDigit3();
      DecodeRowDigit3();
    case Digit4 =>
      EncodeRowDigit4();
      DecodeRowDigit4();
    case Digit5 =>
      EncodeRowDigit5();
      DecodeRowDigit5();
    case Digit6 =>
      EncodeRowDigit6();
      DecodeRowDigit6();
    case Digit7 =>
      EncodeRowDigit7();
      DecodeRowDigit7();
    case Digit8 =>
      EncodeRowDigit8();
      DecodeRowDigit8();
    case Digit9 =>
      EncodeRowDigit9();
      DecodeRowDigit9();
    case Digit0 =>
      EncodeRowDigit0();
      DecodeRowDigit0();
    case _ =>
      assert false;
  }

  lemma KeyRoundTripLetterAToM(k: Key)
    requires IsLetterAToM(k)
    ensures FromVirtualKey(ToVirtualKey(k)) == Canonical(k)
  {
    match k
    case A =>
      EncodeRowA();
      DecodeRowA();
    case B =>
      EncodeRowB();
      DecodeRowB();
    case C =>
      EncodeRowC();
      DecodeRowC();
    case D =>
      EncodeRowD();
      DecodeRowD();
    case E =>
      EncodeRowE();
      DecodeRowE();
    case F =>
      EncodeRowF();
      DecodeRowF();
    case G =>
      EncodeRowG();
      DecodeRowG();
    case H =>
      EncodeRowH();
      DecodeRowH();
    case I =>
      EncodeRowI();
      DecodeRowI();
    case J =>
      EncodeRowJ();
      DecodeRowJ();
    case K =>
      EncodeRowK();
      DecodeRowK();
    case L =>
      EncodeRowL();
      DecodeRowL();
    case M =>
      EncodeRowM();
      DecodeRowM();
    case _ =>
      assert false;
  }

  lemma KeyRoundTripLetterNToZ(k: Key)
    requires IsLetterNToZ(k)
    ensures FromVirtualKey(ToVirtualKey(k)) == Canonical(k)
  {
    match k
    case N =>
      EncodeRowN();
      DecodeRowN();
    case O =>
      EncodeRowO();
      DecodeRowO();
    case P =>
      EncodeRowP();
      DecodeRowP();
    case Q =>
      EncodeRowQ();
      DecodeRowQ();
    case R =>
      EncodeRowR();
      DecodeRowR();
    case S =>
      EncodeRowS();
      DecodeRowS();
    case T =>
      EncodeRowT();
      DecodeRowT();
    case U =>
      EncodeRowU();
      DecodeRowU();
    case V =>
      EncodeRowV();
      DecodeRowV();
    case W =>
      EncodeRowW();
      DecodeRowW();
    case X =>
      EncodeRowX();
      DecodeRowX();
    case Y =>
      EncodeRowY();
      DecodeRowY();
    case Z =>
      EncodeRowZ();
      DecodeRowZ();
    case _ =>
      assert false;
  }

  lemma KeyRoundTripEscapeOrLowFunctionKey(k: Key)
    requires IsEscapeOrLowFunctionKey(k)
    ensures FromVirtualKey(ToVirtualKey(k)) == Canonical(k)
  {
    match k
    case Escape =>
      EncodeRowEscape();
      DecodeRowEscape();
    case F1 =>
      EncodeRowF1();
      DecodeRowF1();
    case F2 =>
      EncodeRowF2();
      DecodeRowF2();
    case F3 =>
      EncodeRowF3();
      DecodeRowF3();
    case F4 =>
      EncodeRowF4();
      DecodeRowF4();
    case F5 =>
      EncodeRowF5();
      DecodeRowF5();
    case F6 =>
      EncodeRowF6();
      DecodeRowF6();
    case F7 =>
      EncodeRowF7();
      DecodeRowF7();
    case F8 =>
      EncodeRowF8();
      DecodeRowF8();
    case F9 =>
      EncodeRowF9();
      DecodeRowF9();
    case F10 =>
      EncodeRowF10();
      DecodeRowF10();
    case F11 =>
      EncodeRowF11();
      DecodeRowF11();
    case F12 =>
      EncodeRowF12();
      DecodeRowF12();
    case _ =>
      assert false;
  }

  lemma KeyRoundTripHighFunctionKey(k: Key)
    requires IsHighFunctionKey(k)
    ensures FromVirtualKey(ToVirtualKey(k)) == Canonical(k)
  {
    match k
    case F13 =>
      EncodeRowF13();
      DecodeRowF13();
    case F14 =>
      EncodeRowF14();
      DecodeRowF14();
    case F15 =>
      EncodeRowF15();
      DecodeRowF15();
    case F16 =>
      EncodeRowF16();
      DecodeRowF16();
    case F17 =>
      EncodeRowF17();
      DecodeRowF17();
    case F18 =>
      EncodeRowF18();
      DecodeRowF18();
    case F19 =>
      EncodeRowF19();
      DecodeRowF19();
    case F20 =>
      EncodeRowF20();
      DecodeRowF20();
    case F21 =>
      EncodeRowF21();
      DecodeRowF21();
    case F22 =>
      EncodeRowF22();
      DecodeRowF22();
    case F23 =>
      EncodeRowF23();
      DecodeRowF23();
    case F24 =>
      EncodeRowF24();
      DecodeRowF24();
    case _ =>
      assert false;
  }

  lemma KeyRoundTripEditingKey(k: Key)
    requires IsEditingKey(k)
    ensures FromVirtualKey(ToVirtualKey(k)) == Canonical(k)
  {
    match k
    case PrintScreen =>
      EncodeRowPrintScreen();
      DecodeRowPrintScreen();
    case ScrollLock =>
      EncodeRowScrollLock();
      DecodeRowScrollLock();
    case Pause =>
      EncodeRowPause();
      DecodeRowPause();
    case Insert =>
      EncodeRowInsert();
      DecodeRowInsert();
    case Home =>
      EncodeRowHome();
      DecodeRowHome();
    case Delete =>
      EncodeRowDelete();
      DecodeRowDelete();
    case End =>
      EncodeRowEnd();
      DecodeRowEnd();
    case PageDown =>
      EncodeRowPageDown();
      DecodeRowPageDown();
    case PageUp =>
      EncodeRowPageUp();
      DecodeRowPageUp();
    case Left =>
      EncodeRowLeft();
      DecodeRowLeft();
    case Up =>
      EncodeRowUp();
      DecodeRowUp();
    case Right =>
      EncodeRowRight();
      DecodeRowRight();
    case Down =>
      EncodeRowDown();
      DecodeRowDown();
    case Backspace =>
      EncodeRowBackspace();
      DecodeRowBackspace();
    case Enter =>
      EncodeRowEnter();
      DecodeRowEnter();
    case Space =>
      EncodeRowSpace();
      DecodeRowSpace();
    case _ =>
      assert false;
  }

  lemma KeyRoundTripNumpadKey(k: Key)
    requires IsNumpadKey(k)
    ensures FromVirtualKey(ToVirtualKey(k)) == Canonical(k)
  {
    match k
    case NumLock =>
      EncodeRowNumLock();
      DecodeRowNumLock();
    case Num0 =>
      EncodeRowNum0();
      DecodeRowNum0();
    case Num1 =>
      EncodeRowNum1();
      DecodeRowNum1();
    case Num2 =>
      EncodeRowNum2();
      DecodeRowNum2();
    case Num3 =>
      EncodeRowNum3();
      DecodeRowNum3();
    case Num4 =>
      EncodeRowNum4();
      DecodeRowNum4();
    case Num5 =>
      EncodeRowNum5();
      DecodeRowNum5();
    case Num6 =>
      EncodeRowNum6();
      DecodeRowNum6();
    case Num7 =>
      EncodeRowNum7();
      DecodeRowNum7();
    case Num8 =>
      EncodeRowNum8();
      DecodeRowNum8();
    case Num9 =>
      EncodeRowNum9();
      DecodeRowNum9();
    case NumPlus =>
      EncodeRowNumPlus();
      DecodeRowNumPlus();
    case NumMinus =>
      EncodeRowNumMinus();
      DecodeRowNumMinus();
    case NumMultiply =>
      EncodeRowNumMultiply();
      DecodeRowNumMultiply();
    case NumDivide =>
      EncodeRowNumDivide();
      DecodeRowNumDivide();
    case NumPeriod =>
      EncodeRowNumPeriod();
      DecodeRowNumPeriod();
    case _ =>
      assert false;
  }

  lemma KeyRoundTripOemKeyFirst(k: Key)
    requires IsOemKeyFirst(k)
    ensures FromVirtualKey(ToVirtualKey(k)) == Canonical(k)
  {
    match k
    case AbntC1 =>
      EncodeRowAbntC1();
      DecodeRowAbntC1();
    case AbntC2 =>
      EncodeRowAbntC2();
      DecodeRowAbntC2();
    case Apostrophe =>
      EncodeRowApostrophe();
      DecodeRowApostrophe();
    case Menu =>
      EncodeRowMenu();
      DecodeRowMenu();
    case Ax =>
      EncodeRowAx();
      DecodeRowAx();
    case BackSlash =>
      EncodeRowBackSlash();
      DecodeRowBackSlash();
    case CapsLock =>
      EncodeRowCapsLock();
      DecodeRowCapsLock();
    case Comma =>
      EncodeRowComma();
      DecodeRowComma();
    case Convert =>
      EncodeRowConvert();
      DecodeRowConvert();
    case Equals =>
      EncodeRowEquals();
      DecodeRowEquals();
    case Accent =>
      EncodeRowAccent();
      DecodeRowAccent();
    case Kana =>
      EncodeRowKana();
      DecodeRowKana();
    case Kanji =>
      EncodeRowKanji();
      DecodeRowKanji();
    case LeftAlt =>
      EncodeRowLeftAlt();
      DecodeRowLeftAlt();
    case _ =>
      assert false;
  }

  lemma KeyRoundTripOemKeySecond(k: Key)
    requires IsOemKeySecond(k)
    ensures FromVirtualKey(ToVirtualKey(k)) == Canonical(k)
  {
    match k
    case LeftBracket =>
      EncodeRowLeftBracket();
      DecodeRowLeftBracket();
    case LeftControl =>
      EncodeRowLeftControl();
      DecodeRowLeftControl();
    case LeftShift =>
      EncodeRowLeftShift();
      DecodeRowLeftShift();
    case LeftSuper =>
      EncodeRowLeftSuper();
      DecodeRowLeftSuper();
    case Mail =>
      EncodeRowMail();
      DecodeRowMail();
    case MediaSelect =>
      EncodeRowMediaSelect();
      DecodeRowMediaSelect();
    case MediaStop =>
      EncodeRowMediaStop();
      DecodeRowMediaStop();
    case Minus =>
      EncodeRowMinus();
      DecodeRowMinus();
    case VolumeMute =>
      EncodeRowVolumeMute();
      DecodeRowVolumeMute();
    case MediaNextTrack =>
      EncodeRowMediaNextTrack();
      DecodeRowMediaNextTrack();
    case NoConvert =>
      EncodeRowNoConvert();
      DecodeRowNoConvert();
    case OEM102 =>
      EncodeRowOEM102();
      DecodeRowOEM102();
    case Period =>
      EncodeRowPeriod();
      DecodeRowPeriod();
    case MediaPlayPause =>
      EncodeRowMediaPlayPause();
      DecodeRowMediaPlayPause();
    case MediaPrevTrack =>
      EncodeRowMediaPrevTrack();
      DecodeRowMediaPrevTrack();
    case RightAlt =>
      EncodeRowRightAlt();
      DecodeRowRightAlt();
    case _ =>
      assert false;
  }

  lemma KeyRoundTripOemKeyThird(k: Key)
    requires IsOemKeyThird(k)
    ensures FromVirtualKey(ToVirtualKey(k)) == Canonical(k)
  {
    match k
    case RightBracket =>
      EncodeRowRightBracket();
      DecodeRowRightBracket();
    case RightControl =>
      EncodeRowRightControl();
      DecodeRowRightControl();
    case RightShift =>
      EncodeRowRightShift();
      DecodeRowRightShift();
    case RightSuper =>
      EncodeRowRightSuper();
      DecodeRowRightSuper();
    case Semicolon =>
      EncodeRowSemicolon();
      DecodeRowSemicolon();
    case ForwardSlash =>
      EncodeRowForwardSlash();
      DecodeRowForwardSlash();
    case Sleep =>
      EncodeRowSleep();
      DecodeRowSleep();
    case Tab =>
      EncodeRowTab();
      DecodeRowTab();
    case NoName =>
      EncodeRowNoName();
      DecodeRowNoName();
    case VolumeDown =>
      EncodeRowVolumeDown();
      DecodeRowVolumeDown();
    case VolumeUp =>
      EncodeRowVolumeUp();
      DecodeRowVolumeUp();
    case WebBack =>
      EncodeRowWebBack();
      DecodeRowWebBack();
    case WebFavorites =>
      EncodeRowWebFavorites();
      DecodeRowWebFavorites();
    case WebForward =>
      EncodeRowWebForward();
      DecodeRowWebForward();
    case WebHome =>
      EncodeRowWebHome();
      DecodeRowWebHome();
    case WebRefresh =>
      EncodeRowWebRefresh();
      DecodeRowWebRefresh();
    case WebSearch =>
      EncodeRowWebSearch();
      DecodeRowWebSearch();
    case WebStop =>
      EncodeRowWebStop();
      DecodeRowWebStop();
    case Copy =>
      EncodeRowCopy();
      DecodeRowCopy();
    case _ =>
      assert false;
  }

  lemma KeyRoundTripAliasOrUnknown(k: Key)
    requires IsAliasOrUnknown(k)
    ensures FromVirtualKey(ToVirtualKey(k)) == Canonical(k)
  {
    match k
    case NumEnter =>
      EncodeRowNumEnter();
      DecodeRowEnter();
    case NumComma =>
      EncodeRowNumComma();
      DecodeRowComma();
    case NumEquals =>
      EncodeRowNumEquals();
      DecodeRowEquals();
    case Unknown =>
    case _ =>
      assert false;
  }

  /**
   * Encoding then decoding gives the key back, except that the three aliases
   * come back as their primary keys; `Unknown` encodes to 0, which decodes to
   * `Unknown`.
   */
  lemma KeyRoundTrip(k: Key)
    ensures FromVirtualKey(ToVirtualKey(k)) == Canonical(k)
  {
    if IsDigitKey(k) {
      KeyRoundTripDigitKey(k);
    } else if IsLetterAToM(k) {
      KeyRoundTripLetterAToM(k);
    } else if IsLetterNToZ(k) {
      KeyRoundTripLetterNToZ(k);
    } else if IsEscapeOrLowFunctionKey(k) {
      KeyRoundTripEscapeOrLowFunctionKey(k);
    } else if IsHighFunctionKey(k) {
      KeyRoundTripHighFunctionKey(k);
    } else if IsEditingKey(k) {
      KeyRoundTripEditingKey(k);
    } else if IsNumpadKey(k) {
      KeyRoundTripNumpadKey(k);
    } else if IsOemKeyFirst(k) {
      KeyRoundTripOemKeyFirst(k);
    } else if IsOemKeySecond(k) {
      KeyRoundTripOemKeySecond(k);
    } else if IsOemKeyThird(k) {
      KeyRoundTripOemKeyThird(k);
    } else {
      KeyRoundTripAliasOrUnknown(k);
    }
  }

  lemma DecodeThenEncode00to2F(vk: u16)
    requires 0x00 <= vk <= 0x2F
    ensures FromVirtualKey(vk) != Unknown ==> ToVirtualKey(FromVirtualKey(vk)) == vk
  {
    if vk == VK_BACK {
      DecodeRowBackspace();
      EncodeRowBackspace();
    } else if vk == VK_TAB {
      DecodeRowTab();
      EncodeRowTab();
    } else if vk == VK_RETURN {
      DecodeRowEnter();
      EncodeRowEnter();
    } else if vk == VK_PAUSE {
      DecodeRowPause();
      EncodeRowPause();
    } else if vk == VK_CAPITAL {
      DecodeRowCapsLock();
      EncodeRowCapsLock();
    } else if vk == VK_KANA {
      DecodeRowKana();
      EncodeRowKana();
    } else if vk == VK_KANJI {
      DecodeRowKanji();
      EncodeRowKanji();
    } else if vk == VK_ESCAPE {
      DecodeRowEscape();
      EncodeRowEscape();
    } else if vk == VK_CONVERT {
      DecodeRowConvert();
      EncodeRowConvert();
    } else if vk == VK_NONCONVERT {
      DecodeRowNoConvert();
      EncodeRowNoConvert();
    } else if vk == VK_SPACE {
      DecodeRowSpace();
      EncodeRowSpace();
    } else if vk == VK_PRIOR {
      DecodeRowPageUp();
      EncodeRowPageUp();
    } else if vk == VK_NEXT {
      DecodeRowPageDown();
      EncodeRowPageDown();
    } else if vk == VK_END {
      DecodeRowEnd();
      EncodeRowEnd();
    } else if vk == VK_HOME {
      DecodeRowHome();
      EncodeRowHome();
    } else if vk == VK_LEFT {
      DecodeRowLeft();
      EncodeRowLeft();
    } else if vk == VK_UP {
      DecodeRowUp();
      EncodeRowUp();
    } else if vk == VK_RIGHT {
      DecodeRowRight();
      EncodeRowRight();
    } else if vk == VK_DOWN {
      DecodeRowDown();
      EncodeRowDown();
    } else if vk == VK_SNAPSHOT {
      DecodeRowPrintScreen();
      EncodeRowPrintScreen();
    } else if vk == VK_INSERT {
      DecodeRowInsert();
      EncodeRowInsert();
    } else if vk == VK_DELETE {
      DecodeRowDelete();
      EncodeRowDelete();
    }
  }

  lemma DecodeThenEncode30to40(vk: u16)
    requires 0x30 <= vk <= 0x40
    ensures FromVirtualKey(vk) != Unknown ==> ToVirtualKey(FromVirtualKey(vk)) == vk
  {
    if vk == VK_0 {
      DecodeRowDigit0();
      EncodeRowDigit0();
    } else if vk == VK_1 {
      DecodeRowDigit1();
      EncodeRowDigit1();
    } else if vk == VK_2 {
      DecodeRowDigit2();
      EncodeRowDigit2();
    } else if vk == VK_3 {
      DecodeRowDigit3();
      EncodeRowDigit3();
    } else if vk == VK_4 {
      DecodeRowDigit4();
      EncodeRowDigit4();
    } else if vk == VK_5 {
      DecodeRowDigit5();
      EncodeRowDigit5();
    } else if vk == VK_6 {
      DecodeRowDigit6();
      EncodeRowDigit6();
    } else if vk == VK_7 {
      DecodeRowDigit7();
      EncodeRowDigit7();
    } else if vk == VK_8 {
      DecodeRowDigit8();
      EncodeRowDigit8();
    } else if vk == VK_9 {
      DecodeRowDigit9();
      EncodeRowDigit9();
    }
  }

  lemma DecodeThenEncode41to4D(vk: u16)
    requires 0x41 <= vk <= 0x4D
    ensures FromVirtualKey(vk) != Unknown ==> ToVirtualKey(FromVirtualKey(vk)) == vk
  {
    if vk == VK_A {
      DecodeRowA();
      EncodeRowA();
    } else if vk == VK_B {
      DecodeRowB();
      EncodeRowB();
    } else if vk == VK_C {
      DecodeRowC();
      EncodeRowC();
    } else if vk == VK_D {
      DecodeRowD();
      EncodeRowD();
    } else if vk == VK_E {
      DecodeRowE();
      EncodeRowE();
    } else if vk == VK_F {
      DecodeRowF();
      EncodeRowF();
    } else if vk == VK_G {
      DecodeRowG();
      EncodeRowG();
    } else if vk == VK_H {
      DecodeRowH();
      EncodeRowH();
    } else if vk == VK_I {
      DecodeRowI();
      EncodeRowI();
    } else if vk == VK_J {
      DecodeRowJ();
      EncodeRowJ();
    } else if vk == VK_K {
      DecodeRowK();
      EncodeRowK();
    } else if vk == VK_L {
      DecodeRowL();
      EncodeRowL();
    } else if vk == VK_M {
      DecodeRowM();
      EncodeRowM();
    }
  }

  lemma DecodeThenEncode4Eto5A(vk: u16)
    requires 0x4E <= vk <= 0x5A
    ensures FromVirtualKey(vk) != Unknown ==> ToVirtualKey(FromVirtualKey(vk)) == vk
  {
    if vk == VK_N {
      DecodeRowN();
      EncodeRowN();
    } else if vk == VK_O {
      DecodeRowO();
      EncodeRowO();
    } else if vk == VK_P {
      DecodeRowP();
      EncodeRowP();
    } else if vk == VK_Q {
      DecodeRowQ();
      EncodeRowQ();
    } else if vk == VK_R {
      DecodeRowR();
      EncodeRowR();
    } else if vk == VK_S {
      DecodeRowS();
      EncodeRowS();
    } else if vk == VK_T {
      DecodeRowT();
      EncodeRowT();
    } else if vk == VK_U {
      DecodeRowU();
      EncodeRowU();
    } else if vk == VK_V {
      DecodeRowV();
      EncodeRowV();
    } else if vk == VK_W {
      DecodeRowW();
      EncodeRowW();
    } else if vk == VK_X {
      DecodeRowX();
      EncodeRowX();
    } else if vk == VK_Y {
      DecodeRowY();
      EncodeRowY();
    } else if vk == VK_Z {
      DecodeRowZ();
      EncodeRowZ();
    }
  }

  lemma DecodeThenEncode5Bto6F(vk: u16)
    requires 0x5B <= vk <= 0x6F
    ensures FromVirtualKey(vk) != Unknown ==> ToVirtualKey(FromVirtualKey(vk)) == vk
  {
    if vk == VK_LWIN {
      DecodeRowLeftSuper();
      EncodeRowLeftSuper();
    } else if vk == VK_RWIN {
      DecodeRowRightSuper();
      EncodeRowRightSuper();
    } else if vk == VK_APPS {
      DecodeRowMenu();
      EncodeRowMenu();
    } else if vk == VK_SLEEP {
      DecodeRowSleep();
      EncodeRowSleep();
    } else if vk == VK_NUMPAD0 {
      DecodeRowNum0();
      EncodeRowNum0();
    } else if vk == VK_NUMPAD1 {
      DecodeRowNum1();
      EncodeRowNum1();
    } else if vk == VK_NUMPAD2 {
      DecodeRowNum2();
      EncodeRowNum2();
    } else if vk == VK_NUMPAD3 {
      DecodeRowNum3();
      EncodeRowNum3();
    } else if vk == VK_NUMPAD4 {
      DecodeRowNum4();
      EncodeRowNum4();
    } else if vk == VK_NUMPAD5 {
      DecodeRowNum5();
      EncodeRowNum5();
    } else if vk == VK_NUMPAD6 {
      DecodeRowNum6();
      EncodeRowNum6();
    } else if vk == VK_NUMPAD7 {
      DecodeRowNum7();
      EncodeRowNum7();
    } else if vk == VK_NUMPAD8 {
      DecodeRowNum8();
      EncodeRowNum8();
    } else if vk == VK_NUMPAD9 {
      DecodeRowNum9();
      EncodeRowNum9();
    } else if vk == VK_MULTIPLY {
      DecodeRowNumMultiply();
      EncodeRowNumMultiply();
    } else if vk == VK_ADD {
      DecodeRowNumPlus();
      EncodeRowNumPlus();
    } else if vk == VK_SUBTRACT {
      DecodeRowNumMinus();
      EncodeRowNumMinus();
    } else if vk == VK_DECIMAL {
      DecodeRowNumPeriod();
      EncodeRowNumPeriod();
    } else if vk == VK_DIVIDE {
      DecodeRowNumDivide();
      EncodeRowNumDivide();
    }
  }

  lemma DecodeThenEncode70to7F(vk: u16)
    requires 0x70 <= vk <= 0x7F
    ensures FromVirtualKey(vk) != Unknown ==> ToVirtualKey(FromVirtualKey(vk)) == vk
  {
    if vk == VK_F1 {
      DecodeRowF1();
      EncodeRowF1();
    } else if vk == VK_F2 {
      DecodeRowF2();
      EncodeRowF2();
    } else if vk == VK_F3 {
      DecodeRowF3();
      EncodeRowF3();
    } else if vk == VK_F4 {
      DecodeRowF4();
      EncodeRowF4();
    } else if vk == VK_F5 {
      DecodeRowF5();
      EncodeRowF5();
    } else if vk == VK_F6 {
      DecodeRowF6();
      EncodeRowF6();
    } else if vk == VK_F7 {
      DecodeRowF7();
      EncodeRowF7();
    } else if vk == VK_F8 {
      DecodeRowF8();
      EncodeRowF8();
    } else if vk == VK_F9 {
      DecodeRowF9();
      EncodeRowF9();
    } else if vk == VK_F10 {
      DecodeRowF10();
      EncodeRowF10();
    } else if vk == VK_F11 {
      DecodeRowF11();
      EncodeRowF11();
    } else if vk == VK_F12 {
      DecodeRowF12();
      EncodeRowF12();
    } else if vk == VK_F13 {
      DecodeRowF13();
      EncodeRowF13();
    } else if vk == VK_F14 {
      DecodeRowF14();
      EncodeRowF14();
    } else if vk == VK_F15 {
      DecodeRowF15();
      EncodeRowF15();
    } else if vk == VK_F16 {
      DecodeRowF16();
      EncodeRowF16();
    }
  }

  lemma DecodeThenEncode80toA5(vk: u16)
    requires 0x80 <= vk <= 0xA5
    ensures FromVirtualKey(vk) != Unknown ==> ToVirtualKey(FromVirtualKey(vk)) == vk
  {
    if vk == VK_F17 {
      DecodeRowF17();
      EncodeRowF17();
    } else if vk == VK_F18 {
      DecodeRowF18();
      EncodeRowF18();
    } else if vk == VK_F19 {
      DecodeRowF19();
      EncodeRowF19();
    } else if vk == VK_F20 {
      DecodeRowF20();
      EncodeRowF20();
    } else if vk == VK_F21 {
      DecodeRowF21();
      EncodeRowF21();
    } else if vk == VK_F22 {
      DecodeRowF22();
      EncodeRowF22();
    } else if vk == VK_F23 {
      DecodeRowF23();
      EncodeRowF23();
    } else if vk == VK_F24 {
      DecodeRowF24();
      EncodeRowF24();
    } else if vk == VK_NUMLOCK {
      DecodeRowNumLock();
      EncodeRowNumLock();
    } else if vk == VK_SCROLL {
      DecodeRowScrollLock();
      EncodeRowScrollLock();
    } else if vk == VK_LSHIFT {
      DecodeRowLeftShift();
      EncodeRowLeftShift();
    } else if vk == VK_RSHIFT {
      DecodeRowRightShift();
      EncodeRowRightShift();
    } else if vk == VK_LCONTROL {
      DecodeRowLeftControl();
      EncodeRowLeftControl();
    } else if vk == VK_RCONTROL {
      DecodeRowRightControl();
      EncodeRowRightControl();
    } else if vk == VK_LMENU {
      DecodeRowLeftAlt();
      EncodeRowLeftAlt();
    } else if vk == VK_RMENU {
      DecodeRowRightAlt();
      EncodeRowRightAlt();
    }
  }

  lemma DecodeThenEncodeA6toB9(vk: u16)
    requires 0xA6 <= vk <= 0xB9
    ensures FromVirtualKey(vk) != Unknown ==> ToVirtualKey(FromVirtualKey(vk)) == vk
  {
    if vk == VK_BROWSER_BACK {
      DecodeRowWebBack();
      EncodeRowWebBack();
    } else if vk == VK_BROWSER_FORWARD {
      DecodeRowWebForward();
      EncodeRowWebForward();
    } else if vk == VK_BROWSER_REFRESH {
      DecodeRowWebRefresh();
      EncodeRowWebRefresh();
    } else if vk == VK_BROWSER_STOP {
      DecodeRowWebStop();
      EncodeRowWebStop();
    } else if vk == VK_BROWSER_SEARCH {
      DecodeRowWebSearch();
      EncodeRowWebSearch();
    } else if vk == VK_BROWSER_FAVORITES {
      DecodeRowWebFavorites();
      EncodeRowWebFavorites();
    } else if vk == VK_BROWSER_HOME {
      DecodeRowWebHome();
      EncodeRowWebHome();
    } else if vk == VK_VOLUME_MUTE {
      DecodeRowVolumeMute();
      EncodeRowVolumeMute();
    } else if vk == VK_VOLUME_DOWN {
      DecodeRowVolumeDown();
      EncodeRowVolumeDown();
    } else if vk == VK_VOLUME_UP {
      DecodeRowVolumeUp();
      EncodeRowVolumeUp();
    } else if vk == VK_MEDIA_NEXT_TRACK {
      DecodeRowMediaNextTrack();
      EncodeRowMediaNextTrack();
    } else if vk == VK_MEDIA_PREV_TRACK {
      DecodeRowMediaPrevTrack();
      EncodeRowMediaPrevTrack();
    } else if vk == VK_MEDIA_STOP {
      DecodeRowMediaStop();
      EncodeRowMediaStop();
    } else if vk == VK_MEDIA_PLAY_PAUSE {
      DecodeRowMediaPlayPause();
      EncodeRowMediaPlayPause();
    } else if vk == VK_LAUNCH_MAIL {
      DecodeRowMail();
      EncodeRowMail();
    } else if vk == VK_LAUNCH_MEDIA_SELECT {
      DecodeRowMediaSelect();
      EncodeRowMediaSelect();
    }
  }

  lemma DecodeThenEncodeFromBA(vk: u16)
    requires 0xBA <= vk
    ensures FromVirtualKey(vk) != Unknown ==> ToVirtualKey(FromVirtualKey(vk)) == vk
  {
    if vk == VK_OEM_1 {
      DecodeRowSemicolon();
      EncodeRowSemicolon();
    } else if vk == VK_OEM_PLUS {
      DecodeRowEquals();
      EncodeRowEquals();
    } else if vk == VK_OEM_COMMA {
      DecodeRowComma();
      EncodeRowComma();
    } else if vk == VK_OEM_MINUS {
      DecodeRowMinus();
      EncodeRowMinus();
    } else if vk == VK_OEM_PERIOD {
      DecodeRowPeriod();
      EncodeRowPeriod();
    } else if vk == VK_OEM_2 {
      DecodeRowForwardSlash();
      EncodeRowForwardSlash();
    } else if vk == VK_OEM_3 {
      DecodeRowAccent();
      EncodeRowAccent();
    } else if vk == VK_ABNT_C1 {
      DecodeRowAbntC1();
      EncodeRowAbntC1();
    } else if vk == VK_ABNT_C2 {
      DecodeRowAbntC2();
      EncodeRowAbntC2();
    } else if vk == VK_OEM_4 {
      DecodeRowLeftBracket();
      EncodeRowLeftBracket();
    } else if vk == VK_OEM_5 {
      DecodeRowBackSlash();
      EncodeRowBackSlash();
    } else if vk == VK_OEM_6 {
      DecodeRowRightBracket();
      EncodeRowRightBracket();
    } else if vk == VK_OEM_7 {
      DecodeRowApostrophe();
      EncodeRowApostrophe();
    } else if vk == VK_OEM_AX {
      DecodeRowAx();
      EncodeRowAx();
    } else if vk == VK_OEM_102 {
      DecodeRowOEM102();
      EncodeRowOEM102();
    } else if vk == VK_OEM_COPY {
      DecodeRowCopy();
      EncodeRowCopy();
    } else if vk == VK_NONAME {
      DecodeRowNoName();
      EncodeRowNoName();
    }
  }

  /** Every code that decodes to a key other than `Unknown` is that key's code. */
  lemma DecodeThenEncode(vk: u16)
    ensures FromVirtualKey(vk) != Unknown ==> ToVirtualKey(FromVirtualKey(vk)) == vk
  {
    if vk <= 0x2F {
      DecodeThenEncode00to2F(vk);
    } else if vk <= 0x40 {
      DecodeThenEncode30to40(vk);
    } else if vk <= 0x4D {
      DecodeThenEncode41to4D(vk);
    } else if vk <= 0x5A {
      DecodeThenEncode4Eto5A(vk);
    } else if vk <= 0x6F {
      DecodeThenEncode5Bto6F(vk);
    } else if vk <= 0x7F {
      DecodeThenEncode70to7F(vk);
    } else if vk <= 0xA5 {
      DecodeThenEncode80toA5(vk);
    } else if vk <= 0xB9 {
      DecodeThenEncodeA6toB9(vk);
    } else {
      DecodeThenEncodeFromBA(vk);
    }
  }

  /** Decoding never produces the aliases NumEnter, NumComma and NumEquals. */
  lemma DecodeNeverYieldsAlias(vk: u16)
    ensures FromVirtualKey(vk) != NumEnter && FromVirtualKey(vk) != NumComma && FromVirtualKey(vk) != NumEquals
  {
    // An alias could only come from the code it encodes to, and that code
    // decodes to the primary key.
    DecodeThenEncode(vk);
    EncodeRowNumEnter();
    EncodeRowNumComma();
    EncodeRowNumEquals();
    DecodeRowEnter();
    DecodeRowComma();
    DecodeRowEquals();
  }

  /** The aliases share their codes with Enter, Comma and Equals. */
  lemma AliasesShareCodes()
    ensures ToVirtualKey(NumEnter) == ToVirtualKey(Enter) == VK_RETURN
    ensures ToVirtualKey(NumComma) == ToVirtualKey(Comma) == VK_OEM_COMMA
    ensures ToVirtualKey(NumEquals) == ToVirtualKey(Equals) == VK_OEM_PLUS
    ensures FromVirtualKey(VK_RETURN) == Enter
    ensures FromVirtualKey(VK_OEM_COMMA) == Comma
    ensures FromVirtualKey(VK_OEM_PLUS) == Equals
  {
    EncodeRowNumEnter();
    EncodeRowEnter();
    EncodeRowNumComma();
    EncodeRowComma();
    EncodeRowNumEquals();
    EncodeRowEquals();
    DecodeRowEnter();
    DecodeRowComma();
    DecodeRowEquals();
  }

  /**
   * A code decodes to `Unknown` exactly when no key but `Unknown` encodes to
   * it: the decoding table lists every code the encoding table produces, and
   * nothing else.
   */
  lemma DecodesToUnknownIffUnlisted(vk: u16)
    ensures FromVirtualKey(vk) == Unknown <==> forall k: Key :: k != Unknown ==> ToVirtualKey(k) != vk
  {
    DecodeThenEncode(vk);
    if FromVirtualKey(vk) == Unknown {
      forall k: Key | k != Unknown
        ensures ToVirtualKey(k) != vk
      {
        KeyRoundTrip(k);
      }
    }
  }

  // ---------------------------------------------------------------------------
  // Key::from_raw (src/window/input/key.rs:470-569).

  /** Flags of a RAWKEYBOARD record (WinUser.h). */
  const RI_KEY_E0: u16 := 2
  const RI_KEY_E1: u16 := 4

  /** The translation kinds passed to MapVirtualKeyW (WinUser.h). */
  const MAPVK_VSC_TO_VK_EX: u32 := 3
  const MAPVK_VK_TO_VSC_EX: u32 := 4

  /** The parts of a RAWKEYBOARD record that `from_raw` reads. */
  datatype RawKeyboard = RawKeyboard(makeCode: u16, flags: u16, vKey: u16)

  /** `MapVirtualKeyW(code, kind)`: a system call, left as a parameter. */
  type MapVirtualKey = (u32, u32) -> u32

  /** The high byte OR-ed into the make code: E0 wins over E1. */
  function Extension(flags: u16): (ext: u16)
    ensures IsFlagSet(flags, RI_KEY_E0) ==> ext == 0xE000
    ensures !IsFlagSet(flags, RI_KEY_E0) && IsFlagSet(flags, RI_KEY_E1) ==> ext == 0xE100
    ensures !IsFlagSet(flags, RI_KEY_E0) && !IsFlagSet(flags, RI_KEY_E1) ==> ext == 0
  {
    if IsFlagSet(flags, RI_KEY_E0) then 0xE000
    else if IsFlagSet(flags, RI_KEY_E1) then 0xE100
    else 0x0000
  }

  /** The make code with its extension prefix; a zero make code is looked up from the virtual key. */
  function ScanCode(kb: RawKeyboard, mapVirtualKey: MapVirtualKey): (scancode: u16)
    ensures kb.makeCode == 0 ==> scancode == WrapU16(mapVirtualKey(kb.vKey, MAPVK_VK_TO_VSC_EX))
    ensures kb.makeCode != 0 ==> scancode == Or(kb.makeCode, Extension(kb.flags))
  {
    if kb.makeCode == 0 then
      WrapU16(mapVirtualKey(kb.vKey, MAPVK_VK_TO_VSC_EX))
    else
      Pow2Values();
      OrBelow(kb.makeCode, Extension(kb.flags), 16);
      Or(kb.makeCode, Extension(kb.flags))
  }

  /** The first halves of the Pause (Ctrl+NumLock) and PrtSc (Shift+NumMultiply) sequences. */
  predicate IsFakeScanCode(scancode: u16) {
    scancode == 0xE11D || scancode == 0xE02A
  }

  /** The keys the Shift-overrides-NumLock release is reported with. */
  predicate IsNumpadDigitOrPeriod(k: Key) {
    k.NumPeriod? || k.Num0? || k.Num1? || k.Num2? || k.Num3? || k.Num4? || k.Num5?
    || k.Num6? || k.Num7? || k.Num8? || k.Num9?
  }

  /** The key the scan code names, except that VK_NUMLOCK always means NumLock. */
  function PhysicalKey(kb: RawKeyboard, scancode: u16, mapVirtualKey: MapVirtualKey): (k: Key)
    ensures kb.vKey == VK_NUMLOCK ==> k == NumLock
    ensures kb.vKey != VK_NUMLOCK ==> k == FromVirtualKey(WrapU16(mapVirtualKey(scancode, MAPVK_VSC_TO_VK_EX)))
  {
    if kb.vKey == VK_NUMLOCK then NumLock
    else FromVirtualKey(WrapU16(mapVirtualKey(scancode, MAPVK_VSC_TO_VK_EX)))
  }

  /**
   * `Key::from_raw`: filters out the fake first halves of the Pause and PrtSc
   * sequences and the fake Shift release that comes with a numpad key, and
   * otherwise reports the physical key.
   */
  function FromRaw(kb: RawKeyboard, mapVirtualKey: MapVirtualKey): (r: Option<Key>)
    ensures r.None? <==>
      IsFakeScanCode(ScanCode(kb, mapVirtualKey))
      || (kb.vKey == VK_SHIFT && IsNumpadDigitOrPeriod(PhysicalKey(kb, ScanCode(kb, mapVirtualKey), mapVirtualKey)))
    ensures r.Some? ==> r.value == PhysicalKey(kb, ScanCode(kb, mapVirtualKey), mapVirtualKey)
  {
    var scancode := ScanCode(kb, mapVirtualKey);
    if IsFakeScanCode(scancode) then None
    else
      var physicalKey := PhysicalKey(kb, scancode, mapVirtualKey);
      if kb.vKey == VK_SHIFT && IsNumpadDigitOrPeriod(physicalKey) then None
      else Some(physicalKey)
  }

  /** With a one-byte make code the extension prefix is simply added: E0 gives 0xE0xx, E1 gives 0xE1xx. */
  lemma ScanCodeOfShortMakeCode(kb: RawKeyboard, mapVirtualKey: MapVirtualKey)
    requires 0 < kb.makeCode < 0x100
    ensures IsFlagSet(kb.flags, RI_KEY_E0) ==> ScanCode(kb, mapVirtualKey) == 0xE000 + kb.makeCode
    ensures !IsFlagSet(kb.flags, RI_KEY_E0) && IsFlagSet(kb.flags, RI_KEY_E1) ==> ScanCode(kb, mapVirtualKey) == 0xE100 + kb.makeCode
    ensures !IsFlagSet(kb.flags, RI_KEY_E0) && !IsFlagSet(kb.flags, RI_KEY_E1) ==> ScanCode(kb, mapVirtualKey) == kb.makeCode
  {
    Pow2Values();
    OrDisjoint(kb.makeCode, 0xE0, 8);
    OrDisjoint(kb.makeCode, 0xE1, 8);
    OrDisjoint(kb.makeCode, 0, 8);
  }

  /**
   * When both extension flags are present, E0 decides: the record reads as if
   * only E0 were set, so make code 0x1D becomes 0xE01D, not the filtered 0xE11D.
   */
  lemma ExtendedE0TakesPrecedence(kb: RawKeyboard, mapVirtualKey: MapVirtualKey)
    requires IsFlagSet(kb.flags, RI_KEY_E0) && IsFlagSet(kb.flags, RI_KEY_E1)
    ensures ScanCode(kb, mapVirtualKey) == ScanCode(kb.(flags := RI_KEY_E0), mapVirtualKey)
    ensures FromRaw(kb, mapVirtualKey) == FromRaw(kb.(flags := RI_KEY_E0), mapVirtualKey)
    ensures 0 < kb.makeCode < 0x100 ==> ScanCode(kb, mapVirtualKey) == 0xE000 + kb.makeCode
    ensures kb.makeCode == 0x1D ==> !IsFakeScanCode(ScanCode(kb, mapVirtualKey))
  {
    assert IsFlagSet(RI_KEY_E0, RI_KEY_E0);
    if 0 < kb.makeCode < 0x100 {
      ScanCodeOfShortMakeCode(kb, mapVirtualKey);
    }
  }

  /** The first half of the Pause sequence (E1 with make code 0x1D) is dropped, whatever the virtual key. */
  lemma PauseFirstHalfIsDropped(vKey: u16, mapVirtualKey: MapVirtualKey)
    ensures FromRaw(RawKeyboard(0x1D, RI_KEY_E1, vKey), mapVirtualKey) == None
  {
    var kb := RawKeyboard(0x1D, RI_KEY_E1, vKey);
    assert !IsFlagSet(kb.flags, RI_KEY_E0) && IsFlagSet(kb.flags, RI_KEY_E1);
    ScanCodeOfShortMakeCode(kb, mapVirtualKey);
  }

  /** The first half of the PrtSc sequence (E0 with make code 0x2A) is dropped, whatever the virtual key. */
  lemma PrintScreenFirstHalfIsDropped(vKey: u16, mapVirtualKey: MapVirtualKey)
    ensures FromRaw(RawKeyboard(0x2A, RI_KEY_E0, vKey), mapVirtualKey) == None
  {
    var kb := RawKeyboard(0x2A, RI_KEY_E0, vKey);
    assert IsFlagSet(kb.flags, RI_KEY_E0);
    ScanCodeOfShortMakeCode(kb, mapVirtualKey);
  }

  /** Once the scan code passes the filter, VK_NUMLOCK is reported as NumLock whatever the scan code maps to. */
  lemma NumLockByVirtualKey(kb: RawKeyboard, mapVirtualKey: MapVirtualKey)
    requires kb.vKey == VK_NUMLOCK && !IsFakeScanCode(ScanCode(kb, mapVirtualKey))
    ensures FromRaw(kb, mapVirtualKey) == Some(NumLock)
  {
  }

  /** A raw record that carries VK_SHIFT is never reported as a numpad digit or the numpad period. */
  lemma ShiftNeverYieldsNumpadKey(kb: RawKeyboard, mapVirtualKey: MapVirtualKey)
    requires kb.vKey == VK_SHIFT
    ensures FromRaw(kb, mapVirtualKey).Some? ==> !IsNumpadDigitOrPeriod(FromRaw(kb, mapVirtualKey).value)
  {
  }

  /** The key from_raw reports is never one of the aliases: it comes from the decoding table, or it is NumLock. */
  lemma FromRawNeverYieldsAlias(kb: RawKeyboard, mapVirtualKey: MapVirtualKey)
    ensures FromRaw(kb, mapVirtualKey).Some? ==> FromRaw(kb, mapVirtualKey).value !in {NumEnter, NumComma, NumEquals}
  {
    if kb.vKey != VK_NUMLOCK {
      DecodeNeverYieldsAlias(WrapU16(mapVirtualKey(ScanCode(kb, mapVirtualKey), MAPVK_VSC_TO_VK_EX)));
    }
  }
}
