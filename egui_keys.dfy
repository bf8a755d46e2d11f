/**
 * The pure translation layer of src/compat/egui.rs: the egui key, pointer
 * button and modifier types, the tables from the window's keys and mouse
 * buttons to them, the printable-character filter, and the cut/copy/paste
 * shortcut tests (as compiled for Windows).
 */
module EguiKeys {
  import opened Wrappers
  import W = Keys
  import InputTypes

  /** The egui keys the translation tables produce or test for. */
  datatype Key =
    | ArrowDown | ArrowLeft | ArrowRight | ArrowUp
    | Escape | Tab | Backspace | Enter | Space
    | Insert | Delete | Home | End | PageUp | PageDown
    | Copy | Cut | Paste
    | Comma | Period | Semicolon | Backslash | Slash | OpenBracket | CloseBracket | Backtick
    | Minus | Plus | Equals
    | Num0 | Num1 | Num2 | Num3 | Num4 | Num5 | Num6 | Num7 | Num8 | Num9
    | A | B | C | D | E | F | G | H | I | J | K | L | M
    | N | O | P | Q | R | S | T | U | V | W | X | Y | Z
    | F1 | F2 | F3 | F4 | F5 | F6 | F7 | F8 | F9 | F10
    | F11 | F12 | F13 | F14 | F15 | F16 | F17 | F18 | F19 | F20

  datatype PointerButton = Primary | Secondary | Middle | Extra1 | Extra2

  /** `egui::Modifiers`; its default has every flag clear. */
  datatype Modifiers = Modifiers(alt: bool, ctrl: bool, shift: bool, macCmd: bool, command: bool)

  function DefaultModifiers(): (m: Modifiers)
    ensures !m.alt && !m.ctrl && !m.shift && !m.macCmd && !m.command
  {
    Modifiers(false, false, false, false, false)
  }

  /** Whether the target is Windows (`cfg!(target_os = "windows")`): the library only builds there. */
  const IS_WINDOWS: bool := true

  /** `char::is_ascii_control`. */
  function IsAsciiControl(c: char): (r: bool)
    ensures r ==> c as int < 0x80
    ensures c == '\t' || c == '\n' || c == '\r' ==> r
    ensures 0x20 <= c as int < 0x7F ==> !r
  {
    c as int < 0x20 || c as int == 0x7F
  }

  /** The three Unicode private-use areas. */
  function IsInPrivateUseArea(c: char): (r: bool)
    ensures 0xE000 <= c as int <= 0xF8FF ==> r
    ensures 0xF_0000 <= c as int <= 0xF_FFFD ==> r
    ensures 0x10_0000 <= c as int <= 0x10_FFFD ==> r
    ensures (c as int < 0xE000 || 0xF8FF < c as int < 0xF_0000 || 0xF_FFFD < c as int < 0x10_0000
             || 0x10_FFFD < c as int) ==> !r
  {
    (0xE000 <= c as int <= 0xF8FF) || (0xF_0000 <= c as int <= 0xF_FFFD) || (0x10_0000 <= c as int <= 0x10_FFFD)
  }

  /** `is_printable_char`: neither an ASCII control nor a private-use character. */
  function IsPrintableChar(c: char): (r: bool)
    ensures r ==> c as int >= 0x20 && c as int != 0x7F
    ensures 0x20 <= c as int < 0x7F ==> r
  {
    !IsInPrivateUseArea(c) && !IsAsciiControl(c)
  }

  /** Line breaks and tabs are rejected; every ASCII graphic character and space is accepted, and so is everything from U+0080 below the first private-use area. */
  lemma PrintableCharRejects(c: char)
    ensures !IsPrintableChar('\r') && !IsPrintableChar('\n') && !IsPrintableChar('\t')
    ensures 0x20 <= c as int < 0x7F ==> IsPrintableChar(c)
    ensures 0x80 <= c as int < 0xE000 ==> IsPrintableChar(c)
  {
  }

  /**
   * A character is printable exactly when it is neither an ASCII control nor
   * in one of the three private-use areas: the areas are rejected, and the
   * gaps between and above them are accepted.
   */
  lemma PrintableCharRanges(c: char)
    ensures IsAsciiControl(c) ==> !IsPrintableChar(c)
    ensures 0xE000 <= c as int <= 0xF8FF ==> !IsPrintableChar(c)
    ensures 0xF_0000 <= c as int <= 0xF_FFFD ==> !IsPrintableChar(c)
    ensures 0x10_0000 <= c as int <= 0x10_FFFD ==> !IsPrintableChar(c)
    ensures 0xF900 <= c as int < 0xF_0000 ==> IsPrintableChar(c)
    ensures 0xF_FFFE <= c as int < 0x10_0000 ==> IsPrintableChar(c)
    ensures 0x10_FFFE <= c as int ==> IsPrintableChar(c)
  {
  }

  /** `is_cut_command`. */
  function IsCutCommand(modifiers: Modifiers, keycode: Key): (r: bool)
    ensures keycode == Cut ==> r
    ensures modifiers.command && keycode == X ==> r
    ensures modifiers.shift && keycode == Delete ==> r
    ensures r ==> keycode == Cut || keycode == X || keycode == Delete
    ensures !modifiers.command && !modifiers.shift ==> (r <==> keycode == Cut)
  {
    keycode == Cut || (modifiers.command && keycode == X) || (IS_WINDOWS && modifiers.shift && keycode == Delete)
  }

  /** `is_copy_command`. */
  function IsCopyCommand(modifiers: Modifiers, keycode: Key): (r: bool)
    ensures keycode == Copy ==> r
    ensures modifiers.command && keycode == C ==> r
    ensures modifiers.ctrl && keycode == Insert ==> r
    ensures r ==> keycode == Copy || keycode == C || keycode == Insert
    ensures !modifiers.command && !modifiers.ctrl ==> (r <==> keycode == Copy)
  {
    keycode == Copy || (modifiers.command && keycode == C) || (IS_WINDOWS && modifiers.ctrl && keycode == Insert)
  }

  /** `is_paste_command`. */
  function IsPasteCommand(modifiers: Modifiers, keycode: Key): (r: bool)
    ensures keycode == Paste ==> r
    ensures modifiers.command && keycode == V ==> r
    ensures modifiers.shift && keycode == Insert ==> r
    ensures r ==> keycode == Paste || keycode == V || keycode == Insert
    ensures !modifiers.command && !modifiers.shift ==> (r <==> keycode == Paste)
  {
    keycode == Paste || (modifiers.command && keycode == V) || (IS_WINDOWS && modifiers.shift && keycode == Insert)
  }

  /**
   * With the `command` flag clear (egui's "ctrl on Windows", which the
   * window layer never sets), the shortcuts are the dedicated keys and the
   * Windows Insert/Delete combinations only.
   */
  lemma ShortcutsWithoutCommand(modifiers: Modifiers, keycode: Key)
    requires !modifiers.command
    ensures IsCutCommand(modifiers, keycode) <==> keycode.Cut? || (modifiers.shift && keycode.Delete?)
    ensures IsCopyCommand(modifiers, keycode) <==> keycode.Copy? || (modifiers.ctrl && keycode.Insert?)
    ensures IsPasteCommand(modifiers, keycode) <==> keycode.Paste? || (modifiers.shift && keycode.Insert?)
    ensures !IsCopyCommand(modifiers, C) && !IsCutCommand(modifiers, X) && !IsPasteCommand(modifiers, V)
  {
  }

  /** Ctrl+Shift+Insert is both a copy and a paste shortcut; cut and paste never overlap. */
  lemma ShortcutOverlap(modifiers: Modifiers, keycode: Key)
    ensures modifiers.ctrl && modifiers.shift ==> IsCopyCommand(modifiers, Insert) && IsPasteCommand(modifiers, Insert)
    ensures !modifiers.command ==> !(IsCutCommand(modifiers, keycode) && IsPasteCommand(modifiers, keycode))
  {
  }

  /** `translate_mouse_button`: the five real buttons, and nothing for `Unknown`. */
  function TranslateMouseButton(button: InputTypes.Mouse): (r: Option<PointerButton>)
    ensures r.None? <==> button.Unknown?
  {
    match button
    case Left => Some(Primary)
    case Right => Some(Secondary)
    case Middle => Some(PointerButton.Middle)
    case Back => Some(Extra1)
    case Forward => Some(Extra2)
    case Unknown => None
  }

  /** The window's mouse button for each egui pointer button. */
  function PointerButtonSource(button: PointerButton): (m: InputTypes.Mouse)
    ensures !m.Unknown?
  {
    match button
    case Primary => InputTypes.Left
    case Secondary => InputTypes.Right
    case Middle => InputTypes.Middle
    case Extra1 => InputTypes.Back
    case Extra2 => InputTypes.Forward
  }

  /** The button translation is a bijection between the real buttons and the egui pointer buttons. */
  lemma MouseButtonRoundTrip(button: InputTypes.Mouse, pointer: PointerButton)
    ensures TranslateMouseButton(PointerButtonSource(pointer)) == Some(pointer)
    ensures !button.Unknown? ==> PointerButtonSource(TranslateMouseButton(button).value) == button
  {
  }

  /** `key_from_named_key`: the navigation, editing and function keys. */
  function KeyFromNamedKey(key: W.Key): (r: Option<Key>)
    ensures key.Unknown? || key.NumEnter? ==> r.None?
    ensures key.C? || key.V? || key.X? ==> r.None?
    ensures r.Some? ==> r.value != Cut && r.value != Paste
  {
    match key
    case Enter => Some(Enter)
    case Tab => Some(Tab)
    case Down => Some(ArrowDown)
    case Left => Some(ArrowLeft)
    case Right => Some(ArrowRight)
    case Up => Some(ArrowUp)
    case End => Some(End)
    case Home => Some(Home)
    case PageDown => Some(PageDown)
    case PageUp => Some(PageUp)
    case Backspace => Some(Backspace)
    case Delete => Some(Delete)
    case Insert => Some(Insert)
    case Escape => Some(Escape)
    case Copy => Some(Copy)
    case Space => Some(Space)
    case F1 => Some(F1)
    case F2 => Some(F2)
    case F3 => Some(F3)
    case F4 => Some(F4)
    case F5 => Some(F5)
    case F6 => Some(F6)
    case F7 => Some(F7)
    case F8 => Some(F8)
    case F9 => Some(F9)
    case F10 => Some(F10)
    case F11 => Some(F11)
    case F12 => Some(F12)
    case F13 => Some(F13)
    case F14 => Some(F14)
    case F15 => Some(F15)
    case F16 => Some(F16)
    case F17 => Some(F17)
    case F18 => Some(F18)
    case F19 => Some(F19)
    case F20 => Some(F20)
    case _ => None
  }

  /** `key_from_winit_key`: the logical key, nothing for `Unknown`, else the named-key table. */
  function KeyFromWinitKey(key: W.Key): (r: Option<Key>)
    ensures key.Unknown? ==> r.None?
    ensures !key.Unknown? ==> r == KeyFromNamedKey(key)
  {
    match key
    case Unknown => None
    case _ => KeyFromNamedKey(key)
  }

  /** `key_from_key_code`: the physical key. */
  function KeyFromKeyCode(key: W.Key): (r: Option<Key>)
    ensures key.Unknown? ==> r.None?
    ensures key.Enter? || key.NumEnter? ==> r == Some(Enter)
  {
    match key
    case Down => Some(ArrowDown)
    case Left => Some(ArrowLeft)
    case Right => Some(ArrowRight)
    case Up => Some(ArrowUp)
    case Escape => Some(Escape)
    case Tab => Some(Tab)
    case Backspace => Some(Backspace)
    case Enter | NumEnter => Some(Enter)
    case Insert => Some(Insert)
    case Delete => Some(Delete)
    case Home => Some(Home)
    case End => Some(End)
    case PageUp => Some(PageUp)
    case PageDown => Some(PageDown)
    case Space => Some(Space)
    case Comma => Some(Comma)
    case Period => Some(Period)
    case Semicolon => Some(Semicolon)
    case BackSlash => Some(Backslash)
    case ForwardSlash | NumDivide => Some(Slash)
    case LeftBracket => Some(OpenBracket)
    case RightBracket => Some(CloseBracket)
    case Accent => Some(Backtick)
    case Copy => Some(Copy)
    case Minus | NumMinus => Some(Minus)
    case NumPlus => Some(Plus)
    case Equals => Some(Equals)
    case Digit0 | Num0 => Some(Num0)
    case Digit1 | Num1 => Some(Num1)
    case Digit2 | Num2 => Some(Num2)
    case Digit3 | Num3 => Some(Num3)
    case Digit4 | Num4 => Some(Num4)
    case Digit5 | Num5 => Some(Num5)
    case Digit6 | Num6 => Some(Num6)
    case Digit7 | Num7 => Some(Num7)
    case Digit8 | Num8 => Some(Num8)
    case Digit9 | Num9 => Some(Num9)
    case A => Some(A)
    case B => Some(B)
    case C => Some(C)
    case D => Some(D)
    case E => Some(E)
    case F => Some(F)
    case G => Some(G)
    case H => Some(H)
    case I => Some(I)
    case J => Some(J)
    case K => Some(K)
    case L => Some(L)
    case M => Some(M)
    case N => Some(N)
    case O => Some(O)
    case P => Some(P)
    case Q => Some(Q)
    case R => Some(R)
    case S => Some(S)
    case T => Some(T)
    case U => Some(U)
    case V => Some(V)
    case W => Some(W)
    case X => Some(X)
    case Y => Some(Y)
    case Z => Some(Z)
    case F1 => Some(F1)
    case F2 => Some(F2)
    case F3 => Some(F3)
    case F4 => Some(F4)
    case F5 => Some(F5)
    case F6 => Some(F6)
    case F7 => Some(F7)
    case F8 => Some(F8)
    case F9 => Some(F9)
    case F10 => Some(F10)
    case F11 => Some(F11)
    case F12 => Some(F12)
    case F13 => Some(F13)
    case F14 => Some(F14)
    case F15 => Some(F15)
    case F16 => Some(F16)
    case F17 => Some(F17)
    case F18 => Some(F18)
    case F19 => Some(F19)
    case F20 => Some(F20)
    case _ => None
  }

  /** The egui digit key of each decimal digit. */
  function DigitKey(d: nat): (k: Key)
    requires d < 10
  {
    [Num0, Num1, Num2, Num3, Num4, Num5, Num6, Num7, Num8, Num9][d]
  }

  lemma DigitRow0()
    ensures KeyFromKeyCode(W.Key.Digit0) == Some(Num0)
  {
  }

  lemma Numpad0()
    ensures KeyFromKeyCode(W.Key.Num0) == Some(Num0)
  {
  }

  lemma DigitRow1()
    ensures KeyFromKeyCode(W.Key.Digit1) == Some(Num1)
  {
  }

  lemma Numpad1()
    ensures KeyFromKeyCode(W.Key.Num1) == Some(Num1)
  {
  }

  lemma DigitRow2()
    ensures KeyFromKeyCode(W.Key.Digit2) == Some(Num2)
  {
  }

  lemma Numpad2()
    ensures KeyFromKeyCode(W.Key.Num2) == Some(Num2)
  {
  }

  lemma DigitRow3()
    ensures KeyFromKeyCode(W.Key.Digit3) == Some(Num3)
  {
  }

  lemma Numpad3()
    ensures KeyFromKeyCode(W.Key.Num3) == Some(Num3)
  {
  }

  lemma DigitRow4()
    ensures KeyFromKeyCode(W.Key.Digit4) == Some(Num4)
  {
  }

  lemma Numpad4()
    ensures KeyFromKeyCode(W.Key.Num4) == Some(Num4)
  {
  }

  lemma DigitRow5()
    ensures KeyFromKeyCode(W.Key.Digit5) == Some(Num5)
  {
  }

  lemma Numpad5()
    ensures KeyFromKeyCode(W.Key.Num5) == Some(Num5)
  {
  }

  lemma DigitRow6()
    ensures KeyFromKeyCode(W.Key.Digit6) == Some(Num6)
  {
  }

  lemma Numpad6()
    ensures KeyFromKeyCode(W.Key.Num6) == Some(Num6)
  {
  }

  lemma DigitRow7()
    ensures KeyFromKeyCode(W.Key.Digit7) == Some(Num7)
  {
  }

  lemma Numpad7()
    ensures KeyFromKeyCode(W.Key.Num7) == Some(Num7)
  {
  }

  lemma DigitRow8()
    ensures KeyFromKeyCode(W.Key.Digit8) == Some(Num8)
  {
  }

  lemma Numpad8()
    ensures KeyFromKeyCode(W.Key.Num8) == Some(Num8)
  {
  }

  lemma DigitRow9()
    ensures KeyFromKeyCode(W.Key.Digit9) == Some(Num9)
  {
  }

  lemma Numpad9()
    ensures KeyFromKeyCode(W.Key.Num9) == Some(Num9)
  {
  }

  /** The digit row and the numeric keypad give the same egui digit key, the one of their digit. */
  lemma DigitRowMatchesNumpad(d: nat)
    requires d < 10
    ensures KeyFromKeyCode([W.Key.Digit0, W.Key.Digit1, W.Key.Digit2, W.Key.Digit3, W.Key.Digit4,
                            W.Key.Digit5, W.Key.Digit6, W.Key.Digit7, W.Key.Digit8, W.Key.Digit9][d])
            == KeyFromKeyCode([W.Key.Num0, W.Key.Num1, W.Key.Num2, W.Key.Num3, W.Key.Num4,
                               W.Key.Num5, W.Key.Num6, W.Key.Num7, W.Key.Num8, W.Key.Num9][d])
            == Some(DigitKey(d))
  {
    match d
    case 0 => DigitRow0(); Numpad0();
    case 1 => DigitRow1(); Numpad1();
    case 2 => DigitRow2(); Numpad2();
    case 3 => DigitRow3(); Numpad3();
    case 4 => DigitRow4(); Numpad4();
    case 5 => DigitRow5(); Numpad5();
    case 6 => DigitRow6(); Numpad6();
    case 7 => DigitRow7(); Numpad7();
    case 8 => DigitRow8(); Numpad8();
    case 9 => DigitRow9(); Numpad9();
  }

  /** Every key with a logical egui key has the same physical egui key. */
  lemma NamedKeysAgreeWithKeyCodes(key: W.Key)
    requires KeyFromWinitKey(key).Some?
    ensures KeyFromKeyCode(key) == KeyFromWinitKey(key)
  {
  }

  /** The letters of the clipboard shortcuts (C, V, X) have no logical key, only a physical one. */
  lemma LetterCHasNoLogicalKey()
    ensures KeyFromWinitKey(W.Key.C).None? && KeyFromKeyCode(W.Key.C) == Some(C)
  {
  }

  lemma LetterVHasNoLogicalKey()
    ensures KeyFromWinitKey(W.Key.V).None? && KeyFromKeyCode(W.Key.V) == Some(V)
  {
  }

  lemma LetterXHasNoLogicalKey()
    ensures KeyFromWinitKey(W.Key.X).None? && KeyFromKeyCode(W.Key.X) == Some(X)
  {
  }
}
