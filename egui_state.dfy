/**
 * The egui integration `State` of src/compat/egui.rs: it turns window
 * messages into egui input events, tracks focus, modifiers, the pointer
 * position and the cursor icon, and answers for each message whether egui
 * wants a repaint and whether it consumed the message.
 *
 * The egui context's queries (`wants_pointer_input`, `wants_keyboard_input`,
 * `is_using_pointer`) and the pixels-per-point ratio enter as a `Context`
 * value. Positions are `real` quotients of pixels by that ratio.
 */
module EguiState {
  import opened Wrappers
  import opened Geometry
  import opened InputState
  import InputTypes
  import W = Keys
  import WT = WindowTypes
  import Messages
  import EK = EguiKeys
  import EguiCursor
  import EguiClipboard
  import EguiText

  /** The pixels-per-point ratio: the window's scale factor times egui's zoom, both positive. */
  type PixelsPerPoint = r: real | r > 0.0 witness 1.0

  datatype Context = Context(wantsPointerInput: bool, wantsKeyboardInput: bool, isUsingPointer: bool,
                             pixelsPerPoint: PixelsPerPoint)

  datatype Pos2 = Pos2(x: real, y: real)

  datatype TouchPhase = Start | Move | End

  /** The egui input events this layer produces. */
  datatype Event =
    | Copy
    | Cut
    | Paste(text: string)
    | Text(text: string)
    | Key(key: EK.Key, physicalKey: Option<EK.Key>, pressed: bool, repeat: bool, modifiers: EK.Modifiers)
    | PointerMoved(pos: Pos2)
    | PointerButton(pos: Pos2, button: EK.PointerButton, pressed: bool, modifiers: EK.Modifiers)
    | PointerGone
    | MouseWheel(delta: Pos2, modifiers: EK.Modifiers)
    /** The wheel's vertical delta in points, from which egui's zoom factor `exp(delta / 200)` is computed. */
    | Zoom(deltaY: real)
    | Scroll(delta: Pos2)
    | Touch(phase: TouchPhase, pos: Pos2)
    | WindowFocused(focused: bool)

  datatype EventResponse = EventResponse(consumed: bool, repaint: bool)

  /** The part of the state the message handlers read and write. */
  datatype Input = Input(
    events: seq<Event>,
    focused: bool,
    modifiers: EK.Modifiers,
    nativePixelsPerPoint: Option<real>,
    pointerPosInPoints: Option<Pos2>,
    anyPointerButtonDown: bool,
    currentCursorIcon: Option<EguiCursor.CursorIcon>,
    simulateTouchScreen: bool)

  /** A pixel position in points. */
  function PointsOf(position: PhysicalPosition, pixelsPerPoint: PixelsPerPoint): Pos2
  {
    Pos2(position.x as real / pixelsPerPoint, position.y as real / pixelsPerPoint)
  }

  /** The events of `on_text_input`: the text, unless it is empty, has a non-printable character, or a command modifier is held. */
  function TextEvents(modifiers: EK.Modifiers, text: string): (r: seq<Event>)
    ensures r == [] || r == [Text(text)]
    ensures r != [] <==> text != [] && (forall i :: 0 <= i < |text| ==> EK.IsPrintableChar(text[i]))
                         && !(modifiers.ctrl || modifiers.command || modifiers.macCmd)
  {
    if text != [] && (forall i :: 0 <= i < |text| ==> EK.IsPrintableChar(text[i])) then
      var isCmd := modifiers.ctrl || modifiers.command || modifiers.macCmd;
      if !isCmd then [Text(text)] else []
    else []
  }

  /**
   * The events of `on_keyboard_input`, given the key's logical and physical
   * egui keys and what the clipboard's `get` returns: a pressed shortcut
   * gives `Cut`, `Copy` or a non-empty `Paste` only; any other key with a
   * logical key gives one `Key` event; a key without a logical key gives
   * nothing.
   */
  function KeyboardEvents(modifiers: EK.Modifiers, logicalKey: Option<EK.Key>, physicalKey: Option<EK.Key>, pressed: bool,
                          clipboardText: Option<string>): (r: seq<Event>)
    ensures |r| <= 1
    ensures logicalKey.None? ==> r == []
    ensures r != [] && r[0].Paste? ==>
              pressed && clipboardText.Some? && r[0].text == EguiText.ReplaceCrlf(clipboardText.value) && r[0].text != []
    ensures r != [] && r[0].Key? ==> r[0] == Key(logicalKey.value, physicalKey, pressed, false, modifiers)
    ensures r != [] && (r[0].Cut? || r[0].Copy?) ==> pressed
    ensures r != [] ==> r[0].Cut? || r[0].Copy? || r[0].Paste? || r[0].Key?
    ensures !pressed && logicalKey.Some? ==> r == [Key(logicalKey.value, physicalKey, false, false, modifiers)]
    ensures logicalKey.Some? && r == [] ==> pressed && EK.IsPasteCommand(modifiers, logicalKey.value)
    ensures logicalKey.Some? && pressed && EK.IsCutCommand(modifiers, logicalKey.value) ==> r == [Cut]
    ensures (logicalKey.Some? && pressed && !EK.IsCutCommand(modifiers, logicalKey.value)
             && EK.IsCopyCommand(modifiers, logicalKey.value)) ==> r == [Copy]
    ensures (logicalKey.Some? && pressed && !EK.IsCutCommand(modifiers, logicalKey.value)
             && !EK.IsCopyCommand(modifiers, logicalKey.value) && EK.IsPasteCommand(modifiers, logicalKey.value)) ==>
              r == (if clipboardText.Some? && EguiText.ReplaceCrlf(clipboardText.value) != []
                    then [Paste(EguiText.ReplaceCrlf(clipboardText.value))] else [])
    ensures logicalKey.Some? && !(pressed && (EK.IsCutCommand(modifiers, logicalKey.value)
                                              || EK.IsCopyCommand(modifiers, logicalKey.value)
                                              || EK.IsPasteCommand(modifiers, logicalKey.value))) ==>
              r == [Key(logicalKey.value, physicalKey, pressed, false, modifiers)]
  {
    match logicalKey
    case None => []
    case Some(logicalKey) =>
      if pressed && EK.IsCutCommand(modifiers, logicalKey) then [Cut]
      else if pressed && EK.IsCopyCommand(modifiers, logicalKey) then [Copy]
      else if pressed && EK.IsPasteCommand(modifiers, logicalKey) then
        if clipboardText.Some? && EguiText.ReplaceCrlf(clipboardText.value) != [] then [Paste(EguiText.ReplaceCrlf(clipboardText.value))]
        else []
      else [Key(logicalKey, physicalKey, pressed, false, modifiers)]
  }

  /** The events of `on_mouse_button_input`: none unless the pointer is in the window and the button is a real one. */
  function ButtonEvents(s: Input, button: InputTypes.Mouse, state: ButtonState): (r: seq<Event>)
    ensures s.pointerPosInPoints.None? || button.Unknown? ==> r == []
    ensures s.pointerPosInPoints.Some? && !button.Unknown? ==>
              |r| >= 1 && r[0] == PointerButton(s.pointerPosInPoints.value, EK.TranslateMouseButton(button).value,
                                    state.Pressed?, s.modifiers)
    ensures !s.simulateTouchScreen ==> |r| <= 1
    ensures s.simulateTouchScreen && s.pointerPosInPoints.Some? && !button.Unknown? ==>
              r[1..] == (if state.Pressed? then [Touch(Start, s.pointerPosInPoints.value)]
                         else [PointerGone, Touch(End, s.pointerPosInPoints.value)])
  {
    match (s.pointerPosInPoints, EK.TranslateMouseButton(button))
    case (Some(pos), Some(b)) =>
      var pressed := state == ButtonState.Pressed;
      [PointerButton(pos, b, pressed, s.modifiers)]
      + if !s.simulateTouchScreen then []
        else if pressed then [Touch(Start, pos)]
        else [PointerGone, Touch(End, pos)]
    case _ => []
  }

  /** `on_mouse_button_input`: the events, and the touch emulation's button-down flag. */
  function ButtonInput(s: Input, button: InputTypes.Mouse, state: ButtonState): (r: Input)
    ensures r.events == s.events + ButtonEvents(s, button, state)
    ensures r.(events := s.events) == s.(anyPointerButtonDown := r.anyPointerButtonDown)
    ensures r.anyPointerButtonDown == if s.simulateTouchScreen && s.pointerPosInPoints.Some? && !button.Unknown?
                                      then state.Pressed? else s.anyPointerButtonDown
  {
    var r := s.(events := s.events + ButtonEvents(s, button, state));
    if s.pointerPosInPoints.Some? && !button.Unknown? && s.simulateTouchScreen then
      r.(anyPointerButtonDown := state == ButtonState.Pressed)
    else r
  }

  /** `on_cursor_moved`: the pointer is now at the position, and a move event is pushed unless touch emulation has no button down. */
  function CursorMoved(s: Input, pos: Pos2): (r: Input)
    ensures r.pointerPosInPoints == Some(pos)
    ensures !s.simulateTouchScreen ==> r.events == s.events + [PointerMoved(pos)]
    ensures s.simulateTouchScreen ==>
              r.events == s.events + (if s.anyPointerButtonDown then [PointerMoved(pos), Touch(Move, pos)] else [])
    ensures r.(events := s.events, pointerPosInPoints := s.pointerPosInPoints) == s
  {
    var events := if s.simulateTouchScreen then
                    (if s.anyPointerButtonDown then [PointerMoved(pos), Touch(Move, pos)] else [])
                  else [PointerMoved(pos)];
    s.(pointerPosInPoints := Some(pos), events := s.events + events)
  }

  /** `on_mouse_wheel`: a wheel event, then a zoom under ctrl or command, a horizontal scroll under shift, or a plain scroll. */
  function WheelEvents(modifiers: EK.Modifiers, delta: Pos2): (r: seq<Event>)
    ensures |r| == 2 && r[0] == MouseWheel(delta, modifiers)
    ensures r[1].Zoom? <==> modifiers.ctrl || modifiers.command
    ensures r[1].Zoom? ==> r[1].deltaY == delta.y
    ensures !(modifiers.ctrl || modifiers.command) ==> r[1].Scroll?
    ensures r[1].Scroll? && modifiers.shift ==> r[1].delta == Pos2(delta.x + delta.y, 0.0)
    ensures r[1].Scroll? && !modifiers.shift ==> r[1].delta == delta
  {
    [MouseWheel(delta, modifiers)]
    + if modifiers.ctrl || modifiers.command then [Zoom(delta.y)]
      else if modifiers.shift then [Scroll(Pos2(delta.x + delta.y, 0.0))]
      else [Scroll(delta)]
  }

  /** The response of `on_window_event`. */
  function Response(message: Messages.Message, ctx: Context): (r: EventResponse)
    ensures !r.repaint <==> (message.Loop? || message.RawInput? || message.Created? || message.BoundsChanged?
                             || message.Command? || message.SystemCommand?)
    ensures message.Key? && message.key == W.Key.Tab ==> r.consumed
    ensures message.MouseButton? || message.MouseWheel? ==> r.consumed == ctx.wantsPointerInput
    ensures message.CursorMove? && !message.kind.Left? ==> r.consumed == ctx.isUsingPointer
    ensures message.Key? ==> r.consumed == (ctx.wantsKeyboardInput || message.key == W.Key.Tab)
    ensures message.Text? ==> r.consumed == ctx.wantsKeyboardInput
    ensures r.consumed ==> message.MouseButton? || message.MouseWheel? || message.Key? || message.Text?
                           || (message.CursorMove? && !message.kind.Left?)
  {
    match message
    case ScaleFactorChanged(_) => EventResponse(false, true)
    case MouseButton(_, _, _, _) => EventResponse(ctx.wantsPointerInput, true)
    case MouseWheel(_, _) => EventResponse(ctx.wantsPointerInput, true)
    case CursorMove(_, kind) =>
      if kind.Left? then EventResponse(false, true) else EventResponse(ctx.isUsingPointer, true)
    case Key(key, _, _, _) => EventResponse(ctx.wantsKeyboardInput || key == W.Key.Tab, true)
    case Text(_) => EventResponse(ctx.wantsKeyboardInput, true)
    case Focus(_) => EventResponse(false, true)
    case ModifiersChanged(_, _, _, _) => EventResponse(false, true)
    case Paint | Resized(_) | Moved(_) | CloseRequested => EventResponse(false, true)
    case Loop(_) | RawInput(_) | Created(_, _) | BoundsChanged(_, _) | Command | SystemCommand => EventResponse(false, false)
  }

  /** The new state after `on_window_event`, given the text the clipboard holds. */
  function WindowEvent(s: Input, message: Messages.Message, ctx: Context, clipboardText: string): Input
  {
    match message
    case ScaleFactorChanged(scaleFactor) => s.(nativePixelsPerPoint := Some(scaleFactor))
    case MouseButton(button, state, _, _) => ButtonInput(s, button, state)
    case MouseWheel(deltaX, deltaY) =>
      s.(events := s.events + WheelEvents(s.modifiers, Pos2(deltaX / ctx.pixelsPerPoint, deltaY / ctx.pixelsPerPoint)))
    case CursorMove(position, kind) =>
      if kind.Left? then s.(pointerPosInPoints := None, events := s.events + [PointerGone])
      else CursorMoved(s, PointsOf(position, ctx.pixelsPerPoint))
    case Key(key, state, _, _) =>
      s.(events := s.events + KeyboardEvents(s.modifiers, EK.KeyFromWinitKey(key), EK.KeyFromKeyCode(key), KeyIsPressed(state),
                                             Some(clipboardText)))
    case Text(text) => s.(events := s.events + TextEvents(s.modifiers, text))
    case Focus(focus) =>
      s.(focused := focus.Gained?, modifiers := EK.DefaultModifiers(), events := s.events + [WindowFocused(focus.Gained?)])
    case ModifiersChanged(shift, ctrl, alt, _) =>
      s.(modifiers := EK.Modifiers(ButtonIsPressed(alt), ButtonIsPressed(ctrl), ButtonIsPressed(shift), false, false))
    case _ => s
  }

  /** Focus changes set `focused` to whether focus was gained, reset every modifier and report the change. */
  lemma FocusResetsModifiers(s: Input, focus: Messages.Focus, ctx: Context, clipboardText: string)
    ensures var r := WindowEvent(s, Messages.Focus(focus), ctx, clipboardText);
            r.focused == focus.Gained? && r.modifiers == EK.DefaultModifiers()
            && r.events == s.events + [WindowFocused(focus.Gained?)]
            && r.pointerPosInPoints == s.pointerPosInPoints && r.currentCursorIcon == s.currentCursorIcon
  {
  }

  /** A modifier change copies shift, ctrl and alt (the Windows key is dropped) and clears `command` and `mac_cmd`. */
  lemma ModifiersCopied(s: Input, shift: ButtonState, ctrl: ButtonState, alt: ButtonState, win: ButtonState,
                        ctx: Context, clipboardText: string)
    ensures var r := WindowEvent(s, Messages.ModifiersChanged(shift, ctrl, alt, win), ctx, clipboardText);
            r.modifiers.shift == shift.Pressed? && r.modifiers.ctrl == ctrl.Pressed? && r.modifiers.alt == alt.Pressed?
            && !r.modifiers.command && !r.modifiers.macCmd && r.events == s.events
  {
  }

  /** No message ever sets the `command` or `mac_cmd` modifier, so from a new state they stay clear. */
  lemma CommandModifierStaysClear(s: Input, message: Messages.Message, ctx: Context, clipboardText: string)
    requires !s.modifiers.command && !s.modifiers.macCmd
    ensures var r := WindowEvent(s, message, ctx, clipboardText);
            !r.modifiers.command && !r.modifiers.macCmd
  {
  }

  /** Messages that need no repaint, and the repaint-only ones, leave the input untouched. */
  lemma IgnoredMessagesChangeNothing(s: Input, message: Messages.Message, ctx: Context, clipboardText: string)
    requires !Response(message, ctx).repaint || message.Paint? || message.Resized? || message.Moved? || message.CloseRequested?
    ensures WindowEvent(s, message, ctx, clipboardText) == s
  {
  }

  /** Leaving the window forgets the pointer and reports it gone. */
  lemma CursorLeftForgetsPointer(s: Input, position: PhysicalPosition, ctx: Context, clipboardText: string)
    ensures var r := WindowEvent(s, Messages.CursorMove(position, Messages.CursorMoveKind.Left), ctx, clipboardText);
            r.pointerPosInPoints.None? && r.events == s.events + [PointerGone]
            && Response(Messages.CursorMove(position, Messages.CursorMoveKind.Left), ctx) == EventResponse(false, true)
  {
  }

  /**
   * Once the `command` modifier is clear, C, V and X are not shortcuts and,
   * having no logical key, push no event at all: the shortcuts come only from
   * the dedicated keys and the Windows Insert/Delete combinations.
   */
  lemma LetterShortcutsAreSilent(modifiers: EK.Modifiers, pressed: bool, clipboardText: Option<string>)
    ensures KeyboardEvents(modifiers, EK.KeyFromWinitKey(W.Key.C), EK.KeyFromKeyCode(W.Key.C), pressed, clipboardText) == []
    ensures KeyboardEvents(modifiers, EK.KeyFromWinitKey(W.Key.V), EK.KeyFromKeyCode(W.Key.V), pressed, clipboardText) == []
    ensures KeyboardEvents(modifiers, EK.KeyFromWinitKey(W.Key.X), EK.KeyFromKeyCode(W.Key.X), pressed, clipboardText) == []
  {
    EK.LetterCHasNoLogicalKey();
    EK.LetterVHasNoLogicalKey();
    EK.LetterXHasNoLogicalKey();
  }

  /** Ctrl+Shift+Insert is checked as copy before paste, so it copies. */
  lemma CopyBeforePaste(modifiers: EK.Modifiers, clipboardText: Option<string>)
    requires modifiers.ctrl && modifiers.shift
    ensures KeyboardEvents(modifiers, EK.KeyFromWinitKey(W.Key.Insert), EK.KeyFromKeyCode(W.Key.Insert), true, clipboardText)
            == [Copy]
  {
    assert EK.KeyFromWinitKey(W.Key.Insert) == Some(EK.Insert);
  }

  /** Shift+Insert pastes the clipboard with CRLF turned into LF, when that text is non-empty. */
  lemma ShiftInsertPastes(modifiers: EK.Modifiers, text: string)
    requires modifiers.shift && !modifiers.ctrl && !modifiers.command
    ensures KeyboardEvents(modifiers, EK.KeyFromWinitKey(W.Key.Insert), EK.KeyFromKeyCode(W.Key.Insert), true, Some(text))
            == if text == [] then [] else [Paste(EguiText.ReplaceCrlf(text))]
  {
    assert EK.KeyFromWinitKey(W.Key.Insert) == Some(EK.Insert);
  }

  /** `set_cursor_icon`: the new current icon and the cursor visibility the window is asked for, if any. */
  function CursorIconUpdate(current: Option<EguiCursor.CursorIcon>, pointerInWindow: bool, icon: EguiCursor.CursorIcon)
    : (r: (Option<EguiCursor.CursorIcon>, Option<WT.Visibility>))
    ensures current == Some(icon) ==> r == (current, None)
    ensures current != Some(icon) && pointerInWindow ==>
              r.0 == Some(icon) && r.1 == Some(if EguiCursor.TranslateCursor(icon).None? then WT.Hidden else WT.Shown)
    ensures current != Some(icon) && !pointerInWindow ==> r == (None, None)
  {
    if current == Some(icon) then (current, None)
    else if pointerInWindow then
      (Some(icon), Some(if icon.None? then WT.Hidden else WT.Shown))
    else (None, None)
  }

  /** Asking twice for the same icon with the pointer in the window changes the window's cursor once. */
  lemma CursorIconSettles(current: Option<EguiCursor.CursorIcon>, icon: EguiCursor.CursorIcon)
    ensures var first := CursorIconUpdate(current, true, icon);
            CursorIconUpdate(first.0, true, icon) == (first.0, None)
  {
  }

  /** The egui `State`. */
  class State {
    var events: seq<Event>
    var focused: bool
    var modifiers: EK.Modifiers
    var nativePixelsPerPoint: Option<real>
    var pointerPosInPoints: Option<Pos2>
    var anyPointerButtonDown: bool
    var currentCursorIcon: Option<EguiCursor.CursorIcon>
    var simulateTouchScreen: bool
    const clipboard: EguiClipboard.Clipboard

    function Snapshot(): Input
      reads this
    {
      Input(events, focused, modifiers, nativePixelsPerPoint, pointerPosInPoints, anyPointerButtonDown,
            currentCursorIcon, simulateTouchScreen)
    }

    /** `State::new`: no events, unfocused, no pointer, no icon, touch emulation off, an empty clipboard. */
    constructor (nativePixelsPerPoint: Option<real>)
      ensures Snapshot() == Input([], false, EK.DefaultModifiers(), nativePixelsPerPoint, None, false, None, false)
      ensures fresh(clipboard) && clipboard.clipboard == ""
    {
      events := [];
      focused := false;
      modifiers := EK.DefaultModifiers();
      this.nativePixelsPerPoint := nativePixelsPerPoint;
      pointerPosInPoints := None;
      anyPointerButtonDown := false;
      currentCursorIcon := None;
      simulateTouchScreen := false;
      clipboard := new EguiClipboard.Clipboard();
    }

    /** `on_mouse_motion`: a raw motion is pushed as a pointer move by the delta. */
    method OnMouseMotion(deltaX: real, deltaY: real)
      modifies this
      ensures Snapshot() == old(Snapshot()).(events := old(events) + [PointerMoved(Pos2(deltaX, deltaY))])
    {
      events := events + [PointerMoved(Pos2(deltaX, deltaY))];
    }

    method OnMouseButtonInput(button: InputTypes.Mouse, state: ButtonState)
      modifies this
      ensures Snapshot() == ButtonInput(old(Snapshot()), button, state)
    {
      var translated := EK.TranslateMouseButton(button);
      if pointerPosInPoints.Some? && translated.Some? {
        var pos := pointerPosInPoints.value;
        var pressed := state == ButtonState.Pressed;
        events := events + [PointerButton(pos, translated.value, pressed, modifiers)];
        if simulateTouchScreen {
          if pressed {
            anyPointerButtonDown := true;
            events := events + [Touch(Start, pos)];
          } else {
            anyPointerButtonDown := false;
            events := events + [PointerGone];
            events := events + [Touch(End, pos)];
          }
        }
      }
    }

    method OnCursorMoved(position: PhysicalPosition, pixelsPerPoint: PixelsPerPoint)
      modifies this
      ensures Snapshot() == CursorMoved(old(Snapshot()), PointsOf(position, pixelsPerPoint))
    {
      var pos := PointsOf(position, pixelsPerPoint);
      pointerPosInPoints := Some(pos);
      if simulateTouchScreen {
        if anyPointerButtonDown {
          events := events + [PointerMoved(pos)];
          events := events + [Touch(Move, pos)];
        }
      } else {
        events := events + [PointerMoved(pos)];
      }
    }

    method OnMouseWheel(deltaX: real, deltaY: real, pixelsPerPoint: PixelsPerPoint)
      modifies this
      ensures Snapshot() == old(Snapshot()).(events := old(events)
                + WheelEvents(modifiers, Pos2(deltaX / pixelsPerPoint, deltaY / pixelsPerPoint)))
    {
      var delta := Pos2(deltaX / pixelsPerPoint, deltaY / pixelsPerPoint);
      events := events + [MouseWheel(delta, modifiers)];
      if modifiers.ctrl || modifiers.command {
        events := events + [Zoom(delta.y)];
      } else if modifiers.shift {
        events := events + [Scroll(Pos2(delta.x + delta.y, 0.0))];
      } else {
        events := events + [Scroll(delta)];
      }
    }

    method OnKeyboardInput(key: W.Key, state: KeyState)
      modifies this
      ensures Snapshot() == old(Snapshot()).(events := old(events)
                + KeyboardEvents(modifiers, EK.KeyFromWinitKey(key), EK.KeyFromKeyCode(key), KeyIsPressed(state),
                                 Some(clipboard.clipboard)))
    {
      var pressed := KeyIsPressed(state);
      var physicalKey := EK.KeyFromKeyCode(key);
      var logicalKey := EK.KeyFromWinitKey(key);
      if logicalKey.Some? {
        OnLogicalKey(logicalKey.value, physicalKey, pressed);
      }
    }

    /** The part of `on_keyboard_input` after a logical key was found. */
    method OnLogicalKey(logicalKey: EK.Key, physicalKey: Option<EK.Key>, pressed: bool)
      modifies this
      ensures Snapshot() == old(Snapshot()).(events := old(events)
                + KeyboardEvents(modifiers, Some(logicalKey), physicalKey, pressed, Some(clipboard.clipboard)))
    {
      ghost var expected := KeyboardEvents(modifiers, Some(logicalKey), physicalKey, pressed, Some(clipboard.clipboard));
      if pressed {
        if EK.IsCutCommand(modifiers, logicalKey) {
          assert expected == [Cut];
          events := events + [Cut];
          return;
        } else if EK.IsCopyCommand(modifiers, logicalKey) {
          assert expected == [Copy];
          events := events + [Copy];
          return;
        } else if EK.IsPasteCommand(modifiers, logicalKey) {
          var contents := clipboard.Get();
          if contents.Some? {
            var text := EguiText.ReplaceCrlf(contents.value);
            if text != [] {
              assert expected == [Paste(text)];
              events := events + [Paste(text)];
            }
          }
          return;
        }
      }
      assert expected == [Key(logicalKey, physicalKey, pressed, false, modifiers)];
      events := events + [Key(logicalKey, physicalKey, pressed, false, modifiers)];
    }

    method OnTextInput(text: string)
      modifies this
      ensures Snapshot() == old(Snapshot()).(events := old(events) + TextEvents(modifiers, text))
    {
      if text != [] && (forall i :: 0 <= i < |text| ==> EK.IsPrintableChar(text[i])) {
        var isCmd := modifiers.ctrl || modifiers.command || modifiers.macCmd;
        if !isCmd {
          events := events + [Text(text)];
        }
      }
    }

    /** `on_window_event`. */
    method OnWindowEvent(message: Messages.Message, ctx: Context) returns (response: EventResponse)
      modifies this
      ensures response == Response(message, ctx)
      ensures Snapshot() == WindowEvent(old(Snapshot()), message, ctx, clipboard.clipboard)
    {
      match message {
        case ScaleFactorChanged(scaleFactor) =>
          nativePixelsPerPoint := Some(scaleFactor);
          response := EventResponse(false, true);
        case MouseButton(_, _, _, _) | MouseWheel(_, _) | CursorMove(_, _) =>
          response := OnPointerMessage(message, ctx);
        case Key(_, _, _, _) | Text(_) =>
          response := OnKeyboardMessage(message, ctx);
        case Focus(focus) =>
          focused := focus == Messages.Focus.Gained;
          modifiers := EK.DefaultModifiers();
          events := events + [WindowFocused(focused)];
          response := EventResponse(false, true);
        case ModifiersChanged(shift, ctrl, alt, _) =>
          modifiers := EK.Modifiers(ButtonIsPressed(alt), ButtonIsPressed(ctrl), ButtonIsPressed(shift), false, false);
          response := EventResponse(false, true);
        case Paint | Resized(_) | Moved(_) | CloseRequested =>
          response := EventResponse(false, true);
        case Loop(_) | RawInput(_) | Created(_, _) | BoundsChanged(_, _) | Command | SystemCommand =>
          response := EventResponse(false, false);
      }
    }

    /** The pointer arms of `on_window_event`. */
    method OnPointerMessage(message: Messages.Message, ctx: Context) returns (response: EventResponse)
      requires message.MouseButton? || message.MouseWheel? || message.CursorMove?
      modifies this
      ensures response == Response(message, ctx)
      ensures Snapshot() == WindowEvent(old(Snapshot()), message, ctx, clipboard.clipboard)
    {
      match message {
        case MouseButton(button, state, _, _) =>
          OnMouseButtonInput(button, state);
          response := EventResponse(ctx.wantsPointerInput, true);
        case MouseWheel(deltaX, deltaY) =>
          OnMouseWheel(deltaX, deltaY, ctx.pixelsPerPoint);
          response := EventResponse(ctx.wantsPointerInput, true);
        case CursorMove(position, kind) =>
          if kind.Left? {
            pointerPosInPoints := None;
            events := events + [PointerGone];
            response := EventResponse(false, true);
          } else {
            OnCursorMoved(position, ctx.pixelsPerPoint);
            response := EventResponse(ctx.isUsingPointer, true);
          }
      }
    }

    /** The keyboard arms of `on_window_event`. */
    method OnKeyboardMessage(message: Messages.Message, ctx: Context) returns (response: EventResponse)
      requires message.Key? || message.Text?
      modifies this
      ensures response == Response(message, ctx)
      ensures Snapshot() == WindowEvent(old(Snapshot()), message, ctx, clipboard.clipboard)
    {
      match message {
        case Key(key, state, _, _) =>
          OnKeyboardInput(key, state);
          response := EventResponse(ctx.wantsKeyboardInput || key == W.Key.Tab, true);
        case Text(text) =>
          OnTextInput(text);
          response := EventResponse(ctx.wantsKeyboardInput, true);
      }
    }

    /** `set_cursor_icon`; returns the visibility the window is asked to take, if any. */
    method SetCursorIcon(icon: EguiCursor.CursorIcon) returns (request: Option<WT.Visibility>)
      modifies this
      ensures (currentCursorIcon, request) == CursorIconUpdate(old(currentCursorIcon), old(pointerPosInPoints).Some?, icon)
      ensures Snapshot() == old(Snapshot()).(currentCursorIcon := currentCursorIcon)
    {
      if currentCursorIcon == Some(icon) {
        return None;
      }
      var isPointerInWindow := pointerPosInPoints.Some?;
      if isPointerInWindow {
        currentCursorIcon := Some(icon);
        // `translate_cursor` finds a cursor exactly for the icons other than `None`.
        if !icon.None? {
          request := Some(WT.Shown);
        } else {
          request := Some(WT.Hidden);
        }
      } else {
        currentCursorIcon := None;
        request := None;
      }
    }
  }
}
