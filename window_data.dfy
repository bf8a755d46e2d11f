/**
 * The window-state rules of `Internal` in src/window/data.rs: the
 * `is_closing` stage test, the `Drop` teardown that runs once, the
 * cursor-clip decision of `refresh_os_cursor`, and the `WM_MOUSEMOVE` arm of
 * `on_message`, which forwards cursor moves to the consumer thread.
 *
 * The mutex-guarded `Data` is flattened into the fields of one class; the
 * consumer thread is the sequence `sent` of forwarded messages, and the
 * system calls of the teardown are the log `teardown`. Rectangles and
 * cursor clips the system reports enter as parameters. Rust's `i32`
 * additions are modelled wrapping (release builds).
 */
module WindowData {
  import opened Bits
  import opened Wrappers
  import opened Geometry
  import opened WindowTypes
  import Utilities
  import Messages

  type Rect = Messages.Rect

  /** A system call of the teardown, with the stage the window was in when it was made. */
  datatype TeardownStep = DestroyPosted | ThreadJoined | ClassUnregistered
  datatype LogEntry = LogEntry(step: TeardownStep, stageSeen: Stage)

  /** The Rust `i32` `/ 2`, which truncates toward zero. */
  function HalfTowardZero(x: int): (h: int)
    ensures 0 <= x ==> 0 <= h && (2 * h == x || 2 * h == x - 1)
    ensures x < 0 ==> h <= 0 && (2 * h == x || 2 * h == x + 1)
  {
    if x >= 0 then x / 2 else -((-x) / 2)
  }

  /** `client_rect.left += top_left.x` and so on: the client rectangle moved to screen space. */
  function Offset(r: Rect, dx: i32, dy: i32): (s: Rect)
    ensures s.left == WrapI32(r.left + dx) && s.right == WrapI32(r.right + dx)
    ensures s.top == WrapI32(r.top + dy) && s.bottom == WrapI32(r.bottom + dy)
  {
    Messages.Rect(WrapI32(r.left + dx), WrapI32(r.top + dy), WrapI32(r.right + dx), WrapI32(r.bottom + dy))
  }

  /**
   * The clip `refresh_os_cursor` wants for a focused window: none in normal
   * mode, the whole client rectangle when confined and shown, and the 1x1
   * square at its integer centre when confined and hidden.
   */
  function DesiredClip(screenRect: Rect, cursor: Cursor): (clip: Option<Rect>)
    ensures clip.None? <==> cursor.mode.Normal?
    ensures cursor.mode.Confined? && cursor.visibility.Shown? ==> clip == Some(screenRect)
    ensures cursor.mode.Confined? && cursor.visibility.Hidden? ==>
              clip.Some? && clip.value.left == HalfTowardZero(WrapI32(screenRect.left + screenRect.right))
              && clip.value.top == HalfTowardZero(WrapI32(screenRect.top + screenRect.bottom))
  {
    match cursor.mode
    case Normal => None
    case Confined =>
      if cursor.visibility.Hidden? then
        var cx: i32 := HalfTowardZero(WrapI32(screenRect.left + screenRect.right));
        var cy: i32 := HalfTowardZero(WrapI32(screenRect.top + screenRect.bottom));
        Some(Messages.Rect(cx, cy, WrapI32(cx + 1), WrapI32(cy + 1)))
      else
        Some(screenRect)
  }

  /** The active clip as `refresh_os_cursor` sees it: a desktop-sized clip counts as no clip. */
  function ActiveClip(osClip: Rect, desktopRect: Rect): (active: Option<Rect>)
    ensures active.None? <==> osClip == desktopRect
    ensures active.Some? ==> active.value == osClip
  {
    if desktopRect == osClip then None else Some(osClip)
  }

  /**
   * Whether `refresh_os_cursor` calls `set_cursor_clip`, and with what:
   * `None` means no call, `Some(c)` a call with the clip `c`.
   */
  function ClipCall(isFocused: bool, desired: Option<Rect>, osClip: Rect, desktopRect: Rect): (call: Option<Option<Rect>>)
    ensures !isFocused ==> call.None?
    ensures isFocused ==> (call.Some? <==> desired != ActiveClip(osClip, desktopRect))
    ensures call.Some? ==> call.value == desired
  {
    if isFocused && ActiveClip(osClip, desktopRect) != desired then Some(desired) else None
  }

  /** The clip the system holds after `ClipCursor(clip)`: no clip means the whole desktop. */
  function OsClipAfter(clip: Option<Rect>, desktopRect: Rect): (osClip: Rect)
    ensures ActiveClip(osClip, desktopRect) == if clip == Some(desktopRect) then None else clip
  {
    if clip.Some? then clip.value else desktopRect
  }

  /** The visibility `refresh_os_cursor` applies: the requested one inside the client area, shown outside it. */
  function AppliedVisibility(cursor: Cursor): (v: Visibility)
    ensures !cursor.insideWindow ==> v.Shown?
    ensures cursor.insideWindow ==> v == cursor.visibility
  {
    if cursor.insideWindow then cursor.visibility else Shown
  }

  /**
   * Once a clip is applied, a second refresh with the same inputs makes no
   * second call, unless the wanted clip is exactly the desktop rectangle,
   * which the system then reports as "no clip" and which is re-applied on
   * every refresh.
   */
  lemma ClipCallSettles(isFocused: bool, desired: Option<Rect>, osClip: Rect, desktopRect: Rect)
    requires ClipCall(isFocused, desired, osClip, desktopRect).Some?
    ensures var after := OsClipAfter(desired, desktopRect);
            ClipCall(isFocused, desired, after, desktopRect).None? <==> desired != Some(desktopRect)
  {
  }

  /** The hidden-cursor clip is a 1x1 square inside the client rectangle when the coordinates do not overflow. */
  lemma HiddenClipIsCentreSquare(screenRect: Rect, cursor: Cursor)
    requires cursor.mode.Confined? && cursor.visibility.Hidden?
    requires screenRect.left <= screenRect.right && screenRect.top <= screenRect.bottom
    requires -0x8000_0000 <= screenRect.left + screenRect.right < 0x8000_0000
    requires -0x8000_0000 <= screenRect.top + screenRect.bottom < 0x8000_0000
    requires screenRect.right < 0x7FFF_FFFF && screenRect.bottom < 0x7FFF_FFFF
    ensures var clip := DesiredClip(screenRect, cursor).value;
            clip.right == clip.left + 1 && clip.bottom == clip.top + 1
            && screenRect.left <= clip.left <= screenRect.right
            && screenRect.top <= clip.top <= screenRect.bottom
  {
    assert WrapI32(screenRect.left + screenRect.right) == screenRect.left + screenRect.right;
    assert WrapI32(screenRect.top + screenRect.bottom) == screenRect.top + screenRect.bottom;
  }

  /** What one mouse move does to the cursor record, and the message it forwards if any. */
  datatype MoveOutcome = MoveOutcome(cursor: Cursor, forwarded: Option<Messages.Message>)

  /**
   * The `WM_MOUSEMOVE` rule: entering and leaving always forward and record
   * the new inside status; a move inside forwards only a changed position;
   * the last position is recorded exactly when a move is forwarded.
   */
  function MouseMoveOutcome(cursor: Cursor, position: PhysicalPosition, kind: Messages.CursorMoveKind): (o: MoveOutcome)
    ensures kind.Entered? ==> o.cursor.insideWindow
    ensures kind.Left? ==> !o.cursor.insideWindow
    ensures kind.Inside? ==> o.cursor.insideWindow == cursor.insideWindow
    ensures o.forwarded.Some? <==> !kind.Inside? || cursor.lastPosition != position
    ensures o.forwarded.Some? ==> o.forwarded.value == Messages.CursorMove(position, kind) && o.cursor.lastPosition == position
    ensures o.forwarded.None? ==> o.cursor == cursor
    ensures o.cursor.mode == cursor.mode && o.cursor.visibility == cursor.visibility
            && o.cursor.selectedIcon == cursor.selectedIcon
  {
    var c := match kind
      case Entered => cursor.(insideWindow := true)
      case Left => cursor.(insideWindow := false)
      case Inside => cursor;
    var send := match kind
      case Inside => cursor.lastPosition != position
      case _ => true;
    if send then MoveOutcome(c.(lastPosition := position), Some(Messages.CursorMove(position, kind)))
    else MoveOutcome(c, None)
  }

  /** The cursor position of a `WM_MOUSEMOVE`: the signed words of the low 32 bits of lParam. */
  function MovePosition(lParam: i64): (p: PhysicalPosition)
    ensures p.x == SignedLoWord(WrapI32(lParam)) && p.y == SignedHiWord(WrapI32(lParam))
    ensures -0x8000 <= p.x < 0x8000 && -0x8000 <= p.y < 0x8000
  {
    PhysicalPosition(SignedLoWord(WrapI32(lParam)), SignedHiWord(WrapI32(lParam)))
  }

  /** The state of one window that the message handler and `Drop` work on. */
  class Internal {
    var stage: Stage
    var style: Style
    var cursor: Cursor
    /** Whether the window thread's join handle is still held. */
    var hasThread: bool
    var teardown: seq<LogEntry>
    /** Messages handed to the consumer thread, oldest first. */
    var sent: seq<Messages.Message>

    constructor (stage: Stage, style: Style, cursor: Cursor, hasThread: bool)
      ensures this.stage == stage && this.style == style && this.cursor == cursor
      ensures this.hasThread == hasThread && teardown == [] && sent == []
    {
      this.stage := stage;
      this.style := style;
      this.cursor := cursor;
      this.hasThread := hasThread;
      teardown := [];
      sent := [];
    }

    /** `is_closing`: the window is past its loop. */
    predicate IsClosing()
      reads this
      ensures IsClosing() <==> !(stage.Setup? || stage.Ready? || stage.Looping?)
    {
      stage.Closing? || stage.ExitLoop? || stage.Destroyed?
    }

    /** `join_thread`: takes the handle and joins it if there was one. */
    method JoinThread()
      modifies this
      ensures !hasThread
      ensures teardown == old(teardown) + (if old(hasThread) then [LogEntry(ThreadJoined, stage)] else [])
      ensures stage == old(stage) && style == old(style) && cursor == old(cursor) && sent == old(sent)
    {
      var thread := hasThread;
      hasThread := false;
      if thread {
        teardown := teardown + [LogEntry(ThreadJoined, stage)];
      }
    }

    /**
     * `Drop`: nothing when already destroyed; otherwise mark the window
     * destroyed first, then post `Destroy`, join the thread and unregister
     * the window class.
     */
    method Drop()
      modifies this
      ensures (stage, hasThread, teardown) == DropEffect(old(stage), old(hasThread), old(teardown))
      ensures style == old(style) && cursor == old(cursor) && sent == old(sent)
      ensures IsClosing()
    {
      if stage.Destroyed? {
        return;
      }
      stage := Destroyed;
      teardown := teardown + [LogEntry(DestroyPosted, stage)];
      JoinThread();
      teardown := teardown + [LogEntry(ClassUnregistered, stage)];
    }

    /**
     * The `WM_MOUSEMOVE` arm of `on_message`, given the client rectangle
     * `GetClientRect` reports (`None` if the call fails).
     */
    method OnMouseMove(lParam: i64, clientRect: Option<Rect>)
      modifies this
      ensures var position := MovePosition(lParam);
              var kind := Messages.GetCursorMoveKind(clientRect, old(cursor).insideWindow, position.x, position.y);
              var o := MouseMoveOutcome(old(cursor), position, kind);
              cursor == o.cursor
              && sent == old(sent) + (if o.forwarded.Some? then [o.forwarded.value] else [])
      ensures stage == old(stage) && style == old(style) && hasThread == old(hasThread) && teardown == old(teardown)
    {
      var x := SignedLoWord(WrapI32(lParam));
      var y := SignedHiWord(WrapI32(lParam));
      var position := PhysicalPosition(x, y);
      var kind := Messages.GetCursorMoveKind(clientRect, cursor.insideWindow, x, y);
      var sendMessage: bool;
      match kind {
        case Entered =>
          cursor := cursor.(insideWindow := true);
          sendMessage := true;
        case Left =>
          cursor := cursor.(insideWindow := false);
          sendMessage := true;
        case Inside =>
          sendMessage := cursor.lastPosition != position;
      }
      if sendMessage {
        sent := sent + [Messages.CursorMove(position, kind)];
        cursor := cursor.(lastPosition := position);
      }
    }

    /**
     * `refresh_os_cursor`, given the client rectangle and its screen origin,
     * the system's current clip (`None` if reading it fails) and the desktop
     * rectangle. It returns whether it succeeded, the clip call it makes,
     * and the `ShowCursor` call the process-wide cursor flag leads to.
     */
    method RefreshOsCursor(clientRect: Rect, topLeft: PhysicalPosition, osClip: Option<Rect>, desktopRect: Rect,
                           record: Utilities.CursorRecord)
      returns (ok: bool, clipCall: Option<Option<Rect>>, showCursor: Option<bool>)
      modifies record
      ensures var isFocused := style.focused && style.active;
              var desired := DesiredClip(Offset(clientRect, topLeft.x, topLeft.y), cursor);
              (ok <==> !isFocused || osClip.Some?)
              && (!ok ==> clipCall.None? && showCursor.None? && record.hidden == old(record.hidden))
              && (ok && osClip.Some? ==> clipCall == ClipCall(isFocused, desired, osClip.value, desktopRect))
              && (ok && osClip.None? ==> clipCall.None?)
              && (ok ==> (record.hidden <==> AppliedVisibility(cursor).Hidden?))
              && (ok && old(record.hidden) == record.hidden ==> showCursor.None?)
              && (ok && old(record.hidden) != record.hidden ==> showCursor == Some(AppliedVisibility(cursor).Shown?))
    {
      var screenRect := Offset(clientRect, topLeft.x, topLeft.y);
      var isFocused := style.focused && style.active;
      clipCall := None;
      if isFocused {
        var cursorClip := DesiredClip(screenRect, cursor);
        if osClip.None? {
          return false, None, None;
        }
        var active := ActiveClip(osClip.value, desktopRect);
        if active != cursorClip {
          clipCall := Some(cursorClip);
        }
      }
      if cursor.insideWindow {
        showCursor := record.SetCursorVisibility(cursor.visibility);
      } else {
        showCursor := record.SetCursorVisibility(Shown);
      }
      ok := true;
    }
  }

  /** The stage, join handle and teardown log after `Drop`. */
  function DropEffect(stage: Stage, hasThread: bool, teardown: seq<LogEntry>): (r: (Stage, bool, seq<LogEntry>))
    ensures r.0.Destroyed?
    ensures stage.Destroyed? ==> r == (stage, hasThread, teardown)
    ensures !stage.Destroyed? ==> !r.1
  {
    if stage.Destroyed? then (stage, hasThread, teardown)
    else
      (Destroyed, false,
       teardown + [LogEntry(DestroyPosted, Destroyed)]
       + (if hasThread then [LogEntry(ThreadJoined, Destroyed)] else [])
       + [LogEntry(ClassUnregistered, Destroyed)])
  }

  /** Dropping a second time changes nothing. */
  lemma DropIdempotent(stage: Stage, hasThread: bool, teardown: seq<LogEntry>)
    ensures var r := DropEffect(stage, hasThread, teardown);
            DropEffect(r.0, r.1, r.2) == r
  {
  }

  /** The state after `n` drops. */
  function DropTimes(stage: Stage, hasThread: bool, teardown: seq<LogEntry>, n: nat): (after: (Stage, bool, seq<LogEntry>))
    ensures n >= 1 ==> after == DropEffect(stage, hasThread, teardown)
    decreases n
  {
    if n == 0 then (stage, hasThread, teardown)
    else
      var r := DropEffect(stage, hasThread, teardown);
      DropIdempotent(stage, hasThread, teardown);
      DropTimes(r.0, r.1, r.2, n - 1)
  }

  /** The number of times a step was made. */
  function CountStep(log: seq<LogEntry>, step: TeardownStep): (n: nat)
    ensures n <= |log|
    ensures n == 0 <==> forall i :: 0 <= i < |log| ==> log[i].step != step
  {
    if log == [] then 0
    else CountStep(log[..|log| - 1], step) + (if log[|log| - 1].step == step then 1 else 0)
  }

  lemma CountStepAppend(a: seq<LogEntry>, b: seq<LogEntry>, step: TeardownStep)
    ensures CountStep(a + b, step) == CountStep(a, step) + CountStep(b, step)
    decreases |b|
  {
    if b != [] {
      assert (a + b)[..|a + b| - 1] == a + b[..|b| - 1];
      CountStepAppend(a, b[..|b| - 1], step);
    } else {
      assert a + b == a;
    }
  }

  /**
   * However many times a live window is dropped, `Destroy` is posted and the
   * class unregistered exactly once, the thread joined at most once, and
   * every step is made with the stage already `Destroyed`.
   */
  lemma {:induction false} TeardownRunsOnce(stage: Stage, hasThread: bool, n: nat)
    requires !stage.Destroyed? && n >= 1
    ensures var r := DropTimes(stage, hasThread, [], n);
            CountStep(r.2, DestroyPosted) == 1 && CountStep(r.2, ClassUnregistered) == 1
            && CountStep(r.2, ThreadJoined) <= 1
            && forall i :: 0 <= i < |r.2| ==> r.2[i].stageSeen.Destroyed?
  {
    var r1 := DropEffect(stage, hasThread, []);
    var log := r1.2;
    var mid := if hasThread then [LogEntry(ThreadJoined, Destroyed)] else [];
    assert log == [LogEntry(DestroyPosted, Destroyed)] + mid + [LogEntry(ClassUnregistered, Destroyed)];
    CountStepAppend([LogEntry(DestroyPosted, Destroyed)] + mid, [LogEntry(ClassUnregistered, Destroyed)], DestroyPosted);
    CountStepAppend([LogEntry(DestroyPosted, Destroyed)], mid, DestroyPosted);
    CountStepAppend([LogEntry(DestroyPosted, Destroyed)] + mid, [LogEntry(ClassUnregistered, Destroyed)], ClassUnregistered);
    CountStepAppend([LogEntry(DestroyPosted, Destroyed)], mid, ClassUnregistered);
    CountStepAppend([LogEntry(DestroyPosted, Destroyed)] + mid, [LogEntry(ClassUnregistered, Destroyed)], ThreadJoined);
    CountStepAppend([LogEntry(DestroyPosted, Destroyed)], mid, ThreadJoined);
    DropTimesDestroyed(r1.0, r1.1, r1.2, n - 1);
  }

  /** Drops of a destroyed window change nothing. */
  lemma {:induction false} DropTimesDestroyed(stage: Stage, hasThread: bool, teardown: seq<LogEntry>, n: nat)
    requires stage.Destroyed?
    ensures DropTimes(stage, hasThread, teardown, n) == (stage, hasThread, teardown)
    decreases n
  {
    if n > 0 {
      DropTimesDestroyed(stage, hasThread, teardown, n - 1);
    }
  }

  /**
   * Cursor-move de-duplication: once a move inside the client area has been
   * forwarded, the same move again is not.
   */
  lemma RepeatedMoveIsDropped(cursor: Cursor, rect: Rect, lParam: i64)
    ensures var p := MovePosition(lParam);
            var k1 := Messages.GetCursorMoveKind(Some(rect), cursor.insideWindow, p.x, p.y);
            var o1 := MouseMoveOutcome(cursor, p, k1);
            var k2 := Messages.GetCursorMoveKind(Some(rect), o1.cursor.insideWindow, p.x, p.y);
            o1.forwarded.Some? ==> k2.Inside? && MouseMoveOutcome(o1.cursor, p, k2).forwarded.None?
  {
    var p := MovePosition(lParam);
    var k1 := Messages.GetCursorMoveKind(Some(rect), cursor.insideWindow, p.x, p.y);
    var o1 := MouseMoveOutcome(cursor, p, k1);
    if o1.forwarded.Some? {
      assert o1.cursor.insideWindow == Messages.InRect(rect, p.x, p.y);
      Messages.CursorMoveKindReportsChanges(rect, o1.cursor.insideWindow, p.x, p.y);
    }
  }
}
