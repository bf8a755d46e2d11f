/**
 * The decision logic of src/utilities.rs: the light-colour test, the window
 * style bits and extended style bits chosen for a `Style`, and the recorded
 * cursor-hidden state behind `set_cursor_visibility`.
 *
 * Style words are `bv32` with the values of the Win32 SDK header WinUser.h.
 */
module Utilities {
  import opened Bits
  import opened Wrappers
  import opened WindowTypes

  /** `windows::UI::Color`: alpha, red, green and blue channels. */
  datatype Color = Color(a: u8, r: u8, g: u8, b: u8)

  /**
   * `is_color_light`: 5·G + 2·R + B, computed in u32, exceeds 8·128. The sum
   * is at most 2040, so the u32 arithmetic never wraps.
   */
  predicate IsColorLight(c: Color)
    ensures IsColorLight(c) <==> 5 * c.g + 2 * c.r + c.b > 1024
  {
    var weighted := 5 * c.g + 2 * c.r + c.b;
    assert weighted <= 2040;
    WrapU32(weighted) > 8 * 128
  }

  /** Raising any channel never turns a light colour dark. */
  lemma LightnessMonotone(c: Color, d: Color)
    requires c.r <= d.r && c.g <= d.g && c.b <= d.b
    ensures IsColorLight(c) ==> IsColorLight(d)
  {
  }

  // WINDOW_STYLE bits.
  const WS_POPUP: bv32 := 0x8000_0000
  const WS_VISIBLE: bv32 := 0x1000_0000
  const WS_CLIPSIBLINGS: bv32 := 0x0400_0000
  const WS_CAPTION: bv32 := 0x00C0_0000
  const WS_BORDER: bv32 := 0x0080_0000
  const WS_DLGFRAME: bv32 := 0x0040_0000
  const WS_SYSMENU: bv32 := 0x0008_0000
  const WS_THICKFRAME: bv32 := 0x0004_0000
  const WS_MINIMIZEBOX: bv32 := 0x0002_0000
  const WS_MAXIMIZEBOX: bv32 := 0x0001_0000
  const WS_OVERLAPPEDWINDOW: bv32 := 0x00CF_0000

  // WINDOW_EX_STYLE bits.
  const WS_EX_WINDOWEDGE: bv32 := 0x0000_0100
  const WS_EX_CLIENTEDGE: bv32 := 0x0000_0200
  const WS_EX_APPWINDOW: bv32 := 0x0004_0000
  const WS_EX_OVERLAPPEDWINDOW: bv32 := 0x0000_0300

  predicate IsBorderless(info: Style) {
    info.fullscreen == Some(Borderless)
  }

  /**
   * `get_window_style`: a captioned, bordered window with a system menu that
   * clips its siblings; resizeable windows get the minimize and maximize
   * boxes, shown windows the visible bit; borderless fullscreen drops every
   * overlapped-window bit for the popup bit, and hidden decorations drop the
   * caption and the border.
   */
  function WindowStyle(info: Style): (style: bv32)
    ensures (style & WS_CLIPSIBLINGS) == WS_CLIPSIBLINGS
    ensures (style & WS_VISIBLE) == WS_VISIBLE <==> info.visibility.Shown?
    ensures (style & WS_POPUP) == WS_POPUP <==> IsBorderless(info)
    ensures IsBorderless(info) ==> (style & WS_OVERLAPPEDWINDOW) == 0
    ensures info.decorations.Hidden? ==> (style & (WS_CAPTION | WS_BORDER)) == 0
    ensures (style & WS_CAPTION) == (if !IsBorderless(info) && info.decorations.Shown? then WS_CAPTION else 0)
    ensures (style & WS_SYSMENU) == WS_SYSMENU <==> !IsBorderless(info)
    ensures (style & WS_MAXIMIZEBOX) == WS_MAXIMIZEBOX <==> info.resizeable && !IsBorderless(info)
    ensures (style & WS_MINIMIZEBOX) == WS_MINIMIZEBOX <==> info.resizeable && !IsBorderless(info)
    ensures (style & WS_THICKFRAME) == 0
    ensures (style & !(WS_POPUP | WS_VISIBLE | WS_CLIPSIBLINGS | WS_CAPTION | WS_SYSMENU
                      | WS_MINIMIZEBOX | WS_MAXIMIZEBOX)) == 0
  {
    var style := WS_CAPTION | WS_BORDER | WS_CLIPSIBLINGS | WS_SYSMENU;
    var style := if info.resizeable then style | WS_MAXIMIZEBOX | WS_MINIMIZEBOX else style;
    var style := if info.visibility.Shown? then style | WS_VISIBLE else style;
    var style := if IsBorderless(info) then (style & !WS_OVERLAPPEDWINDOW) | WS_POPUP else style;
    if info.decorations.Hidden? then style & !(WS_CAPTION | WS_BORDER) else style
  }

  /**
   * `get_window_ex_style`: an app window with a raised edge; borderless
   * fullscreen and hidden decorations both drop the edge.
   */
  function WindowExStyle(info: Style): (style: bv32)
    ensures (style & WS_EX_APPWINDOW) == WS_EX_APPWINDOW
    ensures (style & WS_EX_WINDOWEDGE) == WS_EX_WINDOWEDGE <==> !IsBorderless(info) && info.decorations.Shown?
    ensures (style & WS_EX_CLIENTEDGE) == 0
    ensures (style & !(WS_EX_APPWINDOW | WS_EX_WINDOWEDGE)) == 0
  {
    var style := WS_EX_WINDOWEDGE | WS_EX_APPWINDOW;
    var style := if IsBorderless(info) then style & !WS_EX_OVERLAPPEDWINDOW else style;
    if info.decorations.Hidden? then style & !WS_EX_WINDOWEDGE else style
  }

  /**
   * The process-wide flag `HIDDEN` of `set_cursor_visibility`, which records
   * whether the cursor was last hidden. Calling `ShowCursor(show)` is
   * reported as the result `Some(show)`; `None` means no call is made.
   */
  class CursorRecord {
    var hidden: bool

    /** The flag starts as "not hidden". */
    constructor()
      ensures !hidden
    {
      hidden := false;
    }

    /**
     * Swap in the requested state; call `ShowCursor(!hidden)` only when it
     * differs from the recorded one. A repeated request changes nothing.
     */
    method SetCursorVisibility(visible: Visibility) returns (showCursor: Option<bool>)
      modifies this
      ensures hidden <==> visible == Hidden
      ensures old(hidden) == hidden ==> showCursor == None
      ensures old(hidden) != hidden ==> showCursor == Some(visible == Shown)
    {
      var requested := visible == Hidden;
      var previous := hidden;
      hidden := requested;
      var changed := previous != requested;
      if changed {
        showCursor := Some(!requested);
      } else {
        showCursor := None;
      }
    }
  }
}
