/**
 * The window settings of src/window/settings.rs: their own `Flow`,
 * `Visibility`, `ColorMode` and signed `Size`, the defaults, and the
 * `with_*` builders, each of which takes the settings by value and replaces
 * one field.
 */
module Settings {
  import opened Bits

  /** `Flow::default()` is `Wait`. */
  datatype Flow = Wait | Poll

  /** `Visibility::default()` is `Shown`. */
  datatype Visibility = Shown | Hidden

  /** `ColorMode::default()` is `Dark`. */
  datatype ColorMode = Dark | Light

  datatype Size = Size(width: i32, height: i32)

  datatype WindowSettings = WindowSettings(
    title: string,
    size: Size,
    flow: Flow,
    colorMode: ColorMode,
    visibility: Visibility,
    closeOnX: bool)

  /** `Size::default()`: 800 by 600. */
  function DefaultSize(): (s: Size)
    ensures s.width == 800 && s.height == 600
  {
    Size(800, 600)
  }

  /** `Size::from((i32, i32))`: the width first. */
  function SizeFromPair(value: (i32, i32)): (s: Size)
    ensures (s.width, s.height) == value
  {
    Size(value.0, value.1)
  }

  /** `WindowSettings::default()`. */
  function DefaultSettings(): (s: WindowSettings)
    ensures s.title == "Window" && s.size == DefaultSize()
    ensures s.flow.Wait? && s.colorMode.Dark? && s.visibility.Shown? && s.closeOnX
  {
    WindowSettings("Window", DefaultSize(), Wait, Dark, Shown, true)
  }

  function WithTitle(s: WindowSettings, title: string): (r: WindowSettings)
    ensures r.title == title
    ensures r.size == s.size && r.flow == s.flow && r.colorMode == s.colorMode
            && r.visibility == s.visibility && r.closeOnX == s.closeOnX
  {
    s.(title := title)
  }

  /** `with_size` takes anything convertible into a `Size`; a pair goes through `SizeFromPair`. */
  function WithSize(s: WindowSettings, size: Size): (r: WindowSettings)
    ensures r.size == size
    ensures r.title == s.title && r.flow == s.flow && r.colorMode == s.colorMode
            && r.visibility == s.visibility && r.closeOnX == s.closeOnX
  {
    s.(size := size)
  }

  function WithFlow(s: WindowSettings, flow: Flow): (r: WindowSettings)
    ensures r.flow == flow
    ensures r.title == s.title && r.size == s.size && r.colorMode == s.colorMode
            && r.visibility == s.visibility && r.closeOnX == s.closeOnX
  {
    s.(flow := flow)
  }

  function WithColorMode(s: WindowSettings, colorMode: ColorMode): (r: WindowSettings)
    ensures r.colorMode == colorMode
    ensures r.title == s.title && r.size == s.size && r.flow == s.flow
            && r.visibility == s.visibility && r.closeOnX == s.closeOnX
  {
    s.(colorMode := colorMode)
  }

  function WithVisibility(s: WindowSettings, visibility: Visibility): (r: WindowSettings)
    ensures r.visibility == visibility
    ensures r.title == s.title && r.size == s.size && r.flow == s.flow
            && r.colorMode == s.colorMode && r.closeOnX == s.closeOnX
  {
    s.(visibility := visibility)
  }

  function WithCloseOnX(s: WindowSettings, closeOnX: bool): (r: WindowSettings)
    ensures r.closeOnX == closeOnX
    ensures r.title == s.title && r.size == s.size && r.flow == s.flow
            && r.colorMode == s.colorMode && r.visibility == s.visibility
  {
    s.(closeOnX := closeOnX)
  }

  /** The builders are last-write-wins: a second call to the same builder discards the first. */
  lemma BuildersLastWriteWins(s: WindowSettings, t1: string, t2: string, z1: Size, z2: Size,
                              f1: Flow, f2: Flow, c1: ColorMode, c2: ColorMode,
                              v1: Visibility, v2: Visibility, x1: bool, x2: bool)
    ensures WithTitle(WithTitle(s, t1), t2) == WithTitle(s, t2)
    ensures WithSize(WithSize(s, z1), z2) == WithSize(s, z2)
    ensures WithFlow(WithFlow(s, f1), f2) == WithFlow(s, f2)
    ensures WithColorMode(WithColorMode(s, c1), c2) == WithColorMode(s, c2)
    ensures WithVisibility(WithVisibility(s, v1), v2) == WithVisibility(s, v2)
    ensures WithCloseOnX(WithCloseOnX(s, x1), x2) == WithCloseOnX(s, x2)
  {
  }

  /** Builders of different fields commute, so a builder chain is determined by the last value given to each field. */
  lemma BuildersCommute(s: WindowSettings, t: string, z: Size, f: Flow)
    ensures WithFlow(WithTitle(s, t), f) == WithTitle(WithFlow(s, f), t)
    ensures WithSize(WithFlow(s, f), z) == WithFlow(WithSize(s, z), f)
  {
  }

  /** Any settings value is reachable from the default by one call to each builder. */
  lemma BuildersReachEverySetting(s: WindowSettings)
    ensures WithCloseOnX(WithVisibility(WithColorMode(WithFlow(WithSize(WithTitle(DefaultSettings(),
              s.title), s.size), s.flow), s.colorMode), s.visibility), s.closeOnX) == s
  {
  }

  /** `with_size((w, h))` stores `Size { width: w, height: h }`. */
  lemma WithSizeOfPair(s: WindowSettings, w: i32, h: i32)
    ensures WithSize(s, SizeFromPair((w, h))).size == Size(w, h)
  {
  }
}
