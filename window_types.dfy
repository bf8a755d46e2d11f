/**
 * The plain window-state types: the enumerations at the end of
 * src/window/data.rs, the lifecycle `Stage` (src/window/stage.rs), the
 * window `Style` (src/window/frame.rs) and the `Cursor` record
 * (src/window/cursor.rs), and the `Command` requests (src/window/command.rs).
 * They carry no behaviour except their defaults.
 */
module WindowTypes {
  import opened Geometry
  import opened Wrappers

  datatype Fullscreen = Borderless

  /** `CursorMode::default()` is `Normal`. */
  datatype CursorMode = Normal | Confined

  /** `Flow::default()` is `Wait`. */
  datatype Flow = Wait | Poll

  /** `Visibility::default()` is `Shown`. */
  datatype Visibility = Shown | Hidden

  /** `Theme::default()` is `Auto`. */
  datatype Theme = Auto | Dark | Light

  datatype Stage = Setup | Ready | Looping | Closing | ExitLoop | Destroyed

  /**
   * The style flags of a window. The style-bit computation of
   * src/utilities.rs reads `visibility`, `decorations`, `fullscreen` and
   * `resizeable`; the cursor-clip rule reads `focused` and `active`.
   */
  datatype Style = Style(
    visibility: Visibility,
    decorations: Visibility,
    fullscreen: Option<Fullscreen>,
    resizeable: bool,
    minimized: bool,
    maximized: bool,
    focused: bool,
    active: bool)

  /** The icons of the cursor_icon crate that the egui layer translates to. */
  datatype CursorIcon =
    | Default | ContextMenu | Help | Pointer | Progress | Wait | Cell | Crosshair
    | Text | VerticalText | Alias | Copy | Move | NoDrop | NotAllowed | Grab
    | Grabbing | EResize | NResize | NeResize | NwResize | SResize | SeResize
    | SwResize | WResize | EwResize | NsResize | NeswResize | NwseResize
    | ColResize | RowResize | AllScroll | ZoomIn | ZoomOut

  datatype Cursor = Cursor(
    mode: CursorMode,
    visibility: Visibility,
    insideWindow: bool,
    lastPosition: PhysicalPosition,
    selectedIcon: CursorIcon)

  /** A request posted to the window thread (src/window/command.rs). */
  datatype Command =
    | Exit | Destroy | Redraw
    | SetVisibility(visibility: Visibility)
    | SetDecorations(decorations: Visibility)
    | SetWindowText(text: string)
    | SetSize(size: Size)
    | SetPosition(position: Position)
    | SetFullscreen(fullscreen: Option<Fullscreen>)
    | SetCursorIcon(icon: CursorIcon)
    | SetCursorMode(mode: CursorMode)
    | SetCursorVisibility(cursorVisibility: Visibility)
}
