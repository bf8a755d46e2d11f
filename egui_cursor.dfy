/**
 * The cursor translation of src/compat/egui.rs: egui's cursor icons, the
 * table `translate_cursor` to the window's icons, and `None`, the icon egui
 * asks for when the cursor is to be hidden.
 */
module EguiCursor {
  import opened Wrappers
  import WT = WindowTypes

  /** `egui::CursorIcon`. */
  datatype CursorIcon =
    | Default | None | ContextMenu | Help | PointingHand | Progress | Wait | Cell
    | Crosshair | Text | VerticalText | Alias | Copy | Move | NoDrop | NotAllowed
    | Grab | Grabbing | AllScroll | ResizeHorizontal | ResizeNeSw | ResizeNwSe
    | ResizeVertical | ResizeEast | ResizeSouthEast | ResizeSouth | ResizeSouthWest
    | ResizeWest | ResizeNorthWest | ResizeNorth | ResizeNorthEast | ResizeColumn
    | ResizeRow | ZoomIn | ZoomOut

  /** `translate_cursor`: every egui icon but `None` has a window icon. */
  function TranslateCursor(icon: CursorIcon): (r: Option<WT.CursorIcon>)
    ensures r.None? <==> icon.None?
  {
    match icon
    case None => Wrappers.None
    case Alias => Some(WT.CursorIcon.Alias)
    case AllScroll => Some(WT.CursorIcon.AllScroll)
    case Cell => Some(WT.CursorIcon.Cell)
    case ContextMenu => Some(WT.CursorIcon.ContextMenu)
    case Copy => Some(WT.CursorIcon.Copy)
    case Crosshair => Some(WT.CursorIcon.Crosshair)
    case Default => Some(WT.CursorIcon.Default)
    case Grab => Some(WT.CursorIcon.Grab)
    case Grabbing => Some(WT.CursorIcon.Grabbing)
    case Help => Some(WT.CursorIcon.Help)
    case Move => Some(WT.CursorIcon.Move)
    case NoDrop => Some(WT.CursorIcon.NoDrop)
    case NotAllowed => Some(WT.CursorIcon.NotAllowed)
    case PointingHand => Some(WT.CursorIcon.Pointer)
    case Progress => Some(WT.CursorIcon.Progress)
    case ResizeHorizontal => Some(WT.CursorIcon.EwResize)
    case ResizeNeSw => Some(WT.CursorIcon.NeswResize)
    case ResizeNwSe => Some(WT.CursorIcon.NwseResize)
    case ResizeVertical => Some(WT.CursorIcon.NsResize)
    case ResizeEast => Some(WT.CursorIcon.EResize)
    case ResizeSouthEast => Some(WT.CursorIcon.SeResize)
    case ResizeSouth => Some(WT.CursorIcon.SResize)
    case ResizeSouthWest => Some(WT.CursorIcon.SwResize)
    case ResizeWest => Some(WT.CursorIcon.WResize)
    case ResizeNorthWest => Some(WT.CursorIcon.NwResize)
    case ResizeNorth => Some(WT.CursorIcon.NResize)
    case ResizeNorthEast => Some(WT.CursorIcon.NeResize)
    case ResizeColumn => Some(WT.CursorIcon.ColResize)
    case ResizeRow => Some(WT.CursorIcon.RowResize)
    case Text => Some(WT.CursorIcon.Text)
    case VerticalText => Some(WT.CursorIcon.VerticalText)
    case Wait => Some(WT.CursorIcon.Wait)
    case ZoomIn => Some(WT.CursorIcon.ZoomIn)
    case ZoomOut => Some(WT.CursorIcon.ZoomOut)
  }

  /** The egui icon each window icon comes from: the inverse table. */
  function CursorSource(icon: WT.CursorIcon): (r: CursorIcon)
    ensures !r.None?
  {
    match icon
    case Alias => CursorIcon.Alias
    case AllScroll => CursorIcon.AllScroll
    case Cell => CursorIcon.Cell
    case ContextMenu => CursorIcon.ContextMenu
    case Copy => CursorIcon.Copy
    case Crosshair => CursorIcon.Crosshair
    case Default => CursorIcon.Default
    case Grab => CursorIcon.Grab
    case Grabbing => CursorIcon.Grabbing
    case Help => CursorIcon.Help
    case Move => CursorIcon.Move
    case NoDrop => CursorIcon.NoDrop
    case NotAllowed => CursorIcon.NotAllowed
    case Pointer => CursorIcon.PointingHand
    case Progress => CursorIcon.Progress
    case EwResize => CursorIcon.ResizeHorizontal
    case NeswResize => CursorIcon.ResizeNeSw
    case NwseResize => CursorIcon.ResizeNwSe
    case NsResize => CursorIcon.ResizeVertical
    case EResize => CursorIcon.ResizeEast
    case SeResize => CursorIcon.ResizeSouthEast
    case SResize => CursorIcon.ResizeSouth
    case SwResize => CursorIcon.ResizeSouthWest
    case WResize => CursorIcon.ResizeWest
    case NwResize => CursorIcon.ResizeNorthWest
    case NResize => CursorIcon.ResizeNorth
    case NeResize => CursorIcon.ResizeNorthEast
    case ColResize => CursorIcon.ResizeColumn
    case RowResize => CursorIcon.ResizeRow
    case Text => CursorIcon.Text
    case VerticalText => CursorIcon.VerticalText
    case Wait => CursorIcon.Wait
    case ZoomIn => CursorIcon.ZoomIn
    case ZoomOut => CursorIcon.ZoomOut
  }

  /** The table is a bijection between the visible egui icons and the window's icons. */
  lemma TranslateCursorRoundTrip(icon: CursorIcon)
    requires !icon.None?
    ensures CursorSource(TranslateCursor(icon).value) == icon
  {
    match icon
    case Default => assert CursorSource(TranslateCursor(Default).value) == Default;
    case ContextMenu => assert CursorSource(TranslateCursor(ContextMenu).value) == ContextMenu;
    case Help => assert CursorSource(TranslateCursor(Help).value) == Help;
    case PointingHand => assert CursorSource(TranslateCursor(PointingHand).value) == PointingHand;
    case Progress => assert CursorSource(TranslateCursor(Progress).value) == Progress;
    case Wait => assert CursorSource(TranslateCursor(Wait).value) == Wait;
    case Cell => assert CursorSource(TranslateCursor(Cell).value) == Cell;
    case Crosshair => assert CursorSource(TranslateCursor(Crosshair).value) == Crosshair;
    case Text => assert CursorSource(TranslateCursor(Text).value) == Text;
    case VerticalText => assert CursorSource(TranslateCursor(VerticalText).value) == VerticalText;
    case Alias => assert CursorSource(TranslateCursor(Alias).value) == Alias;
    case Copy => assert CursorSource(TranslateCursor(Copy).value) == Copy;
    case Move => assert CursorSource(TranslateCursor(Move).value) == Move;
    case NoDrop => assert CursorSource(TranslateCursor(NoDrop).value) == NoDrop;
    case NotAllowed => assert CursorSource(TranslateCursor(NotAllowed).value) == NotAllowed;
    case Grab => assert CursorSource(TranslateCursor(Grab).value) == Grab;
    case Grabbing => assert CursorSource(TranslateCursor(Grabbing).value) == Grabbing;
    case AllScroll => assert CursorSource(TranslateCursor(AllScroll).value) == AllScroll;
    case ResizeHorizontal => assert CursorSource(TranslateCursor(ResizeHorizontal).value) == ResizeHorizontal;
    case ResizeNeSw => assert CursorSource(TranslateCursor(ResizeNeSw).value) == ResizeNeSw;
    case ResizeNwSe => assert CursorSource(TranslateCursor(ResizeNwSe).value) == ResizeNwSe;
    case ResizeVertical => assert CursorSource(TranslateCursor(ResizeVertical).value) == ResizeVertical;
    case ResizeEast => assert CursorSource(TranslateCursor(ResizeEast).value) == ResizeEast;
    case ResizeSouthEast => assert CursorSource(TranslateCursor(ResizeSouthEast).value) == ResizeSouthEast;
    case ResizeSouth => assert CursorSource(TranslateCursor(ResizeSouth).value) == ResizeSouth;
    case ResizeSouthWest => assert CursorSource(TranslateCursor(ResizeSouthWest).value) == ResizeSouthWest;
    case ResizeWest => assert CursorSource(TranslateCursor(ResizeWest).value) == ResizeWest;
    case ResizeNorthWest => assert CursorSource(TranslateCursor(ResizeNorthWest).value) == ResizeNorthWest;
    case ResizeNorth => assert CursorSource(TranslateCursor(ResizeNorth).value) == ResizeNorth;
    case ResizeNorthEast => assert CursorSource(TranslateCursor(ResizeNorthEast).value) == ResizeNorthEast;
    case ResizeColumn => assert CursorSource(TranslateCursor(ResizeColumn).value) == ResizeColumn;
    case ResizeRow => assert CursorSource(TranslateCursor(ResizeRow).value) == ResizeRow;
    case ZoomIn => assert CursorSource(TranslateCursor(ZoomIn).value) == ZoomIn;
    case ZoomOut => assert CursorSource(TranslateCursor(ZoomOut).value) == ZoomOut;
    case None =>
  }

  lemma CursorSourceRoundTrip(icon: WT.CursorIcon)
    ensures TranslateCursor(CursorSource(icon)) == Some(icon)
  {
  }
}
