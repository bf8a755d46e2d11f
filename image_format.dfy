/**
 * The swapchain format choice of
 * examples/foxy_renderer/src/renderer/image_format.rs: the enumerations and
 * their defaults, and `PresentMode::select_from`, which picks one of the
 * presentation modes a surface offers.
 */
module ImageFormat {
  import opened Wrappers

  /** `ColorSpace::default()` is `Srgb`. */
  datatype ColorSpace = Unorm | Srgb

  /** `PresentMode::default()` is `AutoVsync`. */
  datatype PresentMode = AutoImmediate | AutoVsync

  datatype ImageFormat = ImageFormat(presentMode: PresentMode, colorSpace: ColorSpace)

  /** The presentation modes of a Vulkan surface. */
  datatype SurfacePresentMode =
    | Immediate | Mailbox | Fifo | FifoRelaxed | SharedDemandRefresh | SharedContinuousRefresh

  function DefaultColorSpace(): (c: ColorSpace)
    ensures c.Srgb?
  {
    Srgb
  }

  function DefaultPresentMode(): (m: PresentMode)
    ensures m.AutoVsync?
  {
    AutoVsync
  }

  /** The derived default combines the two field defaults. */
  function DefaultImageFormat(): (f: ImageFormat)
    ensures f.presentMode == DefaultPresentMode() && f.colorSpace == DefaultColorSpace()
  {
    ImageFormat(DefaultPresentMode(), DefaultColorSpace())
  }

  /** `modes.iter().find(|m| *m == target)`: the first element equal to the target. */
  function Find(modes: seq<SurfacePresentMode>, target: SurfacePresentMode): (r: Option<SurfacePresentMode>)
    ensures r.Some? <==> target in modes
    ensures r.Some? ==> r.value == target
  {
    if modes == [] then None
    else if modes[0] == target then Some(modes[0])
    else Find(modes[1..], target)
  }

  /** `Option::unwrap_or`. */
  function UnwrapOr(o: Option<SurfacePresentMode>, fallback: SurfacePresentMode): (r: SurfacePresentMode)
    ensures o.Some? ==> r == o.value
    ensures o.None? ==> r == fallback
  {
    if o.Some? then o.value else fallback
  }

  /** `select_from`: the preferred modes in order, with `Fifo` as the fallback every surface supports. */
  function SelectFrom(mode: PresentMode, modes: seq<SurfacePresentMode>): (r: SurfacePresentMode)
    ensures r in modes || r == Fifo
    ensures mode.AutoImmediate? ==>
              (Immediate in modes ==> r == Immediate)
              && (Immediate !in modes && Mailbox in modes ==> r == Mailbox)
              && (Immediate !in modes && Mailbox !in modes ==> r == Fifo)
    ensures mode.AutoVsync? ==> r == (if FifoRelaxed in modes then FifoRelaxed else Fifo)
  {
    match mode
    case AutoImmediate => UnwrapOr(Find(modes, Immediate), UnwrapOr(Find(modes, Mailbox), Fifo))
    case AutoVsync => UnwrapOr(Find(modes, FifoRelaxed), Fifo)
  }

  /** The choice depends only on which modes are offered, not on their order or repetition. */
  lemma SelectFromIgnoresOrder(mode: PresentMode, modes: seq<SurfacePresentMode>, others: seq<SurfacePresentMode>)
    requires forall m :: m in modes <==> m in others
    ensures SelectFrom(mode, modes) == SelectFrom(mode, others)
  {
    assert Immediate in modes <==> Immediate in others;
    assert Mailbox in modes <==> Mailbox in others;
    assert FifoRelaxed in modes <==> FifoRelaxed in others;
  }
}
