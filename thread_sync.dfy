/**
 * The thread-message ids of src/window/sync.rs: `ThreadMessage` takes the
 * consecutive message numbers from `WM_APP` (0x8000) upward, and
 * `TryFrom<u32>` decodes exactly those five ids.
 */
module ThreadSync {
  import opened Bits

  const WM_APP: u32 := 0x8000

  datatype ThreadMessage = Empty | CloseConfirmed | ShowWindow | SetWindowText | RequestRedraw

  datatype DecodeResult = Ok(message: ThreadMessage) | Err

  /** The discriminant of each variant (`ThreadMessage as u32`). */
  function Discriminant(m: ThreadMessage): (id: u32)
    ensures WM_APP <= id <= WM_APP + 4
  {
    match m
    case Empty => WM_APP
    case CloseConfirmed => WM_APP + 1
    case ShowWindow => WM_APP + 2
    case SetWindowText => WM_APP + 3
    case RequestRedraw => WM_APP + 4
  }

  /** `ThreadMessage::try_from`: the variant whose discriminant is the id, or `Err`. */
  function TryFrom(value: u32): (r: DecodeResult)
    ensures r.Ok? <==> WM_APP <= value <= WM_APP + 4
  {
    if value == Discriminant(Empty) then Ok(Empty)
    else if value == Discriminant(CloseConfirmed) then Ok(CloseConfirmed)
    else if value == Discriminant(ShowWindow) then Ok(ShowWindow)
    else if value == Discriminant(SetWindowText) then Ok(SetWindowText)
    else if value == Discriminant(RequestRedraw) then Ok(RequestRedraw)
    else Err
  }

  /** The discriminants count up from `WM_APP` in declaration order. */
  lemma DiscriminantsConsecutive()
    ensures Discriminant(Empty) == WM_APP
    ensures Discriminant(CloseConfirmed) == Discriminant(Empty) + 1
    ensures Discriminant(ShowWindow) == Discriminant(CloseConfirmed) + 1
    ensures Discriminant(SetWindowText) == Discriminant(ShowWindow) + 1
    ensures Discriminant(RequestRedraw) == Discriminant(SetWindowText) + 1
  {
  }

  /** Decoding a variant's discriminant gives the variant back. */
  lemma TryFromDiscriminant(m: ThreadMessage)
    ensures TryFrom(Discriminant(m)) == Ok(m)
  {
  }

  /** An accepted id is the discriminant of what it decodes to, so distinct accepted ids give distinct variants. */
  lemma TryFromInjective(a: u32, b: u32)
    requires TryFrom(a).Ok? && TryFrom(b).Ok?
    ensures Discriminant(TryFrom(a).message) == a
    ensures a != b ==> TryFrom(a).message != TryFrom(b).message
  {
  }
}
