/**
 * The pressed states of src/window/input/state.rs, which the native-message
 * decoders and the egui layer use.
 */
module InputState {
  import opened Bits

  /** `ButtonState`: a mouse button or modifier is up (the default) or down. */
  datatype ButtonState = Released | Pressed

  /** `KeyState`: a key is up (the default), newly down, or held with a repeat count. */
  datatype KeyState = Released | Pressed | Held(repeatCount: u16)

  /** `ButtonState::default()`. */
  function DefaultButtonState(): (s: ButtonState)
    ensures s.Released?
  {
    ButtonState.Released
  }

  /** `KeyState::default()`. */
  function DefaultKeyState(): (s: KeyState)
    ensures s.Released?
  {
    KeyState.Released
  }

  /** `ButtonState::is_pressed`: only `Pressed` is pressed. */
  function ButtonIsPressed(s: ButtonState): (pressed: bool)
    ensures pressed <==> s != DefaultButtonState()
  {
    s == ButtonState.Pressed
  }

  /** `KeyState::is_pressed`: everything but `Released`, so a held key counts as pressed. */
  function KeyIsPressed(s: KeyState): (pressed: bool)
    ensures pressed <==> s != DefaultKeyState()
  {
    s != KeyState.Released
  }

  /** A held key is pressed whatever its repeat count, zero included. */
  lemma HeldIsPressed(n: u16)
    ensures KeyIsPressed(Held(n))
    ensures KeyIsPressed(KeyState.Pressed) && !KeyIsPressed(KeyState.Released)
  {
  }
}

/**
 * The plain input datatypes of src/window/input/button.rs, modifier.rs and
 * mouse.rs.
 */
module InputTypes {
  import opened Bits

  /** `button::KeyState`, the older key state that `Input` stores. */
  datatype KeyState = Pressed | Held(repeatCount: u16) | Released

  /** `button::ButtonState`, the older button state that `Input` stores. */
  datatype ButtonState = Pressed | Released

  /** `Mouse`, with discriminants 0 to 5. */
  datatype Mouse = Unknown | Left | Right | Middle | Back | Forward

  /** `Modifiers`, a set of bit flags. */
  datatype Modifier = Shift | Ctrl | Alt | Windows

  /** The discriminant of each mouse button (`#[repr(u16)]`). */
  function MouseDiscriminant(m: Mouse): (d: u16)
    ensures d <= 5
    ensures d == 0 <==> m.Unknown?
  {
    match m
    case Unknown => 0
    case Left => 1
    case Right => 2
    case Middle => 3
    case Back => 4
    case Forward => 5
  }

  /** The mouse discriminants are distinct. */
  lemma MouseDiscriminantInjective(m: Mouse, n: Mouse)
    ensures MouseDiscriminant(m) == MouseDiscriminant(n) ==> m == n
  {
  }

  /** The flag bit of each modifier: 1, 2, 4 and 8 (`#[repr(u8)]`). */
  function ModifierBit(m: Modifier): (bit: u8)
    ensures bit == Pow2(ModifierIndex(m))
  {
    match m
    case Shift => 0x01
    case Ctrl => 0x02
    case Alt => 0x04
    case Windows => 0x08
  }

  /** The position of each modifier's bit. */
  function ModifierIndex(m: Modifier): (i: nat)
    ensures i < 4
  {
    match m
    case Shift => 0
    case Ctrl => 1
    case Alt => 2
    case Windows => 3
  }

  /**
   * A `BitFlags<Modifiers>` is the OR of the bits of its members, so with four
   * distinct one-bit flags a flag set and its bits determine each other.
   */
  function ModifierFlags(s: set<Modifier>): (bits: u8)
    ensures bits < 16
    ensures forall m :: m in s <==> (bits / ModifierBit(m)) % 2 == 1
  {
    (if Shift in s then 1 else 0) + (if Ctrl in s then 2 else 0)
    + (if Alt in s then 4 else 0) + (if Windows in s then 8 else 0)
  }

  /** Two modifier sets with the same bits are the same set. */
  lemma ModifierFlagsInjective(s: set<Modifier>, t: set<Modifier>)
    requires ModifierFlags(s) == ModifierFlags(t)
    ensures s == t
  {
    forall m
      ensures m in s <==> m in t
    {
    }
  }
}
