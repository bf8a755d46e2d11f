/**
 * `Input` of src/window/input.rs: the state of every key and mouse button,
 * kept in two tables that are filled once and then updated in place, and the
 * set of modifiers held down.
 *
 * The key and mouse code enumerations (`KeyCode`, `MouseCode`) are type
 * parameters; `Input::new` iterates over all their values, which the
 * constructor receives as sequences.
 */
module InputTables {
  import opened Bits
  import opened InputTypes

  class Input<KeyCode(==, !new), MouseCode(==, !new)> {
    var keys: map<KeyCode, KeyState>
    var modifiers: set<Modifier>
    var mouseButtons: map<MouseCode, ButtonState>

    /** `Input::new`: every listed key and button starts released, and no modifier is down. */
    constructor (keyCodes: seq<KeyCode>, mouseCodes: seq<MouseCode>)
      ensures keys.Keys == set i | 0 <= i < |keyCodes| :: keyCodes[i]
      ensures forall code :: code in keys ==> keys[code] == KeyState.Released
      ensures mouseButtons.Keys == set i | 0 <= i < |mouseCodes| :: mouseCodes[i]
      ensures forall code :: code in mouseButtons ==> mouseButtons[code] == ButtonState.Released
      ensures modifiers == {}
    {
      var keyMap: map<KeyCode, KeyState> := map[];
      for i := 0 to |keyCodes|
        invariant keyMap.Keys == set j | 0 <= j < i :: keyCodes[j]
        invariant forall code :: code in keyMap ==> keyMap[code] == KeyState.Released
      {
        keyMap := keyMap[keyCodes[i] := KeyState.Released];
      }
      var buttonMap: map<MouseCode, ButtonState> := map[];
      for i := 0 to |mouseCodes|
        invariant buttonMap.Keys == set j | 0 <= j < i :: mouseCodes[j]
        invariant forall code :: code in buttonMap ==> buttonMap[code] == ButtonState.Released
      {
        buttonMap := buttonMap[mouseCodes[i] := ButtonState.Released];
      }
      keys := keyMap;
      modifiers := {};
      mouseButtons := buttonMap;
    }

    /** `key_state`: the recorded state, or `Released` for a code the table lacks. */
    function KeyStateOf(code: KeyCode): (s: KeyState)
      reads this
      ensures code !in keys ==> s == KeyState.Released
      ensures code in keys ==> s == keys[code]
    {
      if code in keys then keys[code] else KeyState.Released
    }

    /** `key_down`: any state but `Released`, so a held key is down. */
    predicate KeyDown(code: KeyCode)
      reads this
      ensures KeyDown(code) <==> code in keys && !keys[code].Released?
    {
      !KeyStateOf(code).Released?
    }

    /** `update_keyboard_state`: overwrites the state of a listed key; an unlisted key changes nothing. */
    method UpdateKeyboardState(keyCode: KeyCode, state: KeyState)
      modifies this
      ensures keys == if keyCode in old(keys) then old(keys)[keyCode := state] else old(keys)
      ensures modifiers == old(modifiers) && mouseButtons == old(mouseButtons)
      ensures keys.Keys == old(keys.Keys)
      ensures keyCode in keys ==> KeyStateOf(keyCode) == state
      ensures forall code :: code != keyCode ==> KeyStateOf(code) == old(KeyStateOf(code))
    {
      if keyCode in keys {
        keys := keys[keyCode := state];
      }
    }

    /** `mouse_button_state`: the recorded state, or `Released` for a code the table lacks. */
    function MouseButtonStateOf(code: MouseCode): (s: ButtonState)
      reads this
      ensures code !in mouseButtons ==> s == ButtonState.Released
      ensures code in mouseButtons ==> s == mouseButtons[code]
    {
      if code in mouseButtons then mouseButtons[code] else ButtonState.Released
    }

    /** `mouse_button_down`: any state but `Released`. */
    predicate MouseButtonDown(code: MouseCode)
      reads this
      ensures MouseButtonDown(code) <==> code in mouseButtons && mouseButtons[code].Pressed?
    {
      !MouseButtonStateOf(code).Released?
    }

    /** `update_mouse_button_state`: overwrites the state of a listed button; an unlisted one changes nothing. */
    method UpdateMouseButtonState(mouseCode: MouseCode, state: ButtonState)
      modifies this
      ensures mouseButtons == if mouseCode in old(mouseButtons) then old(mouseButtons)[mouseCode := state] else old(mouseButtons)
      ensures modifiers == old(modifiers) && keys == old(keys)
      ensures mouseButtons.Keys == old(mouseButtons.Keys)
      ensures mouseCode in mouseButtons ==> MouseButtonStateOf(mouseCode) == state
      ensures forall code :: code != mouseCode ==> MouseButtonStateOf(code) == old(MouseButtonStateOf(code))
    {
      if mouseCode in mouseButtons {
        mouseButtons := mouseButtons[mouseCode := state];
      }
    }

    /** `modifier_down`: the modifier is in the held set. */
    predicate ModifierDown(modifier: Modifier)
      reads this
      ensures ModifierDown(modifier) <==> modifier in modifiers
    {
      ModifiersDown({modifier})
    }

    /** `modifiers_down`: every modifier of the set is held (`BitFlags::contains`). */
    predicate ModifiersDown(wanted: set<Modifier>)
      reads this
      ensures ModifiersDown(wanted) <==> wanted <= modifiers
      ensures ModifiersDown({})
    {
      ModifierFlagsContains(modifiers, wanted);
      IsFlagSet(ModifierFlags(modifiers), ModifierFlags(wanted))
    }
  }

  /** On the bits of two modifier sets, `contains` is set inclusion. */
  lemma ModifierFlagsContains(held: set<Modifier>, wanted: set<Modifier>)
    ensures IsFlagSet(ModifierFlags(held), ModifierFlags(wanted)) <==> wanted <= held
  {
    FlagSetFourBits(ModifierFlags(held), ModifierFlags(wanted));
    BitsOfModifiers(held);
    BitsOfModifiers(wanted);
    SubsetOfModifiers(held, wanted);
  }

  /** A set of modifiers is inside another when each of the four modifiers is. */
  lemma SubsetOfModifiers(held: set<Modifier>, wanted: set<Modifier>)
    ensures wanted <= held <==> (Shift in wanted ==> Shift in held) && (Ctrl in wanted ==> Ctrl in held)
                                && (Alt in wanted ==> Alt in held) && (Windows in wanted ==> Windows in held)
  {
    if (Shift in wanted ==> Shift in held) && (Ctrl in wanted ==> Ctrl in held)
       && (Alt in wanted ==> Alt in held) && (Windows in wanted ==> Windows in held) {
      forall m | m in wanted
        ensures m in held
      {
        match m
        case Shift =>
        case Ctrl =>
        case Alt =>
        case Windows =>
      }
    }
  }

  /** Bit k of a modifier set's flags, read by halving k times, is the membership of the k-th modifier. */
  lemma BitsOfModifiers(s: set<Modifier>)
    ensures var bits := ModifierFlags(s);
            (Shift in s <==> bits % 2 == 1) && (Ctrl in s <==> (bits / 2) % 2 == 1)
            && (Alt in s <==> (bits / 2 / 2) % 2 == 1) && (Windows in s <==> (bits / 2 / 2 / 2) % 2 == 1)
  {
    var bits := ModifierFlags(s);
    assert ModifierBit(Alt) == 4 && ModifierBit(Windows) == 8;
    DivDiv(bits, 2);
    DivDiv(bits, 4);
    DivDiv(bits / 2, 2);
  }

  /** A freshly built table reports every key and button released and no modifier down. */
  lemma NewInputIsReleased<K(!new), M(!new)>(input: Input<K, M>, key: K, button: M, modifier: Modifier)
    requires forall code :: code in input.keys ==> input.keys[code] == KeyState.Released
    requires forall code :: code in input.mouseButtons ==> input.mouseButtons[code] == ButtonState.Released
    requires input.modifiers == {}
    ensures input.KeyStateOf(key) == KeyState.Released && !input.KeyDown(key)
    ensures input.MouseButtonStateOf(button) == ButtonState.Released && !input.MouseButtonDown(button)
    ensures !input.ModifierDown(modifier) && input.ModifiersDown({})
  {
  }
}
