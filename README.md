# witer core in Dafny

This project models the deterministic layer of witer, a Win32 windowing library written in Rust. It covers the following:

- **Word and byte helpers.** These split `WPARAM`/`LPARAM` values, in `src/utilities.rs` and, verbatim, in `src/lib.rs`. The two copies are modelled once, in module `Bits`.
- **Window styles and the cursor flag.** Module `Utilities` has the window-style and extended-style bits, the light-colour test and the recorded cursor-hidden flag.
- **Native message decoding.** Module `NativeInput` decodes keyboard and mouse-button messages: key state from the lParam flag bits, scan code and extended flag, and button, state, double click and position.
- **Both `Message` generations.** Module `Messages` covers `src/window/message.rs`, with its predicates and the cursor enter/leave classification. Module `WindowMessages` covers `src/window/window_message.rs`, with the `Message::new` dispatch.
- **Key-code tables.** Module `Keys` has the translation between virtual keys and `Key` in both directions, and the raw-input filter `Key::from_raw`.
- **Input tables.** `InputState`/`InputTypes` hold the pressed predicates, defaults, mouse discriminants and modifier bits. `InputTables.Input` is the state of every key and mouse button, updated in place.
- **Window geometry and window state** from `src/window/data.rs`.
  - `Geometry`: integer sizes and positions, and their tuple and array conversions.
  - `WindowData`: the stage test, the `Drop` teardown, the cursor-clip rule of `refresh_os_cursor` and the `WM_MOUSEMOVE` forwarding rule.
- **Thread messages and settings.** `ThreadSync` is the thread-message id codec. `Settings` holds the window settings and their builders.
- **The egui integration** of `src/compat/egui.rs`.
  - `EguiKeys` holds the translation tables and shortcut tests.
  - `EguiCursor` is the cursor table.
  - `EguiText` does the CRLF clean-up of pasted text.
  - `EguiState` has the `State` class and its event rules.
  - `EguiClipboard` is the fallback clipboard.
- **Two utilities from the examples.** `ImageFormat` is the present-mode choice. `FrameCounter` is the wrapping frame index.

Integers are unbounded `int`s restricted to the range of their Rust type. Casts that keep the low bits are written out as `Wrap*` functions, and `>>` is floor division.

System calls become parameters of the functions that make them:

| system call | enters the model as |
|---|---|
| `MapVirtualKeyW` | a function parameter |
| `GetClientRect` | an optional rectangle |
| the current cursor clip, the desktop rectangle, `ClientToScreen` | values |

The egui context's queries are a `Context` value. Floating-point quantities are exact `real`s.

## Model

| member | source | states |
|---|---|---|
| Bits.WordSplit | src/utilities.rs:35-45 | hi_word·65536 + lo_word gives back the u32, and the halves are its quotient and remainder by 65536 |
| Bits.ByteSplit | src/utilities.rs:51-61 | hi_byte·256 + lo_byte gives back the u16, and the halves are its quotient and remainder by 256 |
| Bits.SignedLoWordIsTwosComplement | src/utilities.rs:31-33 | signed_lo_word agrees with the value modulo 2^16 and is negative exactly when bit 15 is set |
| Bits.SignedHiWordIsFloor | src/utilities.rs:39-41 | signed_hi_word is exactly floor(d / 65536), with no truncation loss |
| Bits.SignedWordSplit | src/lib.rs:10-20 | signed high word times 65536 plus the low word modulo 2^16 gives back the i32 |
| Bits.SignedLoWordMatchesLoWord | src/lib.rs:10-16 | signed_lo_word(d) and lo_word(d as u32) agree modulo 2^16 |
| Bits.SignedLoByteIsTwosComplement | src/lib.rs:26-28 | signed_lo_byte lies in [-128, 127], agrees with the word modulo 256, and is negative exactly when bit 7 is set |
| Bits.SignedHiByteIsFloor | src/lib.rs:34-36 | signed_hi_byte is exactly floor(w / 256) |
| Bits.SingleBitFlag | src/window/message.rs:181 | testing a single-bit flag is testing that bit of the value |
| Bits.AndSingleBit | src/window/message.rs:246 | masking with 2^k keeps 2^k exactly when bit k is set |
| Bits.OrDisjoint | src/window/input/key.rs:488 | or-ing a low part below 2^k into a multiple of 2^k is addition |
| Bits.FlagSetFourBits | src/window/input.rs:103-105 | for 4-bit values, `contains` holds exactly when every bit of the flag is set in the value |
| Utilities.IsColorLight | src/utilities.rs:155-158 | a colour is light exactly when 5·G + 2·R + B > 1024, computed without u32 overflow |
| Utilities.LightnessMonotone | src/utilities.rs:155-158 | raising any channel never turns a light colour dark |
| Utilities.WindowStyle | src/utilities.rs:160-186 | always WS_CLIPSIBLINGS; WS_VISIBLE iff shown; WS_POPUP iff borderless fullscreen, with every overlapped-window bit gone; no caption or border when decorations are hidden; system menu, minimize and maximize boxes as the flags say; no other bit |
| Utilities.WindowExStyle | src/utilities.rs:188-201 | always WS_EX_APPWINDOW; WS_EX_WINDOWEDGE iff not borderless fullscreen and decorations shown; no other bit |
| Utilities.CursorRecord.constructor | src/utilities.rs:231 | the recorded cursor state starts as not hidden |
| Utilities.CursorRecord.SetCursorVisibility | src/utilities.rs:229-236 | the new state is recorded, and ShowCursor is called, with the new visibility, exactly when it differs from the recorded one, so a repeated call does nothing |
| NativeInput.KeyStateOfFlags | src/window/message.rs:204-214 | KF_UP gives Released whatever KF_REPEAT says; otherwise KF_REPEAT gives Held(repeat count); otherwise Pressed |
| NativeInput.ExtendedScanCode | src/window/message.rs:186 | the extended scan code has 0xE0 as high byte and the scan code as low byte |
| NativeInput.DecodeKeyboard | src/window/message.rs:178-222 | extended iff KF_EXTENDED; the scan code is the low flag byte, rewritten to 0xE0·256+byte exactly when extended and the extended mapping gives a nonzero key; the key comes from the mapping used; the state follows the flags |
| NativeInput.KeyboardFlagBits | src/window/message.rs:179-207 | KF_UP, KF_REPEAT and KF_EXTENDED of the high word are bits 31, 30 and 24 of lParam |
| NativeInput.ScanCodeShape | src/window/message.rs:183-199 | the scan code is a plain byte or 0xE000 plus a byte, and the latter only for extended keys |
| NativeInput.MouseButtonOf | src/window/message.rs:231-254 | L/M/R ids give Left/Middle/Right; X ids give Back iff XBUTTON1 is in the high word of wParam, else Forward; Unknown exactly for other ids |
| NativeInput.MouseButtonState | src/window/message.rs:264-301 | Pressed only for a down or double-click id; every up id and every other id gives Released |
| NativeInput.MouseButtonStatePressedIff | src/window/message.rs:264-301 | Pressed iff a down or double-click id whose MK_* bit (either X bit for X ids) is set in wParam |
| NativeInput.DoubleClickIsDown | src/window/message.rs:256-262 | the four double-click ids are down ids, and button ids are exactly the down and up ids |
| NativeInput.PointerPosition | src/window/message.rs:303-305 | the position is the signed low and high words of lParam, which together give back lParam as an i32 |
| NativeInput.DecodeMouseButton | src/window/message.rs:224-313 | the record holds the button, state, position and double-click flag of those rules |
| Messages.NewKeyboardMessage | src/window/message.rs:178-222 | a Key message carrying the decoded key, state, scan code and extended flag |
| Messages.NewMouseButtonMessage | src/window/message.rs:224-313 | a MouseButton message carrying the decoded button, state, double-click flag and position |
| Messages.IsKeyIff | src/window/message.rs:316-318 | is_key(k, s) iff the message is a Key with that key and state, whatever its scan code and extended flag |
| Messages.IsKey | src/window/message.rs:316-318 | a message answers is_key(k, s) exactly when it is a Key with key k and state s; its scan code and extended flag play no part |
| Messages.IsMouseButtonIff | src/window/message.rs:322-324 | is_mouse_button(b, s) iff the message is a MouseButton with that button and state, whatever its position and double-click flag |
| Messages.IsMouseButton | src/window/message.rs:322-324 | a message answers is_mouse_button(b, s) exactly when it is a MouseButton with button b and state s; its position and double-click flag play no part |
| Messages.IsEmpty | src/window/message.rs:327-329 | is_empty iff the message is Loop(Empty) |
| Messages.KeyboardMessageIsKey | src/window/message.rs:178-222 | a decoded keyboard message answers is_key for its own key and state and is never empty |
| Messages.InRect | src/window/message.rs:360-361 | a point lies inside only a non-empty rectangle |
| Messages.GetCursorMoveKind | src/window/message.rs:346-370 | Inside when the rectangle query fails; otherwise Entered iff previously outside and now in the half-open rectangle, Left iff previously inside and now outside |
| Messages.CursorMoveKindReportsChanges | src/window/message.rs:363-369 | with no change of inside/outside the kind is Inside |
| Messages.CursorMoveKindHalfOpen | src/window/message.rs:360-361 | the left/top edges are inside the rectangle and the right/bottom edges outside |
| WindowMessages.DefaultMessage | src/window/window_message.rs:42-45 | `Message::default()` is None |
| WindowMessages.NewMessage | src/window/window_message.rs:96-158 | the direct ids map to their messages; WM_SIZING gives Minimized iff wParam is SIZE_MINIMIZED; key ids give the decoded keyboard message; exactly the twelve button ids give the decoded button message; WM_MOUSEMOVE gives the signed words; the wheels give the delta on their axis; Other exactly for the ids the match does not name, with its parameters unchanged; never None |
| WindowMessages.IsTranslated | src/window/window_message.rs:96-158 | every id the dispatch names is a system message below WM_USER, so private and WM_APP ids always reach Other |
| WindowMessages.WheelDelta | src/window/window_message.rs:141-150 | the delta times WHEEL_DELTA is the signed high word of wParam, and it is negative exactly when that word is |
| WindowMessages.NewKeyboardMessage | src/window/window_message.rs:160-209 | a Keyboard message carrying the decoded key, state, scan code and extended flag |
| WindowMessages.NewMouseButtonMessage | src/window/window_message.rs:211-296 | a Mouse(Button) message carrying the decoded button, state, signed-word position and double-click flag |
| WindowMessages.DispatchIdsDistinct | src/window/window_message.rs:97-150 | the twelve directly matched ids are distinct, and no key id is a button id or WM_MOUSEMOVE, so the arms do not overlap |
| WindowMessages.KeystrokeState | src/window/window_message.rs:187-201 | for every key id the state is Released iff bit 31 of lParam, else Held(low word) iff bit 30, else Pressed |
| WindowMessages.ButtonAndMovePositionsAgree | src/window/window_message.rs:137-140 | a button message and a cursor move with the same lParam carry the same x and y |
| Keys.ToVirtualKey | src/window/input/key.rs:313-464 | a key encodes to 0 exactly when it is Unknown |
| Keys.Canonical | src/window/input/key.rs:458-460 | the canonical form of a key replaces the three aliases by Enter, Comma and Equals and keeps every other key |
| Keys.KeyRoundTrip | src/window/input/key.rs:163-464 | decoding the encoding of any key gives the key back, or for the three aliases the key they share a code with |
| Keys.DecodeThenEncode | src/window/input/key.rs:163-311 | every virtual key that decodes to a known key is that key's encoding |
| Keys.DecodeNeverYieldsAlias | src/window/input/key.rs:163-311 | decoding never produces NumEnter, NumComma or NumEquals |
| Keys.AliasesShareCodes | src/window/input/key.rs:458-460 | NumEnter, NumComma and NumEquals encode to VK_RETURN, VK_OEM_COMMA and VK_OEM_PLUS, which decode to Enter, Comma and Equals |
| Keys.FromVirtualKey | src/window/input/key.rs:163-311 | the From<VIRTUAL_KEY> table; code 0 and every code above 0xFF decode to Unknown |
| Keys.DecodesToUnknownIffUnlisted | src/window/input/key.rs:163-464 | a virtual key decodes to Unknown exactly when no known key encodes to it |
| Keys.Extension | src/window/input/key.rs:471-479 | the prefix is 0xE000 for RI_KEY_E0, else 0xE100 for RI_KEY_E1, else 0 |
| Keys.ScanCode | src/window/input/key.rs:480-489 | a zero make code is replaced by the virtual-key-to-scan mapping; otherwise the make code or-ed with the prefix |
| Keys.ScanCodeOfShortMakeCode | src/window/input/key.rs:471-489 | a one-byte make code becomes 0xE000+code, 0xE100+code or the code itself, E0 taking precedence over E1 |
| Keys.ExtendedE0TakesPrecedence | src/window/input/key.rs:470-489 | for every record with both prefix flags set, the scan code and the from_raw result are those of the same record with E0 alone; a one-byte make code gets 0xE0 as its high byte, and make code 0x1D is never filtered as the Pause half |
| Keys.PhysicalKey | src/window/input/key.rs:513-531 | VK_NUMLOCK gives NumLock, otherwise the key the scan code maps to |
| Keys.FromRaw | src/window/input/key.rs:470-569 | None exactly for the two fake scan codes and for shift with a numpad digit or period; otherwise the physical key |
| Keys.PauseFirstHalfIsDropped | src/window/input/key.rs:490-512 | the 0xE11D half of Pause is filtered out |
| Keys.PrintScreenFirstHalfIsDropped | src/window/input/key.rs:490-512 | the 0xE02A half of Print Screen is filtered out |
| Keys.NumLockByVirtualKey | src/window/input/key.rs:513-528 | VK_NUMLOCK yields NumLock once the scan-code filter is passed |
| Keys.ShiftNeverYieldsNumpadKey | src/window/input/key.rs:533-569 | a shift record never yields Num0–Num9 or NumPeriod |
| Keys.FromRawNeverYieldsAlias | src/window/input/key.rs:470-569 | the raw path never yields one of the three aliases |
| InputState.DefaultButtonState | src/window/input/state.rs:1-6 | `ButtonState::default()` is Released |
| InputState.DefaultKeyState | src/window/input/state.rs:14-20 | `KeyState::default()` is Released |
| InputState.HeldIsPressed | src/window/input/state.rs:22-27 | Held(n) is pressed for every n, including 0, and so is Pressed; Released is not |
| InputState.ButtonIsPressed | src/window/input/state.rs:1-12 | a button is pressed exactly when its state is not the default |
| InputState.KeyIsPressed | src/window/input/state.rs:14-27 | a key is pressed exactly when its state is not the default, so a held key counts |
| InputTypes.MouseDiscriminant | src/window/input/mouse.rs:1-10 | discriminants lie in 0..5, and 0 is Unknown |
| InputTypes.MouseDiscriminantInjective | src/window/input/mouse.rs:1-10 | distinct buttons have distinct discriminants |
| InputTypes.ModifierBit | src/window/input/modifier.rs:7-12 | each modifier's bit is 2 to the power of its position: 1, 2, 4, 8 |
| InputTypes.ModifierIndex | src/window/input/modifier.rs:7-12 | the four modifiers take bit positions below 4 |
| InputTypes.ModifierFlags | src/window/input/modifier.rs:7-12 | the flag word of a set is below 16 and has a modifier's bit set exactly when the modifier is in the set |
| InputTypes.ModifierFlagsInjective | src/window/input/modifier.rs:7-12 | distinct modifier sets have distinct flag words |
| InputTables.Input.constructor | src/window/input.rs:27-51 | every key and mouse code of the enumerations is in its table with state Released, and no modifier is held |
| InputTables.Input.KeyStateOf | src/window/input.rs:55-57 | the stored state, or Released for a code missing from the table |
| InputTables.Input.KeyDown | src/window/input.rs:59-61 | a key is down iff it is in the table with a state other than Released, so Held counts as down |
| InputTables.Input.UpdateKeyboardState | src/window/input.rs:63-67 | a listed key takes the new state, every other key keeps its state, no entry is added or removed, an absent code changes nothing, and buttons and modifiers are unchanged |
| InputTables.Input.MouseButtonStateOf | src/window/input.rs:71-77 | the stored state, or Released for a code missing from the table |
| InputTables.Input.MouseButtonDown | src/window/input.rs:79-81 | a button is down iff it is in the table and Pressed |
| InputTables.Input.UpdateMouseButtonState | src/window/input.rs:83-91 | a listed button takes the new state, every other button keeps its state, no entry is added or removed, and keys and modifiers are unchanged |
| InputTables.Input.ModifierDown | src/window/input.rs:99-101 | a modifier is down iff it is in the held set |
| InputTables.Input.ModifiersDown | src/window/input.rs:103-105 | a set is down iff it is a subset of the held set, so the empty set is always down |
| InputTables.ModifierFlagsContains | src/window/input.rs:103-105 | `contains` on the flag words is exactly set inclusion |
| InputTables.SubsetOfModifiers | src/window/input/modifier.rs:7-12 | set inclusion of modifier sets is decided modifier by modifier |
| InputTables.BitsOfModifiers | src/window/input/modifier.rs:7-12 | Shift, Ctrl, Alt and Windows are bits 0 to 3 of the flag word |
| InputTables.NewInputIsReleased | src/window/input.rs:27-61 | after `new`, every key and button reads as Released and is not down |
| Geometry.DefaultPosition | src/window/data.rs:998-1002 | the default position is zero |
| Geometry.IsPositive | src/window/data.rs:1014-1016 | a positive position is neither negative nor zero |
| Geometry.IsNegative | src/window/data.rs:1018-1020 | a negative position is not zero |
| Geometry.IsZero | src/window/data.rs:1022-1024 | is_zero iff the position is the origin |
| Geometry.IsAnyZero | src/window/data.rs:1237-1239 | is_any_zero iff the size covers no area (width·height = 0) |
| Geometry.IsAllZero | src/window/data.rs:1241-1243 | an all-zero size is any-zero |
| Geometry.PositionSignsWitnessed | src/window/data.rs:1014-1020 | (1, 1) is positive and (1, 0) is not; (-1, -1) is negative and (-1, 1) is not |
| Geometry.SizeZeroTestsWitnessed | src/window/data.rs:1237-1243 | (0, 0) is all-zero; (0, 1) is any-zero but not all-zero |
| Geometry.PositionFromPair | src/window/data.rs:1073-1080 | x and y are the pair's components, in order |
| Geometry.PositionToPair | src/window/data.rs:1055-1059 | the pair is (x, y) |
| Geometry.PositionFromArray | src/window/data.rs:1082-1089 | x and y are the array's two elements |
| Geometry.PositionToArray | src/window/data.rs:1067-1071 | the array is [x, y] |
| Geometry.PositionToUnsignedPair | src/window/data.rs:1049-1053 | the u32 pair reads back as x and y under i32 wrap-around; non-negative coordinates are kept, negative ones gain 2^32 |
| Geometry.PositionToUnsignedArray | src/window/data.rs:1061-1065 | the u32 array reads back as x and y under i32 wrap-around |
| Geometry.PositionPairRoundTrip | src/window/data.rs:1055-1080 | PhysicalPosition ↔ (i32, i32) are mutually inverse |
| Geometry.PositionArrayRoundTrip | src/window/data.rs:1067-1089 | PhysicalPosition ↔ [i32; 2] are mutually inverse |
| Geometry.SizeFromPair | src/window/data.rs:1292-1299 | width and height are the pair's components, in order |
| Geometry.SizeToPair | src/window/data.rs:1268-1272 | the pair is (width, height) |
| Geometry.SizeFromArray | src/window/data.rs:1301-1308 | width and height are the array's two elements |
| Geometry.SizeToArray | src/window/data.rs:1280-1284 | the array is [width, height] |
| Geometry.SizeToSignedPair | src/window/data.rs:1274-1278 | the i32 pair reads back as the extents under u32 wrap-around; extents below 2^31 are kept, larger ones turn negative |
| Geometry.SizeToSignedArray | src/window/data.rs:1286-1290 | the i32 array reads back as the extents under u32 wrap-around |
| Geometry.SizePairRoundTrip | src/window/data.rs:1268-1299 | PhysicalSize ↔ (u32, u32) are mutually inverse |
| Geometry.SizeArrayRoundTrip | src/window/data.rs:1280-1308 | PhysicalSize ↔ [u32; 2] are mutually inverse |
| Geometry.PositionAsLogical | src/window/data.rs:868-873 | a Logical payload is returned unchanged, for any scale factor |
| Geometry.PositionAsPhysical | src/window/data.rs:875-880 | a Physical payload is returned unchanged, for any scale factor |
| Geometry.SizeAsLogical | src/window/data.rs:1102-1107 | a Logical payload is returned unchanged, for any scale factor |
| Geometry.SizeAsPhysical | src/window/data.rs:1109-1114 | a Physical payload is returned unchanged, for any scale factor |
| Geometry.PositionFromPairIsPhysical | src/window/data.rs:907-911 | a position built from an (i32, i32) pair is that physical position whatever the scale factor |
| WindowData.HalfTowardZero | src/window/data.rs:232-233 | i32 division by 2 truncates toward zero |
| WindowData.Offset | src/window/data.rs:215-218 | every edge of the client rectangle is moved by the screen origin, wrapping in i32 |
| WindowData.DesiredClip | src/window/data.rs:224-245 | no clip iff the mode is Normal; Confined and shown gives the screen rectangle; Confined and hidden gives a 1×1 rectangle at the truncated centre |
| WindowData.ActiveClip | src/window/data.rs:248-254 | a desktop-sized current clip counts as none; any other is kept |
| WindowData.ClipCall | src/window/data.rs:224-262 | no call unless focused and active; then a call iff the wanted clip differs from the active one, and it sets the wanted clip |
| WindowData.AppliedVisibility | src/window/data.rs:264-270 | the cursor's own visibility inside the client area, Shown outside it |
| WindowData.ClipCallSettles | src/window/data.rs:256-261 | after a clip is applied, the same refresh makes no second call, unless the wanted clip is the desktop rectangle |
| WindowData.OsClipAfter | src/window/data.rs:256-261 | after ClipCursor, the clip refresh_os_cursor reads back is the one applied, except that the desktop rectangle reads as no clip |
| WindowData.HiddenClipIsCentreSquare | src/window/data.rs:229-239 | without overflow, the hidden-cursor clip is a 1×1 square inside the client rectangle |
| WindowData.MouseMoveOutcome | src/window/data.rs:762-802 | Entered and Left set the inside flag and always forward; Inside forwards only a changed position; the last position is recorded exactly when a move is forwarded |
| WindowData.MovePosition | src/window/data.rs:751-753 | the position is the signed low and high words of lParam, in the i16 range |
| WindowData.Internal.constructor | src/window/data.rs:113-166 | the window starts with the given stage, style and cursor, and with nothing forwarded or torn down |
| WindowData.Internal.IsClosing | src/window/data.rs:201-206 | closing iff the stage is Closing, ExitLoop or Destroyed |
| WindowData.Internal.JoinThread | src/window/data.rs:192-199 | the join handle is taken, and the join is logged only if there was one |
| WindowData.Internal.Drop | src/window/data.rs:126-147 | the result is DropEffect of the old state; afterwards the window is closing and nothing else changed |
| WindowData.Internal.OnMouseMove | src/window/data.rs:750-803 | the cursor record and the forwarded messages are those of MouseMoveOutcome for the decoded position and move kind |
| WindowData.Internal.RefreshOsCursor | src/window/data.rs:210-273 | fails exactly when focused and the current clip cannot be read, then making no call; otherwise the clip call is ClipCall and the cursor flag follows AppliedVisibility, calling ShowCursor only on a change |
| WindowData.DropEffect | src/window/data.rs:126-147 | a destroyed window is left as it is; otherwise the stage is Destroyed before Destroy is posted, the thread is joined and the class unregistered |
| WindowData.DropIdempotent | src/window/data.rs:129-133 | dropping twice is dropping once |
| WindowData.CountStepAppend | src/window/data.rs:126-147 | step counts add up over concatenated teardown logs |
| WindowData.CountStep | src/window/data.rs:126-147 | a step count is at most the log's length, and zero exactly when no entry of the log is that step |
| WindowData.DropTimes | src/window/data.rs:126-147 | any positive number of drops has the effect of one drop |
| WindowData.TeardownRunsOnce | src/window/data.rs:126-147 | however often a live window is dropped, Destroy is posted and the class unregistered exactly once, the thread joined at most once, and every step sees the stage Destroyed |
| WindowData.DropTimesDestroyed | src/window/data.rs:129-133 | any number of drops of a destroyed window change nothing |
| WindowData.RepeatedMoveIsDropped | src/window/data.rs:790-798 | once a move has been forwarded, the same move again is not |
| ThreadSync.Discriminant | src/window/sync.rs:18-25 | every discriminant lies in WM_APP..=WM_APP+4 |
| ThreadSync.TryFrom | src/window/sync.rs:27-40 | Ok exactly for ids in WM_APP..=WM_APP+4, Err for every other id |
| ThreadSync.DiscriminantsConsecutive | src/window/sync.rs:18-25 | Empty is WM_APP and each following variant is one more |
| ThreadSync.TryFromDiscriminant | src/window/sync.rs:27-40 | `try_from(v as u32) == Ok(v)` for every variant |
| ThreadSync.TryFromInjective | src/window/sync.rs:30-36 | an accepted id is the discriminant of its variant, so distinct accepted ids give distinct variants |
| Settings.DefaultSize | src/window/settings.rs:28-35 | 800 by 600 |
| Settings.SizeFromPair | src/window/settings.rs:37-44 | `Size::from((w, h))` is width w, height h |
| Settings.DefaultSettings | src/window/settings.rs:56-74 | title "Window", the default size, Wait, Dark, Shown and close on X |
| Settings.WithTitle | src/window/settings.rs:77-80 | sets the title and leaves the other five fields |
| Settings.WithSize | src/window/settings.rs:82-85 | sets the size and leaves the other five fields |
| Settings.WithFlow | src/window/settings.rs:87-90 | sets the flow and leaves the other five fields |
| Settings.WithColorMode | src/window/settings.rs:92-95 | sets the colour mode and leaves the other five fields |
| Settings.WithVisibility | src/window/settings.rs:97-100 | sets the visibility and leaves the other five fields |
| Settings.WithCloseOnX | src/window/settings.rs:102-105 | sets close-on-X and leaves the other five fields |
| Settings.BuildersLastWriteWins | src/window/settings.rs:76-106 | a second call to the same builder discards the first |
| Settings.BuildersCommute | src/window/settings.rs:76-106 | builders of different fields commute |
| Settings.BuildersReachEverySetting | src/window/settings.rs:56-106 | every settings value is the default with one call to each builder |
| Settings.WithSizeOfPair | src/window/settings.rs:37-44 | `with_size((w, h))` stores width w, height h |
| EguiClipboard.Clipboard.constructor | src/compat/egui/clipboard.rs:17-24 | the fallback text starts empty |
| EguiClipboard.Clipboard.Get | src/compat/egui/clipboard.rs:26-39 | returns Some of the stored text and changes nothing |
| EguiClipboard.Clipboard.Set | src/compat/egui/clipboard.rs:41-51 | the stored text becomes the new text, whatever it was |
| EguiKeys.DefaultModifiers | src/compat/egui.rs:360 | the default modifiers have every flag clear |
| EguiKeys.PrintableCharRejects | src/compat/egui.rs:878-884 | CR, LF and tab are rejected; ASCII graphic characters, space and everything from U+0080 below the first private-use area (U+E000) are accepted |
| EguiKeys.IsAsciiControl | src/compat/egui.rs:883 | control characters are ASCII; tab, LF and CR are controls; no ASCII graphic character or space is |
| EguiKeys.IsInPrivateUseArea | src/compat/egui.rs:879-881 | U+E000–U+F8FF, U+F0000–U+FFFFD and U+100000–U+10FFFD are private-use; every character outside those three ranges is not |
| EguiKeys.IsPrintableChar | src/compat/egui.rs:876-884 | a printable character is at least U+0020 and not DEL; every ASCII graphic character and space is printable |
| EguiKeys.PrintableCharRanges | src/compat/egui.rs:876-884 | ASCII controls and the three private-use ranges are not printable; the gaps U+F900–U+EFFFF, U+FFFFE–U+FFFFF and from U+10FFFE up are printable |
| EguiKeys.ShortcutsWithoutCommand | src/compat/egui.rs:886-902 | with `command` clear, cut/copy/paste are the dedicated keys plus shift+Delete, ctrl+Insert and shift+Insert only |
| EguiKeys.IsCutCommand | src/compat/egui.rs:886-890 | the Cut key, command+X and shift+Delete are cut commands; only Cut, X and Delete can be, and with neither command nor shift only Cut is |
| EguiKeys.IsCopyCommand | src/compat/egui.rs:892-896 | the Copy key, command+C and ctrl+Insert are copy commands; only Copy, C and Insert can be, and with neither command nor ctrl only Copy is |
| EguiKeys.IsPasteCommand | src/compat/egui.rs:898-902 | the Paste key, command+V and shift+Insert are paste commands; only Paste, V and Insert can be, and with neither command nor shift only Paste is |
| EguiKeys.ShortcutOverlap | src/compat/egui.rs:892-902 | ctrl+shift+Insert is both copy and paste; cut and paste never overlap without `command` |
| EguiKeys.TranslateMouseButton | src/compat/egui.rs:904-913 | no egui button exactly for Unknown |
| EguiKeys.PointerButtonSource | src/compat/egui.rs:904-913 | each egui button comes from a real window button |
| EguiKeys.MouseButtonRoundTrip | src/compat/egui.rs:904-913 | Left, Right, Middle, Back, Forward correspond one to one with Primary, Secondary, Middle, Extra1, Extra2 |
| EguiKeys.KeyFromWinitKey | src/compat/egui.rs:915-921 | Unknown gives no key; every other key goes through key_from_named_key |
| EguiKeys.KeyFromNamedKey | src/compat/egui.rs:923-971 | Unknown, numpad Enter and the letters C, V and X have no named key, and the table never gives Cut or Paste |
| EguiKeys.KeyFromKeyCode | src/compat/egui.rs:973-1077 | Unknown has no physical key; Enter and numpad Enter both give Enter |
| EguiKeys.DigitRowMatchesNumpad | src/compat/egui.rs:1014-1023 | the digit row and the numpad digits give the same egui key |
| EguiKeys.NamedKeysAgreeWithKeyCodes | src/compat/egui.rs:923-1077 | wherever the named-key table gives a key, the key-code table gives the same one |
| EguiKeys.LetterCHasNoLogicalKey | src/compat/egui.rs:923-971 | C has no named key but has a key code |
| EguiKeys.LetterVHasNoLogicalKey | src/compat/egui.rs:923-971 | V has no named key but has a key code |
| EguiKeys.LetterXHasNoLogicalKey | src/compat/egui.rs:923-971 | X has no named key but has a key code |
| EguiCursor.TranslateCursor | src/compat/egui.rs:1079-1121 | no window cursor exactly for egui's None icon |
| EguiCursor.CursorSource | src/compat/egui.rs:1079-1121 | each window cursor has an egui icon other than None |
| EguiCursor.TranslateCursorRoundTrip | src/compat/egui.rs:1079-1121 | every icon other than None comes back from its window cursor |
| EguiCursor.CursorSourceRoundTrip | src/compat/egui.rs:1079-1121 | every window cursor comes back through its icon |
| EguiText.ReplaceCrlf | src/compat/egui.rs:651 | replacing CRLF by LF never lengthens the text and leaves it empty only if it was empty |
| EguiText.Count | src/compat/egui.rs:651 | a character count is at most the length, and zero iff the character does not occur |
| EguiText.ReplaceCrlfKeepsOtherChars | src/compat/egui.rs:651 | every character other than CR occurs as often after the replacement as before |
| EguiText.ReplaceCrlfWithoutCr | src/compat/egui.rs:651 | text without CR is unchanged |
| EguiText.ReplaceCrlfAppend | src/compat/egui.rs:651 | the replacement distributes over a concatenation that does not split a CRLF pair |
| EguiText.CrlfBecomesLf | src/compat/egui.rs:651 | a CRLF between two texts becomes a single LF, each side being cleaned on its own |
| EguiState.TextEvents | src/compat/egui.rs:672-690 | one Text event iff the text is non-empty, every character printable and none of ctrl/command/mac_cmd set; otherwise nothing |
| EguiState.KeyboardEvents | src/compat/egui.rs:635-670 | unmapped keys push nothing; a press that is a cut command gives exactly Cut; else a copy command gives exactly Copy; else a paste command gives Paste of the clipboard text after CRLF→LF if that is non-empty, and nothing otherwise; every other mapped key, and every release, gives exactly one Key event with the pressed flag and modifiers |
| EguiState.ButtonEvents | src/compat/egui.rs:463-502 | nothing without a pointer position or for Unknown; otherwise first a PointerButton event at the pointer; then nothing without touch emulation, and with it Touch(Start) on a press or PointerGone and Touch(End) on a release |
| EguiState.ButtonInput | src/compat/egui.rs:463-502 | pushes the button events; only the any-button-down flag may also change, and it becomes the pressed flag exactly when touch emulation handles a real button at a known pointer |
| EguiState.CursorMoved | src/compat/egui.rs:504-534 | the pointer becomes the new position; one PointerMoved event, or with touch emulation PointerMoved and Touch(Move) only while a button is down; nothing else changes |
| EguiState.WheelEvents | src/compat/egui.rs:601-633 | a MouseWheel event, then Zoom of the vertical delta iff ctrl or command, else Scroll, with the axes folded together under shift |
| EguiState.Response | src/compat/egui.rs:231-432 | no repaint exactly for Loop, RawInput, Created, BoundsChanged, Command and SystemCommand; Tab is always consumed; only pointer, key and text messages can be consumed; a button or wheel message is consumed iff egui wants pointer input, a cursor move (not a leave) iff egui is using the pointer, a key iff egui wants keyboard input or the key is Tab, text iff egui wants keyboard input |
| EguiState.FocusResetsModifiers | src/compat/egui.rs:355-369 | focus sets `focused` iff Gained, resets the modifiers and pushes WindowFocused |
| EguiState.ModifiersCopied | src/compat/egui.rs:398-409 | shift/ctrl/alt are copied and command and mac_cmd cleared, with no event |
| EguiState.CommandModifierStaysClear | src/compat/egui.rs:355-409 | no window message ever sets command or mac_cmd |
| EguiState.IgnoredMessagesChangeNothing | src/compat/egui.rs:411-432 | the repaint-only and ignored messages leave the input state as it is |
| EguiState.CursorLeftForgetsPointer | src/compat/egui.rs:262-273 | a cursor leaving forgets the pointer, pushes PointerGone and asks for a repaint only |
| EguiState.LetterShortcutsAreSilent | src/compat/egui.rs:635-670 | C, V and X push no event at all, since they have no named key |
| EguiState.CopyBeforePaste | src/compat/egui.rs:641-657 | ctrl+shift+Insert pushes only Copy, since copy is tested before paste |
| EguiState.ShiftInsertPastes | src/compat/egui.rs:649-656 | shift+Insert pushes Paste of the clipboard text after CRLF→LF, or nothing if the text is empty |
| EguiState.CursorIconUpdate | src/compat/egui.rs:758-780 | the same icon changes nothing; a new icon with the pointer inside is recorded, showing the cursor unless the icon is None; with the pointer outside the record is reset to none |
| EguiState.CursorIconSettles | src/compat/egui.rs:758-780 | setting the same icon twice makes no second request |
| EguiState.State.constructor | src/compat/egui.rs:97-141 | no events, unfocused, default modifiers, no pointer, no cursor icon, no touch emulation, an empty clipboard |
| EguiState.State.OnMouseMotion | src/compat/egui.rs:456-461 | pushes one PointerMoved event of the delta and nothing else |
| EguiState.State.OnMouseButtonInput | src/compat/egui.rs:463-502 | the new state is ButtonInput of the old one |
| EguiState.State.OnCursorMoved | src/compat/egui.rs:504-534 | the new state is CursorMoved of the old one, at the position in points |
| EguiState.State.OnMouseWheel | src/compat/egui.rs:601-633 | pushes WheelEvents of the delta in points and nothing else |
| EguiState.State.OnKeyboardInput | src/compat/egui.rs:635-670 | pushes KeyboardEvents of both key lookups and the clipboard text, and nothing else |
| EguiState.State.OnLogicalKey | src/compat/egui.rs:638-669 | pushes KeyboardEvents for the mapped key, and nothing else |
| EguiState.State.OnTextInput | src/compat/egui.rs:672-690 | pushes TextEvents and nothing else |
| EguiState.State.OnWindowEvent | src/compat/egui.rs:231-432 | returns Response and leaves the state that WindowEvent computes |
| EguiState.State.OnPointerMessage | src/compat/egui.rs:248-280 | for pointer messages, returns Response and leaves the state WindowEvent computes |
| EguiState.State.OnKeyboardMessage | src/compat/egui.rs:336-353 | for key and text messages, returns Response and leaves the state WindowEvent computes |
| EguiState.State.SetCursorIcon | src/compat/egui.rs:758-780 | the recorded icon and the visibility request are those of CursorIconUpdate, and nothing else changes |
| ImageFormat.DefaultColorSpace | examples/foxy_renderer/src/renderer/image_format.rs:7-12 | ColorSpace defaults to Srgb |
| ImageFormat.DefaultPresentMode | examples/foxy_renderer/src/renderer/image_format.rs:14-19 | PresentMode defaults to AutoVsync |
| ImageFormat.DefaultImageFormat | examples/foxy_renderer/src/renderer/image_format.rs:1-5 | the default format combines the two defaults |
| ImageFormat.Find | examples/foxy_renderer/src/renderer/image_format.rs:24-26 | finds the mode iff it is in the list |
| ImageFormat.SelectFrom | examples/foxy_renderer/src/renderer/image_format.rs:22-38 | AutoImmediate prefers Immediate, then Mailbox, then Fifo; AutoVsync gives FifoRelaxed if offered, else Fifo; the result is offered or Fifo |
| ImageFormat.SelectFromIgnoresOrder | examples/foxy_renderer/src/renderer/image_format.rs:22-38 | lists with the same members give the same choice |
| ImageFormat.UnwrapOr | examples/foxy_renderer/src/renderer/image_format.rs:27-36 | the present value, or the fallback when there is none |
| FrameCounter.Next | examples/common/frame.rs:14-16 | adds one, and u32::MAX wraps to 0 |
| FrameCounter.IndexAfter | examples/common/frame.rs:14-16 | n updates from start leave the index at (start + n) mod 2^32 |
| FrameCounter.FromNew | examples/common/frame.rs:10-16 | after n updates from new the index is (1 + n) mod 2^32, and consecutive indices differ |
| FrameCounter.FrameUniform.constructor | examples/common/frame.rs:10-12 | the index starts at 1 |
| FrameCounter.FrameUniform.Update | examples/common/frame.rs:14-16 | the index becomes its wrapping successor |

## Left out

- **Thread handshake.** The mutex and condition-variable handshake between the window thread and the consumer has nothing deterministic left to state without concurrency. That covers `SyncData`, `send_message_to_main`, the thread handle and the `Handle` read-write lock. Forwarding to the consumer is the sequence `WindowData.Internal.sent`. The thread join is an entry in the teardown log.
- **Win32 side effects.** The calls themselves are not modelled, only the decisions that lead to them:
  - `SetWindowPos`, `ShowWindow`, `DefWindowProcW`, `TrackMouseEvent`, `PostMessageW` and `UnregisterClassW`;
  - the rest of `on_message`, `RawMessage::process` and window creation;
  - `get_function_impl`, `windows_10_build_version`, the dark-mode queries, `hwnd_dpi` and `dpi_to_scale_factor`.
- **Exact reals instead of floating point.** Logical sizes and positions, the scale factor, wheel deltas and egui points are exact reals. The scaling between the logical and physical kinds is a function parameter. f32/f64 rounding is not modelled. This includes egui's `on_mouse_wheel` and `on_cursor_moved`, whose float arithmetic is modelled in these reals.
- **Positive pixels per point.** The egui pixels-per-point ratio is the positive real type `PixelsPerPoint`. The source would divide by whatever egui reports.
- **Egui zoom factor.** The zoom factor of a ctrl+wheel event is the wheel's vertical delta. The `exp` scaling egui applies to it is not modelled.
- **Egui context queries.** `wants_pointer_input`, `wants_keyboard_input` and `is_using_pointer` are fields of a `Context` value, so what egui answers is not modelled.
- **Egui operations not modelled.** `take_egui_input`, `handle_platform_output`, `update_viewport_info`, `set_max_texture_side`, the IME settings and the commented-out viewport code are not part of this model.
- **arboard clipboard.** That branch is a foreign library. Only the fallback string is modelled.
- **Touch emulation always off.** The `simulate_touch_screen` flag starts false and no modelled operation sets it. The touch branches of ButtonEvents, ButtonInput and CursorMoved are still modelled and stated.
- **Unmodelled `refresh_os_cursor` calls.** `WindowData.Internal.OnMouseMove` does not make the calls to `refresh_os_cursor` that the `WM_MOUSEMOVE` arm makes after entering, leaving or forwarding. `WindowData.Internal.RefreshOsCursor` models that operation on its own.
- **Cursor-clip calls.** `get_cursor_clip` and `get_desktop_rect` are absent from the source (commented out). Their results are parameters, with `None` standing for a failed read of the current clip.
- **`update_last_windowed_pos_size`.** These are system queries and nothing else.
- **Generic key and mouse codes.** `KeyCode`/`MouseCode` are not defined in the source. `InputTables.Input` is generic over them and receives their complete enumerations.
- **Raw key state and `RawMessage` processing.** They hand native input to the window thread and are not part of this model.
- **`is_flag_set`.** It is imported by `src/window/message.rs:60`, `src/window/input/key.rs:9` and `src/window/data.rs:64`, but no source file defines it. The model takes it to be `value & flag == flag`. That agrees with a `value & flag != 0` test only because every flag the source passes is a single bit, which `Bits.SingleBitFlag` states.
- **`StyleInfo`.** `src/utilities.rs:29` imports it from `crate::window::state`, where it does not exist. The `Style` of `src/window/frame.rs` stands in for it in `Utilities.WindowStyle` and `Utilities.WindowExStyle`.
- **Plain data types.** The types of `src/window/frame.rs`, `cursor.rs`, `stage.rs` and `command.rs` carry no behaviour. They are datatypes with their defaults.
- **Release-build arithmetic.**
  - `WindowData.Offset` and `WindowData.DesiredClip` model i32 arithmetic wrapping, as in release builds. A debug build would panic on overflow instead.
  - `WindowData.HiddenClipIsCentreSquare` states its square only for rectangles whose sums do not overflow.
