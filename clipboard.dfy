/**
 * The fallback clipboard of src/compat/egui/clipboard.rs: the text lives in
 * one `String` field of the `Clipboard`, which `set` overwrites and `get`
 * returns a copy of.
 */
module EguiClipboard {
  import opened Wrappers

  class Clipboard {
    /** The fallback text. */
    var clipboard: string

    /** `Clipboard::new`: the fallback text starts empty. */
    constructor ()
      ensures clipboard == ""
    {
      clipboard := "";
    }

    /** `get`: always some text, the stored one, and nothing changes. */
    method Get() returns (text: Option<string>)
      ensures text == Some(clipboard)
    {
      text := Some(clipboard);
    }

    /** `set`: the stored text becomes the new one, whatever was there before. */
    method Set(text: string)
      modifies this
      ensures clipboard == text
    {
      clipboard := text;
    }
  }
}
