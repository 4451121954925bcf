/**
 * The document-level keyboard shortcuts of the player: a key press, together with the
 * tag name of the element that has focus, selects at most one command.
 */
module Keys {
  import opened Wrappers

  datatype Command =
    | TogglePlay
    | ToggleCaption
    | ToggleFullScreen
    | ToggleTheater
    | ToggleMiniPlayer
    | ToggleMute
    | Skip(seconds: int)

  /** `toLowerCase` on the ASCII letters; every other character is kept. */
  function LowerChar(c: char): char {
    if 'A' <= c <= 'Z' then (c as int + 32) as char else c
  }

  function Lower(s: string): (r: string)
    ensures |r| == |s|
    ensures forall i :: 0 <= i < |s| ==> r[i] == LowerChar(s[i])
  {
    seq(|s|, i requires 0 <= i < |s| => LowerChar(s[i]))
  }

  lemma LowerIdempotent(s: string)
    ensures Lower(Lower(s)) == Lower(s)
  {
  }

  lemma LowerOfArrows()
    ensures Lower("ArrowLeft") == "arrowleft"
    ensures Lower("ArrowRight") == "arrowright"
  {
  }

  /** The focused element's tag name, lower-cased; `None` when nothing has focus. */
  function FocusTag(focused: Option<string>): Option<string> {
    if focused.Some? then Some(Lower(focused.value)) else None
  }

  /** The keydown listener's `switch`: which command a key selects, if any. */
  function Dispatch(key: string, focused: Option<string>): Option<Command> {
    var tag := FocusTag(focused);
    if tag == Some("input") then None
    else
      match Lower(key)
      case " " => if tag == Some("button") then None else Some(TogglePlay)
      case "k" => Some(TogglePlay)
      case "c" => Some(ToggleCaption)
      case "f" => Some(ToggleFullScreen)
      case "t" => Some(ToggleTheater)
      case "i" => Some(ToggleMiniPlayer)
      case "m" => Some(ToggleMute)
      case "arrowleft" => Some(Skip(-5))
      case "j" => Some(Skip(-5))
      case "arrowright" => Some(Skip(5))
      case "l" => Some(Skip(5))
      case _ => None
  }

  /** The binding table read the other way: the lower-case keys bound to each command. */
  function KeysFor(c: Command): set<string> {
    match c
    case TogglePlay => {" ", "k"}
    case ToggleCaption => {"c"}
    case ToggleFullScreen => {"f"}
    case ToggleTheater => {"t"}
    case ToggleMiniPlayer => {"i"}
    case ToggleMute => {"m"}
    case Skip(d) =>
      if d == -5 then {"arrowleft", "j"} else if d == 5 then {"arrowright", "l"} else {}
  }

  /**
   * A key selects a command exactly when focus is not on an `input` element (in this
   * player, the volume slider), the key is bound to that command, and it is not the
   * space bar pressed on a focused button.
   */
  lemma DispatchMatchesBindings(key: string, focused: Option<string>, c: Command)
    ensures Dispatch(key, focused) == Some(c) <==>
      && FocusTag(focused) != Some("input")
      && Lower(key) in KeysFor(c)
      && !(Lower(key) == " " && FocusTag(focused) == Some("button"))
  {
  }

  /** No key selects more than one command, and the bindings of different commands are disjoint. */
  lemma BindingsDisjoint(c: Command, d: Command, k: string)
    requires k in KeysFor(c) && k in KeysFor(d)
    ensures c == d
  {
  }

  /** Shortcuts ignore letter case: `K` does what `k` does. */
  lemma DispatchIgnoresCase(key: string, focused: Option<string>)
    ensures Dispatch(key, focused) == Dispatch(Lower(key), focused)
  {
    LowerIdempotent(key);
  }

  /** While an `input` element (in this player, the volume slider) has focus, no key does anything. */
  lemma InputFocusSilences(key: string, focused: Option<string>)
    requires FocusTag(focused) == Some("input")
    ensures Dispatch(key, focused) == None
  {
  }
}
