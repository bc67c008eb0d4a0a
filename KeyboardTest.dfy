/**
 * Keyboard practice: an on-screen keyboard whose keys show which finger
 * presses them, and a practice buffer that follows the physical keyboard
 * while practice is on. Key events carry the browser's `key` (the text the
 * key produces, or its name) and `code` (the physical key).
 */
module KeyboardTest {
  import opened Wrappers

  /**
   * The finger map's entries, legend and finger, in the order the object
   * literal lists them; a property lookup finds the entry with the legend.
   */
  const FingerEntries: seq<(string, string)> :=
    NumberRowFingers + TopRowFingers + HomeRowFingers + BottomRowFingers

  const NumberRowFingers: seq<(string, string)> := [
    ("~", "Left Pinky"), ("1", "Left Pinky"), ("2", "Left Ring"), ("3", "Left Middle"),
    ("4", "Left Index"), ("5", "Left Index"), ("6", "Right Index"), ("7", "Right Index"),
    ("8", "Right Middle"), ("9", "Right Ring"), ("0", "Right Pinky"), ("-", "Right Pinky"),
    ("=", "Right Pinky"), ("Backspace", "Right Pinky")
  ]

  const TopRowFingers: seq<(string, string)> := [
    ("Tab", "Left Pinky"), ("Q", "Left Pinky"), ("W", "Left Ring"), ("E", "Left Middle"),
    ("R", "Left Index"), ("T", "Left Index"), ("Y", "Right Index"), ("U", "Right Index"),
    ("I", "Right Middle"), ("O", "Right Ring"), ("P", "Right Pinky"), ("[", "Right Pinky"),
    ("]", "Right Pinky"), ("\\", "Right Pinky")
  ]

  const HomeRowFingers: seq<(string, string)> := [
    ("Caps Lock", "Left Pinky"), ("A", "Left Pinky"), ("S", "Left Ring"), ("D", "Left Middle"),
    ("F", "Left Index"), ("G", "Left Index"), ("H", "Right Index"), ("J", "Right Index"),
    ("K", "Right Middle"), ("L", "Right Ring"), (";", "Right Pinky"), ("'", "Right Pinky"),
    ("Enter", "Right Pinky")
  ]

  const BottomRowFingers: seq<(string, string)> := [
    ("ShiftL", "Left Pinky"), ("Z", "Left Pinky"), ("X", "Left Ring"), ("C", "Left Middle"),
    ("V", "Left Index"), ("B", "Left Index"), ("N", "Right Index"), ("M", "Right Index"),
    (",", "Right Middle"), (".", "Right Ring"), ("/", "Right Pinky"), ("ShiftR", "Right Pinky"),
    ("Space", "Thumbs")
  ]

  /** Every finger the map names is a non-empty name. */
  predicate FingersNamed(entries: seq<(string, string)>) {
    forall i :: 0 <= i < |entries| ==> entries[i].1 != ""
  }

  /**
   * `fingerMap[legend]`: the finger of the first entry with the legend, or
   * `undefined` (`None`) when no entry has it.
   */
  function FingerLookup(entries: seq<(string, string)>, legend: string): (f: Option<string>)
    ensures f.None? <==> forall i :: 0 <= i < |entries| ==> entries[i].0 != legend
  {
    if entries == [] then None
    else if entries[0].0 == legend then Some(entries[0].1)
    else FingerLookup(entries[1..], legend)
  }

  /** A lookup that succeeds returns the finger of the first entry with the legend. */
  lemma {:induction false} FingerLookupFirst(entries: seq<(string, string)>, legend: string)
    requires FingerLookup(entries, legend).Some?
    ensures exists i ::
      && 0 <= i < |entries| && entries[i] == (legend, FingerLookup(entries, legend).value)
      && (forall j :: 0 <= j < i ==> entries[j].0 != legend)
  {
    if entries[0].0 != legend {
      FingerLookupFirst(entries[1..], legend);
      var i :| 0 <= i < |entries[1..]| && entries[1..][i] == (legend, FingerLookup(entries[1..], legend).value)
        && (forall j :: 0 <= j < i ==> entries[1..][j].0 != legend);
      assert entries[i + 1] == entries[1..][i];
      forall j | 0 <= j < i + 1 ensures entries[j].0 != legend {
        if j > 0 { assert entries[j] == entries[1..][j - 1]; }
      }
    }
  }

  /** A legend some entry has is found, with a non-empty finger. */
  lemma FingerFound(legend: string, i: nat)
    requires i < |FingerEntries| && FingerEntries[i].0 == legend
    ensures FingerLookup(FingerEntries, legend).Some?
    ensures FingerLookup(FingerEntries, legend).value != ""
  {
    FingerLookupFirst(FingerEntries, legend);
    FingerEntriesNamed();
  }

  lemma FingerEntriesNamed()
    ensures FingersNamed(FingerEntries)
  {
    assert FingersNamed(NumberRowFingers);
    assert FingersNamed(TopRowFingers);
    assert FingersNamed(HomeRowFingers);
    assert FingersNamed(BottomRowFingers);
    FingersNamedAppend(NumberRowFingers, TopRowFingers);
    FingersNamedAppend(NumberRowFingers + TopRowFingers, HomeRowFingers);
    FingersNamedAppend(NumberRowFingers + TopRowFingers + HomeRowFingers, BottomRowFingers);
  }

  lemma FingersNamedAppend(a: seq<(string, string)>, b: seq<(string, string)>)
    requires FingersNamed(a) && FingersNamed(b)
    ensures FingersNamed(a + b)
  {
    forall i | 0 <= i < |a + b| ensures (a + b)[i].1 != "" {
      if i >= |a| { assert (a + b)[i] == b[i - |a|]; }
    }
  }

  /** How a key is drawn: a normal key, a wide one, the space bar, or a gap. */
  datatype KeyKind = Normal | Wide | SpaceBar | Gap

  /** A key of the on-screen keyboard: its legend (the label printed on it), its code and its shape. */
  datatype Key = Key(legend: string, code: string, kind: KeyKind)

  const Row1: seq<Key> := [
    Key("~", "Backquote", Normal), Key("1", "Digit1", Normal), Key("2", "Digit2", Normal),
    Key("3", "Digit3", Normal), Key("4", "Digit4", Normal), Key("5", "Digit5", Normal),
    Key("6", "Digit6", Normal), Key("7", "Digit7", Normal), Key("8", "Digit8", Normal),
    Key("9", "Digit9", Normal), Key("0", "Digit0", Normal), Key("-", "Minus", Normal),
    Key("=", "Equal", Normal), Key("Backspace", "Backspace", Wide)
  ]

  const Row2: seq<Key> := [
    Key("Tab", "Tab", Wide), Key("Q", "KeyQ", Normal), Key("W", "KeyW", Normal),
    Key("E", "KeyE", Normal), Key("R", "KeyR", Normal), Key("T", "KeyT", Normal),
    Key("Y", "KeyY", Normal), Key("U", "KeyU", Normal), Key("I", "KeyI", Normal),
    Key("O", "KeyO", Normal), Key("P", "KeyP", Normal), Key("[", "BracketLeft", Normal),
    Key("]", "BracketRight", Normal), Key("\\", "Backslash", Wide)
  ]

  const Row3: seq<Key> := [
    Key("Caps Lock", "CapsLock", Wide), Key("A", "KeyA", Normal), Key("S", "KeyS", Normal),
    Key("D", "KeyD", Normal), Key("F", "KeyF", Normal), Key("G", "KeyG", Normal),
    Key("H", "KeyH", Normal), Key("J", "KeyJ", Normal), Key("K", "KeyK", Normal),
    Key("L", "KeyL", Normal), Key(";", "Semicolon", Normal), Key("'", "Quote", Normal),
    Key("Enter", "Enter", Wide)
  ]

  const Row4: seq<Key> := [
    Key("Shift", "ShiftLeft", Wide), Key("Z", "KeyZ", Normal), Key("X", "KeyX", Normal),
    Key("C", "KeyC", Normal), Key("V", "KeyV", Normal), Key("B", "KeyB", Normal),
    Key("N", "KeyN", Normal), Key("M", "KeyM", Normal), Key(",", "Comma", Normal),
    Key(".", "Period", Normal), Key("/", "Slash", Normal), Key("Shift", "ShiftRight", Wide)
  ]

  const Row5: seq<Key> := [
    Key("", "Empty1", Gap), Key("", "Empty2", Gap), Key("", "Empty3", Gap),
    Key("Space", "Space", SpaceBar),
    Key("", "Empty4", Gap), Key("", "Empty5", Gap), Key("", "Empty6", Gap)
  ]

  /** The on-screen keyboard, row by row. */
  const KeyboardRows: seq<seq<Key>> := [Row1, Row2, Row3, Row4, Row5]

  /**
   * `getFingerHint`: the two Shift keys by their side, nothing for a gap, the
   * thumbs for the space bar, and otherwise the finger map's entry, or
   * nothing for a legend it does not have.
   */
  function FingerHint(legend: string, code: string): (h: string)
    ensures legend == "Shift" && code == "ShiftLeft" ==> h == "Left Pinky"
    ensures legend == "Shift" && code == "ShiftRight" ==> h == "Right Pinky"
    ensures legend == "" ==> h == ""
    ensures legend == " " || legend == "Space" ==> h == "Thumbs"
    ensures legend != "Shift" && legend != "" && legend != " " && legend != "Space" ==>
      h == FingerLookup(FingerEntries, legend).GetOr("")
  {
    if legend == "Shift" && code == "ShiftLeft" then "Left Pinky"
    else if legend == "Shift" && code == "ShiftRight" then "Right Pinky"
    else if legend == "" then ""
    else if legend == " " then "Thumbs"
    else if legend == "Space" then "Thumbs"
    else FingerLookup(FingerEntries, legend).GetOr("")
  }

  /** Every key of a row with a legend has a hint. */
  predicate RowHinted(row: seq<Key>) {
    forall k :: 0 <= k < |row| && row[k].legend != "" ==> FingerHint(row[k].legend, row[k].code) != ""
  }

  /** A gap has no hint, and every other key on the keyboard names a finger. */
  lemma EveryKeyHinted()
    ensures forall r, k :: 0 <= r < |KeyboardRows| && 0 <= k < |KeyboardRows[r]| ==>
      (KeyboardRows[r][k].legend != "" <==> FingerHint(KeyboardRows[r][k].legend, KeyboardRows[r][k].code) != "")
    ensures forall r, k :: 0 <= r < |KeyboardRows| && 0 <= k < |KeyboardRows[r]| ==>
      (KeyboardRows[r][k].kind == Gap <==> KeyboardRows[r][k].legend == "")
  {
    Row1Hinted();
    Row2Hinted();
    Row3Hinted();
    Row4Hinted();
    Row5Hinted();
  }

  lemma Row1Hinted()
    ensures RowHinted(Row1) && forall k :: 0 <= k < |Row1| ==> Row1[k].legend != "" && Row1[k].kind != Gap
  {
    forall k | 0 <= k < |Row1| ensures FingerHint(Row1[k].legend, Row1[k].code) != "" {
      assert Row1[k].legend == FingerEntries[k].0;
      FingerFound(Row1[k].legend, k);
    }
  }

  lemma Row2Hinted()
    ensures RowHinted(Row2) && forall k :: 0 <= k < |Row2| ==> Row2[k].legend != "" && Row2[k].kind != Gap
  {
    forall k | 0 <= k < |Row2| ensures FingerHint(Row2[k].legend, Row2[k].code) != "" {
      assert Row2[k].legend == FingerEntries[14 + k].0;
      FingerFound(Row2[k].legend, 14 + k);
    }
  }

  lemma Row3Hinted()
    ensures RowHinted(Row3) && forall k :: 0 <= k < |Row3| ==> Row3[k].legend != "" && Row3[k].kind != Gap
  {
    forall k | 0 <= k < |Row3| ensures FingerHint(Row3[k].legend, Row3[k].code) != "" {
      assert Row3[k].legend == FingerEntries[28 + k].0;
      FingerFound(Row3[k].legend, 28 + k);
    }
  }

  lemma Row4Hinted()
    ensures RowHinted(Row4) && forall k :: 0 <= k < |Row4| ==> Row4[k].legend != "" && Row4[k].kind != Gap
  {
    forall k | 0 <= k < |Row4| ensures FingerHint(Row4[k].legend, Row4[k].code) != "" {
      if 1 <= k <= 10 {
        assert Row4[k].legend == FingerEntries[41 + k].0;
        FingerFound(Row4[k].legend, 41 + k);
      }
    }
  }

  lemma Row5Hinted()
    ensures RowHinted(Row5)
    ensures forall k :: 0 <= k < |Row5| ==> (Row5[k].legend == "" <==> Row5[k].kind == Gap)
  {
  }

  /**
   * The keydown guard: a one-character key, or the space bar or backspace by
   * code. It lets through every keystroke that changes the buffer, and apart
   * from backspace each keystroke it lets through adds one character.
   */
  function Printable(key: string, code: string): (b: bool)
    ensures !b ==> forall prev :: NextBuffer(prev, key, code) == prev
    ensures b && code != "Backspace" ==> forall prev :: |NextBuffer(prev, key, code)| == |prev| + 1
  {
    |key| == 1 || code == "Space" || code == "Backspace"
  }

  /**
   * The practice buffer after a keystroke: backspace drops the last
   * character (an empty buffer stays empty), the space bar appends a space, a
   * one-character key appends that character, and any other key changes nothing.
   */
  function NextBuffer(prev: string, key: string, code: string): (r: string)
    ensures code == "Backspace" ==> (prev == [] ==> r == []) && (prev != [] ==> r + [prev[|prev| - 1]] == prev)
    ensures code != "Backspace" && code == "Space" ==> r == prev + " "
    ensures code != "Backspace" && code != "Space" && |key| == 1 ==> r == prev + key
    ensures code != "Backspace" && code != "Space" && |key| != 1 ==> r == prev
  {
    if code == "Backspace" then (if prev == [] then [] else prev[..|prev| - 1])
    else if code == "Space" then prev + " "
    else if |key| == 1 then prev + key
    else prev
  }

  /**
   * Every keystroke moves the buffer by at most one character, and only at
   * its end: the old buffer is a prefix of the new one or the other way round.
   */
  lemma BufferStep(prev: string, key: string, code: string)
    ensures var r := NextBuffer(prev, key, code);
      && |prev| - 1 <= |r| <= |prev| + 1
      && ((|r| <= |prev| && r == prev[..|r|]) || (|prev| <= |r| && prev == r[..|prev|]))
  {
  }

  /** Backspace undoes any keystroke that added a character. */
  lemma BackspaceUndoes(prev: string, key: string, code: string)
    requires code != "Backspace" && Printable(key, code)
    ensures NextBuffer(NextBuffer(prev, key, code), "Backspace", "Backspace") == prev
  {
    var r := NextBuffer(prev, key, code);
    assert |r| == |prev| + 1 && r[..|prev|] == prev;
  }

  /** What the typing card shows. */
  datatype CardText = StartPrompt | TypePrompt | Typed(text: string)

  class KeyboardPractice {
    var enabled: bool
    var typed: string
    var pressedKey: Option<string>
    var hoveredKey: Option<string>

    constructor ()
      ensures !enabled && typed == "" && pressedKey.None? && hoveredKey.None?
    {
      enabled := false;
      typed := "";
      pressedKey := None;
      hoveredKey := None;
    }

    /**
     * A keydown reaches the page only while practice is on: the key's code
     * becomes the pressed key, and the buffer takes the keystroke. The guard
     * in front of the buffer update never changes the outcome.
     */
    method KeyDown(key: string, code: string)
      modifies this
      ensures !old(enabled) ==> unchanged(this)
      ensures old(enabled) ==> pressedKey == Some(code) && typed == NextBuffer(old(typed), key, code)
      ensures old(enabled) ==> forall k: Key :: k.kind != Gap && k.kind != SpaceBar ==> (IsPressed(k) <==> k.code == code)
      ensures enabled == old(enabled) && hoveredKey == old(hoveredKey)
    {
      if enabled {
        pressedKey := Some(code);
        if Printable(key, code) {
          typed := NextBuffer(typed, key, code);
        }
      }
    }

    /** A keyup clears the pressed key while practice is on. */
    method KeyUp()
      modifies this
      ensures !old(enabled) ==> unchanged(this)
      ensures old(enabled) ==> pressedKey.None? && typed == old(typed)
      ensures forall k: Key :: !IsPressed(k)
      ensures enabled == old(enabled) && hoveredKey == old(hoveredKey)
    {
      if enabled {
        pressedKey := None;
      }
    }

    /** The start button: from off, practice turns on with an empty buffer; when on it does nothing. */
    method StartPractice()
      modifies this
      ensures old(enabled) ==> unchanged(this)
      ensures !old(enabled) ==> enabled && typed == ""
      ensures pressedKey == old(pressedKey) && hoveredKey == old(hoveredKey)
    {
      if !enabled {
        enabled := true;
        typed := "";
      }
    }

    /** The stop button: from on, practice turns off with an empty buffer; when off it does nothing. */
    method StopPractice()
      modifies this
      ensures !old(enabled) ==> unchanged(this)
      ensures old(enabled) ==> !enabled && typed == ""
      ensures pressedKey == old(pressedKey) && hoveredKey == old(hoveredKey)
    {
      if enabled {
        enabled := false;
        typed := "";
      }
    }

    /** The pointer entering a key: it becomes the hovered key while practice is on. */
    method MouseEnter(name: string)
      modifies this
      ensures !old(enabled) ==> unchanged(this)
      ensures old(enabled) ==> hoveredKey == Some(name)
      ensures enabled == old(enabled) && typed == old(typed) && pressedKey == old(pressedKey)
    {
      if enabled {
        hoveredKey := Some(name);
      }
    }

    /** The pointer leaving a key clears the hovered key while practice is on. */
    method MouseLeave()
      modifies this
      ensures !old(enabled) ==> unchanged(this)
      ensures old(enabled) ==> hoveredKey.None?
      ensures enabled == old(enabled) && typed == old(typed) && pressedKey == old(pressedKey)
    {
      if enabled {
        hoveredKey := None;
      }
    }

    /**
     * A key is drawn pressed only while practice is on and its code is the
     * pressed key; gaps and the space bar are drawn without the pressed style.
     */
    function IsPressed(k: Key): (b: bool)
      reads this
      ensures b ==> enabled && pressedKey.Some? && k.kind != Gap && k.kind != SpaceBar
    {
      enabled && k.kind != Gap && k.kind != SpaceBar && pressedKey == Some(k.code)
    }

    /**
     * The tooltip over a key: while practice is on and the key, not a gap, is
     * hovered by its legend or code, its finger hint; otherwise none.
     */
    function Tooltip(k: Key): (t: Option<string>)
      reads this
      ensures !enabled || k.kind == Gap ==> t.None?
      ensures t.Some? ==> t.value == FingerHint(k.legend, k.code)
      ensures t.Some? <==> enabled && k.kind != Gap && (hoveredKey == Some(k.legend) || hoveredKey == Some(k.code))
    {
      if enabled && k.kind != Gap && (hoveredKey == Some(k.legend) || hoveredKey == Some(k.code)) then
        Some(FingerHint(k.legend, k.code))
      else None
    }

    /** The typing card: a start prompt when off, a typing prompt for an empty buffer, else the buffer. */
    function Card(): (c: CardText)
      reads this
      ensures c == StartPrompt <==> !enabled
      ensures c == TypePrompt <==> enabled && typed == ""
      ensures c.Typed? ==> c.text == typed && typed != ""
    {
      if !enabled then StartPrompt
      else if |typed| > 0 then Typed(typed)
      else TypePrompt
    }
  }

  /** Every tooltip the keyboard can show names a finger. */
  lemma TooltipNamesFinger(p: KeyboardPractice, r: nat, k: nat)
    requires r < |KeyboardRows| && k < |KeyboardRows[r]|
    requires p.Tooltip(KeyboardRows[r][k]).Some?
    ensures p.Tooltip(KeyboardRows[r][k]).value != ""
  {
    EveryKeyHinted();
  }
}
