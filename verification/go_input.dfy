/**
 * Input synthesis of the Go server: key names to virtual-key codes, the
 * keyboard and mouse INPUT records it builds, and the order in which they
 * are handed to SendInput.  Text is typed as UTF-16 code units (section
 * 2.1 of RFC 2781), one key-down and one key-up per unit.
 *
 * The user32 calls are recorded, not performed: an `Injector` keeps the
 * list of calls made, in order.
 */
module GoInput {
  import opened Common
  import opened Text
  import Interaction

  /** Go's `uint16` and `uint32`. */
  newtype u16 = x: int | 0 <= x < 0x1_0000
  newtype u32 = x: int | 0 <= x < 0x1_0000_0000

  // ---------------------------------------------------------------- INPUT records

  const MouseLeftDown: u32 := 0x0002
  const MouseLeftUp: u32 := 0x0004
  const MouseRightDown: u32 := 0x0008
  const MouseRightUp: u32 := 0x0010
  const MouseMiddleDown: u32 := 0x0020
  const MouseMiddleUp: u32 := 0x0040
  const MouseWheel: u32 := 0x0800

  const KeyUp: u32 := 0x0002
  const KeyUnicode: u32 := 0x0004

  /** An INPUT record: a mouse event (data and flags) or a keyboard event (virtual key, scan code, flags). */
  datatype Input =
    | MouseInput(mouseData: u32, flags: u32)
    | KeyInput(vk: u16, scan: u16, flags: u32)

  /** A user32 call the server makes. */
  datatype Call = SetCursorPos(x: int, y: int) | SendInput(inputs: seq<Input>)

  /** `createKeyInput`. */
  function KeyEvent(vk: u16, flags: u32): (i: Input)
    ensures i.KeyInput? && i.vk == vk && i.scan == 0 && i.flags == flags
  {
    KeyInput(vk, 0, flags)
  }

  /** `flags | KEYEVENTF_UNICODE`: bit 2 set, every other bit kept. */
  function WithUnicode(flags: u32): (f: u32)
    ensures (f / 4) % 2 == 1 && f / 8 == flags / 8 && f % 4 == flags % 4
  {
    if (flags / 4) % 2 == 1 then flags else flags + 4
  }

  /** `createUnicodeInput`: no virtual key, the code unit as scan code, and the Unicode flag added. */
  function UnicodeEvent(unit: u16, flags: u32): (i: Input)
    ensures i.KeyInput? && i.vk == 0 && i.scan == unit && i.flags == WithUnicode(flags)
  {
    KeyInput(0, unit, WithUnicode(flags))
  }

  /** The calls `sendInput` makes: none for an empty batch. */
  function Sent(inputs: seq<Input>): (calls: seq<Call>)
    ensures |inputs| == 0 <==> calls == []
    ensures |inputs| > 0 ==> calls == [SendInput(inputs)]
  {
    if |inputs| == 0 then [] else [SendInput(inputs)]
  }

  // ---------------------------------------------------------------- key names

  const VkBack: u16 := 0x08
  const VkTab: u16 := 0x09
  const VkReturn: u16 := 0x0D
  const VkShift: u16 := 0x10
  const VkControl: u16 := 0x11
  const VkMenu: u16 := 0x12
  const VkEscape: u16 := 0x1B
  const VkSpace: u16 := 0x20
  const VkLeft: u16 := 0x25
  const VkUp: u16 := 0x26
  const VkRight: u16 := 0x27
  const VkDown: u16 := 0x28
  const VkDelete: u16 := 0x2E
  const VkLWin: u16 := 0x5B
  const VkS: u16 := 0x53
  const VkV: u16 := 0x56

  /** The spellings `mapKeyToVk` recognises by name, and their codes. */
  function NamedKey(key: string): (vk: Option<u16>)
    ensures vk.Some? ==> vk.value != 0 && !(0x30 <= vk.value <= 0x5A)
    ensures vk.Some? ==> '+' !in key
    ensures |key| == 1 && key[0] != ' ' ==> vk.None?
  {
    match key
    case "Enter" => Some(VkReturn)
    case "enter" => Some(VkReturn)
    case "Backspace" => Some(VkBack)
    case "backspace" => Some(VkBack)
    case "Space" => Some(VkSpace)
    case "space" => Some(VkSpace)
    case " " => Some(VkSpace)
    case "Escape" => Some(VkEscape)
    case "escape" => Some(VkEscape)
    case "esc" => Some(VkEscape)
    case "Tab" => Some(VkTab)
    case "tab" => Some(VkTab)
    case "Delete" => Some(VkDelete)
    case "delete" => Some(VkDelete)
    case "ArrowUp" => Some(VkUp)
    case "up" => Some(VkUp)
    case "Up" => Some(VkUp)
    case "ArrowDown" => Some(VkDown)
    case "down" => Some(VkDown)
    case "Down" => Some(VkDown)
    case "ArrowLeft" => Some(VkLeft)
    case "left" => Some(VkLeft)
    case "Left" => Some(VkLeft)
    case "ArrowRight" => Some(VkRight)
    case "right" => Some(VkRight)
    case "Right" => Some(VkRight)
    case _ => None
  }

  predicate IsPrintableKey(c: char) {
    'a' <= c <= 'z' || 'A' <= c <= 'Z' || '0' <= c <= '9'
  }

  /**
   * `mapKeyToVk`: a named key, else a single letter (as its upper-case
   * code) or digit, else 0.  A single non-ASCII character is more than
   * one byte in Go and also gives 0, as it does here.
   */
  function MapKeyToVk(key: string): (vk: u16)
    ensures NamedKey(key).Some? ==> vk == NamedKey(key).value
    ensures |key| == 1 && IsPrintableKey(key[0]) ==>
      vk as int == (if 'a' <= key[0] <= 'z' then key[0] as int - 32 else key[0] as int)
    ensures NamedKey(key).None? && !(|key| == 1 && IsPrintableKey(key[0])) ==> vk == 0
  {
    var named := NamedKey(key);
    if named.Some? then named.value
    else if |key| == 1 && 'a' <= key[0] <= 'z' then (key[0] as int - 32) as u16
    else if |key| == 1 && ('A' <= key[0] <= 'Z' || '0' <= key[0] <= '9') then key[0] as int as u16
    else 0
  }

  /** Letters map case-insensitively: a lower-case letter and its capital give the same, non-zero code. */
  lemma LettersIgnoreCase(c: char)
    requires 'a' <= c <= 'z'
    ensures MapKeyToVk([c]) == MapKeyToVk([(c as int - 32) as char]) != 0
  {
  }

  /** The listed spellings of a named key agree, e.g. "enter" and "Enter" are both 0x0D, "esc" is 0x1B. */
  lemma NamedSpellings()
    ensures MapKeyToVk("enter") == MapKeyToVk("Enter") == 0x0D
    ensures MapKeyToVk("esc") == MapKeyToVk("Escape") == MapKeyToVk("escape") == 0x1B
    ensures MapKeyToVk("ArrowUp") == MapKeyToVk("up") == MapKeyToVk("Up") == 0x26
  {
  }

  /**
   * A non-zero code tells which kind of key produced it: named keys lie
   * outside 0x30..0x5A, single letters and digits inside it.
   */
  lemma CodesTellKeyKinds(key: string)
    ensures MapKeyToVk(key) != 0 ==> (NamedKey(key).Some? <==> !(0x30 <= MapKeyToVk(key) <= 0x5A))
  {
  }

  /** No key combination written with '+' (other than a lone '+') has a code: such keys send nothing. */
  lemma CombinationsUnmapped(key: string, k: nat)
    requires |key| > 1 && k < |key| && key[k] == '+'
    ensures MapKeyToVk(key) == 0
  {
    assert '+' in key;
  }

  // ---------------------------------------------------------------- UTF-16 (RFC 2781)

  /** A Unicode scalar value as UTF-16 code units: itself below 0x10000, else a surrogate pair. */
  function Utf16Units(c: char): (u: seq<u16>)
    ensures c as int < 0x10000 ==> u == [c as int as u16]
    ensures c as int >= 0x10000 ==> |u| == 2
    ensures c as int >= 0x10000 ==> 0xD800 <= u[0] as int < 0xDC00 && 0xDC00 <= u[1] as int < 0xE000
    ensures c as int >= 0x10000 ==> (u[0] as int - 0xD800) * 0x400 + (u[1] as int - 0xDC00) + 0x10000 == c as int
  {
    var n := c as int;
    if n < 0x10000 then [n as u16]
    else
      var v := n - 0x10000;
      [(0xD800 + v / 0x400) as u16, (0xDC00 + v % 0x400) as u16]
  }

  /** `utf16.Encode([]rune(text))`. */
  function Utf16(s: string): (u: seq<u16>)
    ensures |u| >= |s|
  {
    if |s| == 0 then [] else Utf16Units(s[0]) + Utf16(s[1..])
  }

  /** Decoding per section 2.2 of RFC 2781; an unpaired surrogate reads as U+FFFD. */
  function Utf16Decode(u: seq<u16>): string
    decreases |u|
  {
    if |u| == 0 then []
    else if 0xD800 <= u[0] as int < 0xDC00 && |u| >= 2 && 0xDC00 <= u[1] as int < 0xE000 then
      [((u[0] as int - 0xD800) * 0x400 + (u[1] as int - 0xDC00) + 0x10000) as char] + Utf16Decode(u[2..])
    else if 0xD800 <= u[0] as int < 0xE000 then ['\U{FFFD}'] + Utf16Decode(u[1..])
    else [u[0] as int as char] + Utf16Decode(u[1..])
  }

  /** Decoding the units typed for a text gives the text back: no character is lost or changed. */
  lemma {:induction false} Utf16RoundTrip(s: string)
    ensures Utf16Decode(Utf16(s)) == s
  {
    if |s| > 0 {
      Utf16RoundTrip(s[1..]);
      var u := Utf16Units(s[0]);
      assert Utf16(s) == u + Utf16(s[1..]);
      if s[0] as int < 0x10000 {
        assert (u + Utf16(s[1..]))[1..] == Utf16(s[1..]);
      } else {
        assert (u + Utf16(s[1..]))[2..] == Utf16(s[1..]);
      }
    }
  }

  // ---------------------------------------------------------------- event sequences

  /** The inputs `simulateText` builds for a run of code units: down then up, unit by unit. */
  function TypingInputs(u: seq<u16>): (r: seq<Input>)
    ensures |r| == 2 * |u|
  {
    if |u| == 0 then [] else [UnicodeEvent(u[0], 0), UnicodeEvent(u[0], KeyUp)] + TypingInputs(u[1..])
  }

  /** The k-th unit is pressed by input 2k and released by input 2k+1. */
  lemma {:induction false} TypingInputsAt(u: seq<u16>, k: nat)
    requires k < |u|
    ensures TypingInputs(u)[2 * k] == UnicodeEvent(u[k], 0)
    ensures TypingInputs(u)[2 * k + 1] == UnicodeEvent(u[k], KeyUp)
  {
    if k > 0 {
      TypingInputsAt(u[1..], k - 1);
    }
  }

  lemma {:induction false} TypingInputsAppend(u: seq<u16>, c: u16)
    ensures TypingInputs(u + [c]) == TypingInputs(u) + [UnicodeEvent(c, 0), UnicodeEvent(c, KeyUp)]
  {
    if |u| > 0 {
      assert (u + [c])[1..] == u[1..] + [c];
      TypingInputsAppend(u[1..], c);
    } else {
      assert u + [c] == [c];
    }
  }

  /** A character beyond the Basic Multilingual Plane is typed as four inputs, any other as two. */
  lemma CharacterInputs(c: char)
    ensures |TypingInputs(Utf16([c]))| == (if c as int >= 0x10000 then 4 else 2)
  {
    assert [c][1..] == [];
  }

  /** `clickMouse`: move, then a down/up pair for a known button; any other button only moves. */
  function ClickCalls(x: int, y: int, button: string): (calls: seq<Call>)
    ensures |calls| >= 1 && calls[0] == SetCursorPos(x, y)
    ensures |calls| == 2 <==> button in {"left", "right", "middle"}
    ensures |calls| <= 2
    ensures button == "left" ==> calls[1..] == [SendInput([MouseInput(0, MouseLeftDown), MouseInput(0, MouseLeftUp)])]
    ensures button == "right" ==> calls[1..] == [SendInput([MouseInput(0, MouseRightDown), MouseInput(0, MouseRightUp)])]
    ensures button == "middle" ==> calls[1..] == [SendInput([MouseInput(0, MouseMiddleDown), MouseInput(0, MouseMiddleUp)])]
  {
    if button == "left" then [SetCursorPos(x, y), SendInput([MouseInput(0, MouseLeftDown), MouseInput(0, MouseLeftUp)])]
    else if button == "right" then [SetCursorPos(x, y), SendInput([MouseInput(0, MouseRightDown), MouseInput(0, MouseRightUp)])]
    else if button == "middle" then [SetCursorPos(x, y), SendInput([MouseInput(0, MouseMiddleDown), MouseInput(0, MouseMiddleUp)])]
    else [SetCursorPos(x, y)]
  }

  /** `uint32(delta)`: the wheel amount in two's complement. */
  function WheelData(delta: int): (d: u32)
    ensures d as int == delta % 0x1_0000_0000
    ensures 0 <= delta < 0x8000_0000 ==> d as int == delta
    ensures -0x8000_0000 <= delta < 0 ==> d as int == 0x1_0000_0000 + delta
  {
    (delta % 0x1_0000_0000) as u32
  }

  /** `simulateKey`: nothing for an unknown key, else exactly a down and an up of its code. */
  function KeyCalls(key: string): (calls: seq<Call>)
    ensures MapKeyToVk(key) == 0 <==> calls == []
    ensures MapKeyToVk(key) != 0 ==>
      calls == [SendInput([KeyEvent(MapKeyToVk(key), 0), KeyEvent(MapKeyToVk(key), KeyUp)])]
  {
    var vk := MapKeyToVk(key);
    if vk == 0 then [] else Sent([KeyEvent(vk, 0), KeyEvent(vk, KeyUp)])
  }

  /** `simulateHotkey`: modifier down, key down, key up, modifier up. */
  function HotkeyInputs(modifier: u16, key: u16): (r: seq<Input>)
    ensures |r| == 4
    ensures r[0] == KeyEvent(modifier, 0) && r[3] == KeyEvent(modifier, KeyUp)
    ensures r[1] == KeyEvent(key, 0) && r[2] == KeyEvent(key, KeyUp)
  {
    [KeyEvent(modifier, 0), KeyEvent(key, 0), KeyEvent(key, KeyUp), KeyEvent(modifier, KeyUp)]
  }

  /** The modifier names a "+" combination may start with, and their codes. */
  const Modifiers: map<string, u16> := map["ctrl" := VkControl, "alt" := VkMenu, "shift" := VkShift, "win" := VkLWin]

  /**
   * A "modifier+key" combination pressed the way `simulateHotkey` presses
   * Win+S and Ctrl+V: for a known modifier and a mapped key, the four
   * events of the combination; anything else falls back to `simulateKey`.
   */
  function HotkeyCalls(key: string): (calls: seq<Call>)
    ensures var parts := SplitPlus(key);
      parts.Some? && parts.value.0 in Modifiers && MapKeyToVk(parts.value.1) != 0 ==>
        calls == [SendInput(HotkeyInputs(Modifiers[parts.value.0], MapKeyToVk(parts.value.1)))]
    ensures SplitPlus(key).None? ==> calls == KeyCalls(key)
  {
    var parts := SplitPlus(key);
    if parts.Some? && parts.value.0 in Modifiers && MapKeyToVk(parts.value.1) != 0 then
      Sent(HotkeyInputs(Modifiers[parts.value.0], MapKeyToVk(parts.value.1)))
    else KeyCalls(key)
  }

  /** `strings.Split(key, "+")` when it gives exactly two parts. */
  function SplitPlus(key: string): (r: Option<(string, string)>)
    ensures r.Some? <==> Count(key, '+') == 1
  {
    var parts := Split(key, '+');
    SplitCount(key, '+');
    if |parts| == 2 then Some((parts[0], parts[1])) else None
  }

  /** "ctrl+c" is a combination `simulateKey` cannot press, and the combination form presses it. */
  lemma CtrlC()
    ensures KeyCalls("ctrl+c") == []
    ensures HotkeyCalls("ctrl+c") == [SendInput(HotkeyInputs(VkControl, 0x43))]
  {
    CombinationsUnmapped("ctrl+c", 4);
    assert Split("ctrl+c", '+') == ["ctrl", "c"] by {
      Interaction.SplitAround("ctrl", "c", '+');
      Interaction.SplitNone("c", '+');
      assert "ctrl+c" == "ctrl" + ['+'] + "c";
    }
  }

  // ---------------------------------------------------------------- the calls, in order

  /** The user32 calls the server has made, in order. */
  class Injector {
    var calls: seq<Call>

    constructor()
      ensures calls == []
    {
      calls := [];
    }

    /** `sendInput`. */
    method Send(inputs: seq<Input>)
      modifies this
      ensures calls == old(calls) + Sent(inputs)
    {
      if |inputs| == 0 {
        return;
      }
      calls := calls + [SendInput(inputs)];
    }

    /** `moveMouse`. */
    method MoveMouse(x: int, y: int)
      modifies this
      ensures calls == old(calls) + [SetCursorPos(x, y)]
    {
      calls := calls + [SetCursorPos(x, y)];
    }

    /** `clickMouse`. */
    method ClickMouse(x: int, y: int, button: string)
      modifies this
      ensures calls == old(calls) + ClickCalls(x, y, button)
    {
      MoveMouse(x, y);
      var down: u32, up: u32;
      if button == "left" {
        down, up := MouseLeftDown, MouseLeftUp;
      } else if button == "right" {
        down, up := MouseRightDown, MouseRightUp;
      } else if button == "middle" {
        down, up := MouseMiddleDown, MouseMiddleUp;
      } else {
        return;
      }
      Send([MouseInput(0, down), MouseInput(0, up)]);
    }

    /** `scrollMouse`: one wheel event. */
    method ScrollMouse(delta: int)
      modifies this
      ensures calls == old(calls) + [SendInput([MouseInput(WheelData(delta), MouseWheel)])]
    {
      Send([MouseInput(WheelData(delta), MouseWheel)]);
    }

    /** `simulateText`: every UTF-16 unit of the text pressed and released, in one batch. */
    method SimulateText(text: string)
      modifies this
      ensures calls == old(calls) + Sent(TypingInputs(Utf16(text)))
    {
      var u16 := Utf16(text);
      var inputs: seq<Input> := [];
      var i := 0;
      while i < |u16|
        invariant 0 <= i <= |u16|
        invariant inputs == TypingInputs(u16[..i])
        invariant calls == old(calls)
      {
        TypingInputsAppend(u16[..i], u16[i]);
        assert u16[..i + 1] == u16[..i] + [u16[i]];
        inputs := inputs + [UnicodeEvent(u16[i], 0)];
        inputs := inputs + [UnicodeEvent(u16[i], KeyUp)];
        i := i + 1;
      }
      assert u16[..i] == u16;
      Send(inputs);
    }

    /** `simulateKey`. */
    method SimulateKey(key: string)
      modifies this
      ensures calls == old(calls) + KeyCalls(key)
    {
      var vk := MapKeyToVk(key);
      if vk == 0 {
        return;
      }
      Send([KeyEvent(vk, 0), KeyEvent(vk, KeyUp)]);
    }

    /** `simulateHotkey`. */
    method SimulateHotkey(modifier: u16, key: u16)
      modifies this
      ensures calls == old(calls) + [SendInput(HotkeyInputs(modifier, key))]
    {
      Send([KeyEvent(modifier, 0), KeyEvent(key, 0), KeyEvent(key, KeyUp), KeyEvent(modifier, KeyUp)]);
    }

    /** `simulateKeyVk`. */
    method SimulateKeyVk(vk: u16)
      modifies this
      ensures calls == old(calls) + [SendInput([KeyEvent(vk, 0), KeyEvent(vk, KeyUp)])]
    {
      Send([KeyEvent(vk, 0), KeyEvent(vk, KeyUp)]);
    }
  }
}
