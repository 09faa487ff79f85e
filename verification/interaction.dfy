/**
 * The `/interact` vocabulary shared by both Python servers: the input
 * operations sent to the desktop, the JSON replies, the parsing of the
 * `text` parameter for drag, resize and scroll, the text sanitising of
 * `type`, the close-window safety check, and the handler's outer
 * exception wrapper.
 */
module Interaction {
  import opened Common
  import opened Text

  datatype Button = LeftButton | RightButton | MiddleButton

  /** One thing done to the desktop (a pyautogui call, a clipboard paste, a window move). */
  datatype InputOp =
    | Activate(title: string)
    | Click(x: int, y: int, button: Button)
    | DoubleClick(x: int, y: int)
    | MoveTo(x: int, y: int)
    | MouseDown(x: int, y: int)
    | MouseUp(x: int, y: int)
    | Scroll(amount: int)
    | Drag(dx: int, dy: int)
    | Paste(text: string)
    | TypeWrite(text: string)
    | Press(key: string)
    | Hotkey(keys: seq<string>)
    | KeyDown(key: string)
    | KeyUp(key: string)
    | MoveWindow(x: int, y: int)
    | ResizeWindow(width: int, height: int)

  /**
   * A handler's answer: a JSON object with a status (plus the title or
   * text it echoes and the numbers it reports), a JSON error object, or an
   * HTTP error status.
   */
  datatype Reply =
    | Done(status: string, text: string, numbers: seq<int>)
    | Failure(message: string)
    | HttpError(code: nat)

  // ---------------------------------------------------------------- exceptions

  /** What escapes an action branch: an HTTP exception with a status, or any other exception. */
  datatype Raised = RaisedHttp(code: nat) | RaisedOther

  /**
   * The handler's outer `except Exception` as written: every exception,
   * including the HTTP exception the unknown-action branch raises with
   * status 400, is turned into a 500.
   */
  function OuterHandlerAsWritten(e: Raised): (r: Reply)
    ensures r == HttpError(500)
  {
    HttpError(500)
  }

  /** The wrapper as evidently intended: HTTP exceptions keep their status, anything else is a 500. */
  function OuterHandler(e: Raised): (r: Reply)
    ensures e.RaisedHttp? ==> r == HttpError(e.code)
    ensures e.RaisedOther? ==> r == HttpError(500)
  {
    match e
    case RaisedHttp(code) => HttpError(code)
    case RaisedOther => HttpError(500)
  }

  /** An unknown action answers 400 through the intended wrapper but 500 through the one as written. */
  lemma UnknownActionStatus()
    ensures OuterHandler(RaisedHttp(400)) == HttpError(400)
    ensures OuterHandlerAsWritten(RaisedHttp(400)) == HttpError(500)
  {
  }

  // ---------------------------------------------------------------- parameters

  /** `text.replace('\x00', '').strip()`: what `type` pastes. */
  function SafeText(t: string): string {
    PyStrip(RemoveAll(t, '\0'))
  }

  /** The pasted text holds only characters of the request, and never a NUL. */
  lemma SafeTextChars(t: string)
    ensures forall c :: c in SafeText(t) ==> c in t && c != '\0'
  {
    var u := RemoveAll(t, '\0');
    TrimProperties(u, IsPySpace);
    ContainedChars(u, PyStrip(u));
  }

  /** The pasted text has no whitespace at either end, and sanitising it again changes nothing. */
  lemma SafeTextStable(t: string)
    ensures var s := SafeText(t);
      && (|s| > 0 ==> !IsPySpace(s[0]) && !IsPySpace(s[|s| - 1]))
      && SafeText(s) == s
  {
    var u := RemoveAll(t, '\0');
    var s := TrimEnd(TrimStart(u, IsPySpace), IsPySpace);
    assert s == SafeText(t);
    TrimProperties(u, IsPySpace);
    SafeTextChars(t);
    assert '\0' !in s;
    assert RemoveAll(s, '\0') == s;
    assert SafeText(s) == TrimEnd(TrimStart(s, IsPySpace), IsPySpace);
  }

  /** How a drag's `"dx,dy"` parameter reads: two integers, the wrong number of parts, or a part that is not an integer. */
  datatype DragParse = DragBy(dx: int, dy: int) | WrongParts | NotAnInteger

  /** `parts = text.split(","); if len(parts) == 2: dx, dy = int(parts[0]), int(parts[1])`. */
  function ParseDrag(text: string): (r: DragParse)
    ensures r.WrongParts? <==> Count(text, ',') != 1
  {
    var parts := Split(text, ',');
    SplitCount(text, ',');
    if |parts| != 2 then WrongParts
    else
      match (PyInt(parts[0]), PyInt(parts[1]))
      case (Some(dx), Some(dy)) => DragBy(dx, dy)
      case _ => NotAnInteger
  }

  lemma {:induction false} SplitAround(a: string, b: string, sep: char)
    requires sep !in a
    ensures Split(a + [sep] + b, sep) == [a] + Split(b, sep)
    decreases |a|
  {
    if |a| == 0 {
      assert a + [sep] + b == [sep] + b;
      assert ([sep] + b)[1..] == b;
    } else {
      SplitAround(a[1..], b, sep);
      assert (a + [sep] + b)[1..] == a[1..] + [sep] + b;
      assert [a[0]] + a[1..] == a;
    }
  }

  lemma SplitNone(b: string, sep: char)
    requires sep !in b
    ensures Split(b, sep) == [b]
  {
    SplitCount(b, sep);
    SplitJoin(b, sep);
  }

  lemma DecimalHasNoComma(n: int)
    ensures ',' !in SignedDecimal(n)
  {
    var d := Decimal(if n < 0 then -n else n);
    assert forall k :: 0 <= k < |d| ==> IsDigit(d[k]);
    if n < 0 {
      assert forall k :: 0 <= k < |SignedDecimal(n)| ==> SignedDecimal(n)[k] == '-' || IsDigit(SignedDecimal(n)[k]);
    }
  }

  /** A delta written as "dx,dy" reads back as that delta. */
  lemma ParseDragRoundTrip(dx: int, dy: int)
    ensures ParseDrag(SignedDecimal(dx) + "," + SignedDecimal(dy)) == DragBy(dx, dy)
  {
    var a := SignedDecimal(dx);
    var b := SignedDecimal(dy);
    DecimalHasNoComma(dx);
    DecimalHasNoComma(dy);
    SplitAround(a, b, ',');
    SplitNone(b, ',');
    assert a + "," + b == a + [','] + b;
    PyIntRoundTrip(dx);
    PyIntRoundTrip(dy);
  }

  /**
   * `resize_window`'s `"w,h"`: the first two parts must be integers; extra
   * parts are ignored, a missing part fails like a non-integer one.
   */
  function ParseSize(text: string): (r: Option<(int, int)>)
    ensures Count(text, ',') == 0 ==> r.None?
  {
    var parts := Split(text, ',');
    SplitCount(text, ',');
    if |parts| < 2 then None
    else
      match (PyInt(parts[0]), PyInt(parts[1]))
      case (Some(w), Some(h)) => Some((w, h))
      case _ => None
  }

  /** Drag and resize read the same "a,b" text differently: a third part is refused by drag and ignored by resize. */
  lemma DragAndResizeDiffer()
    ensures ParseDrag("1,2,3") == WrongParts
    ensures ParseSize("1,2,3") == Some((1, 2))
  {
    assert Split("1,2,3", ',') == ["1", "2", "3"] by {
      SplitAround("1", "2,3", ',');
      SplitAround("2", "3", ',');
      SplitNone("3", ',');
      assert "1,2,3" == "1" + [','] + "2,3";
      assert "2,3" == "2" + [','] + "3";
    }
    assert PyInt("1") == Some(1) by { PyIntRoundTrip(1); assert SignedDecimal(1) == "1"; }
    assert PyInt("2") == Some(2) by { PyIntRoundTrip(2); assert SignedDecimal(2) == "2"; }
  }

  /**
   * The HTTP scroll amount: `scroll` reads `text` (3 when empty),
   * `scroll_up` and `scroll_down` are fixed at 3 and -3.  None means
   * `int()` raised.
   */
  function HttpScrollAmount(action: string, text: string): (r: Option<int>)
    requires action in {"scroll", "scroll_up", "scroll_down"}
    ensures action == "scroll_up" ==> r == Some(3)
    ensures action == "scroll_down" ==> r == Some(-3)
    ensures action == "scroll" && text == "" ==> r == Some(3)
    ensures action == "scroll" && text != "" ==> r == PyInt(text)
  {
    if action == "scroll_up" then Some(3)
    else if action == "scroll_down" then Some(-3)
    else if text == "" then Some(3)
    else PyInt(text)
  }

  /** The open-app sequence: Win+S, paste the name, Enter. */
  function OpenAppOps(name: string): (ops: seq<InputOp>)
    ensures |ops| == 3 && ops[0] == Hotkey(["win", "s"]) && ops[1] == Paste(name) && ops[2] == Press("enter")
  {
    [Hotkey(["win", "s"]), Paste(name), Press("enter")]
  }

  /** The close-window safety check: Alt+F4 goes out unless some other window is known to be active. */
  predicate CloseAllowed(target: string, active: Option<string>) {
    active.None? || active.value == target
  }

  /** What close_window does once its target is known. */
  function CloseOps(target: string, active: Option<string>): (ops: seq<InputOp>)
    ensures |ops| >= 1 && ops[0] == Activate(target)
    ensures Hotkey(["alt", "f4"]) in ops <==> CloseAllowed(target, active)
  {
    if CloseAllowed(target, active) then [Activate(target), Hotkey(["alt", "f4"])] else [Activate(target)]
  }

  /** `key`: a single character is typed, anything longer is pressed as a named key. */
  function KeyOps(key: string): (ops: seq<InputOp>)
    ensures |key| == 1 <==> ops == [TypeWrite(key)]
    ensures |key| != 1 <==> ops == [Press(key)]
  {
    if |key| == 1 then [TypeWrite(key)] else [Press(key)]
  }

  /** `hotkey`: the key string split at every '+', pressed together. */
  function HotkeyOps(key: string): (ops: seq<InputOp>)
    ensures ops == [Hotkey(Split(key, '+'))] && |ops[0].keys| == Count(key, '+') + 1
  {
    SplitCount(key, '+');
    [Hotkey(Split(key, '+'))]
  }
}
