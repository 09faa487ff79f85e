/**
 * The window system as the two Python servers see it, and the rule both
 * of them use to pick the window to mirror (`get_target_window`): a
 * locked title is looked up exactly first and as a substring second;
 * without a lock the foreground window is followed unless it is the
 * server's own page or a system window, and a fixed keyword list is the
 * last resort.
 */
module Desktop {
  import opened Common
  import opened Text
  import opened Geometry

  /** A top-level window as the window-enumeration library reports it. */
  datatype Window = Window(
    title: string, hwnd: nat,
    left: int, top: int, width: int, height: int,
    visible: bool, minimized: bool)

  /**
   * One observation of the desktop.  `withTitle` stands for the library's
   * title search, whose matching rule is not part of this model; `win32`
   * says whether the Win32 bindings are loaded; `fgHwnd` is the foreground
   * handle (0 when there is none), `fgTitle` its caption and `fgRect` its
   * rectangle when the handle still names a window.
   */
  datatype Snapshot = Snapshot(
    all: seq<Window>,
    withTitle: string -> seq<Window>,
    win32: bool,
    fgHwnd: nat,
    fgTitle: string,
    fgRect: Option<Rect>)

  /** The captions the server never follows on its own: its own page and two shell windows. */
  const SkipTitles: seq<string> := ["Ghost Shell", "任务栏", "Program Manager"]

  /** The windows tried, in this order, when nothing else is available. */
  const TargetKeywords: seq<string> := ["Agent Manager", "Antigravity", "Kiro", "Code", "Cursor"]

  const OwnTitle: string := "Ghost Shell"

  // ---------------------------------------------------------------- enumeration

  /** A window `get_all_windows` keeps: titled, visible and wider than 100 pixels. */
  predicate Listed(w: Window) {
    w.title != "" && w.visible && w.width > 100
  }

  /** `get_all_windows`: the listed windows, in enumeration order. */
  function AllWindows(raw: seq<Window>): (r: seq<Window>)
    ensures forall w :: w in r <==> w in raw && Listed(w)
    ensures |r| <= |raw|
    decreases |raw|
  {
    if |raw| == 0 then []
    else if Listed(raw[0]) then [raw[0]] + AllWindows(raw[1..])
    else AllWindows(raw[1..])
  }

  /** One more enumerated window is appended at the end of the list exactly when it is listed. */
  lemma {:induction false} AllWindowsAppend(raw: seq<Window>, w: Window)
    ensures AllWindows(raw + [w]) == AllWindows(raw) + (if Listed(w) then [w] else [])
    decreases |raw|
  {
    if |raw| > 0 {
      assert (raw + [w])[1..] == raw[1..] + [w];
      AllWindowsAppend(raw[1..], w);
    } else {
      assert raw + [w] == [w];
    }
  }

  /** `get_foreground_window`: the first window the title search returns for the foreground caption. */
  function ForegroundWindow(s: Snapshot): (r: Option<Window>)
    ensures r.Some? ==> s.win32 && s.fgHwnd != 0 && s.fgTitle != "" && r.value in s.withTitle(s.fgTitle)
    ensures s.win32 && s.fgHwnd != 0 && s.fgTitle != "" && |s.withTitle(s.fgTitle)| > 0 ==> r.Some?
  {
    if s.win32 && s.fgHwnd != 0 && s.fgTitle != "" then
      var ws := s.withTitle(s.fgTitle);
      if |ws| > 0 then Some(ws[0]) else None
    else None
  }

  /** `get_foreground_hwnd_and_rect`: the foreground handle and rectangle, when the rectangle is not empty. */
  function ForegroundHwndAndRect(s: Snapshot): (r: Option<(nat, Rect)>)
    ensures r.Some? <==> s.win32 && s.fgHwnd != 0 && s.fgRect.Some? && s.fgRect.value.NonEmpty()
    ensures r.Some? ==> r.value.0 == s.fgHwnd && r.value.0 != 0 && r.value.1 == s.fgRect.value
  {
    if s.win32 && s.fgHwnd != 0 && s.fgRect.Some? && s.fgRect.value.NonEmpty() then
      Some((s.fgHwnd, s.fgRect.value))
    else None
  }

  // ---------------------------------------------------------------- skip rule

  /** `any(skip == t or skip in t for skip in skips)` when `withEquality`, else `any(skip in t ...)`. */
  function AnySkip(t: string, skips: seq<string>, withEquality: bool): bool
    decreases |skips|
  {
    |skips| > 0 && ((withEquality && skips[0] == t) || Contains(t, skips[0]) || AnySkip(t, skips[1..], withEquality))
  }

  /**
   * The equality test in the legacy skip rule is redundant: a caption equal
   * to a skip title also contains it, so both spellings of the rule agree.
   */
  lemma {:induction false} SkipRulesAgree(t: string, skips: seq<string>)
    ensures AnySkip(t, skips, true) == AnySkip(t, skips, false)
    decreases |skips|
  {
    if |skips| > 0 {
      ContainsSelf(t);
      SkipRulesAgree(t, skips[1..]);
    }
  }

  /** Skipped captions are exactly those containing one of the skip titles. */
  lemma SkippedMeansContains(t: string)
    ensures AnySkip(t, SkipTitles, true) <==>
      Contains(t, "Ghost Shell") || Contains(t, "任务栏") || Contains(t, "Program Manager")
  {
    SkipRulesAgree(t, SkipTitles);
    assert SkipTitles[1..][1..][1..] == [];
  }

  // ---------------------------------------------------------------- resolution (specification)

  function FirstExact(ws: seq<Window>, t: string): (r: Option<Window>)
    ensures r.Some? ==> r.value in ws && r.value.title == t
    ensures r.None? <==> forall w :: w in ws ==> w.title != t
    decreases |ws|
  {
    if |ws| == 0 then None else if ws[0].title == t then Some(ws[0]) else FirstExact(ws[1..], t)
  }

  function FirstContaining(ws: seq<Window>, t: string): (r: Option<Window>)
    ensures r.Some? ==> r.value in ws && Contains(r.value.title, t)
    ensures r.None? <==> forall w :: w in ws ==> !Contains(w.title, t)
    decreases |ws|
  {
    if |ws| == 0 then None else if Contains(ws[0].title, t) then Some(ws[0]) else FirstContaining(ws[1..], t)
  }

  /** Locked mode: the first exact title match, otherwise the first window whose title contains the lock. */
  function ResolveLocked(raw: seq<Window>, locked: string): Option<Window> {
    var ws := AllWindows(raw);
    var exact := FirstExact(ws, locked);
    if exact.Some? then exact else FirstContaining(ws, locked)
  }

  function FirstKeywordHit(keywords: seq<string>, withTitle: string -> seq<Window>): Option<Window>
    decreases |keywords|
  {
    if |keywords| == 0 then None
    else if |withTitle(keywords[0])| > 0 then Some(withTitle(keywords[0])[0])
    else FirstKeywordHit(keywords[1..], withTitle)
  }

  /** Auto mode: the foreground window unless skipped, otherwise the first keyword with a window. */
  function ResolveAuto(s: Snapshot): Option<Window> {
    var fg := ForegroundWindow(s);
    if fg.Some? && fg.value.title != "" && !AnySkip(fg.value.title, SkipTitles, true) then fg
    else FirstKeywordHit(TargetKeywords, s.withTitle)
  }

  /** `get_target_window` for a given lock (the empty string meaning no lock). */
  function TargetWindow(locked: string, s: Snapshot): Option<Window> {
    if locked != "" then ResolveLocked(s.all, locked) else ResolveAuto(s)
  }

  // ---------------------------------------------------------------- resolution (the search loops)

  method GetTargetWindow(locked: string, s: Snapshot) returns (r: Option<Window>)
    ensures r == TargetWindow(locked, s)
  {
    if locked != "" {
      var all := AllWindows(s.all);
      var i := 0;
      while i < |all|
        invariant 0 <= i <= |all|
        invariant FirstExact(all, locked) == FirstExact(all[i..], locked)
      {
        if all[i].title == locked {
          return Some(all[i]);
        }
        assert all[i..][1..] == all[i + 1..];
        i := i + 1;
      }
      i := 0;
      while i < |all|
        invariant 0 <= i <= |all|
        invariant FirstContaining(all, locked) == FirstContaining(all[i..], locked)
      {
        if Contains(all[i].title, locked) {
          return Some(all[i]);
        }
        assert all[i..][1..] == all[i + 1..];
        i := i + 1;
      }
      return None;
    }
    var fg := ForegroundWindow(s);
    if fg.Some? && fg.value.title != "" && !AnySkip(fg.value.title, SkipTitles, true) {
      return fg;
    }
    var k := 0;
    while k < |TargetKeywords|
      invariant 0 <= k <= |TargetKeywords|
      invariant FirstKeywordHit(TargetKeywords, s.withTitle) == FirstKeywordHit(TargetKeywords[k..], s.withTitle)
    {
      var windows := s.withTitle(TargetKeywords[k]);
      if |windows| > 0 {
        return Some(windows[0]);
      }
      assert TargetKeywords[k..][1..] == TargetKeywords[k + 1..];
      k := k + 1;
    }
    return None;
  }

  // ---------------------------------------------------------------- properties

  /**
   * An exact title match always wins over a partial one: when some listed
   * window carries the locked title verbatim, the first such window is
   * chosen, even if windows containing the title come earlier.
   */
  lemma {:induction false} LockedPrefersExact(s: Snapshot, locked: string, i: nat)
    requires locked != ""
    requires i < |AllWindows(s.all)| && AllWindows(s.all)[i].title == locked
    requires forall j :: 0 <= j < i ==> AllWindows(s.all)[j].title != locked
    ensures TargetWindow(locked, s) == Some(AllWindows(s.all)[i])
  {
    FirstExactAt(AllWindows(s.all), locked, i);
  }

  lemma {:induction false} FirstExactAt(ws: seq<Window>, t: string, i: nat)
    requires i < |ws| && ws[i].title == t
    requires forall j :: 0 <= j < i ==> ws[j].title != t
    ensures FirstExact(ws, t) == Some(ws[i])
    decreases i
  {
    if i > 0 {
      FirstExactAt(ws[1..], t, i - 1);
    }
  }

  /**
   * Under a lock the chosen window is always a listed window whose title
   * contains the lock, and nothing is chosen exactly when no listed title
   * contains it.
   */
  lemma LockedChoice(s: Snapshot, locked: string)
    requires locked != ""
    ensures var r := TargetWindow(locked, s);
      && (r.Some? ==> Listed(r.value) && r.value in s.all && Contains(r.value.title, locked))
      && (r.None? <==> forall w :: w in s.all && Listed(w) ==> !Contains(w.title, locked))
  {
    var ws := AllWindows(s.all);
    var exact := FirstExact(ws, locked);
    if exact.Some? {
      ContainsSelf(locked);
    }
  }

  /**
   * A lock holds regardless of focus: two observations that list the same
   * windows pick the same target, whatever their foreground windows are.
   */
  lemma LockIgnoresForeground(s1: Snapshot, s2: Snapshot, locked: string)
    requires locked != "" && s1.all == s2.all
    ensures TargetWindow(locked, s1) == TargetWindow(locked, s2)
  {
  }

  /** Without a lock, a titled foreground window that is not skipped is the target. */
  lemma AutoFollowsForeground(s: Snapshot)
    requires ForegroundWindow(s).Some?
    requires ForegroundWindow(s).value.title != ""
    requires !Contains(ForegroundWindow(s).value.title, OwnTitle)
    requires !Contains(ForegroundWindow(s).value.title, "任务栏")
    requires !Contains(ForegroundWindow(s).value.title, "Program Manager")
    ensures TargetWindow("", s) == ForegroundWindow(s)
  {
    SkippedMeansContains(ForegroundWindow(s).value.title);
  }

  /** Without a lock, the server's own page is never followed; a keyword match takes its place. */
  lemma AutoNeverFollowsOwnPage(s: Snapshot)
    requires ForegroundWindow(s).Some? && Contains(ForegroundWindow(s).value.title, OwnTitle)
    ensures TargetWindow("", s) == FirstKeywordHit(TargetKeywords, s.withTitle)
  {
    SkippedMeansContains(ForegroundWindow(s).value.title);
  }

  /** Exact beats partial: with "Untitled - Notepad" listed before "Notepad", a lock on "Notepad" picks the latter. */
  lemma NotepadExample(s: Snapshot, a: Window, b: Window)
    requires a.title == "Untitled - Notepad" && b.title == "Notepad"
    requires Listed(a) && Listed(b) && s.all == [a, b]
    ensures TargetWindow("Notepad", s) == Some(b)
  {
    assert AllWindows(s.all) == [a, b] by {
      assert s.all[1..] == [b];
      assert s.all[1..][1..] == [];
    }
    assert AllWindows(s.all)[0].title != "Notepad";
    LockedPrefersExact(s, "Notepad", 1);
  }
}
