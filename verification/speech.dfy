/**
 * The browser-side speech recognizer of the legacy WebSocket client: a
 * wrapper around the Web Speech API that fills in defaults (continuous
 * and interim results only off Android), filters results and errors
 * before passing them to the page's callbacks, stops itself after ten
 * seconds on Android, and restarts after the recognition ends when asked
 * to.  Browser events are methods the page's environment calls; the
 * callbacks the page supplied are recorded as a log of calls (the default
 * callbacks do nothing).
 */
module Speech {
  import opened Common
  import opened Text

  /** A call made to one of the page's callbacks. */
  datatype Event = Started | Heard(text: string, isFinal: bool) | Failed(error: string) | Ended

  /** The browser's recognition object, with the settings copied onto it and whether its four handlers are attached. */
  datatype Recognition = Recognition(lang: string, continuous: bool, interimResults: bool, maxAlternatives: nat, handlers: bool)

  /** The options object; a field is None when it is missing. */
  datatype Options = Options(lang: Option<string>, continuous: Option<bool>, interimResults: Option<bool>)

  /** What `recognition.start()` does: start, or throw with a message. */
  datatype StartOutcome = Began | Threw(message: string)

  /** One result of a recognition event: the top transcript and whether it is final. */
  datatype SpeechResult = SpeechResult(transcript: string, isFinal: bool)

  /**
   * Everything a recognizer holds.  `android` and `supported` are what the
   * user agent reports; `restartsPending` counts the restarts scheduled
   * with a timer and `starts`/`stops` the calls made to the recognition
   * object; `released` are the recognition objects dropped by `destroy`.
   */
  datatype Recognizer = Recognizer(
    lang: string, continuous: bool, interimResults: bool, android: bool, supported: bool,
    recognition: Option<Recognition>, isListening: bool, timeoutArmed: bool, autoRestart: bool,
    restartsPending: nat, starts: nat, stops: nat, events: seq<Event>, released: seq<Recognition>)

  /** The `constructor`: `lang` falls back on "zh-CN" when missing or empty; `continuous` and `interimResults` fall back only when missing. */
  function New(opts: Options, android: bool, supported: bool): (s: Recognizer)
    ensures s.lang == (if opts.lang.Some? && opts.lang.value != "" then opts.lang.value else "zh-CN")
    ensures s.continuous == (if opts.continuous.Some? then opts.continuous.value else !android)
    ensures s.interimResults == (if opts.interimResults.Some? then opts.interimResults.value else !android)
    ensures s.recognition.None? && !s.isListening && !s.timeoutArmed && !s.autoRestart
    ensures s.events == [] && s.restartsPending == 0 && s.starts == 0 && s.stops == 0
  {
    Recognizer(
      if opts.lang.Some? && opts.lang.value != "" then opts.lang.value else "zh-CN",
      if opts.continuous.Some? then opts.continuous.value else !android,
      if opts.interimResults.Some? then opts.interimResults.value else !android,
      android, supported, None, false, false, false, 0, 0, 0, [], [])
  }

  /** An explicit `false` is kept even though it is falsy: only a missing option takes the platform default. */
  lemma ExplicitFalseKept(android: bool, supported: bool)
    ensures !New(Options(None, Some(false), Some(false)), android, supported).continuous
    ensures !New(Options(None, Some(false), Some(false)), android, supported).interimResults
    ensures New(Options(Some(""), None, None), android, supported).lang == "zh-CN"
    ensures New(Options(None, None, None), android, supported).continuous == !android
  {
  }

  /** `init`: throws (None) when the browser has no speech recognition, else a recognition object with the settings and all four handlers. */
  function AfterInit(s: Recognizer): (r: Option<Recognizer>)
    ensures r.None? <==> !s.supported
    ensures r.Some? ==> r.value == s.(recognition := Some(Recognition(s.lang, s.continuous, s.interimResults, 1, true)))
  {
    if !s.supported then None
    else Some(s.(recognition := Some(Recognition(s.lang, s.continuous, s.interimResults, 1, true))))
  }

  /** The handlers run only while a recognition object with attached handlers is held. */
  predicate Attached(s: Recognizer) {
    s.recognition.Some? && s.recognition.value.handlers
  }

  /**
   * `start(autoRestart)`: make the recognition object if there is none
   * (None when that throws), record the flag, call `recognition.start()`,
   * and report its failure unless it says it has already started.
   */
  function AfterStart(s: Recognizer, autoRestart: bool, outcome: StartOutcome): (r: Option<Recognizer>)
    ensures r.None? <==> s.recognition.None? && !s.supported
    ensures r.Some? ==> r.value.recognition.Some? && r.value.autoRestart == autoRestart && r.value.starts == s.starts + 1
    ensures r.Some? ==> r.value.isListening == s.isListening && r.value.restartsPending == s.restartsPending
    ensures r.Some? && s.recognition.Some? ==> r.value.recognition == s.recognition
    ensures r.Some? ==> r.value.events == s.events + (if outcome.Threw? && !Contains(outcome.message, "already started") then [Failed(outcome.message)] else [])
  {
    if s.recognition.None? && !s.supported then None
    else
      var made := if s.recognition.None? then AfterInit(s).value else s;
      var t := made.(autoRestart := autoRestart, starts := made.starts + 1);
      match outcome
      case Began => Some(t)
      case Threw(msg) => if Contains(msg, "already started") then Some(t) else Some(t.(events := t.events + [Failed(msg)]))
  }

  /** `stop`: auto-restart is always cleared and the timeout cancelled; the recognition is told to stop only while it is listening. */
  function AfterStop(s: Recognizer): (r: Recognizer)
    ensures !r.autoRestart && !r.timeoutArmed
    ensures r.stops == s.stops + (if s.recognition.Some? && s.isListening then 1 else 0)
    ensures r == s.(autoRestart := false, timeoutArmed := false, stops := r.stops)
  {
    s.(autoRestart := false, timeoutArmed := false, stops := s.stops + (if s.recognition.Some? && s.isListening then 1 else 0))
  }

  /** `destroy`: stop, then detach the four handlers from the recognition object and drop it. */
  function AfterDestroy(s: Recognizer): (r: Recognizer)
    ensures r.recognition.None? && !r.autoRestart && !r.timeoutArmed
    ensures s.recognition.Some? ==> r.released == s.released + [s.recognition.value.(handlers := false)]
    ensures s.recognition.None? ==> r.released == s.released
    ensures r.events == s.events && r.isListening == s.isListening
  {
    var t := AfterStop(s);
    if t.recognition.Some? then t.(recognition := None, released := t.released + [t.recognition.value.(handlers := false)])
    else t
  }

  /** `onstart`: listening, the page is told, and on Android the ten-second timeout is armed. */
  function AfterOnStart(s: Recognizer): (r: Recognizer)
    ensures !Attached(s) ==> r == s
    ensures Attached(s) ==> r.isListening && r.events == s.events + [Started] && r.timeoutArmed == (s.timeoutArmed || s.android)
  {
    if !Attached(s) then s
    else s.(isListening := true, events := s.events + [Started], timeoutArmed := s.timeoutArmed || s.android)
  }

  /** The Android timeout firing: stop if still listening. */
  function AfterTimeout(s: Recognizer): (r: Recognizer)
    ensures !s.timeoutArmed ==> r == s
    ensures s.timeoutArmed ==> !r.timeoutArmed && (s.isListening ==> !r.autoRestart) && r.events == s.events
  {
    if !s.timeoutArmed then s
    else
      var t := s.(timeoutArmed := false);
      if t.isListening then AfterStop(t) else t
  }

  /** `onresult`: the last result's trimmed transcript goes to the page unless it is empty; a final result on Android cancels the timeout. */
  function AfterResult(s: Recognizer, results: seq<SpeechResult>): (r: Recognizer)
    requires |results| > 0
    ensures !Attached(s) ==> r == s
    ensures Attached(s) ==> var last := results[|results| - 1];
      r.events == s.events + (if JsTrim(last.transcript) != "" then [Heard(JsTrim(last.transcript), last.isFinal)] else [])
      && r.timeoutArmed == (s.timeoutArmed && !(last.isFinal && s.android))
  {
    if !Attached(s) then s
    else
      var last := results[|results| - 1];
      var text := JsTrim(last.transcript);
      var t := if text != "" then s.(events := s.events + [Heard(text, last.isFinal)]) else s;
      if last.isFinal && s.android then t.(timeoutArmed := false) else t
  }

  /** Every text passed to the page is non-empty and has no whitespace at either end. */
  lemma HeardTextIsTrimmed(s: Recognizer, results: seq<SpeechResult>)
    requires |results| > 0 && Attached(s)
    requires forall i :: 0 <= i < |s.events| && s.events[i].Heard? ==> s.events[i].text != ""
    ensures var r := AfterResult(s, results);
      forall i :: 0 <= i < |r.events| && r.events[i].Heard? ==> r.events[i].text != ""
    ensures var r := AfterResult(s, results);
      |r.events| > |s.events| ==> var t := r.events[|r.events| - 1].text;
        !IsJsSpace(t[0]) && !IsJsSpace(t[|t| - 1])
    ensures JsTrim(results[|results| - 1].transcript) == "" <==> AfterResult(s, results).events == s.events
  {
    var last := results[|results| - 1];
    var text := JsTrim(last.transcript);
    TrimProperties(last.transcript, IsJsSpace);
    var r := AfterResult(s, results);
    if text != "" {
      assert r.events == s.events + [Heard(text, last.isFinal)];
    } else {
      assert r.events == s.events;
    }
  }

  /** Errors the page never hears about. */
  predicate Suppressed(error: string) {
    error == "no-speech" || error == "aborted"
  }

  /** `onerror`: every error except "no-speech" and "aborted" goes to the page; the timeout is cancelled either way. */
  function AfterError(s: Recognizer, error: string): (r: Recognizer)
    ensures !Attached(s) ==> r == s
    ensures Attached(s) ==> !r.timeoutArmed && r.isListening == s.isListening
    ensures Attached(s) ==> r.events == s.events + (if Suppressed(error) then [] else [Failed(error)])
  {
    if !Attached(s) then s
    else s.(events := if Suppressed(error) then s.events else s.events + [Failed(error)], timeoutArmed := false)
  }

  /** `onend`: no longer listening and the timeout cancelled; then a restart is scheduled when auto-restart is on in continuous mode, and otherwise the page is told. */
  function AfterEnd(s: Recognizer): (r: Recognizer)
    ensures !Attached(s) ==> r == s
    ensures Attached(s) ==> !r.isListening && !r.timeoutArmed
    ensures Attached(s) && s.autoRestart && s.continuous ==> r.restartsPending == s.restartsPending + 1 && r.events == s.events
    ensures Attached(s) && !(s.autoRestart && s.continuous) ==> r.restartsPending == s.restartsPending && r.events == s.events + [Ended]
  {
    if !Attached(s) then s
    else
      var t := s.(isListening := false, timeoutArmed := false);
      if t.autoRestart && t.continuous then t.(restartsPending := t.restartsPending + 1)
      else t.(events := t.events + [Ended])
  }

  /** A scheduled restart firing as written: `start()` with its default argument, which switches auto-restart off. */
  function AfterRestartAsWritten(s: Recognizer, outcome: StartOutcome): (r: Option<Recognizer>)
    requires s.restartsPending > 0
    ensures r == AfterStart(s.(restartsPending := s.restartsPending - 1), false, outcome)
  {
    AfterStart(s.(restartsPending := s.restartsPending - 1), false, outcome)
  }

  /**
   * As written, auto-restart happens once: after the first restart the
   * next end of recognition reaches the page's `onEnd` although nobody
   * called `stop`.
   */
  lemma AutoRestartOnlyOnceAsWritten(s: Recognizer)
    requires Attached(s) && s.autoRestart && s.continuous
    ensures var ended := AfterEnd(s);
      var restarted := AfterRestartAsWritten(ended, Began);
      restarted.Some? && ended.events == s.events
      && AfterEnd(AfterOnStart(restarted.value)).events == s.events + [Started, Ended]
  {
  }

  /** A scheduled restart firing as evidently intended: auto-restart stays on, and a `stop` made while the timer ran cancels the restart. */
  function AfterRestart(s: Recognizer, outcome: StartOutcome): (r: Option<Recognizer>)
    requires s.restartsPending > 0
    ensures !s.autoRestart ==> r == Some(s.(restartsPending := s.restartsPending - 1))
    ensures s.autoRestart ==> r == AfterStart(s.(restartsPending := s.restartsPending - 1), true, outcome)
  {
    var t := s.(restartsPending := s.restartsPending - 1);
    if t.autoRestart then AfterStart(t, true, outcome) else Some(t)
  }

  /**
   * With the intended restart, a continuous recognizer started with
   * auto-restart never reports an end through any number of end and
   * restart cycles, and after `stop` the pending restart does nothing.
   */
  lemma {:induction false} AutoRestartPersists(s: Recognizer, cycles: nat)
    requires Attached(s) && s.autoRestart && s.continuous
    ensures Cycle(s, cycles).autoRestart && Attached(Cycle(s, cycles)) && Cycle(s, cycles).continuous
    ensures Cycle(s, cycles).events == s.events + seq(cycles, _ => Started)
    ensures var ended := AfterEnd(AfterStop(s));
      AfterStop(s).restartsPending == s.restartsPending && ended.events == s.events + [Ended]
    decreases cycles
  {
    if cycles > 0 {
      AutoRestartPersists(s, cycles - 1);
      var c := Cycle(s, cycles - 1);
      assert s.events + seq(cycles - 1, _ => Started) + [Started] == s.events + seq(cycles, _ => Started);
      var e := AfterEnd(c);
      assert e == c.(isListening := false, timeoutArmed := false, restartsPending := c.restartsPending + 1);
      var t := e.(restartsPending := c.restartsPending, starts := c.starts + 1);
      assert AfterRestart(e, Began) == Some(t);
      assert Attached(t) && t.autoRestart && t.continuous && t.events == c.events;
      assert Cycle(s, cycles) == AfterOnStart(t);
    }
  }

  /** `cycles` rounds of: recognition ends, the scheduled restart starts it again, and it reports that it started. */
  function Cycle(s: Recognizer, cycles: nat): Recognizer
    requires Attached(s) && s.autoRestart && s.continuous
    decreases cycles
  {
    if cycles == 0 then s
    else
      var c := Cycle(s, cycles - 1);
      if !(Attached(c) && c.autoRestart && c.continuous) then c
      else
        var e := AfterEnd(c);
        match AfterRestart(e, Began)
        case Some(t) => AfterOnStart(t)
        case None => c
  }

  /** The recognizer as a class whose fields the page's calls and the browser's events update. */
  class SpeechRecognizer {
    const lang: string
    const continuous: bool
    const interimResults: bool
    const android: bool
    const supported: bool
    var recognition: Option<Recognition>
    var isListening: bool
    var timeoutArmed: bool
    var autoRestart: bool
    var restartsPending: nat
    var starts: nat
    var stops: nat
    var events: seq<Event>
    var released: seq<Recognition>

    function State(): Recognizer
      reads this
    {
      Recognizer(lang, continuous, interimResults, android, supported, recognition, isListening, timeoutArmed,
        autoRestart, restartsPending, starts, stops, events, released)
    }

    constructor(opts: Options, android: bool, supported: bool)
      ensures State() == New(opts, android, supported)
    {
      var s := New(opts, android, supported);
      lang, continuous, interimResults := s.lang, s.continuous, s.interimResults;
      this.android, this.supported := android, supported;
      recognition, isListening, timeoutArmed, autoRestart := None, false, false, false;
      restartsPending, starts, stops, events, released := 0, 0, 0, [], [];
    }

    /** `start(autoRestart)`; `ok` is false when `init` threw, and then nothing changes. */
    method Start(autoRestart: bool, outcome: StartOutcome) returns (ok: bool)
      modifies this
      ensures ok <==> AfterStart(old(State()), autoRestart, outcome).Some?
      ensures ok ==> State() == AfterStart(old(State()), autoRestart, outcome).value
      ensures !ok ==> State() == old(State())
    {
      if recognition.None? {
        if !supported {
          return false;
        }
        recognition := Some(Recognition(lang, continuous, interimResults, 1, true));
      }
      this.autoRestart := autoRestart;
      starts := starts + 1;
      if outcome.Threw? && !Contains(outcome.message, "already started") {
        events := events + [Failed(outcome.message)];
      }
      return true;
    }

    method Stop()
      modifies this
      ensures State() == AfterStop(old(State()))
    {
      autoRestart := false;
      if recognition.Some? && isListening {
        stops := stops + 1;
      }
      timeoutArmed := false;
    }

    method Destroy()
      modifies this
      ensures State() == AfterDestroy(old(State()))
    {
      Stop();
      if recognition.Some? {
        released := released + [recognition.value.(handlers := false)];
        recognition := None;
      }
    }

    method OnStart()
      modifies this
      ensures State() == AfterOnStart(old(State()))
    {
      if recognition.None? || !recognition.value.handlers {
        return;
      }
      isListening := true;
      events := events + [Started];
      if android {
        timeoutArmed := true;
      }
    }

    method TimeoutFires()
      modifies this
      ensures State() == AfterTimeout(old(State()))
    {
      if !timeoutArmed {
        return;
      }
      timeoutArmed := false;
      if isListening {
        Stop();
      }
    }

    method OnResult(results: seq<SpeechResult>)
      requires |results| > 0
      modifies this
      ensures State() == AfterResult(old(State()), results)
    {
      if recognition.None? || !recognition.value.handlers {
        return;
      }
      ghost var s := State();
      var last := results[|results| - 1];
      var text := JsTrim(last.transcript);
      if text != "" {
        events := events + [Heard(text, last.isFinal)];
      }
      ghost var t := State();
      if last.isFinal && android {
        timeoutArmed := false;
      }
      assert State() == if last.isFinal && s.android then t.(timeoutArmed := false) else t;
    }

    method OnError(error: string)
      modifies this
      ensures State() == AfterError(old(State()), error)
    {
      if recognition.None? || !recognition.value.handlers {
        return;
      }
      if !Suppressed(error) {
        events := events + [Failed(error)];
      }
      timeoutArmed := false;
    }

    method OnEnd()
      modifies this
      ensures State() == AfterEnd(old(State()))
    {
      if recognition.None? || !recognition.value.handlers {
        return;
      }
      isListening := false;
      timeoutArmed := false;
      if autoRestart && continuous {
        restartsPending := restartsPending + 1;
      } else {
        events := events + [Ended];
      }
    }

    /**
     * The timer scheduled by `onend` firing: it calls `start()` with the
     * default argument, whatever `stop` did meanwhile.
     */
    method RestartFires(outcome: StartOutcome) returns (ok: bool)
      requires restartsPending > 0
      modifies this
      ensures ok <==> AfterRestartAsWritten(old(State()), outcome).Some?
      ensures ok ==> State() == AfterRestartAsWritten(old(State()), outcome).value
      ensures !ok ==> State() == old(State()).(restartsPending := old(restartsPending) - 1)
      ensures ok ==> !autoRestart
    {
      restartsPending := restartsPending - 1;
      ghost var waiting := State();
      assert waiting == old(State()).(restartsPending := old(restartsPending) - 1);
      ok := Start(false, outcome);
      assert AfterRestartAsWritten(old(State()), outcome) == AfterStart(waiting, false, outcome);
    }
  }
}
