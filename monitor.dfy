/** The main process of the packaged build (dist-electron/main.js, and its
    CommonJS twin dist-electron/main.cjs): the clipboard poller, the hotkey
    visibility toggle, blur-hide and the two clipboard-writing IPC handlers.

    The module-level variables `win`, `previousClipboardContent` and
    `clipboardMonitorInterval` become the fields of `MainProcess`. What the
    handlers ask of Electron (the clipboard text, `isLoading()`, whether the
    panel has focus, whether a write throws) is passed in to each step, and a
    `clipboard-updated` message sent to the renderer is the step's optional
    output. Each handler is first written as a function on `MainState`, and the
    class's methods are proved to follow those functions. */
module Monitor {
  import opened Seqs

  /** What one `clipboard.readText()` call gives: the text, or an exception. */
  datatype ReadResult = Read(text: string) | ReadThrew

  /** A snapshot of the main process's state.
      `hasWindow` is `win != null`; `visible` is `win.isVisible()`;
      `interval` is `clipboardMonitorInterval`; `timers` is the set of
      interval timers the runtime still fires, and `nextTimer` the handle the
      next `setInterval` returns. */
  datatype MainState = MainState(
    hasWindow: bool,
    visible: bool,
    previous: string,
    interval: Option<nat>,
    timers: set<nat>,
    nextTimer: nat)

  /** The state after a handler ran, and the `clipboard-updated` payload it sent, if any. */
  datatype Step = Step(next: MainState, sent: Option<string>)

  /** What `paste-content` did: the new state, the text written to the
      clipboard, and whether the panel's own renderer was told to paste. */
  datatype PasteOutcome = PasteOutcome(next: MainState, written: Option<string>, pasted: bool)

  /** One timer per live `clipboardMonitorInterval`, and no other; a closed
      window is not visible. */
  ghost predicate Valid(s: MainState)
  {
    && s.timers == (if s.interval.Some? then {s.interval.value} else {})
    && (forall t :: t in s.timers ==> t < s.nextTimer)
    && (!s.hasWindow ==> !s.visible)
  }

  /** The read gives text that is non-empty and differs from `previous`: the
      guard shared by the tick and the shortcut, whose rows are `Monitor.Tick`
      and `Monitor.Toggle`. */
  predicate IsNew(previous: string, read: ReadResult)
  {
    read.Read? && read.text != "" && read.text != previous
  }

  /** The state when the module has been loaded and no window exists yet. */
  function Initial(): (s: MainState)
    ensures Valid(s) && !s.hasWindow && s.previous == "" && s.interval == None
  {
    MainState(false, false, "", None, {}, 1)
  }

  /** `stopClipboardMonitor`: clears the running interval, if any. */
  function Stop(s: MainState): (r: MainState)
    ensures r.interval == None
    ensures Valid(s) ==> Valid(r) && r.timers == {}
    ensures r == s.(interval := None, timers := r.timers)
    ensures r.timers <= s.timers
    ensures s.interval.Some? ==> s.interval.value !in r.timers
    ensures r.timers == if s.interval.Some? then s.timers - {s.interval.value} else s.timers
  {
    if s.interval.Some? then s.(interval := None, timers := s.timers - {s.interval.value})
    else s
  }

  /** `startClipboardMonitor`: stops any running interval, then starts a fresh one. */
  function Start(s: MainState): (r: MainState)
    ensures r.interval == Some(s.nextTimer) && r.nextTimer == s.nextTimer + 1
    ensures Valid(s) ==> Valid(r) && r.timers == {s.nextTimer}
    ensures r.hasWindow == s.hasWindow && r.visible == s.visible && r.previous == s.previous
  {
    var t := Stop(s);
    t.(interval := Some(t.nextTimer), timers := t.timers + {t.nextTimer}, nextTimer := t.nextTimer + 1)
  }

  /** Stopping twice is stopping once. */
  lemma StopIdempotent(s: MainState)
    ensures Stop(Stop(s)) == Stop(s)
  {
  }

  /** However often the monitor is started, at most one interval is live. */
  lemma {:induction false} StartsKeepOneTimer(s: MainState, n: nat)
    requires Valid(s)
    ensures Valid(StartTimes(s, n))
    ensures n > 0 ==> |StartTimes(s, n).timers| == 1
    ensures n == 0 ==> StartTimes(s, n) == s
  {
    if n > 0 {
      StartsKeepOneTimer(s, n - 1);
    }
  }

  /** `startClipboardMonitor` called `n` times in a row. */
  function StartTimes(s: MainState, n: nat): MainState
  {
    if n == 0 then s else Start(StartTimes(s, n - 1))
  }

  /** One firing of the interval callback, with the text `readText` gives and
      whether the renderer is still loading. The new content is recorded in
      `previous` BEFORE the loading check, so a change seen while loading is
      not sent and not retried. */
  function Tick(s: MainState, read: ReadResult, loading: bool): (r: Step)
    ensures r.next == s.(previous := r.next.previous)
    ensures r.next.previous == if s.hasWindow && IsNew(s.previous, read) then read.text else s.previous
    ensures r.sent.Some? <==> s.hasWindow && IsNew(s.previous, read) && !loading
    ensures r.sent.Some? ==> r.sent.value == read.text
  {
    if !s.hasWindow then Step(s, None)
    else
      match read
      case ReadThrew => Step(s, None)
      case Read(c) =>
        if c != "" && c != s.previous then
          var t := s.(previous := c);
          if loading then Step(t, None) else Step(t, Some(c))
        else Step(s, None)
  }

  /** The inputs of one tick. */
  datatype TickInput = TickInput(read: ReadResult, loading: bool)

  /** The outcome of a run of ticks: the final state and the payloads sent, in order. */
  datatype Run = Run(final: MainState, sent: seq<string>)

  /** An interval timer is live, so the runtime fires the callback. `Tick` is
      the callback's body and does not check this itself; the runs below only
      start from polling states, and a tick keeps the interval. */
  predicate Polling(s: MainState)
  {
    s.interval.Some?
  }

  /** A run of ticks, one per input, while the monitor is running. */
  function Ticks(s: MainState, inputs: seq<TickInput>): Run
    requires Polling(s)
    decreases |inputs|
  {
    if inputs == [] then Run(s, [])
    else
      var step := Tick(s, inputs[0].read, inputs[0].loading);
      var rest := Ticks(step.next, inputs[1..]);
      Run(rest.final, (if step.sent.Some? then [step.sent.value] else []) + rest.sent)
  }

  /** Every tick of the run reads the text `c`. */
  predicate AllRead(inputs: seq<TickInput>, c: string)
  {
    forall k :: 0 <= k < |inputs| ==> inputs[k].read == Read(c)
  }

  /** When `c` is not new to the state, repeated reads of `c` change nothing and send nothing. */
  lemma {:induction false} QuietRun(s: MainState, inputs: seq<TickInput>, c: string)
    requires Polling(s)
    requires AllRead(inputs, c)
    requires !(s.hasWindow && IsNew(s.previous, Read(c)))
    ensures Ticks(s, inputs) == Run(s, [])
    decreases |inputs|
  {
    if inputs != [] {
      assert AllRead(inputs[1..], c) by {
        forall k | 0 <= k < |inputs[1..]| ensures inputs[1..][k].read == Read(c) {
          assert inputs[1..][k] == inputs[k + 1];
        }
      }
      var step := Tick(s, inputs[0].read, inputs[0].loading);
      assert inputs[0].read == Read(c);
      assert step == Step(s, None);
      QuietRun(s, inputs[1..], c);
    }
  }

  /** Consecutive ticks that read the same text send at most once, and only on
      the first of them; whatever the first tick did not send (because the
      renderer was loading) is never sent by the later ones. */
  lemma {:induction false} SameReadsSendAtMostFirst(s: MainState, inputs: seq<TickInput>, c: string)
    requires Polling(s)
    requires inputs != [] && AllRead(inputs, c)
    ensures var first := Tick(s, Read(c), inputs[0].loading);
            Ticks(s, inputs).sent == if first.sent.Some? then [c] else []
  {
    var first := Tick(s, Read(c), inputs[0].loading);
    var t := first.next;
    assert AllRead(inputs[1..], c) by {
      forall k | 0 <= k < |inputs[1..]| ensures inputs[1..][k].read == Read(c) {
        assert inputs[1..][k] == inputs[k + 1];
      }
    }
    assert !(t.hasWindow && IsNew(t.previous, Read(c)));
    QuietRun(t, inputs[1..], c);
  }

  /** A change first seen while the renderer is loading is dropped by the
      poller: no tick of a run reading that same text sends anything. */
  lemma LoadingDropsChange(s: MainState, inputs: seq<TickInput>, c: string)
    requires Polling(s)
    requires inputs != [] && AllRead(inputs, c) && inputs[0].loading
    ensures Ticks(s, inputs).sent == []
    ensures s.hasWindow && IsNew(s.previous, Read(c)) ==> Ticks(s, inputs).final.previous == c
  {
    SameReadsSendAtMostFirst(s, inputs, c);
    var t := Tick(s, Read(c), true).next;
    assert AllRead(inputs[1..], c) by {
      forall k | 0 <= k < |inputs[1..]| ensures inputs[1..][k].read == Read(c) {
        assert inputs[1..][k] == inputs[k + 1];
      }
    }
    QuietRun(t, inputs[1..], c);
  }

  /** `whenReady`: creates the (hidden) renderer window. */
  function WhenReady(s: MainState): (r: MainState)
    ensures r == s.(hasWindow := true, visible := false)
    ensures Valid(s) ==> Valid(r)
  {
    s.(hasWindow := true, visible := false)
  }

  /** The `did-finish-load` listener of the first window: starts the monitor, then
      sends the current clipboard text when it is non-empty. `previous` is left
      as it was. A throwing `readText` aborts the listener after the monitor started. */
  function FirstWindowLoaded(s: MainState, read: ReadResult): (r: Step)
    ensures r.next == Start(s)
    ensures r.sent.Some? <==> s.hasWindow && read.Read? && read.text != ""
    ensures r.sent.Some? ==> r.sent.value == read.text
  {
    var t := Start(s);
    match read
    case ReadThrew => Step(t, None)
    case Read(c) => if c != "" && s.hasWindow then Step(t, Some(c)) else Step(t, None)
  }

  /** The initial send does not record the text, so the first tick that reads
      the same text sends it a second time. */
  lemma InitialSendIsRepeated(s: MainState, c: string)
    requires s.hasWindow && c != "" && c != s.previous
    ensures FirstWindowLoaded(s, Read(c)).sent == Some(c)
    ensures Tick(FirstWindowLoaded(s, Read(c)).next, Read(c), false).sent == Some(c)
  {
  }

  /** The first window's `did-finish-load` listener runs at the end of every
      load of that window and sends the current text without looking at
      `previous`, so a change the poller dropped during a reload is sent once
      the reload finishes. */
  lemma ReloadSendsDroppedChange(s: MainState, c: string)
    requires Polling(s) && s.hasWindow && c != "" && c != s.previous
    ensures Tick(s, Read(c), true) == Step(s.(previous := c), None)
    ensures FirstWindowLoaded(Tick(s, Read(c), true).next, Read(c)).sent == Some(c)
  {
  }

  /** The `did-finish-load` listener of a window created by `activate`: only starts the monitor. */
  function NewWindowLoaded(s: MainState): (r: MainState)
    ensures r == Start(s)
  {
    Start(s)
  }

  /** The global shortcut. A visible window is hidden and the clipboard is not
      read. Otherwise the window is shown and focused and the clipboard is
      checked once: new text is recorded and sent, with no loading check. A
      throwing `readText` aborts the handler after the window was shown. */
  function Toggle(s: MainState, read: ReadResult): (r: Step)
    ensures s.hasWindow && s.visible ==> r == Step(s.(visible := false), None)
    ensures !(s.hasWindow && s.visible) ==>
              && r.next == s.(visible := s.hasWindow || s.visible, previous := r.next.previous)
              && r.next.previous == (if IsNew(s.previous, read) then read.text else s.previous)
              && (r.sent.Some? <==> s.hasWindow && IsNew(s.previous, read))
              && (r.sent.Some? ==> r.sent.value == read.text)
  {
    if s.hasWindow && s.visible then Step(s.(visible := false), None)
    else
      var shown := if s.hasWindow then s.(visible := true) else s;
      match read
      case ReadThrew => Step(shown, None)
      case Read(c) =>
        if c != "" && c != s.previous then
          Step(shown.(previous := c), if s.hasWindow then Some(c) else None)
        else Step(shown, None)
  }

  /** Hiding with the shortcut does not depend on what the clipboard holds. */
  lemma HideIgnoresClipboard(s: MainState, r1: ReadResult, r2: ReadResult)
    requires s.hasWindow && s.visible
    ensures Toggle(s, r1) == Toggle(s, r2)
    ensures !Toggle(s, r1).next.visible && Toggle(s, r1).sent == None
  {
  }

  /** A change made while the window was hidden is sent when the shortcut shows
      it, even while the renderer is loading, since the toggle has no loading check. */
  lemma ShowSendsMissedChange(s: MainState, c: string)
    requires s.hasWindow && !s.visible && c != "" && c != s.previous
    ensures Toggle(s, Read(c)) == Step(s.(visible := true, previous := c), Some(c))
  {
  }

  /** The window's `blur` listener: hides the window. */
  function Blur(s: MainState): (r: MainState)
    ensures s.hasWindow ==> !r.visible
    ensures r == s.(visible := r.visible)
    ensures Valid(s) ==> Valid(r) && !r.visible
  {
    if s.hasWindow then s.(visible := false) else s
  }

  /** `paste-content`: the focused window is taken first, then the clipboard is
      written, the panel hidden and the focused window, if any, told to paste.
      Electron's focused window is one of this app's own windows or none, and
      the app's only window is the panel, so `panelFocused` says whether the
      panel had focus when the request arrived, and the paste, when it happens,
      goes to the panel's own renderer, which has just been hidden. A throwing
      write skips the rest. `previous` is not touched. */
  function PasteContent(s: MainState, content: string, panelFocused: bool, writeFails: bool): (r: PasteOutcome)
    ensures writeFails ==> r == PasteOutcome(s, None, false)
    ensures !writeFails ==> r.next == Blur(s) && r.written == Some(content)
    ensures r.pasted <==> !writeFails && panelFocused && s.hasWindow
    ensures r.pasted ==> r.next.hasWindow && !r.next.visible
    ensures r.next.previous == s.previous
  {
    if writeFails then PasteOutcome(s, None, false)
    else
      var activeWin := panelFocused && s.hasWindow;
      var hidden := if s.hasWindow then s.(visible := false) else s;
      PasteOutcome(hidden, Some(content), activeWin)
  }

  /** `set-clipboard`: writes the text, unless the write throws; no state changes. */
  function SetClipboard(content: string, writeFails: bool): (written: Option<string>)
    ensures written.Some? <==> !writeFails
    ensures written.Some? ==> written.value == content
  {
    if writeFails then None else Some(content)
  }

  /** Nothing shields the poller from the app's own writes: after `paste-content`
      writes new text, the next tick that reads it records it and sends it back
      to the renderer as if the user had copied it. */
  lemma PasteIsRecaptured(s: MainState, c: string, panelFocused: bool)
    requires Polling(s) && s.hasWindow && c != "" && c != s.previous
    ensures var p := PasteContent(s, c, panelFocused, false);
            p.written == Some(c) && Tick(p.next, Read(c), false) == Step(p.next.(previous := c), Some(c))
  {
  }

  /** The same holds for `set-clipboard`, which changes no state at all. */
  lemma SetClipboardIsRecaptured(s: MainState, c: string)
    requires Polling(s) && s.hasWindow && c != "" && c != s.previous
    ensures SetClipboard(c, false) == Some(c)
    ensures Tick(s, Read(c), false).sent == Some(c)
  {
  }

  /** `window-all-closed`: stops the monitor; except on macOS it also drops the
      window reference (the call to `app.quit()` is not modelled). The window
      has been closed by the time this runs, so it is no longer visible. */
  function WindowAllClosed(s: MainState, isDarwin: bool): (r: MainState)
    ensures r.interval == None && !r.visible
    ensures r.hasWindow == (s.hasWindow && isDarwin)
    ensures r.previous == s.previous
    ensures Valid(s) ==> Valid(r)
  {
    var t := Stop(s);
    if isDarwin then t.(visible := false) else t.(hasWindow := false, visible := false)
  }

  /** `activate`: creates a new hidden window when none is open. */
  function Activate(s: MainState, openWindows: nat): (r: MainState)
    ensures openWindows == 0 ==> r == s.(hasWindow := true, visible := false)
    ensures openWindows > 0 ==> r == s
    ensures Valid(s) ==> Valid(r)
  {
    if openWindows == 0 then s.(hasWindow := true, visible := false) else s
  }

  /** `will-quit`: stops the monitor. */
  function WillQuit(s: MainState): (r: MainState)
    ensures r == Stop(s)
  {
    Stop(s)
  }

  /** Every handler keeps `Valid`. */
  lemma HandlersKeepValid(s: MainState, read: ReadResult, loading: bool, content: string,
                          panelFocused: bool, writeFails: bool, isDarwin: bool, openWindows: nat)
    requires Valid(s)
    ensures Valid(WhenReady(s))
    ensures Valid(Tick(s, read, loading).next)
    ensures Valid(FirstWindowLoaded(s, read).next)
    ensures Valid(NewWindowLoaded(s))
    ensures Valid(Toggle(s, read).next)
    ensures Valid(Blur(s))
    ensures Valid(PasteContent(s, content, panelFocused, writeFails).next)
    ensures Valid(WindowAllClosed(s, isDarwin))
    ensures Valid(Activate(s, openWindows))
    ensures Valid(WillQuit(s))
  {
  }

  /** The main process's module-level state, updated in place by its handlers. */
  class MainProcess {
    var hasWindow: bool
    var visible: bool
    var previousClipboardContent: string
    var clipboardMonitorInterval: Option<nat>
    var liveTimers: set<nat>
    var nextTimer: nat

    function State(): MainState
      reads this
    {
      MainState(hasWindow, visible, previousClipboardContent, clipboardMonitorInterval, liveTimers, nextTimer)
    }

    /** Module load: no window, empty `previous`, no interval. */
    constructor ()
      ensures State() == Initial()
    {
      hasWindow := false;
      visible := false;
      previousClipboardContent := "";
      clipboardMonitorInterval := None;
      liveTimers := {};
      nextTimer := 1;
    }

    method StopClipboardMonitor()
      modifies this
      ensures State() == Stop(old(State()))
    {
      if clipboardMonitorInterval.Some? {
        liveTimers := liveTimers - {clipboardMonitorInterval.value};
        clipboardMonitorInterval := None;
      }
    }

    method StartClipboardMonitor()
      modifies this
      ensures State() == Start(old(State()))
    {
      StopClipboardMonitor();
      clipboardMonitorInterval := Some(nextTimer);
      liveTimers := liveTimers + {nextTimer};
      nextTimer := nextTimer + 1;
    }

    /** The interval callback; the runtime runs it only while its timer is live. */
    method OnTick(read: ReadResult, loading: bool) returns (sent: Option<string>)
      requires clipboardMonitorInterval.Some?
      modifies this
      ensures State() == Tick(old(State()), read, loading).next
      ensures sent == Tick(old(State()), read, loading).sent
    {
      sent := None;
      if !hasWindow {
        return;
      }
      if read.ReadThrew? {
        return;
      }
      var currentContent := read.text;
      if currentContent != "" && currentContent != previousClipboardContent {
        previousClipboardContent := currentContent;
        if loading {
          return;
        }
        sent := Some(currentContent);
      }
    }

    method OnReady()
      modifies this
      ensures State() == WhenReady(old(State()))
    {
      hasWindow := true;
      visible := false;
    }

    method OnFirstWindowLoaded(read: ReadResult) returns (sent: Option<string>)
      modifies this
      ensures State() == FirstWindowLoaded(old(State()), read).next
      ensures sent == FirstWindowLoaded(old(State()), read).sent
    {
      StartClipboardMonitor();
      sent := None;
      if read.Read? && read.text != "" && hasWindow {
        sent := Some(read.text);
      }
    }

    method OnNewWindowLoaded()
      modifies this
      ensures State() == NewWindowLoaded(old(State()))
    {
      StartClipboardMonitor();
    }

    method OnShortcut(read: ReadResult) returns (sent: Option<string>)
      modifies this
      ensures State() == Toggle(old(State()), read).next
      ensures sent == Toggle(old(State()), read).sent
    {
      sent := None;
      if hasWindow && visible {
        visible := false;
      } else {
        if hasWindow {
          visible := true;
        }
        if read.Read? {
          var currentContent := read.text;
          if currentContent != "" && currentContent != previousClipboardContent {
            previousClipboardContent := currentContent;
            if hasWindow {
              sent := Some(currentContent);
            }
          }
        }
      }
    }

    method OnBlur()
      modifies this
      ensures State() == Blur(old(State()))
    {
      if hasWindow {
        visible := false;
      }
    }

    method OnPasteContent(content: string, panelFocused: bool, writeFails: bool)
      returns (written: Option<string>, pasted: bool)
      modifies this
      ensures var p := PasteContent(old(State()), content, panelFocused, writeFails);
              State() == p.next && written == p.written && pasted == p.pasted
    {
      var activeWin := panelFocused && hasWindow;
      written, pasted := None, false;
      if writeFails {
        return;
      }
      written := Some(content);
      if hasWindow {
        visible := false;
      }
      if activeWin {
        pasted := true;
      }
    }

    method OnSetClipboard(content: string, writeFails: bool) returns (written: Option<string>)
      ensures written == SetClipboard(content, writeFails)
      ensures State() == old(State())
    {
      written := if writeFails then None else Some(content);
    }

    method OnWindowAllClosed(isDarwin: bool)
      modifies this
      ensures State() == WindowAllClosed(old(State()), isDarwin)
    {
      StopClipboardMonitor();
      visible := false;
      if !isDarwin {
        hasWindow := false;
      }
    }

    method OnActivate(openWindows: nat)
      modifies this
      ensures State() == Activate(old(State()), openWindows)
    {
      if openWindows == 0 {
        hasWindow := true;
        visible := false;
      }
    }

    method OnWillQuit()
      modifies this
      ensures State() == WillQuit(old(State()))
    {
      StopClipboardMonitor();
    }
  }
}
