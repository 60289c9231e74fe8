/** The older main process (electron/main.ts): a poller with no loading check and
    no exception handling, and an `Alt+Space` toggle that only flips visibility.
    The clipboard text each tick reads is an input; a `clipboard-updated`
    message is the tick's optional output. */
module Legacy {
  import opened Seqs

  /** `hasWindow` is `win != null`, `visible` is `win.isVisible()`,
      `previous` is `previousClipboardContent`. */
  datatype LegacyState = LegacyState(hasWindow: bool, visible: bool, previous: string)

  /** The state after a tick, and the payload it sent, if any. */
  datatype LegacyStep = LegacyStep(next: LegacyState, sent: Option<string>)

  /** After `whenReady`: the window was created and shown, `previous` is empty. */
  function Startup(): (s: LegacyState)
    ensures s.hasWindow && s.visible && s.previous == ""
  {
    LegacyState(true, true, "")
  }

  /** One firing of the `monitorClipboard` interval callback. New non-empty text
      is recorded in `previous` whether or not a window exists; it is sent only
      when one does. */
  function Tick(s: LegacyState, read: string): (r: LegacyStep)
    ensures r.next == s.(previous := r.next.previous)
    ensures r.next.previous == if read != "" && read != s.previous then read else s.previous
    ensures r.sent.Some? <==> read != "" && read != s.previous && s.hasWindow
    ensures r.sent.Some? ==> r.sent.value == read
  {
    if read != "" && read != s.previous then
      LegacyStep(s.(previous := read), if s.hasWindow then Some(read) else None)
    else LegacyStep(s, None)
  }

  /** The outcome of a run of ticks: the final state and the payloads sent, in order. */
  datatype LegacyRun = LegacyRun(final: LegacyState, sent: seq<string>)

  /** A run of ticks, one per read. */
  function Ticks(s: LegacyState, inputs: seq<string>): LegacyRun
    decreases |inputs|
  {
    if inputs == [] then LegacyRun(s, [])
    else
      var step := Tick(s, inputs[0]);
      var rest := Ticks(step.next, inputs[1..]);
      LegacyRun(rest.final, (if step.sent.Some? then [step.sent.value] else []) + rest.sent)
  }

  /** `n` reads of the same text. */
  function Repeat(c: string, n: nat): (r: seq<string>)
    ensures |r| == n && forall k :: 0 <= k < n ==> r[k] == c
  {
    seq(n, k => c)
  }

  /** Reading the text already in `previous` (or empty text) again and again changes nothing. */
  lemma {:induction false} QuietRun(s: LegacyState, c: string, n: nat)
    requires c == "" || c == s.previous
    ensures Ticks(s, Repeat(c, n)) == LegacyRun(s, [])
  {
    if n > 0 {
      assert Repeat(c, n)[1..] == Repeat(c, n - 1);
      QuietRun(s, c, n - 1);
    }
  }

  /** A change read by `n >= 1` consecutive ticks is sent exactly once (when a
      window exists), and `previous` ends up holding it. */
  lemma RepeatedReadsSendOnce(s: LegacyState, c: string, n: nat)
    requires n >= 1 && c != "" && c != s.previous
    ensures Ticks(s, Repeat(c, n)).sent == if s.hasWindow then [c] else []
    ensures Ticks(s, Repeat(c, n)).final == s.(previous := c)
  {
    assert Repeat(c, n)[1..] == Repeat(c, n - 1);
    QuietRun(s.(previous := c), c, n - 1);
  }

  /** Without a window the change is recorded but never sent, and later ticks
      reading the same text do not send it either. */
  lemma ChangeLostWithoutWindow(s: LegacyState, c: string, n: nat)
    requires !s.hasWindow && c != "" && c != s.previous
    ensures Tick(s, c) == LegacyStep(s.(previous := c), None)
    ensures Ticks(s, Repeat(c, n)).sent == []
  {
    if n >= 1 {
      RepeatedReadsSendOnce(s, c, n);
    }
  }

  /** The `Alt+Space` handler: hides a visible window, otherwise shows (and
      focuses) it. The clipboard is not read. */
  function Toggle(s: LegacyState): (r: LegacyState)
    ensures s.hasWindow ==> r == s.(visible := !s.visible)
    ensures !s.hasWindow ==> r == s
  {
    if s.hasWindow && s.visible then s.(visible := false)
    else if s.hasWindow then s.(visible := true)
    else s
  }

  /** Toggling twice restores the state, and toggling never touches `previous`. */
  lemma ToggleTwice(s: LegacyState)
    ensures Toggle(Toggle(s)) == s
    ensures Toggle(s).previous == s.previous
  {
  }

  /** `window-all-closed`: except on macOS the window reference is dropped
      (the call to `app.quit()` is not modelled). The window has been closed by
      the time this runs, so it is no longer visible. */
  function WindowAllClosed(s: LegacyState, isDarwin: bool): (r: LegacyState)
    ensures !r.visible && r.previous == s.previous
    ensures r.hasWindow == (s.hasWindow && isDarwin)
  {
    if isDarwin then s.(visible := false) else s.(hasWindow := false, visible := false)
  }

  /** The module-level state of electron/main.ts, updated in place. */
  class LegacyMain {
    var hasWindow: bool
    var visible: bool
    var previousClipboardContent: string

    function State(): LegacyState
      reads this
    {
      LegacyState(hasWindow, visible, previousClipboardContent)
    }

    /** Module load followed by `whenReady`: create the window, show it, start polling. */
    constructor ()
      ensures State() == Startup()
    {
      previousClipboardContent := "";
      hasWindow := true;
      visible := true;
    }

    method OnTick(read: string) returns (sent: Option<string>)
      modifies this
      ensures State() == Tick(old(State()), read).next
      ensures sent == Tick(old(State()), read).sent
    {
      sent := None;
      var currentContent := read;
      if currentContent != "" && currentContent != previousClipboardContent {
        previousClipboardContent := currentContent;
        if hasWindow {
          sent := Some(currentContent);
        }
      }
    }

    method OnShortcut()
      modifies this
      ensures State() == Toggle(old(State()))
    {
      if hasWindow && visible {
        visible := false;
      } else if hasWindow {
        visible := true;
      }
    }

    method OnWindowAllClosed(isDarwin: bool)
      modifies this
      ensures State() == WindowAllClosed(old(State()), isDarwin)
    {
      visible := false;
      if !isDarwin {
        hasWindow := false;
      }
    }
  }
}
