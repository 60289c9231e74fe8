# Clipboard history manager — a Dafny model of its core

The application is an Electron clipboard manager. A main process polls the OS
clipboard every 500 ms. When the text changes it sends a `clipboard-updated`
message to a renderer window, and a global hotkey shows or hides that window.
The renderer (a React component) keeps a history of records
`{id, content, timestamp, pinned}`, most recent first, cut to at most 100
records by every insert. The user can pin,
delete, clear and search the records.

This project models the two parts of that code that carry logic:

- **The history updaters** (`src/App.tsx`), modelled as pure functions on
  `seq<ClipboardItem>` in module `History`. They are: insert with the cap of
  100, pin toggle, delete by id, clear the unpinned items, and case-insensitive
  search. They use two helper modules, `Seqs` (an order-preserving `Filter`
  with its full characterisation, plus `Option`) and `Text` (ASCII lower-casing
  and substring search).
- **The main process** of the packaged build (`dist-electron/main.js`),
  modelled in module `Monitor`. `dist-electron/main.cjs` is the CommonJS build
  of the same file. Its handlers are the same line for line, one line further
  down, so one model covers both. Each row below cites one of the two files;
  the same rule is at the matching line of the other. Every handler is a
  function on a `MainState` value (window present, visible, previous clipboard
  text, current interval handle, live timers). It returns the next state and
  the optional `clipboard-updated` payload. The class `Monitor.MainProcess`
  holds the module-level variables as fields, and each of its methods is proved
  to update them exactly as its function says.
- **The older main process** (`electron/main.ts`), in module `Legacy`. It uses
  the same pattern, with class `Legacy.LegacyMain`. This variant has no loading
  check, no exception handling, no clipboard check when the window is shown,
  and no blur-hide.

Inputs from Electron are parameters of each step:

- the result of `clipboard.readText()` (`ReadResult`: `Read(text)`, or `ReadThrew` for an exception);
- `webContents.isLoading()`;
- whether `BrowserWindow.getFocusedWindow()` finds the panel focused (it returns
  only this app's own windows, and the panel is the app's only window);
- whether `clipboard.writeText` throws;
- whether the platform is macOS;
- the number of open windows.

A tick of the interval timer is one explicit step. Real time is not modelled.
Ticks happen only while an interval is live (`Monitor.Polling`: `interval` is
`Some`). `Monitor.Tick` is the callback's body and does not check this itself;
`Monitor.Ticks`, the lemmas about runs of ticks and `MainProcess.OnTick`
require it.

Two behaviours of the code are modelled as written:

- The packaged poller stores the new text in `previousClipboardContent` before
  it checks `isLoading()`. A change first seen while the renderer is loading is
  therefore never sent by a later tick that reads the same text
  (`Monitor.LoadingDropsChange`). Only the first window's `did-finish-load`
  listener can still send it, because it sends the current text at the end of
  each load without checking `previous` (`Monitor.ReloadSendsDroppedChange`).
  A window created by `activate` has no such send.
- There is no suppression flag. The text the app itself writes from
  `paste-content` or `set-clipboard` is read back by the next tick and sent to
  the renderer as a new entry, when that tick runs while the monitor is live
  and a window exists, the text is non-empty and differs from the last text
  seen, and the renderer is not loading (`Monitor.PasteIsRecaptured`,
  `Monitor.SetClipboardIsRecaptured`).

The code has no suppression flag, no retry by the poller after a load, no
deduplication of the history list (an insert never looks at the existing
items), no favourite-first ordering, and no tags or categories. The model adds none of them.

## Model

| member | source | states |
|---|---|---|
| `Seqs.Filter` | src/App.tsx:62 | the result keeps exactly the elements satisfying the predicate, with their multiplicities, as an order-preserving subsequence of the input |
| `Seqs.FilterIdempotent` | src/App.tsx:67 | filtering a second time by the same predicate changes nothing |
| `Text.Lower` | src/App.tsx:48 | lower-casing keeps the length and maps each character through the ASCII case mapping |
| `Text.LowerIdempotent` | src/App.tsx:48 | lower-casing twice equals lower-casing once |
| `Text.Includes` | src/App.tsx:48 | the empty term is always found, a term longer than the text never, and a term at the start of the text always |
| `Text.IncludesIffOccurs` | src/App.tsx:48 | the left-to-right `includes` scan is true exactly when the term occurs at some index of the text |
| `History.Take` | src/App.tsx:41 | `slice(0, n)` gives the first `min(length, n)` elements |
| `History.Insert` | src/App.tsx:34-41 | after an insert the head is the new unpinned item with the given id, content and timestamp; the length is `min(old + 1, 100)`; the tail is the first `min(old, 99)` old items in order |
| `History.InsertBounded` | src/App.tsx:41 | after an insert the history holds between 1 and 100 items, whatever it held before, and grows by one when it held fewer than 100 |
| `History.InsertEvictsOldest` | src/App.tsx:41 | on a full history the last (oldest) item is dropped whether or not it is pinned, and nothing else is lost |
| `History.InsertNoDedup` | src/App.tsx:34-41 | inserting the same content twice yields two entries with that content at the front |
| `History.FlipIfMatch` | src/App.tsx:57 | `pinned` flips iff the item's id is the given one; id, content and timestamp are kept |
| `History.TogglePin` | src/App.tsx:55-59 | length and order are kept; `pinned` flips exactly on the items whose id matches; all other fields are unchanged |
| `History.TogglePinTwice` | src/App.tsx:56-58 | toggling the same id twice is the identity |
| `History.TogglePinAbsent` | src/App.tsx:56-58 | toggling an id no item carries is a no-op |
| `History.Delete` | src/App.tsx:61-63 | exactly the items with that id are removed, with multiplicities, and the rest keep their order |
| `History.DeleteAbsent` | src/App.tsx:62 | deleting an absent id is a no-op |
| `History.ClearUnpinned` | src/App.tsx:65-69 | exactly the pinned items are kept, with multiplicities, in their original order |
| `History.ClearUnpinnedIdempotent` | src/App.tsx:67 | clearing twice equals clearing once |
| `History.Matches` | src/App.tsx:48 | an item matches iff its lower-cased content contains the lower-cased term at some index |
| `History.Search` | src/App.tsx:47-49 | an item is returned iff the lower-cased term occurs in its lower-cased content, with multiplicities, as an order-preserving subsequence |
| `History.SearchEmptyTerm` | src/App.tsx:47-49 | an empty term returns the whole history |
| `History.SearchCaseInsensitive` | src/App.tsx:48 | lower-casing the term first does not change the result |
| `Monitor.Initial` | dist-electron/main.js:6-8 | at module load there is no window, `previous` is empty, no interval runs, and the invariant holds |
| `Monitor.MainProcess.constructor` | dist-electron/main.js:6-8 | the fields start in the `Initial` state |
| `Monitor.Stop` | dist-electron/main.cjs:44-49 | the interval becomes null, its timer, and only it, leaves the set of live timers (in every state), no timer is live in a valid state, and nothing else changes |
| `Monitor.MainProcess.StopClipboardMonitor` | dist-electron/main.js:43-48 | the fields are updated as `Stop` says |
| `Monitor.StopIdempotent` | dist-electron/main.cjs:44-49 | stopping twice equals stopping once |
| `Monitor.Start` | dist-electron/main.cjs:50-52 | the old interval is cleared, and a fresh one becomes the only live timer |
| `Monitor.MainProcess.StartClipboardMonitor` | dist-electron/main.js:49-51 | the fields are updated as `Start` says |
| `Monitor.StartsKeepOneTimer` | dist-electron/main.cjs:50-52 | however many times the monitor is started, exactly one interval timer is live |
| `Monitor.Tick` | dist-electron/main.cjs:53-68 | a tick sends iff a window exists, the read text is non-empty and differs from `previous`, and the renderer is not loading; the payload is that text. `previous` becomes the text whenever it is new and a window exists, even while loading. A null window or a throwing read changes nothing. Nothing but `previous` changes |
| `Monitor.MainProcess.OnTick` | dist-electron/main.js:51-68 | the fields and the sent payload are those of `Tick` |
| `Monitor.QuietRun` | dist-electron/main.cjs:56 | repeated reads of text that is not new change nothing and send nothing |
| `Monitor.SameReadsSendAtMostFirst` | dist-electron/main.js:55-57 | consecutive ticks that read the same text send at most once, and only on the first of them |
| `Monitor.LoadingDropsChange` | dist-electron/main.cjs:56-62 | a change first seen while loading is recorded in `previous` and never sent by later ticks that read the same text |
| `Monitor.ReloadSendsDroppedChange` | dist-electron/main.cjs:73-79 | a change the poller dropped during a load of the first window is sent when that load finishes, since the listener ignores `previous` |
| `Monitor.WhenReady` | dist-electron/main.cjs:71-72 | a hidden window now exists and nothing else changes |
| `Monitor.MainProcess.OnReady` | dist-electron/main.js:70-71 | the fields are updated as `WhenReady` says |
| `Monitor.FirstWindowLoaded` | dist-electron/main.cjs:73-80 | the monitor is (re)started; the current text is sent iff it is non-empty and a window exists; `previous` is unchanged |
| `Monitor.MainProcess.OnFirstWindowLoaded` | dist-electron/main.js:72-79 | the fields and the payload are those of `FirstWindowLoaded` |
| `Monitor.InitialSendIsRepeated` | dist-electron/main.cjs:76-79 | the initial send is followed by a tick that sends the same text again |
| `Monitor.NewWindowLoaded` | dist-electron/main.cjs:124-126 | a window created on `activate` only restarts the monitor when it has loaded |
| `Monitor.MainProcess.OnNewWindowLoaded` | dist-electron/main.js:123-125 | the fields are updated as `NewWindowLoaded` says |
| `Monitor.Toggle` | dist-electron/main.cjs:81-93 | a visible window is hidden and nothing is sent. Otherwise the window is shown, and new text is stored in `previous` and sent (when a window exists), with no loading check |
| `Monitor.MainProcess.OnShortcut` | dist-electron/main.js:80-92 | the fields and the payload are those of `Toggle` |
| `Monitor.HideIgnoresClipboard` | dist-electron/main.cjs:82-83 | hiding gives the same result whatever the clipboard holds, sends nothing and leaves the window hidden |
| `Monitor.ShowSendsMissedChange` | dist-electron/main.cjs:84-92 | showing a hidden window records and sends a change made while it was hidden |
| `Monitor.Blur` | dist-electron/main.cjs:36-38 | blur leaves the window hidden and changes nothing else |
| `Monitor.MainProcess.OnBlur` | dist-electron/main.js:35-37 | the fields are updated as `Blur` says |
| `Monitor.PasteContent` | dist-electron/main.cjs:94-105 | a throwing write changes nothing and pastes nothing. Otherwise the text is written, the window hidden, and the panel's own renderer is told to paste iff the panel had focus when the request arrived; it is then hidden. `previous` is never changed |
| `Monitor.MainProcess.OnPasteContent` | dist-electron/main.js:93-104 | the fields, the written text and whether a paste was requested are those of `PasteContent` |
| `Monitor.PasteIsRecaptured` | dist-electron/main.js:95-100 | after a paste of new text, the next tick reading it while the monitor is live and the renderer is not loading records it and sends it back |
| `Monitor.SetClipboard` | dist-electron/main.cjs:106-112 | the text is written iff the write does not throw |
| `Monitor.MainProcess.OnSetClipboard` | dist-electron/main.js:105-111 | the result is that of `SetClipboard` and no field changes |
| `Monitor.SetClipboardIsRecaptured` | dist-electron/main.cjs:108 | text written by `set-clipboard` is sent back by the next tick when it is new and the monitor is live |
| `Monitor.WindowAllClosed` | dist-electron/main.cjs:114-120 | the monitor is stopped and the window is not visible; the window reference is dropped except on macOS |
| `Monitor.MainProcess.OnWindowAllClosed` | dist-electron/main.js:113-119 | the fields are updated as `WindowAllClosed` says |
| `Monitor.Activate` | dist-electron/main.cjs:121-128 | with no open window a new hidden window is created; otherwise nothing changes |
| `Monitor.MainProcess.OnActivate` | dist-electron/main.js:120-127 | the fields are updated as `Activate` says |
| `Monitor.WillQuit` | dist-electron/main.cjs:129-132 | quitting stops the monitor |
| `Monitor.MainProcess.OnWillQuit` | dist-electron/main.js:128-131 | the fields are updated as `WillQuit` says |
| `Monitor.HandlersKeepValid` | dist-electron/main.cjs:36-132 | every handler keeps at most one live interval timer and never leaves a missing window visible |
| `Legacy.Startup` | electron/main.ts:45-48 | after startup the window exists and is visible, and `previous` is empty |
| `Legacy.LegacyMain.constructor` | electron/main.ts:33-48 | the fields start in the `Startup` state |
| `Legacy.Tick` | electron/main.ts:36-42 | a tick records new non-empty text in `previous`, even without a window. It sends that text iff a window exists. Nothing else changes |
| `Legacy.LegacyMain.OnTick` | electron/main.ts:37-41 | the fields and the payload are those of `Tick` |
| `Legacy.QuietRun` | electron/main.ts:38 | repeated reads of empty text, or of the text in `previous`, change nothing |
| `Legacy.RepeatedReadsSendOnce` | electron/main.ts:38-39 | `n >= 1` identical reads of new text send it exactly once (with a window) and leave it in `previous` |
| `Legacy.ChangeLostWithoutWindow` | electron/main.ts:39-40 | without a window a change is recorded but never sent, then or later |
| `Legacy.Toggle` | electron/main.ts:50-57 | with a window, visibility flips; nothing else changes, and the clipboard is not read |
| `Legacy.LegacyMain.OnShortcut` | electron/main.ts:51-56 | the fields are updated as `Toggle` says |
| `Legacy.ToggleTwice` | electron/main.ts:50-57 | toggling twice restores the state, and `previous` is never touched |
| `Legacy.WindowAllClosed` | electron/main.ts:65-70 | the window is not visible; the reference is dropped except on macOS; `previous` is kept |
| `Legacy.LegacyMain.OnWindowAllClosed` | electron/main.ts:66-69 | the fields are updated as `WindowAllClosed` says |

## Left out

- `localStorage` loading and saving of the history (src/App.tsx:21-30): browser storage and JSON parsing.
- `Date.now()` and `new Date().toISOString()`: the id and timestamp are parameters of `History.Insert`. Ids are not assumed unique, as the code does not guarantee it.
- History.Matches, History.Search, Text.Lower: `toLowerCase` is modelled on ASCII letters only. Unicode case mapping is not modelled.
- `handleCopy`, rendering, dark mode and the `window.confirm` dialog in front of `handleClearHistory`: UI only. The IPC call that `handleCopy` makes is modelled on the main-process side as `Monitor.SetClipboard`.
- Window creation and geometry, `loadURL`/`loadFile`, shortcut registration and `app.quit()`: Electron calls whose only modelled effect is on `hasWindow` and `visible`.
- The 500 ms period of `setInterval`: each firing is an explicit step. Timers are only handles in a set.
- Exceptions from `isLoading()`, `send`, `hide` and `paste`: only a throwing `readText` or `writeText` is modelled. On macOS, after `window-all-closed`, `win` still points at a destroyed window whose methods would throw. That is not modelled either.
- Legacy.Tick: a throwing `readText` is not modelled. electron/main.ts does not catch it, and the runtime's handling of an uncaught exception in a timer callback is outside this model.
- Monitor.PasteContent: the order "read the focused window, then write, then hide" is represented by taking the panel's focus as an input sampled when the request arrives. The model has no notion of focus changing while the handler runs, and the paste itself (what the hidden renderer does with it) is not modelled.
- The `set-clipboard` handler of electron/main.ts (electron/main.ts:60-62) and its `will-quit` handler (electron/main.ts:72-74): neither touches the modelled state. The first writes the clipboard with no exception handling, like `Monitor.SetClipboard` without its error path; the second only unregisters the shortcuts.
- Async interleaving between IPC handlers and ticks: the code has no coordination between them, so each handler is modelled as one atomic step.
- `dist-electron/preload.js`, `dist-electron/preload.mjs`, `electron/preload.ts` (bridges with no logic) and `vite.config.ts` (build configuration) are not part of this model.
