# triq: task inbox, guest-run coordinator and throttled progress, in Dafny

triq runs trio coroutines inside a Qt application ("guest mode"). Callers put
work on a module-level bounded channel with `call_async(fn, *av)` and ask for
shutdown with `exit()`. The coordinator coroutine `_main` takes items from the
channel in order and starts each request in a nursery, until it meets the exit
sentinel. When trio reports that `_main` has finished, `_done` unwraps that
outcome and quits the Qt application. The sample `progress_dialog.py` adds
progress reporting for such tasks. A throttling proxy accumulates ticks and
writes them into a Qt progress widget at most once per 0.1 s. A dialog and an
embedded bar guard the proxy with a nesting level.

The model has three modules:

- `Optional` (optional.dfy): `Option`, for Python's `None`-or-value.
- `Triq` (triq.dfy) models triq/triq.py.
  - The channel is a `Mailbox` object with a `seq` of items and a capacity of 100.
  - One `run(app)` is a `GuestRun` object. It holds the requests handed to the nursery (`spawned`), whether `_main` is still looping over the channel (`consuming`), and whether `app.quit()` was called.
  - `Dispatch` runs `_main`'s loop until it breaks on the sentinel, or until it would suspend on an empty channel.
  - `Dispatch` is specified by the pure function `Drain`. The lemmas about `Drain` cover first-sentinel stopping, resumption after a suspension, and repeated `exit()`.
- `Progress` (progress.dfy) models samples/progress_dialog.py.
  - The Qt widget is an `Engine` record of minimum, value, maximum and label text.
  - `ThrottlingProgressProxy.Tick` is specified by the pure function `TickStep`. Its properties over any run of ticks are lemmas about `TickAll`.
  - `ProgressDialog` and `ProgressBar` are classes with the `_level` field. Both use one decision function, `Admit`, for entering a context.

Callables and their arguments are abstract handles (type parameters `F` and
`A`). Errors are abstract values (`E`, or a message string). Time is an
integer clock in milliseconds that the caller passes in. The throttle test
`now > lastTick + 0.1` becomes `now > lastTick + 100`.

Three behaviours of the code are easy to miss:

- The code has no "late submission" error. After `_main` has broken out of its loop, `call_async` still succeeds until the channel is full, and the items just stay queued.
- Requests queued after the sentinel are not drained and discarded. They stay in the channel (`Drain`'s `rest`, and the `ExitTwice` scenario).
- The code's failure policy is trio's. `run_task` re-raises every exception, so a failing task cancels the nursery (fail-fast). The handler call after `raise` is dead code.

## Model

| member | source | states |
|---|---|---|
| `Triq.Drain` | triq/triq.py:42-46 | The requests started are exactly the items before the first sentinel, in order. A sentinel is met iff the items hold one. That sentinel is consumed, and every item after it is left in the channel untouched. Without a sentinel, everything is consumed. |
| `Triq.DrainStopsAtFirstExit` | triq/triq.py:42-46 | For requests `before`, a sentinel and any `after`: every request in `before` is spawned once, in order, the loop breaks, and `after` stays queued. |
| `Triq.DrainResumes` | triq/triq.py:42-46 | Draining a sentinel-free batch, then (after suspending) a later batch, spawns the same requests in the same order as draining both at once. |
| `Triq.RepeatedExitSpawnsAlike` | triq/triq.py:13-46 | Calling `exit()` n+1 times spawns the same requests as calling it once. The first sentinel is consumed and the other n stay queued. |
| `Triq.RunTask` | triq/triq.py:32-37 | The task's exception leaves `run_task` unchanged (a normal return stays a normal return). The exception handler is never called. |
| `Triq.Mailbox.constructor` | triq/triq.py:10-11 | The channel starts empty, within its capacity of 100, with no coordinator parked on it. |
| `Triq.Mailbox.SendNowait` | triq/triq.py:17-21 | Succeeds iff the coordinator is parked on the empty channel (the item is handed to it and takes no buffer slot) or fewer than 100 items are buffered. On success the item is appended at the tail of what the coordinator will receive. Otherwise it fails (`WouldBlock`) and nothing changes. The buffer never exceeds 100. |
| `Triq.Mailbox.CallAsync` | triq/triq.py:20-21 | Appends exactly one request `(fn, av)` at the tail, handing it to a parked coordinator if there is one. It fails only on a full buffer with no coordinator parked, and then leaves the channel unchanged. |
| `Triq.Mailbox.Exit` | triq/triq.py:16-17 | Appends exactly one sentinel at the tail, handing it to a parked coordinator if there is one. It fails only on a full buffer with no coordinator parked, and then leaves the channel unchanged. |
| `Triq.Mailbox.TryReceive` | triq/triq.py:42-42 | Removes and returns the oldest item. On an empty channel it returns nothing, and the coordinator is now parked on the channel; this is where `async for` suspends. |
| `Triq.GuestRun.constructor` | triq/triq.py:39-42 | A run starts with no task spawned, the coordinator consuming, and the host not quit. |
| `Triq.GuestRun.Dispatch` | triq/triq.py:39-46 | While the coordinator still consumes: appends `Drain`'s requests to `spawned` in order, leaves `Drain`'s rest in the channel, and stops consuming iff a sentinel was met. If it did not stop, it remains parked on the now empty channel. Once it has stopped, nothing changes. The channel stays within capacity and the quit flag is unchanged. |
| `Triq.GuestRun.Done` | triq/triq.py:48-50 | `quit` is called iff the outcome is a success. An error outcome is raised, and the quit flag stays as it was. |
| `Triq.TwoCallsThenExit` | triq/test/test_triq.py:16-22 | Two `call_async` calls, then `exit()`, then the coordinator: exactly the two requests are spawned, the channel ends empty, and the loop has stopped. |
| `Triq.SubmissionOrder` | triq/test/test_triq.py:43-47 | Requests submitted as task1, task3, task2 are spawned in exactly that order. |
| `Triq.ExitTwice` | triq/triq.py:13-46 | With one request and two `exit()` calls, the request is spawned and the second sentinel stays queued, even after a second dispatch. |
| `Triq.Burst` | triq/triq.py:10-21 | Of n `call_async` calls before the coordinator runs, call i succeeds iff i < 100. |
| `Triq.BurstWhileWaiting` | triq/triq.py:10-46 | Of n `call_async` calls while the coordinator is parked on the empty channel, call i succeeds iff i <= 100: the first goes to the coordinator, the next 100 fill the buffer. |
| `Progress.TickStep` | samples/progress_dialog.py:63-74 | Value and maximum advance by twice `advance`, so their gap is constant. A given label becomes the sticky label. The throttle window's start never moves back. Inside the window the engine and `lastTick` are untouched. On a flush, `lastTick` becomes `now` and the engine shows the accumulated value and maximum. The engine's label text is written only if a sticky label exists, and it is written with this call's argument, which may be `None`. |
| `Progress.TicksAccumulate` | samples/progress_dialog.py:63-65 | After any run of ticks, value has grown by twice the total advance and `maximum - value` is what it was. |
| `Progress.EngineKeepsGap` | samples/progress_dialog.py:56-74 | If the engine's gap equals the proxy's gap (as at construction), it stays equal after any run of ticks. |
| `Progress.LabelIsSticky` | samples/progress_dialog.py:66-67 | After any run of ticks, the stored label is the last non-`None` label passed, or the earlier one if none was passed. |
| `Progress.QuietWindow` | samples/progress_dialog.py:68-69 | Ticks that all fall within the throttle window leave the engine and the window's start unchanged. |
| `Progress.LastTickGrows` | samples/progress_dialog.py:68-70 | The window's start never decreases over a run of ticks. |
| `Progress.Admit` | samples/progress_dialog.py:110-116 | An entry is rejected iff `ticks <= 0`, whatever the level. It is outermost iff ticks are positive and the level is 0, and nested iff ticks are positive and a context is open. |
| `Progress.NullTick` | samples/progress_dialog.py:165-166 | The do-nothing reporter's tick always succeeds, with or without a context. |
| `Progress.Engine.constructor` | samples/progress_dialog.py:118-118 | A widget with the given range, value and label text. |
| `Progress.ThrottlingProgressProxy.constructor` | samples/progress_dialog.py:56-61 | The proxy copies value and maximum from the engine, has no label, and starts its window at construction time. |
| `Progress.ThrottlingProgressProxy.Tick` | samples/progress_dialog.py:63-74 | The new proxy and engine state is `TickStep` of the old one. |
| `Progress.ProgressDialog.constructor` | samples/progress_dialog.py:87-96 | Level 0, no dialog, no proxy. |
| `Progress.ProgressDialog.Enter` | samples/progress_dialog.py:99-125 | The entry kind is `Admit(level, ticks)`. Rejected and nested entries change nothing. An outermost entry creates a dialog whose label text is `title`, with range 0 to `ticks`, puts a fresh proxy over it, and sets the level to 1. |
| `Progress.ProgressDialog.Tick` | samples/progress_dialog.py:146-157 | Fails iff the level is 0, and then changes nothing. Otherwise the proxy's state becomes `TickStep` with the given label. |
| `Progress.ProgressDialog.Exit` | samples/progress_dialog.py:113-144 | A nested exit changes nothing and lets the body's error through. The outermost exit swallows an `Exception` or `trio.Cancelled` but lets any other `BaseException` through. Either way it restores level 0, sets the dialog's value to its maximum, and drops the dialog. |
| `Progress.ProgressBar.constructor` | samples/progress_dialog.py:186-189 | Level 0 and no proxy, over the given bar. |
| `Progress.ProgressBar.Enter` | samples/progress_dialog.py:192-206 | The entry kind is `Admit(level, ticks)`. Rejected and nested entries change nothing. An outermost entry resets the bar to 0 of 0 to `ticks`, puts a fresh proxy over it, and sets the level to 1. |
| `Progress.ProgressBar.Tick` | samples/progress_dialog.py:214-218 | Fails iff the level is 0. Otherwise the proxy ticks with no label, whatever label was passed, so the bar's label text never changes. |
| `Progress.ProgressBar.ExitAsWritten` | samples/progress_dialog.py:205-212 | As written: a nested exit lets the error through. The outermost exit sets level 0 and then always raises `AttributeError` for `_maximum`, which replaces any body error. |
| `Progress.ProgressBar.Exit` | samples/progress_dialog.py:205-212 | Corrected: the body's error passes through. The outermost exit sets level 0, fills the bar to the proxy's accumulated maximum, and drops the proxy. |
| `Progress.DialogExitFailures` | samples/progress_dialog.py:123-144 | An outermost exit after an `Exception` escapes nothing, one after a `KeyboardInterrupt` lets it through, and both close the context. |
| `Progress.NestedDialogUse` | samples/progress_dialog.py:224-235 | A worker's nested `async with progress(...)` reuses the open dialog, and a tick inside it advances the outer context's proxy. After both exits no context is open, and a further tick fails. |
| `Progress.BarExitFails` | samples/progress_dialog.py:205-212 | Every successful use of a bar context ends in `AttributeError`. |
| `Progress.BarExitFills` | samples/progress_dialog.py:205-212 | With the corrected exit, the same use ends without error and with the bar full at its accumulated maximum. |

## Findings

| source | as written | input that shows it | evidently intended | confidence | as-written member | corrected member |
|---|---|---|---|---|---|---|
| samples/progress_dialog.py:210-211 | The outermost exit of a `ProgressBar` context reads `self._maximum`, which `ProgressBar` never assigns. | Any context `async with bar(ticks=10)` whose body ends normally: leaving it raises `AttributeError`, and `self._throttler = None` is skipped. | Fill the bar to its final maximum (taken here to be the maximum the proxy accumulated) and let the body's outcome through. | not executed; high that it raises, medium on the intended value | `Progress.ProgressBar.ExitAsWritten` (with `Progress.BarExitFails`) | `Progress.ProgressBar.Exit` (with `Progress.BarExitFills`) |

## Left out

- Trio's `receive` yields to the scheduler after every item it takes, so `_main` can be interrupted between any two items, and sends can land in between. `Triq.GuestRun.Dispatch` instead runs the loop in one step until it breaks or parks. By `DrainResumes`, splitting the sentinel-free part of a drain into pieces spawns the same requests in the same order. The interleaving itself is not modelled.
- trio's guest-run machinery (`start_guest_run`, scheduling of nursery children, cancel scopes, `trio.Cancelled`): "spawn" is an append to `GuestRun.spawned`. Task bodies and their concurrent execution are not modelled.
- The nursery's waiting for children after `_main` breaks, and trio's fail-fast cancellation of siblings when a child raises: both are trio semantics, not code of this repository.
- `app.lastWindowClosed` wired to the nursery's cancellation, and `ProgressDialog`'s Abort button wired to its cancel scope: these are host-signal hookups onto trio cancellation.
- Qt re-entry (`_schedule`, `postEvent`, `Reenter`, `ReenterEvent`, `app.exec_()`) in triq/triq.py and triq/qt.py: thin wrappers over Qt event dispatch.
- Qt widget behaviour: `Engine` is a plain record. Qt's refusal of out-of-range `setValue`, its auto-reset, and the value a new `QProgressDialog` reports are not modelled. The last is the `freshValue` parameter of `ProgressDialog.Enter`.
- UI side effects: window modality, minimum duration, `hide`, `destroy`, the message box and its traceback text. The model records only that the outermost dialog exit swallows the body's error.
- `PrintProgress` (printing) and `connect` (signal connection). `NullProgress.__call__` only yields and is not modelled.
- Wall-clock `time.time()` floats: time is an integer millisecond clock passed in as `now`.
- The asyncio mock application in triq/test/mock_qt.py, and the timing assertions of the tests (finishing times within 1.0 s).
- setup.py, triq/__init__.py and samples/smoke.py: packaging, re-exports and a demo.
