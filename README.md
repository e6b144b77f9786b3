# CrptApi admission gate, modelled in Dafny

`CrptApi` throttles calls of `send` and `sendWithCallBack` before they reach the
document-registration endpoint. It keeps two mutable fields: `timer`, the start
of the current window in nanoseconds, and `counter`, the calls counted in that
window. The window length comes from a fixed table that turns the
configured `TimeUnit` into nanoseconds. Each call of `doSend` does three things:

- it reads the clock and asks `checkTime` whether the window is still open;
- if the window has elapsed, `checkTime` moves `timer` to the current time,
  `doSend` sets `counter` to 0, and the call is admitted;
- otherwise `checkCount` adds one to `counter`, and the call is dropped when the
  new count is at least `requestLimit`.

`crpt_api.dfy` (module `CrptApiModel`) holds the model:

- `UnitToNano` models the unit table and is total over `Option<TimeUnit>`. A
  `null` unit is `None` and gets the default of 1.
- `InWindow`, `Admits` and `Next` give the decision and the new
  `(timer, counter)` of one call, written on values (`Config`, `Limiter`).
- `Decisions` and `After` apply them to a sequence of clock readings. The
  lemmas about runs are stated over these two functions.
- The class `CrptApi` has the same mutable fields and the methods `CheckTime`,
  `CheckCount`, `DoSend`, `Send` and `SendWithCallBack`. Each method's
  postcondition ties its result and its new state to the functions above.

The clock (`System.nanoTime()`) is the parameter `now`. The call to
`sendRequest` is the `true` result `sent`.

Points where the code is easy to misread:

- The call that opens a new window sets the counter to 0, so that call itself
  is not counted.
- A call inside the window is rejected when the count after incrementing is
  `>= requestLimit`. Together with the reset to 0, a window opened by a reset
  call admits `requestLimit` calls when the limit is positive, which is the
  bound the constructor's documentation gives (CrptApi.java:51).
- `timer` starts at 0, not at the clock reading at construction. While the
  clock reads at most one window length, the calls fall in a window that no
  reset call opened. The first of them already counts as 1, so that window
  admits only `requestLimit - 1` calls (`FirstWindowWithoutReset`,
  `ScenarioLimitTwoFromClockZero`).
- `requestLimit` is not validated, although its documentation calls it
  positive. A limit of 0 or less is accepted, and then only the reset calls
  are admitted.
- Rejected calls still increment the counter, and nothing undoes that. The
  counter can therefore go past `requestLimit` (`CounterPassesLimit`).

## Model

| member | source | states |
|---|---|---|
| CrptApiModel.UnitToNano | CrptApi.java:21-64 | the window length is at least 1 ns for every unit, and exactly 1 for a unit missing from the table (null) |
| CrptApiModel.UnitToNanoByRatio | CrptApi.java:23-29 | each table entry is the entry of the next finer unit times the usual ratio (1000, 1000, 1000, 60, 60, 24) |
| CrptApiModel.UnitToNanoStrictlyIncreasing | CrptApi.java:23-29 | a coarser unit always gives a strictly longer window |
| CrptApiModel.UnitToNanoFitsLong | CrptApi.java:21-29 | every window length lies between 1 and Long.MAX_VALUE, so the Java table cannot overflow |
| CrptApiModel.Next | CrptApi.java:71-101 | one call never moves the window start backward, and moves it strictly forward exactly when the window has elapsed |
| CrptApiModel.InWindowStep | CrptApi.java:72-98 | an in-window call keeps `timer`, adds exactly one to `counter` even when rejected, and is rejected iff the new counter is >= requestLimit |
| CrptApiModel.ElapsedStep | CrptApi.java:72-101 | a call after the window has elapsed sets `timer` to `now` and `counter` to 0, and is admitted whatever requestLimit is |
| CrptApiModel.Decisions | CrptApi.java:94-102 | a run of calls gives one decision per call |
| CrptApiModel.TimerNeverMovesBackward | CrptApi.java:72-75 | over any run of calls at any clock readings, `timer` never decreases |
| CrptApiModel.CounterNonNegative | CrptApi.java:84-100 | starting from a non-negative counter (as after construction), the counter stays non-negative over any run |
| CrptApiModel.RunWithinWindow | CrptApi.java:73-98 | during calls inside one window `timer` stays fixed, the counter grows by one per call, and call i is admitted iff counter + i + 1 < requestLimit |
| CrptApiModel.OnceRejectedAlwaysRejected | CrptApi.java:84-98 | inside one window, every call after a rejected call is rejected too |
| CrptApiModel.AdmittedWithinWindow | CrptApi.java:84-98 | inside one window, starting from counter c, exactly min(n, max(requestLimit - 1 - c, 0)) of n calls are admitted |
| CrptApiModel.AdmittedPerWindow | CrptApi.java:51-101 | a reset call followed by n calls in the same window admits 1 + min(n, max(requestLimit - 1, 0)) calls, hence at most max(requestLimit, 1) per window |
| CrptApiModel.CounterPassesLimit | CrptApi.java:53-98 | for any limit the constructor accepts, more than requestLimit calls inside one window drive the counter above requestLimit, because rejections are counted |
| CrptApiModel.ScenarioLimitTwo | CrptApi.java:71-101 | limit 2 with a one-second window and T > 1 s (timer starts at 0): calls at T, T+10ms, T+20ms, T+1100ms are admitted, admitted, rejected, admitted |
| CrptApiModel.FirstWindowWithoutReset | CrptApi.java:39-98 | from construction (timer = 0), while the clock reads at most one window length, n calls admit exactly min(n, max(requestLimit - 1, 0)); for a positive limit that is one fewer than a window opened by a reset call |
| CrptApiModel.ScenarioLimitTwoFromClockZero | CrptApi.java:39-101 | limit 2 with a one-second window and the clock at 0: calls at 0, 10ms, 20ms, 1100ms are admitted, rejected, rejected, admitted |
| CrptApiModel.CrptApi.constructor | CrptApi.java:39-56 | the unit and the limit are stored unchecked, and the state starts at timer = 0, counter = 0 |
| CrptApiModel.CrptApi.CheckTime | CrptApi.java:71-77 | returns true iff now - timer <= window length and then leaves `timer` alone; otherwise sets `timer` to `now`, which is strictly later |
| CrptApiModel.CrptApi.CheckCount | CrptApi.java:83-85 | adds one to `counter` and returns whether the new value is >= requestLimit |
| CrptApiModel.CrptApi.DoSend | CrptApi.java:94-102 | the call is sent exactly when `Admits` holds of the old state, and the new state is `Next` of the old one; the document, signature and callback have no influence |
| CrptApiModel.CrptApi.Send | CrptApi.java:109-111 | the same decision and state change as `DoSend` |
| CrptApiModel.CrptApi.SendWithCallBack | CrptApi.java:120-122 | the same decision and state change as `DoSend` |
| CrptApiModel.ScenarioOnObject | CrptApi.java:53-122 | on a fresh object, the limit-2 scenario gives admitted, admitted, rejected, admitted through `send` and `sendWithCallBack` |

## Left out

- `sendRequest` is not modelled. It does Gson serialisation, builds the URI and
  does the HTTP POST, all through foreign libraries and network I/O. An admitted
  call appears only as the result `sent = true`.
- Callback delivery and `printStackTrace` are not modelled, because they are I/O.
  `ICallBack` is a function type that is passed along and never called.
- `System.nanoTime()` becomes the parameter `now`. No ordering of clock
  readings is assumed. Java's nanoTime is monotonic, and the lemmas hold
  without that assumption.
- `AtomicLong` and `AtomicInteger` are not modelled, and neither are races
  between `checkTime`, `checkCount` and `counter.set(0)`. Each `DoSend` is one
  sequential step.
- Integer width is not modelled. `timer`, `dev` and `counter` are unbounded
  integers, so the wrap-around of the 32-bit `counter` after about 2^31
  rejected calls in one window is not modelled.
- The `END_POINT` constant is left out, and the `sign` argument is accepted but
  not used, as in the source.
