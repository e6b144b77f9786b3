/** A model of the admission-control gate of CrptApi: a fixed window of
    `unitToNano()` nanoseconds and a counter of calls made in that window.
    The clock reading (System.nanoTime() in the source) is a parameter `now`,
    and an admitted call is reported as a return value instead of being sent. */
module CrptApiModel {

  datatype Option<T> = None | Some(value: T)

  /** java.util.concurrent.TimeUnit; a `null` unit is `None` below. */
  datatype TimeUnit =
    | Nanoseconds | Microseconds | Milliseconds | Seconds | Minutes | Hours | Days

  /** Position of a unit from the finest to the coarsest. */
  function Ordinal(u: TimeUnit): nat
  {
    match u
    case Nanoseconds => 0
    case Microseconds => 1
    case Milliseconds => 2
    case Seconds => 3
    case Minutes => 4
    case Hours => 5
    case Days => 6
  }

  /** The conversion table of TIME_UNIT_MAP with getOrDefault(unit, 1):
      the length of one window in nanoseconds. */
  function UnitToNano(u: Option<TimeUnit>): (n: int)
    ensures n >= 1
    ensures u.None? ==> n == 1
  {
    match u
    case None => 1
    case Some(Nanoseconds) => 1
    case Some(Microseconds) => 1000
    case Some(Milliseconds) => 1000 * 1000
    case Some(Seconds) => 1000 * 1000 * 1000
    case Some(Minutes) => 60 * 1000 * 1000 * 1000
    case Some(Hours) => 60 * 60 * 1000 * 1000 * 1000
    case Some(Days) => 24 * 60 * 60 * 1000 * 1000 * 1000
  }

  /** The next finer unit, if any. */
  function Finer(u: TimeUnit): Option<TimeUnit>
  {
    match u
    case Nanoseconds => None
    case Microseconds => Some(Nanoseconds)
    case Milliseconds => Some(Microseconds)
    case Seconds => Some(Milliseconds)
    case Minutes => Some(Seconds)
    case Hours => Some(Minutes)
    case Days => Some(Hours)
  }

  /** How many of the next finer unit make one of `u`. */
  function Ratio(u: TimeUnit): nat
  {
    match u
    case Nanoseconds => 1
    case Microseconds => 1000
    case Milliseconds => 1000
    case Seconds => 1000
    case Minutes => 60
    case Hours => 60
    case Days => 24
  }

  const LONG_MAX: int := 0x7FFF_FFFF_FFFF_FFFF

  /** The table agrees with the usual chain of unit ratios
      (1000 ns in a microsecond, ..., 24 hours in a day). */
  lemma UnitToNanoByRatio(u: TimeUnit)
    ensures Finer(u).None? ==> UnitToNano(Some(u)) == Ratio(u)
    ensures Finer(u).Some? ==> UnitToNano(Some(u)) == Ratio(u) * UnitToNano(Finer(u))
  {
  }

  /** A coarser unit gives a strictly longer window. */
  lemma UnitToNanoStrictlyIncreasing(u: TimeUnit, v: TimeUnit)
    requires Ordinal(u) < Ordinal(v)
    ensures UnitToNano(Some(u)) < UnitToNano(Some(v))
  {
  }

  /** Every table entry fits a Java `long`, so the table needs no overflow model. */
  lemma UnitToNanoFitsLong(u: Option<TimeUnit>)
    ensures 1 <= UnitToNano(u) <= LONG_MAX
  {
  }

  // ---------------------------------------------------------------------------
  // The decision of one call of doSend, on values

  /** The constructor's arguments, never changed afterwards. */
  datatype Config = Config(unit: Option<TimeUnit>, requestLimit: int)

  /** The two mutable fields: start of the current window and calls counted in it. */
  datatype Limiter = Limiter(timer: int, counter: int)

  /** The state right after construction. */
  const Initial: Limiter := Limiter(0, 0)

  /** checkTime's answer: the call is still inside the current window
      (the comparison is `<=`, so a call exactly one window later is inside). */
  predicate InWindow(cfg: Config, s: Limiter, now: int)
  {
    now - s.timer <= UnitToNano(cfg.unit)
  }

  /** Whether doSend goes on to sendRequest. */
  predicate Admits(cfg: Config, s: Limiter, now: int)
  {
    !InWindow(cfg, s, now) || s.counter + 1 < cfg.requestLimit
  }

  /** The fields after one call of doSend. */
  function Next(cfg: Config, s: Limiter, now: int): (r: Limiter)
    ensures r.timer >= s.timer
    ensures r.timer > s.timer <==> !InWindow(cfg, s, now)
  {
    if InWindow(cfg, s, now) then Limiter(s.timer, s.counter + 1)
    else Limiter(s.timer + (now - s.timer), 0)
  }

  /** An in-window call counts itself, whether it is admitted or not,
      and is rejected exactly when the new count reaches the limit. */
  lemma InWindowStep(cfg: Config, s: Limiter, now: int)
    requires InWindow(cfg, s, now)
    ensures Next(cfg, s, now) == Limiter(s.timer, s.counter + 1)
    ensures !Admits(cfg, s, now) <==> Next(cfg, s, now).counter >= cfg.requestLimit
  {
  }

  /** A call after the window has elapsed starts a new window at `now`, with
      the counter at 0, and is admitted whatever the limit is. */
  lemma ElapsedStep(cfg: Config, s: Limiter, now: int)
    requires !InWindow(cfg, s, now)
    ensures Next(cfg, s, now) == Limiter(now, 0)
    ensures Admits(cfg, s, now)
  {
  }

  // ---------------------------------------------------------------------------
  // Runs of calls

  /** The decisions of successive calls at the clock readings `nows`. */
  function Decisions(cfg: Config, s: Limiter, nows: seq<int>): (d: seq<bool>)
    ensures |d| == |nows|
    decreases |nows|
  {
    if nows == [] then []
    else [Admits(cfg, s, nows[0])] + Decisions(cfg, Next(cfg, s, nows[0]), nows[1..])
  }

  /** The fields after successive calls at the clock readings `nows`. */
  function After(cfg: Config, s: Limiter, nows: seq<int>): Limiter
    decreases |nows|
  {
    if nows == [] then s else After(cfg, Next(cfg, s, nows[0]), nows[1..])
  }

  /** Number of admitted calls among `d`. */
  function Admitted(d: seq<bool>): (n: nat)
    ensures n <= |d|
    decreases |d|
  {
    if d == [] then 0 else (if d[0] then 1 else 0) + Admitted(d[1..])
  }

  function Min(a: int, b: int): int { if a <= b then a else b }

  function Max(a: int, b: int): int { if a >= b then a else b }

  /** Every reading in `nows` falls inside the window that starts at `start`. */
  predicate AllWithin(cfg: Config, start: int, nows: seq<int>)
  {
    forall i :: 0 <= i < |nows| ==> nows[i] - start <= UnitToNano(cfg.unit)
  }

  /** The window start never moves backward, whatever the clock readings. */
  lemma {:induction false} TimerNeverMovesBackward(cfg: Config, s: Limiter, nows: seq<int>)
    ensures After(cfg, s, nows).timer >= s.timer
    decreases |nows|
  {
    if nows != [] {
      TimerNeverMovesBackward(cfg, Next(cfg, s, nows[0]), nows[1..]);
    }
  }

  /** From construction on, the counter is never negative. */
  lemma {:induction false} CounterNonNegative(cfg: Config, s: Limiter, nows: seq<int>)
    requires s.counter >= 0
    ensures After(cfg, s, nows).counter >= 0
    decreases |nows|
  {
    if nows != [] {
      CounterNonNegative(cfg, Next(cfg, s, nows[0]), nows[1..]);
    }
  }

  /** Inside one window the start stays put, every call adds one to the
      counter, and call i is admitted exactly when counter + i + 1 < limit. */
  lemma {:induction false} RunWithinWindow(cfg: Config, s: Limiter, nows: seq<int>)
    requires AllWithin(cfg, s.timer, nows)
    ensures After(cfg, s, nows) == Limiter(s.timer, s.counter + |nows|)
    ensures forall i :: 0 <= i < |nows| ==>
      Decisions(cfg, s, nows)[i] == (s.counter + i + 1 < cfg.requestLimit)
    decreases |nows|
  {
    if nows != [] {
      var s' := Next(cfg, s, nows[0]);
      assert s' == Limiter(s.timer, s.counter + 1);
      assert AllWithin(cfg, s'.timer, nows[1..]) by {
        forall i | 0 <= i < |nows[1..]| ensures nows[1..][i] - s'.timer <= UnitToNano(cfg.unit) {
          assert nows[1..][i] == nows[i + 1];
        }
      }
      RunWithinWindow(cfg, s', nows[1..]);
      var d := Decisions(cfg, s, nows);
      assert d == [Admits(cfg, s, nows[0])] + Decisions(cfg, s', nows[1..]);
      forall i | 0 <= i < |nows| ensures d[i] == (s.counter + i + 1 < cfg.requestLimit) {
        if i > 0 {
          assert d[i] == Decisions(cfg, s', nows[1..])[i - 1];
        }
      }
    }
  }

  /** Inside one window, once a call is rejected every later call is rejected. */
  lemma OnceRejectedAlwaysRejected(cfg: Config, s: Limiter, nows: seq<int>, i: nat, j: nat)
    requires AllWithin(cfg, s.timer, nows)
    requires i < j < |nows|
    requires !Decisions(cfg, s, nows)[i]
    ensures !Decisions(cfg, s, nows)[j]
  {
    RunWithinWindow(cfg, s, nows);
  }

  /** Inside one window, starting from counter c, exactly
      min(n, max(limit - 1 - c, 0)) of n calls are admitted. */
  lemma {:induction false} AdmittedWithinWindow(cfg: Config, s: Limiter, nows: seq<int>)
    requires AllWithin(cfg, s.timer, nows)
    ensures Admitted(Decisions(cfg, s, nows))
         == Min(|nows|, Max(cfg.requestLimit - 1 - s.counter, 0))
    decreases |nows|
  {
    if nows != [] {
      var s' := Next(cfg, s, nows[0]);
      assert s' == Limiter(s.timer, s.counter + 1);
      assert AllWithin(cfg, s'.timer, nows[1..]) by {
        forall i | 0 <= i < |nows[1..]| ensures nows[1..][i] - s'.timer <= UnitToNano(cfg.unit) {
          assert nows[1..][i] == nows[i + 1];
        }
      }
      AdmittedWithinWindow(cfg, s', nows[1..]);
      var d := Decisions(cfg, s, nows);
      assert d[1..] == Decisions(cfg, s', nows[1..]);
    }
  }

  /** A call that opens a new window followed by n calls inside that window:
      1 + min(n, max(limit - 1, 0)) are admitted, so a window never admits more
      than max(limit, 1) calls (the reset call is admitted even for limit <= 0). */
  lemma AdmittedPerWindow(cfg: Config, s: Limiter, now: int, nows: seq<int>)
    requires !InWindow(cfg, s, now)
    requires AllWithin(cfg, now, nows)
    ensures Admitted(Decisions(cfg, s, [now] + nows))
         == 1 + Min(|nows|, Max(cfg.requestLimit - 1, 0))
    ensures Admitted(Decisions(cfg, s, [now] + nows)) <= Max(cfg.requestLimit, 1)
  {
    var run := [now] + nows;
    assert run[1..] == nows;
    var s' := Next(cfg, s, now);
    assert s' == Limiter(now, 0);
    AdmittedWithinWindow(cfg, s', nows);
    var d := Decisions(cfg, s, run);
    assert d[1..] == Decisions(cfg, s', nows);
  }

  /** The counter is not bounded by the limit: rejected calls keep counting. */
  lemma CounterPassesLimit(cfg: Config, s: Limiter, nows: seq<int>)
    requires AllWithin(cfg, s.timer, nows)
    requires s.counter >= 0 && |nows| > cfg.requestLimit
    ensures After(cfg, s, nows).counter > cfg.requestLimit
  {
    RunWithinWindow(cfg, s, nows);
  }

  /** With limit 2 and a one-second window, calls at T, T+10ms, T+20ms and
      T+1100ms (T past the first second of the clock) are admitted, admitted,
      rejected and admitted. */
  lemma ScenarioLimitTwo(t: int)
    requires t > 1000 * 1000 * 1000
    ensures Decisions(Config(Some(Seconds), 2), Initial,
                      [t, t + 10 * 1000 * 1000, t + 20 * 1000 * 1000, t + 1100 * 1000 * 1000])
         == [true, true, false, true]
  {
    var cfg := Config(Some(Seconds), 2);
    var nows := [t, t + 10 * 1000 * 1000, t + 20 * 1000 * 1000, t + 1100 * 1000 * 1000];
    var s1 := Next(cfg, Initial, nows[0]);
    var s2 := Next(cfg, s1, nows[1]);
    var s3 := Next(cfg, s2, nows[2]);
    assert s1 == Limiter(t, 0);
    assert s2 == Limiter(t, 1);
    assert s3 == Limiter(t, 2);
    assert nows[1..] == [nows[1], nows[2], nows[3]];
    assert nows[2..] == [nows[2], nows[3]];
    assert nows[3..] == [nows[3]];
    assert Decisions(cfg, s3, nows[3..]) == [true];
    assert Decisions(cfg, s2, nows[2..]) == [false, true];
    assert Decisions(cfg, s1, nows[1..]) == [true, false, true];
  }

  /** The window that starts at construction (timer = 0) is not opened by a
      reset call: while the clock reads at most one window length, the first
      call already counts as 1, so only max(requestLimit - 1, 0) calls of
      that window are admitted. */
  lemma FirstWindowWithoutReset(cfg: Config, nows: seq<int>)
    requires AllWithin(cfg, Initial.timer, nows)
    ensures Admitted(Decisions(cfg, Initial, nows)) == Min(|nows|, Max(cfg.requestLimit - 1, 0))
  {
    AdmittedWithinWindow(cfg, Initial, nows);
  }

  /** The limit-2 scenario with the clock reading 0 at the first call: the
      first window has no reset call, so the calls at 0, 10ms, 20ms and
      1100ms are admitted, rejected, rejected and admitted. */
  lemma ScenarioLimitTwoFromClockZero()
    ensures Decisions(Config(Some(Seconds), 2), Initial,
                      [0, 10 * 1000 * 1000, 20 * 1000 * 1000, 1100 * 1000 * 1000])
         == [true, false, false, true]
  {
  }

  // ---------------------------------------------------------------------------
  // The class, with its two mutable fields

  /** The interface ICallBack: receives the server's answer, or null. */
  type ICallBack = Option<string> -> ()

  class CrptApi {
    const timeUnit: Option<TimeUnit>
    const requestLimit: int
    var timer: int
    var counter: int

    function Cfg(): Config
    {
      Config(timeUnit, requestLimit)
    }

    function State(): Limiter
      reads this
    {
      Limiter(timer, counter)
    }

    /** The limit is stored as given; nothing is validated. */
    constructor (timeUnit: Option<TimeUnit>, requestLimit: int)
      ensures this.timeUnit == timeUnit && this.requestLimit == requestLimit
      ensures State() == Initial
    {
      this.timeUnit := timeUnit;
      this.requestLimit := requestLimit;
      timer := 0;
      counter := 0;
    }

    /** True when the call is still inside the window; otherwise the window
        is moved to start at `now`. */
    method CheckTime(now: int) returns (inWindow: bool)
      modifies this`timer
      ensures inWindow == InWindow(Cfg(), old(State()), now)
      ensures inWindow ==> timer == old(timer)
      ensures !inWindow ==> timer == now && timer > old(timer)
    {
      var dev := now - timer;
      if dev <= UnitToNano(timeUnit) {
        return true;
      }
      timer := timer + dev;
      return false;
    }

    /** Counts the call and tells whether the new count reached the limit. */
    method CheckCount() returns (overLimit: bool)
      modifies this`counter
      ensures counter == old(counter) + 1
      ensures overLimit <==> counter >= requestLimit
    {
      counter := counter + 1;
      overLimit := counter >= requestLimit;
    }

    /** One admission decision; `sent` is true exactly when sendRequest runs.
        The document, the signature and the callback play no part in it. */
    method DoSend<D>(doc: D, sign: string, callBack: ICallBack, now: int) returns (sent: bool)
      modifies this
      ensures sent == Admits(Cfg(), old(State()), now)
      ensures State() == Next(Cfg(), old(State()), now)
    {
      var inWindow := CheckTime(now);
      if inWindow {
        var overLimit := CheckCount();
        if overLimit {
          return false;
        }
      } else {
        counter := 0;
      }
      return true;
    }

    /** Sends without waiting for the answer (the callback ignores it). */
    method Send<D>(doc: D, sign: string, now: int) returns (sent: bool)
      modifies this
      ensures sent == Admits(Cfg(), old(State()), now)
      ensures State() == Next(Cfg(), old(State()), now)
    {
      sent := DoSend(doc, sign, _ => (), now);
    }

    /** Sends and hands the answer to `callBack`. */
    method SendWithCallBack<D>(doc: D, sign: string, callBack: ICallBack, now: int) returns (sent: bool)
      modifies this
      ensures sent == Admits(Cfg(), old(State()), now)
      ensures State() == Next(Cfg(), old(State()), now)
    {
      sent := DoSend(doc, sign, callBack, now);
    }
  }

  /** A client of the class: the limit-2 scenario, on a fresh object. */
  method ScenarioOnObject(t: int) returns (d: seq<bool>)
    requires t > 1000 * 1000 * 1000
    ensures d == [true, true, false, true]
  {
    var api := new CrptApi(Some(Seconds), 2);
    var a := api.Send("doc", "sign", t);
    var b := api.Send("doc", "sign", t + 10 * 1000 * 1000);
    var c := api.SendWithCallBack("doc", "sign", _ => (), t + 20 * 1000 * 1000);
    var e := api.Send("doc", "sign", t + 1100 * 1000 * 1000);
    d := [a, b, c, e];
  }
}
