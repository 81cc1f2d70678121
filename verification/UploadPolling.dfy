/**
 Waiting for an upload to be processed: capped exponential backoff against a deadline.

 The clock, the timers, the server and the caller's abort signal are the environment: one Round of it per turn of the
 loop, counted in milliseconds. The clock never runs backwards, and a delay that is not cut short takes at least its
 length and at least `tick`, the shortest time the platform's timer ever takes.
 */
module UploadPolling {
  import opened Options

  const DEFAULT_PROCESSING_DEADLINE_MS := 120_000
  const DEFAULT_POLL_INTERVAL_MS := 750
  const MAX_POLL_INTERVAL_MS := 5_000

  datatype Reply = Pending | Uploaded | Failed | BadResponse | Unreachable

  /**
   `before` passes between the loop test and the computation of the delay, `extra` is what the delay takes beyond its
   length (or all it takes when it is cut short), `fetch` is the time the request takes. The signal has been aborted by
   the caller when the delay ends (`userEarly`) or when the request ends (`userLate`); `timer` says that the
   deadline's own timer has fired as soon as it may.
   */
  datatype Round = Round(before: nat, cut: bool, extra: nat, userEarly: bool, timer: bool, fetch: nat, userLate: bool,
      reply: Reply)

  datatype Config = Config(deadline: int, tick: nat)

  function OrDefault(given: Option<int>, default: int): int { if given.Some? then given.value else default }

  /** The deadline that waitForUploadReady sets when it is called at `start`. */
  function Waiting(tick: nat, start: int, deadlineMs: Option<int>): Config {
    Config(start + OrDefault(deadlineMs, DEFAULT_PROCESSING_DEADLINE_MS), tick)
  }

  /** The start interval of pollUploadReady. */
  function FirstInterval(pollIntervalMs: Option<int>): int { OrDefault(pollIntervalMs, DEFAULT_POLL_INTERVAL_MS) }

  /** AbortError is the rejection of a delay or of throwIfAborted, before waitForUploadReady translates it. */
  datatype Error = AbortError | ReplyError(reply: Reply) | ProcessingTimeout

  datatype Status =
    | Polling(now: int, interval: int)
    | Ready(now: int)
    | Threw(now: int, user: bool, error: Error)

  function Min(a: int, b: int): int { if a <= b then a else b }
  function Max(a: int, b: int): int { if a >= b then a else b }

  /** When the delay of a turn that begins at `now` is over, and whether the signal is aborted then. */
  function Awake(cfg: Config, r: Round, now: int, interval: int): (int, bool) {
    var asked := now + r.before;
    var cutAt := asked + r.extra;
    var cut := r.cut && (r.userEarly || (r.timer && cutAt >= cfg.deadline));
    var at := if cut then cutAt else cutAt + Max(cfg.tick, Min(interval, cfg.deadline - asked));
    (at, r.userEarly || (r.timer && at >= cfg.deadline))
  }

  /** Whether a turn gets as far as asking the server. */
  predicate Asks(cfg: Config, r: Round, now: int, interval: int) {
    var (at, aborted) := Awake(cfg, r, now, interval);
    now < cfg.deadline && !aborted && at < cfg.deadline
  }

  /** One turn of the loop of pollUploadReady. */
  function Turn(cfg: Config, r: Round, s: Status): Status {
    if !s.Polling? then s
    else if s.now >= cfg.deadline then Threw(s.now, false, ProcessingTimeout)
    else
      var (at, aborted) := Awake(cfg, r, s.now, s.interval);
      if aborted then Threw(at, r.userEarly, AbortError)
      else if at >= cfg.deadline then Threw(at, false, ProcessingTimeout)
      else
        var back := at + r.fetch;
        if r.reply == Unreachable then Threw(back, r.userLate, ReplyError(Unreachable))
        else if r.userLate || (r.timer && back >= cfg.deadline) then Threw(back, r.userLate, AbortError)
        else if r.reply == Uploaded then Ready(back)
        else if r.reply != Pending then Threw(back, false, ReplyError(r.reply))
        else Polling(back, Min(MAX_POLL_INTERVAL_MS, s.interval * 2))
  }

  function After(cfg: Config, env: nat -> Round, start: int, p: int, n: nat): Status {
    if n == 0 then Polling(start, p) else Turn(cfg, env(n - 1), After(cfg, env, start, p, n - 1))
  }

  /**
   The delay of turn i: the start interval itself, then doubled and capped. A start interval above the cap is used
   once.
   */
  function Interval(p: int, i: nat): int {
    if i == 0 then p else Min(MAX_POLL_INTERVAL_MS, Interval(p, i - 1) * 2)
  }

  /** The least time that the delays of the first n turns take. */
  function Total(tick: nat, p: int, n: nat): int {
    if n == 0 then 0 else Total(tick, p, n - 1) + Max(tick, Interval(p, n - 1))
  }

  // ---- The backoff has a closed form ----

  function Pow2(n: nat): nat { if n == 0 then 1 else 2 * Pow2(n - 1) }

  lemma {:induction false} IntervalIsCappedPower(p: int, i: nat)
    requires 1 <= p
    ensures Interval(p, i) == if i == 0 then p else Min(MAX_POLL_INTERVAL_MS, p * Pow2(i))
    ensures 1 <= Interval(p, i)
  {
    if i != 0 {
      IntervalIsCappedPower(p, i - 1);
      assert p * Pow2(i) == 2 * (p * Pow2(i - 1));
      assert 1 <= p * Pow2(i - 1) by { PowPositive(i - 1); }
    }
  }

  lemma {:induction false} PowPositive(n: nat)
    ensures 1 <= Pow2(n)
  {
    if n != 0 { PowPositive(n - 1); }
  }

  lemma {:induction false} IntervalStaysAtCap(p: int, n0: nat, i: nat)
    requires 1 <= p && n0 <= i && p * Pow2(n0) >= MAX_POLL_INTERVAL_MS
    ensures Interval(p, i) >= MAX_POLL_INTERVAL_MS
  {
    if i == n0 {
      IntervalIsCappedPower(p, n0);
      assert Pow2(0) == 1;
    } else {
      IntervalStaysAtCap(p, n0, i - 1);
    }
  }

  lemma {:induction false} TotalGrows(tick: nat, p: int, m: nat, n: nat)
    requires m <= n
    requires 1 <= p || 1 <= tick
    ensures n - m <= Total(tick, p, n) - Total(tick, p, m)
    decreases n
  {
    if m < n {
      TotalGrows(tick, p, m, n - 1);
      if 1 <= p { IntervalIsCappedPower(p, n - 1); }
    }
  }

  lemma {:induction false} TotalAfterCap(tick: nat, p: int, n0: nat, n: nat)
    requires 1 <= p && n0 <= n && p * Pow2(n0) >= MAX_POLL_INTERVAL_MS
    ensures (n - n0) * MAX_POLL_INTERVAL_MS <= Total(tick, p, n) - Total(tick, p, n0)
    decreases n
  {
    if n0 < n {
      TotalAfterCap(tick, p, n0, n - 1);
      IntervalStaysAtCap(p, n0, n - 1);
    }
  }

  // ---- How many polls ----

  /** A turn that asks the server does so only after its whole delay, and before the deadline. */
  lemma {:induction false} PollsArePaced(cfg: Config, env: nat -> Round, start: int, p: int, n: nat)
    requires After(cfg, env, start, p, n).Polling?
    ensures var s := After(cfg, env, start, p, n);
            && s.interval == Interval(p, n)
            && start + Total(cfg.tick, p, n) <= s.now
            && (Asks(cfg, env(n), s.now, s.interval) ==>
                  start + Total(cfg.tick, p, n + 1) <= Awake(cfg, env(n), s.now, s.interval).0 < cfg.deadline)
  {
    if n != 0 {
      PollsArePaced(cfg, env, start, p, n - 1);
    }
  }

  /**
   The polls of a run: turn n - 1 asks the server only if the delays of n turns fit strictly before the deadline, so
   there are at most n0 + ceil(D / 5000) polls, where n0 doublings bring the start interval to the cap.
   */
  lemma PollsAreBounded(cfg: Config, env: nat -> Round, start: int, p: int, n: nat, n0: nat)
    requires 1 <= p && p * Pow2(n0) >= MAX_POLL_INTERVAL_MS
    requires 1 <= n && After(cfg, env, start, p, n - 1).Polling?
    requires var s := After(cfg, env, start, p, n - 1); Asks(cfg, env(n - 1), s.now, s.interval)
    ensures Total(cfg.tick, p, n) < cfg.deadline - start
    ensures n <= n0 + (cfg.deadline - start + MAX_POLL_INTERVAL_MS - 1) / MAX_POLL_INTERVAL_MS
  {
    PollsArePaced(cfg, env, start, p, n - 1);
    TotalGrows(cfg.tick, p, 0, n);
    if n0 < n {
      TotalAfterCap(cfg.tick, p, n0, n);
      TotalGrows(cfg.tick, p, 0, n0);
    }
  }

  /** An environment that loses no time and whose server never gets ready. */
  function Prompt(): nat -> Round { (n: nat) => Round(0, false, 0, false, false, 0, false, Pending) }

  /** The bound by total delay is exact: the prompt environment is polled in every turn whose delays fit. */
  lemma {:induction false} PromptPollsAreMaximal(cfg: Config, start: int, p: int, n: nat)
    requires 1 <= p || 1 <= cfg.tick
    requires Total(cfg.tick, p, n) < cfg.deadline - start
    ensures After(cfg, Prompt(), start, p, n) == Polling(start + Total(cfg.tick, p, n), Interval(p, n))
  {
    if n != 0 {
      TotalGrows(cfg.tick, p, n - 1, n);
      PromptPollsAreMaximal(cfg, start, p, n - 1);
    }
  }

  lemma {:induction false} FrozenPollsForever(cfg: Config, start: int, p: int, n: nat)
    requires p <= 0 && cfg.tick == 0 && start < cfg.deadline
    ensures var s := After(cfg, Prompt(), start, p, n); s.Polling? && s.now == start && s.interval <= 0
  {
    if n != 0 { FrozenPollsForever(cfg, start, p, n - 1); }
  }

  ghost predicate Ends(cfg: Config, env: nat -> Round, start: int, p: int) {
    exists n: nat :: !After(cfg, env, start, p, n).Polling?
  }

  /**
   Polling ends in every environment exactly when the start interval is at least one millisecond or the platform's
   timers are never instantaneous. The source accepts any interval.
   */
  lemma EndsIff(cfg: Config, start: int, p: int)
    requires start < cfg.deadline
    ensures (forall env: nat -> Round :: Ends(cfg, env, start, p)) <==> 1 <= p || 1 <= cfg.tick
  {
    if 1 <= p || 1 <= cfg.tick {
      var n: nat := cfg.deadline - start;
      forall env: nat -> Round ensures Ends(cfg, env, start, p) {
        if After(cfg, env, start, p, n).Polling? {
          PollsArePaced(cfg, env, start, p, n);
          TotalGrows(cfg.tick, p, 0, n);
          assert !After(cfg, env, start, p, n + 1).Polling?;
        }
      }
    } else {
      forall n: nat ensures After(cfg, Prompt(), start, p, n).Polling? { FrozenPollsForever(cfg, start, p, n); }
      assert !Ends(cfg, Prompt(), start, p);
    }
  }

  /** Turn i asks the server at time t. */
  ghost predicate PollAt(cfg: Config, env: nat -> Round, start: int, p: int, i: nat, t: int) {
    var s := After(cfg, env, start, p, i);
    s.Polling? && Asks(cfg, env(i), s.now, s.interval) && t == Awake(cfg, env(i), s.now, s.interval).0
  }

  lemma PollsAreSpaced(cfg: Config, env: nat -> Round, start: int, p: int, i: nat, t: int, t': int)
    requires PollAt(cfg, env, start, p, i, t) && PollAt(cfg, env, start, p, i + 1, t')
    ensures t' - t >= Interval(p, i + 1) && env(i).reply == Pending
  {
    PollsArePaced(cfg, env, start, p, i + 1);
  }

  /**
   Every poll of a run comes before the deadline and after all delays so far; all but the last found the upload
   pending.
   */
  lemma RunIsPaced(cfg: Config, env: nat -> Round, start: int, p: int, polls: seq<int>)
    requires forall i | 0 <= i < |polls| :: PollAt(cfg, env, start, p, i, polls[i])
    ensures forall i | 0 <= i < |polls| :: start + Total(cfg.tick, p, i + 1) <= polls[i] < cfg.deadline
    ensures forall i | 0 <= i < |polls| - 1 :: polls[i + 1] - polls[i] >= Interval(p, i + 1) && env(i).reply == Pending
  {
    forall i | 0 <= i < |polls| ensures start + Total(cfg.tick, p, i + 1) <= polls[i] < cfg.deadline {
      assert PollAt(cfg, env, start, p, i, polls[i]);
      PollsArePaced(cfg, env, start, p, i);
    }
    forall i | 0 <= i < |polls| - 1 ensures polls[i + 1] - polls[i] >= Interval(p, i + 1) && env(i).reply == Pending {
      assert PollAt(cfg, env, start, p, i + 1, polls[i + 1]);
      PollsAreSpaced(cfg, env, start, p, i, polls[i], polls[i + 1]);
    }
  }

  /** The number of polls that a run may issue: n0 + ceil(D / 5000), for every n0 whose doublings reach the cap. */
  ghost predicate WithinBound(cfg: Config, start: int, p: int, polls: nat) {
    forall n0: nat | 1 <= p && p * Pow2(n0) >= MAX_POLL_INTERVAL_MS ::
      polls <= n0 + (Max(0, cfg.deadline - start) + MAX_POLL_INTERVAL_MS - 1) / MAX_POLL_INTERVAL_MS
  }

  lemma PollStaysWithinBound(cfg: Config, env: nat -> Round, start: int, p: int, i: nat, t: int)
    requires PollAt(cfg, env, start, p, i, t)
    ensures WithinBound(cfg, start, p, i + 1)
  {
    forall n0: nat | 1 <= p && p * Pow2(n0) >= MAX_POLL_INTERVAL_MS
      ensures i + 1 <= n0 + (Max(0, cfg.deadline - start) + MAX_POLL_INTERVAL_MS - 1) / MAX_POLL_INTERVAL_MS
    {
      PollsAreBounded(cfg, env, start, p, i + 1, n0);
      TotalGrows(cfg.tick, p, 0, i + 1);
    }
  }

  // ---- The defaults ----

  lemma {:induction false} DefaultTotal(tick: nat, n: nat)
    requires tick <= DEFAULT_POLL_INTERVAL_MS && 3 <= n
    ensures Total(tick, DEFAULT_POLL_INTERVAL_MS, n) == 5_250 + (n - 3) * MAX_POLL_INTERVAL_MS
    ensures Interval(DEFAULT_POLL_INTERVAL_MS, n) == MAX_POLL_INTERVAL_MS
  {
    if n == 3 {
      DefaultStart(tick);
    } else {
      DefaultTotal(tick, n - 1);
    }
  }

  lemma DefaultStart(tick: nat)
    ensures Interval(DEFAULT_POLL_INTERVAL_MS, 3) == MAX_POLL_INTERVAL_MS
    ensures 5_250 <= Total(tick, DEFAULT_POLL_INTERVAL_MS, 3)
    ensures tick <= DEFAULT_POLL_INTERVAL_MS ==> Total(tick, DEFAULT_POLL_INTERVAL_MS, 3) == 5_250
  {
    var p := DEFAULT_POLL_INTERVAL_MS;
    assert Interval(p, 0) == 750 && Interval(p, 1) == 1_500 && Interval(p, 2) == 3_000;
    assert Total(tick, p, 0) == 0 && Total(tick, p, 1) == Max(tick, 750);
    assert Total(tick, p, 2) == Max(tick, 750) + Max(tick, 1_500);
  }

  /** With the default deadline and interval no run asks more than 25 times. */
  lemma DefaultPollsAreBounded(env: nat -> Round, tick: nat, start: int, polls: seq<int>)
    requires forall i | 0 <= i < |polls| ::
               PollAt(Waiting(tick, start, None), env, start, FirstInterval(None), i, polls[i])
    ensures |polls| <= 25
  {
    if 25 < |polls| {
      var p := DEFAULT_POLL_INTERVAL_MS;
      assert PollAt(Waiting(tick, start, None), env, start, p, 25, polls[25]);
      assert Pow2(1) == 2 && Pow2(2) == 4 && Pow2(3) == 8;
      PollsAreBounded(Waiting(tick, start, None), env, start, p, 26, 3);
      DefaultStart(tick);
      TotalAfterCap(tick, p, 3, 26);
    }
  }

  /** And where no time is lost the 25th poll takes place. */
  lemma DefaultPollsAreReached(tick: nat, start: int)
    requires tick <= DEFAULT_POLL_INTERVAL_MS
    ensures PollAt(Waiting(tick, start, None), Prompt(), start, FirstInterval(None), 24, start + 115_250)
  {
    DefaultTotal(tick, 24);
    DefaultTotal(tick, 25);
    PromptPollsAreMaximal(Waiting(tick, start, None), start, DEFAULT_POLL_INTERVAL_MS, 24);
  }

  // ---- The methods ----

  /** An abort: the caller's own signal, or the timer of a deadline that has passed. */
  predicate Aborts(cfg: Config, now: int, user: bool, signal: bool, timer: bool) {
    user == signal && (user || (timer && now >= cfg.deadline))
  }

  /**
   What a finished run tells about its environment. The last turn has polled or not; `user` says whether the caller's
   signal was aborted in it.
   */
  predicate Explained(cfg: Config, env: nat -> Round, polls: seq<int>, s: Status) {
    match s
    case Polling(_, _) => false
    case Ready(_) => polls != [] && env(|polls| - 1).reply == Uploaded && !env(|polls| - 1).userLate
    case Threw(now, user, ReplyError(reply)) =>
      && polls != [] && env(|polls| - 1).reply == reply && reply != Pending && reply != Uploaded
      && user == (reply == Unreachable && env(|polls| - 1).userLate)
    case Threw(now, user, AbortError) =>
      || Aborts(cfg, now, user, env(|polls|).userEarly, env(|polls|).timer)
      || (polls != [] && Aborts(cfg, now, user, env(|polls| - 1).userLate, env(|polls| - 1).timer))
    case Threw(now, user, ProcessingTimeout) => now >= cfg.deadline && !user
  }

  /** The body of the loop of pollUploadReady: where it leaves the loop, and when it called getById, if it did. */
  method TakeTurn(cfg: Config, r: Round, now: int, interval: int) returns (next: Status, poll: Option<int>)
    requires now < cfg.deadline
    ensures next == Turn(cfg, r, Polling(now, interval))
    ensures poll == if Asks(cfg, r, now, interval) then Some(Awake(cfg, r, now, interval).0) else None
  {
    var (at, aborted) := Awake(cfg, r, now, interval);
    if aborted { return Threw(at, r.userEarly, AbortError), None; }
    if at >= cfg.deadline { return Threw(at, false, ProcessingTimeout), None; }
    poll := Some(at);
    var back := at + r.fetch;
    if r.reply == Unreachable { return Threw(back, r.userLate, ReplyError(Unreachable)), poll; }
    if r.userLate || (r.timer && back >= cfg.deadline) { return Threw(back, r.userLate, AbortError), poll; }
    if r.reply == Failed || r.reply == BadResponse { return Threw(back, false, ReplyError(r.reply)), poll; }
    if r.reply == Uploaded { return Ready(back), poll; }
    return Polling(back, Min(MAX_POLL_INTERVAL_MS, interval * 2)), poll;
  }

  /** Every poll so far was one of the turns that ask, and the turns stand at s. */
  ghost predicate Polled(cfg: Config, env: nat -> Round, start: int, p: int, polls: seq<int>, s: Status) {
    && (forall i | 0 <= i < |polls| :: PollAt(cfg, env, start, p, i, polls[i]))
    && WithinBound(cfg, start, p, |polls|)
    && (if s.Polling? then s == After(cfg, env, start, p, |polls|) && (1 <= s.interval || 1 <= cfg.tick)
        else
          && Explained(cfg, env, polls, s)
          && (s == After(cfg, env, start, p, |polls|) || s == After(cfg, env, start, p, |polls| + 1)))
  }

  /** A turn that ends the run explains why; one that goes on has asked, and moved the clock. */
  lemma TurnExplains(cfg: Config, env: nat -> Round, polls: seq<int>, s: Status)
    requires s.Polling? && s.now < cfg.deadline && (1 <= s.interval || 1 <= cfg.tick)
    ensures var next := Turn(cfg, env(|polls|), s);
            var (at, _) := Awake(cfg, env(|polls|), s.now, s.interval);
            if next.Polling? then
              Asks(cfg, env(|polls|), s.now, s.interval) && s.now < next.now && (1 <= next.interval || 1 <= cfg.tick)
            else
              Explained(cfg, env, if Asks(cfg, env(|polls|), s.now, s.interval) then polls + [at] else polls, next)
  {}

  lemma PollAdded(cfg: Config, env: nat -> Round, start: int, p: int, polls: seq<int>, t: int)
    requires forall i | 0 <= i < |polls| :: PollAt(cfg, env, start, p, i, polls[i])
    requires PollAt(cfg, env, start, p, |polls|, t)
    ensures forall i | 0 <= i < |polls + [t]| :: PollAt(cfg, env, start, p, i, (polls + [t])[i])
    ensures WithinBound(cfg, start, p, |polls + [t]|)
  {
    PollStaysWithinBound(cfg, env, start, p, |polls|, t);
    forall i | 0 <= i < |polls + [t]| ensures PollAt(cfg, env, start, p, i, (polls + [t])[i]) {
      if i < |polls| { assert PollAt(cfg, env, start, p, i, polls[i]); }
    }
  }

  lemma TurnKeepsPolled(cfg: Config, env: nat -> Round, start: int, p: int, polls: seq<int>, s: Status)
    requires s.Polling? && s.now < cfg.deadline && Polled(cfg, env, start, p, polls, s)
    ensures var r := env(|polls|);
            var next, at := Turn(cfg, r, s), Awake(cfg, r, s.now, s.interval).0;
            && Polled(cfg, env, start, p, if Asks(cfg, r, s.now, s.interval) then polls + [at] else polls, next)
            && (next.Polling? ==> s.now < next.now)
  {
    var r := env(|polls|);
    var next, at := Turn(cfg, r, s), Awake(cfg, r, s.now, s.interval).0;
    assert After(cfg, env, start, p, |polls| + 1) == next;
    TurnExplains(cfg, env, polls, s);
    if Asks(cfg, r, s.now, s.interval) { PollAdded(cfg, env, start, p, polls, at); }
  }

  lemma LateMeansTimeout(cfg: Config, env: nat -> Round, start: int, p: int, polls: seq<int>, s: Status)
    requires s.Polling? && s.now >= cfg.deadline && Polled(cfg, env, start, p, polls, s)
    ensures Polled(cfg, env, start, p, polls, Threw(s.now, false, ProcessingTimeout))
  {
    assert After(cfg, env, start, p, |polls| + 1) == Turn(cfg, env(|polls|), s);
  }

  /**
   pollUploadReady. `polls` holds the moments at which getById is called; they are those of the turns that ask the
   server, no more than the bound, and the run ends where the turns end.
   */
  method PollUploadReady(cfg: Config, env: nat -> Round, start: int, pollIntervalMs: int)
    returns (end: Status, polls: seq<int>)
    requires 1 <= pollIntervalMs || 1 <= cfg.tick
    ensures Explained(cfg, env, polls, end)
    ensures forall i | 0 <= i < |polls| :: PollAt(cfg, env, start, pollIntervalMs, i, polls[i])
    ensures end == After(cfg, env, start, pollIntervalMs, |polls|)
        || end == After(cfg, env, start, pollIntervalMs, |polls| + 1)
    ensures WithinBound(cfg, start, pollIntervalMs, |polls|)
  {
    polls := [];
    end := Polling(start, pollIntervalMs);
    while end.Polling? && end.now < cfg.deadline
      invariant Polled(cfg, env, start, pollIntervalMs, polls, end)
      decreases end.Polling?, if end.Polling? then cfg.deadline - end.now else 0
    {
      var poll;
      TurnKeepsPolled(cfg, env, start, pollIntervalMs, polls, end);
      end, poll := TakeTurn(cfg, env(|polls|), end.now, end.interval);
      if poll.Some? { polls := polls + [poll.value]; }
    }
    if end.Polling? {
      LateMeansTimeout(cfg, env, start, pollIntervalMs, polls, end);
      end := Threw(end.now, false, ProcessingTimeout);
    }
  }

  datatype Outcome = Metadata | UserAborted | ProcessingTimedOut | Rejected(reply: Reply)

  /**
   waitForUploadReady: the caller sees its own abort reason, the timeout error, the server's error, or the metadata,
   and never the internal abort by which the deadline's timer stops a request. `userAtCatch` says that the caller has
   aborted by the time the error is caught.
   */
  method WaitForUploadReady(tick: nat, env: nat -> Round, start: int, deadlineMs: Option<int>,
      pollIntervalMs: Option<int>, userAtCatch: bool)
    returns (outcome: Outcome, end: Status, polls: seq<int>)
    requires 1 <= FirstInterval(pollIntervalMs) || 1 <= tick
    ensures var cfg, p := Waiting(tick, start, deadlineMs), FirstInterval(pollIntervalMs);
            && Explained(cfg, env, polls, end)
            && (outcome.Metadata? <==> end.Ready?)
            && (outcome.UserAborted? <==> end.Threw? && (end.user || userAtCatch))
            && (outcome.ProcessingTimedOut? <==> end.Threw? && !end.user && !userAtCatch && end.now >= cfg.deadline)
            && (outcome.Rejected? ==>
                  end.now < cfg.deadline && polls != [] && env(|polls| - 1).reply == outcome.reply)
            && (forall i | 0 <= i < |polls| :: start + Total(tick, p, i + 1) <= polls[i] < cfg.deadline)
            && (forall i | 0 <= i < |polls| - 1 ::
                  polls[i + 1] - polls[i] >= Interval(p, i + 1) && env(i).reply == Pending)
            && WithinBound(cfg, start, p, |polls|)
    ensures deadlineMs.None? && pollIntervalMs.None? ==> |polls| <= 25
  {
    var cfg, p := Waiting(tick, start, deadlineMs), FirstInterval(pollIntervalMs);
    end, polls := PollUploadReady(cfg, env, start, p);
    RunIsPaced(cfg, env, start, p, polls);
    if deadlineMs.None? && pollIntervalMs.None? { DefaultPollsAreBounded(env, tick, start, polls); }
    if end.Ready? { return Metadata, end, polls; }
    if end.user || userAtCatch { return UserAborted, end, polls; }
    if end.now >= cfg.deadline { return ProcessingTimedOut, end, polls; }
    outcome := Rejected(end.error.reply);
  }
}
