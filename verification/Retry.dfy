/**
 The retry scheduler. Everything that happens outside it while `run` awaits (how the task settles, and which of stop,
 abort and reset other code calls meanwhile) comes in as a finite list of rounds; a run that needs more is left waiting.
 */
module Retry {
  import opened Wrappers
  import opened Backoff

  /** `limit` is max_retries, with 0 for undefined; `delay` is the wait after a given number of attempts. */
  datatype Options = Options(limit: int, hasSignal: bool, delay: nat -> real)

  /** The options of a scheduler with a configured back-off. */
  function Configured(c: Config, limit: int, hasSignal: bool): Options {
    Options(limit, hasSignal, (attempt: nat) => Delay(c, attempt))
  }

  predicate IsExhausted(o: Options, attempt: nat) {
    o.limit > 0 && attempt >= o.limit
  }

  /** How one call of the task ends. RejectedAbort is a rejection with an AbortError. */
  datatype TaskResult = Resolved | Rejected(err: Cause) | RejectedAbort | NeverSettles

  /** Calls that other code makes during one await. */
  datatype Call = CallStop | CallAbort | CallReset

  type Calls = set<Call>

  datatype Round = Round(result: TaskResult, inTask: Calls, inWait: Calls)

  /** Quit is the silent return after a stop, Waiting an await that has not ended. */
  datatype Outcome = Success | Threw(err: Cause) | ThrewAbort | Quit | Waiting

  datatype Event =
    | Started(attempt: nat) | StopCalled | AbortCalled | ResetCalled
    | OnRetry(attempt: nat, err: Cause) | OnExhausted(attempt: nat, err: Cause) | Slept(delay: real)

  /** The attempt counter, the stop flag and the state of the abort signal. */
  datatype Sched = Sched(attempt: nat, stopped: bool, aborted: bool) {

    function After(c: Calls): Sched {
      Sched(if CallReset in c then 0 else attempt, stopped || CallStop in c, aborted || CallAbort in c)
    }
  }

  const FRESH := Sched(0, false, false)

  function EventsOf(c: Calls): seq<Event> {
    (if CallStop in c then [StopCalled] else []) + (if CallAbort in c then [AbortCalled] else []) +
    (if CallReset in c then [ResetCalled] else [])
  }

  /** Does `sleep` reject, given the signal before and during it? Without a positive delay it never looks. */
  predicate SleepRejects(o: Options, delay: real, aborted: bool) {
    delay > 0.0 && o.hasSignal && aborted
  }

  /** After a failed attempt that was not the last, does the scheduler get to sleep at all? */
  predicate Waits(o: Options, s: Sched) {
    !IsExhausted(o, s.attempt) && !SleepRejects(o, o.delay(s.attempt), s.aborted)
  }

  /** How a failed attempt ends the run, if it does. */
  function AfterFailure(o: Options, s: Sched, inWait: Calls, err: Cause): Option<Outcome> {
    if IsExhausted(o, s.attempt) then Some(Threw(err))
    else if SleepRejects(o, o.delay(s.attempt), s.aborted || CallAbort in inWait) then Some(ThrewAbort)
    else None
  }

  /** One attempt and, unless it was the last, the sleep behind it. */
  datatype Step = Step(s: Sched, over: Option<Outcome>, trace: seq<Event>)

  function OverOf(o: Options, s: Sched, r: Round): Option<Outcome> {
    match r.result
    case Resolved => Some(Success)
    case RejectedAbort => Some(ThrewAbort)
    case NeverSettles => Some(Waiting)
    case Rejected(err) => AfterFailure(o, s, r.inWait, err)
  }

  /** The scheduler's own callbacks and its sleep. */
  function OwnEvents(o: Options, s: Sched, r: TaskResult): seq<Event> {
    if !r.Rejected? then []
    else if IsExhausted(o, s.attempt) then [OnExhausted(s.attempt, r.err)]
    else [OnRetry(s.attempt, r.err), Slept(o.delay(s.attempt))]
  }

  function RoundOf(o: Options, s: Sched, r: Round): Step {
    var s2 := s.(attempt := s.attempt + 1).After(r.inTask);
    var inWait := if r.result.Rejected? && Waits(o, s2) then r.inWait else {};
    Step(s2.After(inWait), OverOf(o, s2, r),
         [Started(s.attempt + 1)] + EventsOf(r.inTask) + OwnEvents(o, s2, r.result) + EventsOf(inWait))
  }

  datatype Run = Run(s: Sched, outcome: Outcome, trace: seq<Event>) {

    function Behind(earlier: seq<Event>): Run {
      Run(s, outcome, earlier + trace)
    }
  }

  /** A whole run from scheduler state `s`. */
  function RunFrom(o: Options, s: Sched, rounds: seq<Round>): Run
    decreases |rounds|
  {
    if s.stopped then Run(s, Quit, [])
    else if rounds == [] then Run(s.(attempt := s.attempt + 1), Waiting, [Started(s.attempt + 1)])
    else
      var step := RoundOf(o, s, rounds[0]);
      match step.over
      case Some(outcome) => Run(step.s, outcome, step.trace)
      case None => RunFrom(o, step.s, rounds[1..]).Behind(step.trace)
  }

  lemma {:induction false} NextRound(o: Options, s: Sched, rounds: seq<Round>, i: nat)
    requires !s.stopped && i < |rounds|
    ensures var step := RoundOf(o, s, rounds[i]);
            RunFrom(o, s, rounds[i..]) ==
            match step.over
            case Some(outcome) => Run(step.s, outcome, step.trace)
            case None => RunFrom(o, step.s, rounds[i + 1..]).Behind(step.trace)
  {
    assert rounds[i..][1..] == rounds[i + 1..];
  }

  lemma {:induction false} BehindBehind(run: Run, t: seq<Event>, u: seq<Event>)
    ensures run.Behind(u).Behind(t) == run.Behind(t + u)
  {
  }

  /** The run is what was done so far, and then a run from here. */
  ghost predicate Ahead(o: Options, s: Sched, rounds: seq<Round>, i: nat, trace: seq<Event>, whole: Run) {
    i <= |rounds| && whole == RunFrom(o, s, rounds[i..]).Behind(trace)
  }

  lemma {:induction false} LoopTurn(o: Options, s: Sched, rounds: seq<Round>, i: nat, trace: seq<Event>, whole: Run, step: Step)
    requires !s.stopped && i < |rounds| && Ahead(o, s, rounds, i, trace, whole) && step == RoundOf(o, s, rounds[i])
    ensures step.over.Some? ==> whole == Run(step.s, step.over.value, trace + step.trace)
    ensures step.over.None? ==> Ahead(o, step.s, rounds, i + 1, trace + step.trace, whole)
  {
    NextRound(o, s, rounds, i);
    if step.over.None? {
      BehindBehind(RunFrom(o, step.s, rounds[i + 1..]), trace, step.trace);
    }
  }

  lemma {:induction false} LoopEnds(o: Options, s: Sched, rounds: seq<Round>, i: nat, trace: seq<Event>, whole: Run)
    requires Ahead(o, s, rounds, i, trace, whole)
    ensures s.stopped ==> whole == Run(s, Quit, trace)
    ensures !s.stopped && i == |rounds| ==>
              whole == Run(s.(attempt := s.attempt + 1), Waiting, trace + [Started(s.attempt + 1)])
  {
    assert trace + [] == trace;
  }

  class RetryScheduler {
    const options: Options
    var attempt: nat
    var stopped: bool
    var aborted: bool

    function State(): Sched
      reads this
    {
      Sched(attempt, stopped, aborted)
    }

    constructor (options: Options)
      ensures this.options == options && State() == FRESH
    {
      this.options := options;
      attempt, stopped, aborted := 0, false, false;
    }

    method Reset()
      modifies this`attempt
      ensures State() == old(State()).After({CallReset})
    {
      attempt := 0;
    }

    method Stop()
      modifies this`stopped
      ensures State() == old(State()).After({CallStop})
    {
      stopped := true;
    }

    /** The abort controller behind the signal fires. */
    method Abort()
      modifies this`aborted
      ensures State() == old(State()).After({CallAbort})
    {
      aborted := true;
    }

    /** Other code runs during an await. */
    method Interleave(c: Calls)
      modifies this
      ensures State() == old(State()).After(c)
    {
      if CallStop in c {
        Stop();
      }
      if CallAbort in c {
        Abort();
      }
      if CallReset in c {
        Reset();
      }
    }

    method Attempt(round: Round) returns (over: Option<Outcome>, trace: seq<Event>)
      modifies this
      ensures Step(State(), over, trace) == RoundOf(options, old(State()), round)
    {
      attempt := attempt + 1;
      trace := [Started(attempt)];
      Interleave(round.inTask);
      trace := trace + EventsOf(round.inTask);
      match round.result {
        case Resolved => return Some(Success), trace;
        case RejectedAbort => return Some(ThrewAbort), trace;
        case NeverSettles => return Some(Waiting), trace;
        case Rejected(err) =>
          trace := trace + OwnEvents(options, State(), round.result);
          if IsExhausted(options, attempt) {
            return Some(Threw(err)), trace;
          }
          var delay := options.delay(attempt);
          if SleepRejects(options, delay, aborted) {
            return Some(ThrewAbort), trace;
          }
          Interleave(round.inWait);
          trace := trace + EventsOf(round.inWait);
          over := if SleepRejects(options, delay, CallAbort in round.inWait) then Some(ThrewAbort) else None;
      }
    }

    method DoRun(rounds: seq<Round>) returns (outcome: Outcome, trace: seq<Event>)
      modifies this
      ensures Run(State(), outcome, trace) == RunFrom(options, old(State()), rounds)
    {
      trace := [];
      var i := 0;
      ghost var whole := RunFrom(options, State(), rounds);
      assert rounds[0..] == rounds;
      while !stopped
        invariant 0 <= i <= |rounds| && Ahead(options, State(), rounds, i, trace, whole)
        decreases |rounds| - i, !stopped
      {
        LoopEnds(options, State(), rounds, i, trace, whole);
        if i == |rounds| {
          attempt := attempt + 1;
          return Waiting, trace + [Started(attempt)];
        }
        ghost var before := State();
        var over, more := Attempt(rounds[i]);
        LoopTurn(options, before, rounds, i, trace, whole, Step(State(), over, more));
        if over.Some? {
          return over.value, trace + more;
        }
        trace, i := trace + more, i + 1;
      }
      LoopEnds(options, State(), rounds, i, trace, whole);
      outcome := Quit;
    }
  }

  // ---- exact attempt counts ----

  datatype Kind = Starts | Retries | Exhaustions

  function One(k: Kind, e: Event): nat {
    if e.Started? && k.Starts? then 1
    else if e.OnRetry? && k.Retries? then 1
    else if e.OnExhausted? && k.Exhaustions? then 1
    else 0
  }

  /** How often the task started, or one of the callbacks ran. */
  function Count(k: Kind, t: seq<Event>): nat {
    if t == [] then 0 else One(k, t[0]) + Count(k, t[1..])
  }

  function TimeSlept(t: seq<Event>): real {
    if t == [] then 0.0 else (if t[0].Slept? then t[0].delay else 0.0) + TimeSlept(t[1..])
  }

  lemma {:induction false} CountAppend(k: Kind, t: seq<Event>, u: seq<Event>)
    ensures Count(k, t + u) == Count(k, t) + Count(k, u)
  {
    if t == [] {
      assert t + u == u;
    } else {
      assert (t + u)[1..] == t[1..] + u;
      CountAppend(k, t[1..], u);
    }
  }

  lemma {:induction false} SleptAppend(t: seq<Event>, u: seq<Event>)
    ensures TimeSlept(t + u) == TimeSlept(t) + TimeSlept(u)
  {
    if t == [] {
      assert t + u == u;
    } else {
      assert (t + u)[1..] == t[1..] + u;
      SleptAppend(t[1..], u);
    }
  }

  /** The run had these numbers of starts, retry callbacks and exhaustion callbacks. */
  ghost predicate Tally(t: seq<Event>, starts: int, retries: int, exhaustions: int) {
    Count(Starts, t) == starts && Count(Retries, t) == retries && Count(Exhaustions, t) == exhaustions
  }

  lemma {:induction false} TallyAppend(t: seq<Event>, u: seq<Event>, s: int, r: int, x: int, s': int, r': int, x': int)
    requires Tally(t, s, r, x) && Tally(u, s', r', x')
    ensures Tally(t + u, s + s', r + r', x + x')
  {
    CountAppend(Starts, t, u);
    CountAppend(Retries, t, u);
    CountAppend(Exhaustions, t, u);
  }

  /** All waits after attempts 1 to n. */
  function TotalWait(o: Options, n: nat): real {
    if n == 0 then 0.0 else TotalWait(o, n - 1) + o.delay(n)
  }

  /** Nobody interferes, and every attempt either resolves or fails with an ordinary error. */
  ghost predicate QuietRound(r: Round) {
    r.inTask == r.inWait == {} && (r.result.Resolved? || r.result.Rejected?)
  }

  ghost predicate Quiet(rounds: seq<Round>) {
    forall i :: 0 <= i < |rounds| ==> QuietRound(rounds[i])
  }

  /** How many rounds fail before the first success. */
  function Failures(rounds: seq<Round>): (f: nat)
    ensures f <= |rounds|
    ensures forall i :: 0 <= i < f ==> !rounds[i].result.Resolved?
    ensures f < |rounds| ==> rounds[f].result.Resolved?
  {
    if rounds == [] || rounds[0].result.Resolved? then 0 else 1 + Failures(rounds[1..])
  }

  /** The events of a quiet round. */
  function QuietTrace(o: Options, a: nat, result: TaskResult): seq<Event>
    requires result.Resolved? || result.Rejected?
  {
    if result.Resolved? then [Started(a)]
    else if IsExhausted(o, a) then [Started(a), OnExhausted(a, result.err)]
    else [Started(a), OnRetry(a, result.err), Slept(o.delay(a))]
  }

  lemma {:induction false} QuietRoundIs(o: Options, s: Sched, r: Round)
    requires QuietRound(r) && !s.aborted
    ensures var a := s.attempt + 1;
            RoundOf(o, s, r) == Step(
              s.(attempt := a),
              if r.result.Resolved? then Some(Success)
              else if IsExhausted(o, a) then Some(Threw(r.result.err)) else None,
              QuietTrace(o, a, r.result))
  {
    var a := s.attempt + 1;
    var started := [Started(a)];
    assert started + EventsOf({}) == started;
    if r.result.Rejected? {
      var retry := [OnRetry(a, r.result.err), Slept(o.delay(a))];
      assert started + retry + EventsOf({}) == [Started(a), OnRetry(a, r.result.err), Slept(o.delay(a))];
    }
  }

  lemma {:induction false} TallySingle(e: Event)
    ensures Tally([e], One(Starts, e), One(Retries, e), One(Exhaustions, e))
    ensures TimeSlept([e]) == if e.Slept? then e.delay else 0.0
  {
    assert [e][1..] == [];
  }

  lemma {:induction false} QuietTally(o: Options, a: nat, result: TaskResult)
    requires result.Resolved? || result.Rejected?
    ensures var t, last := QuietTrace(o, a, result), result.Resolved? || IsExhausted(o, a);
            Tally(t, 1, if last then 0 else 1, if last && result.Rejected? then 1 else 0) &&
            TimeSlept(t) == if last then 0.0 else o.delay(a)
  {
    TallySingle(Started(a));
    if result.Rejected? {
      if IsExhausted(o, a) {
        var e := OnExhausted(a, result.err);
        TallySingle(e);
        TallyAppend([Started(a)], [e], 1, 0, 0, 0, 0, 1);
        SleptAppend([Started(a)], [e]);
      } else {
        var e, w := OnRetry(a, result.err), Slept(o.delay(a));
        TallySingle(e);
        TallySingle(w);
        TallyAppend([Started(a)], [e], 1, 0, 0, 0, 1, 0);
        TallyAppend([Started(a)] + [e], [w], 1, 1, 0, 0, 0, 0);
        SleptAppend([Started(a)], [e]);
        SleptAppend([Started(a)] + [e], [w]);
        assert QuietTrace(o, a, result) == [Started(a)] + [e] + [w];
      }
    }
  }

  /** The first round of a quiet run, and the run behind it. */
  lemma {:induction false} QuietStep(o: Options, s: Sched, rounds: seq<Round>)
    requires rounds != [] && QuietRound(rounds[0]) && !s.stopped && !s.aborted
    ensures var s', r := s.(attempt := s.attempt + 1), rounds[0].result;
            var trace := QuietTrace(o, s'.attempt, r);
            RunFrom(o, s, rounds) ==
            if r.Resolved? then Run(s', Success, trace)
            else if IsExhausted(o, s'.attempt) then Run(s', Threw(r.err), trace)
            else RunFrom(o, s', rounds[1..]).Behind(trace)
  {
    QuietRoundIs(o, s, rounds[0]);
  }

  /** A quiet run with a limit, from any attempt count below it: the task runs once more than it fails, up to the limit. */
  lemma {:induction false} QuietRun(o: Options, s: Sched, rounds: seq<Round>)
    requires Quiet(rounds) && !s.stopped && !s.aborted && s.attempt < o.limit
    requires Failures(rounds) < |rounds| || s.attempt + |rounds| >= o.limit
    ensures var run, left, f := RunFrom(o, s, rounds), o.limit - s.attempt, Failures(rounds);
            var n := if f < left then f + 1 else left;
            Tally(run.trace, n, n - 1, if f < left then 0 else 1) && run.s == s.(attempt := s.attempt + n) &&
            run.outcome == if f < left then Success else Threw(rounds[left - 1].result.err)
    decreases |rounds|
  {
    var s', r := s.(attempt := s.attempt + 1), rounds[0].result;
    assert QuietRound(rounds[0]);
    QuietStep(o, s, rounds);
    QuietTally(o, s'.attempt, r);
    if r.Rejected? && !IsExhausted(o, s'.attempt) {
      QuietRun(o, s', rounds[1..]);
      var rest, left, f := RunFrom(o, s', rounds[1..]), o.limit - s'.attempt, Failures(rounds[1..]);
      var n, x := if f < left then f + 1 else left, if f < left then 0 else 1;
      TallyAppend(QuietTrace(o, s'.attempt, r), rest.trace, 1, 1, 0, n, n - 1, x);
    }
  }

  lemma {:induction false} QuietSlept(o: Options, a: nat, result: TaskResult)
    requires result.Resolved? || result.Rejected?
    ensures TimeSlept(QuietTrace(o, a, result)) == if result.Resolved? || IsExhausted(o, a) then 0.0 else o.delay(a)
  {
    QuietTally(o, a, result);
  }

  lemma {:induction false} TimeStep(o: Options, a: nat, first: seq<Event>, rest: seq<Event>, last: nat)
    requires a > 0 && TimeSlept(first) == o.delay(a)
    requires TimeSlept(rest) == TotalWait(o, last) - TotalWait(o, a)
    ensures TimeSlept(first + rest) == TotalWait(o, last) - TotalWait(o, a - 1)
  {
    SleptAppend(first, rest);
  }

  /** A run has slept exactly after the attempts it left behind. */
  ghost predicate SleptBetween(o: Options, s: Sched, run: Run) {
    run.s.attempt > s.attempt && TimeSlept(run.trace) == TotalWait(o, run.s.attempt - 1) - TotalWait(o, s.attempt)
  }

  lemma {:induction false} LastSlept(o: Options, s: Sched, rounds: seq<Round>)
    requires Quiet(rounds) && !s.stopped && !s.aborted
    requires rounds != [] ==> rounds[0].result.Resolved? || IsExhausted(o, s.attempt + 1)
    ensures SleptBetween(o, s, RunFrom(o, s, rounds))
  {
    if rounds == [] {
      TallySingle(Started(s.attempt + 1));
    } else {
      assert QuietRound(rounds[0]);
      QuietStep(o, s, rounds);
      QuietSlept(o, s.attempt + 1, rounds[0].result);
    }
  }

  lemma {:induction false} OneMoreSlept(o: Options, s: Sched, next: Sched, first: seq<Event>, rest: Run)
    requires next.attempt == s.attempt + 1 && TimeSlept(first) == o.delay(next.attempt) && SleptBetween(o, next, rest)
    ensures SleptBetween(o, s, rest.Behind(first))
  {
    TimeStep(o, next.attempt, first, rest.trace, rest.s.attempt - 1);
  }

  /** The sleeps of a quiet run are the delays of the attempts it leaves behind. */
  lemma {:induction false} QuietTime(o: Options, s: Sched, rounds: seq<Round>)
    requires Quiet(rounds) && !s.stopped && !s.aborted
    ensures SleptBetween(o, s, RunFrom(o, s, rounds))
    decreases |rounds|
  {
    if rounds == [] || rounds[0].result.Resolved? || IsExhausted(o, s.attempt + 1) {
      LastSlept(o, s, rounds);
    } else {
      var s', r := s.(attempt := s.attempt + 1), rounds[0].result;
      assert QuietRound(rounds[0]);
      QuietStep(o, s, rounds);
      QuietSlept(o, s'.attempt, r);
      QuietTime(o, s', rounds[1..]);
      OneMoreSlept(o, s, s', QuietTrace(o, s'.attempt, r), RunFrom(o, s', rounds[1..]));
    }
  }

  /** A fresh scheduler with limit n > 0 left alone: exactly min(first success, n) attempts, one retry callback per
      non-final failure, the exhaustion callback exactly when all n fail, and a sleep for each attempt left behind. */
  lemma {:induction false} FreshRun(o: Options, rounds: seq<Round>)
    requires o.limit > 0 && Quiet(rounds) && (Failures(rounds) < |rounds| || |rounds| >= o.limit)
    ensures var run, f := RunFrom(o, FRESH, rounds), Failures(rounds);
            var n := if f < o.limit then f + 1 else o.limit;
            Tally(run.trace, n, n - 1, if f < o.limit then 0 else 1) &&
            TimeSlept(run.trace) == TotalWait(o, n - 1) &&
            run.outcome == if f < o.limit then Success else Threw(rounds[o.limit - 1].result.err)
  {
    var run, f := RunFrom(o, FRESH, rounds), Failures(rounds);
    QuietRun(o, FRESH, rounds);
    QuietTime(o, FRESH, rounds);
    assert run.s.attempt == if f < o.limit then f + 1 else o.limit;
  }

  lemma {:induction false} ConfiguredTotal(c: Config, limit: int, hasSignal: bool, n: nat)
    ensures TotalWait(Configured(c, limit, hasSignal), n) == TotalDelay(c, n)
  {
    if n > 0 {
      ConfiguredTotal(c, limit, hasSignal, n - 1);
    }
  }

  lemma {:induction false} ExhaustedRun(c: Config, limit: nat, hasSignal: bool, rounds: seq<Round>)
    requires limit > 0 && Quiet(rounds) && Failures(rounds) >= limit
    ensures var run := RunFrom(Configured(c, limit, hasSignal), FRESH, rounds);
            run.outcome == Threw(rounds[limit - 1].result.err) && TimeSlept(run.trace) == TotalDelay(c, limit - 1)
  {
    FreshRun(Configured(c, limit, hasSignal), rounds);
    ConfiguredTotal(c, limit, hasSignal, limit - 1);
  }

  /** The time slept in an exhausted run: a geometric sum while uncapped, then the cap, and (n - 1) caps at most. */
  ghost predicate SaturatedTime(c: Config, waits: nat, s: nat, time: real) {
    Saturates(c, waits, s) && time == Geometric(c, s) + Times(c.maxDelay, (waits - s) as real) &&
    time <= Times(c.maxDelay, waits as real)
  }

  lemma {:induction false} TotalSaturates(c: Config, waits: nat, time: real) returns (s: nat)
    requires c.enabled && c.interval >= 0.0 && time == TotalDelay(c, waits)
    ensures SaturatedTime(c, waits, s, time)
  {
    s := TotalIsGeometricThenCap(c, waits);
  }

  /** A fresh scheduler whose n attempts all fail throws the last error after n - 1 such waits. */
  lemma {:induction false} ExhaustionTime(c: Config, limit: nat, hasSignal: bool, rounds: seq<Round>) returns (s: nat)
    requires c.enabled && c.interval >= 0.0 && limit > 0 && Quiet(rounds) && Failures(rounds) >= limit
    ensures var run := RunFrom(Configured(c, limit, hasSignal), FRESH, rounds);
            run.outcome == Threw(rounds[limit - 1].result.err) &&
            SaturatedTime(c, limit - 1, s, TimeSlept(run.trace))
  {
    s := TotalSaturates(c, limit - 1, TotalDelay(c, limit - 1));
    ExhaustedRun(c, limit, hasSignal, rounds);
  }

  /** Without a limit a quiet run never gives up: it succeeds at the first success or is still waiting. */
  lemma {:induction false} UnlimitedRun(o: Options, s: Sched, rounds: seq<Round>)
    requires o.limit <= 0 && Quiet(rounds) && !s.stopped && !s.aborted
    ensures var run, f := RunFrom(o, s, rounds), Failures(rounds);
            Tally(run.trace, f + 1, f, 0) && run.outcome == if f < |rounds| then Success else Waiting
    decreases |rounds|
  {
    if rounds == [] {
      TallySingle(Started(s.attempt + 1));
    } else {
      var s', r := s.(attempt := s.attempt + 1), rounds[0].result;
      assert QuietRound(rounds[0]);
      QuietStep(o, s, rounds);
      QuietTally(o, s'.attempt, r);
      if r.Rejected? {
        UnlimitedRun(o, s', rounds[1..]);
        var rest, f := RunFrom(o, s', rounds[1..]), Failures(rounds[1..]);
        TallyAppend(QuietTrace(o, s'.attempt, r), rest.trace, 1, 1, 0, f + 1, f, 0);
      }
    }
  }

  // ---- the events of a run ----

  /** A fresh scheduler behind some failed attempts that nothing disturbed. */
  function FailedBefore(failures: nat): Sched {
    Sched(failures, false, false)
  }

  /** The events of n failed attempts: each is followed by its own callback and its own sleep. */
  function FailureEvents(o: Options, rounds: seq<Round>, n: nat): seq<Event>
    requires n <= |rounds| && forall i :: 0 <= i < n ==> rounds[i].result.Rejected?
  {
    if n == 0 then []
    else FailureEvents(o, rounds, n - 1) + [Started(n), OnRetry(n, rounds[n - 1].result.err), Slept(o.delay(n))]
  }

  /** Undisturbed failures before the last allowed attempt leave these events behind, and then the run goes on. */
  lemma {:induction false} QuietEvents(o: Options, rounds: seq<Round>, n: nat)
    requires n <= |rounds| && forall i :: 0 <= i < n ==> QuietRound(rounds[i]) && rounds[i].result.Rejected?
    requires o.limit <= 0 || n < o.limit || n == 0
    ensures RunFrom(o, FRESH, rounds) == RunFrom(o, FailedBefore(n), rounds[n..]).Behind(FailureEvents(o, rounds, n))
  {
    if n == 0 {
      assert rounds[0..] == rounds;
      assert RunFrom(o, FRESH, rounds).Behind([]) == RunFrom(o, FRESH, rounds) by {
        assert [] + RunFrom(o, FRESH, rounds).trace == RunFrom(o, FRESH, rounds).trace;
      }
    } else {
      QuietEvents(o, rounds, n - 1);
      var s, rest := FailedBefore(n - 1), rounds[n - 1..];
      assert rest[0] == rounds[n - 1] && rest[1..] == rounds[n..];
      QuietStep(o, s, rest);
      assert s.(attempt := s.attempt + 1) == FailedBefore(n);
      BehindBehind(RunFrom(o, FailedBefore(n), rounds[n..]), FailureEvents(o, rounds, n - 1),
                   [Started(n), OnRetry(n, rounds[n - 1].result.err), Slept(o.delay(n))]);
    }
  }

  /** The events of the last attempt of such a run. */
  lemma {:induction false} LastEvents(o: Options, n: nat, rest: seq<Round>)
    requires rest != [] && QuietRound(rest[0]) && (rest[0].result.Resolved? || IsExhausted(o, n + 1))
    ensures RunFrom(o, FailedBefore(n), rest).trace ==
            if rest[0].result.Resolved? then [Started(n + 1)]
            else [Started(n + 1), OnExhausted(n + 1, rest[0].result.err)]
  {
    QuietStep(o, FailedBefore(n), rest);
  }

  /** All events of a fresh scheduler with a limit that is left alone, in order: failed attempts with their callbacks and
      sleeps, and a last attempt that succeeds or is followed by the exhaustion callback with its error. */
  lemma {:induction false} FreshEvents(o: Options, rounds: seq<Round>)
    requires o.limit > 0 && Quiet(rounds) && (Failures(rounds) < |rounds| || |rounds| >= o.limit)
    ensures var trace, f := RunFrom(o, FRESH, rounds).trace, Failures(rounds);
            if f < o.limit then trace == FailureEvents(o, rounds, f) + [Started(f + 1)]
            else
              trace == FailureEvents(o, rounds, o.limit - 1) +
                       [Started(o.limit), OnExhausted(o.limit, rounds[o.limit - 1].result.err)]
  {
    var f := Failures(rounds);
    var n := if f < o.limit then f else o.limit - 1;
    forall i | 0 <= i < |rounds|
      ensures QuietRound(rounds[i]) && (i < f ==> rounds[i].result.Rejected?)
    {
    }
    QuietEvents(o, rounds, n);
    var rest := rounds[n..];
    assert rest[0] == rounds[n];
    LastEvents(o, n, rest);
    assert RunFrom(o, FRESH, rounds).trace == FailureEvents(o, rounds, n) + RunFrom(o, FailedBefore(n), rest).trace;
  }

  // ---- what one attempt decides ----

  /** The attempts since the start or the last reset, behind an attempt with these calls. */
  function AttemptsBehind(attempt: nat, calls: Calls): nat {
    if CallReset in calls then 0 else attempt + 1
  }

  predicate UsedUp(limit: int, attempts: nat) {
    0 < limit <= attempts
  }

  /** However a run has got to an attempt: a task that resolves, throws an abort error or never settles ends it, and so
      does an ordinary error if the attempts are used up or an abort is heard by the sleep; after any other error the run
      goes on, unless it was stopped. */
  lemma {:induction false} AttemptDecides(o: Options, s: Sched, rounds: seq<Round>)
    requires !s.stopped && rounds != []
    ensures var r, run := rounds[0], RunFrom(o, s, rounds); var n := AttemptsBehind(s.attempt, r.inTask);
            var aborts := s.aborted || CallAbort in r.inTask || CallAbort in r.inWait;
            match r.result
            case Resolved => run.outcome == Success
            case RejectedAbort => run.outcome == ThrewAbort && run.trace == [Started(s.attempt + 1)] + EventsOf(r.inTask)
            case NeverSettles => run.outcome == Waiting
            case Rejected(err) =>
              if UsedUp(o.limit, n) then run.outcome == Threw(err)
              else if o.hasSignal && o.delay(n) > 0.0 && aborts then run.outcome == ThrewAbort
              else if CallStop in r.inTask || CallStop in r.inWait then run.outcome == Quit
              else
                run.outcome == RunFrom(o, Sched(if CallReset in r.inWait then 0 else n, false, aborts), rounds[1..]).outcome
  {
    var step := RoundOf(o, s, rounds[0]);
    RoundEvents(o, s, rounds[0]);
  }

  lemma {:induction false} RoundEvents(o: Options, s: Sched, r: Round)
    ensures r.result.RejectedAbort? ==> RoundOf(o, s, r).trace == [Started(s.attempt + 1)] + EventsOf(r.inTask)
  {
    if r.result.RejectedAbort? {
      var t := [Started(s.attempt + 1)] + EventsOf(r.inTask);
      assert t + [] + EventsOf({}) == t;
    }
  }

  /** An abort error thrown by the task is thrown again, wherever in a run it happens, and nothing happens behind it. */
  lemma {:induction false} AbortErrorIsRethrown(o: Options, s: Sched, rounds: seq<Round>, i: nat, trace: seq<Event>, whole: Run)
    requires !s.stopped && i < |rounds| && Ahead(o, s, rounds, i, trace, whole) && rounds[i].result.RejectedAbort?
    ensures whole.outcome == ThrewAbort && whole.trace == trace + ([Started(s.attempt + 1)] + EventsOf(rounds[i].inTask))
  {
    AttemptDecides(o, s, rounds[i..]);
  }

  /** A stopped scheduler runs nothing and returns quietly. */
  lemma {:induction false} StoppedQuits(o: Options, s: Sched, rounds: seq<Round>)
    requires s.stopped
    ensures RunFrom(o, s, rounds) == Run(s, Quit, [])
  {
  }

  // ---- stop and abort ----

  ghost predicate NoStart(t: seq<Event>) {
    forall i :: 0 <= i < |t| ==> !t[i].Started?
  }

  /** No attempt starts behind the event. */
  ghost predicate NoStartAfter(t: seq<Event>, e: Event) {
    forall i :: 0 <= i < |t| && t[i] == e ==> NoStart(t[i + 1..])
  }

  lemma {:induction false} NoStartAppend(t: seq<Event>, u: seq<Event>, e: Event)
    requires t != [] && NoStart(t[1..]) && NoStartAfter(u, e) && (e in t ==> NoStart(u))
    ensures NoStartAfter(t + u, e)
  {
    forall i | 0 <= i < |t + u| && (t + u)[i] == e
      ensures NoStart((t + u)[i + 1..])
    {
      if i < |t| {
        assert e in t && (t + u)[i + 1..] == t[1..][i..] + u;
      } else {
        assert (t + u)[i + 1..] == u[i - |t| + 1..];
      }
    }
  }

  lemma {:induction false} EventsOfCalls(c: Calls)
    ensures NoStart(EventsOf(c))
    ensures (StopCalled in EventsOf(c) <==> CallStop in c) && (AbortCalled in EventsOf(c) <==> CallAbort in c)
  {
  }

  lemma {:induction false} NoStartJoin(t: seq<Event>, u: seq<Event>)
    requires NoStart(t) && NoStart(u)
    ensures NoStart(t + u)
  {
  }

  lemma {:induction false} FourParts(start: Event, task: Calls, own: seq<Event>, wait: seq<Event>)
    requires NoStart(own) && StopCalled !in own && AbortCalled !in own && NoStart(wait)
    ensures var t := [start] + EventsOf(task) + own + wait;
            t[0] == start && NoStart(t[1..]) &&
            (start.Started? && StopCalled in t ==> CallStop in task || StopCalled in wait) &&
            (start.Started? && AbortCalled in t ==> CallAbort in task || AbortCalled in wait)
  {
    EventsOfCalls(task);
    var events := EventsOf(task);
    NoStartJoin(events, own);
    NoStartJoin(events + own, wait);
    var t := [start] + events + own + wait;
    assert t[1..] == events + own + wait;
    assert forall e :: e in t ==> e == start || e in events || e in own || e in wait;
  }

  lemma {:induction false} OwnEventsAreOwn(o: Options, s: Sched, r: TaskResult)
    ensures NoStart(OwnEvents(o, s, r)) && StopCalled !in OwnEvents(o, s, r) && AbortCalled !in OwnEvents(o, s, r)
  {
  }

  /** A round starts one attempt, first; a stop or an abort in it is in the scheduler state behind it. */
  lemma {:induction false} RoundTrace(o: Options, s: Sched, r: Round)
    ensures var step := RoundOf(o, s, r);
            step.trace[0] == Started(s.attempt + 1) && NoStart(step.trace[1..]) &&
            (StopCalled in step.trace ==> step.s.stopped) &&
            (AbortCalled in step.trace ==> step.s.aborted)
  {
    var s2 := s.(attempt := s.attempt + 1).After(r.inTask);
    var inWait := if r.result.Rejected? && Waits(o, s2) then r.inWait else {};
    EventsOfCalls(inWait);
    OwnEventsAreOwn(o, s2, r.result);
    FourParts(Started(s.attempt + 1), r.inTask, OwnEvents(o, s2, r.result), EventsOf(inWait));
  }

  lemma {:induction false} AbortedRoundIsLast(o: Options, s: Sched, r: Round)
    requires Responsive(o)
    ensures RoundOf(o, s, r).s.aborted ==> RoundOf(o, s, r).over.Some?
  {
  }

  /** Whatever the environment does, no attempt starts after stop. */
  lemma {:induction false} StopEndsAttempts(o: Options, s: Sched, rounds: seq<Round>)
    ensures NoStartAfter(RunFrom(o, s, rounds).trace, StopCalled)
    decreases |rounds|
  {
    if !s.stopped && rounds != [] {
      var step := RoundOf(o, s, rounds[0]);
      RoundTrace(o, s, rounds[0]);
      var rest := if step.over.Some? then [] else RunFrom(o, step.s, rounds[1..]).trace;
      if step.over.None? {
        StopEndsAttempts(o, step.s, rounds[1..]);
      }
      NoStartAppend(step.trace, rest, StopCalled);
      assert RunFrom(o, s, rounds).trace == step.trace + rest;
    }
  }

  /** The scheduler listens to the signal whenever it sleeps. */
  ghost predicate Responsive(o: Options) {
    o.hasSignal && forall k: nat :: IsExhausted(o, k) || o.delay(k) > 0.0
  }

  lemma {:induction false} AbortEndsAttempts(o: Options, s: Sched, rounds: seq<Round>)
    requires Responsive(o)
    ensures NoStartAfter(RunFrom(o, s, rounds).trace, AbortCalled)
    decreases |rounds|
  {
    if !s.stopped && rounds != [] {
      var step := RoundOf(o, s, rounds[0]);
      RoundTrace(o, s, rounds[0]);
      AbortedRoundIsLast(o, s, rounds[0]);
      var rest := if step.over.Some? then [] else RunFrom(o, step.s, rounds[1..]).trace;
      if step.over.None? {
        AbortEndsAttempts(o, step.s, rounds[1..]);
      }
      NoStartAppend(step.trace, rest, AbortCalled);
      assert RunFrom(o, s, rounds).trace == step.trace + rest;
    }
  }

  /** A round that is aborted while its task runs, at attempt count k behind it. */
  lemma {:induction false} AbortInTask(o: Options, k: nat) returns (round: Round)
    requires !IsExhausted(o, k) && (!o.hasSignal || o.delay(k) <= 0.0)
    ensures var step := RoundOf(o, FailedBefore(if k == 0 then 0 else k - 1), round);
            step.over == None && step.s == Sched(k, false, true) && |step.trace| > 1 && step.trace[1] == AbortCalled
  {
    var calls := {CallAbort} + if k == 0 then {CallReset} else {};
    round := Round(Rejected(Cause("failed")), calls, {});
    assert EventsOf(calls)[0] == AbortCalled;
  }

  lemma {:induction false} RunOne(o: Options, s: Sched, round: Round)
    requires !s.stopped && RoundOf(o, s, round).over == None && !RoundOf(o, s, round).s.stopped
    ensures var step := RoundOf(o, s, round);
            RunFrom(o, s, [round]).trace == step.trace + [Started(step.s.attempt + 1)]
  {
    assert [round][1..] == [];
  }

  /** At place i the run is aborted, and at place j an attempt starts. */
  predicate StartsBehindAbort(t: seq<Event>, i: nat, j: nat) {
    i < j < |t| && t[i] == AbortCalled && t[j].Started?
  }

  lemma {:induction false} BehindAbortIsAfter(t: seq<Event>, i: nat, j: nat)
    requires StartsBehindAbort(t, i, j)
    ensures !NoStartAfter(t, AbortCalled)
  {
    assert t[i + 1..][j - i - 1] == t[j];
  }

  lemma {:induction false} FailsQuietly(o: Options, j: nat, round: Round)
    requires !IsExhausted(o, j + 1) && round == Round(Rejected(Cause("failed")), {}, {})
    ensures RoundOf(o, FailedBefore(j), round).over == None && RoundOf(o, FailedBefore(j), round).s == FailedBefore(j + 1)
  {
  }

  /** At attempt count k the sleep ignores the signal, so an aborted run starts its task again. */
  lemma {:induction false} AbortIgnored(o: Options, k: nat) returns (rounds: seq<Round>, j: nat)
    requires !IsExhausted(o, k) && (!o.hasSignal || o.delay(k) <= 0.0)
    ensures StartsBehindAbort(RunFrom(o, FailedBefore(if k == 0 then 0 else k - 1), rounds).trace, 1, j)
  {
    var round := AbortInTask(o, k);
    var s := FailedBefore(if k == 0 then 0 else k - 1);
    RunOne(o, s, round);
    rounds, j := [round], |RoundOf(o, s, round).trace|;
  }

  lemma {:induction false} RunMore(o: Options, s: Sched, round: Round, more: seq<Round>)
    requires !s.stopped && RoundOf(o, s, round).over == None
    ensures var step := RoundOf(o, s, round);
            RunFrom(o, s, [round] + more).trace == step.trace + RunFrom(o, step.s, more).trace
  {
    assert ([round] + more)[1..] == more;
  }

  lemma {:induction false} LaterInTrace(earlier: seq<Event>, t: seq<Event>, i: nat, j: nat)
    requires StartsBehindAbort(t, i, j)
    ensures StartsBehindAbort(earlier + t, |earlier| + i, |earlier| + j)
  {
  }

  /** Undisturbed failures lead there. */
  lemma {:induction false} LeadsThere(o: Options, n: nat, k: nat, more: seq<Round>, t: seq<Event>)
    returns (rounds: seq<Round>, earlier: seq<Event>)
    requires n <= k && !IsExhausted(o, k) && t == RunFrom(o, FailedBefore(k), more).trace
    ensures RunFrom(o, FailedBefore(n), rounds).trace == earlier + t
    decreases k - n
  {
    if n == k {
      rounds, earlier := more, [];
      assert earlier + t == t;
    } else {
      var round := Round(Rejected(Cause("failed")), {}, {});
      FailsQuietly(o, n, round);
      var later, middle := LeadsThere(o, n + 1, k, more, t);
      RunMore(o, FailedBefore(n), round, later);
      var first := RoundOf(o, FailedBefore(n), round).trace;
      rounds, earlier := [round] + later, first + middle;
      assert first + (middle + t) == earlier + t;
    }
  }

  /** In this run of a new scheduler no attempt starts behind an abort. */
  ghost predicate Obeys(o: Options, rounds: seq<Round>) {
    NoStartAfter(RunFrom(o, FRESH, rounds).trace, AbortCalled)
  }

  lemma {:induction false} Disobeys(o: Options) returns (rounds: seq<Round>)
    requires !Responsive(o)
    ensures !Obeys(o, rounds)
  {
    assert !IsExhausted(o, 0);
    var k: nat :| !IsExhausted(o, k) && (!o.hasSignal || o.delay(k) <= 0.0);
    var last, end := AbortIgnored(o, k);
    var from := if k == 0 then 0 else k - 1;
    var t := RunFrom(o, FailedBefore(from), last).trace;
    var earlier;
    rounds, earlier := LeadsThere(o, 0, from, last, t);
    LaterInTrace(earlier, t, 1, end);
    BehindAbortIsAfter(earlier + t, |earlier| + 1, |earlier| + end);
  }

  /** Abort ends the attempts of every run of a new scheduler exactly when it has a signal and never sleeps for no time. */
  lemma {:induction false} AbortEndsAttemptsIff(o: Options)
    ensures (forall rounds :: Obeys(o, rounds)) <==> Responsive(o)
  {
    if Responsive(o) {
      forall rounds
        ensures Obeys(o, rounds)
      {
        AbortEndsAttempts(o, FRESH, rounds);
      }
    } else {
      var rounds := Disobeys(o);
    }
  }
}
