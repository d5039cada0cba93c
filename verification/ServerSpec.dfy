/**
 What starting and stopping a socket server does to it, with the retry scheduler inside. One value of `Attempt` holds
 what the environment decides about one attempt to bind: how the socket answers, and whether `stop` is called while the
 answer is pending or while the scheduler sleeps.
 */
module ServerSpec {
  import opened Wrappers
  import opened Retry
  import opened States

  /** Listens carries the port of the bound address, when the socket reports one. Throws is an exception while the
      socket is set up, before anything else can run. */
  datatype Answer =
    | Listens(addr: Option<nat>) | Fails(retryable: bool, err: Cause) | Closes | Throws(err: Cause)

  datatype Attempt = Attempt(answer: Answer, stopInBind: bool, stopInWait: bool)

  const CLOSED := Cause("closed unexpectedly")

  datatype StartResult = Resolves | RejectsWith(err: Cause) | Pending

  /** `hangs` says that a fatal bind error escapes through an error event nobody listens to, leaving the attempt
      unsettled. `binds` records the port of every bind, `visited` every state entered since the last start began. */
  datatype Server = Server(state: ExecutionState, port: nat, sched: Sched, binds: seq<nat>, visited: seq<ExecutionState>) {

    function Enter(s: ExecutionState): Server {
      if s == state then this else this.(state := s, visited := visited + [s])
    }

    function Stop(): Server {
      if state == Stopped then this
      else Enter(Stopped).(sched := sched.After({CallStop, CallAbort}))
    }
  }

  /** What `stop` does to the scheduler: stop it and abort its signal. */
  function StopCalls(stop: bool): Calls {
    if stop then {CallStop, CallAbort} else {}
  }

  /** A socket bound to a port other than 0 gets that port. */
  function BoundPort(requested: nat, addr: Option<nat>): nat {
    if addr.None? || requested != 0 then requested else addr.value
  }

  /** One attempt to bind: the server behind it and how the attempt's promise settles. */
  function BindOf(hangs: bool, v: Server, a: Attempt): (Server, TaskResult) {
    if v.state == Stopped then (v, RejectedAbort)
    else
      var begun := v.(binds := v.binds + [v.port]);
      var w := if a.stopInBind && !a.answer.Throws? then begun.Stop() else begun;
      match a.answer
      case Listens(addr) =>
        (w.(port := BoundPort(w.port, addr)).Enter(Listening).(sched := w.sched.After({CallReset})), Resolved)
      case Fails(retryable, err) =>
        if retryable then (w, Rejected(err))
        else (w.Enter(Error), if hangs then NeverSettles else Rejected(err))
      case Closes => (w, if w.state == Stopped then NeverSettles else Rejected(CLOSED))
      case Throws(err) => (w.Enter(Error), Rejected(err))
  }

  /** The callbacks after a failed attempt, and a stop during the sleep. */
  function FailureOf(o: Options, v: Server, a: Attempt, err: Cause): (Server, Option<Outcome>) {
    if IsExhausted(o, v.sched.attempt) then (v.Enter(Halt), Some(Threw(err)))
    else
      var sleeping := v.Enter(Retrying);
      (if Waits(o, v.sched) && a.stopInWait then sleeping.Stop() else sleeping,
       AfterFailure(o, v.sched, StopCalls(a.stopInWait), err))
  }

  function BeginAttempt(v: Server): Server {
    v.(sched := v.sched.(attempt := v.sched.attempt + 1))
  }

  /** One round of the retry loop. */
  function RoundOf(o: Options, hangs: bool, v: Server, a: Attempt): (Server, Option<Outcome>) {
    var (w, result) := BindOf(hangs, BeginAttempt(v), a);
    match result
    case Resolved => (w, Some(Success))
    case RejectedAbort => (w, Some(ThrewAbort))
    case NeverSettles => (w, Some(Waiting))
    case Rejected(err) => FailureOf(o, w, a, err)
  }

  function Loop(o: Options, hangs: bool, v: Server, attempts: seq<Attempt>): (Server, Outcome)
    decreases |attempts|
  {
    if v.sched.stopped then (v, Quit)
    else if attempts == [] then (BeginAttempt(v).(binds := v.binds + [v.port]), Waiting)
    else
      var (w, over) := RoundOf(o, hangs, v, attempts[0]);
      match over
      case Some(outcome) => (w, outcome)
      case None => Loop(o, hangs, w, attempts[1..])
  }

  lemma {:induction false} LoopStep(o: Options, hangs: bool, v: Server, attempts: seq<Attempt>, i: nat)
    requires !v.sched.stopped && i < |attempts|
    ensures var (w, over) := RoundOf(o, hangs, v, attempts[i]);
            Loop(o, hangs, v, attempts[i..]) ==
            match over
            case Some(outcome) => (w, outcome)
            case None => Loop(o, hangs, w, attempts[i + 1..])
  {
    assert attempts[i..][1..] == attempts[i + 1..];
  }

  /** The whole loop is what is left of it from the i-th attempt on. */
  ghost predicate Left(o: Options, hangs: bool, v: Server, attempts: seq<Attempt>, i: nat, whole: (Server, Outcome)) {
    i <= |attempts| && whole == Loop(o, hangs, v, attempts[i..])
  }

  lemma {:induction false} LoopTurn(o: Options, hangs: bool, v: Server, attempts: seq<Attempt>, i: nat,
                                    whole: (Server, Outcome), w: Server, over: Option<Outcome>)
    requires !v.sched.stopped && i < |attempts| && Left(o, hangs, v, attempts, i, whole)
    requires (w, over) == RoundOf(o, hangs, v, attempts[i])
    ensures over.Some? ==> whole == (w, over.value)
    ensures over.None? ==> Left(o, hangs, w, attempts, i + 1, whole)
  {
    LoopStep(o, hangs, v, attempts, i);
  }

  lemma {:induction false} LoopEnds(o: Options, hangs: bool, v: Server, attempts: seq<Attempt>, i: nat,
                                    whole: (Server, Outcome))
    requires Left(o, hangs, v, attempts, i, whole)
    ensures v.sched.stopped ==> whole == (v, Quit)
    ensures !v.sched.stopped && i == |attempts| ==>
              whole == (BeginAttempt(v).(binds := v.binds + [v.port]), Waiting)
  {
  }

  /** How `start` turns the end of the loop into its own result. */
  function Conclude(v: Server, outcome: Outcome): (Server, StartResult) {
    match outcome
    case Success | Quit => (v, Resolves)
    case ThrewAbort => (v.Enter(Stopped), Resolves)
    case Threw(err) => (v.Enter(Error), RejectsWith(err))
    case Waiting => (v, Pending)
  }

  /** A start that is not refused first sets the state up. */
  function Begin(v: Server, port: nat): Server {
    v.(port := port, sched := FRESH, visited := []).Enter(Starting)
  }

  /** `start` with the port it is to ask for. */
  function Start(o: Options, hangs: bool, v: Server, port: nat, attempts: seq<Attempt>): (Server, StartResult) {
    if v.state != Stopped then (v, Resolves)
    else
      var (w, outcome) := Loop(o, hangs, Begin(v, port), attempts);
      Conclude(w, outcome)
  }

  // ---- the loop is a run of the scheduler ----

  /** What the attempt looks like to the scheduler. */
  function RoundFor(hangs: bool, a: Attempt): Round {
    var stopIn := a.stopInBind && !a.answer.Throws?;
    var result :=
      match a.answer
      case Listens(_) => Resolved
      case Fails(retryable, err) => if !retryable && hangs then NeverSettles else Rejected(err)
      case Closes => if a.stopInBind then NeverSettles else Rejected(CLOSED)
      case Throws(err) => Rejected(err);
    Round(result, StopCalls(stopIn) + (if a.answer.Listens? then {CallReset} else {}), StopCalls(a.stopInWait))
  }

  function RoundsFor(hangs: bool, attempts: seq<Attempt>): seq<Round> {
    seq(|attempts|, i requires 0 <= i < |attempts| => RoundFor(hangs, attempts[i]))
  }

  /** While the loop runs, Stopped and the scheduler's stop flag go together. */
  ghost predicate InLoop(v: Server) {
    (v.state == Stopped ==> v.sched.stopped) && (v.sched.stopped ==> v.sched.aborted)
  }

  /** A bind does to the scheduler what its task does, with the same result. */
  lemma {:induction false} BindRefines(hangs: bool, v: Server, a: Attempt)
    requires v.state != Stopped && !v.sched.stopped
    ensures var (w, result) := BindOf(hangs, v, a);
            var round := RoundFor(hangs, a);
            result == round.result && w.sched == v.sched.After(round.inTask) && InLoop(w)
  {
    match a.answer {
      case Listens(_) =>
      case Fails(_, _) =>
      case Closes =>
      case Throws(_) =>
    }
  }

  lemma {:induction false} FailureRefines(o: Options, v: Server, a: Attempt, err: Cause)
    requires InLoop(v)
    ensures var (w, over) := FailureOf(o, v, a, err);
            var inWait := if Waits(o, v.sched) then StopCalls(a.stopInWait) else {};
            over == AfterFailure(o, v.sched, StopCalls(a.stopInWait), err) && InLoop(w) &&
            (v.state != Stopped ==> w.sched == v.sched.After(inWait)) &&
            (v.state == Stopped ==> w.sched.attempt == v.sched.attempt && w.sched.stopped && w.sched.aborted)
  {
  }

  /** A round seen as the scheduler sees it: the state behind the task, and behind the sleep. */
  lemma {:induction false} RoundFollows(o: Options, s: Sched, r: Round)
    ensures var mid := s.(attempt := s.attempt + 1).After(r.inTask);
            var inWait := if r.result.Rejected? && Waits(o, mid) then r.inWait else {};
            Retry.RoundOf(o, s, r).s == mid.After(inWait) && Retry.RoundOf(o, s, r).over == OverOf(o, mid, r)
  {
  }

  lemma {:induction false} RoundRefines(o: Options, hangs: bool, v: Server, a: Attempt)
    requires InLoop(v) && !v.sched.stopped
    ensures var (w, over) := RoundOf(o, hangs, v, a);
            var step := Retry.RoundOf(o, v.sched, RoundFor(hangs, a));
            InLoop(w) && step.s == w.sched && step.over == over
  {
    var round := RoundFor(hangs, a);
    BindRefines(hangs, BeginAttempt(v), a);
    RoundFollows(o, v.sched, round);
    var (w, result) := BindOf(hangs, BeginAttempt(v), a);
    if result.Rejected? {
      FailureRefines(o, w, a, result.err);
    }
  }

  /** The server's retry loop does to the scheduler what the scheduler's own loop does: everything proved about runs of
      the scheduler holds of starting servers. */
  lemma {:induction false} LoopRefinesRun(o: Options, hangs: bool, v: Server, attempts: seq<Attempt>)
    requires InLoop(v)
    ensures var (w, outcome) := Loop(o, hangs, v, attempts);
            var run := RunFrom(o, v.sched, RoundsFor(hangs, attempts));
            InLoop(w) && run.s == w.sched && run.outcome == outcome
    decreases |attempts|
  {
    if !v.sched.stopped && attempts != [] {
      RoundRefines(o, hangs, v, attempts[0]);
      var (w, over) := RoundOf(o, hangs, v, attempts[0]);
      assert RoundsFor(hangs, attempts)[1..] == RoundsFor(hangs, attempts[1..]);
      if over.None? {
        LoopRefinesRun(o, hangs, w, attempts[1..]);
      }
    }
  }

  // ---- how a start ends ----

  /** The port of a server that asked for a port and listens: the one it asked for, or for 0 the one it was given. */
  predicate PortBehind(asked: nat, addr: Option<nat>, port: nat) {
    (asked != 0 ==> port == asked) && (asked == 0 && addr.Some? ==> port == addr.value) &&
    (asked == 0 && addr.None? ==> port == 0)
  }

  ghost predicate Undisturbed(attempts: seq<Attempt>) {
    forall i :: 0 <= i < |attempts| ==> !attempts[i].stopInBind && !attempts[i].stopInWait
  }

  /** How many attempts fail before the first that listens. */
  function Misses(attempts: seq<Attempt>): (f: nat)
    ensures f <= |attempts|
    ensures forall i :: 0 <= i < f ==> !attempts[i].answer.Listens?
    ensures f < |attempts| ==> attempts[f].answer.Listens?
  {
    if attempts == [] || attempts[0].answer.Listens? then 0 else 1 + Misses(attempts[1..])
  }

  /** The error of an attempt that fails undisturbed. */
  function CauseOf(a: Answer): Cause
    requires !a.Listens?
  {
    if a.Closes? then CLOSED else a.err
  }

  function Repeat(port: nat, n: nat): seq<nat> {
    seq(n, _ => port)
  }

  /** One undisturbed failure that is not the last allowed one. */
  lemma {:induction false} MissedRound(o: Options, v: Server, a: Attempt)
    requires !a.answer.Listens? && !a.stopInBind && !a.stopInWait && v.state != Stopped && !v.sched.aborted
    ensures var (w, over) := RoundOf(o, false, v, a);
            var last := IsExhausted(o, v.sched.attempt + 1);
            w.binds == v.binds + [v.port] && w.port == v.port && v.visited <= w.visited &&
            w.sched == v.sched.(attempt := v.sched.attempt + 1) &&
            w.state == (if last then Halt else Retrying) &&
            over == (if last then Some(Threw(CauseOf(a.answer))) else None) &&
            (Halt !in v.visited && v.state != Halt ==>
               if last then exists before :: Halt !in before && w.visited == before + [Halt] else Halt !in w.visited)
  {
    var (w, over) := RoundOf(o, false, v, a);
    if IsExhausted(o, v.sched.attempt + 1) && Halt !in v.visited && v.state != Halt {
      var (x, _) := BindOf(false, BeginAttempt(v), a);
      assert Halt !in x.visited && w.visited == x.visited + [Halt];
    }
  }

  /** An undisturbed loop with a limit listens exactly when one of the attempts it is allowed listens; otherwise it
      ends in Halt, entered there for the first time, after exactly the allowed number of binds. */
  lemma {:induction false} LoopSettles(o: Options, v: Server, attempts: seq<Attempt>)
    requires Undisturbed(attempts) && v.state != Stopped && !v.sched.stopped && !v.sched.aborted
    requires v.sched.attempt < o.limit && (Misses(attempts) < |attempts| || v.sched.attempt + |attempts| >= o.limit)
    requires v.state != Halt && Halt !in v.visited
    ensures var (w, outcome) := Loop(o, false, v, attempts);
            var left, f := o.limit - v.sched.attempt, Misses(attempts);
            if f < left then
              outcome == Success && w.state == Listening && w.sched.attempt == 0 && Halt !in w.visited &&
              PortBehind(v.port, attempts[f].answer.addr, w.port) && w.binds == v.binds + Repeat(v.port, f + 1)
            else
              outcome == Threw(CauseOf(attempts[left - 1].answer)) && w.binds == v.binds + Repeat(v.port, left) &&
              exists before :: Halt !in before && w.visited == before + [Halt]
    ensures Loop(o, false, v, attempts).1.Threw? ==> Loop(o, false, v, attempts).0.state == Halt
    decreases |attempts|
  {
    var (w, over) := RoundOf(o, false, v, attempts[0]);
    if attempts[0].answer.Listens? {
      assert v.binds + [v.port] == v.binds + Repeat(v.port, 1);
    } else {
      MissedRound(o, v, attempts[0]);
      if over.None? {
        LoopSettles(o, w, attempts[1..]);
        var n := |Loop(o, false, w, attempts[1..]).0.binds| - |w.binds|;
        assert v.binds + [v.port] + Repeat(v.port, n) == v.binds + Repeat(v.port, n + 1);
      } else {
        assert v.binds + [v.port] == v.binds + Repeat(v.port, 1);
      }
    }
  }

  lemma {:induction false} HaltThenError(w: Server)
    requires w.state == Halt && exists before :: Halt !in before && w.visited == before + [Halt]
    ensures exists before :: Halt !in before && w.Enter(Error).visited == before + [Halt, Error]
  {
    var before :| Halt !in before && w.visited == before + [Halt];
    assert w.Enter(Error).visited == before + [Halt, Error];
  }

  /** A start left alone, with a limit n > 0 and an error listener: it resolves exactly when one of the first n attempts
      listens, and then the server is Listening with the attempt counter back at 0; otherwise it rejects with the last
      error after exactly n binds and leaves the server in Error, with Halt passed through once, just before. */
  lemma {:induction false} StartSettles(o: Options, v: Server, port: nat, attempts: seq<Attempt>)
    requires v.state == Stopped && o.limit > 0 && Undisturbed(attempts)
    requires Misses(attempts) < |attempts| || |attempts| >= o.limit
    ensures var (w, result) := Start(o, false, v, port, attempts);
            var f := Misses(attempts);
            if f < o.limit then
              result == Resolves && w.state == Listening && w.sched.attempt == 0 && Halt !in w.visited &&
              PortBehind(port, attempts[f].answer.addr, w.port) && w.binds == v.binds + Repeat(port, f + 1)
            else
              result == RejectsWith(CauseOf(attempts[o.limit - 1].answer)) && w.state == Error &&
              w.binds == v.binds + Repeat(port, o.limit) &&
              exists before :: Halt !in before && w.visited == before + [Halt, Error]
  {
    var begun := Begin(v, port);
    LoopSettles(o, begun, attempts);
    var (w, outcome) := Loop(o, false, begun, attempts);
    if Misses(attempts) >= o.limit {
      HaltThenError(w);
    }
  }

  /** Without a limit, the default, no start ever rejects, whatever happens meanwhile. */
  lemma {:induction false} UnlimitedNeverThrows(o: Options, hangs: bool, v: Server, attempts: seq<Attempt>)
    requires o.limit <= 0
    ensures !Loop(o, hangs, v, attempts).1.Threw?
    decreases |attempts|
  {
    if !v.sched.stopped && attempts != [] {
      var (w, over) := RoundOf(o, hangs, v, attempts[0]);
      if over.None? {
        UnlimitedNeverThrows(o, hangs, w, attempts[1..]);
      }
    }
  }

  /** The first attempts fail undisturbed and are not the last allowed ones; then the loop goes on as if from there. */
  lemma {:induction false} AfterMisses(o: Options, v: Server, attempts: seq<Attempt>, k: nat) returns (w: Server)
    requires k <= |attempts| && k <= Misses(attempts) && Undisturbed(attempts[..k])
    requires v.state != Stopped && !v.sched.stopped && !v.sched.aborted
    requires o.limit <= 0 || v.sched.attempt + k < o.limit
    ensures w.state != Stopped && w.port == v.port && w.sched == v.sched.(attempt := v.sched.attempt + k)
    ensures w.binds == v.binds + Repeat(v.port, k)
    ensures Loop(o, false, v, attempts) == Loop(o, false, w, attempts[k..])
    decreases k
  {
    if k == 0 {
      w := v;
      assert attempts[0..] == attempts;
    } else {
      assert attempts[..k][0] == attempts[0] && attempts[..k][1..] == attempts[1..][..k - 1];
      MissedRound(o, v, attempts[0]);
      var (x, _) := RoundOf(o, false, v, attempts[0]);
      assert x.state != Stopped;
      w := AfterMisses(o, x, attempts[1..], k - 1);
      assert attempts[1..][k - 1..] == attempts[k..];
      assert v.binds + [v.port] + Repeat(v.port, k - 1) == v.binds + Repeat(v.port, k);
    }
  }

  lemma {:induction false} StoppedSleep(o: Options, v: Server, attempts: seq<Attempt>)
    requires attempts != [] && v.state != Stopped && v.sched == Sched(v.sched.attempt, false, false)
    requires !IsExhausted(o, v.sched.attempt + 1)
    requires !attempts[0].answer.Listens? && !attempts[0].stopInBind && attempts[0].stopInWait
    ensures var (w, outcome) := Loop(o, false, v, attempts);
            outcome in {Quit, ThrewAbort} && w.state == Stopped && w.binds == v.binds + [v.port]
  {
    var (w, over) := RoundOf(o, false, v, attempts[0]);
    assert w.sched.stopped;
  }

  /** A stop while the scheduler sleeps after the k-th attempt: start resolves, the server is Stopped, and attempt k was
      the last bind. */
  lemma {:induction false} StopWhileSleeping(o: Options, v: Server, port: nat, attempts: seq<Attempt>, k: nat)
    requires v.state == Stopped && o.hasSignal && (o.limit <= 0 || k < o.limit)
    requires 0 < k <= |attempts| && k <= Misses(attempts) && Undisturbed(attempts[..k - 1])
    requires !attempts[k - 1].stopInBind && attempts[k - 1].stopInWait
    ensures var (w, result) := Start(o, false, v, port, attempts);
            result == Resolves && w.state == Stopped && w.binds == v.binds + Repeat(port, k)
  {
    var begun := Begin(v, port);
    var u := AfterMisses(o, begun, attempts, k - 1);
    assert attempts[k - 1..][0] == attempts[k - 1];
    StoppedSleep(o, u, attempts[k - 1..]);
    assert v.binds + Repeat(port, k - 1) + [port] == v.binds + Repeat(port, k);
  }

  /** A stop while a bind is pending does not always win. */
  function AfterStopInBind(o: Options, a: Answer, attempt: nat): (ExecutionState, StartResult)
    requires !a.Throws?
  {
    match a
    case Listens(_) => (Listening, Resolves)
    case Closes => (Stopped, Pending)
    case Fails(_, err) =>
      if IsExhausted(o, attempt) then (Error, RejectsWith(err))
      else if o.delay(attempt) > 0.0 then (Stopped, Resolves)
      else (Retrying, Resolves)
  }

  lemma {:induction false} StoppedBind(o: Options, v: Server, attempts: seq<Attempt>)
    requires attempts != [] && v.state != Stopped && v.sched == Sched(v.sched.attempt, false, false) && o.hasSignal
    requires attempts[0].stopInBind && !attempts[0].stopInWait && !attempts[0].answer.Throws?
    ensures var (w, outcome) := Loop(o, false, v, attempts);
            var (x, result) := Conclude(w, outcome);
            (x.state, result) == AfterStopInBind(o, attempts[0].answer, v.sched.attempt + 1) &&
            x.binds == v.binds + [v.port]
  {
    var (w, over) := RoundOf(o, false, v, attempts[0]);
    assert w.sched.stopped;
  }

  /** The outcome of stopping while the k-th bind is pending: only a socket that closes, or fails before the last
      allowed attempt with a positive back-off, leaves the server Stopped. */
  lemma {:induction false} StopWhileBinding(o: Options, v: Server, port: nat, attempts: seq<Attempt>, k: nat)
    requires v.state == Stopped && o.hasSignal && (o.limit <= 0 || k <= o.limit)
    requires 0 < k <= |attempts| && k - 1 <= Misses(attempts) && Undisturbed(attempts[..k - 1])
    requires attempts[k - 1].stopInBind && !attempts[k - 1].stopInWait && !attempts[k - 1].answer.Throws?
    ensures var (w, result) := Start(o, false, v, port, attempts);
            (w.state, result) == AfterStopInBind(o, attempts[k - 1].answer, k) && w.binds == v.binds + Repeat(port, k)
  {
    var u := AfterMisses(o, Begin(v, port), attempts, k - 1);
    var rest := attempts[k - 1..];
    assert rest != [] && rest[0] == attempts[k - 1];
    StoppedBind(o, u, rest);
    var (w, outcome) := Loop(o, false, u, rest);
    assert Start(o, false, v, port, attempts) == Conclude(w, outcome);
    assert v.binds + Repeat(port, k - 1) + [port] == v.binds + Repeat(port, k);
  }

  // ---- the port over a whole history ----

  datatype Op = DoStart(attempts: seq<Attempt>) | DoStop

  /** A TCP server asks for the configured port only until it has one; a UDP server asks for it every time. */
  function PortToAsk(sticky: bool, v: Server, configured: nat): nat {
    if sticky && v.port != 0 then v.port else configured
  }

  function Do(o: Options, hangs: bool, sticky: bool, configured: nat, v: Server, op: Op): Server {
    match op
    case DoStart(attempts) => Start(o, hangs, v, PortToAsk(sticky, v, configured), attempts).0
    case DoStop => v.Stop()
  }

  function DoAll(o: Options, hangs: bool, sticky: bool, configured: nat, v: Server, ops: seq<Op>): Server
    decreases |ops|
  {
    if ops == [] then v
    else DoAll(o, hangs, sticky, configured, Do(o, hangs, sticky, configured, v, ops[0]), ops[1..])
  }

  /** Every bind in between asked for this port. */
  ghost predicate AsksFor(v: Server, w: Server, port: nat) {
    v.binds <= w.binds && forall i :: |v.binds| <= i < |w.binds| ==> w.binds[i] == port
  }

  lemma {:induction false} BindAsksFor(hangs: bool, v: Server, a: Attempt)
    ensures var (w, result) := BindOf(hangs, v, a);
            AsksFor(v, w, v.port) && (result != Resolved ==> w.port == v.port) &&
            (result == Resolved ==> a.answer.Listens? && PortBehind(v.port, a.answer.addr, w.port))
  {
    assert BindOf(hangs, v, a).0.binds in {v.binds, v.binds + [v.port]};
  }

  lemma {:induction false} RoundAsksFor(o: Options, hangs: bool, v: Server, a: Attempt)
    ensures var (w, over) := RoundOf(o, hangs, v, a);
            AsksFor(v, w, v.port) && (over != Some(Success) ==> w.port == v.port) &&
            (over == Some(Success) ==> a.answer.Listens? && PortBehind(v.port, a.answer.addr, w.port))
  {
    BindAsksFor(hangs, BeginAttempt(v), a);
  }

  /** One start binds one port, over and over; and if it listens, one of its attempts did, and decides the port. */
  lemma {:induction false} LoopAsksFor(o: Options, hangs: bool, v: Server, attempts: seq<Attempt>)
    ensures var (w, outcome) := Loop(o, hangs, v, attempts);
            AsksFor(v, w, v.port) && (outcome != Success ==> w.port == v.port) &&
            (outcome == Success ==>
               exists f :: 0 <= f < |attempts| && attempts[f].answer.Listens? &&
                           PortBehind(v.port, attempts[f].answer.addr, w.port))
    decreases |attempts|
  {
    if !v.sched.stopped && attempts != [] {
      var (w, over) := RoundOf(o, hangs, v, attempts[0]);
      RoundAsksFor(o, hangs, v, attempts[0]);
      if over.None? {
        LoopAsksFor(o, hangs, w, attempts[1..]);
        var (x, outcome) := Loop(o, hangs, w, attempts[1..]);
        if outcome == Success {
          var f :| 0 <= f < |attempts[1..]| && attempts[1..][f].answer.Listens? &&
                   PortBehind(w.port, attempts[1..][f].answer.addr, x.port);
          assert attempts[f + 1] == attempts[1..][f];
        }
      }
    }
  }

  /** A start is refused exactly outside Stopped. One that is not refused asks for the configured port if the server is a
      UDP server or has no port yet, and for the port it has otherwise; every bind asks for that port. It ends with that
      port, or, if that is 0 and it listens, with the one that was allocated. */
  lemma {:induction false} StartAsks(o: Options, hangs: bool, sticky: bool, configured: nat, v: Server, attempts: seq<Attempt>)
    ensures var w := Do(o, hangs, sticky, configured, v, DoStart(attempts));
            var asked := if !sticky || v.port == 0 then configured else v.port;
            (v.state != Stopped ==> w == v) &&
            (v.state == Stopped ==>
               AsksFor(v, w, asked) &&
               (w.port == asked ||
                exists f :: 0 <= f < |attempts| && attempts[f].answer.Listens? &&
                            PortBehind(asked, attempts[f].answer.addr, w.port)))
  {
    if v.state == Stopped {
      LoopAsksFor(o, hangs, Begin(v, PortToAsk(sticky, v, configured)), attempts);
    }
  }

  /** The first port of a TCP server that starts without one, undisturbed and with a limit: the configured one, or the
      allocated one if 0 is configured. Over every later history it keeps that port. */
  lemma {:induction false} FirstPortStays(o: Options, configured: nat, v: Server, attempts: seq<Attempt>, ops: seq<Op>)
    requires v.state == Stopped && v.port == 0 && o.limit > 0 && Undisturbed(attempts)
    requires Misses(attempts) < |attempts| && Misses(attempts) < o.limit
    ensures var w := Do(o, false, true, configured, v, DoStart(attempts));
            var addr := attempts[Misses(attempts)].answer.addr;
            w.state == Listening && AsksFor(v, w, configured) &&
            (configured != 0 ==> w.port == configured) && (configured == 0 && addr.Some? ==> w.port == addr.value) &&
            (w.port != 0 ==> KeepsPort(w, DoAll(o, false, true, configured, w, ops)))
  {
    var w := Do(o, false, true, configured, v, DoStart(attempts));
    StartSettles(o, v, configured, attempts);
    StartAsks(o, false, true, configured, v, attempts);
    if w.port != 0 {
      PortIsSticky(o, false, configured, w, ops);
    }
  }

  /** A stop ends in Stopped, with the scheduler stopped and its signal aborted; a stopped server is left alone. */
  lemma {:induction false} StopStops(v: Server)
    ensures v.Stop().state == Stopped && v.Stop().port == v.port && v.Stop().binds == v.binds
    ensures v.state != Stopped ==> v.Stop().sched == Sched(v.sched.attempt, true, true)
    ensures v.state == Stopped ==> v.Stop() == v
  {
  }

  /** A server that loses an attempt to an unheard fatal error waits for ever, in Error. */
  lemma {:induction false} FatalErrorHangs(o: Options, v: Server, port: nat, attempts: seq<Attempt>)
    requires v.state == Stopped && attempts != [] && attempts[0].answer.Fails? && !attempts[0].answer.retryable
    requires !attempts[0].stopInBind
    ensures var (w, result) := Start(o, true, v, port, attempts);
            result == Pending && w.state == Error && w.binds == v.binds + [port]
  {
  }

  /** An undisturbed failure that is not the last one: an error that cannot be retried shows in the states, any other does
      not; the attempt is repeated either way. */
  lemma {:induction false} ErrorIsShown(o: Options, v: Server, a: Attempt)
    requires !a.answer.Listens? && !a.stopInBind && !a.stopInWait && v.state in {Starting, Retrying} && !v.sched.aborted
    requires !IsExhausted(o, v.sched.attempt + 1)
    ensures var (w, over) := RoundOf(o, false, v, a); var fatal := a.answer.Throws? || (a.answer.Fails? && !a.answer.retryable);
            over == None && w.state == Retrying &&
            w.visited == v.visited + if fatal then [Error, Retrying] else if v.state == Retrying then [] else [Retrying]
  {
    var x := BindOf(false, BeginAttempt(v), a).0;
    assert v.visited + [Error] + [Retrying] == v.visited + [Error, Retrying];
  }

  /** The later server keeps the port, and every bind in between asked for it. */
  ghost predicate KeepsPort(v: Server, w: Server) {
    w.port == v.port && v.binds <= w.binds && forall i :: |v.binds| <= i < |w.binds| ==> w.binds[i] == v.port
  }

  lemma {:induction false} RoundKeepsPort(o: Options, hangs: bool, v: Server, a: Attempt)
    requires v.port != 0
    ensures KeepsPort(v, RoundOf(o, hangs, v, a).0)
  {
    var w := RoundOf(o, hangs, v, a).0;
    assert w.port == v.port && (w.binds == v.binds + [v.port] || w.binds == v.binds);
  }

  lemma {:induction false} PortKeptOn(u: Server, v: Server, w: Server)
    requires KeepsPort(u, v) && KeepsPort(v, w)
    ensures KeepsPort(u, w)
  {
  }

  lemma {:induction false} LoopKeepsPort(o: Options, hangs: bool, v: Server, attempts: seq<Attempt>)
    requires v.port != 0
    ensures KeepsPort(v, Loop(o, hangs, v, attempts).0)
    decreases |attempts|
  {
    if !v.sched.stopped && attempts != [] {
      var (w, over) := RoundOf(o, hangs, v, attempts[0]);
      RoundKeepsPort(o, hangs, v, attempts[0]);
      if over.None? {
        LoopKeepsPort(o, hangs, w, attempts[1..]);
        PortKeptOn(v, w, Loop(o, hangs, w, attempts[1..]).0);
      }
    }
  }

  /** Over any history of starts and stops, once a TCP server has a port, every later bind asks for that port and every
      later listen reports it. */
  lemma {:induction false} PortIsSticky(o: Options, hangs: bool, configured: nat, v: Server, ops: seq<Op>)
    requires v.port != 0
    ensures KeepsPort(v, DoAll(o, hangs, true, configured, v, ops))
    decreases |ops|
  {
    if ops != [] {
      var w := Do(o, hangs, true, configured, v, ops[0]);
      if ops[0].DoStart? && v.state == Stopped {
        LoopKeepsPort(o, hangs, Begin(v, v.port), ops[0].attempts);
      }
      assert KeepsPort(v, w);
      PortIsSticky(o, hangs, configured, w, ops[1..]);
    }
  }
}
