/** TcpServer and UdpServer. They run the same start and stop code; they differ in the port they ask for and in what a
    fatal bind error does when nobody listens for error events. */
module SocketServer {
  import opened Wrappers
  import opened Retry
  import opened States
  import opened ServerSpec

  datatype Kind = Tcp(errorListener: bool) | Udp

  class SocketServer {
    const kind: Kind
    const options: Options
    const configured: nat
    var state: ExecutionState
    var port: nat
    var scheduler: RetryScheduler
    ghost var binds: seq<nat>
    ghost var visited: seq<ExecutionState>

    ghost function View(): Server
      reads this, scheduler
    {
      Server(state, port, scheduler.State(), binds, visited)
    }

    /** A TCP server without a listener loses the bind attempt to an uncaught exception; a UDP server catches it. */
    predicate Hangs() {
      kind == Tcp(false)
    }

    constructor (kind: Kind, options: Options, configured: nat)
      ensures this.kind == kind && this.options == options && this.configured == configured
      ensures View() == Server(Stopped, 0, FRESH, [], []) && fresh(scheduler)
    {
      this.kind, this.options, this.configured := kind, options, configured;
      state, port, binds, visited := Stopped, 0, [], [];
      scheduler := new RetryScheduler(options);
    }

    method SetState(s: ExecutionState)
      modifies this`state, this`visited
      ensures View() == old(View()).Enter(s)
    {
      if state != s {
        state := s;
        visited := visited + [s];
      }
    }

    method Stop()
      modifies this, scheduler
      ensures View() == old(View()).Stop() && scheduler == old(scheduler)
    {
      if state == Stopped {
        return;
      }
      SetState(Stopped);
      scheduler.Abort();
      scheduler.Stop();
    }

    /** `_attemptListen` with the answer of the socket, and a stop while it is pending. */
    method AttemptListen(a: Attempt) returns (result: TaskResult)
      modifies this, scheduler
      ensures (View(), result) == BindOf(Hangs(), old(View()), a) && scheduler == old(scheduler)
    {
      if state == Stopped {
        return RejectedAbort;
      }
      binds := binds + [port];
      if a.stopInBind && !a.answer.Throws? {
        Stop();
      }
      match a.answer {
        case Listens(addr) =>
          port := BoundPort(port, addr);
          SetState(Listening);
          scheduler.Reset();
          return Resolved;
        case Fails(retryable, err) =>
          if retryable {
            return Rejected(err);
          }
          SetState(Error);
          return if Hangs() then NeverSettles else Rejected(err);
        case Closes =>
          return if state == Stopped then NeverSettles else Rejected(CLOSED);
        case Throws(err) =>
          SetState(Error);
          return Rejected(err);
      }
    }

    /** The scheduler's handling of a failed attempt, with this server's callbacks. */
    method Fail(a: Attempt, err: Cause) returns (over: Option<Outcome>)
      modifies this, scheduler
      ensures (View(), over) == FailureOf(options, old(View()), a, err) && scheduler == old(scheduler)
    {
      if IsExhausted(options, scheduler.attempt) {
        SetState(Halt);
        return Some(Threw(err));
      }
      SetState(Retrying);
      var delay := options.delay(scheduler.attempt);
      if SleepRejects(options, delay, scheduler.aborted) {
        return Some(ThrewAbort);
      }
      if a.stopInWait {
        Stop();
      }
      over := if SleepRejects(options, delay, a.stopInWait) then Some(ThrewAbort) else None;
    }

    method OneRound(a: Attempt) returns (over: Option<Outcome>)
      modifies this, scheduler
      ensures (View(), over) == ServerSpec.RoundOf(options, Hangs(), old(View()), a) && scheduler == old(scheduler)
    {
      scheduler.attempt := scheduler.attempt + 1;
      var result := AttemptListen(a);
      match result {
        case Resolved => return Some(Success);
        case RejectedAbort => return Some(ThrewAbort);
        case NeverSettles => return Some(Waiting);
        case Rejected(err) => over := Fail(a, err);
      }
    }

    /** One turn of the loop, with what is left of it. */
    method Turn(attempts: seq<Attempt>, i: nat, ghost whole: (Server, Outcome)) returns (over: Option<Outcome>)
      requires !scheduler.stopped && i < |attempts| && Left(options, Hangs(), View(), attempts, i, whole)
      modifies this, scheduler
      ensures scheduler == old(scheduler)
      ensures over.Some? ==> whole == (View(), over.value)
      ensures over.None? ==> Left(options, Hangs(), View(), attempts, i + 1, whole)
    {
      ghost var round := ServerSpec.RoundOf(options, Hangs(), View(), attempts[i]);
      ServerSpec.LoopTurn(options, Hangs(), View(), attempts, i, whole, round.0, round.1);
      over := OneRound(attempts[i]);
      assert round == (View(), over);
    }

    /** An attempt that is still running when the run ends. */
    method BeginLast()
      modifies this, scheduler
      ensures View() == ServerSpec.BeginAttempt(old(View())).(binds := old(View()).binds + [old(View()).port])
      ensures scheduler == old(scheduler)
    {
      scheduler.attempt := scheduler.attempt + 1;
      binds := binds + [port];
    }

    /** `RetryScheduler.run` with this server's task and callbacks. */
    method RunLoop(attempts: seq<Attempt>) returns (outcome: Outcome)
      modifies this, scheduler
      ensures (View(), outcome) == Loop(options, Hangs(), old(View()), attempts) && scheduler == old(scheduler)
    {
      var i := 0;
      ghost var whole := Loop(options, Hangs(), View(), attempts);
      assert attempts[0..] == attempts;
      while !scheduler.stopped
        invariant 0 <= i <= |attempts| && scheduler == old(scheduler)
        invariant Left(options, Hangs(), View(), attempts, i, whole)
        decreases |attempts| - i
      {
        if i == |attempts| {
          ServerSpec.LoopEnds(options, Hangs(), View(), attempts, i, whole);
          BeginLast();
          return Waiting;
        }
        var over := Turn(attempts, i, whole);
        if over.Some? {
          return over.value;
        }
        i := i + 1;
      }
      ServerSpec.LoopEnds(options, Hangs(), View(), attempts, i, whole);
      outcome := Quit;
    }

    method Start(attempts: seq<Attempt>) returns (result: StartResult)
      modifies this
      ensures (View(), result) ==
              ServerSpec.Start(options, Hangs(), old(View()), PortToAsk(kind.Tcp?, old(View()), configured), attempts)
      ensures scheduler == old(scheduler) || fresh(scheduler)
      ensures AsksFor(old(View()), View(), if kind.Udp? || old(port) == 0 then configured else old(port))
    {
      ServerSpec.StartAsks(options, Hangs(), kind.Tcp?, configured, View(), attempts);
      if state != Stopped {
        return Resolves;
      }
      if kind.Udp? || port == 0 {
        port := configured;
      }
      scheduler := new RetryScheduler(options);
      visited := [];
      SetState(Starting);
      var outcome := RunLoop(attempts);
      match outcome {
        case Success | Quit => result := Resolves;
        case Waiting => result := Pending;
        case ThrewAbort =>
          SetState(Stopped);
          result := Resolves;
        case Threw(err) =>
          SetState(Error);
          result := RejectsWith(err);
      }
    }
  }
}
