/** What a provider has and what state it is in over whole histories of its life cycle: traps, resting states, handlers on
    its channels and report timers. */
module LifeTasks {
  import opened Wrappers
  import opened States
  import opened ManagerLink
  import opened LifeCycle
  import opened LifeEvents
  import opened LifeLink

  // ---- traps ----

  lemma {:induction false} TrappedStep(api: bool, l: Life, op: Op)
    requires Trapped(l.state)
    ensures Do(api, l, op).0.state == l.state
  {
    match op {
      case Restart(env, again) =>
        assert StopOf(api, l, env) == (l, Returned(false));
        assert StartOf(api, ReleaseOf(l, env).0, again).0 == ReleaseOf(l, env).0;
        RestartParts(api, l, env, again);
      case Shutdown(env) =>
        assert StopOf(api, l, env) == (l, Returned(false));
        CloseDownIsSame(l, env);
        ShutdownParts(api, l, env);
      case _ =>
    }
  }

  /** A provider in a trap stays there, whatever is asked of it. */
  lemma {:induction false} TrapsHold(api: bool, l: Life, ops: seq<Op>)
    requires Trapped(l.state)
    ensures Run(api, l, ops).state == l.state
    decreases |ops|
  {
    if ops != [] {
      TrappedStep(api, l, ops[0]);
      TrapsHold(api, Do(api, l, ops[0]).0, ops[1..]);
    }
  }

  // ---- where an operation that throws leaves the provider ----

  /** Where a start ends, from any state and for every fault. It is accepted in four states only. If initializing throws,
      it ends in Initializing; if the discovery it waits for cannot connect or never does, it throws or hangs before it
      is Starting; if the subclass throws, with or without its API channel open, it ends in Starting. */
  lemma {:induction false} StartEnds(api: bool, l: Life, env: Env)
    ensures var (r, outcome) := StartOf(api, l, env);
            var booked := HappenAll(l.link, env.early).0.discovering;
            var before := if l.initialized then l.state else Initializing;
            if l.state !in {ExecutionState.Error, Initializing, Retrying, Stopped} then
              r == l && outcome == Returned(false)
            else if !l.initialized && InInitialize in env.broken then
              outcome == Threw && r.state == Initializing && !r.initialized && r.link == l.link && r.events == l.events
            else
              r.initialized &&
              if !booked && env.discovery == CannotConnect then outcome == Threw && r.state == before
              else if !booked && env.discovery == NeverConnects then outcome == Hung && r.state == before
              else if InStarting in env.broken || InListening in env.broken then outcome == Threw && r.state == Starting
              else outcome == Returned(true) && r.state == Running
  {
    if Startable(l.state) && (l.initialized || InInitialize !in env.broken) {
      var ready := if l.initialized then l else InitializeOf(l, env).0;
      DiscoveryEnds(HappenAll(l.link, env.early).0, env.discovery);
      var found := Discover(Meanwhile(ready, env.early), env.discovery).0;
      OnlineEnds(api, found, env);
    }
  }

  lemma {:induction false} OnlineEnds(api: bool, l: Life, env: Env)
    ensures var (r, outcome) := GoOnline(api, l, env); var throws := InStarting in env.broken || InListening in env.broken;
            r.initialized == l.initialized && r.state == (if throws then Starting else Running) &&
            outcome == (if throws then Threw else Returned(true))
  {
  }

  /** A start whose subclass throws is the end: no operation brings the provider out of Starting. */
  lemma {:induction false} ThrowingStartTraps(api: bool, l: Life, env: Env, ops: seq<Op>)
    requires ReachesSubclass(l, env) && (InStarting in env.broken || InListening in env.broken)
    ensures var (r, outcome) := StartOf(api, l, env);
            outcome == Threw && r.state == Starting && Run(api, r, ops).state == Starting
  {
    StartEnds(api, l, env);
    TrapsHold(api, StartOf(api, l, env).0, ops);
  }

  /** So is a stop whose subclass throws, in Stopping; it has stopped nothing and emitted nothing. A restart and a shutdown
      end with it. */
  lemma {:induction false} ThrowingStopTraps(api: bool, l: Life, env: Env, again: Env, ops: seq<Op>)
    requires l.state == Running && InStopping in env.broken
    ensures StopOf(api, l, env) == (l.(state := Stopping), Threw)
    ensures RestartOf(api, l, env, again) == (l.(state := Stopping), Threw)
    ensures ShutdownOf(api, l, env) == (l.(state := Stopping), Threw)
    ensures Run(api, l.(state := Stopping), ops).state == Stopping
  {
    TrapsHold(api, l.(state := Stopping), ops);
  }

  /** So is an activation without an API channel, in Starting. */
  lemma {:induction false} ActivateNeedsApiChannel(api: bool, l: Life, env: Env, ops: seq<Op>)
    requires l.state == ExecutionState.Halt && Api !in l.servers
    ensures ActivateOf(l, env) == (l.(state := Starting), Threw) && Run(api, l.(state := Starting), ops).state == Starting
  {
    TrapsHold(api, l.(state := Starting), ops);
  }

  /** An operation that is asked for in the wrong state changes nothing and returns false; reloading changes nothing at all,
      and throws exactly if the subclass does. */
  lemma {:induction false} WrongStateIsRefused(api: bool, l: Life, env: Env)
    ensures l.state != Running ==> Do(api, l, Stop(env)) == (l, Returned(false))
    ensures l.state != Running ==> Do(api, l, Op.Halt(env)) == (l, Returned(false))
    ensures l.state != ExecutionState.Halt ==> Do(api, l, Activate(env)) == (l, Returned(false))
    ensures Do(api, l, Reload(env)) == (l, if InReload in env.broken then Threw else Returned(true))
  {
  }

  /** What a stop that gets through leaves: Stopped, the servers that cannot be stopped, and one handler less on the API
      channel, which is created if it was not there. */
  lemma {:induction false} StopLeaves(api: bool, l: Life, env: Env)
    requires l.state == Running && InStopping !in env.broken
    ensures var r := StopOf(api, l, env).0;
            r.state == Stopped && r.initialized == l.initialized && r.timer == l.timer &&
            (forall t :: t in r.servers <==> t in env.stuck && (t in l.servers || (api && t == Api))) &&
            forall t :: t in r.servers ==>
              r.servers[t] == if api && t == Api then Minus(Handlers(l.servers, Api)) else l.servers[t]
  {
    var off := if api then SetChannel(l.servers, Api, false) else l.servers;
    ReportLeaves(l.(state := Stopped, servers := KeepOnly(off, env.stuck)), env, ServiceStopped);
  }

  /** A restart whose stop does not throw: if releasing throws, the provider stays initialized; if reloading throws, it does
      not; either way it is not started again. */
  lemma {:induction false} ThrowingRestart(api: bool, l: Life, env: Env, again: Env)
    requires !StopOf(api, l, env).1.Threw?
    ensures var stopped := StopOf(api, l, env).0; var (r, outcome) := RestartOf(api, l, env, again);
            if InRelease in env.broken then outcome == Threw && r == stopped
            else if InReload in env.broken then outcome == Threw && r == stopped.(initialized := false)
            else
              var (started, third) := StartOf(api, stopped.(initialized := false), again);
              r == started && (outcome.Returned? <==> third.Returned?) && (outcome.Threw? <==> third.Threw?)
  {
  }

  /** A shutdown whose stop does not throw has closed its channels before releasing throws: no manager unless it is stuck, no
      timer, and no event of its own. */
  lemma {:induction false} ThrowingShutdown(api: bool, l: Life, env: Env)
    requires !StopOf(api, l, env).1.Threw? && InRelease in env.broken
    ensures var stopped := StopOf(api, l, env).0; var (r, outcome) := ShutdownOf(api, l, env);
            outcome == Threw && r.initialized == stopped.initialized && !r.timer && r.state == stopped.state &&
            (Manager !in env.stuck ==> r.link.client.None?) && r.events == Meanwhile(stopped, env.early).events
  {
  }

  // ---- what happens meanwhile ----

  /** Nothing that happens to the manager is lost: behind a report that does not throw, connection and events are those of
      what happened before it, while it ran, and its own failure, in this order; then comes the event. */
  lemma {:induction false} ReportIsHappenings(l: Life, env: Env, e: ServiceEvent)
    requires !Unbriefed(HappenAll(l.link, env.meanwhile).0)
    ensures var r := ReportAndEmit(l, env, e).0; var asked := HappenAll(l.link, env.meanwhile).0;
            var (link, events) := HappenAll(l.link, env.meanwhile + env.during +
                                                    if env.reportFails && asked.client.Some? then [ReportFails] else []);
            r.link == link && r.events == l.events + events + [e]
  {
    var asked := Meanwhile(l, env.meanwhile);
    var fails := if env.reportFails && asked.link.client.Some? then [ReportFails] else [];
    HappenAllAppend(l.link, env.meanwhile, env.during);
    HappenAllAppend(l.link, env.meanwhile + env.during, fails);
    MeanwhileAll(l, env.meanwhile, env.during);
    var over := Meanwhile(asked, env.during);
    if fails != [] {
      assert fails[1..] == [] && HappenAll(over.link, fails) == (HandleError(over.link).0, HandleError(over.link).1 + []);
      assert HandleError(over.link).1 + [] == HandleError(over.link).1;
      assert l.events + (HappenAll(l.link, env.meanwhile + env.during).1 + HandleError(over.link).1) ==
             l.events + HappenAll(l.link, env.meanwhile + env.during).1 + HandleError(over.link).1;
    } else {
      assert HappenAll(over.link, fails) == (over.link, []);
      assert HappenAll(l.link, env.meanwhile + env.during).1 + [] == HappenAll(l.link, env.meanwhile + env.during).1;
    }
  }

  lemma {:induction false} MeanwhileAll(l: Life, hs: seq<Happening>, more: seq<Happening>)
    ensures Meanwhile(Meanwhile(l, hs), more) == Meanwhile(l, hs + more)
  {
    HappenAllAppend(l.link, hs, more);
    var (mid, first) := HappenAll(l.link, hs);
    var second := HappenAll(mid, more).1;
    assert l.events + (first + second) == l.events + first + second;
  }

  /** A discovery that a start comes to, waited for or booked, by its happenings. */
  lemma {:induction false} DiscoverIsHappenings(l: Life, d: Discovery)
    ensures var found := Discover(l, d).0;
            var (link, events) := HappenAll(Begin(l.link), if l.link.discovering then [] else HappeningsOf(d));
            found == l.(link := link, events := l.events + events)
  {
    if l.link.discovering {
      assert HappenAll(l.link, []) == (l.link, []);
    } else {
      DiscoveryIsItsHappenings(l.link, d);
    }
  }

  lemma {:induction false} OnlineIsHappenings(api: bool, l: Life, env: Env)
    requires GoOnline(api, l, env).1.Returned?
    ensures var r := GoOnline(api, l, env).0; var (link, events) := HappenAll(l.link, env.meanwhile);
            r.link == link && r.events == l.events + events + [ServiceStarted]
  {
  }

  /** So it is with a start that gets to its end: before its discovery, the discovery itself unless one is booked, and behind
      it. */
  lemma {:induction false} StartIsHappenings(api: bool, l: Life, env: Env)
    requires StartOf(api, l, env).1 == Returned(true)
    ensures var r := StartOf(api, l, env).0; var (k, before) := HappenAll(l.link, env.early);
            var (found, first) := HappenAll(Begin(k), if k.discovering then [] else HappeningsOf(env.discovery));
            var (link, second) := HappenAll(found, env.meanwhile);
            r.link == link && r.events == l.events + before + first + second + [ServiceStarted]
  {
    var ready := if l.initialized then l else InitializeOf(l, env).0;
    var waited := Meanwhile(ready, env.early);
    DiscoverIsHappenings(waited, env.discovery);
    OnlineIsHappenings(api, Discover(waited, env.discovery).0, env);
  }

  /** And with closing down: what happened before the manager client is stopped. */
  lemma {:induction false} ClosingIsHappenings(l: Life, env: Env)
    ensures var r := CloseDown(l, env); var (k, events) := HappenAll(l.link, env.early);
            r.link == StopManager(k, Manager in env.stuck) && r.events == l.events + events && !r.timer &&
            r.servers == l.servers[Sys := Minus(Handlers(l.servers, Sys))]
  {
  }

  // ---- halting ----

  /** A report changes nothing but the connection to the manager and the events. */
  lemma {:induction false} ReportLeaves(l: Life, env: Env, e: ServiceEvent)
    ensures var (r, outcome) := ReportAndEmit(l, env, e);
            r == l.(link := r.link, events := r.events) &&
            outcome == if Unbriefed(HappenAll(l.link, env.meanwhile).0) then Threw else Returned(true)
  {
  }

  /** Halting a running provider: without an API channel it throws, and the provider is lost in state Halting. With one it
      ends in state Halt, and activating brings it back to Running with its tasks; each throws exactly if it loses its
      event. */
  lemma {:induction false} HaltNeedsApiChannel(api: bool, l: Life, env: Env, again: Env, ops: seq<Op>)
    requires l.state == Running
    ensures var (halted, outcome) := Do(api, l, Op.Halt(env));
            var (back, second) := Do(api, halted, Activate(again));
            if Api !in l.servers then
              outcome == Threw && Run(api, halted, ops).state == Halting
            else
              halted == l.(state := ExecutionState.Halt, link := halted.link, events := halted.events) &&
              back == l.(link := back.link, events := back.events) &&
              outcome == (if LosesEvent(l, Op.Halt(env)) then Threw else Returned(true)) &&
              second == (if LosesEvent(halted, Activate(again)) then Threw else Returned(true))
  {
    var (halted, outcome) := HaltOf(l, env);
    if Api !in l.servers {
      TrapsHold(api, halted, ops);
    } else {
      ReportLeaves(l.(state := ExecutionState.Halt), env, ServiceHalted);
      ReportLeaves(halted.(state := Running), again, ServiceStarted);
    }
  }

  lemma {:induction false} CalmReport(l: Life, env: Env, e: ServiceEvent)
    requires l.link.flight == Grounded && IsCalmEnv(env)
    ensures ReportAndEmit(l, env, e) == if Unbriefed(l.link) then (l, Threw) else (Emit(l, e), Returned(true))
  {
    CalmIsStill(l.link, env.meanwhile);
    TakeNothing(l, l.link);
    CalmIsStill(l.link, env.during);
    assert Meanwhile(l, env.meanwhile) == l && Meanwhile(l, env.during) == l;
  }

  /** If nothing happens to the manager, halt and activate undo each other: with their two events, or both throwing. */
  lemma {:induction false} HaltAndBack(api: bool, l: Life, env: Env, again: Env)
    requires l.state == Running && Api in l.servers && l.link.flight == Grounded && IsCalmEnv(env) && IsCalmEnv(again)
    ensures var (halted, outcome) := Do(api, l, Op.Halt(env));
            var (back, second) := Do(api, halted, Activate(again));
            if Unbriefed(l.link) then
              outcome == second == Threw && halted == l.(state := ExecutionState.Halt) && back == l
            else
              outcome == second == Returned(true) && back == l.(events := l.events + [ServiceHalted] + [ServiceStarted])
  {
    CalmReport(l.(state := ExecutionState.Halt), env, ServiceHalted);
    var halted := HaltOf(l, env).0;
    CalmReport(halted.(state := Running), again, ServiceStarted);
  }

  // ---- resting states ----

  /** The subclass does its part, tasks stop, and discovery connects or finds nothing. What happens to the manager apart
      from that is open. */
  predicate Healthy(env: Env) {
    env.broken == {} && env.stuck == {} && Finds(env.discovery)
  }

  /** Nothing goes wrong, and halt is used only where there is an API channel. */
  predicate Smooth(api: bool, op: Op) {
    match op
    case Start(env) => Healthy(env)
    case Stop(env) => Healthy(env)
    case Restart(env, again) => Healthy(env) && Healthy(again)
    case Shutdown(env) => Healthy(env)
    case Reload(env) => Healthy(env)
    case Halt(_) => api
    case Activate(_) => true
    case Background(_) => true
  }

  predicate NoDoubles(tasks: Tasks) {
    forall t :: t in tasks ==> tasks[t] <= 1
  }

  /** Resting states and what the provider has in them. */
  ghost predicate AtRest(api: bool, l: Life) {
    NoDoubles(l.servers) && (l.state == Stopped || l.state == Running || l.state == ExecutionState.Halt) &&
    (l.state == Stopped ==> l.servers.Keys <= {Sys} && Handlers(l.servers, Sys) == 0) &&
    (l.state != Stopped && api ==> Api in l.servers) && (l.state == ExecutionState.Halt ==> Api in l.servers)
  }

  lemma {:induction false} StopRests(api: bool, l: Life, env: Env)
    requires AtRest(api, l) && Healthy(env)
    ensures var (r, outcome) := StopOf(api, l, env);
            AtRest(api, r) && outcome == (if LosesEvent(l, Stop(env)) then Threw else Returned(l.state == Running)) &&
            (l.state == Running ==> r == l.(state := Stopped, servers := map[], link := r.link, events := r.events)) &&
            (l.state != Running ==> r == l)
  {
    if l.state == Running {
      var off := if api then SetChannel(l.servers, Api, false) else l.servers;
      assert KeepOnly(off, env.stuck) == map[];
      ReportLeaves(l.(state := Stopped, servers := map[]), env, ServiceStopped);
    }
  }

  lemma {:induction false} InitializeRests(l: Life, env: Env)
    requires env.broken == {} && l.servers.Keys <= {Sys} && Handlers(l.servers, Sys) == 0
    ensures var (r, outcome) := InitializeOf(l, env);
            outcome.Returned? && r.initialized && r.servers == map[Response := 1, Sys := 1]
  {
  }

  lemma {:induction false} OnlineRests(api: bool, l: Life, env: Env)
    requires NoDoubles(l.servers) && env.broken == {} && Api !in l.servers
    ensures var (r, outcome) := GoOnline(api, l, env);
            outcome == Returned(true) && r.initialized == l.initialized && NoDoubles(r.servers) && r.state == Running &&
            r.servers == if api then l.servers[Api := 1] else l.servers
  {
  }

  /** Starting a stopped provider opens the API channel; the other two only if it was not initialized. */
  lemma {:induction false} StartRests(api: bool, l: Life, env: Env)
    requires AtRest(api, l) && Healthy(env)
    ensures var (r, outcome) := StartOf(api, l, env);
            AtRest(api, r) && outcome == Returned(l.state == Stopped) && (l.state != Stopped ==> r == l) &&
            (l.state == Stopped ==>
               r.state == Running && r.initialized &&
               Handlers(r.servers, Response) == (if l.initialized then 0 else 1) &&
               Handlers(r.servers, Sys) == (if l.initialized then 0 else 1) &&
               (Response in r.servers <==> !l.initialized) &&
               Handlers(r.servers, Api) == (if api then 1 else 0))
  {
    if l.state == Stopped {
      if !l.initialized {
        InitializeRests(l, env);
      }
      var ready := if l.initialized then l else InitializeOf(l, env).0;
      OnlineRests(api, Discover(Meanwhile(ready, env.early), env.discovery).0, env);
    }
  }

  lemma {:induction false} CloseDownRests(l: Life, env: Env)
    requires env.stuck == {}
    ensures var r := CloseDown(l, env);
            r.link.client.None? && !r.timer && r.state == l.state && r.initialized == l.initialized &&
            r.servers == SetChannel(l.servers, Sys, false)
  {
  }

  /** A shutdown whose stop gets through. */
  lemma {:induction false} ShutdownEnds(api: bool, l: Life, env: Env)
    requires Healthy(env) && !StopOf(api, l, env).1.Threw?
    ensures var closed := CloseDown(StopOf(api, l, env).0, env);
            ShutdownOf(api, l, env) == (Emit(closed.(initialized := false), ServiceShutdown), Returned(true))
  {
  }

  /** A shutdown either loses the event of its stop, and is then no more than a stop, or ends uninitialized, without timer
      and manager. */
  lemma {:induction false} ShutdownRests(api: bool, l: Life, env: Env)
    requires AtRest(api, l) && Healthy(env)
    ensures var (r, outcome) := ShutdownOf(api, l, env);
            AtRest(api, r) && r.state == (if l.state == ExecutionState.Halt then ExecutionState.Halt else Stopped) &&
            if LosesEvent(l, Shutdown(env)) then
              r == StopOf(api, l, env).0 && outcome == Threw
            else
              outcome == Returned(true) && !r.initialized && !r.timer && r.link.client.None? &&
              r.events == CloseDown(StopOf(api, l, env).0, env).events + [ServiceShutdown]
  {
    StopRests(api, l, env);
    var (stopped, first) := StopOf(api, l, env);
    if !first.Threw? {
      ShutdownEnds(api, l, env);
      CloseDownRests(stopped, env);
    }
  }

  /** A restart whose stop gets through. */
  lemma {:induction false} RestartEnds(api: bool, l: Life, env: Env, again: Env)
    requires env.broken == {} && !StopOf(api, l, env).1.Threw?
    ensures var (started, outcome) := StartOf(api, StopOf(api, l, env).0.(initialized := false), again);
            RestartOf(api, l, env, again) == (started, if outcome.Returned? then Returned(true) else outcome)
  {
  }

  lemma {:induction false} RestartRests(api: bool, l: Life, env: Env, again: Env)
    requires AtRest(api, l) && Healthy(env) && Healthy(again)
    ensures var (r, outcome) := RestartOf(api, l, env, again);
            AtRest(api, r) && outcome == if LosesEvent(l, Restart(env, again)) then Threw else Returned(true)
  {
    StopRests(api, l, env);
    if !StopOf(api, l, env).1.Threw? {
      StartRests(api, StopOf(api, l, env).0.(initialized := false), again);
      RestartEnds(api, l, env, again);
    }
  }

  lemma {:induction false} DoRests(api: bool, l: Life, op: Op)
    requires AtRest(api, l) && Smooth(api, op)
    ensures AtRest(api, Do(api, l, op).0) && (Do(api, l, op).1.Returned? <==> !LosesEvent(l, op))
  {
    match op {
      case Start(env) =>
        StartRests(api, l, env);
      case Stop(env) =>
        StopRests(api, l, env);
      case Restart(env, again) =>
        RestartRests(api, l, env, again);
      case Shutdown(env) =>
        ShutdownRests(api, l, env);
      case Halt(env) =>
        ReportLeaves(l.(state := ExecutionState.Halt), env, ServiceHalted);
      case Activate(env) =>
        ReportLeaves(l.(state := Running), env, ServiceStarted);
      case Reload(_) | Background(_) =>
    }
  }

  /** A provider that has not done anything yet fits all invariants. */
  lemma {:induction false} UnbornFits(api: bool)
    ensures AtRest(api, UNBORN) && EventsFit(UNBORN) && TimerFits(UNBORN) && Fits(UNBORN.link) && Settled(UNBORN.link)
  {
  }

  predicate NothingThrows(api: bool, l: Life, ops: seq<Op>)
    decreases |ops|
  {
    ops == [] || (Do(api, l, ops[0]).1.Returned? && NothingThrows(api, Do(api, l, ops[0]).0, ops[1..]))
  }

  /** Over every smooth history, whatever happens to the manager in it: the provider rests in Stopped, Running or Halt, no
      channel has two handlers, a stopped provider keeps at most an unsubscribed system channel, and an operation throws
      exactly if it loses its event. */
  lemma {:induction false} HistoriesRest(api: bool, l: Life, ops: seq<Op>)
    requires AtRest(api, l) && forall op <- ops :: Smooth(api, op)
    ensures AtRest(api, Run(api, l, ops)) && (NothingThrows(api, l, ops) <==> LosesNone(api, l, ops))
    decreases |ops|
  {
    if ops != [] {
      assert ops[0] in ops && forall op <- ops[1..] :: op in ops;
      DoRests(api, l, ops[0]);
      HistoriesRest(api, Do(api, l, ops[0]).0, ops[1..]);
    }
  }

  // ---- restarting, stopping and starting ----

  /** Restarting a running provider whose report does not throw: it runs again, initialized, with every channel and one
      handler on each, and has one report timer exactly if it reports and has a manager. */
  lemma {:induction false} RestartRenews(api: bool, l: Life, env: Env, again: Env)
    requires AtRest(api, l) && Healthy(env) && Healthy(again) && l.state == Running && TimerFits(l)
    requires !LosesEvent(l, Restart(env, again))
    ensures var (r, outcome) := RestartOf(api, l, env, again);
            outcome == Returned(true) && r.state == Running && r.initialized && AtRest(api, r) &&
            Handlers(r.servers, Response) == 1 && Handlers(r.servers, Sys) == 1 &&
            Handlers(r.servers, Api) == (if api then 1 else 0) &&
            r.timers == if again.reports && r.link.client.Some? then 1 else 0
  {
    StopRests(api, l, env);
    var released := StopOf(api, l, env).0.(initialized := false);
    StartRests(api, released, again);
    RestartEnds(api, l, env, again);
    StartSchedules(api, released, again);
  }

  lemma {:induction false} OnlineSchedules(api: bool, l: Life, env: Env)
    requires TimerFits(l) && GoOnline(api, l, env).1.Returned?
    ensures var r := GoOnline(api, l, env).0; r.timers == if env.reports && r.link.client.Some? then 1 else 0
  {
  }

  lemma {:induction false} StartSchedules(api: bool, l: Life, env: Env)
    requires TimerFits(l) && StartOf(api, l, env).1 == Returned(true)
    ensures var r := StartOf(api, l, env).0; r.timers == if env.reports && r.link.client.Some? then 1 else 0
  {
    var ready := if l.initialized then l else InitializeOf(l, env).0;
    OnlineSchedules(api, Discover(Meanwhile(ready, env.early), env.discovery).0, env);
  }

  lemma {:induction false} CalmStart(api: bool, l: Life, env: Env)
    requires env.broken == {} && IsCalmEnv(env) && l.state == Stopped && !l.initialized && l.link.flight == Grounded
    ensures var r, connects := StartOf(api, l, env).0, !l.link.discovering && env.discovery == Connects;
            (r.link.client.Some? <==> connects || (l.link.discovering && l.link.client.Some?)) &&
            r.events == l.events + (if connects then [ManagerConnected] else []) + [ServiceStarted]
  {
    var ready := InitializeOf(l, env).0;
    CalmIsStill(ready.link, env.early);
    TakeNothing(ready, ready.link);
    var found := Discover(ready, env.discovery).0;
    assert found.link.flight == Grounded;
    CalmIsStill(found.link, env.meanwhile);
    TakeNothing(found.(state := Starting), found.link);
    assert StartOf(api, l, env) == GoOnline(api, found, env);
  }

  /** If nothing goes wrong with the manager: one stop, a connection if there is one to make, and one start. */
  lemma {:induction false} CalmRestart(api: bool, l: Life, env: Env, again: Env)
    requires AtRest(api, l) && Healthy(env) && Healthy(again) && l.state == Running && Settled(l.link)
    requires IsCalmEnv(env) && IsCalmEnv(again)
    ensures var r, connects := RestartOf(api, l, env, again).0, !l.link.discovering && again.discovery == Connects;
            (r.link.client.Some? <==> connects || (l.link.discovering && l.link.client.Some?)) &&
            r.events == l.events + [ServiceStopped] + (if connects then [ManagerConnected] else []) + [ServiceStarted]
  {
    StopRests(api, l, env);
    CalmLosesNotNow(l, Stop(env));
    var off := if api then SetChannel(l.servers, Api, false) else l.servers;
    CalmReport(l.(state := Stopped, servers := KeepOnly(off, env.stuck)), env, ServiceStopped);
    RestartEnds(api, l, env, again);
    CalmStart(api, StopOf(api, l, env).0.(initialized := false), again);
  }

  /** A plain stop and a start do not renew: an initialized provider comes back without response and system channel. */
  lemma {:induction false} StopThenStart(api: bool, l: Life, env: Env, again: Env)
    requires AtRest(api, l) && Healthy(env) && Healthy(again) && l.state == Running
    ensures var stopped := Do(api, l, Stop(env)).0;
            var (r, outcome) := Do(api, stopped, Start(again));
            stopped.servers == map[] && outcome == Returned(true) && r.state == Running &&
            (Response in r.servers <==> !l.initialized) && Handlers(r.servers, Sys) == if l.initialized then 0 else 1
  {
    StopRests(api, l, env);
    StartRests(api, StopOf(api, l, env).0, again);
  }

  // ---- handlers ----

  lemma {:induction false} InitializeAddsHandlers(l: Life, env: Env)
    ensures var r := InitializeOf(l, env).0;
            Handlers(r.servers, Response) == Handlers(l.servers, Response) + 1 &&
            Handlers(r.servers, Sys) == Handlers(l.servers, Sys) + (if InInitialize in env.broken then 0 else 1) &&
            Handlers(r.servers, Api) == Handlers(l.servers, Api)
  {
  }

  lemma {:induction false} OnlineAddsHandlers(api: bool, l: Life, env: Env)
    ensures var r := GoOnline(api, l, env).0;
            Handlers(r.servers, Response) == Handlers(l.servers, Response) &&
            Handlers(r.servers, Sys) == Handlers(l.servers, Sys) &&
            Handlers(r.servers, Api) == Handlers(l.servers, Api) + if api && InStarting !in env.broken then 1 else 0
  {
  }

  /** A start gets as far as the subclass: it is accepted, initializing succeeds if there is any, and so does the discovery
      unless one is booked already. */
  predicate ReachesSubclass(l: Life, env: Env) {
    Startable(l.state) && (l.initialized || InInitialize !in env.broken) &&
    (HappenAll(l.link, env.early).0.discovering || Finds(env.discovery))
  }

  /** What a start adds to the handlers, wherever it starts from and whether it returns, throws or hangs: one on the response
      channel if it is accepted and the provider was not initialized, one on the system channel if initializing also
      succeeds, and one on the API channel if it gets as far as opening it, even if it throws behind that. */
  lemma {:induction false} StartAddsHandlers(api: bool, l: Life, env: Env)
    ensures var r := StartOf(api, l, env).0; var initializes := Startable(l.state) && !l.initialized;
            Handlers(r.servers, Response) == Handlers(l.servers, Response) + (if initializes then 1 else 0) &&
            Handlers(r.servers, Sys) ==
              Handlers(l.servers, Sys) + (if initializes && InInitialize !in env.broken then 1 else 0) &&
            Handlers(r.servers, Api) ==
              Handlers(l.servers, Api) + if api && ReachesSubclass(l, env) && InStarting !in env.broken then 1 else 0
  {
    if Startable(l.state) {
      if !l.initialized {
        InitializeAddsHandlers(l, env);
      }
      var (ready, first) := if l.initialized then (l, Returned(true)) else InitializeOf(l, env);
      if first.Returned? {
        OnlineAddsHandlers(api, Discover(Meanwhile(ready, env.early), env.discovery).0, env);
      }
    }
  }

  /** So the response channel gets a second handler exactly when a provider that is not initialized, but still has a
      subscribed response channel, starts. */
  lemma {:induction false} SecondResponseHandler(api: bool, l: Life, env: Env)
    requires Handlers(l.servers, Response) <= 1
    ensures Handlers(StartOf(api, l, env).0.servers, Response) == 2 <==>
            Startable(l.state) && !l.initialized && Handlers(l.servers, Response) == 1
  {
    StartAddsHandlers(api, l, env);
  }

  /** That can happen: the first start does not connect to the manager, and a restart follows. */
  lemma {:induction false} FailedStartThenRestart(api: bool, env: Env, stop: Env, again: Env)
    requires env.broken == stop.broken == again.broken == {} && env.discovery in {CannotConnect, NeverConnects}
    ensures var failed := Do(api, UNBORN, Start(env)).0;
            var (r, outcome) := RestartOf(api, failed, stop, again);
            failed.state == Initializing && outcome == Returned(true) && r.state == Running &&
            Handlers(r.servers, Response) == 2
  {
    FirstStartStrands(api, env);
    var failed := StartOf(api, UNBORN, env).0;
    RestartEnds(api, failed, stop, again);
    StrandedStarts(api, failed.(initialized := false), again);
    StartAddsHandlers(api, failed.(initialized := false), again);
  }

  // ---- timers ----

  ghost predicate TimerFits(l: Life) {
    l.timers == if l.timer then 1 else 0
  }

  lemma {:induction false} OnlineKeepsTimer(api: bool, l: Life, env: Env)
    requires TimerFits(l)
    ensures TimerFits(GoOnline(api, l, env).0)
  {
  }

  lemma {:induction false} StartKeepsTimer(api: bool, l: Life, env: Env)
    requires TimerFits(l)
    ensures TimerFits(StartOf(api, l, env).0)
  {
    var ready := if l.initialized then l else InitializeOf(l, env).0;
    OnlineKeepsTimer(api, Discover(Meanwhile(ready, env.early), env.discovery).0, env);
  }

  lemma {:induction false} StopKeepsTimer(api: bool, l: Life, env: Env)
    ensures StopOf(api, l, env).0.timer == l.timer && StopOf(api, l, env).0.timers == l.timers
  {
    var off := if api then SetChannel(l.servers, Api, false) else l.servers;
    ReportLeaves(l.(state := Stopped, servers := KeepOnly(off, env.stuck)), env, ServiceStopped);
  }

  lemma {:induction false} DoKeepsTimer(api: bool, l: Life, op: Op)
    requires TimerFits(l)
    ensures TimerFits(Do(api, l, op).0)
  {
    match op {
      case Start(env) =>
        StartKeepsTimer(api, l, env);
      case Stop(env) =>
        StopKeepsTimer(api, l, env);
      case Restart(env, again) =>
        StopKeepsTimer(api, l, env);
        StartKeepsTimer(api, ReleaseOf(StopOf(api, l, env).0, env).0, again);
        RestartParts(api, l, env, again);
      case Shutdown(env) =>
        StopKeepsTimer(api, l, env);
        ShutdownParts(api, l, env);
      case Halt(env) =>
        ReportLeaves(l.(state := ExecutionState.Halt), env, ServiceHalted);
      case Activate(env) =>
        ReportLeaves(l.(state := Running), env, ServiceStarted);
      case Reload(_) | Background(_) =>
    }
  }

  /** Over every history, whatever fails in it, at most one report timer runs, and the provider knows whether one does. */
  lemma {:induction false} OneTimer(api: bool, l: Life, ops: seq<Op>)
    requires TimerFits(l)
    ensures TimerFits(Run(api, l, ops))
    decreases |ops|
  {
    if ops != [] {
      DoKeepsTimer(api, l, ops[0]);
      OneTimer(api, Do(api, l, ops[0]).0, ops[1..]);
    }
  }
}
