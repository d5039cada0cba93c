/** The events of a provider over whole histories of its life cycle: when they alternate, and where one is lost. */
module LifeEvents {
  import opened Wrappers
  import opened States
  import opened ManagerLink
  import opened LifeCycle

  // ---- alternation ----

  predicate GoesUp(e: ServiceEvent) {
    e == ServiceStarted
  }

  predicate GoesDown(e: ServiceEvent) {
    e == ServiceStopped || e == ServiceHalted
  }

  /** Going by the events, is the service up? */
  predicate Up(events: seq<ServiceEvent>) {
    events != [] &&
    var last := events[|events| - 1];
    GoesUp(last) || (!GoesDown(last) && Up(events[..|events| - 1]))
  }

  /** A start comes only when the service is down, a stop or a halt only when it is up. */
  predicate Alternate(events: seq<ServiceEvent>) {
    events == [] ||
    (Alternate(events[..|events| - 1]) &&
     (GoesUp(events[|events| - 1]) ==> !Up(events[..|events| - 1])) &&
     (GoesDown(events[|events| - 1]) ==> Up(events[..|events| - 1])))
  }

  function CountUp(events: seq<ServiceEvent>): nat {
    if events == [] then 0
    else CountUp(events[..|events| - 1]) + if GoesUp(events[|events| - 1]) then 1 else 0
  }

  function CountDown(events: seq<ServiceEvent>): nat {
    if events == [] then 0
    else CountDown(events[..|events| - 1]) + if GoesDown(events[|events| - 1]) then 1 else 0
  }

  /** Strict alternation as numbers: the starts are one ahead exactly when the service is up. */
  lemma {:induction false} AlternateCounts(events: seq<ServiceEvent>)
    requires Alternate(events)
    ensures CountUp(events) == CountDown(events) + if Up(events) then 1 else 0
  {
    if events != [] {
      AlternateCounts(events[..|events| - 1]);
    }
  }

  lemma {:induction false} EmitNext(l: Life, e: ServiceEvent)
    ensures Up(Emit(l, e).events) <==> GoesUp(e) || (!GoesDown(e) && Up(l.events))
    ensures Alternate(Emit(l, e).events) <==>
            Alternate(l.events) && (GoesUp(e) ==> !Up(l.events)) && (GoesDown(e) ==> Up(l.events))
  {
    assert Emit(l, e).events[..|l.events|] == l.events;
  }

  // ---- the manager connection has no say in it ----

  /** Events that are neither a start nor a stop. */
  predicate Neutral(events: seq<ServiceEvent>) {
    forall e <- events :: !GoesUp(e) && !GoesDown(e)
  }

  lemma {:induction false} NeutralAppends(events: seq<ServiceEvent>, more: seq<ServiceEvent>)
    requires Neutral(more)
    ensures Up(events + more) == Up(events) && Alternate(events + more) == Alternate(events)
    decreases |more|
  {
    if more == [] {
      assert events + more == events;
    } else {
      var n := |more| - 1;
      assert Neutral(more[..n]);
      NeutralAppends(events, more[..n]);
      assert (events + more)[..|events + more| - 1] == events + more[..n];
    }
  }

  lemma {:induction false} HappeningsAreNeutral(k: Link, hs: seq<Happening>)
    ensures Neutral(HappenAll(k, hs).1)
    decreases |hs|
  {
    if hs != [] {
      HappeningsAreNeutral(Happen(k, hs[0]).0, hs[1..]);
    }
  }

  /** Taking news of the manager: another link, the same service. */
  ghost predicate Same(l: Life, m: Life) {
    m.state == l.state && Up(m.events) == Up(l.events) && Alternate(m.events) == Alternate(l.events)
  }

  lemma {:induction false} TakeIsSame(l: Life, news: (Link, seq<ServiceEvent>))
    requires Neutral(news.1)
    ensures Same(l, Take(l, news))
  {
    NeutralAppends(l.events, news.1);
  }

  lemma {:induction false} MeanwhileIsSame(l: Life, hs: seq<Happening>)
    ensures Same(l, Meanwhile(l, hs))
  {
    HappeningsAreNeutral(l.link, hs);
    TakeIsSame(l, HappenAll(l.link, hs));
  }

  // ---- states and events ----

  /** States left behind by an operation that threw; no operation accepts them. */
  predicate Trapped(s: ExecutionState) {
    s == Starting || s == Stopping || s == Halting
  }

  ghost predicate EventsFit(l: Life) {
    Alternate(l.events) &&
    (Up(l.events) <==> l.state == Running || l.state == Stopping || l.state == Halting) &&
    (l.state == Running || l.state == Stopped || l.state == ExecutionState.Halt || l.state == Initializing || Trapped(l.state))
  }

  function ReportEnv(op: Op): Option<Env> {
    match op
    case Stop(env) => Some(env)
    case Restart(env, _) => Some(env)
    case Shutdown(env) => Some(env)
    case Halt(env) => Some(env)
    case Activate(env) => Some(env)
    case Start(_) | Reload(_) | Background(_) => None
  }

  /** The operation is accepted and gets as far as its report. */
  predicate Reports(l: Life, op: Op) {
    match op
    case Stop(env) => l.state == Running && InStopping !in env.broken
    case Restart(env, _) => l.state == Running && InStopping !in env.broken
    case Shutdown(env) => l.state == Running && InStopping !in env.broken
    case Halt(_) => l.state == Running && Api in l.servers
    case Activate(_) => l.state == ExecutionState.Halt && Api in l.servers
    case Start(_) | Reload(_) | Background(_) => false
  }

  /** The connection to the manager where the report of an operation runs. */
  function LinkAtReport(k: Link, op: Op): Link
    requires ReportEnv(op).Some?
  {
    HappenAll(k, ReportEnv(op).value.meanwhile).0
  }

  /** The report of the operation throws: the event behind it is lost. */
  predicate LosesEvent(l: Life, op: Op) {
    Reports(l, op) && Unbriefed(LinkAtReport(l.link, op))
  }

  /** A change of state within the same half, with no event. */
  lemma {:induction false} QuietKeepsEvents(l: Life, m: Life)
    requires EventsFit(l) && Up(m.events) == Up(l.events) && Alternate(m.events)
    requires m.state == l.state || (!Up(l.events) && (m.state == Initializing || m.state == Starting)) ||
             (Up(l.events) && (m.state == Stopping || m.state == Halting))
    ensures EventsFit(m)
  {
  }

  lemma {:induction false} DiscoverIsSame(l: Life, d: Discovery)
    ensures Same(l, Discover(l, d).0)
  {
    var (link, events, outcome) := DiscoverOf(l.link, d);
    TakeIsSame(l, (link, events));
  }

  lemma {:induction false} StartingKeepsEvents(api: bool, l: Life, env: Env)
    ensures StartingOf(api, l, env).0.events == l.events && StartingOf(api, l, env).0.state == l.state
  {
  }

  lemma {:induction false} OnlineKeepsEvents(api: bool, l: Life, env: Env)
    requires EventsFit(l) && Startable(l.state)
    ensures EventsFit(GoOnline(api, l, env).0)
  {
    var starting := l.(state := Starting);
    MeanwhileIsSame(starting, env.meanwhile);
    var waited := Meanwhile(starting, env.meanwhile);
    StartingKeepsEvents(api, waited, env);
    var (up, outcome) := StartingOf(api, waited, env);
    assert EventsFit(up);
    EmitNext(up, ServiceStarted);
    if outcome.Returned? {
      assert GoOnline(api, l, env).0.events == Emit(up, ServiceStarted).events;
    }
  }

  /** How far a start gets before it goes online. */
  lemma {:induction false} FoundKeepsEvents(l: Life, env: Env) returns (found: Life, outcome: Outcome)
    requires EventsFit(l) && Startable(l.state)
    ensures (found, outcome) == Discover(Meanwhile(l, env.early), env.discovery)
    ensures EventsFit(found) && found.state == l.state
  {
    var waited := Meanwhile(l, env.early);
    MeanwhileIsSame(l, env.early);
    DiscoverIsSame(waited, env.discovery);
    var step := Discover(waited, env.discovery);
    found, outcome := step.0, step.1;
  }

  lemma {:induction false} StartKeepsEvents(api: bool, l: Life, env: Env)
    requires EventsFit(l)
    ensures EventsFit(StartOf(api, l, env).0)
  {
    if Startable(l.state) {
      var (ready, first) := if l.initialized then (l, Returned(true)) else InitializeOf(l, env);
      QuietKeepsEvents(l, ready);
      if first.Returned? {
        var found, second := FoundKeepsEvents(ready, env);
        if second.Returned? {
          OnlineKeepsEvents(api, found, env);
        }
      }
    }
  }

  // ---- reports ----

  /** A report that does not throw, up to the event behind it. */
  function Reported(l: Life, env: Env): Life {
    var asked := Meanwhile(l, env.meanwhile);
    var over := Meanwhile(asked, env.during);
    if env.reportFails && asked.link.client.Some? then Take(over, HandleError(over.link)) else over
  }

  lemma {:induction false} ReportedIsSame(l: Life, env: Env)
    ensures Same(l, Reported(l, env)) && Same(l, Meanwhile(l, env.meanwhile))
  {
    var asked := Meanwhile(l, env.meanwhile);
    var over := Meanwhile(asked, env.during);
    MeanwhileIsSame(l, env.meanwhile);
    MeanwhileIsSame(asked, env.during);
    TakeIsSame(over, HandleError(over.link));
  }

  /** The end of an operation that has gone down, or up, from a fitting state: it fits again exactly if the report does
      not throw. */
  lemma {:induction false} ReportDecides(l: Life, m: Life, env: Env, e: ServiceEvent)
    requires EventsFit(l) && m.events == l.events && m.link == l.link
    requires (l.state == Running && ((m.state == Stopped && e == ServiceStopped) ||
                                     (m.state == ExecutionState.Halt && e == ServiceHalted))) ||
             (l.state == ExecutionState.Halt && m.state == Running && e == ServiceStarted)
    ensures var (r, outcome) := ReportAndEmit(m, env, e); var throws := Unbriefed(HappenAll(l.link, env.meanwhile).0);
            (EventsFit(r) <==> !throws) && (outcome == if throws then Threw else Returned(true)) &&
            r.state == m.state && (throws ==> Up(r.events) == Up(l.events))
  {
    ReportedIsSame(m, env);
    EmitNext(Reported(m, env), e);
  }

  lemma {:induction false} StopKeepsEvents(api: bool, l: Life, env: Env)
    requires EventsFit(l)
    ensures EventsFit(StopOf(api, l, env).0) <==> !LosesEvent(l, Stop(env))
    ensures LosesEvent(l, Stop(env)) ==>
              var (r, outcome) := StopOf(api, l, env); outcome == Threw && r.state == Stopped && Up(r.events)
  {
    if l.state == Running && InStopping !in env.broken {
      var off := if api then SetChannel(l.servers, Api, false) else l.servers;
      ReportDecides(l, l.(state := Stopped, servers := KeepOnly(off, env.stuck)), env, ServiceStopped);
    }
  }

  /** A restart ends with one of its parts. */
  lemma {:induction false} RestartParts(api: bool, l: Life, env: Env, again: Env)
    ensures var (stopped, first) := StopOf(api, l, env);
            var released := ReleaseOf(stopped, env).0;
            var r := RestartOf(api, l, env, again).0;
            (first.Threw? ==> r == stopped) && (r == stopped || r == released || r == StartOf(api, released, again).0)
  {
  }

  lemma {:induction false} RestartKeepsEvents(api: bool, l: Life, env: Env, again: Env)
    requires EventsFit(l)
    ensures EventsFit(RestartOf(api, l, env, again).0) <==> !LosesEvent(l, Restart(env, again))
  {
    StopKeepsEvents(api, l, env);
    RestartParts(api, l, env, again);
    if !LosesEvent(l, Stop(env)) {
      var stopped := StopOf(api, l, env).0;
      var released := ReleaseOf(stopped, env).0;
      QuietKeepsEvents(stopped, released);
      StartKeepsEvents(api, released, again);
    }
  }

  lemma {:induction false} CloseDownIsSame(l: Life, env: Env)
    ensures Same(l, CloseDown(l, env))
  {
    MeanwhileIsSame(l.(servers := SetChannel(l.servers, Sys, false)), env.early);
  }

  /** A shutdown adds to a stop what closing down does, and its own event. */
  lemma {:induction false} ShutdownParts(api: bool, l: Life, env: Env)
    ensures var (stopped, first) := StopOf(api, l, env);
            var released := ReleaseOf(CloseDown(stopped, env), env).0;
            var r := ShutdownOf(api, l, env).0;
            (first.Threw? ==> r == stopped) && (r == stopped || r == released || r == Emit(released, ServiceShutdown))
  {
  }

  lemma {:induction false} ClosingKeepsEvents(l: Life, env: Env)
    requires EventsFit(l)
    ensures var released := ReleaseOf(CloseDown(l, env), env).0;
            EventsFit(released) && EventsFit(Emit(released, ServiceShutdown))
  {
    CloseDownIsSame(l, env);
    EmitNext(ReleaseOf(CloseDown(l, env), env).0, ServiceShutdown);
  }

  lemma {:induction false} ShutdownKeepsEvents(api: bool, l: Life, env: Env)
    requires EventsFit(l)
    ensures EventsFit(ShutdownOf(api, l, env).0) <==> !LosesEvent(l, Shutdown(env))
  {
    StopKeepsEvents(api, l, env);
    ShutdownParts(api, l, env);
    assert LosesEvent(l, Stop(env)) <==> LosesEvent(l, Shutdown(env));
    var (stopped, first) := StopOf(api, l, env);
    if !first.Threw? && EventsFit(stopped) {
      ClosingKeepsEvents(stopped, env);
    }
  }

  lemma {:induction false} HaltKeepsEvents(l: Life, env: Env)
    requires EventsFit(l)
    ensures EventsFit(HaltOf(l, env).0) <==> !LosesEvent(l, Op.Halt(env))
  {
    if Reports(l, Op.Halt(env)) {
      ReportDecides(l, l.(state := ExecutionState.Halt), env, ServiceHalted);
    }
  }

  lemma {:induction false} ActivateKeepsEvents(l: Life, env: Env)
    requires EventsFit(l)
    ensures EventsFit(ActivateOf(l, env).0) <==> !LosesEvent(l, Activate(env))
  {
    if l.state == ExecutionState.Halt {
      if Api in l.servers {
        ReportDecides(l, l.(state := Running), env, ServiceStarted);
      }
    }
  }

  lemma {:induction false} HappenKeepsEvents(l: Life, h: Happening)
    requires EventsFit(l)
    ensures EventsFit(Befall(l, h))
  {
    TakeIsSame(l, Happen(l.link, h));
  }

  lemma {:induction false} DoKeepsEvents(api: bool, l: Life, op: Op)
    requires EventsFit(l)
    ensures EventsFit(Do(api, l, op).0) <==> !LosesEvent(l, op)
  {
    match op {
      case Start(env) =>
        StartKeepsEvents(api, l, env);
      case Stop(env) =>
        StopKeepsEvents(api, l, env);
      case Halt(env) =>
        HaltKeepsEvents(l, env);
      case Activate(env) =>
        ActivateKeepsEvents(l, env);
      case Restart(env, again) =>
        RestartKeepsEvents(api, l, env, again);
      case Shutdown(env) =>
        ShutdownKeepsEvents(api, l, env);
      case Background(h) =>
        HappenKeepsEvents(l, h);
      case Reload(_) =>
    }
  }

  /** After every operation of a history the events alternate and say whether the service is up. */
  ghost predicate FitsThroughout(api: bool, l: Life, ops: seq<Op>)
    decreases |ops|
  {
    EventsFit(l) && (ops == [] || FitsThroughout(api, Do(api, l, ops[0]).0, ops[1..]))
  }

  /** No operation of a history loses its event. */
  predicate LosesNone(api: bool, l: Life, ops: seq<Op>)
    decreases |ops|
  {
    ops == [] || (!LosesEvent(l, ops[0]) && LosesNone(api, Do(api, l, ops[0]).0, ops[1..]))
  }

  /** Over every history, whatever fails in it and whatever happens to the manager meanwhile: started events alternate
      strictly with stopped and halted ones and tell the state, all the way, exactly if no report of a stop, a halt or an
      activation runs into a manager client without information. */
  lemma {:induction false} EventsAlternateIff(api: bool, l: Life, ops: seq<Op>)
    requires EventsFit(l)
    ensures FitsThroughout(api, l, ops) <==> LosesNone(api, l, ops)
    ensures var end := Run(api, l, ops);
            LosesNone(api, l, ops) ==>
              EventsFit(end) && CountUp(end.events) == CountDown(end.events) + if Up(end.events) then 1 else 0
    decreases |ops|
  {
    if ops == [] {
      AlternateCounts(l.events);
    } else {
      var next := Do(api, l, ops[0]).0;
      DoKeepsEvents(api, l, ops[0]);
      if EventsFit(next) {
        EventsAlternateIff(api, next, ops[1..]);
      }
    }
  }

  // ---- what follows a lost event ----

  lemma {:induction false} OnlineEmits(api: bool, l: Life, env: Env)
    requires Up(l.events) && GoOnline(api, l, env).1.Returned?
    ensures !Alternate(GoOnline(api, l, env).0.events)
  {
    var starting := l.(state := Starting);
    MeanwhileIsSame(starting, env.meanwhile);
    var waited := Meanwhile(starting, env.meanwhile);
    StartingKeepsEvents(api, waited, env);
    var up := StartingOf(api, waited, env).0;
    EmitNext(up, ServiceStarted);
    assert GoOnline(api, l, env).0.events == Emit(up, ServiceStarted).events;
  }

  lemma {:induction false} StartEmits(api: bool, l: Life, env: Env)
    requires StartOf(api, l, env).1 == Returned(true) && Up(l.events)
    ensures !Alternate(StartOf(api, l, env).0.events)
  {
    var ready := if l.initialized then l else InitializeOf(l, env).0;
    var waited := Meanwhile(ready, env.early);
    MeanwhileIsSame(ready, env.early);
    DiscoverIsSame(waited, env.discovery);
    OnlineEmits(api, Discover(waited, env.discovery).0, env);
  }

  /** A stop that loses its event leaves the provider stopped and, going by the events, up; the next start that succeeds
      adds a second started event in a row. */
  lemma {:induction false} LostStopBreaks(api: bool, l: Life, env: Env, again: Env)
    requires EventsFit(l) && LosesEvent(l, Stop(env))
    ensures var stopped := Do(api, l, Stop(env)).0;
            stopped.state == Stopped && Up(stopped.events) && Do(api, l, Stop(env)).1 == Threw &&
            (Do(api, stopped, Start(again)).1 == Returned(true) ==>
               !Alternate(Do(api, stopped, Start(again)).0.events))
  {
    StopKeepsEvents(api, l, env);
    var stopped := StopOf(api, l, env).0;
    if StartOf(api, stopped, again).1 == Returned(true) {
      StartEmits(api, stopped, again);
    }
  }
}
