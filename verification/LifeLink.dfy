/** The connection to the manager over whole histories of the life cycle: where events are lost, and where discovery ends. */
module LifeLink {
  import opened Wrappers
  import opened States
  import opened ManagerLink
  import opened LifeCycle
  import opened LifeEvents

  // ---- properties that every operation keeps ----

  predicate Finds(d: Discovery) {
    d == Connects || d == FindsNothing
  }

  /** Nothing goes wrong between the provider and its manager. */
  predicate IsCalmEnv(env: Env) {
    Finds(env.discovery) && IsCalm(env.early) && IsCalm(env.meanwhile) && IsCalm(env.during) && !env.reportFails
  }

  predicate IsCalmOp(op: Op) {
    match op
    case Start(env) => IsCalmEnv(env)
    case Stop(env) => IsCalmEnv(env)
    case Halt(env) => IsCalmEnv(env)
    case Activate(env) => IsCalmEnv(env)
    case Restart(env, again) => IsCalmEnv(env) && IsCalmEnv(again)
    case Shutdown(env) => IsCalmEnv(env)
    case Reload(_) => true
    case Background(h) => !IsTrouble(h)
  }

  predicate IsServiceEvent(e: ServiceEvent) {
    e != ManagerConnected && e != ManagerDisconnect
  }

  /** A property of link and events only, which the events of the service itself do not touch. */
  ghost predicate OfTheLink(P: Life -> bool) {
    (forall l: Life, m: Life :: P(l) && m.link == l.link && m.events == l.events ==> P(m)) &&
    (forall l: Life, e :: P(l) && IsServiceEvent(e) ==> P(Emit(l, e)))
  }

  /** Whatever happens to the manager keeps the property; `calm` leaves out what goes wrong. */
  ghost predicate Stable(P: Life -> bool, calm: bool) {
    (forall l: Life, h {:trigger Befall(l, h)} :: P(l) && (calm ==> !IsTrouble(h)) ==> P(Befall(l, h))) &&
    (forall l: Life, d {:trigger Discover(l, d)} :: P(l) && (calm ==> Finds(d)) ==> P(Discover(l, d).0)) &&
    (forall l: Life, stuck :: P(l) ==> P(l.(link := StopManager(l.link, stuck))))
  }

  ghost predicate Kept(P: Life -> bool, calm: bool) {
    OfTheLink(P) && Stable(P, calm)
  }

  lemma {:induction false} MeanwhileKeeps(P: Life -> bool, calm: bool, l: Life, hs: seq<Happening>)
    requires Kept(P, calm) && P(l) && (calm ==> IsCalm(hs))
    ensures P(Meanwhile(l, hs))
    decreases |hs|
  {
    if hs == [] {
      TakeNothing(l, l.link);
    } else {
      assert hs[0] in hs && forall h <- hs[1..] :: h in hs;
      MeanwhileNext(l, hs, 0);
      assert hs[0..] == hs;
      MeanwhileKeeps(P, calm, Befall(l, hs[0]), hs[1..]);
    }
  }

  lemma {:induction false} ReportKeeps(P: Life -> bool, calm: bool, l: Life, env: Env, e: ServiceEvent)
    requires Kept(P, calm) && P(l) && (calm ==> IsCalmEnv(env)) && IsServiceEvent(e)
    ensures P(ReportAndEmit(l, env, e).0)
  {
    var asked := Meanwhile(l, env.meanwhile);
    MeanwhileKeeps(P, calm, l, env.meanwhile);
    if !Unbriefed(asked.link) {
      MeanwhileKeeps(P, calm, asked, env.during);
      var over := Meanwhile(asked, env.during);
      assert env.reportFails ==> P(Befall(over, ReportFails));
    }
  }

  lemma {:induction false} OnlineKeeps(P: Life -> bool, calm: bool, api: bool, l: Life, env: Env)
    requires Kept(P, calm) && P(l) && (calm ==> IsCalmEnv(env))
    ensures P(GoOnline(api, l, env).0)
  {
    var starting := l.(state := Starting);
    MeanwhileKeeps(P, calm, starting, env.meanwhile);
    var (up, outcome) := StartingOf(api, Meanwhile(starting, env.meanwhile), env);
    assert P(up);
    var scheduled := ScheduleOf(up, env.reports).(state := Running);
    assert P(scheduled) && P(Emit(scheduled, ServiceStarted));
  }

  lemma {:induction false} StartKeeps(P: Life -> bool, calm: bool, api: bool, l: Life, env: Env)
    requires Kept(P, calm) && P(l) && (calm ==> IsCalmEnv(env))
    ensures P(StartOf(api, l, env).0)
  {
    if Startable(l.state) {
      var (ready, first) := if l.initialized then (l, Returned(true)) else InitializeOf(l, env);
      assert P(ready);
      if first.Returned? {
        MeanwhileKeeps(P, calm, ready, env.early);
        var (found, second) := Discover(Meanwhile(ready, env.early), env.discovery);
        if second.Returned? {
          OnlineKeeps(P, calm, api, found, env);
        }
      }
    }
  }

  lemma {:induction false} StopKeeps(P: Life -> bool, calm: bool, api: bool, l: Life, env: Env)
    requires Kept(P, calm) && P(l) && (calm ==> IsCalmEnv(env))
    ensures P(StopOf(api, l, env).0)
  {
    var off := if api then SetChannel(l.servers, Api, false) else l.servers;
    var stopped := l.(state := Stopped, servers := KeepOnly(off, env.stuck));
    assert P(l.(state := Stopping));
    ReportKeeps(P, calm, stopped, env, ServiceStopped);
  }

  lemma {:induction false} ClosingKeeps(P: Life -> bool, calm: bool, l: Life, env: Env)
    requires Kept(P, calm) && P(l) && (calm ==> IsCalmEnv(env))
    ensures P(CloseDown(l, env))
  {
    var off := l.(servers := SetChannel(l.servers, Sys, false));
    MeanwhileKeeps(P, calm, off, env.early);
    assert P(StopTimer(Meanwhile(off, env.early)));
  }

  lemma {:induction false} RestartKeeps(P: Life -> bool, calm: bool, api: bool, l: Life, env: Env, again: Env)
    requires Kept(P, calm) && P(l) && (calm ==> IsCalmEnv(env) && IsCalmEnv(again))
    ensures P(RestartOf(api, l, env, again).0)
  {
    StopKeeps(P, calm, api, l, env);
    var released := ReleaseOf(StopOf(api, l, env).0, env).0;
    assert P(released);
    StartKeeps(P, calm, api, released, again);
    RestartParts(api, l, env, again);
  }

  lemma {:induction false} ShutdownKeeps(P: Life -> bool, calm: bool, api: bool, l: Life, env: Env)
    requires Kept(P, calm) && P(l) && (calm ==> IsCalmEnv(env))
    ensures P(ShutdownOf(api, l, env).0)
  {
    StopKeeps(P, calm, api, l, env);
    ClosingKeeps(P, calm, StopOf(api, l, env).0, env);
    ShutdownParts(api, l, env);
  }

  lemma {:induction false} DoKeeps(P: Life -> bool, calm: bool, api: bool, l: Life, op: Op)
    requires Kept(P, calm) && P(l) && (calm ==> IsCalmOp(op))
    ensures P(Do(api, l, op).0)
  {
    match op {
      case Start(env) =>
        StartKeeps(P, calm, api, l, env);
      case Stop(env) =>
        StopKeeps(P, calm, api, l, env);
      case Halt(env) =>
        ReportKeeps(P, calm, l.(state := ExecutionState.Halt), env, ServiceHalted);
      case Activate(env) =>
        ReportKeeps(P, calm, l.(state := Running), env, ServiceStarted);
      case Restart(env, again) =>
        RestartKeeps(P, calm, api, l, env, again);
      case Shutdown(env) =>
        ShutdownKeeps(P, calm, api, l, env);
      case Background(h) =>
        assert P(Befall(l, h));
      case Reload(_) =>
    }
  }

  /** What every happening, every discovery and every stop of the manager client keeps, every history keeps. */
  lemma {:induction false} RunKeeps(P: Life -> bool, calm: bool, api: bool, l: Life, ops: seq<Op>)
    requires Kept(P, calm) && P(l) && (calm ==> forall op <- ops :: IsCalmOp(op))
    ensures P(Run(api, l, ops))
    decreases |ops|
  {
    if ops != [] {
      assert ops[0] in ops && forall op <- ops[1..] :: op in ops;
      DoKeeps(P, calm, api, l, ops[0]);
      RunKeeps(P, calm, api, Do(api, l, ops[0]).0, ops[1..]);
    }
  }

  // ---- where events are lost ----

  predicate HasFit(l: Life) {
    Fits(l.link)
  }

  lemma {:induction false} FitsIsKept()
    ensures Kept(HasFit, false)
  {
    forall l: Life, h | HasFit(l)
      ensures HasFit(Befall(l, h))
    {
      HappenFits(l.link, h);
    }
    forall l: Life, d | HasFit(l)
      ensures HasFit(Discover(l, d).0)
    {
      DiscoverFits(l.link, d);
    }
  }

  lemma {:induction false} LinkFits(api: bool, l: Life, ops: seq<Op>)
    requires Fits(l.link)
    ensures Fits(Run(api, l, ops).link)
  {
    FitsIsKept();
    RunKeeps(HasFit, false, api, l, ops);
  }

  /** Behind every history: an operation loses its event exactly if, where its report runs, there is the client of a
      discovery that has not connected. Such a discovery is still connecting, or it has given up. */
  lemma {:induction false} LosesWhileDiscovering(api: bool, l: Life, ops: seq<Op>, op: Op)
    requires Fits(l.link)
    ensures var m := Run(api, l, ops);
            LosesEvent(m, op) <==>
            Reports(m, op) && var k := LinkAtReport(m.link, op); k.client.Some? && k.discovering
    ensures var m := Run(api, l, ops);
            LosesEvent(m, op) ==> var k := LinkAtReport(m.link, op); k.flight == Connecting || GaveUp(k)
  {
    LinkFits(api, l, ops);
    var m := Run(api, l, ops);
    if Reports(m, op) {
      HappenAllFits(m.link, ReportEnv(op).value.meanwhile);
      UnbriefedWhileDiscovering(LinkAtReport(m.link, op));
    }
  }

  /** No discovery is in flight, and a manager client has its information. */
  predicate Settled(k: Link) {
    k.flight == Grounded && !Unbriefed(k)
  }

  predicate HasSettled(l: Life) {
    Settled(l.link)
  }

  lemma {:induction false} SettledIsKept()
    ensures Kept(HasSettled, true)
  {
  }

  lemma {:induction false} CalmLosesNotNow(l: Life, op: Op)
    requires Settled(l.link) && IsCalmOp(op)
    ensures !LosesEvent(l, op)
  {
    if ReportEnv(op).Some? {
      CalmIsStill(l.link, ReportEnv(op).value.meanwhile);
    }
  }

  /** Without an error of the manager client, a failed report or a discovery that does not connect, no event is lost:
      whichever hooks throw and whichever tasks stay. */
  lemma {:induction false} CalmHistoriesLoseNone(api: bool, l: Life, ops: seq<Op>)
    requires Settled(l.link) && forall op <- ops :: IsCalmOp(op)
    ensures LosesNone(api, l, ops)
    decreases |ops|
  {
    if ops != [] {
      assert ops[0] in ops && forall op <- ops[1..] :: op in ops;
      CalmLosesNotNow(l, ops[0]);
      SettledIsKept();
      DoKeeps(HasSettled, true, api, l, ops[0]);
      CalmHistoriesLoseNone(api, Do(api, l, ops[0]).0, ops[1..]);
    }
  }

  // ---- ways there ----

  /** What a discovery that did not connect leaves behind; nothing moves it. */
  const STRANDED := Link(true, Grounded, Some(0), false)

  lemma {:induction false} StrandedStays(hs: seq<Happening>)
    ensures HappenAll(STRANDED, hs).0 == STRANDED
    decreases |hs|
  {
    if hs != [] {
      assert Happen(STRANDED, hs[0]).0 == STRANDED;
      StrandedStays(hs[1..]);
    }
  }

  lemma {:induction false} UnlinkedStays(hs: seq<Happening>)
    ensures HappenAll(UNLINKED, hs).0 == UNLINKED
    decreases |hs|
  {
    if hs != [] {
      assert Happen(UNLINKED, hs[0]).0 == UNLINKED;
      UnlinkedStays(hs[1..]);
    }
  }

  /** The first start of a provider, with a discovery that does not connect. */
  lemma {:induction false} FirstStartStrands(api: bool, env: Env)
    requires env.broken == {} && env.discovery in {CannotConnect, NeverConnects}
    ensures var (r, outcome) := Do(api, UNBORN, Start(env));
            r.link == STRANDED && r.state == Initializing && r.initialized && EventsFit(r) && !outcome.Returned? &&
            Handlers(r.servers, Response) == 1
  {
    var ready := InitializeOf(UNBORN, env).0;
    UnlinkedStays(env.early);
    var waited := Meanwhile(ready, env.early);
    assert waited.link == UNLINKED;
    assert StartOf(api, UNBORN, env) == Discover(waited, env.discovery);
    StartKeepsEvents(api, UNBORN, env);
  }

  /** A stranded provider starts and stops, without manager. */
  lemma {:induction false} StrandedStarts(api: bool, l: Life, env: Env)
    requires Startable(l.state) && l.link == STRANDED && env.broken == {}
    ensures var (r, outcome) := StartOf(api, l, env);
            outcome == Returned(true) && r.state == Running && r.link == STRANDED
  {
    var ready := if l.initialized then l else InitializeOf(l, env).0;
    StrandedStays(env.early);
    var waited := Meanwhile(ready, env.early);
    var found := Discover(waited, env.discovery).0;
    assert found.link == STRANDED;
    StrandedStays(env.meanwhile);
    assert StartOf(api, l, env) == GoOnline(api, found, env);
  }

  /** A first start that does not connect to the manager, then start, stop and start: two started events in a row,
      whatever happens to the manager meanwhile. */
  lemma {:induction false} TwoStartsInARow(api: bool, env: Env, again: Env, stop: Env, last: Env)
    requires env.broken == again.broken == stop.broken == last.broken == {}
    requires env.discovery in {CannotConnect, NeverConnects}
    ensures var failed := Do(api, UNBORN, Start(env)).0;
            var running := Do(api, failed, Start(again)).0;
            var stopped := Do(api, running, Stop(stop)).0;
            LosesEvent(running, Stop(stop)) && !Alternate(Do(api, stopped, Start(last)).0.events)
  {
    FirstStartStrands(api, env);
    var failed := StartOf(api, UNBORN, env).0;
    StrandedStarts(api, failed, again);
    StartKeepsEvents(api, failed, again);
    var running := StartOf(api, failed, again).0;
    StrandedStays(stop.meanwhile);
    LostStopBreaks(api, running, stop, last);
    StrandedStarts(api, StopOf(api, running, stop).0, last);
  }

  const LOOKING := Link(true, Searching, None, false)

  const CONNECTING := Link(true, Connecting, Some(0), false)

  /** An error of the manager client or a failed report is enough: a stop loses its event if the discovery that follows
      has found a manager by the time of its report, and not if it has also connected to it. */
  lemma {:induction false} TroubleLoses(l: Life, h: Happening, env: Env)
    requires l.state == Running && l.link == CONNECTED && IsTrouble(h) && InStopping !in env.broken
    ensures env.meanwhile == [h, FindManager] ==> LosesEvent(l, Stop(env))
    ensures env.meanwhile == [h, FindManager, Connect] ==> !LosesEvent(l, Stop(env))
    ensures env.meanwhile == [h] ==> !LosesEvent(l, Stop(env))
  {
    assert Happen(CONNECTED, h).0 == LOOKING;
    assert Happen(LOOKING, FindManager).0 == CONNECTING && Happen(CONNECTING, Connect).0 == CONNECTED;
    assert [h][1..] == [] && [h, FindManager][1..] == [FindManager];
    assert [h, FindManager, Connect][1..] == [FindManager, Connect] && [FindManager, Connect][1..] == [Connect];
    assert [FindManager][1..] == [] && [Connect][1..] == [];
    assert HappenAll(LOOKING, []).0 == LOOKING && HappenAll(CONNECTING, []).0 == CONNECTING;
    assert HappenAll(CONNECTED, []).0 == CONNECTED && HappenAll(CONNECTING, [Connect]).0 == CONNECTED;
    assert HappenAll(LOOKING, [FindManager]).0 == CONNECTING;
    assert HappenAll(LOOKING, [FindManager, Connect]).0 == CONNECTED;
  }

  lemma {:induction false} FailingStop(api: bool, l: Life, env: Env)
    requires EventsFit(l) && l.state == Running && l.link == CONNECTED
    requires env.broken == {} && IsCalm(env.meanwhile) && IsCalm(env.during) && env.reportFails
    ensures var (r, outcome) := StopOf(api, l, env);
            outcome == Returned(true) && r.state == Stopped && r.link == LOOKING && EventsFit(r)
  {
    CalmIsStill(CONNECTED, env.meanwhile);
    CalmIsStill(CONNECTED, env.during);
    StopKeepsEvents(api, l, env);
  }

  lemma {:induction false} StopWhileConnecting(api: bool, l: Life, env: Env)
    requires EventsFit(l) && l.state == Running && l.link == LOOKING
    requires env.broken == {} && env.meanwhile == [FindManager]
    ensures var (r, outcome) := StopOf(api, l, env);
            LosesEvent(l, Stop(env)) && r.state == Stopped && r.link == CONNECTING && outcome == Threw
  {
    assert Happen(LOOKING, FindManager).0 == CONNECTING;
    assert [FindManager][1..] == [] && HappenAll(CONNECTING, []).0 == CONNECTING;
    StopKeepsEvents(api, l, env);
  }

  lemma {:induction false} StartWhileDiscovering(api: bool, l: Life, env: Env)
    requires l.state == Stopped && l.link.discovering && env.broken == {} && env.early == env.meanwhile == []
    ensures var (r, outcome) := StartOf(api, l, env);
            outcome == Returned(true) && r.link == l.link && r.state == Running
  {
    var ready := if l.initialized then l else InitializeOf(l, env).0;
    assert HappenAll(ready.link, []) == (ready.link, []);
    assert Discover(Meanwhile(ready, []), env.discovery).0.link == l.link;
  }

  /** A stop whose report fails returns true, with its event, and starts a discovery; the next start does not wait for it. */
  lemma {:induction false} FailedReportLooks(api: bool, l: Life, failing: Env, plain: Env)
    requires EventsFit(l) && l.state == Running && l.link == CONNECTED && failing.broken == plain.broken == {}
    requires IsCalm(failing.meanwhile) && IsCalm(failing.during) && failing.reportFails
    requires plain.early == plain.meanwhile == []
    ensures var (stopped, first) := StopOf(api, l, failing);
            var (running, second) := StartOf(api, stopped, plain);
            first == second == Returned(true) && EventsFit(running) && running.state == Running && running.link == LOOKING
  {
    FailingStop(api, l, failing);
    var stopped := StopOf(api, l, failing).0;
    StartWhileDiscovering(api, stopped, plain);
    StartKeepsEvents(api, stopped, plain);
  }

  /** From there: a stop throws, its event lost, while that discovery connects; the start behind it is the second in a row;
      then the manager is connected. */
  lemma {:induction false} LostWhileConnecting(api: bool, l: Life, finding: Env, plain: Env)
    requires EventsFit(l) && l.state == Running && l.link == LOOKING && finding.broken == plain.broken == {}
    requires finding.meanwhile == [FindManager] && plain.early == plain.meanwhile == []
    ensures var (lost, first) := StopOf(api, l, finding);
            var (again, second) := StartOf(api, lost, plain);
            first == Threw && second == Returned(true) && !Alternate(again.events) &&
            Befall(again, Connect).link == CONNECTED
  {
    StopWhileConnecting(api, l, finding);
    LostStopBreaks(api, l, finding, plain);
    StartWhileDiscovering(api, StopOf(api, l, finding).0, plain);
  }

  // ---- discovery gives up ----

  /** Only more events, no connection among them, and no client that was not there. */
  ghost predicate StaysAlone(l: Life, m: Life) {
    GaveUp(m.link) && (m.link.client.Some? ==> l.link.client.Some?) && l.events <= m.events &&
    forall i :: |l.events| <= i < |m.events| ==> !IsConnection(m.events[i])
  }

  ghost function AloneSince(l: Life): Life -> bool {
    m => StaysAlone(l, m)
  }

  lemma {:induction false} StaysAloneOnce(l: Life, m: Life, news: (Link, seq<ServiceEvent>))
    requires StaysAlone(l, m) && GaveUp(news.0) && (news.0.client.Some? ==> m.link.client.Some?)
    requires forall e <- news.1 :: !IsConnection(e)
    ensures StaysAlone(l, Take(m, news))
  {
    forall i | |l.events| <= i < |m.events + news.1|
      ensures !IsConnection((m.events + news.1)[i])
    {
      if i >= |m.events| {
        assert news.1[i - |m.events|] in news.1;
      }
    }
  }

  lemma {:induction false} StaysAloneIsKept(l: Life)
    ensures Kept(AloneSince(l), false)
  {
    var P := AloneSince(l);
    forall m: Life, h {:trigger Befall(m, h)} | P(m)
      ensures P(Befall(m, h))
    {
      StaysAloneOnce(l, m, Happen(m.link, h));
    }
    forall m: Life, d {:trigger Discover(m, d)} | P(m)
      ensures P(Discover(m, d).0)
    {
      StaysAloneOnce(l, m, (m.link, []));
    }
  }

  /** From a flag on that no discovery could clear, no operation looks for a manager again: no further connection, and no
      manager client that was not there already. */
  lemma {:induction false} DiscoveryGivesUp(api: bool, l: Life, ops: seq<Op>)
    requires GaveUp(l.link)
    ensures StaysAlone(l, Run(api, l, ops))
  {
    StaysAloneIsKept(l);
    RunKeeps(AloneSince(l), false, api, l, ops);
  }

  /** So a discovery that found nothing, or could not connect, was the last one, whether a start waited for it or not. */
  lemma {:induction false} FailedDiscoveryIsLast(api: bool, l: Life, d: Discovery, h: Happening, ops: seq<Op>)
    ensures l.link.flight == Grounded && d != Connects ==>
              var m := Discover(l, d).0; StaysAlone(m, Run(api, m, ops))
    ensures (l.link.flight == Searching && l.link.discovering && h == FindNothing) ||
            (l.link.flight == Connecting && l.link.discovering && h == FailToConnect) ==>
              var m := Do(api, l, Background(h)).0; StaysAlone(m, Run(api, m, ops))
  {
    var m := Discover(l, d).0;
    if l.link.flight == Grounded && d != Connects {
      DiscoveryGivesUp(api, m, ops);
    }
    var n := Do(api, l, Background(h)).0;
    if GaveUp(n.link) {
      DiscoveryGivesUp(api, n, ops);
    }
  }
}
