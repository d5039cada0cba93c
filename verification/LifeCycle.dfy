/**
 The life cycle of a provider: its operations, one after the other, each run to its end, while the connection to the
 service manager lives its own life in the background. What the environment decides about an operation is in `Env`.
 */
module LifeCycle {
  import opened Wrappers
  import opened States
  import opened ManagerLink

  /** The tasks of a provider. Servers have data handlers, the client to the service manager has error handlers. */
  datatype Task = Api | Response | Sys | Manager

  type Tasks = map<Task, nat>

  /** The places where the subclass can make an operation throw: its hooks, and that of `starting` also behind the point
      where it opens the API channel. */
  datatype Hook = InInitialize | InStarting | InListening | InStopping | InRelease | InReload

  /** Hooks that throw, tasks that cannot be stopped, what a discovery finds and whether reporting is switched on. Behind
      these, what happens to the manager meanwhile: early in the operation, before its report or before the report is
      scheduled, and while the report runs; and whether that report fails. */
  datatype Env = Env(
    broken: set<Hook>, stuck: set<Task>, discovery: Discovery, reports: bool,
    early: seq<Happening>, meanwhile: seq<Happening>, during: seq<Happening>, reportFails: bool)

  /** A restart has one environment for its stop and one for its start. */
  datatype Op =
    | Start(env: Env) | Stop(env: Env) | Halt(env: Env) | Activate(env: Env)
    | Restart(env: Env, again: Env) | Shutdown(env: Env) | Reload(env: Env)
    | Background(happening: Happening)

  /** `timer` says that the provider holds a report timer, `timers` how many run. The client to the manager, which the task
      map holds too, is part of `link`. */
  datatype Life = Life(
    state: ExecutionState, initialized: bool, servers: Tasks, link: Link, timer: bool, timers: int,
    events: seq<ServiceEvent>)

  const UNBORN := Life(Stopped, false, map[], UNLINKED, false, 0, [])

  // ---- the operations as functions ----

  function Emit(l: Life, e: ServiceEvent): Life {
    l.(events := l.events + [e])
  }

  function Take(l: Life, news: (Link, seq<ServiceEvent>)): Life {
    l.(link := news.0, events := l.events + news.1)
  }

  lemma {:induction false} TakeNothing(l: Life, k: Link)
    ensures Take(l, (k, [])) == l.(link := k)
  {
    assert l.events + [] == l.events;
  }

  /** Something happens to the manager. */
  function Befall(l: Life, h: Happening): Life {
    Take(l, Happen(l.link, h))
  }

  function Meanwhile(l: Life, hs: seq<Happening>): Life {
    Take(l, HappenAll(l.link, hs))
  }

  function Handlers(tasks: Tasks, t: Task): nat {
    if t in tasks then tasks[t] else 0
  }

  /** Getting a channel creates its server if there is none. */
  function SetChannel(tasks: Tasks, t: Task, subscribe: bool): Tasks {
    tasks[t := if subscribe then Handlers(tasks, t) + 1 else Minus(Handlers(tasks, t))]
  }

  predicate Startable(s: ExecutionState) {
    s == ExecutionState.Error || s == Initializing || s == Retrying || s == Stopped
  }

  function InitializeOf(l: Life, env: Env): (Life, Outcome) {
    var begun := l.(state := Initializing, servers := SetChannel(l.servers, Response, true));
    if InInitialize in env.broken then (begun, Threw)
    else (begun.(initialized := true, servers := SetChannel(begun.servers, Sys, true)), Returned(true))
  }

  function Discover(l: Life, d: Discovery): (Life, Outcome) {
    var (link, events, outcome) := DiscoverOf(l.link, d);
    (Take(l, (link, events)), outcome)
  }

  function StopTimer(l: Life): Life {
    if l.timer then l.(timer := false, timers := l.timers - 1) else l
  }

  function ScheduleOf(l: Life, reports: bool): Life {
    var off := StopTimer(l);
    if reports && l.link.client.Some? then off.(timer := true, timers := off.timers + 1) else off
  }

  /** The subclass's `starting`. */
  function StartingOf(api: bool, l: Life, env: Env): (Life, Outcome) {
    if InStarting in env.broken then (l, Threw)
    else
      (if api then l.(servers := SetChannel(l.servers, Api, true)) else l,
       if InListening in env.broken then Threw else Returned(true))
  }

  /** The part of `_start` behind initialization and discovery. */
  function GoOnline(api: bool, l: Life, env: Env): (Life, Outcome) {
    var (up, outcome) := StartingOf(api, Meanwhile(l.(state := Starting), env.meanwhile), env);
    if outcome.Threw? then (up, Threw)
    else (Emit(ScheduleOf(up, env.reports).(state := Running), ServiceStarted), Returned(true))
  }

  function StartOf(api: bool, l: Life, env: Env): (Life, Outcome) {
    if !Startable(l.state) then (l, Returned(false))
    else
      var (ready, first) := if l.initialized then (l, Returned(true)) else InitializeOf(l, env);
      if first.Threw? then (ready, Threw)
      else
        var (found, second) := Discover(Meanwhile(ready, env.early), env.discovery);
        if second.Returned? then GoOnline(api, found, env) else (found, second)
  }

  /** The end of a stop, a halt or an activation: a report, and the event if the report does not throw. A report that
      fails is an error of the manager, handled before the event. */
  function ReportAndEmit(l: Life, env: Env, e: ServiceEvent): (Life, Outcome) {
    var asked := Meanwhile(l, env.meanwhile);
    if Unbriefed(asked.link) then (asked, Threw)
    else
      var over := Meanwhile(asked, env.during);
      var fails := env.reportFails && asked.link.client.Some?;
      (Emit(if fails then Take(over, HandleError(over.link)) else over, e), Returned(true))
  }

  function KeepOnly(tasks: Tasks, keep: set<Task>): Tasks {
    map t | t in tasks && t in keep :: tasks[t]
  }

  function StopOf(api: bool, l: Life, env: Env): (Life, Outcome) {
    if l.state != Running then (l, Returned(false))
    else if InStopping in env.broken then (l.(state := Stopping), Threw)
    else
      var off := if api then SetChannel(l.servers, Api, false) else l.servers;
      ReportAndEmit(l.(state := Stopped, servers := KeepOnly(off, env.stuck)), env, ServiceStopped)
  }

  function HaltOf(l: Life, env: Env): (Life, Outcome) {
    if l.state != Running then (l, Returned(false))
    else if Api !in l.servers then (l.(state := Halting), Threw)
    else ReportAndEmit(l.(state := ExecutionState.Halt), env, ServiceHalted)
  }

  function ActivateOf(l: Life, env: Env): (Life, Outcome) {
    if l.state != ExecutionState.Halt then (l, Returned(false))
    else if Api !in l.servers then (l.(state := Starting), Threw)
    else ReportAndEmit(l.(state := Running), env, ServiceStarted)
  }

  function ReleaseOf(l: Life, env: Env): (Life, Outcome) {
    if InRelease in env.broken then (l, Threw) else (l.(initialized := false), Returned(true))
  }

  function ReloadOf(l: Life, env: Env): (Life, Outcome) {
    (l, if InReload in env.broken then Threw else Returned(true))
  }

  function RestartOf(api: bool, l: Life, env: Env, again: Env): (Life, Outcome) {
    var (stopped, first) := StopOf(api, l, env);
    if first.Threw? then (stopped, Threw)
    else
      var (released, second) := ReleaseOf(stopped, env);
      if second.Threw? || InReload in env.broken then (released, Threw)
      else
        var (started, third) := StartOf(api, released, again);
        (started, if third.Returned? then Returned(true) else third)
  }

  /** Between the stop and the release: system channel unsubscribed, no timer, no manager client. */
  function CloseDown(l: Life, env: Env): Life {
    var quiet := StopTimer(Meanwhile(l.(servers := SetChannel(l.servers, Sys, false)), env.early));
    quiet.(link := StopManager(quiet.link, Manager in env.stuck))
  }

  function ShutdownOf(api: bool, l: Life, env: Env): (Life, Outcome) {
    var (stopped, first) := StopOf(api, l, env);
    if first.Threw? then (stopped, Threw)
    else
      var (released, second) := ReleaseOf(CloseDown(stopped, env), env);
      if second.Threw? then (released, Threw) else (Emit(released, ServiceShutdown), Returned(true))
  }

  /** `api` says that the subclass opens the API channel when it starts and closes it when it stops. */
  function Do(api: bool, l: Life, op: Op): (Life, Outcome) {
    match op
    case Start(env) => StartOf(api, l, env)
    case Stop(env) => StopOf(api, l, env)
    case Halt(env) => HaltOf(l, env)
    case Activate(env) => ActivateOf(l, env)
    case Restart(env, again) => RestartOf(api, l, env, again)
    case Shutdown(env) => ShutdownOf(api, l, env)
    case Reload(env) => ReloadOf(l, env)
    case Background(h) => (Befall(l, h), Returned(true))
  }

  function Run(api: bool, l: Life, ops: seq<Op>): Life
    decreases |ops|
  {
    if ops == [] then l else Run(api, Do(api, l, ops[0]).0, ops[1..])
  }

  // ---- the operations as they change a provider ----

  class LifeCycle {
    const api: bool
    var state: ExecutionState
    var initialized: bool
    var tasks: Tasks
    var discovering: bool
    var flight: Flight
    var informed: bool
    var timer: bool
    ghost var timers: int
    ghost var events: seq<ServiceEvent>

    /** The task map holds the client to the manager as well; seen from outside, it is part of the link. */
    ghost function LinkView(): Link
      reads this
    {
      Link(discovering, flight, if Manager in tasks then Some(tasks[Manager]) else None, informed)
    }

    ghost function View(): Life
      reads this
    {
      Life(state, initialized, tasks - {Manager}, LinkView(), timer, timers, events)
    }

    constructor (api: bool)
      ensures this.api == api && View() == UNBORN
    {
      this.api := api;
      state, initialized, tasks, discovering, flight, informed := Stopped, false, map[], false, Grounded, false;
      timer, timers, events := false, 0, [];
    }

    method SetTaskChannel(t: Task, subscribe: bool)
      requires t != Manager
      modifies this`tasks
      ensures View() == old(View()).(servers := SetChannel(old(View()).servers, t, subscribe))
    {
      if t !in tasks {
        tasks := tasks[t := 0];
      }
      tasks := tasks[t := if subscribe then tasks[t] + 1 else Minus(tasks[t])];
      assert tasks - {Manager} == SetChannel(old(tasks) - {Manager}, t, subscribe);
    }

    // ---- the connection to the manager ----

    /** `_setManagerChannel(false)` on the client that is there. */
    method UnsubscribeManager()
      modifies this`tasks
      ensures View() == old(View()).(link := Unsubscribe(old(View()).link))
    {
      if Manager in tasks {
        tasks := tasks[Manager := Minus(tasks[Manager])];
      }
      assert tasks - {Manager} == old(tasks) - {Manager};
    }

    method PutManager(handlers: nat)
      modifies this`tasks
      ensures View() == old(View()).(link := old(View()).link.(client := Some(handlers)))
    {
      tasks := tasks[Manager := handlers];
      assert tasks - {Manager} == old(tasks) - {Manager};
    }

    method BeginDiscovery()
      modifies this
      ensures View() == old(View()).(link := Begin(old(View()).link))
    {
      if discovering {
        return;
      }
      discovering, informed := true, false;
      tasks := tasks - {Manager};
      flight := Searching;
      assert tasks - {Manager} == old(tasks) - {Manager};
    }

    method HandleTcpMgrError()
      modifies this
      ensures View() == Take(old(View()), HandleError(old(View()).link))
    {
      if Manager !in tasks {
        return;
      }
      UnsubscribeManager();
      events := events + [ManagerDisconnect];
      BeginDiscovery();
    }

    method ConnectManager()
      modifies this
      ensures View() == Take(old(View()), (CONNECTED, [ManagerConnected]))
    {
      informed := true;
      PutManager(1);
      events := events + [ManagerConnected];
      discovering, flight := false, Grounded;
    }

    method LetHappen(h: Happening)
      modifies this
      ensures View() == Befall(old(View()), h)
    {
      match h {
        case ManagerError =>
          if Manager in tasks && tasks[Manager] > 0 {
            UnsubscribeManager();
            HandleTcpMgrError();
          }
        case ReportFails =>
          HandleTcpMgrError();
        case FindManager =>
          if flight == Searching {
            flight := Connecting;
            PutManager(0);
          }
        case FindNothing =>
          if flight == Searching {
            flight := Grounded;
          }
        case Connect =>
          if flight == Connecting {
            ConnectManager();
          }
        case FailToConnect =>
          if flight == Connecting {
            flight := Grounded;
          }
      }
    }

    method LetAllHappen(hs: seq<Happening>)
      modifies this
      ensures View() == Meanwhile(old(View()), hs)
    {
      ghost var was := View();
      var i := 0;
      assert hs[0..] == hs;
      while i < |hs|
        invariant 0 <= i <= |hs|
        invariant Meanwhile(View(), hs[i..]) == Meanwhile(was, hs)
      {
        MeanwhileNext(View(), hs, i);
        LetHappen(hs[i]);
        i := i + 1;
      }
    }

    method DiscoverServiceManager(d: Discovery) returns (outcome: Outcome)
      modifies this
      ensures (View(), outcome) == Discover(old(View()), d)
    {
      if discovering {
        TakeNothing(View(), LinkView());
        return Returned(true);
      }
      BeginDiscovery();
      match d {
        case FindsNothing =>
          flight := Grounded;
          TakeNothing(old(View()), LinkView());
          return Returned(true);
        case CannotConnect | NeverConnects =>
          PutManager(0);
          flight := Grounded;
          TakeNothing(old(View()), LinkView());
          return if d == CannotConnect then Threw else Hung;
        case Connects =>
          ConnectManager();
          return Returned(true);
      }
    }

    // ---- reports ----

    method StopReportSchedule()
      modifies this`timer, this`timers
      ensures View() == StopTimer(old(View()))
    {
      if timer {
        timer, timers := false, timers - 1;
      }
    }

    method StartReportSchedule(reports: bool)
      modifies this`timer, this`timers
      ensures View() == ScheduleOf(old(View()), reports)
    {
      StopReportSchedule();
      if !reports || Manager !in tasks {
        return;
      }
      timer, timers := true, timers + 1;
    }

    /** `_report` at the end of an operation, and the event behind it. Without a manager client there is nothing to do; with
        one, the manager's information is read. */
    method ReportAndAnnounce(env: Env, e: ServiceEvent) returns (outcome: Outcome)
      modifies this
      ensures (View(), outcome) == ReportAndEmit(old(View()), env, e)
    {
      LetAllHappen(env.meanwhile);
      var asks := Manager in tasks;
      if asks && !informed {
        return Threw;
      }
      LetAllHappen(env.during);
      if asks && env.reportFails {
        HandleTcpMgrError();
      }
      events := events + [e];
      return Returned(true);
    }

    // ---- the operations ----

    method InitializeResources(env: Env) returns (outcome: Outcome)
      modifies this
      ensures (View(), outcome) == InitializeOf(old(View()), env)
    {
      state := Initializing;
      SetTaskChannel(Response, true);
      if InInitialize in env.broken {
        return Threw;
      }
      initialized := true;
      SetTaskChannel(Sys, true);
      return Returned(true);
    }

    method StartInSubclass(env: Env) returns (outcome: Outcome)
      modifies this`tasks
      ensures (View(), outcome) == StartingOf(api, old(View()), env)
    {
      if InStarting in env.broken {
        return Threw;
      }
      if api {
        SetTaskChannel(Api, true);
      }
      outcome := if InListening in env.broken then Threw else Returned(true);
    }

    method OpenService(env: Env) returns (outcome: Outcome)
      modifies this
      ensures (View(), outcome) == GoOnline(api, old(View()), env)
    {
      state := Starting;
      LetAllHappen(env.meanwhile);
      outcome := StartInSubclass(env);
      if outcome.Threw? {
        return;
      }
      StartReportSchedule(env.reports);
      state := Running;
      events := events + [ServiceStarted];
      return Returned(true);
    }

    method DoStart(env: Env) returns (outcome: Outcome)
      modifies this
      ensures (View(), outcome) == StartOf(api, old(View()), env)
    {
      if !Startable(state) {
        return Returned(false);
      }
      if !initialized {
        outcome := InitializeResources(env);
        if outcome.Threw? {
          return;
        }
      }
      LetAllHappen(env.early);
      outcome := DiscoverServiceManager(env.discovery);
      if outcome.Returned? {
        outcome := OpenService(env);
      }
    }

    /** Stops the tasks one by one, the manager's excepted; those that cannot be stopped stay. */
    method StopTasks(stuck: set<Task>)
      modifies this`tasks
      ensures View() == old(View()).(servers := KeepOnly(old(View()).servers, stuck))
    {
      ghost var was := tasks;
      var names := tasks.Keys;
      while names != {}
        invariant names <= was.Keys
        invariant tasks == map t | t in was && (t in names || t in stuck + {Manager}) :: was[t]
        decreases |names|
      {
        var name :| name in names;
        if name != Manager && name !in stuck {
          tasks := tasks - {name};
        }
        names := names - {name};
      }
      assert tasks - {Manager} == KeepOnly(was - {Manager}, stuck);
    }

    method DoStop(env: Env) returns (outcome: Outcome)
      modifies this
      ensures (View(), outcome) == StopOf(api, old(View()), env)
    {
      if state != Running {
        return Returned(false);
      }
      state := Stopping;
      if InStopping in env.broken {
        return Threw;
      }
      if api {
        SetTaskChannel(Api, false);
      }
      StopTasks(env.stuck);
      state := Stopped;
      outcome := ReportAndAnnounce(env, ServiceStopped);
    }

    method DoHalt(env: Env) returns (outcome: Outcome)
      modifies this
      ensures (View(), outcome) == HaltOf(old(View()), env)
    {
      if state != Running {
        return Returned(false);
      }
      state := Halting;
      if Api !in tasks {
        return Threw;
      }
      state := ExecutionState.Halt;
      outcome := ReportAndAnnounce(env, ServiceHalted);
    }

    method DoActivate(env: Env) returns (outcome: Outcome)
      modifies this
      ensures (View(), outcome) == ActivateOf(old(View()), env)
    {
      if state != ExecutionState.Halt {
        return Returned(false);
      }
      state := Starting;
      if Api !in tasks {
        return Threw;
      }
      state := Running;
      outcome := ReportAndAnnounce(env, ServiceStarted);
    }

    method ReleaseResources(env: Env) returns (outcome: Outcome)
      modifies this`initialized
      ensures (View(), outcome) == ReleaseOf(old(View()), env)
    {
      if InRelease in env.broken {
        return Threw;
      }
      initialized := false;
      return Returned(true);
    }

    method DoRestart(env: Env, again: Env) returns (outcome: Outcome)
      modifies this
      ensures (View(), outcome) == RestartOf(api, old(View()), env, again)
    {
      outcome := DoStop(env);
      if outcome.Threw? {
        return;
      }
      outcome := ReleaseResources(env);
      if outcome.Threw? || InReload in env.broken {
        return Threw;
      }
      outcome := DoStart(again);
      if outcome.Returned? {
        outcome := Returned(true);
      }
    }

    method StopManagerTask(stuck: set<Task>)
      modifies this`tasks
      ensures View() == old(View()).(link := StopManager(old(View()).link, Manager in stuck))
    {
      if Manager in tasks {
        UnsubscribeManager();
        if Manager !in stuck {
          tasks := tasks - {Manager};
        }
      }
      assert tasks - {Manager} == old(tasks) - {Manager};
    }

    method CloseChannels(env: Env)
      modifies this
      ensures View() == CloseDown(old(View()), env)
    {
      SetTaskChannel(Sys, false);
      LetAllHappen(env.early);
      StopReportSchedule();
      StopManagerTask(env.stuck);
    }

    method DoShutdown(env: Env) returns (outcome: Outcome)
      modifies this
      ensures (View(), outcome) == ShutdownOf(api, old(View()), env)
    {
      outcome := DoStop(env);
      if outcome.Threw? {
        return;
      }
      CloseChannels(env);
      outcome := ReleaseResources(env);
      if outcome.Threw? {
        return;
      }
      events := events + [ServiceShutdown];
    }
  }

  lemma {:induction false} MeanwhileNext(l: Life, hs: seq<Happening>, i: nat)
    requires i < |hs|
    ensures Meanwhile(l, hs[i..]) == Meanwhile(Befall(l, hs[i]), hs[i + 1..])
  {
    assert hs[i..][1..] == hs[i + 1..];
    var (next, first) := Happen(l.link, hs[i]);
    var more := HappenAll(next, hs[i + 1..]).1;
    assert l.events + (first + more) == l.events + first + more;
  }
}
