/**
 Discovery and registration of a provider, interleaved at every await. A step is the code between two awaits; a run is
 any sequence of steps. The booking flags are set before the first await, which is what keeps a second loop from starting.
 */
module Booking {
  import opened Wrappers
  import M = ManagerLink

  /** A discovery in flight: looking for a manager, connecting a new client, or subscribed to the client's errors. */
  datatype Flight = Searching | Connecting(client: nat) | Watching(client: nat)

  /** `discovering` and `registering` are the booking flags. `listening` is the number of error handlers a client has,
      `everGiven` the number it was ever given. `recovering` counts error handlers that have not reached their discovery.
      `stopped` are the clients that were stopped: their sockets are destroyed, and nothing starts them again.
      `informed` says that the manager's information is there, which a report needs.
      `closing` counts shutdowns that have unsubscribed from the manager client and not yet stopped it, `stopping` those
      that have stopped it and not yet removed it. `abandoned` counts discoveries that ended without a manager. */
  datatype Provider = Provider(
    discovering: bool, flights: seq<Flight>, abandoned: nat,
    manager: Option<nat>, informed: bool, clients: nat, listening: map<nat, nat>, everGiven: map<nat, nat>, recovering: nat,
    stopped: set<nat>, closing: nat, stopping: nat, registering: bool, registrations: nat)

  /** A connection that fails with an error nobody listens for never ends; for the rest of the program that is the same as
      one that fails. */
  datatype Step =
    | Discover
    | FindManager(flight: nat)
    | FindNothing(flight: nat)
    | Connect(flight: nat)
    | FailToConnect(flight: nat)
    | Conclude(flight: nat)
    | ClientError(client: nat)
    | LateError(client: nat)
    | ReportFails
    | Recover
    | StopManager
    | CloseManager
    | ForgetManager(stopped: bool)
    | Register
    | Attempt(success: bool)

  function Get(m: map<nat, nat>, k: nat): nat {
    if k in m then m[k] else 0
  }

  /** A stopped client is removed before the code gets back to the event loop, so before any answer of the network to a
      discovery. It raises no errors, except for one that was already on its way, while there is no manager task. */
  predicate Enabled(p: Provider, step: Step) {
    match step
    case FindManager(i) => i < |p.flights| && p.flights[i].Searching? && p.stopping == 0
    case FindNothing(i) => i < |p.flights| && p.flights[i].Searching?
    case Connect(i) => i < |p.flights| && p.flights[i].Connecting?
    case FailToConnect(i) => i < |p.flights| && p.flights[i].Connecting?
    case Conclude(i) => i < |p.flights| && p.flights[i].Watching?
    case ClientError(c) => Get(p.listening, c) > 0 && c !in p.stopped
    case LateError(c) => Get(p.listening, c) > 0 && c in p.stopped && p.manager.None?
    case CloseManager => p.closing > 0
    case Recover => p.recovering > 0
    case ForgetManager(_) => p.stopping > 0
    case Attempt(_) => p.registrations > 0
    case Discover | ReportFails | StopManager | Register => true
  }

  function StopClient(p: Provider): Provider {
    if p.manager.Some? then p.(stopped := p.stopped + {p.manager.value}) else p
  }

  /** `_discoverServiceManager` up to its first await: the manager client is stopped and removed. */
  function Begin(p: Provider): Provider {
    if p.discovering then p
    else StopClient(p).(discovering := true, manager := None, informed := false, flights := p.flights + [Searching])
  }

  function Without<T>(s: seq<T>, i: nat): seq<T>
    requires i < |s|
  {
    s[..i] + s[i + 1..]
  }

  function Abandon(p: Provider, i: nat): Provider
    requires i < |p.flights|
  {
    p.(flights := Without(p.flights, i), abandoned := p.abandoned + 1)
  }

  /** Taking one handler off a client, if it has one. */
  function Unlisten(p: Provider, c: nat): Provider {
    if Get(p.listening, c) == 0 then p else p.(listening := p.listening[c := p.listening[c] - 1])
  }

  /** The error handler up to its first await: it unsubscribes from whatever client the manager task is by now, and
      fails if there is none. */
  function HandleError(p: Provider): Provider {
    match p.manager
    case Some(c) => Unlisten(p, c).(recovering := p.recovering + 1)
    case None => p
  }

  function Apply(p: Provider, step: Step): Provider
    requires Enabled(p, step)
  {
    match step
    case Discover => Begin(p)
    case FindManager(i) =>
      // The task map has no manager left, so a new client is made, unless another flight has put one there.
      var c := if p.manager.Some? then p.manager.value else p.clients;
      p.(flights := p.flights[i := Connecting(c)], manager := Some(c), clients := if c == p.clients then c + 1 else p.clients)
    case FindNothing(i) => Abandon(p, i)
    case Connect(i) =>
      var c := p.flights[i].client;
      p.(flights := p.flights[i := Watching(c)], manager := Some(c), informed := true,
         listening := p.listening[c := Get(p.listening, c) + 1], everGiven := p.everGiven[c := Get(p.everGiven, c) + 1])
    case FailToConnect(i) => Abandon(p, i)
    case Conclude(i) => p.(flights := Without(p.flights, i), discovering := false)
    case ClientError(c) => HandleError(Unlisten(p, c))
    case LateError(c) => HandleError(Unlisten(p, c))
    case ReportFails => HandleError(p)
    case Recover => Begin(p.(recovering := p.recovering - 1))
    case StopManager =>
      match p.manager {
        case Some(c) => Unlisten(p, c).(closing := p.closing + 1)
        case None => p
      }
    case CloseManager =>
      StopClient(p).(closing := p.closing - 1, stopping := p.stopping + if p.manager.Some? then 1 else 0)
    case ForgetManager(stopped) =>
      p.(stopping := p.stopping - 1, manager := if stopped then None else p.manager)
    case Register =>
      if p.registering then p else p.(registering := true, registrations := p.registrations + 1)
    case Attempt(success) =>
      if success then p.(registering := false, registrations := p.registrations - 1) else p
  }

  function Next(p: Provider, step: Step): Provider {
    if Enabled(p, step) then Apply(p, step) else p
  }

  function Execute(p: Provider, steps: seq<Step>): Provider
    decreases |steps|
  {
    if steps == [] then p else Execute(Next(p, steps[0]), steps[1..])
  }

  const IDLE := Provider(false, [], 0, None, false, 0, map[], map[], 0, {}, 0, 0, false, 0)

  // ---- the invariant ----

  /** One discovery at most, and the flag is set for it; the flag also outlives a discovery that was abandoned. */
  ghost predicate Booked(p: Provider) {
    |p.flights| + p.abandoned == (if p.discovering then 1 else 0) &&
    p.registrations == if p.registering then 1 else 0
  }

  /** The client of a flight that is connecting is new: nobody ever listened to it. */
  ghost predicate Fresh(p: Provider) {
    forall i :: 0 <= i < |p.flights| && p.flights[i].Connecting? ==> Get(p.everGiven, p.flights[i].client) == 0
  }

  /** While a discovery searches there is no manager task for it to find. */
  ghost predicate Vacant(p: Provider) {
    forall i :: 0 <= i < |p.flights| && p.flights[i].Searching? ==> p.manager.None?
  }

  /** Handlers are given once to a client, and only to clients that exist. */
  ghost predicate GivenOnce(p: Provider) {
    (forall c :: c in p.everGiven ==> c < p.clients && p.everGiven[c] <= 1) &&
    (forall c :: c in p.listening ==> p.listening[c] <= Get(p.everGiven, c)) &&
    (p.manager.Some? ==> p.manager.value < p.clients) && (forall c :: c in p.stopped ==> c < p.clients) &&
    (forall i :: 0 <= i < |p.flights| && p.flights[i].Connecting? ==> p.flights[i].client < p.clients)
  }

  /** A client that is connecting is the manager task, unless a shutdown has removed it from there. */
  ghost predicate OwnTask(p: Provider) {
    forall i :: 0 <= i < |p.flights| && p.flights[i].Connecting? ==> p.manager in {None, Some(p.flights[i].client)}
  }

  /** Between the stop and the removal of the manager client, it and any client that is connecting are stopped. */
  ghost predicate Retired(p: Provider) {
    p.stopping > 0 ==>
      (p.manager.Some? ==> p.manager.value in p.stopped) &&
      forall i :: 0 <= i < |p.flights| && p.flights[i].Connecting? ==> p.flights[i].client in p.stopped
  }

  /** Whoever is listened to and can still raise an error is the manager task. */
  ghost predicate OnlyManager(p: Provider) {
    forall c :: c in p.listening && p.listening[c] > 0 && c !in p.stopped ==> p.manager == Some(c)
  }

  /** The discovery in flight, of which there is one at most, has connected. */
  predicate Watched(p: Provider) {
    p.flights != [] && p.flights[0].Watching?
  }

  /** The information is there behind a connection, and gone from the beginning of a discovery until it connects. */
  ghost predicate Told(p: Provider) {
    (p.discovering ==> (p.informed <==> Watched(p))) && (!p.discovering && p.manager.Some? ==> p.informed)
  }

  ghost predicate Inv(p: Provider) {
    Booked(p) && Fresh(p) && Vacant(p) && GivenOnce(p) && OwnTask(p) && Retired(p) && OnlyManager(p) && Told(p)
  }

  lemma {:induction false} BookedStep(p: Provider, step: Step)
    requires Booked(p) && Enabled(p, step)
    ensures Booked(Apply(p, step))
  {
  }

  lemma {:induction false} VacantStep(p: Provider, step: Step)
    requires Booked(p) && Vacant(p) && Enabled(p, step)
    ensures Vacant(Apply(p, step))
  {
  }

  lemma {:induction false} FreshStep(p: Provider, step: Step)
    requires Booked(p) && Fresh(p) && Vacant(p) && GivenOnce(p) && Enabled(p, step)
    ensures Fresh(Apply(p, step))
  {
    if step.FindManager? {
      assert p.clients !in p.everGiven;
    }
  }

  lemma {:induction false} UnlistenKeeps(p: Provider, c: nat)
    requires GivenOnce(p)
    ensures GivenOnce(Unlisten(p, c))
  {
  }

  lemma {:induction false} HandleErrorKeeps(p: Provider)
    requires GivenOnce(p)
    ensures GivenOnce(HandleError(p))
  {
    if p.manager.Some? {
      UnlistenKeeps(p, p.manager.value);
    }
  }

  lemma {:induction false} ConnectKeeps(p: Provider, i: nat)
    requires Fresh(p) && GivenOnce(p) && Enabled(p, Connect(i))
    ensures GivenOnce(Apply(p, Connect(i)))
  {
    assert Get(p.everGiven, p.flights[i].client) == 0;
  }

  lemma {:induction false} BeginKeeps(p: Provider)
    requires GivenOnce(p)
    ensures GivenOnce(Begin(p)) && GivenOnce(StopClient(p))
  {
  }

  lemma {:induction false} FlightKeeps(p: Provider, step: Step)
    requires GivenOnce(p) && Enabled(p, step)
    requires step.FindManager? || step.FindNothing? || step.FailToConnect? || step.Conclude?
    ensures GivenOnce(Apply(p, step))
  {
  }

  lemma {:induction false} ListenerKeeps(p: Provider, step: Step)
    requires GivenOnce(p) && Enabled(p, step) && (step.ClientError? || step.LateError? || step.StopManager?)
    ensures GivenOnce(Apply(p, step))
  {
    match step {
      case ClientError(c) =>
        UnlistenKeeps(p, c);
        HandleErrorKeeps(Unlisten(p, c));
      case LateError(c) =>
        UnlistenKeeps(p, c);
      case StopManager =>
        if p.manager.Some? {
          UnlistenKeeps(p, p.manager.value);
        }
    }
  }

  lemma {:induction false} GivenOnceStep(p: Provider, step: Step)
    requires Fresh(p) && GivenOnce(p) && Enabled(p, step)
    ensures GivenOnce(Apply(p, step))
  {
    match step {
      case Discover =>
        BeginKeeps(p);
      case Recover =>
        BeginKeeps(p.(recovering := p.recovering - 1));
      case Connect(i) =>
        ConnectKeeps(p, i);
      case FindManager(_) | FindNothing(_) | FailToConnect(_) | Conclude(_) =>
        FlightKeeps(p, step);
      case ClientError(_) | LateError(_) | StopManager =>
        ListenerKeeps(p, step);
      case ReportFails =>
        HandleErrorKeeps(p);
      case CloseManager =>
        BeginKeeps(p);
      case ForgetManager(_) | Register | Attempt(_) =>
    }
  }

  lemma {:induction false} OwnTaskStep(p: Provider, step: Step)
    requires Booked(p) && Vacant(p) && OwnTask(p) && Enabled(p, step)
    ensures OwnTask(Apply(p, step))
  {
  }

  predicate FlightStep(step: Step) {
    step.FindManager? || step.FindNothing? || step.Connect? || step.FailToConnect? || step.Conclude?
  }

  lemma {:induction false} RetiredFlight(p: Provider, step: Step)
    requires Booked(p) && OwnTask(p) && Retired(p) && Enabled(p, step) && FlightStep(step)
    ensures Retired(Apply(p, step))
  {
  }

  lemma {:induction false} RetiredBegin(p: Provider)
    requires Retired(p)
    ensures Retired(Begin(p))
  {
  }

  lemma {:induction false} RetiredError(p: Provider)
    requires Retired(p)
    ensures Retired(HandleError(p)) && forall c :: Retired(Unlisten(p, c)) && Retired(HandleError(Unlisten(p, c)))
  {
  }

  lemma {:induction false} RetiredClose(p: Provider)
    requires OwnTask(p) && Retired(p) && Enabled(p, CloseManager)
    ensures Retired(Apply(p, CloseManager))
  {
  }

  lemma {:induction false} RetiredStep(p: Provider, step: Step)
    requires Booked(p) && OwnTask(p) && Retired(p) && Enabled(p, step)
    ensures Retired(Apply(p, step))
  {
    match step {
      case FindManager(_) | FindNothing(_) | Connect(_) | FailToConnect(_) | Conclude(_) =>
        RetiredFlight(p, step);
      case Discover =>
        RetiredBegin(p);
      case Recover =>
        RetiredBegin(p.(recovering := p.recovering - 1));
      case ClientError(_) | LateError(_) | ReportFails | StopManager =>
        RetiredError(p);
      case CloseManager =>
        RetiredClose(p);
      case ForgetManager(_) | Register | Attempt(_) =>
    }
  }

  lemma {:induction false} FewerListeners(p: Provider, c: nat)
    requires OnlyManager(p)
    ensures OnlyManager(Unlisten(p, c)) && OnlyManager(HandleError(p)) && OnlyManager(StopClient(p))
  {
  }

  lemma {:induction false} ConnectLeavesOne(p: Provider, i: nat)
    requires OwnTask(p) && OnlyManager(p) && Enabled(p, Connect(i))
    ensures OnlyManager(Apply(p, Connect(i)))
  {
    assert p.manager in {None, Some(p.flights[i].client)};
  }

  lemma {:induction false} BeginLeavesNone(p: Provider)
    requires OnlyManager(p)
    ensures OnlyManager(Begin(p))
  {
    FewerListeners(p, 0);
  }

  lemma {:induction false} OnlyManagerStep(p: Provider, step: Step)
    requires Vacant(p) && OwnTask(p) && Retired(p) && OnlyManager(p) && Enabled(p, step)
    ensures OnlyManager(Apply(p, step))
  {
    match step {
      case Discover =>
        BeginLeavesNone(p);
      case Recover =>
        BeginLeavesNone(p.(recovering := p.recovering - 1));
      case Connect(i) =>
        ConnectLeavesOne(p, i);
      case ClientError(c) =>
        FewerListeners(p, c);
        FewerListeners(Unlisten(p, c), c);
      case LateError(c) =>
        FewerListeners(p, c);
      case ReportFails | CloseManager =>
        FewerListeners(p, 0);
      case StopManager =>
        if p.manager.Some? {
          FewerListeners(p, p.manager.value);
        }
      case _ =>
    }
  }

  lemma {:induction false} ToldFlight(p: Provider, step: Step)
    requires Booked(p) && Told(p) && Enabled(p, step) && FlightStep(step)
    ensures Told(Apply(p, step))
  {
  }

  lemma {:induction false} ToldStep(p: Provider, step: Step)
    requires Booked(p) && Told(p) && Enabled(p, step)
    ensures Told(Apply(p, step))
  {
    if FlightStep(step) {
      ToldFlight(p, step);
    }
  }

  lemma {:induction false} StepKeeps(p: Provider, step: Step)
    requires Inv(p) && Enabled(p, step)
    ensures Inv(Apply(p, step))
  {
    BookedStep(p, step);
    VacantStep(p, step);
    FreshStep(p, step);
    GivenOnceStep(p, step);
    OwnTaskStep(p, step);
    RetiredStep(p, step);
    OnlyManagerStep(p, step);
    ToldStep(p, step);
  }

  /** In every interleaving: at most one discovery and one registration loop are in flight, each with its flag set, and
      no client is ever given a second error handler. */
  lemma {:induction false} OneAtATime(p: Provider, steps: seq<Step>)
    requires Inv(p)
    ensures var end := Execute(p, steps);
            Inv(end) && |end.flights| <= 1 && (end.flights != [] ==> end.discovering) &&
            end.registrations <= 1 && (end.registrations == 1 <==> end.registering) &&
            forall c :: Get(end.everGiven, c) <= 1
    decreases |steps|
  {
    if steps != [] {
      if Enabled(p, steps[0]) {
        StepKeeps(p, steps[0]);
      }
      OneAtATime(Next(p, steps[0]), steps[1..]);
    }
  }

  /** So in every run from the beginning. */
  lemma {:induction false} FromIdle(steps: seq<Step>)
    ensures var end := Execute(IDLE, steps);
            Inv(end) && |end.flights| <= 1 && (end.flights != [] ==> end.discovering) &&
            end.registrations <= 1 && (end.registrations == 1 <==> end.registering) &&
            forall c :: Get(end.everGiven, c) <= 1
  {
    OneAtATime(IDLE, steps);
  }

  /** A report throws: it finds a manager client, and reads information that is missing. */
  predicate ReportThrows(p: Provider) {
    p.manager.Some? && !p.informed
  }

  /** In every interleaving a report throws exactly if there is a manager client while the flag of a discovery is set that
      has not connected, be it under way or given up. */
  lemma {:induction false} ReportThrowsIff(steps: seq<Step>)
    ensures var p := Execute(IDLE, steps);
            ReportThrows(p) <==> p.manager.Some? && p.discovering && !Watched(p)
    ensures var p := Execute(IDLE, steps);
            ReportThrows(p) ==> GaveUp(p) || exists c :: p.flights == [Connecting(c)]
  {
    FromIdle(steps);
    var p := Execute(IDLE, steps);
    if ReportThrows(p) && p.flights != [] {
      assert p.flights == [Connecting(p.flights[0].client)];
    }
  }

  // ---- registering ----

  lemma {:induction false} RegisterStep(p: Provider, step: Step)
    requires Booked(p) && p.registering && Enabled(p, step) && step != Attempt(true)
    ensures Apply(p, step).registering
  {
  }

  /** A registration loop goes on until an attempt succeeds, whatever else happens and however often registering is asked
      for; then a new one can start. */
  lemma {:induction false} RegistersUntilSuccess(p: Provider, steps: seq<Step>)
    requires Inv(p) && p.registering && Attempt(true) !in steps
    ensures var q := Execute(p, steps);
            q.registering && q.registrations == 1 && Enabled(q, Attempt(true)) &&
            !Apply(q, Attempt(true)).registering && Apply(q, Attempt(true)).registrations == 0 &&
            Apply(Apply(q, Attempt(true)), Register).registrations == 1
    decreases |steps|
  {
    if steps != [] {
      assert steps[0] in steps && forall step <- steps[1..] :: step in steps;
      if Enabled(p, steps[0]) {
        StepKeeps(p, steps[0]);
        RegisterStep(p, steps[0]);
      }
      RegistersUntilSuccess(Next(p, steps[0]), steps[1..]);
    }
  }

  // ---- giving up ----

  /** The flag is set, but no discovery is in flight: one was abandoned. */
  ghost predicate GaveUp(p: Provider) {
    p.discovering && p.flights == []
  }

  lemma {:induction false} GaveUpStep(p: Provider, step: Step)
    requires GaveUp(p) && Enabled(p, step)
    ensures var q := Apply(p, step); GaveUp(q) && q.clients == p.clients && q.everGiven == p.everGiven
  {
  }

  /** A flag without a discovery means that one was abandoned, and then none will ever start again. */
  lemma {:induction false} AbandonedForGood(p: Provider, steps: seq<Step>)
    requires GaveUp(p)
    ensures var end := Execute(p, steps);
            GaveUp(end) && end.clients == p.clients && end.everGiven == p.everGiven
    decreases |steps|
  {
    if steps != [] {
      if Enabled(p, steps[0]) {
        GaveUpStep(p, steps[0]);
      }
      AbandonedForGood(Next(p, steps[0]), steps[1..]);
    }
  }

  /** What ends a discovery decides: it can be repeated exactly if it ended with a watched client. */
  lemma {:induction false} EndDecides(p: Provider, step: Step)
    requires Inv(p) && p.flights != [] && Enabled(p, step) && Apply(p, step).flights == []
    ensures Begin(Apply(p, step)).flights != [] <==> step.Conclude?
  {
  }

  // ---- whose errors are heard ----

  /** In every interleaving only the client that is the manager task can raise an error that is heard; an error of a
      replaced client, whose socket is gone, never reaches the connection that replaced it. */
  lemma {:induction false} OnlyManagerRaises(p: Provider, steps: seq<Step>, c: nat)
    requires Inv(p) && Enabled(Execute(p, steps), ClientError(c))
    ensures Execute(p, steps).manager == Some(c)
  {
    OneAtATime(p, steps);
  }

  /** An error that is heard takes the handler of its client with it. It leads to a new discovery if the client is the
      manager; a late one, with no manager left, fails in its handler and leads to nothing. */
  lemma {:induction false} ErrorsAreHeardOnce(p: Provider, c: nat)
    requires Inv(p)
    ensures Enabled(p, ClientError(c)) ==>
              var q := Apply(p, ClientError(c)); Get(q.listening, c) == 0 && q.recovering == p.recovering + 1
    ensures Enabled(p, LateError(c)) ==>
              var q := Apply(p, LateError(c)); Get(q.listening, c) == 0 && q.recovering == p.recovering
  {
    assert Get(p.listening, c) <= 1;
    if Enabled(p, ClientError(c)) {
      assert p.manager == Some(c);
    }
  }

  /** A handler goes only by its own error, or, from the manager client, by a failed report or a shutdown. */
  lemma {:induction false} HandlerGoesBy(p: Provider, step: Step, c: nat)
    requires Inv(p) && Enabled(p, step) && Get(Apply(p, step).listening, c) < Get(p.listening, c)
    ensures step in {ClientError(c), LateError(c)} || (step in {ReportFails, StopManager} && p.manager == Some(c))
  {
    if step.ClientError? {
      assert p.manager == Some(step.client);
    }
  }

  // ---- without interleaving ----

  function FlightOf(flights: seq<Flight>): M.Flight {
    if flights == [] then M.Grounded else if flights[0].Searching? then M.Searching else M.Connecting
  }

  /** The same connection: flag, discovery in flight, information, and manager client with as many handlers. */
  ghost predicate Agree(k: M.Link, p: Provider) {
    k.discovering == p.discovering && k.flight == FlightOf(p.flights) && k.informed == p.informed &&
    (k.client.Some? <==> p.manager.Some?) && (p.manager.Some? ==> Get(p.listening, p.manager.value) == k.client.value) &&
    !Watched(p)
  }

  /** Nothing is under way but the discovery, and no client that is used was stopped. */
  ghost predicate Alone(p: Provider) {
    p.recovering == p.closing == p.stopping == 0 && (p.manager.Some? ==> p.manager.value !in p.stopped) &&
    forall i :: 0 <= i < |p.flights| && p.flights[i].Connecting? ==> p.flights[i].client !in p.stopped
  }

  ghost predicate Matches(k: M.Link, p: Provider) {
    Inv(p) && Alone(p) && Agree(k, p)
  }

  lemma {:induction false} IdleMatches()
    ensures Matches(M.UNLINKED, IDLE)
  {
  }

  lemma {:induction false} NextKeeps(p: Provider, step: Step)
    requires Inv(p)
    ensures Inv(Next(p, step))
  {
    if Enabled(p, step) {
      StepKeeps(p, step);
    }
  }

  lemma {:induction false} ExecuteOne(p: Provider, step: Step)
    ensures Execute(p, [step]) == Next(p, step)
  {
    assert [step][1..] == [];
  }

  lemma {:induction false} ExecuteTwo(p: Provider, first: Step, second: Step)
    ensures Execute(p, [first, second]) == Next(Next(p, first), second)
  {
    assert [first, second][1..] == [second];
    ExecuteOne(Next(p, first), second);
  }

  lemma {:induction false} ExecuteAll(p: Provider, first: seq<Step>, more: seq<Step>)
    ensures Execute(p, first + more) == Execute(Execute(p, first), more)
    decreases |first|
  {
    if first == [] {
      assert first + more == more;
    } else {
      assert (first + more)[1..] == first[1..] + more;
      ExecuteAll(Next(p, first[0]), first[1..], more);
    }
  }

  /** The steps behind a happening of the sequential life cycle. */
  function StepsOf(p: Provider, h: M.Happening): seq<Step> {
    match h
    case ManagerError => if p.manager.Some? then [ClientError(p.manager.value), Recover] else []
    case ReportFails => [ReportFails, Recover]
    case FindManager => [FindManager(0)]
    case FindNothing => [FindNothing(0)]
    case Connect => [Connect(0), Conclude(0)]
    case FailToConnect => [FailToConnect(0)]
  }

  lemma {:induction false} BeginMatches(k: M.Link, p: Provider)
    requires Matches(k, p)
    ensures Matches(M.Begin(k), Next(p, Discover))
  {
    NextKeeps(p, Discover);
  }

  lemma {:induction false} FindMatches(k: M.Link, p: Provider)
    requires Matches(k, p)
    ensures Matches(M.Happen(k, M.FindManager).0, Next(p, FindManager(0)))
  {
    NextKeeps(p, FindManager(0));
    assert p.clients !in p.everGiven && Get(p.listening, p.clients) == 0;
  }

  lemma {:induction false} EndMatches(k: M.Link, p: Provider)
    requires Matches(k, p)
    ensures Matches(M.Happen(k, M.FindNothing).0, Next(p, FindNothing(0)))
    ensures Matches(M.Happen(k, M.FailToConnect).0, Next(p, FailToConnect(0)))
  {
    NextKeeps(p, FindNothing(0));
    NextKeeps(p, FailToConnect(0));
  }

  lemma {:induction false} ConnectAgrees(k: M.Link, p: Provider)
    requires Booked(p) && Fresh(p) && GivenOnce(p) && Alone(p) && Agree(k, p) && k.flight == M.Connecting
    ensures var q := Next(Next(p, Connect(0)), Conclude(0)); Alone(q) && Agree(M.CONNECTED, q)
  {
    assert p.flights == [p.flights[0]] && p.flights[0].Connecting?;
    var c := p.flights[0].client;
    assert Get(p.everGiven, c) == 0 && Get(p.listening, c) == 0;
    var q := Next(p, Connect(0));
    assert q.flights == [Watching(c)];
    assert Next(q, Conclude(0)).flights == [];
  }

  lemma {:induction false} ConnectMatches(k: M.Link, p: Provider)
    requires Matches(k, p)
    ensures Matches(M.Happen(k, M.Connect).0, Next(Next(p, Connect(0)), Conclude(0)))
  {
    NextKeeps(p, Connect(0));
    NextKeeps(Next(p, Connect(0)), Conclude(0));
    if k.flight == M.Connecting {
      ConnectAgrees(k, p);
    }
  }

  lemma {:induction false} UnlistenAgrees(k: M.Link, p: Provider)
    requires GivenOnce(p) && Alone(p) && Agree(k, p) && p.manager.Some?
    ensures var q := Unlisten(p, p.manager.value); GivenOnce(q) && Alone(q) && Agree(M.Unsubscribe(k), q)
  {
    UnlistenKeeps(p, p.manager.value);
  }

  lemma {:induction false} BeginAgrees(k: M.Link, p: Provider)
    requires Booked(p) && GivenOnce(p) && Alone(p) && Agree(k, p)
    ensures Alone(Begin(p)) && Agree(M.Begin(k), Begin(p))
  {
  }

  lemma {:induction false} RecoverMatches(k: M.Link, p: Provider)
    requires Matches(k, p)
    ensures Matches(M.HandleError(k).0, Next(Next(p, ReportFails), Recover))
  {
    NextKeeps(p, ReportFails);
    NextKeeps(Next(p, ReportFails), Recover);
    if p.manager.Some? {
      var off := Unlisten(p, p.manager.value);
      UnlistenAgrees(k, p);
      BeginAgrees(M.Unsubscribe(k), off);
      assert Next(Next(p, ReportFails), Recover) == Begin(off);
    }
  }

  lemma {:induction false} ErrorMatches(k: M.Link, p: Provider)
    requires Matches(k, p) && p.manager.Some?
    ensures Matches(M.Happen(k, M.ManagerError).0, Next(Next(p, ClientError(p.manager.value)), Recover))
  {
    var c := p.manager.value;
    NextKeeps(p, ClientError(c));
    NextKeeps(Next(p, ClientError(c)), Recover);
    if Get(p.listening, c) > 0 {
      var off := Unlisten(Unlisten(p, c), c);
      UnlistenAgrees(k, p);
      UnlistenAgrees(M.Unsubscribe(k), Unlisten(p, c));
      BeginAgrees(M.Unsubscribe(M.Unsubscribe(k)), off);
      assert Next(Next(p, ClientError(c)), Recover) == Begin(off);
    }
  }

  lemma {:induction false} HappeningMatches(k: M.Link, p: Provider, h: M.Happening)
    requires Matches(k, p)
    ensures Matches(M.Happen(k, h).0, Execute(p, StepsOf(p, h)))
  {
    match h {
      case ManagerError =>
        if p.manager.Some? {
          ExecuteTwo(p, ClientError(p.manager.value), Recover);
          ErrorMatches(k, p);
        }
      case ReportFails =>
        ExecuteTwo(p, ReportFails, Recover);
        RecoverMatches(k, p);
      case FindManager =>
        ExecuteOne(p, FindManager(0));
        FindMatches(k, p);
      case FindNothing =>
        ExecuteOne(p, FindNothing(0));
        EndMatches(k, p);
      case Connect =>
        ExecuteTwo(p, Connect(0), Conclude(0));
        ConnectMatches(k, p);
      case FailToConnect =>
        ExecuteOne(p, FailToConnect(0));
        EndMatches(k, p);
    }
  }

  function AllSteps(p: Provider, hs: seq<M.Happening>): seq<Step>
    decreases |hs|
  {
    if hs == [] then []
    else
      var first := StepsOf(p, hs[0]);
      first + AllSteps(Execute(p, first), hs[1..])
  }

  /** Whatever happens to the connection in the sequential life cycle is a run of steps here, with the same connection in
      the end. */
  lemma {:induction false} HappeningsMatch(k: M.Link, p: Provider, hs: seq<M.Happening>)
    requires Matches(k, p)
    ensures Matches(M.HappenAll(k, hs).0, Execute(p, AllSteps(p, hs)))
    decreases |hs|
  {
    if hs != [] {
      var first := StepsOf(p, hs[0]);
      HappeningMatches(k, p, hs[0]);
      HappeningsMatch(M.Happen(k, hs[0]).0, Execute(p, first), hs[1..]);
      ExecuteAll(p, first, AllSteps(Execute(p, first), hs[1..]));
    }
  }

  /** So is a discovery that a start waits for. */
  lemma {:induction false} SequentialDiscovery(k: M.Link, p: Provider, d: M.Discovery)
    requires Matches(k, p)
    ensures var q := Next(p, Discover); var hs := if k.discovering then [] else M.HappeningsOf(d);
            Matches(M.DiscoverOf(k, d).0, Execute(q, AllSteps(q, hs)))
  {
    BeginMatches(k, p);
    var hs := if k.discovering then [] else M.HappeningsOf(d);
    HappeningsMatch(M.Begin(k), Next(p, Discover), hs);
    if k.discovering {
      assert M.HappenAll(k, []).0 == k;
    } else {
      M.DiscoveryIsItsHappenings(k, d);
    }
  }

  lemma {:induction false} ClosedAgrees(k: M.Link, p: Provider, stopped: bool)
    requires Alone(p) && Agree(k, p) && p.manager.Some?
    ensures var closing := p.(closing := 1);
            Agree(if stopped then k.(client := None) else k, Next(Next(closing, CloseManager), ForgetManager(stopped)))
  {
    assert Next(p.(closing := 1), CloseManager) == StopClient(p).(stopping := 1);
  }

  /** So is the end of the manager client in a shutdown. */
  lemma {:induction false} ShutdownMatches(k: M.Link, p: Provider, stopped: bool)
    requires Matches(k, p)
    ensures var q := Next(Next(Next(p, StopManager), CloseManager), ForgetManager(stopped));
            Inv(q) && Agree(M.StopManager(k, !stopped), q)
  {
    var off := Next(p, StopManager);
    NextKeeps(p, StopManager);
    NextKeeps(off, CloseManager);
    NextKeeps(Next(off, CloseManager), ForgetManager(stopped));
    if p.manager.Some? {
      UnlistenAgrees(k, p);
      var quiet := Unlisten(p, p.manager.value);
      ClosedAgrees(M.Unsubscribe(k), quiet, stopped);
      assert off == quiet.(closing := 1);
    }
  }
}
