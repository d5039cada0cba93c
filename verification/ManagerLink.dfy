/**
 The connection of a provider to its service manager: discovery, the client it leaves behind, and what happens to both in
 the background while life-cycle operations run. Each happening is what the code does between two looks at the network.
 */
module ManagerLink {
  import opened Wrappers

  datatype ServiceEvent =
    | ServiceStarted | ServiceStopped | ServiceHalted | ServiceShutdown | ManagerConnected | ManagerDisconnect

  /** A discovery in flight: it looks for a manager, or it has put a client in the task map that is not connected yet. */
  datatype Flight = Grounded | Searching | Connecting

  /** `discovering` is the booking flag, `client` the number of error handlers of the manager client, if there is one, and
      `informed` says that the manager's information is known, which only a connected discovery brings. */
  datatype Link = Link(discovering: bool, flight: Flight, client: Option<nat>, informed: bool)

  const UNLINKED := Link(false, Grounded, None, false)

  datatype Happening = ManagerError | ReportFails | FindManager | FindNothing | Connect | FailToConnect

  /** How a discovery that is waited for ends. FindsNothing is also what a disabled one reports. A client that gives up,
      after its retries, throws; one that fails with an error nobody listens for hangs. */
  datatype Discovery = Connects | FindsNothing | CannotConnect | NeverConnects

  datatype Outcome = Returned(done: bool) | Threw | Hung

  function Minus(n: nat): nat {
    if n == 0 then 0 else n - 1
  }

  function Unsubscribe(k: Link): Link {
    if k.client.Some? then k.(client := Some(Minus(k.client.value))) else k
  }

  /** `_discoverServiceManager` up to its first await. */
  function Begin(k: Link): Link {
    if k.discovering then k else Link(true, Searching, None, false)
  }

  /** `_handleTcpMgrError` throws, unheard, without a client. */
  function HandleError(k: Link): (Link, seq<ServiceEvent>) {
    if k.client.None? then (k, []) else (Begin(Unsubscribe(k)), [ManagerDisconnect])
  }

  const CONNECTED := Link(false, Grounded, Some(1), true)

  /** What cannot happen changes nothing. */
  function Happen(k: Link, h: Happening): (Link, seq<ServiceEvent>) {
    match h
    case ManagerError =>
      if k.client.Some? && k.client.value > 0 then HandleError(Unsubscribe(k)) else (k, [])
    case ReportFails => HandleError(k)
    case FindManager => (if k.flight == Searching then k.(flight := Connecting, client := Some(0)) else k, [])
    case FindNothing => (if k.flight == Searching then k.(flight := Grounded) else k, [])
    case Connect => if k.flight == Connecting then (CONNECTED, [ManagerConnected]) else (k, [])
    case FailToConnect => (if k.flight == Connecting then k.(flight := Grounded) else k, [])
  }

  function HappenAll(k: Link, hs: seq<Happening>): (Link, seq<ServiceEvent>)
    decreases |hs|
  {
    if hs == [] then (k, [])
    else
      var (next, events) := Happen(k, hs[0]);
      var (end, more) := HappenAll(next, hs[1..]);
      (end, events + more)
  }

  /** `_discoverServiceManager` as a start runs it, waiting for its end. */
  function DiscoverOf(k: Link, d: Discovery): (Link, seq<ServiceEvent>, Outcome) {
    if k.discovering then (k, [], Returned(true))
    else
      match d
      case Connects => (CONNECTED, [ManagerConnected], Returned(true))
      case FindsNothing => (Link(true, Grounded, None, false), [], Returned(true))
      case CannotConnect => (Link(true, Grounded, Some(0), false), [], Threw)
      case NeverConnects => (Link(true, Grounded, Some(0), false), [], Hung)
  }

  /** The end of the client in a shutdown. A discovery in flight is not told. */
  function StopManager(k: Link, stuck: bool): Link {
    if stuck then Unsubscribe(k) else k.(client := None)
  }

  /** What happens while a discovery runs that a start waits for. */
  function HappeningsOf(d: Discovery): seq<Happening> {
    match d
    case Connects => [FindManager, Connect]
    case FindsNothing => [FindNothing]
    case CannotConnect | NeverConnects => [FindManager, FailToConnect]
  }

  /** Waited for or not, a discovery does the same. */
  lemma {:induction false} DiscoveryIsItsHappenings(k: Link, d: Discovery)
    requires !k.discovering
    ensures var (end, events) := HappenAll(Begin(k), HappeningsOf(d));
            DiscoverOf(k, d).0 == end && DiscoverOf(k, d).1 == events
  {
    var hs := HappeningsOf(d);
    var (next, first) := Happen(Begin(k), hs[0]);
    assert first == [];
    if |hs| == 1 {
      assert hs[1..] == [] && HappenAll(next, []) == (next, []);
    } else {
      var (end, events) := Happen(next, hs[1]);
      assert hs[1..][1..] == [] && HappenAll(end, []) == (end, []);
      assert HappenAll(next, hs[1..]) == (end, events + []);
    }
  }

  /** A start that waits for its own discovery throws exactly if that cannot connect, and hangs exactly if it never does. A
      discovery that is booked already is not waited for. */
  lemma {:induction false} DiscoveryEnds(k: Link, d: Discovery)
    ensures DiscoverOf(k, d).2.Threw? <==> !k.discovering && d == CannotConnect
    ensures DiscoverOf(k, d).2.Hung? <==> !k.discovering && d == NeverConnects
    ensures DiscoverOf(k, d).2.Returned? ==> DiscoverOf(k, d).2.done
    ensures k.discovering ==> DiscoverOf(k, d).0 == k && DiscoverOf(k, d).1 == []
  {
  }

  /** What is announced when: a connection where a client is connecting, and the loss of the manager where a client that is
      listened to raises an error, or where a report fails while there is one. */
  lemma {:induction false} AnnouncedIff(k: Link, h: Happening)
    ensures Happen(k, h).1 ==
            if h == Connect && k.flight == Connecting then [ManagerConnected]
            else if k.client.Some? && (h == ReportFails || (h == ManagerError && k.client.value > 0)) then [ManagerDisconnect]
            else []
  {
  }

  lemma {:induction false} HappenAllAppend(k: Link, hs: seq<Happening>, more: seq<Happening>)
    ensures var (mid, first) := HappenAll(k, hs); var (end, second) := HappenAll(mid, more);
            HappenAll(k, hs + more) == (end, first + second)
    decreases |hs|
  {
    if hs == [] {
      assert hs + more == more;
      assert [] + HappenAll(k, more).1 == HappenAll(k, more).1;
    } else {
      var (next, events) := Happen(k, hs[0]);
      assert (hs + more)[1..] == hs[1..] + more;
      HappenAllAppend(next, hs[1..], more);
      var (mid, first) := HappenAll(next, hs[1..]);
      var second := HappenAll(mid, more).1;
      assert events + (first + second) == events + first + second;
    }
  }

  /** A report throws: there is a client, and the information it would need is missing. */
  predicate Unbriefed(k: Link) {
    k.client.Some? && !k.informed
  }

  /** The flag is set while a discovery is in flight, and the information is there exactly behind a connected one. */
  predicate Fits(k: Link) {
    (k.flight != Grounded ==> k.discovering) && (k.flight == Searching ==> k.client.None?) &&
    (k.discovering ==> !k.informed) && (!k.discovering && k.client.Some? ==> k.informed) &&
    (k.client.Some? ==> k.client.value <= 1)
  }

  lemma {:induction false} HappenFits(k: Link, h: Happening)
    requires Fits(k)
    ensures Fits(Happen(k, h).0)
  {
  }

  lemma {:induction false} HappenAllFits(k: Link, hs: seq<Happening>)
    requires Fits(k)
    ensures Fits(HappenAll(k, hs).0)
    decreases |hs|
  {
    if hs != [] {
      HappenFits(k, hs[0]);
      HappenAllFits(Happen(k, hs[0]).0, hs[1..]);
    }
  }

  lemma {:induction false} DiscoverFits(k: Link, d: Discovery)
    requires Fits(k)
    ensures Fits(DiscoverOf(k, d).0)
  {
  }

  /** A report throws exactly while there is the client of a discovery that has not connected: it is connecting, or it
      has given up. */
  lemma {:induction false} UnbriefedWhileDiscovering(k: Link)
    requires Fits(k)
    ensures Unbriefed(k) <==> k.client.Some? && k.discovering
    ensures Unbriefed(k) ==> k.flight == Connecting || GaveUp(k)
  {
  }

  // ---- giving up ----

  /** The flag is set, but no discovery is in flight that could clear it. */
  predicate GaveUp(k: Link) {
    k.discovering && k.flight == Grounded
  }

  predicate IsConnection(e: ServiceEvent) {
    e == ManagerConnected
  }

  // ---- no trouble ----

  predicate IsTrouble(h: Happening) {
    h == ManagerError || h == ReportFails
  }

  predicate IsCalm(hs: seq<Happening>) {
    forall h <- hs :: !IsTrouble(h)
  }

  /** Without errors and failed reports nothing happens, once no discovery is in flight. */
  lemma {:induction false} CalmIsStill(k: Link, hs: seq<Happening>)
    requires k.flight == Grounded && IsCalm(hs)
    ensures HappenAll(k, hs) == (k, [])
    decreases |hs|
  {
    if hs != [] {
      assert hs[0] in hs && forall h <- hs[1..] :: h in hs;
      assert !IsTrouble(hs[0]) && Happen(k, hs[0]) == (k, []);
      CalmIsStill(k, hs[1..]);
      var (next, events) := Happen(k, hs[0]);
      var (end, more) := HappenAll(next, hs[1..]);
      assert events + more == [];
    }
  }
}
