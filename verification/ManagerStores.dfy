/**
 What the service manager keeps: the last reports of every provider instance, and the registrations. Both are nested maps
 (service, then instance) changed in place. They are refined to a flat log of what happened.
 */
module ManagerStores {
  import opened Wrappers
  import opened Provider

  /** A report as it was sent; its fields play no part here. */
  datatype ReportData = ReportData(timestamp: int, ramUsed: real, ramFree: real, cpuLoad: real)

  /** The arguments of a report call: anything but an object is refused. */
  datatype ReportArgs = NotAnObject | Report(report: ReportData)

  /** Where a provider says it can be reached, with its name and instance id. */
  datatype ProviderInfo = ProviderInfo(name: string, id: string, address: string, port: nat)

  datatype Event =
    | Reported(peer: Peer, report: ReportData)
    | Cleared(peer: Peer)
    | Stored(info: ProviderInfo)

  type Groups<T> = map<string, map<string, T>>
  type Reports = Groups<seq<ReportData>>
  type Registry = Groups<ProviderInfo>

  const WINDOW := 60

  // ---- the flat view ----

  /** All reports of a peer since it was last cleared. */
  function History(log: seq<Event>, peer: Peer): seq<ReportData> {
    if log == [] then []
    else
      var before := History(log[..|log| - 1], peer);
      match log[|log| - 1]
      case Reported(p, report) => if p == peer then before + [report] else before
      case Cleared(p) => if p == peer then [] else before
      case Stored(_) => before
  }

  /** The last registration under a peer's name and id. */
  function Registration(log: seq<Event>, peer: Peer): Option<ProviderInfo> {
    if log == [] then None
    else
      var last := log[|log| - 1];
      if last.Stored? && Peer(last.info.name, last.info.id) == peer then Some(last.info)
      else Registration(log[..|log| - 1], peer)
  }

  function LastOf<T>(n: nat, s: seq<T>): seq<T> {
    if |s| <= n then s else s[|s| - n..]
  }

  // ---- nested maps ----

  function Find<T>(groups: Groups<T>, peer: Peer): Option<T> {
    if peer.service in groups && peer.instance in groups[peer.service] then Some(groups[peer.service][peer.instance])
    else None
  }

  function Put<T>(groups: Groups<T>, peer: Peer, value: T): Groups<T> {
    var group := if peer.service in groups then groups[peer.service] else map[];
    groups[peer.service := group[peer.instance := value]]
  }

  /** Removes an entry, and its group when that was the last one. */
  function Remove<T>(groups: Groups<T>, peer: Peer): Groups<T> {
    if peer.service !in groups then groups
    else
      var group := groups[peer.service] - {peer.instance};
      if group == map[] then groups - {peer.service} else groups[peer.service := group]
  }

  lemma {:induction false} FindPut<T>(groups: Groups<T>, peer: Peer, value: T)
    ensures forall p :: Find(Put(groups, peer, value), p) == if p == peer then Some(value) else Find(groups, p)
  {
  }

  lemma {:induction false} FindRemove<T>(groups: Groups<T>, peer: Peer)
    ensures forall p :: Find(Remove(groups, peer), p) == if p == peer then None else Find(groups, p)
  {
    if peer.service in groups {
      var group := groups[peer.service];
      assert forall i :: i in group && i != peer.instance ==> i in group - {peer.instance};
    }
  }

  /** The reports held for a peer. */
  function Held(reports: Reports, peer: Peer): seq<ReportData> {
    match Find(reports, peer)
    case Some(held) => held
    case None => []
  }

  /** Neither a group nor the list of an instance is empty. */
  ghost predicate Tidy(reports: Reports) {
    forall s :: s in reports ==> reports[s] != map[] && forall i :: i in reports[s] ==> reports[s][i] != []
  }

  ghost predicate HoldsWindow(reports: Reports, log: seq<Event>) {
    forall p :: Held(reports, p) == LastOf(WINDOW, History(log, p))
  }

  ghost predicate HoldsLatest(registry: Registry, log: seq<Event>) {
    forall p :: Find(registry, p) == Registration(log, p)
  }

  // ---- one event at a time ----

  /** Append, then drop the oldest one when there are too many. */
  function Pushed(held: seq<ReportData>, report: ReportData): seq<ReportData> {
    var all := held + [report];
    if |all| > WINDOW then all[1..] else all
  }

  lemma {:induction false} PushedIsWindow(history: seq<ReportData>, report: ReportData)
    ensures Pushed(LastOf(WINDOW, history), report) == LastOf(WINDOW, history + [report])
  {
    if |history| >= WINDOW {
      var n := |history|;
      assert LastOf(WINDOW, history) == history[n - WINDOW..];
      assert (history + [report])[n + 1 - WINDOW..] == history[n + 1 - WINDOW..] + [report];
    }
  }

  lemma {:induction false} HistoryNext(log: seq<Event>, e: Event, p: Peer)
    ensures History(log + [e], p) ==
            match e
            case Reported(q, report) => if q == p then History(log, p) + [report] else History(log, p)
            case Cleared(q) => if q == p then [] else History(log, p)
            case Stored(_) => History(log, p)
    ensures Registration(log + [e], p) ==
            if e.Stored? && Peer(e.info.name, e.info.id) == p then Some(e.info) else Registration(log, p)
  {
    assert (log + [e])[..|log|] == log;
  }

  lemma {:induction false} ReportKeepsWindow(reports: Reports, log: seq<Event>, peer: Peer, report: ReportData)
    requires HoldsWindow(reports, log) && Tidy(reports)
    ensures var next := Put(reports, peer, Pushed(Held(reports, peer), report));
            HoldsWindow(next, log + [Reported(peer, report)]) && Tidy(next)
  {
    FindPut(reports, peer, Pushed(Held(reports, peer), report));
    PushedIsWindow(History(log, peer), report);
    forall p {
      HistoryNext(log, Reported(peer, report), p);
    }
  }

  lemma {:induction false} ClearKeepsWindow(reports: Reports, log: seq<Event>, peer: Peer)
    requires HoldsWindow(reports, log) && Tidy(reports)
    ensures HoldsWindow(Remove(reports, peer), log + [Cleared(peer)]) && Tidy(Remove(reports, peer))
  {
    FindRemove(reports, peer);
    forall p {
      HistoryNext(log, Cleared(peer), p);
    }
  }

  lemma {:induction false} StoreKeepsWindow(reports: Reports, log: seq<Event>, info: ProviderInfo)
    requires HoldsWindow(reports, log)
    ensures HoldsWindow(reports, log + [Stored(info)])
  {
    forall p {
      HistoryNext(log, Stored(info), p);
    }
  }

  lemma {:induction false} EventKeepsLatest(registry: Registry, log: seq<Event>, e: Event)
    requires HoldsLatest(registry, log)
    ensures HoldsLatest(if e.Stored? then Put(registry, Peer(e.info.name, e.info.id), e.info) else registry, log + [e])
  {
    if e.Stored? {
      FindPut(registry, Peer(e.info.name, e.info.id), e.info);
    }
    forall p {
      HistoryNext(log, e, p);
    }
  }

  /** The window of a history: its last entry is the latest report of all, and it is empty only if the history is. */
  lemma {:induction false} WindowEnds(history: seq<ReportData>)
    ensures (LastOf(WINDOW, history) == []) == (history == [])
    ensures history != [] ==> LastOf(WINDOW, history)[|LastOf(WINDOW, history)| - 1] == history[|history| - 1]
  {
  }

  class ManagerStore {
    var reports: Reports
    var registry: Registry
    /** Everything that changed the stores. */
    ghost var log: seq<Event>

    ghost predicate Valid()
      reads this
    {
      HoldsWindow(reports, log) && Tidy(reports) && HoldsLatest(registry, log)
    }

    constructor ()
      ensures Valid() && log == []
    {
      reports, registry, log := map[], map[], [];
    }

    method GotReport(peer: Peer, args: ReportArgs)
      requires Valid()
      modifies this`reports, this`log
      ensures Valid()
      ensures log == if args.Report? then old(log) + [Reported(peer, args.report)] else old(log)
    {
      if args.NotAnObject? {
        return;
      }
      var group := map[];
      if peer.service in reports {
        group := reports[peer.service];
      }
      var held := [];
      if peer.instance in group {
        held := group[peer.instance];
      }
      held := held + [args.report];
      if |held| > WINDOW {
        held := held[1..];
      }
      ReportKeepsWindow(reports, log, peer, args.report);
      EventKeepsLatest(registry, log, Reported(peer, args.report));
      reports := reports[peer.service := group[peer.instance := held]];
      log := log + [Reported(peer, args.report)];
    }

    method ClearReports(peer: Peer)
      requires Valid()
      modifies this`reports, this`log
      ensures Valid() && log == old(log) + [Cleared(peer)]
    {
      ClearKeepsWindow(reports, log, peer);
      EventKeepsLatest(registry, log, Cleared(peer));
      if peer.service in reports {
        var group := reports[peer.service] - {peer.instance};
        reports := reports[peer.service := group];
        if |group| == 0 {
          reports := reports - {peer.service};
        }
      }
      log := log + [Cleared(peer)];
    }

    /** The last 60 reports since the last clear, oldest first. */
    method GetReports(peer: Peer) returns (held: seq<ReportData>)
      requires Valid()
      ensures held == LastOf(WINDOW, History(log, peer))
      ensures var history := History(log, peer);
              held == if |history| <= 60 then history else history[|history| - 60..]
    {
      assert Held(reports, peer) == LastOf(WINDOW, History(log, peer));
      if peer.service !in reports {
        return [];
      }
      var group := reports[peer.service];
      held := if peer.instance in group then group[peer.instance] else [];
    }

    method GetLatestReport(peer: Peer) returns (latest: Option<ReportData>)
      requires Valid()
      ensures var history := History(log, peer);
              latest == if history == [] then None else Some(history[|history| - 1])
    {
      assert Held(reports, peer) == LastOf(WINDOW, History(log, peer));
      WindowEnds(History(log, peer));
      if peer.service !in reports {
        return None;
      }
      var group := reports[peer.service];
      if peer.instance !in group || group[peer.instance] == [] {
        return None;
      }
      var held := group[peer.instance];
      latest := Some(held[|held| - 1]);
    }

    /** The instances of one service, each once, behind those collected so far. */
    method Collect(service: string, group: map<string, seq<ReportData>>, found: seq<Peer>) returns (all: seq<Peer>)
      requires Distinct(found) && forall p <- found :: p.service != service
      ensures Distinct(all)
      ensures forall p :: p in all <==> p in found || (p.service == service && p.instance in group)
    {
      all := found;
      var left := group.Keys;
      while left != {}
        invariant left <= group.Keys && Distinct(all)
        invariant forall p :: p in all <==> p in found || (p.service == service && p.instance in group.Keys - left)
        decreases |left|
      {
        var instance :| instance in left;
        assert Peer(service, instance) !in all;
        all, left := all + [Peer(service, instance)], left - {instance};
      }
    }

    /** Every peer with reports, exactly once. */
    method GetReportedInstances() returns (instances: seq<Peer>)
      requires Valid()
      ensures Distinct(instances)
      ensures forall p :: p in instances <==> History(log, p) != []
    {
      instances := [];
      var left := reports.Keys;
      while left != {}
        invariant left <= reports.Keys && Distinct(instances)
        invariant forall p :: p in instances <==> p.service in reports.Keys - left && p.instance in reports[p.service]
        decreases |left|
      {
        var service :| service in left;
        instances := Collect(service, reports[service], instances);
        left := left - {service};
      }
      forall p
        ensures p in instances <==> History(log, p) != []
      {
        assert Held(reports, p) == LastOf(WINDOW, History(log, p));
        WindowEnds(History(log, p));
      }
    }

    /** `_putProvider`, for arguments that have a provider. */
    method PutProvider(info: ProviderInfo)
      requires Valid()
      modifies this`registry, this`log
      ensures Valid() && log == old(log) + [Stored(info)]
    {
      StoreKeepsWindow(reports, log, info);
      EventKeepsLatest(registry, log, Stored(info));
      if info.name !in registry {
        registry := registry[info.name := map[]];
      }
      registry := registry[info.name := registry[info.name][info.id := info]];
      log := log + [Stored(info)];
    }

    /** The last registration of the peer. */
    method GetRegisterInfo(peer: Peer) returns (info: Option<ProviderInfo>)
      requires Valid()
      ensures info == Registration(log, peer)
    {
      assert Find(registry, peer) == Registration(log, peer);
      if peer.service !in registry {
        return None;
      }
      var group := registry[peer.service];
      info := if peer.instance in group then Some(group[peer.instance]) else None;
    }
  }

  ghost predicate Distinct<T>(s: seq<T>) {
    forall i, j :: 0 <= i < j < |s| ==> s[i] != s[j]
  }

  // ---- what the flat view means ----

  /** A history is exactly the reports behind the last clear, in order: anything before a clear is forgotten, and what
      concerns other peers does not matter. */
  lemma {:induction false} HistorySinceClear(log: seq<Event>, more: seq<Event>, peer: Peer)
    requires Cleared(peer) !in more
    ensures History(log + [Cleared(peer)] + more, peer) == ReportsIn(more, peer)
    ensures History(more, peer) == ReportsIn(more, peer)
  {
    HistoryNext(log, Cleared(peer), peer);
    HistoryBehind(log + [Cleared(peer)], more, peer);
    HistoryBehind([], more, peer);
    assert [] + more == more;
  }

  lemma {:induction false} OneMoreReport(log: seq<Event>, init: seq<Event>, last: Event, peer: Peer)
    requires last != Cleared(peer) && History(log + init, peer) == ReportsIn(init, peer)
    ensures History(log + init + [last], peer) == ReportsIn(init + [last], peer)
  {
    HistoryNext(log + init, last, peer);
    ReportsInAppend(init, last, peer);
  }

  lemma {:induction false} HistoryBehind(log: seq<Event>, more: seq<Event>, peer: Peer)
    requires Cleared(peer) !in more && History(log, peer) == []
    ensures History(log + more, peer) == ReportsIn(more, peer)
  {
    if more == [] {
      assert log + more == log;
    } else {
      var init, last := more[..|more| - 1], more[|more| - 1];
      assert more == init + [last] && log + more == log + init + [last];
      HistoryBehind(log, init, peer);
      OneMoreReport(log, init, last, peer);
    }
  }

  /** The reports of a peer, in order. */
  function ReportsIn(log: seq<Event>, peer: Peer): seq<ReportData> {
    if log == [] then []
    else (if log[0].Reported? && log[0].peer == peer then [log[0].report] else []) + ReportsIn(log[1..], peer)
  }

  lemma {:induction false} ReportsInAppend(log: seq<Event>, e: Event, peer: Peer)
    ensures ReportsIn(log + [e], peer) ==
            ReportsIn(log, peer) + if e.Reported? && e.peer == peer then [e.report] else []
  {
    if log != [] {
      assert (log + [e])[1..] == log[1..] + [e];
      ReportsInAppend(log[1..], e, peer);
    } else {
      assert [e][1..] == [];
    }
  }

  /** A registration holds until the same name and id registers again; nothing else touches it. */
  lemma {:induction false} RegistrationStays(log: seq<Event>, more: seq<Event>, peer: Peer)
    requires forall e <- more :: e.Stored? ==> Peer(e.info.name, e.info.id) != peer
    ensures Registration(log + more, peer) == Registration(log, peer)
  {
    if more == [] {
      assert log + more == log;
    } else {
      var init, last := more[..|more| - 1], more[|more| - 1];
      assert forall e <- init :: e in more;
      assert last in more;
      RegistrationStays(log, init, peer);
      HistoryNext(log + init, last, peer);
      assert log + more == log + init + [last];
    }
  }
}
