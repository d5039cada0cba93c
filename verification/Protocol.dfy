/**
 Any number of providers asking each other, with requests and response frames delivered in any order. A step is one
 synchronous piece of the code; a run is any sequence of steps, those that are not enabled doing nothing. Messages on the
 response channels are bytes, written and read by the frame codec. Message ids are distinct and fit a header.
 */
module Protocol {
  import opened Wrappers
  import opened Utf8
  import opened FrameCodec
  import opened Router
  import opened Provider

  /** A call of `ask`. `registered` says that it has put its message into the pool, after the write came back. */
  datatype Ask = Ask(from: nat, wantsPromise: bool, registered: bool)

  datatype Request = Request(to: nat, peer: Option<Peer>, api: Api)

  /** A handler call in flight at a provider. */
  datatype Job = Job(at: nat, key: Option<string>, spec: Value)

  datatype Envelope = Envelope(to: nat, bytes: seq<Byte>)

  /** What an observer of the whole system sees. */
  datatype Entry =
    | Registered(node: nat, msgId: Text)
    | Received(node: nat, counted: bool)
    | Wrote(msgId: Text, payload: seq<Byte>)
    | Delivered(node: nat, msgId: Text)
    | Settled(node: nat, s: Settlement)

  /** A received message that has been counted. */
  datatype Finish = Finish(at: nat, key: Option<string>, verdict: Verdict)

  datatype Node = Node(apis: Value, specs: Value, pool: Pool, counters: Counters)

  /** Requests and jobs are keyed by the id of their message. Foreign jobs serve messages that no `ask` of the system sent,
      or that were sent before; these may have any id or none, and each job has a ticket of its own. */
  datatype System = System(
    nodes: seq<Node>, asks: map<Text, Ask>, requests: map<Text, Request>, jobs: map<Text, Job>, foreign: map<nat, Job>,
    frames: seq<Envelope>, finished: seq<Finish>, log: seq<Entry>)

  datatype Step =
    | Send(msgId: Text, from: nat, to: nat, peer: Option<Peer>, api: Api, wantsPromise: bool)
    | Register(msgId: Text)
    | Receive(msgId: Text)
    | ReceiveForeign(node: nat, message: Message, ticket: nat)
    | Complete(msgId: Text, verdict: Verdict, data: Data, channel: nat, written: bool)
    | CompleteForeign(ticket: nat, verdict: Verdict)
    | Deliver(index: nat)

  predicate Enabled(s: System, step: Step) {
    match step
    case Send(m, from, to, _, _, _) => m !in s.asks && Plain(m) && from < |s.nodes| && to < |s.nodes|
    case Register(m) => m in s.asks && !s.asks[m].registered && s.asks[m].from < |s.nodes|
    case Receive(m) => m in s.requests && s.requests[m].to < |s.nodes|
    case ReceiveForeign(n, _, ticket) => n < |s.nodes| && ticket !in s.foreign
    case Complete(m, _, _, channel, _) => m in s.jobs && s.jobs[m].at < |s.nodes| && channel < |s.nodes|
    case CompleteForeign(ticket, _) => ticket in s.foreign && s.foreign[ticket].at < |s.nodes|
    case Deliver(i) => i < |s.frames| && s.frames[i].to < |s.nodes|
  }

  function SetNode(s: System, n: nat, node: Node): System
    requires n < |s.nodes|
  {
    s.(nodes := s.nodes[n := node])
  }

  function Log(s: System, entries: seq<Entry>): System {
    s.(log := s.log + entries)
  }

  /** A message reaches a provider. */
  function Arrive(s: System, n: nat, message: Message): (System, Admission)
    requires n < |s.nodes|
  {
    var node := s.nodes[n];
    var admission := Admit(node.apis, node.specs, message);
    var key := CounterKey(message);
    var t := Log(s, [Received(n, key.Some? && !admission.Ignored?)]);
    (if admission.Refused? then
       SetNode(t, n, node.(counters := Count(node.counters, key, admission.verdict)))
       .(finished := s.finished + [Finish(n, key, admission.verdict)])
     else t,
     admission)
  }

  /** A handler call ends and is counted. */
  function FinishJob(s: System, job: Job, verdict: Verdict): System
    requires job.at < |s.nodes|
  {
    var node := s.nodes[job.at];
    SetNode(s, job.at, node.(counters := Count(node.counters, job.key, verdict)))
    .(finished := s.finished + [Finish(job.at, job.key, verdict)])
  }

  function Apply(s: System, step: Step): System
    requires Enabled(s, step)
  {
    match step
    case Send(m, from, to, peer, api, wantsPromise) =>
      s.(asks := s.asks[m := Ask(from, wantsPromise, false)], requests := s.requests[m := Request(to, peer, api)])
    case Register(m) =>
      var ask := s.asks[m];
      var node := s.nodes[ask.from];
      Log(SetNode(s.(asks := s.asks[m := ask.(registered := true)]), ask.from,
                  node.(pool := node.pool[m := Ticket(ask.wantsPromise)])),
          [Registered(ask.from, m)])
    case Receive(m) =>
      var r := s.requests[m];
      var message := Call(r.peer, r.api, m);
      var (t, admission) := Arrive(s.(requests := s.requests - {m}), r.to, message);
      if admission.Accepted? then t.(jobs := t.jobs[m := Job(r.to, CounterKey(message), admission.spec)]) else t
    case ReceiveForeign(n, message, ticket) =>
      var (t, admission) := Arrive(s, n, message);
      if admission.Accepted? then
        t.(foreign := t.foreign[ticket := Job(n, CounterKey(message), admission.spec)])
      else t
    case Complete(m, verdict, data, channel, written) =>
      var job := s.jobs[m];
      var t := FinishJob(s.(jobs := s.jobs - {m}), job, verdict);
      var reply := if verdict.Succeeded? && written then ReplyOf(job.spec, data) else None;
      if reply.None? then t
      else Log(t.(frames := t.frames + [Envelope(channel, EncodeFrame(true, m, reply.value))]), [Wrote(m, reply.value)])
    case CompleteForeign(ticket, verdict) =>
      FinishJob(s.(foreign := s.foreign - {ticket}), s.foreign[ticket], verdict)
    case Deliver(i) =>
      var e := s.frames[i];
      var node := s.nodes[e.to];
      var (pool, settled) := Answer(node.pool, e.bytes);
      var t := SetNode(s.(frames := s.frames[..i] + s.frames[i + 1..]), e.to, node.(pool := pool));
      var id := DecodeFrame(e.bytes);
      Log(t, (if id.Some? then [Delivered(e.to, id.value.msgId)] else []) +
             seq(|settled|, k requires 0 <= k < |settled| => Settled(e.to, settled[k])))
  }

  function Next(s: System, step: Step): System {
    if Enabled(s, step) then Apply(s, step) else s
  }

  function Execute(s: System, steps: seq<Step>): System
    decreases |steps|
  {
    if steps == [] then s else Execute(Next(s, steps[0]), steps[1..])
  }

  predicate Initial(s: System) {
    s.asks == map[] && s.requests == map[] && s.jobs == map[] && s.foreign == map[] && s.frames == [] && s.finished == [] && s.log == [] &&
    forall n :: 0 <= n < |s.nodes| ==> s.nodes[n].pool == map[] && s.nodes[n].counters == map[]
  }

  // ---- what the log says ----

  /** The requests of a provider that, going by the log alone, are pending: registered, no frame delivered since. */
  ghost function PendingIn(log: seq<Entry>, n: nat): set<Text> {
    if log == [] then {}
    else
      var before, e := PendingIn(log[..|log| - 1], n), log[|log| - 1];
      match e
      case Registered(k, m) => if k == n then before + {m} else before
      case Delivered(k, m) => if k == n then before - {m} else before
      case _ => before
  }

  /** How many received messages have a counter to be counted in. */
  ghost function CountedIn(log: seq<Entry>, n: nat): nat {
    if log == [] then 0
    else CountedIn(log[..|log| - 1], n) + if log[|log| - 1] == Received(n, true) then 1 else 0
  }

  lemma {:induction false} PendingAppend(log: seq<Entry>, e: Entry, n: nat)
    ensures PendingIn(log + [e], n) ==
            match e
            case Registered(k, m) => if k == n then PendingIn(log, n) + {m} else PendingIn(log, n)
            case Delivered(k, m) => if k == n then PendingIn(log, n) - {m} else PendingIn(log, n)
            case _ => PendingIn(log, n)
    ensures CountedIn(log + [e], n) == CountedIn(log, n) + if e == Received(n, true) then 1 else 0
  {
    assert (log + [e])[..|log|] == log;
  }

  /** Pending means: registered at some point, and no frame for it delivered at any later point. */
  lemma {:induction false} PendingMeans(log: seq<Entry>, n: nat, m: Text)
    ensures m in PendingIn(log, n) <==>
            exists i :: 0 <= i < |log| && log[i] == Registered(n, m) &&
                        forall j :: i < j < |log| ==> log[j] != Delivered(n, m)
  {
    if log != [] {
      var last := |log| - 1;
      PendingMeans(log[..last], n, m);
      if log[last] == Registered(n, m) {
        assert m in PendingIn(log, n);
      } else if m in PendingIn(log, n) {
        var i :| 0 <= i < last && log[..last][i] == Registered(n, m) &&
                 forall j :: i < j < last ==> log[..last][j] != Delivered(n, m);
        assert log[i] == Registered(n, m);
        assert forall j :: i < j < |log| ==> j == last || log[j] == log[..last][j];
      } else {
        assert forall i :: 0 <= i < last ==> log[..last][i] == log[i];
      }
    }
  }

  // ---- the invariant ----

  /** A request is in flight, or being handled, or done; never two of these. */
  ghost predicate Ids(s: System) {
    (forall m :: m in s.asks ==> Plain(m) && s.asks[m].from < |s.nodes|) &&
    s.requests.Keys <= s.asks.Keys && s.jobs.Keys <= s.asks.Keys && s.requests.Keys !! s.jobs.Keys &&
    (forall m :: m in s.jobs ==> s.jobs[m].at < |s.nodes|) &&
    (forall k :: k in s.foreign ==> s.foreign[k].at < |s.nodes|)
  }

  ghost predicate Open(s: System, m: Text) {
    m in s.requests || m in s.jobs
  }

  /** A frame is written for a request that is done, and at most one for each. */
  ghost predicate WrittenOnce(s: System) {
    (forall i :: 0 <= i < |s.log| && s.log[i].Wrote? ==> s.log[i].msgId in s.asks && !Open(s, s.log[i].msgId)) &&
    (forall i, j :: 0 <= i < j < |s.log| && s.log[i].Wrote? && s.log[j].Wrote? ==> s.log[i].msgId != s.log[j].msgId)
  }

  /** Frames in flight are written ones. */
  ghost predicate FramesWritten(s: System) {
    forall f :: 0 <= f < |s.frames| ==> IsWritten(s, s.frames[f])
  }

  ghost predicate IsWritten(s: System, e: Envelope) {
    exists m, payload :: Wrote(m, payload) in s.log && e.bytes == EncodeFrame(true, m, payload)
  }

  /** The id that a frame carries. */
  function IdOf(e: Envelope): Option<Text> {
    match DecodeFrame(e.bytes)
    case Some(f) => Some(f.msgId)
    case None => None
  }

  ghost predicate WasWritten(log: seq<Entry>, m: Text) {
    exists j :: 0 <= j < |log| && log[j].Wrote? && log[j].msgId == m
  }

  /** There is one frame for a request at most, in flight or delivered, and none if none was written. */
  ghost predicate Flights(s: System) {
    InFlight(s) && Deliveries(s.log)
  }

  ghost predicate InFlight(s: System) {
    (forall f :: 0 <= f < |s.frames| ==> IdOf(s.frames[f]).Some? && WasWritten(s.log, IdOf(s.frames[f]).value)) &&
    (forall f, g :: 0 <= f < g < |s.frames| ==> IdOf(s.frames[f]) != IdOf(s.frames[g])) &&
    (forall i, f :: 0 <= i < |s.log| && s.log[i].Delivered? && 0 <= f < |s.frames| ==>
       IdOf(s.frames[f]) != Some(s.log[i].msgId))
  }

  ghost predicate Deliveries(log: seq<Entry>) {
    (forall i :: 0 <= i < |log| && log[i].Delivered? ==> WasWritten(log, log[i].msgId)) &&
    (forall i, j :: 0 <= i < j < |log| && log[i].Delivered? && log[j].Delivered? ==> log[i].msgId != log[j].msgId)
  }

  /** The pools are what the log says, and hold own, registered requests. */
  ghost predicate Pools(s: System) {
    (forall n :: 0 <= n < |s.nodes| ==> s.nodes[n].pool.Keys == PendingIn(s.log, n)) &&
    (forall n, m :: 0 <= n < |s.nodes| && m in s.nodes[n].pool ==>
       m in s.asks && s.asks[m] == Ask(n, s.nodes[n].pool[m].promised, true)) &&
    (forall n, m :: Registered(n, m) in s.log ==> m in s.asks && s.asks[m].registered && s.asks[m].from == n)
  }

  /** Promises settle once, on the delivery of a frame, with a payload written before for the same request; and a promise
      that left the pool has settled. */
  ghost predicate Settles(s: System) {
    SettledWell(s) && SettledOnce(s.log) && NoneLost(s)
  }

  ghost predicate SettledWell(s: System) {
    forall i :: 0 <= i < |s.log| && s.log[i].Settled? ==>
      SettledProperly(s.log, i) && s.log[i].s.msgId in s.asks &&
      s.asks[s.log[i].s.msgId] == Ask(s.log[i].node, true, true) && !InPool(s, s.log[i].s.msgId)
  }

  ghost predicate SettledOnce(log: seq<Entry>) {
    forall i, j :: 0 <= i < j < |log| && log[i].Settled? && log[j].Settled? ==> log[i].s.msgId != log[j].s.msgId
  }

  ghost predicate NoneLost(s: System) {
    forall m :: m in s.asks && s.asks[m].registered && s.asks[m].wantsPromise ==> InPool(s, m) || HasSettled(s, m)
  }

  /** Entry `i` settles a promise successfully, right at a delivery, with the payload written for its request before. */
  ghost predicate SettledProperly(log: seq<Entry>, i: nat)
    requires i < |log| && log[i].Settled?
  {
    log[i].s.success && 0 < i && log[i - 1] == Delivered(log[i].node, log[i].s.msgId) &&
    exists j :: 0 <= j < i - 1 && log[j] == Wrote(log[i].s.msgId, log[i].s.payload)
  }

  ghost predicate InPool(s: System, m: Text) {
    m in s.asks && s.asks[m].from < |s.nodes| && m in s.nodes[s.asks[m].from].pool
  }

  ghost predicate HasSettled(s: System, m: Text) {
    exists i :: 0 <= i < |s.log| && s.log[i].Settled? && s.log[i].s.msgId == m
  }

  /** The jobs at a provider that will be counted. */
  ghost function JobsAt<K(!new)>(jobs: map<K, Job>, n: nat): set<K> {
    set m | m in jobs && jobs[m].at == n && jobs[m].key.Some?
  }

  /** All calls in flight at a provider that will be counted. */
  ghost function InFlightAt(s: System, n: nat): nat {
    |JobsAt(s.jobs, n)| + |JobsAt(s.foreign, n)|
  }

  /** Every message that has a counter has been counted, once, or is still being handled. */
  ghost predicate Counts(s: System) {
    forall n :: 0 <= n < |s.nodes| ==> Total(s.nodes[n].counters) + InFlightAt(s, n) == CountedIn(s.log, n)
  }

  /** How many messages of an api finished at a provider with a verdict. */
  function Finishes(finished: seq<Finish>, n: nat, key: string, v: Verdict): nat {
    if finished == [] then 0
    else
      Finishes(finished[..|finished| - 1], n, key, v) +
      if finished[|finished| - 1] == Finish(n, Some(key), v) then 1 else 0
  }

  /** Every counter of every api is the number of messages that finished so. */
  ghost predicate Exact(s: System) {
    forall n, key, v :: 0 <= n < |s.nodes| ==> CountOf(s.nodes[n].counters, key, v) == Finishes(s.finished, n, key, v)
  }

  ghost predicate Inv(s: System) {
    Ids(s) && WrittenOnce(s) && FramesWritten(s) && Flights(s) && Pools(s) && Settles(s) && Counts(s) && Exact(s)
  }

  lemma {:induction false} InitialInv(s: System)
    requires Initial(s)
    ensures Inv(s)
  {
    forall n | 0 <= n < |s.nodes|
      ensures JobsAt(s.jobs, n) == {} && JobsAt(s.foreign, n) == {}
    {
    }
  }

  /** A longer log keeps what was written and settled. */
  lemma {:induction false} LogGrows(s: System, t: System)
    requires s.log <= t.log
    ensures forall e :: e in s.log ==> e in t.log
    ensures forall m :: HasSettled(s, m) ==> HasSettled(t, m)
    ensures forall e :: IsWritten(s, e) ==> IsWritten(t, e)
    ensures forall i :: 0 <= i < |s.log| ==> t.log[i] == s.log[i]
    ensures forall i :: 0 <= i < |s.log| && s.log[i].Settled? && SettledProperly(s.log, i) ==> SettledProperly(t.log, i)
  {
    forall i | 0 <= i < |s.log| && s.log[i].Settled? && SettledProperly(s.log, i)
      ensures SettledProperly(t.log, i)
    {
      var j :| 0 <= j < i - 1 && s.log[j] == Wrote(s.log[i].s.msgId, s.log[i].s.payload);
      assert t.log[j] == s.log[j];
    }
    assert forall x :: x in s.log ==> x in t.log;
    forall m | HasSettled(s, m)
      ensures HasSettled(t, m)
    {
      var i :| 0 <= i < |s.log| && s.log[i].Settled? && s.log[i].s.msgId == m;
      assert t.log[i] == s.log[i];
    }
  }

  lemma {:induction false} IdsReceive(s: System, m: Text)
    requires Ids(s) && Enabled(s, Receive(m))
    ensures Ids(Apply(s, Receive(m)))
  {
  }

  lemma {:induction false} IdsArrive(s: System, n: nat, message: Message)
    requires Ids(s) && n < |s.nodes|
    ensures Ids(Arrive(s, n, message).0)
  {
  }

  lemma {:induction false} IdsForeign(s: System, n: nat, message: Message, ticket: nat)
    requires Ids(s) && Enabled(s, ReceiveForeign(n, message, ticket))
    ensures Ids(Apply(s, ReceiveForeign(n, message, ticket)))
  {
    IdsArrive(s, n, message);
  }

  lemma {:induction false} IdsComplete(s: System, step: Step)
    requires Ids(s) && Enabled(s, step) && (step.Complete? || step.CompleteForeign?)
    ensures Ids(Apply(s, step))
  {
  }

  lemma {:induction false} IdsDeliver(s: System, i: nat)
    requires Ids(s) && Enabled(s, Deliver(i))
    ensures Ids(Apply(s, Deliver(i)))
  {
  }

  lemma {:induction false} IdsAsk(s: System, step: Step)
    requires Ids(s) && Enabled(s, step) && (step.Send? || step.Register?)
    ensures Ids(Apply(s, step))
  {
  }

  lemma {:induction false} IdsStep(s: System, step: Step)
    requires Ids(s) && Enabled(s, step)
    ensures Ids(Apply(s, step))
  {
    match step {
      case Receive(m) => IdsReceive(s, m);
      case ReceiveForeign(n, message, ticket) => IdsForeign(s, n, message, ticket);
      case Complete(_, _, _, _, _) | CompleteForeign(_, _) => IdsComplete(s, step);
      case Deliver(i) => IdsDeliver(s, i);
      case Send(_, _, _, _, _, _) | Register(_) => IdsAsk(s, step);
    }
  }

  /** Once done, a request stays done. */
  ghost predicate OpensNone(s: System, t: System) {
    s.asks.Keys <= t.asks.Keys && forall m :: m in s.asks && Open(t, m) ==> Open(s, m)
  }

  lemma {:induction false} StepOpensNone(s: System, step: Step)
    requires Enabled(s, step)
    ensures OpensNone(s, Apply(s, step))
  {
  }

  lemma {:induction false} WrittenOnceKept(s: System, t: System)
    requires WrittenOnce(s) && s.log <= t.log && forall i :: |s.log| <= i < |t.log| ==> !t.log[i].Wrote?
    requires OpensNone(s, t)
    ensures WrittenOnce(t)
  {
  }

  lemma {:induction false} WrittenOnceAdded(s: System, t: System, m: Text, payload: seq<Byte>)
    requires WrittenOnce(s) && t.log == s.log + [Wrote(m, payload)] && m in s.asks && Open(s, m) && !Open(t, m)
    requires OpensNone(s, t)
    ensures WrittenOnce(t)
  {
  }

  lemma {:induction false} WrittenOnceComplete(s: System, step: Step)
    requires Ids(s) && WrittenOnce(s) && Enabled(s, step) && step.Complete?
    ensures WrittenOnce(Apply(s, step))
  {
    var t, m := Apply(s, step), step.msgId;
    StepOpensNone(s, step);
    var reply := if step.verdict.Succeeded? && step.written then ReplyOf(s.jobs[m].spec, step.data) else None;
    if reply.Some? {
      assert Open(s, m) && !Open(t, m);
      WrittenOnceAdded(s, t, m, reply.value);
    } else {
      WrittenOnceKept(s, t);
    }
  }

  lemma {:induction false} DeliverDoesNotWrite(s: System, i: nat)
    requires Enabled(s, Deliver(i))
    ensures var t := Apply(s, Deliver(i)); s.log <= t.log && forall k :: |s.log| <= k < |t.log| ==> !t.log[k].Wrote?
  {
  }

  lemma {:induction false} OthersDoNotWrite(s: System, step: Step)
    requires Enabled(s, step) && !step.Complete?
    ensures var t := Apply(s, step); s.log <= t.log && forall i :: |s.log| <= i < |t.log| ==> !t.log[i].Wrote?
  {
    if step.Deliver? {
      DeliverDoesNotWrite(s, step.index);
    }
  }

  lemma {:induction false} WrittenOnceStep(s: System, step: Step)
    requires Ids(s) && WrittenOnce(s) && Enabled(s, step)
    ensures WrittenOnce(Apply(s, step))
  {
    if step.Complete? {
      WrittenOnceComplete(s, step);
    } else {
      StepOpensNone(s, step);
      OthersDoNotWrite(s, step);
      WrittenOnceKept(s, Apply(s, step));
    }
  }

  lemma {:induction false} FramesKept(s: System, t: System)
    requires FramesWritten(s) && s.log <= t.log && forall f :: 0 <= f < |t.frames| ==> t.frames[f] in s.frames
    ensures FramesWritten(t)
  {
    LogGrows(s, t);
  }

  lemma {:induction false} FramesAdded(s: System, t: System, e: Envelope, m: Text, payload: seq<Byte>)
    requires FramesWritten(s) && t.log == s.log + [Wrote(m, payload)] && t.frames == s.frames + [e]
    requires e.bytes == EncodeFrame(true, m, payload)
    ensures FramesWritten(t)
  {
    LogGrows(s, t);
    assert t.log[|s.log|] == Wrote(m, payload);
    assert IsWritten(t, e);
  }

  lemma {:induction false} FramesWrittenComplete(s: System, step: Step)
    requires FramesWritten(s) && Enabled(s, step) && step.Complete?
    ensures FramesWritten(Apply(s, step))
  {
    var t, m := Apply(s, step), step.msgId;
    var reply := if step.verdict.Succeeded? && step.written then ReplyOf(s.jobs[m].spec, step.data) else None;
    if reply.Some? {
      FramesAdded(s, t, t.frames[|s.frames|], m, reply.value);
    } else {
      FramesKept(s, t);
    }
  }

  /** No other step touches the frames or logs a delivery. */
  lemma {:induction false} FramesStay(s: System, step: Step)
    requires Enabled(s, step) && !step.Complete? && !step.Deliver?
    ensures var t := Apply(s, step);
            t.frames == s.frames && s.log <= t.log && forall i :: |s.log| <= i < |t.log| ==> !t.log[i].Delivered?
  {
    match step {
      case Receive(m) =>
        ArriveIsQuiet(s.(requests := s.requests - {m}), s.requests[m].to, Call(s.requests[m].peer, s.requests[m].api, m));
      case ReceiveForeign(n, message, _) =>
        ArriveIsQuiet(s, n, message);
      case Register(m) =>
        RegisterApplies(s, m);
      case Send(_, _, _, _, _, _) =>
      case CompleteForeign(ticket, verdict) =>
        assert Apply(s, step).log == s.log;
    }
  }

  lemma {:induction false} FramesWrittenStep(s: System, step: Step)
    requires FramesWritten(s) && Enabled(s, step)
    ensures FramesWritten(Apply(s, step))
  {
    if step.Complete? {
      FramesWrittenComplete(s, step);
    } else {
      if !step.Deliver? {
        FramesStay(s, step);
      }
      FramesKept(s, Apply(s, step));
    }
  }

  // ---- pools ----

  /** A step that neither registers nor delivers leaves the pools and what the log says about them alone. */
  lemma {:induction false} PendingKept(log: seq<Entry>, e: Entry, n: nat)
    requires !e.Registered? && !e.Delivered?
    ensures PendingIn(log + [e], n) == PendingIn(log, n)
  {
    PendingAppend(log, e, n);
  }

  /** A step that leaves the pools and the asks alone, up to new asks, and that neither registers nor delivers. */
  ghost predicate IsQuiet(s: System, t: System) {
    |s.nodes| == |t.nodes| && (forall n :: 0 <= n < |s.nodes| ==> t.nodes[n].pool == s.nodes[n].pool) &&
    s.log <= t.log && |t.log| <= |s.log| + 1 &&
    (|t.log| > |s.log| ==> t.log[|s.log|].Received? || t.log[|s.log|].Wrote?) &&
    (forall m :: m in s.asks ==> m in t.asks && t.asks[m] == s.asks[m]) &&
    (forall m :: m in t.asks && m !in s.asks ==> !t.asks[m].registered)
  }

  lemma {:induction false} QuietStep(s: System, step: Step)
    requires Enabled(s, step) && !step.Register? && !step.Deliver?
    ensures IsQuiet(s, Apply(s, step))
  {
    match step {
      case Send(_, _, _, _, _, _) =>
      case Receive(m) =>
        ArriveIsQuiet(s.(requests := s.requests - {m}), s.requests[m].to, Call(s.requests[m].peer, s.requests[m].api, m));
      case ReceiveForeign(n, message, _) =>
        ArriveIsQuiet(s, n, message);
      case CompleteForeign(_, _) | Complete(_, _, _, _, _) =>
        CompleteIsQuiet(s, step);
    }
  }

  lemma {:induction false} CompleteIsQuiet(s: System, step: Step)
    requires Enabled(s, step) && (step.Complete? || step.CompleteForeign?)
    ensures IsQuiet(s, Apply(s, step))
  {
    var t := Apply(s, step);
    assert t.log == s.log || (t.log == s.log + [t.log[|s.log|]] && t.log[|s.log|].Wrote?);
  }

  lemma {:induction false} ArriveIsQuiet(s: System, n: nat, message: Message)
    requires n < |s.nodes|
    ensures IsQuiet(s, Arrive(s, n, message).0)
  {
  }

  lemma {:induction false} PoolsKept(s: System, t: System)
    requires Pools(s) && IsQuiet(s, t)
    ensures Pools(t)
  {
    if |t.log| > |s.log| {
      assert t.log == s.log + [t.log[|s.log|]];
      forall n | 0 <= n < |s.nodes|
        ensures PendingIn(t.log, n) == PendingIn(s.log, n)
      {
        PendingKept(s.log, t.log[|s.log|], n);
      }
    } else {
      assert t.log == s.log;
    }
  }

  /** The request `m` goes into the pool of its asker. */
  ghost predicate IsRegistration(s: System, t: System, m: Text) {
    m in s.asks && s.asks[m].from < |s.nodes| &&
    var ask := s.asks[m]; var node := s.nodes[ask.from];
    t.asks == s.asks[m := ask.(registered := true)] &&
    t.nodes == s.nodes[ask.from := node.(pool := node.pool[m := Ticket(ask.wantsPromise)])] &&
    t.log == s.log + [Registered(ask.from, m)]
  }

  lemma {:induction false} RegisterApplies(s: System, m: Text)
    requires Enabled(s, Register(m))
    ensures IsRegistration(s, Apply(s, Register(m)), m)
  {
  }

  lemma {:induction false} KeysRegister(s: System, t: System, m: Text, n: nat)
    requires Pools(s) && IsRegistration(s, t, m) && n < |s.nodes|
    ensures t.nodes[n].pool.Keys == PendingIn(t.log, n)
  {
    PendingAppend(s.log, Registered(s.asks[m].from, m), n);
  }

  lemma {:induction false} PoolsRegister(s: System, t: System, m: Text)
    requires Pools(s) && IsRegistration(s, t, m)
    ensures Pools(t)
  {
    forall n | 0 <= n < |t.nodes|
      ensures t.nodes[n].pool.Keys == PendingIn(t.log, n)
    {
      KeysRegister(s, t, m, n);
    }
    forall n, k | 0 <= n < |t.nodes| && k in t.nodes[n].pool
      ensures k in t.asks && t.asks[k] == Ask(n, t.nodes[n].pool[k].promised, true)
    {
      assert (n == s.asks[m].from && k == m) || k in s.nodes[n].pool;
    }
  }

  /** A delivery to `to` of a frame for `m`, which settled `settled`. */
  ghost predicate IsDelivery(s: System, t: System, to: nat, m: Text, settled: seq<Entry>) {
    to < |s.nodes| && t.asks == s.asks && t.nodes == s.nodes[to := s.nodes[to].(pool := s.nodes[to].pool - {m})] &&
    t.log == s.log + [Delivered(to, m)] + settled &&
    |settled| <= 1 && forall e :: e in settled ==> e.Settled?
  }

  /** A delivered frame was written for the request whose id it carries. */
  lemma {:induction false} FrameOrigin(s: System, i: nat) returns (m: Text, payload: seq<Byte>)
    requires Ids(s) && WrittenOnce(s) && FramesWritten(s) && i < |s.frames|
    ensures Wrote(m, payload) in s.log && m in s.asks && !Open(s, m) && Plain(m)
    ensures s.frames[i].bytes == EncodeFrame(true, m, payload) && IdOf(s.frames[i]) == Some(m)
  {
    assert IsWritten(s, s.frames[i]);
    m, payload :| Wrote(m, payload) in s.log && s.frames[i].bytes == EncodeFrame(true, m, payload);
    RoundTripIffPlain(true, m, payload);
  }

  lemma {:induction false} DeliverApplies(s: System, i: nat, m: Text, payload: seq<Byte>, settled: seq<Entry>)
    requires Enabled(s, Deliver(i)) && s.frames[i].bytes == EncodeFrame(true, m, payload) && Plain(m)
    requires var to := s.frames[i].to; var pool := s.nodes[to].pool;
             settled == if m in pool && pool[m].promised then [Settled(to, Settlement(m, true, payload))] else []
    ensures IsDelivery(s, Apply(s, Deliver(i)), s.frames[i].to, m, settled)
  {
    RoundTripIffPlain(true, m, payload);
    var (left, answer) := Answer(s.nodes[s.frames[i].to].pool, s.frames[i].bytes);
    assert seq(|answer|, k requires 0 <= k < |answer| => Settled(s.frames[i].to, answer[k])) == settled;
  }

  /** A delivery takes the request of its frame out of the receiver's pool, and settles it if it was there with a
      promise. */
  lemma {:induction false} DeliverOutcome(s: System, i: nat) returns (m: Text, payload: seq<Byte>, settled: seq<Entry>)
    requires Ids(s) && WrittenOnce(s) && FramesWritten(s) && Enabled(s, Deliver(i))
    ensures Wrote(m, payload) in s.log && m in s.asks && !Open(s, m) && IdOf(s.frames[i]) == Some(m)
    ensures var to := s.frames[i].to; var pool := s.nodes[to].pool;
            settled == if m in pool && pool[m].promised then [Settled(to, Settlement(m, true, payload))] else []
    ensures IsDelivery(s, Apply(s, Deliver(i)), s.frames[i].to, m, settled)
  {
    m, payload := FrameOrigin(s, i);
    var to := s.frames[i].to;
    var pool := s.nodes[to].pool;
    settled := if m in pool && pool[m].promised then [Settled(to, Settlement(m, true, payload))] else [];
    DeliverApplies(s, i, m, payload, settled);
  }

  lemma {:induction false} PendingDelivered(log: seq<Entry>, to: nat, m: Text, settled: seq<Entry>, n: nat)
    requires |settled| <= 1 && forall e :: e in settled ==> e.Settled?
    ensures PendingIn(log + [Delivered(to, m)] + settled, n) ==
            if n == to then PendingIn(log, n) - {m} else PendingIn(log, n)
  {
    var heard := log + [Delivered(to, m)];
    PendingAppend(log, Delivered(to, m), n);
    if settled == [] {
      assert heard + settled == heard;
    } else {
      assert settled[0] in settled && settled == [settled[0]];
      PendingKept(heard, settled[0], n);
    }
  }

  lemma {:induction false} PoolsDelivered(s: System, t: System, to: nat, m: Text, settled: seq<Entry>)
    requires Pools(s) && IsDelivery(s, t, to, m, settled)
    ensures Pools(t)
  {
    forall n | 0 <= n < |s.nodes|
      ensures t.nodes[n].pool.Keys == PendingIn(t.log, n)
    {
      PendingDelivered(s.log, to, m, settled, n);
      assert t.nodes[n].pool == if n == to then s.nodes[n].pool - {m} else s.nodes[n].pool;
    }
    forall n, k | Registered(n, k) in t.log
      ensures Registered(n, k) in s.log
    {
    }
  }

  lemma {:induction false} PoolsStep(s: System, step: Step)
    requires Ids(s) && WrittenOnce(s) && FramesWritten(s) && Pools(s) && Enabled(s, step)
    ensures Pools(Apply(s, step))
  {
    match step {
      case Register(m) =>
        RegisterApplies(s, m);
        PoolsRegister(s, Apply(s, step), m);
      case Deliver(i) =>
        var m, payload, settled := DeliverOutcome(s, i);
        PoolsDelivered(s, Apply(s, step), s.frames[i].to, m, settled);
      case _ =>
        QuietStep(s, step);
        PoolsKept(s, Apply(s, step));
    }
  }

  // ---- one frame per request ----

  lemma {:induction false} StillWritten(a: seq<Entry>, b: seq<Entry>)
    requires a <= b
    ensures forall m :: WasWritten(a, m) ==> WasWritten(b, m)
  {
    forall m | WasWritten(a, m)
      ensures WasWritten(b, m)
    {
      var j :| 0 <= j < |a| && a[j].Wrote? && a[j].msgId == m;
      assert b[j] == a[j];
    }
  }

  lemma {:induction false} FlightsKept(s: System, t: System)
    requires Flights(s) && s.log <= t.log && t.frames == s.frames
    requires forall i :: |s.log| <= i < |t.log| ==> !t.log[i].Delivered?
    ensures Flights(t)
  {
    StillWritten(s.log, t.log);
    forall i | 0 <= i < |t.log| && t.log[i].Delivered?
      ensures i < |s.log| && t.log[i] == s.log[i]
    {
    }
  }

  lemma {:induction false} FlightsAdded(s: System, t: System, e: Envelope, m: Text, payload: seq<Byte>)
    requires Flights(s) && !WasWritten(s.log, m) && IdOf(e) == Some(m)
    requires t.log == s.log + [Wrote(m, payload)] && t.frames == s.frames + [e]
    ensures Flights(t)
  {
    StillWritten(s.log, t.log);
    assert t.log[|s.log|] == Wrote(m, payload);
    assert WasWritten(t.log, m);
    forall i | 0 <= i < |t.log| && t.log[i].Delivered?
      ensures i < |s.log| && t.log[i] == s.log[i]
    {
    }
    forall f | 0 <= f < |t.frames|
      ensures f < |s.frames| ==> t.frames[f] == s.frames[f] && IdOf(t.frames[f]) != Some(m)
    {
    }
  }

  /** Which entries of the log are deliveries, behind one more. */
  lemma {:induction false} NewDelivery(s: System, t: System, to: nat, m: Text, settled: seq<Entry>, k: nat)
    requires IsDelivery(s, t, to, m, settled) && k < |t.log| && t.log[k].Delivered?
    ensures k <= |s.log| && t.log[k] == if k < |s.log| then s.log[k] else Delivered(to, m)
  {
    forall j | |s.log| < j < |t.log|
      ensures t.log[j].Settled?
    {
      assert t.log[j] in settled;
    }
  }

  lemma {:induction false} DeliveriesGrow(s: System, t: System, to: nat, m: Text, settled: seq<Entry>)
    requires Deliveries(s.log) && IsDelivery(s, t, to, m, settled) && WasWritten(s.log, m)
    requires forall k :: 0 <= k < |s.log| && s.log[k].Delivered? ==> s.log[k].msgId != m
    ensures Deliveries(t.log)
  {
    StillWritten(s.log, t.log);
    forall k | 0 <= k < |t.log| && t.log[k].Delivered?
      ensures k <= |s.log| && t.log[k] == if k < |s.log| then s.log[k] else Delivered(to, m)
    {
      NewDelivery(s, t, to, m, settled, k);
    }
  }

  lemma {:induction false} FrameBefore(frames: seq<Envelope>, i: nat, f: nat)
    requires i < |frames| && f < |frames| - 1
    ensures (frames[..i] + frames[i + 1..])[f] == frames[if f < i then f else f + 1]
  {
  }

  lemma {:induction false} InFlightShrinks(s: System, t: System, i: nat, to: nat, m: Text, settled: seq<Entry>)
    requires InFlight(s) && i < |s.frames| && IdOf(s.frames[i]) == Some(m) && IsDelivery(s, t, to, m, settled)
    requires t.frames == s.frames[..i] + s.frames[i + 1..]
    ensures InFlight(t)
  {
    StillWritten(s.log, t.log);
    forall f | 0 <= f < |t.frames|
      ensures var g := if f < i then f else f + 1; t.frames[f] == s.frames[g] && IdOf(s.frames[g]) != Some(m)
    {
      FrameBefore(s.frames, i, f);
    }
    forall k, f | 0 <= k < |t.log| && t.log[k].Delivered? && 0 <= f < |t.frames|
      ensures IdOf(t.frames[f]) != Some(t.log[k].msgId)
    {
      NewDelivery(s, t, to, m, settled, k);
    }
  }

  lemma {:induction false} FlightsDelivered(s: System, t: System, i: nat, to: nat, m: Text, settled: seq<Entry>)
    requires Flights(s) && i < |s.frames| && IdOf(s.frames[i]) == Some(m) && IsDelivery(s, t, to, m, settled)
    requires t.frames == s.frames[..i] + s.frames[i + 1..]
    ensures Flights(t)
  {
    DeliveriesGrow(s, t, to, m, settled);
    InFlightShrinks(s, t, i, to, m, settled);
  }

  lemma {:induction false} FlightsComplete(s: System, step: Step)
    requires Ids(s) && WrittenOnce(s) && Flights(s) && Enabled(s, step) && step.Complete?
    ensures Flights(Apply(s, step))
  {
    var t, m := Apply(s, step), step.msgId;
    var reply := if step.verdict.Succeeded? && step.written then ReplyOf(s.jobs[m].spec, step.data) else None;
    if reply.Some? {
      RoundTripIffPlain(true, m, reply.value);
      assert Open(s, m);
      FlightsAdded(s, t, t.frames[|s.frames|], m, reply.value);
    } else {
      FlightsKept(s, t);
    }
  }

  lemma {:induction false} FlightsDeliver(s: System, i: nat)
    requires Ids(s) && WrittenOnce(s) && FramesWritten(s) && Flights(s) && Enabled(s, Deliver(i))
    ensures Flights(Apply(s, Deliver(i)))
  {
    var m, payload, settled := DeliverOutcome(s, i);
    FlightsDelivered(s, Apply(s, Deliver(i)), i, s.frames[i].to, m, settled);
  }

  lemma {:induction false} FlightsOther(s: System, step: Step)
    requires Flights(s) && Enabled(s, step) && !step.Complete? && !step.Deliver?
    ensures Flights(Apply(s, step))
  {
    FramesStay(s, step);
    FlightsKept(s, Apply(s, step));
  }

  lemma {:induction false} FlightsStep(s: System, step: Step)
    requires Ids(s) && WrittenOnce(s) && FramesWritten(s) && Flights(s) && Enabled(s, step)
    ensures Flights(Apply(s, step))
  {
    match step {
      case Complete(_, _, _, _, _) => FlightsComplete(s, step);
      case Deliver(i) => FlightsDeliver(s, i);
      case _ => FlightsOther(s, step);
    }
  }

  // ---- settling ----

  lemma {:induction false} SettlesKept(s: System, t: System)
    requires Settles(s) && IsQuiet(s, t)
    ensures Settles(t)
  {
    LogGrows(s, t);
    forall m | m in s.asks
      ensures InPool(t, m) == InPool(s, m)
    {
    }
    forall i | 0 <= i < |t.log| && t.log[i].Settled?
      ensures i < |s.log| && t.log[i] == s.log[i]
    {
    }
  }

  /** A request is registered once, so before that it was not settled. */
  lemma {:induction false} SettlesRegister(s: System, m: Text)
    requires Ids(s) && Settles(s) && Enabled(s, Register(m))
    ensures Settles(Apply(s, Register(m)))
  {
    RegisterApplies(s, m);
    SettlesRegistration(s, Apply(s, Register(m)), m);
  }

  lemma {:induction false} SettlesRegistration(s: System, t: System, m: Text)
    requires Ids(s) && Settles(s) && IsRegistration(s, t, m) && !s.asks[m].registered
    ensures Settles(t)
  {
    LogGrows(s, t);
    assert t.log[|s.log|].Registered?;
    forall k | k in s.asks && k != m
      ensures InPool(t, k) == InPool(s, k)
    {
    }
    assert InPool(t, m);
    assert SettledWell(t);
    assert NoneLost(t);
  }

  /** After a delivery the other requests are in the pools as before, and `m` is not in the receiver's. */
  lemma {:induction false} DeliveredPools(s: System, t: System, to: nat, m: Text, settled: seq<Entry>)
    requires IsDelivery(s, t, to, m, settled)
    ensures forall k :: k != m ==> InPool(t, k) == InPool(s, k)
    ensures InPool(t, m) <==> InPool(s, m) && s.asks[m].from != to
  {
    assert |t.nodes| == |s.nodes|;
    forall n | 0 <= n < |s.nodes|
      ensures t.nodes[n].pool == if n == to then s.nodes[n].pool - {m} else s.nodes[n].pool
    {
    }
  }

  lemma {:induction false} ProperlyAdded(log: seq<Entry>, to: nat, m: Text, payload: seq<Byte>)
    requires Wrote(m, payload) in log
    ensures SettledProperly(log + [Delivered(to, m)] + [Settled(to, Settlement(m, true, payload))], |log| + 1)
  {
    var grown := log + [Delivered(to, m)] + [Settled(to, Settlement(m, true, payload))];
    var j :| 0 <= j < |log| && log[j] == Wrote(m, payload);
    assert grown[j] == Wrote(m, payload);
  }

  lemma {:induction false} SettlesDelivered(s: System, t: System, to: nat, m: Text, payload: seq<Byte>)
    requires Settles(s) && IsDelivery(s, t, to, m, [Settled(to, Settlement(m, true, payload))])
    requires Wrote(m, payload) in s.log && m in s.asks && s.asks[m] == Ask(to, true, true) && InPool(s, m)
    ensures Settles(t)
  {
    LogGrows(s, t);
    DeliveredPools(s, t, to, m, [Settled(to, Settlement(m, true, payload))]);
    ProperlyAdded(s.log, to, m, payload);
    var last := |s.log| + 1;
    assert t.log[last] == Settled(to, Settlement(m, true, payload));
    forall i | 0 <= i < last && t.log[i].Settled?
      ensures i < |s.log| && t.log[i] == s.log[i] && s.log[i].s.msgId != m
    {
    }
    assert SettledWell(t);
    assert SettledOnce(t.log);
    assert HasSettled(t, m);
    assert NoneLost(t);
  }

  lemma {:induction false} SettlesDropped(s: System, t: System, to: nat, m: Text)
    requires Settles(s) && IsDelivery(s, t, to, m, [])
    requires InPool(s, m) && s.asks[m].from == to ==> !s.asks[m].wantsPromise
    ensures Settles(t)
  {
    LogGrows(s, t);
    DeliveredPools(s, t, to, m, []);
    forall i | 0 <= i < |t.log| && t.log[i].Settled?
      ensures i < |s.log| && t.log[i] == s.log[i]
    {
    }
  }

  lemma {:induction false} SettlesDeliver(s: System, i: nat)
    requires Ids(s) && WrittenOnce(s) && FramesWritten(s) && Pools(s) && Settles(s) && Enabled(s, Deliver(i))
    ensures Settles(Apply(s, Deliver(i)))
  {
    var m, payload, settled := DeliverOutcome(s, i);
    var t, to := Apply(s, Deliver(i)), s.frames[i].to;
    if m in s.nodes[to].pool && s.nodes[to].pool[m].promised {
      SettlesDelivered(s, t, to, m, payload);
    } else {
      SettlesDropped(s, t, to, m);
    }
  }

  lemma {:induction false} SettlesStep(s: System, step: Step)
    requires Ids(s) && WrittenOnce(s) && FramesWritten(s) && Pools(s) && Settles(s) && Enabled(s, step)
    ensures Settles(Apply(s, step))
  {
    match step {
      case Register(m) => SettlesRegister(s, m);
      case Deliver(i) => SettlesDeliver(s, i);
      case _ =>
        QuietStep(s, step);
        SettlesKept(s, Apply(s, step));
    }
  }

  // ---- counting ----

  /** Nothing is received, finished or counted. */
  ghost predicate Uncounted(s: System, t: System) {
    |t.nodes| == |s.nodes| && (forall n :: 0 <= n < |s.nodes| ==> t.nodes[n].counters == s.nodes[n].counters) &&
    t.jobs == s.jobs && t.foreign == s.foreign && t.finished == s.finished &&
    s.log <= t.log && forall i :: |s.log| <= i < |t.log| ==> !t.log[i].Received?
  }

  lemma {:induction false} UncountedStep(s: System, step: Step)
    requires Enabled(s, step) && (step.Send? || step.Register? || step.Deliver?)
    ensures Uncounted(s, Apply(s, step))
  {
  }

  lemma {:induction false} CountsKept(s: System, t: System)
    requires Counts(s) && Uncounted(s, t)
    ensures Counts(t)
  {
    forall n | 0 <= n < |s.nodes|
      ensures CountedIn(t.log, n) == CountedIn(s.log, n)
    {
      CountedKept(s.log, t.log, n);
    }
  }

  lemma {:induction false} CountedKept(a: seq<Entry>, b: seq<Entry>, n: nat)
    requires a <= b && forall i :: |a| <= i < |b| ==> !b[i].Received?
    ensures CountedIn(b, n) == CountedIn(a, n)
  {
    if |a| < |b| {
      CountedKept(a, b[..|b| - 1], n);
      assert b == b[..|b| - 1] + [b[|b| - 1]];
    } else {
      assert a == b;
    }
  }

  /** A job that starts or ends at one provider is one job more or less there, if it has a counter. */
  lemma {:induction false} JobsAdded<K(!new)>(jobs: map<K, Job>, m: K, job: Job, n: nat)
    requires m !in jobs
    ensures |JobsAt(jobs[m := job], n)| == |JobsAt(jobs, n)| + if job.at == n && job.key.Some? then 1 else 0
  {
    if job.at == n && job.key.Some? {
      assert JobsAt(jobs[m := job], n) == JobsAt(jobs, n) + {m};
    } else {
      assert JobsAt(jobs[m := job], n) == JobsAt(jobs, n);
    }
  }

  /** One more message to be counted at `n`, and so one more count or one more job there. */
  lemma {:induction false} CountsMore(s: System, t: System, n: nat, counted: bool)
    requires Counts(s) && n < |s.nodes| && |t.nodes| == |s.nodes| && t.log == s.log + [Received(n, counted)]
    requires forall k :: 0 <= k < |s.nodes| ==>
               Total(t.nodes[k].counters) + InFlightAt(t, k) ==
               Total(s.nodes[k].counters) + InFlightAt(s, k) + if k == n && counted then 1 else 0
    ensures Counts(t)
  {
    forall k | 0 <= k < |s.nodes|
      ensures CountedIn(t.log, k) == CountedIn(s.log, k) + if k == n && counted then 1 else 0
    {
      PendingAppend(s.log, Received(n, counted), k);
    }
  }

  lemma {:induction false} CountsArrive(s: System, n: nat, message: Message)
    requires Counts(s) && n < |s.nodes| && !Admit(s.nodes[n].apis, s.nodes[n].specs, message).Accepted?
    ensures Counts(Arrive(s, n, message).0)
  {
    var (t, admission) := Arrive(s, n, message);
    var key := CounterKey(message);
    if admission.Refused? {
      CountAddsOne(s.nodes[n].counters, key, admission.verdict);
    }
    CountsMore(s, t, n, key.Some? && !admission.Ignored?);
  }

  /** One more job, in either map. */
  lemma {:induction false} CountsAccept(s: System, t: System, n: nat, message: Message, job: Job)
    requires Counts(s) && n < |s.nodes| && Admit(s.nodes[n].apis, s.nodes[n].specs, message).Accepted?
    requires job.at == n && job.key == CounterKey(message)
    requires t.nodes == s.nodes && t.log == Arrive(s, n, message).0.log
    requires forall k :: InFlightAt(t, k) == InFlightAt(s, k) + if k == n && job.key.Some? then 1 else 0
    ensures Counts(t)
  {
    CountsMore(s, t, n, job.key.Some?);
  }

  /** A job less, in either map, and a count more. */
  lemma {:induction false} CountsFinish(s: System, t: System, job: Job, verdict: Verdict)
    requires Counts(s) && job.at < |s.nodes|
    requires t.nodes == s.nodes[job.at := s.nodes[job.at].(counters := Count(s.nodes[job.at].counters, job.key, verdict))]
    requires forall n :: InFlightAt(s, n) == InFlightAt(t, n) + if n == job.at && job.key.Some? then 1 else 0
    requires s.log <= t.log && forall i :: |s.log| <= i < |t.log| ==> !t.log[i].Received?
    ensures Counts(t)
  {
    CountAddsOne(s.nodes[job.at].counters, job.key, verdict);
    forall n | 0 <= n < |s.nodes|
      ensures Total(t.nodes[n].counters) + InFlightAt(t, n) == CountedIn(t.log, n)
    {
      CountedKept(s.log, t.log, n);
    }
  }

  lemma {:induction false} CountsReceive(s: System, m: Text)
    requires Ids(s) && Counts(s) && Enabled(s, Receive(m))
    ensures Counts(Apply(s, Receive(m)))
  {
    var r := s.requests[m];
    var sent := s.(requests := s.requests - {m});
    assert forall n :: InFlightAt(sent, n) == InFlightAt(s, n);
    var message := Call(r.peer, r.api, m);
    var (t, admission) := Arrive(sent, r.to, message);
    if admission.Accepted? {
      var job := Job(r.to, CounterKey(message), admission.spec);
      var u := t.(jobs := t.jobs[m := job]);
      forall k
        ensures InFlightAt(u, k) == InFlightAt(sent, k) + if k == r.to && job.key.Some? then 1 else 0
      {
        JobsAdded(sent.jobs, m, job, k);
      }
      CountsAccept(sent, u, r.to, message, job);
    } else {
      CountsArrive(sent, r.to, message);
    }
  }

  lemma {:induction false} CountsReceiveForeign(s: System, n: nat, message: Message, ticket: nat)
    requires Counts(s) && Enabled(s, ReceiveForeign(n, message, ticket))
    ensures Counts(Apply(s, ReceiveForeign(n, message, ticket)))
  {
    var (t, admission) := Arrive(s, n, message);
    if admission.Accepted? {
      var job := Job(n, CounterKey(message), admission.spec);
      var u := t.(foreign := t.foreign[ticket := job]);
      forall k
        ensures InFlightAt(u, k) == InFlightAt(s, k) + if k == n && job.key.Some? then 1 else 0
      {
        JobsAdded(s.foreign, ticket, job, k);
      }
      CountsAccept(s, u, n, message, job);
    } else {
      CountsArrive(s, n, message);
    }
  }

  lemma {:induction false} JobRemoved<K(!new)>(jobs: map<K, Job>, m: K, n: nat)
    requires m in jobs
    ensures |JobsAt(jobs, n)| == |JobsAt(jobs - {m}, n)| + if jobs[m].at == n && jobs[m].key.Some? then 1 else 0
  {
    JobsAdded(jobs - {m}, m, jobs[m], n);
    assert (jobs - {m})[m := jobs[m]] == jobs;
  }

  lemma {:induction false} CountsComplete(s: System, step: Step)
    requires Counts(s) && Enabled(s, step) && step.Complete?
    ensures Counts(Apply(s, step))
  {
    var t, m := Apply(s, step), step.msgId;
    forall n
      ensures InFlightAt(s, n) == InFlightAt(t, n) + if n == s.jobs[m].at && s.jobs[m].key.Some? then 1 else 0
    {
      JobRemoved(s.jobs, m, n);
    }
    CountsFinish(s, t, s.jobs[m], step.verdict);
  }

  lemma {:induction false} CountsCompleteForeign(s: System, k: nat, verdict: Verdict)
    requires Counts(s) && Enabled(s, CompleteForeign(k, verdict))
    ensures Counts(Apply(s, CompleteForeign(k, verdict)))
  {
    var t := Apply(s, CompleteForeign(k, verdict));
    forall n
      ensures InFlightAt(s, n) == InFlightAt(t, n) + if n == s.foreign[k].at && s.foreign[k].key.Some? then 1 else 0
    {
      JobRemoved(s.foreign, k, n);
    }
    CountsFinish(s, t, s.foreign[k], verdict);
  }

  lemma {:induction false} CountsStep(s: System, step: Step)
    requires Ids(s) && Counts(s) && Enabled(s, step)
    ensures Counts(Apply(s, step))
  {
    match step {
      case Receive(m) => CountsReceive(s, m);
      case ReceiveForeign(n, message, ticket) => CountsReceiveForeign(s, n, message, ticket);
      case Complete(_, _, _, _, _) => CountsComplete(s, step);
      case CompleteForeign(k, verdict) => CountsCompleteForeign(s, k, verdict);
      case Send(_, _, _, _, _, _) | Register(_) | Deliver(_) =>
        UncountedStep(s, step);
        CountsKept(s, Apply(s, step));
    }
  }

  lemma {:induction false} ExactFinish(s: System, t: System, f: Finish)
    requires Exact(s) && f.at < |s.nodes| && |t.nodes| == |s.nodes| && t.finished == s.finished + [f]
    requires forall n :: 0 <= n < |s.nodes| ==>
               t.nodes[n].counters ==
               if n == f.at then Count(s.nodes[n].counters, f.key, f.verdict) else s.nodes[n].counters
    ensures Exact(t)
  {
    forall n, key, v | 0 <= n < |s.nodes|
      ensures CountOf(t.nodes[n].counters, key, v) == Finishes(t.finished, n, key, v)
    {
      assert t.finished[..|s.finished|] == s.finished;
      CountMovesOne(s.nodes[n].counters, f.key, f.verdict, key, v);
    }
  }

  lemma {:induction false} ExactKept(s: System, t: System)
    requires Exact(s) && |t.nodes| == |s.nodes| && t.finished == s.finished
    requires forall n :: 0 <= n < |s.nodes| ==> t.nodes[n].counters == s.nodes[n].counters
    ensures Exact(t)
  {
    forall n, key, v | 0 <= n < |s.nodes|
      ensures CountOf(t.nodes[n].counters, key, v) == Finishes(t.finished, n, key, v)
    {
      assert CountOf(s.nodes[n].counters, key, v) == Finishes(s.finished, n, key, v);
    }
  }

  lemma {:induction false} ExactArrive(s: System, n: nat, message: Message)
    requires Exact(s) && n < |s.nodes|
    ensures Exact(Arrive(s, n, message).0)
  {
    var (t, admission) := Arrive(s, n, message);
    if admission.Refused? {
      ExactFinish(s, t, Finish(n, CounterKey(message), admission.verdict));
    } else {
      ExactKept(s, t);
    }
  }

  lemma {:induction false} ExactReceive(s: System, m: Text)
    requires Exact(s) && Enabled(s, Receive(m))
    ensures Exact(Apply(s, Receive(m)))
  {
    var sent := s.(requests := s.requests - {m});
    var arrived := Arrive(sent, s.requests[m].to, Call(s.requests[m].peer, s.requests[m].api, m)).0;
    ExactKept(s, sent);
    ExactArrive(sent, s.requests[m].to, Call(s.requests[m].peer, s.requests[m].api, m));
    ExactKept(arrived, Apply(s, Receive(m)));
  }

  lemma {:induction false} ExactReceiveForeign(s: System, n: nat, message: Message, ticket: nat)
    requires Exact(s) && Enabled(s, ReceiveForeign(n, message, ticket))
    ensures Exact(Apply(s, ReceiveForeign(n, message, ticket)))
  {
    ExactArrive(s, n, message);
    ExactKept(Arrive(s, n, message).0, Apply(s, ReceiveForeign(n, message, ticket)));
  }

  lemma {:induction false} ExactComplete(s: System, step: Step)
    requires Exact(s) && Enabled(s, step) && (step.Complete? || step.CompleteForeign?)
    ensures Exact(Apply(s, step))
  {
    var job := if step.Complete? then s.jobs[step.msgId] else s.foreign[step.ticket];
    ExactFinish(s, Apply(s, step), Finish(job.at, job.key, step.verdict));
  }

  lemma {:induction false} ExactStep(s: System, step: Step)
    requires Exact(s) && Enabled(s, step)
    ensures Exact(Apply(s, step))
  {
    match step {
      case Receive(m) => ExactReceive(s, m);
      case ReceiveForeign(n, message, ticket) => ExactReceiveForeign(s, n, message, ticket);
      case Complete(_, _, _, _, _) | CompleteForeign(_, _) => ExactComplete(s, step);
      case Send(_, _, _, _, _, _) | Register(_) | Deliver(_) =>
        UncountedStep(s, step);
        ExactKept(s, Apply(s, step));
    }
  }

  /** What a message that arrives does to the counts: it is received, and if it is refused it has finished with that
      verdict, under its own api. */
  lemma {:induction false} ArrivalCounts(s: System, n: nat, message: Message)
    requires n < |s.nodes|
    ensures var t := Arrive(s, n, message).0; var admission := Admit(s.nodes[n].apis, s.nodes[n].specs, message);
            t.log == s.log + [Received(n, CounterKey(message).Some?)] &&
            t.finished == s.finished + if admission.Refused? then [Finish(n, CounterKey(message), admission.verdict)] else []
  {
    AdmitOthers(s.nodes[n].apis, s.nodes[n].specs, message);
  }

  /** An accepted foreign message is a job at its provider, under its own api, and finishes with the verdict of its call. */
  lemma {:induction false} ForeignCounts(s: System, step: Step)
    requires Enabled(s, step)
    ensures step.ReceiveForeign? && Admit(s.nodes[step.node].apis, s.nodes[step.node].specs, step.message).Accepted? ==>
              var t := Apply(s, step);
              step.ticket in t.foreign && t.foreign[step.ticket].at == step.node &&
              t.foreign[step.ticket].key == CounterKey(step.message)
    ensures step.CompleteForeign? ==>
              var job := s.foreign[step.ticket]; var t := Apply(s, step);
              t.finished == s.finished + [Finish(job.at, job.key, step.verdict)] && step.ticket !in t.foreign
  {
  }

  // ---- every run ----

  lemma {:induction false} StepKeeps(s: System, step: Step)
    requires Inv(s)
    ensures Inv(Next(s, step))
  {
    if Enabled(s, step) {
      IdsStep(s, step);
      WrittenOnceStep(s, step);
      FramesWrittenStep(s, step);
      FlightsStep(s, step);
      PoolsStep(s, step);
      SettlesStep(s, step);
      CountsStep(s, step);
      ExactStep(s, step);
    }
  }

  lemma {:induction false} Preserved(s: System, steps: seq<Step>)
    requires Inv(s)
    ensures Inv(Execute(s, steps))
    decreases |steps|
  {
    if steps != [] {
      StepKeeps(s, steps[0]);
      Preserved(Next(s, steps[0]), steps[1..]);
    }
  }

  /** In every reachable state: a new id can be asked with, an ask that was sent can register, a request that is on its way
      can be received, a call can end with any outcome, and a frame in flight to a provider can be delivered; any message
      at all can come from elsewhere. */
  lemma {:induction false} NothingIsStuck(s: System, step: Step)
    requires Inv(s)
    requires match step
             case Send(m, from, to, _, _, _) => m !in s.asks && Plain(m) && from < |s.nodes| && to < |s.nodes|
             case Register(m) => m in s.asks && !s.asks[m].registered
             case Receive(m) => m in s.requests && s.requests[m].to < |s.nodes|
             case ReceiveForeign(n, _, ticket) => n < |s.nodes| && ticket !in s.foreign
             case Complete(m, _, _, channel, _) => m in s.jobs && channel < |s.nodes|
             case CompleteForeign(ticket, _) => ticket in s.foreign
             case Deliver(i) => i < |s.frames| && s.frames[i].to < |s.nodes|
    ensures Enabled(s, step)
  {
  }

  /** Over every run: what a settled promise got was written for the same request, before, and delivered right then; it
      was resolved, not rejected, and no promise settles twice. */
  lemma {:induction false} SettlesAtMostOnce(s0: System, steps: seq<Step>, i: nat)
    requires Initial(s0) && i < |Execute(s0, steps).log| && Execute(s0, steps).log[i].Settled?
    ensures var log := Execute(s0, steps).log; var Settled(n, s) := log[i];
            s.success && 0 < i && log[i - 1] == Delivered(n, s.msgId) &&
            (exists j :: 0 <= j < i - 1 && log[j] == Wrote(s.msgId, s.payload)) &&
            (forall k :: 0 <= k < |log| && k != i && log[k].Settled? ==> log[k].s.msgId != s.msgId)
  {
    InitialInv(s0);
    Preserved(s0, steps);
    var log := Execute(s0, steps).log;
    assert SettledProperly(log, i);
  }

  /** Over every run: at most one frame is written for a request, and at most one delivered. */
  lemma {:induction false} AtMostOneFrame(s0: System, steps: seq<Step>, i: nat, j: nat)
    requires Initial(s0) && i < j < |Execute(s0, steps).log|
    ensures var log := Execute(s0, steps).log;
            (log[i].Wrote? && log[j].Wrote? ==> log[i].msgId != log[j].msgId) &&
            (log[i].Delivered? && log[j].Delivered? ==> log[i].msgId != log[j].msgId)
  {
    InitialInv(s0);
    Preserved(s0, steps);
  }

  /** In every reachable state a pool is exactly the registered requests with no frame delivered since, and a promise has
      settled exactly if its request was registered and has left the pool. */
  lemma {:induction false} PoolIsExact(s0: System, steps: seq<Step>, n: nat)
    requires Initial(s0) && n < |Execute(s0, steps).nodes|
    ensures var t := Execute(s0, steps);
            (forall m :: m in t.nodes[n].pool <==>
              exists i :: 0 <= i < |t.log| && t.log[i] == Registered(n, m) &&
                          forall j :: i < j < |t.log| ==> t.log[j] != Delivered(n, m)) &&
            (forall m :: m in t.asks && t.asks[m].from == n ==>
              (HasSettled(t, m) <==> t.asks[m].registered && t.asks[m].wantsPromise && m !in t.nodes[n].pool))
  {
    InitialInv(s0);
    Preserved(s0, steps);
    var t := Execute(s0, steps);
    forall m {
      PendingMeans(t.log, n, m);
    }
  }

  /** In every reachable state the counters of a provider and its calls in flight add up to the messages it received that
      name an api. */
  lemma {:induction false} CountersAddUp(s0: System, steps: seq<Step>, n: nat)
    requires Initial(s0) && n < |Execute(s0, steps).nodes|
    ensures var t := Execute(s0, steps);
            Total(t.nodes[n].counters) + InFlightAt(t, n) == CountedIn(t.log, n)
  {
    InitialInv(s0);
    Preserved(s0, steps);
  }

  /** In every reachable state each counter of each api is the number of messages that finished with its verdict. */
  lemma {:induction false} CountersAreExact(s0: System, steps: seq<Step>, n: nat, key: string, v: Verdict)
    requires Initial(s0) && n < |Execute(s0, steps).nodes|
    ensures var t := Execute(s0, steps);
            CountOf(t.nodes[n].counters, key, v) == Finishes(t.finished, n, key, v)
  {
    InitialInv(s0);
    Preserved(s0, steps);
  }

  /** A frame from elsewhere, under an id that nobody in the system has asked with, or too short to have one, changes
      nothing at any provider. So the responses to foreign messages under such an id need no steps; what a response to a
      foreign message with a repeated id would settle is not followed. */
  lemma {:induction false} ForeignFrameIsIgnored(s: System, n: nat, bytes: seq<Byte>)
    requires Pools(s) && n < |s.nodes| && (DecodeFrame(bytes).Some? ==> DecodeFrame(bytes).value.msgId !in s.asks)
    ensures Answer(s.nodes[n].pool, bytes) == (s.nodes[n].pool, [])
  {
    var pool, frame := s.nodes[n].pool, DecodeFrame(bytes);
    if frame.Some? {
      assert frame.value.msgId !in pool;
      assert pool - {frame.value.msgId} == pool;
    }
  }

  // ---- answered or lost ----

  lemma {:induction false} NotSettledInFlight(s: System, i: nat, m: Text)
    requires InFlight(s) && SettledWell(s) && i < |s.frames| && IdOf(s.frames[i]) == Some(m)
    ensures !HasSettled(s, m)
  {
    forall k | 0 <= k < |s.log| && s.log[k].Settled?
      ensures s.log[k].s.msgId != m
    {
      assert SettledProperly(s.log, k);
      assert s.log[k - 1].Delivered?;
    }
  }

  lemma {:induction false} OnePayload(s: System, m: Text, p: seq<Byte>, q: seq<Byte>)
    requires WrittenOnce(s) && Wrote(m, p) in s.log && Wrote(m, q) in s.log
    ensures p == q
  {
  }

  /** The promise of a registered request whose frame is still in flight waits in the pool. */
  lemma {:induction false} WaitsInPool(s: System, i: nat, m: Text)
    requires InFlight(s) && Pools(s) && SettledWell(s) && NoneLost(s) && i < |s.frames| && IdOf(s.frames[i]) == Some(m)
    requires s.frames[i].to < |s.nodes| && m in s.asks && s.asks[m] == Ask(s.frames[i].to, true, true)
    ensures var pool := s.nodes[s.frames[i].to].pool; m in pool && pool[m].promised
  {
    NotSettledInFlight(s, i, m);
    assert InPool(s, m);
  }

  /** A frame in flight to the asker of a registered request settles its promise with the payload written for it. */
  lemma {:induction false} DeliveryAnswers(s: System, i: nat, m: Text, payload: seq<Byte>)
    requires Inv(s) && Enabled(s, Deliver(i)) && IdOf(s.frames[i]) == Some(m) && Wrote(m, payload) in s.log
    requires m in s.asks && s.asks[m] == Ask(s.frames[i].to, true, true)
    ensures var t, to := Apply(s, Deliver(i)), s.frames[i].to;
            t.log == s.log + [Delivered(to, m), Settled(to, Settlement(m, true, payload))] && m !in t.nodes[to].pool
  {
    WaitsInPool(s, i, m);
    var id, written, settled := DeliverOutcome(s, i);
    OnePayload(s, m, written, payload);
  }

  /** No frame can come for `m` any more: it is done without one, or its frame was delivered already. */
  ghost predicate NoFrameLeft(s: System, m: Text) {
    m in s.asks && !Open(s, m) && forall f :: 0 <= f < |s.frames| ==> IdOf(s.frames[f]) != Some(m)
  }

  lemma {:induction false} SettledBefore(s: System, t: System, m: Text)
    requires s.log <= t.log && forall i :: |s.log| <= i < |t.log| && t.log[i].Settled? ==> t.log[i].s.msgId != m
    ensures HasSettled(t, m) ==> HasSettled(s, m)
  {
    if HasSettled(t, m) {
      var i :| 0 <= i < |t.log| && t.log[i].Settled? && t.log[i].s.msgId == m;
      assert i < |s.log| && s.log[i] == t.log[i];
    }
  }

  lemma {:induction false} DeliveredFrameIsGone(s: System, i: nat, m: Text)
    requires InFlight(s) && Enabled(s, Deliver(i)) && IdOf(s.frames[i]) == Some(m)
    ensures var t := Apply(s, Deliver(i)); forall f :: 0 <= f < |t.frames| ==> IdOf(t.frames[f]) != Some(m)
  {
    var t := Apply(s, Deliver(i));
    forall f | 0 <= f < |t.frames|
      ensures IdOf(t.frames[f]) != Some(m)
    {
      assert t.frames[f] == s.frames[if f < i then f else f + 1];
    }
  }

  /** What a delivery settles, seen in the log. */
  lemma {:induction false} DeliverySettles(s: System, t: System, to: nat, m: Text, payload: seq<Byte>, settled: seq<Entry>)
    requires IsDelivery(s, t, to, m, settled) && !HasSettled(s, m)
    requires settled == [] || settled == [Settled(to, Settlement(m, true, payload))]
    ensures HasSettled(t, m) <==> settled != []
  {
    if settled == [] {
      SettledBefore(s, t, m);
    } else {
      assert t.log[|s.log| + 1].Settled?;
    }
  }

  lemma {:induction false} DeliveredStaysDone(s: System, i: nat, m: Text)
    requires Enabled(s, Deliver(i)) && !Open(s, m) && m in s.asks
    ensures !Open(Apply(s, Deliver(i)), m) && m in Apply(s, Deliver(i)).asks
  {
    StepOpensNone(s, Deliver(i));
  }

  /** The one delivery of a request's frame decides: its promise settles if the frame comes to the asker and after the
      request was registered, and otherwise no frame is left that could settle it. */
  lemma {:induction false} DeliveryDecides(s: System, i: nat, m: Text)
    requires Inv(s) && Enabled(s, Deliver(i)) && IdOf(s.frames[i]) == Some(m)
    ensures var t := Apply(s, Deliver(i));
            m in s.asks && NoFrameLeft(t, m) && (HasSettled(t, m) <==> s.asks[m] == Ask(s.frames[i].to, true, true))
  {
    var id, payload, settled := DeliverOutcome(s, i);
    var to := s.frames[i].to;
    DeliveredFrameIsGone(s, i, m);
    NotSettledInFlight(s, i, m);
    DeliverySettles(s, Apply(s, Deliver(i)), to, m, payload, settled);
    if s.asks[m] == Ask(to, true, true) {
      WaitsInPool(s, i, m);
    }
    DeliveredStaysDone(s, i, m);
  }

  /** A call that ends is to be answered: it succeeded, the write works, and its data can be sent where an acknowledgement
      is asked for. */
  predicate Answers(s: System, step: Step)
    requires step.Complete? && step.msgId in s.jobs
  {
    step.verdict.Succeeded? && step.written && AsksForAck(s.jobs[step.msgId].spec) && step.data != Other
  }

  /** A call that is to be answered sends one frame, to the channel that was looked up, which says what its handler
      returned; any other one is never answered. Either way it is counted under its verdict. */
  lemma {:induction false} CompleteAnswersOrLoses(s: System, step: Step) returns (payload: seq<Byte>)
    requires Inv(s) && Enabled(s, step) && step.Complete?
    ensures var t, m := Apply(s, step), step.msgId;
            if Answers(s, step) then
              Says(step.data, payload) && t.log == s.log + [Wrote(m, payload)] &&
              t.frames == s.frames + [Envelope(step.channel, EncodeFrame(true, m, payload))]
            else
              t.log == s.log && t.frames == s.frames && NoFrameLeft(t, m)
    ensures var job := s.jobs[step.msgId]; var t := Apply(s, step);
            step.msgId !in t.jobs && t.finished == s.finished + [Finish(job.at, job.key, step.verdict)]
  {
    var m := step.msgId;
    assert Open(s, m);
    forall f | 0 <= f < |s.frames|
      ensures IdOf(s.frames[f]) != Some(m)
    {
      assert WasWritten(s.log, IdOf(s.frames[f]).value);
    }
    ReplySays(s.jobs[m].spec, step.data);
    var reply := ReplyOf(s.jobs[m].spec, step.data);
    payload := if reply.Some? then reply.value else [];
  }

  lemma {:induction false} NoFrameLeftComplete(s: System, step: Step, m: Text)
    requires Ids(s) && Enabled(s, step) && step.Complete? && NoFrameLeft(s, m)
    ensures NoFrameLeft(Apply(s, step), m)
  {
    var t, k := Apply(s, step), step.msgId;
    var reply := if step.verdict.Succeeded? && step.written then ReplyOf(s.jobs[k].spec, step.data) else None;
    if reply.Some? {
      RoundTripIffPlain(true, k, reply.value);
    }
    assert Open(s, k);
  }

  lemma {:induction false} OthersKeepFrames(s: System, step: Step)
    requires Enabled(s, step) && !step.Complete? && !step.Deliver?
    ensures Apply(s, step).frames == s.frames
  {
  }

  lemma {:induction false} NoFrameLeftOther(s: System, step: Step, m: Text)
    requires Ids(s) && Enabled(s, step) && !step.Complete? && !step.Deliver? && NoFrameLeft(s, m)
    ensures NoFrameLeft(Apply(s, step), m)
  {
    OthersKeepFrames(s, step);
    StepOpensNone(s, step);
  }

  /** Neither settled nor taken out of a pool. */
  ghost predicate LeavesAlone(s: System, t: System, m: Text) {
    (HasSettled(t, m) ==> HasSettled(s, m)) && (InPool(s, m) ==> InPool(t, m))
  }

  lemma {:induction false} QuietLeavesAlone(s: System, t: System, m: Text)
    requires IsQuiet(s, t)
    ensures LeavesAlone(s, t, m)
  {
    SettledBefore(s, t, m);
  }

  lemma {:induction false} DeliveryLeavesAlone(s: System, t: System, to: nat, k: Text, settled: seq<Entry>, m: Text)
    requires IsDelivery(s, t, to, k, settled) && k != m && forall e <- settled :: e.Settled? && e.s.msgId == k
    ensures LeavesAlone(s, t, m)
  {
    DeliveredPools(s, t, to, k, settled);
    forall j | |s.log| <= j < |t.log| && t.log[j].Settled?
      ensures t.log[j].s.msgId != m
    {
      assert t.log[j] in settled;
    }
    SettledBefore(s, t, m);
  }

  lemma {:induction false} FramesShrink(s: System, i: nat, m: Text)
    requires Enabled(s, Deliver(i)) && forall f :: 0 <= f < |s.frames| ==> IdOf(s.frames[f]) != Some(m)
    ensures var t := Apply(s, Deliver(i)); forall f :: 0 <= f < |t.frames| ==> IdOf(t.frames[f]) != Some(m)
  {
    var t := Apply(s, Deliver(i));
    forall f | 0 <= f < |t.frames|
      ensures IdOf(t.frames[f]) != Some(m)
    {
      assert t.frames[f] == s.frames[if f < i then f else f + 1];
    }
  }

  lemma {:induction false} NoFrameLeftDeliver(s: System, i: nat, m: Text)
    requires Ids(s) && WrittenOnce(s) && FramesWritten(s) && Enabled(s, Deliver(i)) && NoFrameLeft(s, m)
    ensures NoFrameLeft(Apply(s, Deliver(i)), m) && LeavesAlone(s, Apply(s, Deliver(i)), m)
  {
    var k, payload, settled := DeliverOutcome(s, i);
    DeliveryLeavesAlone(s, Apply(s, Deliver(i)), s.frames[i].to, k, settled, m);
    DeliveredStaysDone(s, i, m);
    FramesShrink(s, i, m);
  }

  lemma {:induction false} RegisterLeavesAlone(s: System, k: Text, m: Text)
    requires Enabled(s, Register(k))
    ensures LeavesAlone(s, Apply(s, Register(k)), m)
  {
    SettledBefore(s, Apply(s, Register(k)), m);
  }

  lemma {:induction false} NoFrameLeftStep(s: System, step: Step, m: Text)
    requires Ids(s) && WrittenOnce(s) && FramesWritten(s) && Enabled(s, step) && NoFrameLeft(s, m)
    ensures NoFrameLeft(Apply(s, step), m) && LeavesAlone(s, Apply(s, step), m)
  {
    match step {
      case Deliver(i) =>
        NoFrameLeftDeliver(s, i, m);
      case Register(k) =>
        NoFrameLeftOther(s, step, m);
        RegisterLeavesAlone(s, k, m);
      case Complete(_, _, _, _, _) =>
        NoFrameLeftComplete(s, step, m);
        QuietStep(s, step);
        QuietLeavesAlone(s, Apply(s, step), m);
      case _ =>
        NoFrameLeftOther(s, step, m);
        QuietStep(s, step);
        QuietLeavesAlone(s, Apply(s, step), m);
    }
  }

  /** A request that can get no frame any more never settles afterwards, and never leaves a pool, whatever happens. This
      is the fate of every request that fails or wants no acknowledgement, and of one whose frame came too early. */
  lemma {:induction false} LostForever(s: System, steps: seq<Step>, m: Text)
    requires Inv(s) && NoFrameLeft(s, m) && !HasSettled(s, m)
    ensures !HasSettled(Execute(s, steps), m) && NoFrameLeft(Execute(s, steps), m)
    ensures InPool(s, m) ==> InPool(Execute(s, steps), m)
    decreases |steps|
  {
    if steps != [] {
      if Enabled(s, steps[0]) {
        NoFrameLeftStep(s, steps[0], m);
        StepKeeps(s, steps[0]);
      }
      LostForever(Next(s, steps[0]), steps[1..], m);
    }
  }

  // ---- a whole exchange, with anything in between ----

  lemma {:induction false} FrameStaysDeliver(s: System, i: nat, e: Envelope)
    requires Ids(s) && WrittenOnce(s) && FramesWritten(s) && Enabled(s, Deliver(i)) && e in s.frames && IdOf(e).Some?
    ensures var t := Apply(s, Deliver(i)); e in t.frames || Delivered(e.to, IdOf(e).value) in t.log
  {
    var t := Apply(s, Deliver(i));
    if s.frames[i] == e {
      var m, payload, settled := DeliverOutcome(s, i);
      assert t.log[|s.log|] == Delivered(e.to, m);
    } else {
      OthersStay(s.frames, i, e);
    }
  }

  lemma {:induction false} OthersStay<T>(s: seq<T>, i: nat, x: T)
    requires i < |s| && x in s && s[i] != x
    ensures x in s[..i] + s[i + 1..]
  {
  }

  lemma {:induction false} FrameStaysStep(s: System, step: Step, e: Envelope)
    requires Ids(s) && WrittenOnce(s) && FramesWritten(s) && Enabled(s, step) && e in s.frames && IdOf(e).Some?
    ensures e in Apply(s, step).frames || Delivered(e.to, IdOf(e).value) in Apply(s, step).log
  {
    match step {
      case Deliver(i) =>
        FrameStaysDeliver(s, i, e);
      case Complete(_, _, _, _, _) =>
        CompleteFrames(s, step);
      case _ =>
        OthersKeepFrames(s, step);
    }
  }

  lemma {:induction false} CompleteFrames(s: System, step: Step)
    requires Enabled(s, step) && step.Complete?
    ensures s.frames <= Apply(s, step).frames
  {
  }

  lemma {:induction false} LogGrowsStep(s: System, step: Step)
    requires Enabled(s, step)
    ensures s.log <= Apply(s, step).log
  {
    match step {
      case Receive(m) =>
        ArriveIsQuiet(s.(requests := s.requests - {m}), s.requests[m].to, Call(s.requests[m].peer, s.requests[m].api, m));
      case ReceiveForeign(n, message, _) =>
        ArriveIsQuiet(s, n, message);
      case _ =>
    }
  }

  /** What has happened has happened. */
  lemma {:induction false} LogStays(s: System, steps: seq<Step>)
    ensures s.log <= Execute(s, steps).log
    decreases |steps|
  {
    if steps != [] {
      if Enabled(s, steps[0]) {
        LogGrowsStep(s, steps[0]);
      }
      LogStays(Next(s, steps[0]), steps[1..]);
    }
  }

  /** Frames in flight stay as they are until they are delivered, to the provider they were sent to. */
  lemma {:induction false} FrameStays(s: System, steps: seq<Step>, e: Envelope)
    requires Inv(s) && e in s.frames && IdOf(e).Some?
    ensures var t := Execute(s, steps); e in t.frames || Delivered(e.to, IdOf(e).value) in t.log
    decreases |steps|
  {
    if steps != [] {
      var next := Next(s, steps[0]);
      StepKeeps(s, steps[0]);
      if Enabled(s, steps[0]) {
        FrameStaysStep(s, steps[0], e);
      }
      if e in next.frames {
        FrameStays(next, steps[1..], e);
      } else {
        LogStays(next, steps[1..]);
      }
    }
  }

  lemma {:induction false} AskStaysStep(s: System, step: Step, m: Text)
    requires Enabled(s, step) && m in s.asks
    ensures var t := Apply(s, step);
            m in t.asks && t.asks[m].from == s.asks[m].from && t.asks[m].wantsPromise == s.asks[m].wantsPromise &&
            |t.nodes| == |s.nodes|
  {
  }

  /** A request keeps its asker. */
  lemma {:induction false} AskStays(s: System, steps: seq<Step>, m: Text)
    requires m in s.asks
    ensures var t := Execute(s, steps);
            m in t.asks && t.asks[m].from == s.asks[m].from && t.asks[m].wantsPromise == s.asks[m].wantsPromise &&
            |t.nodes| == |s.nodes|
    decreases |steps|
  {
    if steps != [] {
      if Enabled(s, steps[0]) {
        AskStaysStep(s, steps[0], m);
      }
      AskStays(Next(s, steps[0]), steps[1..], m);
    }
  }

  /** The step answers a request that has a promise, on the channel to its asker. */
  ghost predicate AnswersAsker(s: System, step: Step) {
    Enabled(s, step) && step.Complete? && Answers(s, step) && step.msgId in s.asks &&
    s.asks[step.msgId].wantsPromise && step.channel == s.asks[step.msgId].from
  }

  /** The request is registered, and its frame was not delivered to its asker yet. */
  ghost predicate Awaits(u: System, to: nat, m: Text) {
    m in u.asks && u.asks[m].registered && Delivered(to, m) !in u.log
  }

  /** Delivering frame i settles the promise with this payload, for good. */
  ghost predicate SettlesIt(u: System, i: nat, to: nat, m: Text, payload: seq<Byte>, more: seq<Step>) {
    Enabled(u, Deliver(i)) && u.frames[i].to == to &&
    var t := Apply(u, Deliver(i));
    t.log == u.log + [Delivered(to, m), Settled(to, Settlement(m, true, payload))] &&
    Settled(to, Settlement(m, true, payload)) in Execute(t, more).log
  }

  /** A request with a promise is answered on the channel to its asker, and then anything happens up to state `u`, in which
      the request is registered. If the frame has not been delivered yet, it is still on its way to the asker, and its
      delivery settles the promise with what the handler returned, for good. */
  lemma {:induction false} AnswerArrives(s: System, step: Step, steps: seq<Step>, u: System, more: seq<Step>)
    returns (i: nat, payload: seq<Byte>)
    requires Inv(s) && AnswersAsker(s, step) && u == Execute(Apply(s, step), steps)
    requires Awaits(u, step.channel, step.msgId)
    ensures Says(step.data, payload) && SettlesIt(u, i, step.channel, step.msgId, payload, more)
  {
    var m, to, t := step.msgId, step.channel, Apply(s, step);
    payload := CompleteAnswersOrLoses(s, step);
    var e := t.frames[|s.frames|];
    assert e == Envelope(to, EncodeFrame(true, m, payload));
    RoundTripIffPlain(true, m, payload);
    StepKeeps(s, step);
    FrameStays(t, steps, e);
    Preserved(t, steps);
    AskStaysStep(s, step, m);
    AskStays(t, steps, m);
    i :| 0 <= i < |u.frames| && u.frames[i] == e;
    assert t.log[|s.log|] == Wrote(m, payload);
    LogStays(t, steps);
    assert u.log[|s.log|] == Wrote(m, payload);
    DeliveryAnswers(u, i, m, payload);
    LogStays(Apply(u, Deliver(i)), more);
    assert Apply(u, Deliver(i)).log[|u.log| + 1] == Settled(to, Settlement(m, true, payload));
  }

  // ---- from the asker to the handler ----

  /** Providers keep their handlers and specifications. */
  ghost predicate SameTrees(s: System, t: System) {
    |t.nodes| == |s.nodes| &&
    forall n :: 0 <= n < |s.nodes| ==> t.nodes[n].apis == s.nodes[n].apis && t.nodes[n].specs == s.nodes[n].specs
  }

  lemma {:induction false} ArriveLeaves(s: System, n: nat, message: Message)
    requires n < |s.nodes|
    ensures var t := Arrive(s, n, message).0;
            SameTrees(s, t) && t.asks == s.asks && t.requests == s.requests && t.jobs == s.jobs
  {
  }

  /** Receiving, with the arrival in its middle. */
  lemma {:induction false} ReceiveLeaves(s: System, step: Step)
    requires Enabled(s, step) && (step.Receive? || step.ReceiveForeign?)
    ensures var t := Apply(s, step);
            SameTrees(s, t) && t.asks == s.asks && (forall k :: k in s.jobs && step != Receive(k) ==> k in t.jobs && t.jobs[k] == s.jobs[k]) &&
            forall k :: k in s.requests && step != Receive(k) ==> k in t.requests && t.requests[k] == s.requests[k]
  {
    match step {
      case Receive(m) =>
        ArriveLeaves(s.(requests := s.requests - {m}), s.requests[m].to, Call(s.requests[m].peer, s.requests[m].api, m));
      case ReceiveForeign(n, message, _) =>
        ArriveLeaves(s, n, message);
    }
  }

  lemma {:induction false} TreesStep(s: System, step: Step)
    requires Enabled(s, step)
    ensures SameTrees(s, Apply(s, step))
  {
    if step.Receive? || step.ReceiveForeign? {
      ReceiveLeaves(s, step);
    }
  }

  lemma {:induction false} TreesStay(s: System, steps: seq<Step>)
    ensures SameTrees(s, Execute(s, steps))
    decreases |steps|
  {
    if steps != [] {
      if Enabled(s, steps[0]) {
        TreesStep(s, steps[0]);
      }
      TreesStay(Next(s, steps[0]), steps[1..]);
    }
  }

  lemma {:induction false} RequestStaysStep(s: System, step: Step, m: Text)
    requires Ids(s) && Enabled(s, step) && step != Receive(m)
    ensures var t := Apply(s, step); m in s.requests ==> m in t.requests && t.requests[m] == s.requests[m]
  {
    if step.Receive? || step.ReceiveForeign? {
      ReceiveLeaves(s, step);
    }
  }

  /** A request that was sent goes to the provider it was sent to, unchanged: it is still on its way, or was received. */
  lemma {:induction false} RequestStays(s: System, steps: seq<Step>, m: Text)
    requires Inv(s) && m in s.requests && Receive(m) !in steps
    ensures m in Execute(s, steps).requests && Execute(s, steps).requests[m] == s.requests[m]
    decreases |steps|
  {
    if steps != [] {
      assert steps[0] in steps && forall step <- steps[1..] :: step in steps;
      StepKeeps(s, steps[0]);
      if Enabled(s, steps[0]) {
        RequestStaysStep(s, steps[0], m);
      }
      RequestStays(Next(s, steps[0]), steps[1..], m);
    }
  }

  predicate IsCompletionOf(step: Step, m: Text) {
    step.Complete? && step.msgId == m
  }

  lemma {:induction false} JobStaysStep(s: System, step: Step, m: Text)
    requires Ids(s) && Enabled(s, step) && !IsCompletionOf(step, m) && m in s.jobs
    ensures var t := Apply(s, step); m in t.jobs && t.jobs[m] == s.jobs[m]
  {
    if step.Receive? || step.ReceiveForeign? {
      ReceiveLeaves(s, step);
    }
  }

  /** A call that was accepted runs until it is completed. */
  lemma {:induction false} JobStays(s: System, steps: seq<Step>, m: Text)
    requires Inv(s) && m in s.jobs && forall step <- steps :: !IsCompletionOf(step, m)
    ensures m in Execute(s, steps).jobs && Execute(s, steps).jobs[m] == s.jobs[m]
    decreases |steps|
  {
    if steps != [] {
      assert steps[0] in steps && forall step <- steps[1..] :: step in steps;
      StepKeeps(s, steps[0]);
      if Enabled(s, steps[0]) {
        JobStaysStep(s, steps[0], m);
      }
      JobStays(Next(s, steps[0]), steps[1..], m);
    }
  }

  lemma {:induction false} SendApplies(s: System, step: Step)
    requires Enabled(s, step) && step.Send?
    ensures var t := Apply(s, step);
            step.msgId in t.requests && t.requests[step.msgId] == Request(step.to, step.peer, step.api) &&
            step.msgId in t.asks && t.asks[step.msgId] == Ask(step.from, step.wantsPromise, false) && t.nodes == s.nodes
  {
  }

  /** A request that reaches its provider starts the handler at the end of its path, with the specification there. */
  lemma {:induction false} ReceiveStarts(s: System, m: Text, path: string, segs: seq<string>)
    requires Enabled(s, Receive(m)) && s.requests[m].peer.Some? && s.requests[m].api == Path(path)
    requires var node := s.nodes[s.requests[m].to];
             Matching(node.apis, node.specs) && Spells(path, segs) && !(|segs| == 2 && segs[0] == "sys") &&
             Descend(node.apis, segs).Some? && Descend(node.apis, segs).value.Fun?
    ensures var t, to := Apply(s, Receive(m)), s.requests[m].to; var specs := s.nodes[to].specs;
            m in t.jobs && Descend(specs, segs).Some? &&
            t.jobs[m] == Job(to, if path == "" then None else Some(path), Descend(specs, segs).value)
  {
    var r := s.requests[m];
    var node := s.nodes[r.to];
    AdmitIff(node.apis, node.specs, r.peer, path, segs, m);
  }

  /** Any request of any system, with anything in between: it is sent, later received where it was sent to, and later
      completed there. Then the call that ends is the one of the handler at the end of its path, under the specification
      at that path. */
  lemma {:induction false} RequestReachesHandler(s: System, send: Step, a: seq<Step>, u: System, b: seq<Step>, v: System,
                                                 path: string, segs: seq<string>)
    requires Inv(s) && Enabled(s, send) && send.Send? && send.peer.Some? && send.api == Path(path)
    requires var node := s.nodes[send.to];
             Matching(node.apis, node.specs) && Spells(path, segs) && !(|segs| == 2 && segs[0] == "sys") &&
             Descend(node.apis, segs).Some? && Descend(node.apis, segs).value.Fun?
    requires Receive(send.msgId) !in a && u == Execute(Apply(s, send), a)
    requires (forall step <- b :: !IsCompletionOf(step, send.msgId)) && v == Execute(Next(u, Receive(send.msgId)), b)
    ensures var m, specs := send.msgId, s.nodes[send.to].specs;
            Enabled(u, Receive(m)) && m in v.jobs && Descend(specs, segs).Some? &&
            v.jobs[m] == Job(send.to, if path == "" then None else Some(path), Descend(specs, segs).value) &&
            m in v.asks && v.asks[m].from == send.from && v.asks[m].wantsPromise == send.wantsPromise && Inv(v)
  {
    var m, t := send.msgId, Apply(s, send);
    StepKeeps(s, send);
    SendApplies(s, send);
    RequestStays(t, a, m);
    TreesStay(t, a);
    Preserved(t, a);
    AskStays(t, a, m);
    ReceiveStarts(u, m, path, segs);
    StepKeeps(u, Receive(m));
    AskStaysStep(u, Receive(m), m);
    JobStays(Next(u, Receive(m)), b, m);
    AskStays(Next(u, Receive(m)), b, m);
    Preserved(Next(u, Receive(m)), b);
  }
}
