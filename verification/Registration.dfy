/**
 The registration exchange: a provider sends a register call to the service manager, which stores the registration, opens
 a response channel to the address just stored and writes the acknowledgement there.
 */
module Registration {
  import opened Wrappers
  import opened Utf8
  import opened FrameCodec
  import opened Router
  import opened Provider
  import Stores = ManagerStores

  type Info = Stores.ProviderInfo

  /** The arguments of a register call; Malformed ones have no provider object. */
  datatype Args = Malformed | Provides(info: Info)

  /** A response channel, to the address it was opened for. It stays stored even if connecting failed, and nothing ever
      connects it again. */
  datatype Channel = Channel(info: Info, connected: bool)

  type Channels = Stores.Groups<Channel>

  /** How connecting a new channel ends: it is refused when the retries run out, and it waits for ever behind an error that
      is not retried, since that error is emitted where nobody listens. */
  datatype Connection = Connected | Refused | Unsettled

  /** A lookup of a channel. */
  datatype Lookup = Got(channel: Channel) | Failed | Waiting

  const REGISTRAR: nat := 0
  const GOT_REPORT: nat := 1

  /** The handlers of a service manager and the specification of its protocol. */
  const APIS := Obj(map["register" := Fun(REGISTRAR), "report" := Fun(GOT_REPORT), "getProtocol" := Fun(2), "getState" := Fun(3)])

  function ApiSpec(ack: string): Value {
    Obj(map["ack" := Str(ack)])
  }

  const SPECS := Obj(map["reception" := ApiSpec("None"), "register" := ApiSpec("Single"), "report" := ApiSpec("None")])

  const REGISTER := "register"

  lemma {:induction false} OneSegment(path: string)
    requires IsSegment(path)
    ensures Segments(path) == [path]
  {
    var pads: seq<nat> := [0];
    assert [path][1..] == [] && pads[1..] == [];
    assert Render([path], pads) == path + (Slashes(0) + "");
    assert Padding(path, [path], 0, pads);
    SegmentsIffSpells(path, [path]);
  }

  lemma {:induction false} RegisterEntries()
    ensures HasProp(APIS, REGISTER) && APIS.props[REGISTER] == Fun(REGISTRAR)
    ensures Get(SPECS, REGISTER) == Some(ApiSpec("Single"))
  {
    assert |REGISTER| == 8 && |"report"| == 6 && |"getState"| == 8 && |"getProtocol"| == 11;
    assert REGISTER[0] == 'r' && "getState"[0] == 'g';
  }

  /** A call whose path is one segment goes to the handler of that name. */
  lemma {:induction false} OneSegmentIsRouted(apis: Value, specs: Value, peer: Peer, path: string, msgId: Text)
    requires IsSegment(path) && HasProp(apis, path) && apis.props[path].Fun? && Get(specs, path).Some?
    ensures Admit(apis, specs, Call(Some(peer), Path(path), msgId)) ==
            Accepted(apis.props[path].id, Get(specs, path).value)
  {
    OneSegment(path);
    var handler, spec := apis.props[path], Get(specs, path).value;
    assert [path][1..] == [];
    assert Walk(handler, spec, []) == Found(handler.id, spec);
    assert Walk(apis, specs, [path]) == Walk(handler, spec, []);
    assert RouteOf(apis, specs, path) == Found(apis.props[path].id, Get(specs, path).value);
  }

  lemma {:induction false} SingleIsAnswered(spec: Value)
    requires spec == ApiSpec("Single")
    ensures ReplyOf(spec, Absent) == Some(Encode(ACK))
  {
    assert "Single"[0] == 'S' && "None"[0] == 'N';
  }

  lemma {:induction false} RegisterIsRouted(apis: Value, specs: Value, peer: Peer, msgId: Text)
    requires apis == APIS && specs == SPECS
    ensures exists spec :: Admit(apis, specs, Call(Some(peer), Path(REGISTER), msgId)) == Accepted(REGISTRAR, spec) &&
                           ReplyOf(spec, Absent) == Some(Encode(ACK))
  {
    RegisterEntries();
    SingleIsAnswered(ApiSpec("Single"));
    OneSegmentIsRouted(apis, specs, peer, REGISTER, msgId);
  }

  // ---- the manager's side ----

  /** How the call is answered: an unusable registration is an invalid request, an unreachable peer a failure. */
  function VerdictOf(args: Args, reachable: bool): Verdict {
    if args.Malformed? then InvalidRequest else if !reachable then FailedOnProcess else Succeeded
  }

  /** Does the lookup of the response channel succeed? It does for every stored channel, connected or not; otherwise the
      peer has to be registered, and connecting to work. */
  ghost predicate Reachable(log: seq<Stores.Event>, channels: Channels, peer: Peer, connection: Connection) {
    peer.service != "" && peer.instance != "" &&
    (Stores.Find(channels, peer).Some? || (Stores.Registration(log, peer).Some? && connection == Connected))
  }

  /** Does the lookup never come back? */
  ghost predicate Waits(log: seq<Stores.Event>, channels: Channels, peer: Peer, connection: Connection) {
    peer.service != "" && peer.instance != "" &&
    Stores.Find(channels, peer).None? && Stores.Registration(log, peer).Some? && connection == Unsettled
  }

  /** Does a frame get out? Only through a channel that is connected, the write itself being up to the network. */
  ghost predicate Answers(log: seq<Stores.Event>, channels: Channels, peer: Peer, connection: Connection, writes: bool) {
    Reachable(log, channels, peer, connection) && writes &&
    (Stores.Find(channels, peer).Some? ==> Stores.Find(channels, peer).value.connected)
  }

  /** The channels behind a lookup: a new one is stored before it connects, and its service before that. */
  function Opened(log: seq<Stores.Event>, channels: Channels, peer: Peer, connection: Connection): Channels {
    if peer.service == "" || peer.instance == "" || Stores.Find(channels, peer).Some? then channels
    else
      match Stores.Registration(log, peer)
      case Some(info) => Stores.Put(channels, peer, Channel(info, connection == Connected))
      case None => if peer.service in channels then channels else channels[peer.service := map[]]
  }

  function StoreOf(log: seq<Stores.Event>, args: Args): seq<Stores.Event> {
    match args
    case Malformed => log
    case Provides(info) => log + [Stores.Stored(info)]
  }

  class Manager {
    const base: ServiceProvider
    const store: Stores.ManagerStore
    var channels: Channels

    ghost predicate Valid()
      reads this, store
    {
      store.Valid() && base.apis == APIS && base.specs == SPECS
    }

    constructor ()
      ensures Valid() && fresh(base) && fresh(store) && store.log == [] && channels == map[]
    {
      base := new ServiceProvider(APIS, SPECS);
      store := new Stores.ManagerStore();
      channels := map[];
    }

    /** The cached channel; the service gets its group in any case. */
    method CachedChannel(peer: Peer) returns (cached: Option<Channel>)
      modifies this`channels
      ensures cached == Stores.Find(old(channels), peer)
      ensures channels == if peer.service in old(channels) then old(channels) else old(channels)[peer.service := map[]]
    {
      if peer.service !in channels {
        channels := channels[peer.service := map[]];
      }
      var group := channels[peer.service];
      cached := if peer.instance in group then Some(group[peer.instance]) else None;
    }

    /** A new channel is stored, and then connected. */
    method OpenChannel(peer: Peer, info: Info, connection: Connection) returns (lookup: Lookup)
      requires peer.service in channels
      modifies this`channels
      ensures channels == Stores.Put(old(channels), peer, Channel(info, connection == Connected))
      ensures lookup.Got? <==> connection == Connected
      ensures lookup.Waiting? <==> connection == Unsettled
      ensures lookup.Got? ==> lookup.channel == Channel(info, true)
    {
      var channel := Channel(info, connection == Connected);
      channels := channels[peer.service := channels[peer.service][peer.instance := channel]];
      match connection {
        case Connected => return Got(channel);
        case Refused => return Failed;
        case Unsettled => return Waiting;
      }
    }

    /** A peer's channel, opened and kept at first use. `connection` is the outcome of connecting, should it come to that. */
    method GetResponseChannel(peer: Peer, connection: Connection) returns (lookup: Lookup)
      requires Valid()
      modifies this`channels
      ensures Valid()
      ensures channels == Opened(store.log, old(channels), peer, connection)
      ensures lookup.Got? <==> Reachable(store.log, old(channels), peer, connection)
      ensures lookup.Waiting? <==> Waits(store.log, old(channels), peer, connection)
      ensures lookup.Got? ==> Stores.Find(channels, peer) == Some(lookup.channel)
    {
      if peer.service == "" || peer.instance == "" {
        return Failed;
      }
      var cached := CachedChannel(peer);
      if cached.Some? {
        assert channels == old(channels);
        return Got(cached.value);
      }
      var info := store.GetRegisterInfo(peer);
      if info.None? {
        return Failed;
      }
      lookup := OpenChannel(peer, info.value, connection);
      ghost var put := Stores.Put(old(channels), peer, Channel(info.value, connection == Connected));
      assert channels == put && Opened(store.log, old(channels), peer, connection) == put;
    }

    /** Writing throws on a channel that is not connected. */
    method Write(channel: Channel, frame: Option<seq<Byte>>, writes: bool) returns (sent: Option<seq<Byte>>)
      ensures sent == if channel.connected && writes then frame else None
    {
      sent := None;
      if channel.connected && writes {
        sent := frame;
      }
    }

    /** The end of the handler: what is to be answered is counted before it is written. */
    method Answer(message: Message, spec: Value, verdict: Verdict, lookup: Lookup, writes: bool)
      returns (sent: Option<seq<Byte>>)
      requires message.Call? && ReplyOf(spec, Absent) == Some(Encode(ACK))
      modifies base`counters
      ensures base.counters == Count(old(base.counters), CounterKey(message), verdict)
      ensures sent == if verdict.Succeeded? && lookup.Got? && lookup.channel.connected && writes
                      then Some(EncodeFrame(true, message.msgId, Encode(ACK))) else None
    {
      var frame := base.Finish(message, spec, verdict, Absent);
      sent := None;
      if lookup.Got? {
        sent := Write(lookup.channel, frame, writes);
      }
    }

    /** `_handleApiRequest` for a register call: the registrar stores first, then the response channel is looked up. A
        usable call whose lookup waits is never counted. */
    method HandleRegister(peer: Peer, msgId: Text, args: Args, connection: Connection, writes: bool)
      returns (sent: Option<seq<Byte>>)
      requires Valid()
      modifies this`channels, base`counters, store`registry, store`log
      ensures Valid()
      ensures store.log == StoreOf(old(store.log), args)
      ensures channels == Opened(store.log, old(channels), peer, connection)
      ensures base.counters ==
              if args.Provides? && Waits(store.log, old(channels), peer, connection) then old(base.counters)
              else Count(old(base.counters), Some(REGISTER),
                         VerdictOf(args, Reachable(store.log, old(channels), peer, connection)))
      ensures sent == if args.Provides? && Answers(store.log, old(channels), peer, connection, writes)
                      then Some(EncodeFrame(true, msgId, Encode(ACK))) else None
    {
      var message := Call(Some(peer), Path(REGISTER), msgId);
      RegisterIsRouted(base.apis, base.specs, peer, msgId);
      var admission := base.Receive(message);
      if args.Provides? {
        store.PutProvider(args.info);
      }
      OpenedHolds(store.log, channels, peer, connection);
      var lookup := GetResponseChannel(peer, connection);
      sent := None;
      if args.Provides? && lookup.Waiting? {
        return;
      }
      sent := Answer(message, admission.spec, VerdictOf(args, lookup.Got?), lookup, writes);
    }
  }

  /** What a lookup does to the channels, peer by peer. */
  lemma {:induction false} OpenedHolds(log: seq<Stores.Event>, channels: Channels, peer: Peer, connection: Connection)
    ensures forall p :: p != peer || Stores.Find(channels, p).Some? ==>
              Stores.Find(Opened(log, channels, peer, connection), p) == Stores.Find(channels, p)
    ensures Stores.Find(channels, peer).None? ==>
              Stores.Find(Opened(log, channels, peer, connection), peer) ==
              if peer.service == "" || peer.instance == "" || Stores.Registration(log, peer).None? then None
              else Some(Channel(Stores.Registration(log, peer).value, connection == Connected))
  {
    if Stores.Registration(log, peer).Some? {
      Stores.FindPut(channels, peer, Channel(Stores.Registration(log, peer).value, connection == Connected));
    }
  }

  /** How a register call is counted, case by case: malformed arguments are an invalid request; a cached channel, connected
      or not, makes it a success; without one it is the connection that decides, and a peer that has no name or is not
      registered is a failure. It is never counted while a usable call waits for its connection. */
  lemma {:induction false} CallIsCounted(log: seq<Stores.Event>, channels: Channels, peer: Peer, args: Args,
                                         connection: Connection)
    ensures var verdict := VerdictOf(args, Reachable(log, channels, peer, connection));
            var opens := Stores.Find(channels, peer).None? && Stores.Registration(log, peer).Some?;
            if args == Malformed then verdict == InvalidRequest
            else if peer.service == "" || peer.instance == "" then verdict == FailedOnProcess
            else if Stores.Find(channels, peer).Some? then verdict == Succeeded
            else verdict == if opens && connection == Connected then Succeeded else FailedOnProcess
    ensures Waits(log, channels, peer, connection) <==>
            peer.service != "" && peer.instance != "" && Stores.Find(channels, peer).None? &&
            Stores.Registration(log, peer).Some? && connection == Unsettled
  {
  }

  // ---- a channel that did not connect ----

  /** A request of any api by any peer, with the registration it makes, if it is a register call. */
  datatype Visit = Visit(peer: Peer, stores: Option<Info>, connection: Connection)

  function LogBehind(log: seq<Stores.Event>, v: Visit): seq<Stores.Event> {
    match v.stores
    case Some(info) => log + [Stores.Stored(info)]
    case None => log
  }

  /** The registrations and the channels behind a sequence of requests. */
  function AfterVisits(log: seq<Stores.Event>, channels: Channels, visits: seq<Visit>): (seq<Stores.Event>, Channels)
    decreases |visits|
  {
    if visits == [] then (log, channels)
    else
      var next := LogBehind(log, visits[0]);
      AfterVisits(next, Opened(next, channels, visits[0].peer, visits[0].connection), visits[1..])
  }

  lemma {:induction false} StoredChannelStays(log: seq<Stores.Event>, channels: Channels, visits: seq<Visit>, peer: Peer)
    requires Stores.Find(channels, peer).Some?
    ensures Stores.Find(AfterVisits(log, channels, visits).1, peer) == Stores.Find(channels, peer)
    decreases |visits|
  {
    if visits != [] {
      var next := LogBehind(log, visits[0]);
      var after := Opened(next, channels, visits[0].peer, visits[0].connection);
      OpenedHolds(next, channels, visits[0].peer, visits[0].connection);
      assert Stores.Find(after, peer) == Stores.Find(channels, peer);
      StoredChannelStays(next, after, visits[1..], peer);
    }
  }

  /** Once connecting to a peer has failed, or never ends, no later call of that peer is ever answered, whatever anyone registers or
      calls in between, even if the peer registers again and could be connected to by then. */
  lemma {:induction false} NeverAnsweredAgain(log: seq<Stores.Event>, channels: Channels, peer: Peer, first: Connection,
                                              visits: seq<Visit>, connection: Connection, writes: bool)
    requires first != Connected
    requires peer.service != "" && peer.instance != ""
    requires Stores.Find(channels, peer).None? && Stores.Registration(log, peer).Some?
    ensures var (later, kept) := AfterVisits(log, Opened(log, channels, peer, first), visits);
            !Answers(later, kept, peer, connection, writes) && Reachable(later, kept, peer, connection)
  {
    OpenedHolds(log, channels, peer, first);
    StoredChannelStays(log, Opened(log, channels, peer, first), visits, peer);
  }

  // ---- the requester's side ----

  /** What a register call needs before it can be sent: a client to the manager, the manager's acknowledgement type
      (None when its protocol does not say), and the own access point (None when it cannot be had). */
  datatype Context = Context(hasClient: bool, ack: Option<string>, info: Option<Info>)

  predicate Sends(c: Context) {
    c.hasClient && c.ack.Some? && c.info.Some?
  }

  class RegisterProcedure {
    const base: ServiceProvider
    /** Acknowledgements announced on the manager's client. */
    var acks: seq<Text>

    constructor (base: ServiceProvider)
      ensures this.base == base && acks == []
    {
      this.base := base;
      acks := [];
    }

    /** `execute` up to the await of the promise; Some result if it does not get there. */
    method Begin(c: Context, msgId: Text, written: bool) returns (over: Option<bool>)
      modifies base`pool
      ensures over == if Sends(c) && written && c.ack != Some("None") then None else Some(false)
      ensures base.pool ==
              if Sends(c) && written then old(base.pool)[msgId := Ticket(c.ack != Some("None"))] else old(base.pool)
    {
      if !c.hasClient || c.ack.None? || c.info.None? || !written {
        return Some(false);
      }
      base.Park(msgId, c.ack.value != "None");
      over := if c.ack.value == "None" then Some(false) else None;
    }

    /** The await ends: resolved with a response, or rejected. */
    method Settle(s: Settlement) returns (registered: bool)
      modifies this`acks
      ensures registered == s.success
      ensures acks == if s.success then old(acks) + [Decode(s.payload)] else old(acks)
    {
      if s.success {
        acks := acks + [Decode(s.payload)];
      }
      registered := s.success;
    }
  }

  lemma {:induction false} AckText()
    ensures Decode(Encode(ACK)) == ACK
  {
    RoundTrip(ACK, []);
    assert Encode(ACK) + [] == Encode(ACK) && ACK + Decode([]) == ACK;
  }

  /** The whole exchange, the frame being delivered if there is one. The result is None while the promise is pending. */
  method Exchange(procedure: RegisterProcedure, manager: Manager, c: Context, peer: Peer, msgId: Text, written: bool,
                  connection: Connection, writes: bool)
    returns (result: Option<bool>, frame: Option<seq<Byte>>)
    requires manager.Valid() && procedure.base != manager.base && Plain(msgId)
    modifies procedure`acks, procedure.base`pool
    modifies manager`channels, manager.base`counters, manager.store`registry, manager.store`log
    ensures manager.Valid()
    ensures !Sends(c) || !written ==>
              result == Some(false) && frame == None && manager.store.log == old(manager.store.log) &&
              procedure.base.pool == old(procedure.base.pool) && procedure.acks == old(procedure.acks)
    ensures Sends(c) && written ==>
              manager.store.log == old(manager.store.log) + [Stores.Stored(c.info.value)] &&
              manager.channels == Opened(manager.store.log, old(manager.channels), peer, connection) &&
              (frame.Some? <==> Answers(manager.store.log, old(manager.channels), peer, connection, writes)) &&
              (frame.Some? ==> frame == Some(EncodeFrame(true, msgId, Encode(ACK))))
    ensures Sends(c) && written && c.ack != Some("None") ==>
              result == (if frame.Some? then Some(true) else None) &&
              procedure.acks == (if frame.Some? then old(procedure.acks) + [ACK] else old(procedure.acks)) &&
              procedure.base.pool ==
              if frame.Some? then old(procedure.base.pool) - {msgId} else old(procedure.base.pool)[msgId := Ticket(true)]
  {
    frame := None;
    result := procedure.Begin(c, msgId, written);
    if !Sends(c) || !written {
      return;
    }
    frame := manager.HandleRegister(peer, msgId, Provides(c.info.value), connection, writes);
    if frame.Some? {
      RoundTripIffPlain(true, msgId, Encode(ACK));
      AckText();
      ghost var parked := procedure.base.pool;
      var settled := procedure.base.HandleApiResponse(frame.value);
      assert parked - {msgId} == old(procedure.base.pool) - {msgId};
      if result.None? {
        assert settled == [Settlement(msgId, true, Encode(ACK))];
        var registered := procedure.Settle(settled[0]);
        result := Some(registered);
      }
    }
  }

  // ---- what a registration achieves ----

  /** A provider that registers itself is found under its own name and id, so it is answered exactly when it has a name
      and an id, the write works, and its stored channel is connected or, without one, connecting works now. */
  lemma {:induction false} RegisteringReaches(log: seq<Stores.Event>, channels: Channels, info: Info, connection: Connection,
                                              writes: bool)
    ensures var peer, after := Peer(info.name, info.id), log + [Stores.Stored(info)];
            var stored := Stores.Find(channels, peer);
            Stores.Registration(after, peer) == Some(info) &&
            (Answers(after, channels, peer, connection, writes) <==>
               info.name != "" && info.id != "" && writes && if stored.Some? then stored.value.connected else connection == Connected) &&
            forall p :: p != peer ==> Stores.Registration(after, p) == Stores.Registration(log, p)
  {
    var peer := Peer(info.name, info.id);
    forall p {
      Stores.HistoryNext(log, Stores.Stored(info), p);
    }
  }

  /** From any registry without a channel to it, a provider with a name and an id registers: its registration is stored
      and the others stay, the channel leads to the address it gave, and `execute` returns true. */
  method RegisterFirst(procedure: RegisterProcedure, manager: Manager, info: Info, msgId: Text)
    returns (result: Option<bool>)
    requires manager.Valid() && procedure.base != manager.base && Plain(msgId)
    requires info.name != "" && info.id != "" && Stores.Find(manager.channels, Peer(info.name, info.id)).None?
    modifies procedure`acks, procedure.base`pool
    modifies manager`channels, manager.base`counters, manager.store`registry, manager.store`log
    ensures manager.Valid() && result == Some(true) && procedure.acks == old(procedure.acks) + [ACK]
    ensures procedure.base.pool == old(procedure.base.pool) - {msgId}
    ensures var peer := Peer(info.name, info.id);
            Stores.Registration(manager.store.log, peer) == Some(info) &&
            Stores.Find(manager.channels, peer) == Some(Channel(info, true)) &&
            forall p :: p != peer ==>
              Stores.Registration(manager.store.log, p) == Stores.Registration(old(manager.store.log), p)
  {
    RegisteringReaches(manager.store.log, manager.channels, info, Connected, true);
    OpenedHolds(manager.store.log + [Stores.Stored(info)], manager.channels, Peer(info.name, info.id), Connected);
    var frame;
    result, frame := Exchange(procedure, manager, Context(true, Some("Single"), Some(info)),
                              Peer(info.name, info.id), msgId, true, Connected, true);
  }
}
