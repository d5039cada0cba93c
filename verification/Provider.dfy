/**
 One service provider: the pool of its own pending requests, the handling of requests from others, and the API counters.
 `HandleRequest` awaits in its middle; `Admit` is what happens before the await and `Finish` what happens behind it.
 */
module Provider {
  import opened Wrappers
  import opened Utf8
  import opened FrameCodec
  import opened Router

  datatype Peer = Peer(service: string, instance: string)

  /** The api member of a request: absent, a string, or a value without `split` (with its key in the counter map). */
  datatype Api = NoApi | Path(path: string) | NotText(key: string)

  /** An incoming message as JSON.parse sees it; NotObject is a value without members, such as null. */
  datatype Message = Empty | NotJson | NotObject | Call(peer: Option<Peer>, api: Api, msgId: Text)

  /** How a request is counted. */
  datatype Verdict = Succeeded | InvalidRequest | FailedOnProcess

  /** Ignored leaves no trace, Refused is finished at once, Accepted calls a handler. */
  datatype Admission = Ignored | Refused(verdict: Verdict) | Accepted(handler: nat, spec: Value)

  /** What a handler returns. Absent is any falsy value; Other is one that cannot be put in a buffer. */
  datatype Data = Absent | Characters(text: Text) | Bytes(bytes: seq<Byte>) | Other

  datatype ApiCounter = ApiCounter(success: nat, invalidRequest: nat, failedOnProcess: nat) {

    function Total(): nat {
      success + invalidRequest + failedOnProcess
    }

    function Of(v: Verdict): nat {
      match v
      case Succeeded => success
      case InvalidRequest => invalidRequest
      case FailedOnProcess => failedOnProcess
    }

    function Bump(v: Verdict): ApiCounter {
      match v
      case Succeeded => this.(success := success + 1)
      case InvalidRequest => this.(invalidRequest := invalidRequest + 1)
      case FailedOnProcess => this.(failedOnProcess := failedOnProcess + 1)
    }
  }

  type Counters = map<string, ApiCounter>

  /** A pending request; it holds a promise unless it was sent without acknowledgement. */
  datatype Ticket = Ticket(promised: bool)

  type Pool = map<Text, Ticket>

  /** A call of a promise's resolve or reject function. */
  datatype Settlement = Settlement(msgId: Text, success: bool, payload: seq<Byte>)

  // ---- requests from others ----

  function Admit(apis: Value, specs: Value, m: Message): Admission {
    match m
    case Empty => Ignored
    case NotJson | NotObject => Refused(InvalidRequest)
    case Call(peer, api, _) =>
      if peer.None? || !api.Path? then Refused(InvalidRequest)
      else
        match RouteOf(apis, specs, api.path)
        case NotFound => Refused(Succeeded)
        case Invalid => Refused(InvalidRequest)
        case SysCall(_) => Refused(InvalidRequest)
        case Found(handler, spec) => Accepted(handler, spec)
  }

  lemma {:induction false} AdmitFollows(apis: Value, specs: Value, peer: Option<Peer>, path: string, msgId: Text, route: Route)
    requires route == RouteOf(apis, specs, path)
    ensures Admit(apis, specs, Call(peer, Path(path), msgId)) ==
            if peer.None? || route.Invalid? || route.SysCall? then Refused(InvalidRequest)
            else if route.Found? then Accepted(route.handler, route.spec)
            else Refused(Succeeded)
  {
  }

  /** On matching trees a request gets to a handler exactly if it names its peer and its path ends at a function; one
      whose path ends anywhere else is finished as a success, and one in the system form as an invalid request. */
  lemma {:induction false} AdmitIff(apis: Value, specs: Value, peer: Option<Peer>, path: string, segs: seq<string>, msgId: Text)
    requires Matching(apis, specs) && Spells(path, segs)
    ensures var admission, end := Admit(apis, specs, Call(peer, Path(path), msgId)), Descend(apis, segs);
            if peer.None? || (|segs| == 2 && segs[0] == "sys") then admission == Refused(InvalidRequest)
            else if end.Some? && end.value.Fun? then
              Descend(specs, segs).Some? && admission == Accepted(end.value.id, Descend(specs, segs).value)
            else admission == Refused(Succeeded)
  {
    RouteIff(apis, specs, path, segs);
    AdmitFollows(apis, specs, peer, path, msgId, RouteOf(apis, specs, path));
  }

  /** On any trees: a path whose specification chain breaks above an existing handler path is an invalid request. */
  lemma {:induction false} BrokenSpecIsInvalid(apis: Value, specs: Value, peer: Peer, path: string, segs: seq<string>,
                                               msgId: Text, k: nat)
    requires Spells(path, segs) && !(|segs| == 2 && segs[0] == "sys")
    requires 0 < k <= |segs| && Descend(apis, segs[..k]).Some? && SpecAt(specs, segs[..k]).None?
    ensures Admit(apis, specs, Call(Some(peer), Path(path), msgId)) == Refused(InvalidRequest)
  {
    SegmentsIffSpells(path, segs);
    WalkIff(apis, specs, segs);
    AdmitFollows(apis, specs, Some(peer), path, msgId, RouteOf(apis, specs, path));
  }

  /** Every other message: an empty one is ignored, and one without an object, a peer or a textual path is an invalid
      request. Only a call with both can be accepted, or be refused as anything else. */
  lemma {:induction false} AdmitOthers(apis: Value, specs: Value, m: Message)
    ensures Admit(apis, specs, m).Ignored? <==> m == Empty
    ensures m == NotJson || m == NotObject || (m.Call? && (m.peer.None? || !m.api.Path?)) ==>
              Admit(apis, specs, m) == Refused(InvalidRequest)
    ensures Admit(apis, specs, m).Accepted? || Admit(apis, specs, m) == Refused(Succeeded) ==>
              m.Call? && m.peer.Some? && m.api.Path?
  {
  }

  /** The counter a message belongs to: its api member, when that is truthy. */
  function CounterKey(m: Message): Option<string> {
    match m
    case Call(_, Path(path), _) => if path == "" then None else Some(path)
    case Call(_, NotText(key), _) => Some(key)
    case _ => None
  }

  function Count(c: Counters, key: Option<string>, v: Verdict): Counters {
    match key
    case None => c
    case Some(k) => c[k := (if k in c then c[k] else ApiCounter(0, 0, 0)).Bump(v)]
  }

  /** A message has a counter exactly if it is a call with an api that is truthy, and then the one of that api. */
  lemma {:induction false} CounterKeyIff(m: Message, key: string)
    ensures CounterKey(m) == Some(key) <==>
            m.Call? && ((m.api == Path(key) && key != "") || m.api == NotText(key))
  {
  }

  const ACK: Text := [65, 99, 107]

  /** The payload of a success frame; None when the data cannot be written. */
  function PayloadOf(data: Data): Option<seq<Byte>> {
    match data
    case Absent => Some(Encode(ACK))
    case Characters(text) => Some(Encode(if text == [] then ACK else text))
    case Bytes(bytes) => Some(bytes)
    case Other => None
  }

  /** Is a frame written at all? Not without a specification, and not for one that asks for no acknowledgement. */
  predicate WantsAck(spec: Value) {
    var ack := Get(spec, "ack");
    ack.Some? && ack.value != Str("None")
  }

  /** What a fully successful request leads to: the payload of its frame, if it gets one. */
  function ReplyOf(spec: Value, data: Data): Option<seq<Byte>> {
    if WantsAck(spec) then PayloadOf(data) else None
  }

  /** The frame that a fully successful request leads to, if it gets one. */
  function FrameOf(spec: Value, data: Data, msgId: Text): Option<seq<Byte>> {
    match ReplyOf(spec, data)
    case Some(payload) => Some(EncodeFrame(true, msgId, payload))
    case None => None
  }

  /** Reading the specification does not throw, and it does not ask for no acknowledgement: its `ack` is anything but the
      text None. */
  predicate AsksForAck(spec: Value) {
    !spec.Undefined? && !spec.Null? && !(spec.Obj? && "ack" in spec.props && spec.props["ack"] == Str("None"))
  }

  /** These bytes say what the handler returned: its bytes, its text in UTF-8, or "Ack" for nothing and for empty text. */
  predicate Says(data: Data, bytes: seq<Byte>) {
    match data
    case Bytes(own) => bytes == own
    case Characters(text) => bytes == if text == [] then [65, 99, 107] else Encode(text)
    case Absent => bytes == [65, 99, 107]
    case Other => false
  }

  lemma {:induction false} AckBytes()
    ensures Encode(ACK) == [65, 99, 107]
  {
    assert ACK[1..] == [99, 107] && [99, 107][1..] == [107] && [107 as Scalar][1..] == [];
    assert Encode([107]) == [107] + Encode([]);
    assert Encode([99, 107]) == [99] + Encode([107]);
    assert Encode(ACK) == [65] + Encode([99, 107]);
  }

  lemma {:induction false} ReplySays(spec: Value, data: Data)
    ensures ReplyOf(spec, data).Some? <==> AsksForAck(spec) && data != Other
    ensures ReplyOf(spec, data).Some? ==> Says(data, ReplyOf(spec, data).value)
  {
    AckBytes();
  }

  /** A frame is written exactly if an acknowledgement is asked for and the data can be written; read again, it says that
      the request of this id succeeded, and what its handler returned. */
  lemma {:induction false} FrameSays(spec: Value, data: Data, msgId: Text)
    ensures FrameOf(spec, data, msgId).Some? <==> AsksForAck(spec) && data != Other
    ensures FrameOf(spec, data, msgId).Some? && Plain(msgId) ==>
              var frame := DecodeFrame(FrameOf(spec, data, msgId).value);
              frame.Some? && frame.value.success && frame.value.msgId == msgId && Says(data, frame.value.payload)
  {
    ReplySays(spec, data);
    if FrameOf(spec, data, msgId).Some? {
      RoundTripIffPlain(true, msgId, ReplyOf(spec, data).value);
    }
  }

  /** Text comes back as text. */
  lemma {:induction false} TextComesBack(text: Text, bytes: seq<Byte>)
    requires text != [] && Says(Characters(text), bytes)
    ensures Decode(bytes) == text
  {
    RoundTrip(text, []);
    assert Encode(text) + [] == Encode(text) && text + Decode([]) == text;
  }

  // ---- responses to own requests ----

  /** A response message takes its request out of the pool and settles the promise there, if any. */
  function Answer(pool: Pool, data: seq<Byte>): (Pool, seq<Settlement>) {
    match DecodeFrame(data)
    case None => (pool, [])
    case Some(f) =>
      (pool - {f.msgId},
       if f.msgId in pool && pool[f.msgId].promised then [Settlement(f.msgId, f.success, f.payload)] else [])
  }

  /** A frame with an unknown or already answered id changes nothing. */
  lemma {:induction false} UnknownIdIsIgnored(pool: Pool, success: bool, msgId: Text, payload: seq<Byte>)
    requires Plain(msgId) && msgId !in pool
    ensures Answer(pool, EncodeFrame(success, msgId, payload)) == (pool, [])
  {
    RoundTripIffPlain(success, msgId, payload);
    assert pool - {msgId} == pool;
  }

  /** A frame with a pending id settles exactly that request, with exactly the payload written. */
  lemma {:induction false} PendingIdIsSettled(pool: Pool, success: bool, msgId: Text, payload: seq<Byte>)
    requires Plain(msgId) && msgId in pool && pool[msgId].promised
    ensures Answer(pool, EncodeFrame(success, msgId, payload)) ==
            (pool - {msgId}, [Settlement(msgId, success, payload)])
  {
    RoundTripIffPlain(success, msgId, payload);
  }

  /** A pending request without a promise is taken out of the pool; nothing settles. */
  lemma {:induction false} UnpromisedIdIsRemoved(pool: Pool, success: bool, msgId: Text, payload: seq<Byte>)
    requires Plain(msgId) && msgId in pool && !pool[msgId].promised
    ensures Answer(pool, EncodeFrame(success, msgId, payload)) == (pool - {msgId}, [])
  {
    RoundTripIffPlain(success, msgId, payload);
  }

  /** Anything shorter than a header is dropped. */
  lemma {:induction false} ShortFrameIsIgnored(pool: Pool, bytes: seq<Byte>)
    requires |bytes| < 64
    ensures Answer(pool, bytes) == (pool, [])
  {
  }

  /** A message to be sent; its id is assigned when it is sent for the first time. */
  class OutgoingCall {
    var msgId: Text

    constructor ()
      ensures msgId == []
    {
      msgId := [];
    }
  }

  class ServiceProvider {
    const apis: Value
    const specs: Value
    var pool: Pool
    var counters: Counters

    constructor (apis: Value, specs: Value)
      ensures this.apis == apis && this.specs == specs && pool == map[] && counters == map[]
    {
      this.apis, this.specs := apis, specs;
      pool, counters := map[], map[];
    }

    /** The part of `ask` behind the write, which returned the message id. */
    method Park(msgId: Text, wantsPromise: bool)
      modifies this`pool
      ensures pool == old(pool)[msgId := Ticket(wantsPromise)]
    {
      pool := pool[msgId := Ticket(false)];
      if wantsPromise {
        pool := pool[msgId := Ticket(true)];
      }
    }

    /** `ask`. When the write fails the message keeps its id, so that a second try goes out under the same one. */
    method Ask(call: OutgoingCall, generated: Text, written: bool, wantsPromise: bool) returns (msgId: Option<Text>)
      requires generated != []
      modifies call, this`pool
      ensures call.msgId == if old(call.msgId) == [] then generated else old(call.msgId)
      ensures msgId == if written then Some(call.msgId) else None
      ensures pool == if written then old(pool)[call.msgId := Ticket(wantsPromise)] else old(pool)
    {
      if call.msgId == [] {
        call.msgId := generated;
      }
      if !written {
        return None;
      }
      Park(call.msgId, wantsPromise);
      msgId := Some(call.msgId);
    }

    method HandleApiResponse(data: seq<Byte>) returns (settled: seq<Settlement>)
      modifies this`pool
      ensures (pool, settled) == Answer(old(pool), data)
    {
      settled := [];
      if |data| < MAX_HEADER_LEN {
        return;
      }
      var success := data[0] != 0;
      var msgId := StripNul(Decode(data[1..MAX_HEADER_LEN]));
      if msgId in pool && pool[msgId].promised {
        settled := [Settlement(msgId, success, data[MAX_HEADER_LEN..])];
      }
      pool := pool - {msgId};
    }

    method UpdateApiCounter(v: Verdict, m: Message)
      modifies this`counters
      ensures counters == Count(old(counters), CounterKey(m), v)
    {
      var key := CounterKey(m);
      if key.Some? {
        var counter := if key.value in counters then counters[key.value] else ApiCounter(0, 0, 0);
        counters := counters[key.value := counter.Bump(v)];
      }
    }

    /** `_handleApiRequest` up to the await: a request that starts no handler is counted at once. */
    method Receive(m: Message) returns (admission: Admission)
      modifies this`counters
      ensures admission == Admit(apis, specs, m)
      ensures counters ==
              if admission.Refused? then Count(old(counters), CounterKey(m), admission.verdict) else old(counters)
    {
      if m.Empty? {
        return Ignored;
      }
      if !m.Call? || m.peer.None? || !m.api.Path? {
        UpdateApiCounter(InvalidRequest, m);
        return Refused(InvalidRequest);
      }
      var route := ParseRequest(apis, specs, m.api.path);
      match route {
        case NotFound =>
          UpdateApiCounter(Succeeded, m);
          return Refused(Succeeded);
        case Invalid | SysCall(_) =>
          UpdateApiCounter(InvalidRequest, m);
          return Refused(InvalidRequest);
        case Found(handler, spec) =>
          return Accepted(handler, spec);
      }
    }

    /** `response` for a successful request: the bytes handed to the response channel, if any. */
    method Respond(spec: Value, data: Data, msgId: Text) returns (frame: Option<seq<Byte>>)
      ensures frame == FrameOf(spec, data, msgId)
      ensures frame.Some? ==> Plain(msgId) ==>
                var read := DecodeFrame(frame.value);
                read.Some? && read.value.success && read.value.msgId == msgId && Says(data, read.value.payload)
      ensures frame.Some? <==> AsksForAck(spec) && data != Other
    {
      FrameSays(spec, data, msgId);
      var ack := Get(spec, "ack");
      if ack.None? || ack.value == Str("None") {
        return None;
      }
      var payload;
      match data {
        case Absent => payload := Encode(ACK);
        case Characters(text) => payload := Encode(if text == [] then ACK else text);
        case Bytes(bytes) => payload := bytes;
        case Other => return None;
      }
      var bytes := BuildFrame(true, msgId, payload);
      return Some(bytes);
    }

    /** `_handleApiRequest` behind the await: only a request whose handler and channel lookup both succeeded
        (verdict Succeeded) reaches `response`. */
    method Finish(m: Message, spec: Value, verdict: Verdict, data: Data) returns (frame: Option<seq<Byte>>)
      requires m.Call?
      modifies this`counters
      ensures counters == Count(old(counters), CounterKey(m), verdict)
      ensures frame == if verdict.Succeeded? then FrameOf(spec, data, m.msgId) else None
    {
      UpdateApiCounter(verdict, m);
      frame := None;
      if verdict.Succeeded? {
        frame := Respond(spec, data, m.msgId);
      }
    }
  }

  // ---- the counters add up ----

  /** All counters of all paths. */
  ghost function Total(c: Counters): nat {
    if c == map[] then 0
    else
      var k :| k in c;
      c[k].Total() + Total(c - {k})
  }

  lemma {:induction false} TotalWithout(c: Counters, k: string)
    requires k in c
    ensures Total(c) == c[k].Total() + Total(c - {k})
    decreases |c|
  {
    var j :| j in c && Total(c) == c[j].Total() + Total(c - {j});
    if j != k {
      TotalWithout(c - {j}, k);
      TotalWithout(c - {k}, j);
      assert c - {j} - {k} == c - {k} - {j};
    }
  }

  /** Counting a message with a counter moves exactly one counter, by one. */
  lemma {:induction false} CountAddsOne(c: Counters, key: Option<string>, v: Verdict)
    ensures Total(Count(c, key, v)) == Total(c) + if key.Some? then 1 else 0
    ensures forall k :: k in c && key != Some(k) ==> k in Count(c, key, v) && Count(c, key, v)[k] == c[k]
  {
    if key.Some? {
      var k := key.value;
      var d := Count(c, key, v);
      TotalWithout(d, k);
      assert d - {k} == c - {k};
      if k in c {
        TotalWithout(c, k);
      } else {
        assert c - {k} == c;
      }
    }
  }

  /** How often the api was counted under a verdict. */
  function CountOf(c: Counters, key: string, v: Verdict): nat {
    if key in c then c[key].Of(v) else 0
  }

  /** What the three counters of an api are called. */
  lemma {:induction false} CountersAreNamed(c: Counters, key: string)
    requires key in c
    ensures CountOf(c, key, Succeeded) == c[key].success && CountOf(c, key, InvalidRequest) == c[key].invalidRequest
    ensures CountOf(c, key, FailedOnProcess) == c[key].failedOnProcess
  {
  }

  /** Counting moves the one counter of the message's api and verdict, and no other. */
  lemma {:induction false} CountMovesOne(c: Counters, key: Option<string>, v: Verdict, k: string, w: Verdict)
    ensures CountOf(Count(c, key, v), k, w) == CountOf(c, k, w) + if key == Some(k) && v == w then 1 else 0
  {
  }
}
