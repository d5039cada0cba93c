/**
 `sendAndWait` of the UDP client: any number of overlapping calls on one socket, each racing a timer against the next
 message, an error, the close of the socket and a failure to send. The socket is shared and replies carry no id.
 */
module UdpClient {
  import opened Wrappers
  import opened Utf8

  datatype Reply = Reply(address: string, port: nat, data: seq<Byte>)

  /** How a call ends: a timeout resolves with an empty response. */
  datatype Result = Resolved(reply: Option<Reply>) | Rejected(err: Cause)

  datatype Event =
    | Called(call: nat)
    | TimedOut(call: nat)
    | Message(reply: Reply)
    | SocketError(err: Cause)
    | Closed
    | SendFailed(call: nat, err: Cause)

  datatype Status = Unknown | Waiting | Settled(result: Result)

  const CLOSED := Cause("UDP socket closed unexpectedly")

  // ---- each call on its own ----

  /** How an event ends a call, if it concerns it. */
  function Ends(e: Event, call: nat): Option<Result> {
    match e
    case Called(_) => None
    case TimedOut(i) => if i == call then Some(Resolved(None)) else None
    case Message(reply) => Some(Resolved(Some(reply)))
    case SocketError(err) => Some(Rejected(err))
    case Closed => Some(Rejected(CLOSED))
    case SendFailed(i, err) => if i == call then Some(Rejected(err)) else None
  }

  function After(status: Status, e: Event, call: nat): Status {
    match status
    case Unknown => if e == Called(call) then Waiting else Unknown
    case Waiting => if Ends(e, call).Some? then Settled(Ends(e, call).value) else Waiting
    case Settled(_) => status
  }

  function StatusOf(history: seq<Event>, call: nat): Status {
    if history == [] then Unknown
    else After(StatusOf(history[..|history| - 1], call), history[|history| - 1], call)
  }

  lemma {:induction false} StatusNext(history: seq<Event>, e: Event, call: nat)
    ensures StatusOf(history + [e], call) == After(StatusOf(history, call), e, call)
  {
    assert (history + [e])[..|history|] == history;
  }

  /** The call is made at `a`, and `b` is the first event from there on that concerns it. */
  ghost predicate FirstEnd(history: seq<Event>, call: nat, a: int, b: int) {
    0 <= a < b < |history| && history[a] == Called(call) && (forall k :: 0 <= k < a ==> history[k] != Called(call)) &&
    Ends(history[b], call).Some? && forall k :: a < k < b ==> Ends(history[k], call).None?
  }

  /** The call is made at `a`, and nothing concerns it from there on. */
  ghost predicate NoEnd(history: seq<Event>, call: nat, a: int) {
    0 <= a < |history| && history[a] == Called(call) && (forall k :: 0 <= k < a ==> history[k] != Called(call)) &&
    forall k :: a < k < |history| ==> Ends(history[k], call).None?
  }

  /** There is only one first end, and none while there is no end. */
  lemma {:induction false} FirstEndIsUnique(history: seq<Event>, call: nat, a: int, b: int, c: int, d: int)
    requires FirstEnd(history, call, a, b)
    ensures FirstEnd(history, call, c, d) ==> a == c && b == d
    ensures !NoEnd(history, call, c)
  {
  }

  lemma {:induction false} NoEndIsUnique(history: seq<Event>, call: nat, a: int, c: int, d: int)
    requires NoEnd(history, call, a)
    ensures !FirstEnd(history, call, c, d)
  {
    if FirstEnd(history, call, c, d) {
      FirstEndIsUnique(history, call, c, d, a, 0);
    }
  }

  /** The witness of a status: where the call was made, and where it ended. */
  lemma {:induction false} Witness(history: seq<Event>, call: nat) returns (a: int, b: int)
    ensures match StatusOf(history, call)
            case Unknown => Called(call) !in history
            case Waiting => NoEnd(history, call, a)
            case Settled(r) => FirstEnd(history, call, a, b) && Ends(history[b], call) == Some(r)
  {
    if history == [] {
      a, b := 0, 0;
    } else {
      var n := |history| - 1;
      var init, e := history[..n], history[n];
      assert forall k :: 0 <= k < n ==> history[k] == init[k];
      a, b := Witness(init, call);
      match StatusOf(init, call) {
        case Unknown =>
          a := n;
          assert forall k :: 0 <= k < n ==> history[k] in init;
        case Waiting =>
          b := n;
        case Settled(_) =>
      }
    }
  }

  /** A call is settled exactly by its first event, and waits exactly as long as there was none. */
  lemma {:induction false} SettledByFirst(history: seq<Event>, call: nat)
    ensures forall r :: StatusOf(history, call) == Settled(r) <==>
                        exists a, b :: FirstEnd(history, call, a, b) && Ends(history[b], call) == Some(r)
    ensures StatusOf(history, call) == Waiting <==> exists a :: NoEnd(history, call, a)
    ensures StatusOf(history, call) == Unknown <==> Called(call) !in history
  {
    var a, b := Witness(history, call);
    match StatusOf(history, call) {
      case Unknown =>
      case Waiting =>
        forall c, d {
          NoEndIsUnique(history, call, a, c, d);
        }
      case Settled(_) =>
        forall c, d {
          FirstEndIsUnique(history, call, a, b, c, d);
        }
    }
  }

  /** The events that a call waits for: what happens to the socket, its own timer, and its own failure to send. */
  predicate Concerns(e: Event, call: nat) {
    e.Message? || e.SocketError? || e == Closed || e == TimedOut(call) || (e.SendFailed? && e.call == call)
  }

  /** What each event means for a call that it settles: a message resolves it, a timeout resolves it with nothing, and an
      error, a close and a failure to send reject it. */
  predicate Brings(e: Event, r: Result) {
    match e
    case Message(reply) => r == Resolved(Some(reply))
    case TimedOut(_) => r == Resolved(None)
    case SocketError(err) => r == Rejected(err)
    case SendFailed(_, err) => r == Rejected(err)
    case Closed => r == Rejected(Cause("UDP socket closed unexpectedly"))
    case Called(_) => false
  }

  lemma {:induction false} EndsConcerns(e: Event, call: nat)
    ensures Ends(e, call).Some? <==> Concerns(e, call)
    ensures Ends(e, call).Some? ==> Brings(e, Ends(e, call).value)
  {
  }

  /** The first event that concerns a call behind its making settles it, with what that event brings. */
  lemma {:induction false} FirstConcernSettles(history: seq<Event>, call: nat, a: nat, b: nat)
    requires a < b < |history| && history[a] == Called(call) && Called(call) !in history[..a]
    requires Concerns(history[b], call) && forall k :: a < k < b ==> !Concerns(history[k], call)
    ensures StatusOf(history, call).Settled? && Brings(history[b], StatusOf(history, call).result)
  {
    forall k | 0 <= k < |history| {
      EndsConcerns(history[k], call);
    }
    forall k | 0 <= k < a
      ensures history[k] != Called(call)
    {
      assert history[..a][k] == history[k];
    }
    SettledByFirst(history, call);
    assert FirstEnd(history, call, a, b) && Ends(history[b], call) == Some(Ends(history[b], call).value);
  }

  /** An event that does not concern a call, and is not its making, leaves it alone; nothing changes a settled one. */
  lemma {:induction false} OthersStay(history: seq<Event>, e: Event, call: nat)
    requires StatusOf(history, call).Settled? || (!Concerns(e, call) && e != Called(call))
    ensures StatusOf(history + [e], call) == StatusOf(history, call)
  {
    StatusNext(history, e, call);
    EndsConcerns(e, call);
  }

  /** The calls that have not ended. */
  ghost function Unsettled(history: seq<Event>): set<nat> {
    set e | e in history && e.Called? && StatusOf(history, e.call) == Waiting :: e.call
  }

  lemma {:induction false} UnsettledMeans(history: seq<Event>, call: nat)
    ensures call in Unsettled(history) <==> StatusOf(history, call) == Waiting
  {
    SettledByFirst(history, call);
    if StatusOf(history, call) == Waiting {
      assert Called(call) in history;
    }
  }

  // ---- the client ----

  class UdpClient {
    var running: bool
    var timers: set<nat>
    var onMessage: set<nat>
    var onError: set<nat>
    var onClose: set<nat>
    var results: map<nat, Result>
    ghost var history: seq<Event>

    /** Every unsettled call has its timer and its three listeners, and nothing else does. */
    ghost predicate Valid()
      reads this
    {
      timers == Unsettled(history) && onMessage == timers && onError == timers && onClose == timers &&
      forall i :: match StatusOf(history, i)
                  case Settled(r) => i in results && results[i] == r
                  case _ => i !in results
    }

    constructor ()
      ensures Valid() && history == [] && !running
    {
      running, timers, onMessage, onError, onClose, results, history := false, {}, {}, {}, {}, map[], [];
    }

    method Start()
      requires Valid()
      modifies this`running
      ensures Valid() && running
    {
      running := true;
    }

    method Stop()
      requires Valid()
      modifies this`running
      ensures Valid() && !running
    {
      running := false;
    }

    /** A call when the client is not running is rejected without a trace. */
    method SendAndWait(call: nat) returns (accepted: bool)
      requires Valid() && Called(call) !in history
      modifies this
      ensures Valid() && running == old(running) && accepted == running
      ensures history == old(history) + if accepted then [Called(call)] else []
    {
      if !running {
        return false;
      }
      ghost var before := history;
      SettledByFirst(before, call);
      timers, onMessage, onError, onClose := timers + {call}, onMessage + {call}, onError + {call}, onClose + {call};
      history := history + [Called(call)];
      Extends(before, Called(call));
      return true;
    }

    /** The common cleanup of a call, and settling its promise; a settled promise ignores the second settling. */
    method Finish(call: nat, r: Result)
      modifies this`timers, this`onMessage, this`onError, this`onClose, this`results
      ensures timers == old(timers) - {call} && onMessage == old(onMessage) - {call}
      ensures onError == old(onError) - {call} && onClose == old(onClose) - {call}
      ensures results == if call in old(results) then old(results) else old(results)[call := r]
    {
      timers, onMessage, onError, onClose := timers - {call}, onMessage - {call}, onError - {call}, onClose - {call};
      if call !in results {
        results := results[call := r];
      }
    }

    /** An event of the socket runs the listeners that were there when it was emitted. */
    method FinishAll(listeners: set<nat>, r: Result)
      modifies this`timers, this`onMessage, this`onError, this`onClose, this`results
      ensures timers == old(timers) - listeners && onMessage == old(onMessage) - listeners
      ensures onError == old(onError) - listeners && onClose == old(onClose) - listeners
      ensures forall i :: i in results <==> i in old(results) || i in listeners
      ensures forall i :: i in results ==> results[i] == if i in old(results) then old(results)[i] else r
    {
      var left := listeners;
      while left != {}
        invariant left <= listeners
        invariant timers == old(timers) - (listeners - left) && onMessage == old(onMessage) - (listeners - left)
        invariant onError == old(onError) - (listeners - left) && onClose == old(onClose) - (listeners - left)
        invariant forall i :: i in results <==> i in old(results) || i in listeners - left
        invariant forall i :: i in results ==> results[i] == if i in old(results) then old(results)[i] else r
        decreases |left|
      {
        var call :| call in left;
        Finish(call, r);
        left := left - {call};
      }
    }

    /** A live timer fires. */
    method OnTimer(call: nat)
      requires Valid() && call in timers
      modifies this
      ensures Valid() && running == old(running) && history == old(history) + [TimedOut(call)]
      ensures results == old(results)[call := Resolved(None)] && timers == old(timers) - {call}
    {
      UnsettledMeans(history, call);
      ghost var before := history;
      Finish(call, Resolved(None));
      history := history + [TimedOut(call)];
      Extends(before, TimedOut(call));
    }

    method OnMessage(reply: Reply)
      requires Valid()
      modifies this
      ensures Valid() && running == old(running) && history == old(history) + [Message(reply)]
      ensures timers == {} && forall i :: i in old(timers) ==> i in results && results[i] == Resolved(Some(reply))
      ensures forall i :: i in old(results) ==> i in results && results[i] == old(results)[i]
    {
      UnsettledAreWaiting(history);
      ghost var before := history;
      FinishAll(onMessage, Resolved(Some(reply)));
      history := history + [Message(reply)];
      Extends(before, Message(reply));
    }

    method OnSocketError(err: Cause)
      requires Valid()
      modifies this
      ensures Valid() && running == old(running) && history == old(history) + [SocketError(err)]
      ensures timers == {} && forall i :: i in old(timers) ==> i in results && results[i] == Rejected(err)
      ensures forall i :: i in old(results) ==> i in results && results[i] == old(results)[i]
    {
      UnsettledAreWaiting(history);
      ghost var before := history;
      FinishAll(onError, Rejected(err));
      history := history + [SocketError(err)];
      Extends(before, SocketError(err));
    }

    method OnClosed()
      requires Valid()
      modifies this
      ensures Valid() && running == old(running) && history == old(history) + [Closed]
      ensures timers == {} && forall i :: i in old(timers) ==> i in results && results[i] == Rejected(CLOSED)
      ensures forall i :: i in old(results) ==> i in results && results[i] == old(results)[i]
    {
      UnsettledAreWaiting(history);
      ghost var before := history;
      FinishAll(onClose, Rejected(CLOSED));
      history := history + [Closed];
      Extends(before, Closed);
    }

    /** The send of a call fails, which may be long after the call was settled. */
    method OnSendFailed(call: nat, err: Cause)
      requires Valid() && Called(call) in history
      modifies this
      ensures Valid() && running == old(running) && history == old(history) + [SendFailed(call, err)]
      ensures results == if call in old(timers) then old(results)[call := Rejected(err)] else old(results)
      ensures timers == old(timers) - {call}
    {
      UnsettledMeans(history, call);
      ghost var before := history;
      SettledByFirst(before, call);
      Finish(call, Rejected(err));
      history := history + [SendFailed(call, err)];
      Extends(before, SendFailed(call, err));
    }
  }

  /** A call that is waited for has no result yet. */
  lemma {:induction false} UnsettledAreWaiting(history: seq<Event>)
    ensures forall i :: i in Unsettled(history) <==> StatusOf(history, i) == Waiting
  {
    forall i {
      UnsettledMeans(history, i);
    }
  }

  /** What one more event does to the unsettled calls and to the status of every call. */
  lemma {:induction false} Extends(history: seq<Event>, e: Event)
    ensures forall i :: StatusOf(history + [e], i) == After(StatusOf(history, i), e, i)
    ensures forall i :: i in Unsettled(history + [e]) <==> After(StatusOf(history, i), e, i) == Waiting
    ensures forall i :: i in Unsettled(history) <==> StatusOf(history, i) == Waiting
  {
    forall i
      ensures StatusOf(history + [e], i) == After(StatusOf(history, i), e, i)
      ensures i in Unsettled(history + [e]) <==> After(StatusOf(history, i), e, i) == Waiting
      ensures i in Unsettled(history) <==> StatusOf(history, i) == Waiting
    {
      StatusNext(history, e, i);
      UnsettledMeans(history + [e], i);
      UnsettledMeans(history, i);
    }
  }

  /** A message answers every waiting call at once, whoever it was meant for; an error or a close ends them all. */
  lemma {:induction false} OneForAll(history: seq<Event>, e: Event)
    requires e.Message? || e.SocketError? || e.Closed?
    ensures Unsettled(history + [e]) == {}
    ensures forall i :: i in Unsettled(history) ==>
              StatusOf(history + [e], i) == Settled(if e.Message? then Resolved(Some(e.reply))
                                                    else Rejected(if e.Closed? then CLOSED else e.err))
  {
    Extends(history, e);
  }
}
