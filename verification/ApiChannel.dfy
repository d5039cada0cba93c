/** The server of the API channel while its provider is halted and activated again. */
module ApiChannel {
  import opened Retry
  import opened ServerSpec
  import L = LifeCycle
  import States

  /** A life-cycle operation that reaches the server; the attempts are those of the start it makes. */
  datatype Turn = Halt(env: L.Env) | Activate(env: L.Env, attempts: seq<Attempt>)

  /** The operation that belongs to this state reaches the server, even if its report throws in the end. */
  predicate Accepts(l: L.Life, s: States.ExecutionState) {
    l.state == s && L.Api in l.servers
  }

  /** The provider and its API server behind a turn. The server is touched only if the operation is accepted. */
  function Turned(o: Options, hangs: bool, configured: nat, l: L.Life, v: Server, turn: Turn): (L.Life, Server) {
    match turn
    case Halt(env) =>
      var (m, outcome) := L.HaltOf(l, env);
      (m, if Accepts(l, States.Running) then v.Stop() else v)
    case Activate(env, attempts) =>
      var (m, outcome) := L.ActivateOf(l, env);
      (m, if Accepts(l, States.ExecutionState.Halt) then
            Start(o, hangs, v, PortToAsk(true, v, configured), attempts).0
          else v)
  }

  function TurnedAll(o: Options, hangs: bool, configured: nat, l: L.Life, v: Server, turns: seq<Turn>): (L.Life, Server)
    decreases |turns|
  {
    if turns == [] then (l, v)
    else
      var (m, w) := Turned(o, hangs, configured, l, v, turns[0]);
      TurnedAll(o, hangs, configured, m, w, turns[1..])
  }

  predicate HasChannel(l: L.Life) {
    L.Api in l.servers && (l.state == States.Running || l.state == States.ExecutionState.Halt)
  }

  /** A start or a stop, seen as a history of one operation. */
  lemma {:induction false} OneOpKeepsPort(o: Options, hangs: bool, configured: nat, v: Server, op: Op)
    requires v.port != 0
    ensures KeepsPort(v, Do(o, hangs, true, configured, v, op))
  {
    PortIsSticky(o, hangs, configured, v, [op]);
    assert [op][1..] == [];
    assert DoAll(o, hangs, true, configured, v, [op]) == Do(o, hangs, true, configured, v, op);
  }

  lemma {:induction false} TurnKeeps(o: Options, hangs: bool, configured: nat, l: L.Life, v: Server, turn: Turn)
    requires HasChannel(l) && v.port != 0
    ensures var (m, w) := Turned(o, hangs, configured, l, v, turn);
            HasChannel(m) && m.servers == l.servers && KeepsPort(v, w)
  {
    match turn {
      case Halt(_) => OneOpKeepsPort(o, hangs, configured, v, DoStop);
      case Activate(_, attempts) => OneOpKeepsPort(o, hangs, configured, v, DoStart(attempts));
    }
  }

  /** Over every history of halts and activations the provider keeps its servers, and its API server asks for and reports
      the port it had. */
  lemma {:induction false} PortSurvivesHalts(o: Options, hangs: bool, configured: nat, l: L.Life, v: Server, turns: seq<Turn>)
    requires HasChannel(l) && v.port != 0
    ensures var (m, w) := TurnedAll(o, hangs, configured, l, v, turns);
            HasChannel(m) && m.servers == l.servers && KeepsPort(v, w)
    decreases |turns|
  {
    if turns != [] {
      TurnKeeps(o, hangs, configured, l, v, turns[0]);
      var (m, w) := Turned(o, hangs, configured, l, v, turns[0]);
      PortSurvivesHalts(o, hangs, configured, m, w, turns[1..]);
      PortKeptOn(v, w, TurnedAll(o, hangs, configured, m, w, turns[1..]).1);
    }
  }

  /** A halt stops the server. It can only be brought back by an activation: left alone, with a limit, it then listens on the
      same port exactly if one of the binds it is allowed listens. A turn that is not accepted leaves the server alone. */
  lemma {:induction false} TurnsStopAndListen(o: Options, configured: nat, l: L.Life, v: Server, turn: Turn)
    requires v.port != 0
    ensures var (m, w) := Turned(o, false, configured, l, v, turn);
            match turn
            case Halt(_) => if Accepts(l, States.Running) then w.state == States.Stopped && w.port == v.port else w == v
            case Activate(_, attempts) =>
              if !Accepts(l, States.ExecutionState.Halt) then w == v
              else
                v.state == States.Stopped && o.limit > 0 && Undisturbed(attempts) &&
                (Misses(attempts) < |attempts| || |attempts| >= o.limit) ==>
                  w.port == v.port && (w.state == States.Listening <==> Misses(attempts) < o.limit)
  {
    if turn.Activate? && v.state == States.Stopped && o.limit > 0 && Undisturbed(turn.attempts) &&
       (Misses(turn.attempts) < |turn.attempts| || |turn.attempts| >= o.limit) {
      StartSettles(o, v, v.port, turn.attempts);
      OneOpKeepsPort(o, false, configured, v, DoStart(turn.attempts));
    }
  }
}
