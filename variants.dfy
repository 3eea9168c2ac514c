// The two servers side by side. They keep the same registry: fed the same
// register, pair, drawing and disconnect traffic (server.js has no `clear`
// handler and calls the drawing event `draw`), their token -> socket maps and
// per-socket tokens stay equal, whatever each does with pairings and messages.

module Variants {
  import opened Protocol
  import Sever
  import Server

  /** The server.js event for the same traffic; server.js ignores `clear`. */
  function Counterpart(e: Sever.Event): seq<Server.Event> {
    match e
    case Recv(c, RegisterReq(t)) => [Server.RecvRegister(c, t)]
    case Recv(c, PairReq(from, to)) => [Server.RecvPair(c, from, to)]
    case Recv(c, DrawingReq(d)) => [Server.RecvDraw(c, d)]
    case Recv(_, ClearReq(_, _)) => []
    case Leave(c) => [Server.RecvDisconnect(c)]
  }

  /** The server.js trace for a whole sever.js trace. */
  function Translate(evs: seq<Sever.Event>): seq<Server.Event>
    decreases |evs|
  {
    if evs == [] then [] else Counterpart(evs[0]) + Translate(evs[1..])
  }

  /** Running two traces back to back is running their concatenation. */
  lemma {:induction false} ServerRunConcat(s: Server.State, a: seq<Server.Event>, b: seq<Server.Event>)
    ensures Server.Run(s, a + b) == Server.Run(Server.Run(s, a), b)
    decreases |a|
  {
    if a == [] {
      assert a + b == b;
    } else {
      assert (a + b)[0] == a[0] && (a + b)[1..] == a[1..] + b;
      ServerRunConcat(Server.Step(s, a[0]), a[1..], b);
    }
  }

  /** The two registries agree. */
  predicate SameRegistry(s: Sever.State, t: Server.State) {
    s.users == t.users && s.sockTok == t.sockTok
  }

  /** One event keeps the registries in step. */
  lemma StepSameRegistry(s: Sever.State, t: Server.State, e: Sever.Event)
    requires SameRegistry(s, t)
    ensures SameRegistry(Sever.Step(s, e), Server.Run(t, Counterpart(e)))
  {
    match e
    case Recv(c, req) =>
      match req {
        case RegisterReq(tok) =>
          assert Server.Run(t, Counterpart(e)) == Server.Register(t, c, tok);
        case PairReq(from, to) =>
          assert Server.Run(t, Counterpart(e)) == Server.Pair(t, c, from, to);
        case DrawingReq(d) =>
          assert Server.Run(t, Counterpart(e)) == Server.RelayDraw(t, d);
        case ClearReq(_, _) =>
      }
    case Leave(c) =>
      assert Server.Run(t, Counterpart(e)) == Server.Disconnect(t, c);
  }

  /** Over any trace the two servers map the same tokens to the same sockets. */
  lemma {:induction false} RegistriesAgree(s: Sever.State, t: Server.State, evs: seq<Sever.Event>)
    requires SameRegistry(s, t)
    ensures SameRegistry(Sever.Run(s, evs), Server.Run(t, Translate(evs)))
    decreases |evs|
  {
    if evs != [] {
      var t1 := Server.Run(t, Counterpart(evs[0]));
      StepSameRegistry(s, t, evs[0]);
      ServerRunConcat(t, Counterpart(evs[0]), Translate(evs[1..]));
      RegistriesAgree(Sever.Step(s, evs[0]), t1, evs[1..]);
    }
  }
}
