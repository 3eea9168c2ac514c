// The fuller relay server (sever.js): a registry `users` (token -> socket id),
// a pairing table `pairs` (token -> paired token) and, per socket, the token
// it registered (`socket.token`). Every `socket.emit` and `io.to(id).emit` is
// an append to one outbox. Node runs each handler to completion, so each
// handler is one atomic transition.

module Sever {
  import opened Protocol

  /** Messages sever.js sends to a client. */
  datatype Msg =
    | Registered(success: bool, token: Token)
    | Paired(with: Token)
    | Error(message: string)
    | Drawing(data: Stroke)
    | Clear(from: Token)
    | Disconnected(from: Token)

  /** One emitted message and the connection (room) it is addressed to. */
  datatype Delivery = Delivery(to: ConnId, msg: Msg)

  /** The whole server state: both maps, every socket's `socket.token`, and everything emitted so far. */
  datatype State = State(
    users: map<Token, ConnId>,
    pairs: map<Token, Token>,
    sockTok: map<ConnId, Token>,
    outbox: seq<Delivery>)

  /** The state when the server starts: both maps empty, nothing sent. */
  const Empty := State(map[], map[], map[], [])

  /** What one socket delivers to the server: one of its requests, or its disconnection. */
  datatype Event = Recv(conn: ConnId, req: Request) | Leave(conn: ConnId)

  // ---------------------------------------------------------------------------
  // The handlers, as transitions of the whole state
  // ---------------------------------------------------------------------------

  /** `register`: bind the token to this socket, overwriting any earlier owner, and acknowledge. */
  function Register(s: State, c: ConnId, t: Token): State {
    s.(users := s.users[t := c],
       sockTok := s.sockTok[c := t],
       outbox := s.outbox + [Delivery(c, Registered(true, t))])
  }

  /** `pair`: if the peer is registered, link both directions and notify both sides; else report an error. */
  function Pair(s: State, c: ConnId, from: Token, to: Token): State {
    if to in s.users then
      s.(pairs := s.pairs[from := to][to := from],
         outbox := s.outbox + [Delivery(c, Paired(to)), Delivery(s.users[to], Paired(from))])
    else
      s.(outbox := s.outbox + [Delivery(c, Error("User not found"))])
  }

  /** `drawing`: forward the payload to whichever socket owns `data.to`; `pairs` is not consulted. */
  function RelayDrawing(s: State, d: Stroke): State {
    if d.to in s.users then
      s.(outbox := s.outbox + [Delivery(s.users[d.to], Drawing(d))])
    else
      s
  }

  /** `clear`: send `{from}` to whichever socket owns `to`; `pairs` is not consulted. */
  function RelayClear(s: State, from: Token, to: Token): State {
    if to in s.users then
      s.(outbox := s.outbox + [Delivery(s.users[to], Clear(from))])
    else
      s
  }

  /** `disconnect`: for a socket with a truthy token, notify and unlink the partner, then free the token. */
  function Disconnect(s: State, c: ConnId): State {
    if c in s.sockTok && Truthy(s.sockTok[c]) then
      var t := s.sockTok[c];
      var s1 :=
        if t in s.pairs && Truthy(s.pairs[t]) then
          var p := s.pairs[t];
          var out := if p in s.users then s.outbox + [Delivery(s.users[p], Disconnected(t))] else s.outbox;
          s.(pairs := s.pairs - {t} - {p}, outbox := out)
        else
          s;
      s1.(users := s1.users - {t})
    else
      s
  }

  /** Dispatch one event to its handler, as `socket.on` does. */
  function Step(s: State, e: Event): State {
    match e
    case Recv(c, RegisterReq(t)) => Register(s, c, t)
    case Recv(c, PairReq(from, to)) => Pair(s, c, from, to)
    case Recv(_, DrawingReq(d)) => RelayDrawing(s, d)
    case Recv(_, ClearReq(from, to)) => RelayClear(s, from, to)
    case Leave(c) => Disconnect(s, c)
  }

  /** Handle the events one after another, each to completion. */
  function Run(s: State, evs: seq<Event>): State
    decreases |evs|
  {
    if evs == [] then s else Run(Step(s, evs[0]), evs[1..])
  }

  /** The messages addressed to connection `c`, in the order they were emitted. */
  function Inbox(out: seq<Delivery>, c: ConnId): seq<Msg> {
    if out == [] then []
    else (if out[0].to == c then [out[0].msg] else []) + Inbox(out[1..], c)
  }

  /** What a pairing relay should keep: every pairing is mutual. */
  ghost predicate Symmetric(pairs: map<Token, Token>) {
    forall t :: t in pairs ==> pairs[t] in pairs && pairs[pairs[t]] == t
  }

  // ---------------------------------------------------------------------------
  // What each handler does
  // ---------------------------------------------------------------------------

  /** Registering always succeeds: the token now belongs to `c`, even if another socket held it. */
  lemma RegisterEffect(s: State, c: ConnId, t: Token)
    ensures var r := Register(s, c, t);
      && r.users.Keys == s.users.Keys + {t}
      && r.users[t] == c
      && (forall u :: u in s.users && u != t ==> r.users[u] == s.users[u])
      && r.sockTok.Keys == s.sockTok.Keys + {c}
      && r.sockTok[c] == t
      && (forall c' :: c' in s.sockTok && c' != c ==> r.sockTok[c'] == s.sockTok[c'])
      && r.pairs == s.pairs
      && r.outbox == s.outbox + [Delivery(c, Registered(true, t))]
  {
  }

  /** Pairing with a registered peer links both directions and notifies the requester and the peer. */
  lemma PairFoundEffect(s: State, c: ConnId, from: Token, to: Token)
    requires to in s.users
    ensures var r := Pair(s, c, from, to);
      && r.pairs[from] == to && r.pairs[to] == from
      && r.pairs.Keys == s.pairs.Keys + {from, to}
      && (forall u :: u in s.pairs && u != from && u != to ==> r.pairs[u] == s.pairs[u])
      && r.users == s.users && r.sockTok == s.sockTok
      && r.outbox == s.outbox + [Delivery(c, Paired(to)), Delivery(s.users[to], Paired(from))]
  {
  }

  /** Pairing with an unknown peer changes no map and sends one error, to the requester only. */
  lemma PairNotFoundEffect(s: State, c: ConnId, from: Token, to: Token)
    requires to !in s.users
    ensures var r := Pair(s, c, from, to);
      && r.users == s.users && r.pairs == s.pairs && r.sockTok == s.sockTok
      && r.outbox == s.outbox + [Delivery(c, Error("User not found"))]
  {
  }

  /** A drawing goes verbatim to the current owner of `data.to` and to no one else; no map changes. */
  lemma RelayDrawingEffect(s: State, d: Stroke)
    ensures var r := RelayDrawing(s, d);
      && r.users == s.users && r.pairs == s.pairs && r.sockTok == s.sockTok
      && r.outbox == s.outbox + (if d.to in s.users then [Delivery(s.users[d.to], Drawing(d))] else [])
  {
  }

  /** A clear sends only `{from}` to the current owner of `to`, or nothing; no map changes. */
  lemma RelayClearEffect(s: State, from: Token, to: Token)
    ensures var r := RelayClear(s, from, to);
      && r.users == s.users && r.pairs == s.pairs && r.sockTok == s.sockTok
      && r.outbox == s.outbox + (if to in s.users then [Delivery(s.users[to], Clear(from))] else [])
  {
  }

  /** Relaying never looks at `pairs`: any pairing table gives the same deliveries. */
  lemma RelayIgnoresPairs(s: State, q: map<Token, Token>, d: Stroke, from: Token, to: Token)
    ensures RelayDrawing(s.(pairs := q), d) == RelayDrawing(s, d).(pairs := q)
    ensures RelayClear(s.(pairs := q), from, to) == RelayClear(s, from, to).(pairs := q)
  {
  }

  /** A socket that never registered a (truthy) token leaves without a trace. */
  lemma DisconnectUnregisteredEffect(s: State, c: ConnId)
    requires c !in s.sockTok || !Truthy(s.sockTok[c])
    ensures Disconnect(s, c) == s
  {
  }

  /** A registered socket's token is always freed; a partner is unlinked and, if still registered, told once. */
  lemma DisconnectEffect(s: State, c: ConnId)
    requires c in s.sockTok && Truthy(s.sockTok[c])
    ensures var t, r := s.sockTok[c], Disconnect(s, c);
      && r.users == s.users - {t}
      && r.sockTok == s.sockTok
      && (t in s.pairs && Truthy(s.pairs[t]) ==>
            && r.pairs == s.pairs - {t, s.pairs[t]}
            && r.outbox == s.outbox +
                 (if s.pairs[t] in s.users then [Delivery(s.users[s.pairs[t]], Disconnected(t))] else []))
      && (t !in s.pairs || !Truthy(s.pairs[t]) ==> r.pairs == s.pairs && r.outbox == s.outbox)
  {
  }

  // ---------------------------------------------------------------------------
  // The session invariant, and where the code does not keep it
  // ---------------------------------------------------------------------------

  /** Pairing two tokens that are both unpaired keeps every pairing mutual. */
  lemma PairUnpairedKeepsSymmetry(s: State, c: ConnId, from: Token, to: Token)
    requires Symmetric(s.pairs) && from !in s.pairs && to !in s.pairs
    ensures Symmetric(Pair(s, c, from, to).pairs)
  {
  }

  /** Disconnecting removes both directions of the leaver's pairing, so mutual pairings stay mutual. */
  lemma DisconnectKeepsSymmetry(s: State, c: ConnId)
    requires Symmetric(s.pairs)
    ensures Symmetric(Disconnect(s, c).pairs)
  {
    var r := Disconnect(s, c);
    if c in s.sockTok && Truthy(s.sockTok[c]) {
      var t := s.sockTok[c];
      if t in s.pairs && Truthy(s.pairs[t]) {
        var p := s.pairs[t];
        assert r.pairs == s.pairs - {t} - {p};
        forall u | u in r.pairs
          ensures r.pairs[u] in r.pairs && r.pairs[r.pairs[u]] == u
        {
          var v := s.pairs[u];
          assert s.pairs[v] == u;
          assert v != t && v != p;
        }
      }
    }
  }

  /** Re-pairing a token that is already paired leaves its old partner pointing at it: A-B then A-C. */
  lemma RepairBreaksSymmetry()
    ensures var s0 := Register(Register(Register(Empty, "c1", "AAAAAA"), "c2", "BBBBBB"), "c3", "CCCCCC");
      var s1 := Pair(s0, "c1", "AAAAAA", "BBBBBB");
      var s2 := Pair(s1, "c1", "AAAAAA", "CCCCCC");
      && Symmetric(s1.pairs)
      && s2.pairs["BBBBBB"] == "AAAAAA" && s2.pairs["AAAAAA"] == "CCCCCC"
      && !Symmetric(s2.pairs)
  {
    var s0 := Register(Register(Register(Empty, "c1", "AAAAAA"), "c2", "BBBBBB"), "c3", "CCCCCC");
    var s1 := Pair(s0, "c1", "AAAAAA", "BBBBBB");
    assert s1.pairs == map["AAAAAA" := "BBBBBB", "BBBBBB" := "AAAAAA"];
    var s2 := Pair(s1, "c1", "AAAAAA", "CCCCCC");
    assert s2.pairs["BBBBBB"] == "AAAAAA";
  }

  /** Self-pairing is not rejected: the token is paired with itself and its owner is notified twice. */
  lemma SelfPairAccepted(s: State, c: ConnId, t: Token)
    requires t in s.users
    ensures var r := Pair(s, c, t, t);
      && r.pairs[t] == t
      && r.outbox == s.outbox + [Delivery(c, Paired(t)), Delivery(s.users[t], Paired(t))]
  {
  }

  /** A socket that lost its token to a newer registration still frees it when it leaves. */
  lemma StaleDisconnectDropsNewOwner()
    ensures var s := Register(Register(Empty, "c1", "ABCD23"), "c2", "ABCD23");
      && s.users["ABCD23"] == "c2"
      && "ABCD23" !in Disconnect(s, "c1").users
      && Disconnect(s, "c1").sockTok["c2"] == "ABCD23"
  {
  }

  // ---------------------------------------------------------------------------
  // Traces of events
  // ---------------------------------------------------------------------------

  /** Inbox distributes over concatenation of outboxes. */
  lemma {:induction false} InboxAppend(a: seq<Delivery>, b: seq<Delivery>, c: ConnId)
    ensures Inbox(a + b, c) == Inbox(a, c) + Inbox(b, c)
    decreases |a|
  {
    if a == [] {
      assert a + b == b;
    } else {
      var head := if a[0].to == c then [a[0].msg] else [];
      assert (a + b)[0] == a[0] && (a + b)[1..] == a[1..] + b;
      assert Inbox(a + b, c) == head + Inbox(a[1..] + b, c);
      InboxAppend(a[1..], b, c);
      assert Inbox(a, c) == head + Inbox(a[1..], c);
    }
  }

  /** Emitting one more delivery adds it to its addressee's inbox and to no other. */
  lemma InboxSnoc(a: seq<Delivery>, x: Delivery, c: ConnId)
    ensures Inbox(a + [x], c) == Inbox(a, c) + (if x.to == c then [x.msg] else [])
  {
    InboxAppend(a, [x], c);
    assert [x][1..] == [];
  }

  /** One handler only appends to the outbox, and at most two messages. */
  lemma StepAppends(s: State, e: Event)
    ensures s.outbox <= Step(s, e).outbox
    ensures |Step(s, e).outbox| <= |s.outbox| + 2
  {
  }

  /** Nothing once emitted is ever withdrawn, and each event emits at most two messages. */
  lemma {:induction false} RunAppends(s: State, evs: seq<Event>)
    ensures s.outbox <= Run(s, evs).outbox
    ensures |Run(s, evs).outbox| <= |s.outbox| + 2 * |evs|
    decreases |evs|
  {
    if evs != [] {
      StepAppends(s, evs[0]);
      RunAppends(Step(s, evs[0]), evs[1..]);
    }
  }

  /** Every drawing message one handler emits carries the payload of a drawing request it received. */
  lemma StepDrawingOrigin(s: State, e: Event, i: nat)
    requires |s.outbox| <= i < |Step(s, e).outbox| && Step(s, e).outbox[i].msg.Drawing?
    ensures e.Recv? && e.req == DrawingReq(Step(s, e).outbox[i].msg.data)
    ensures Step(s, e).outbox[i].to == s.users[e.req.data.to]
  {
  }

  /** Relay fidelity over any trace: every drawing delivered is, unchanged, the payload of some drawing request. */
  lemma {:induction false} RunRelaysVerbatim(s: State, evs: seq<Event>)
    ensures var r := Run(s, evs);
      forall i :: |s.outbox| <= i < |r.outbox| && r.outbox[i].msg.Drawing? ==>
        exists k :: 0 <= k < |evs| && evs[k] == Recv(evs[k].conn, DrawingReq(r.outbox[i].msg.data))
    decreases |evs|
  {
    if evs != [] {
      var s1 := Step(s, evs[0]);
      var r := Run(s, evs);
      assert r == Run(s1, evs[1..]);
      RunAppends(s1, evs[1..]);
      RunRelaysVerbatim(s1, evs[1..]);
      forall i | |s.outbox| <= i < |r.outbox| && r.outbox[i].msg.Drawing?
        ensures exists k :: 0 <= k < |evs| && evs[k] == Recv(evs[k].conn, DrawingReq(r.outbox[i].msg.data))
      {
        if i < |s1.outbox| {
          assert r.outbox[i] == s1.outbox[i];
          StepDrawingOrigin(s, evs[0], i);
          assert evs[0] == Recv(evs[0].conn, DrawingReq(r.outbox[i].msg.data));
        } else {
          var k :| 0 <= k < |evs[1..]| && evs[1..][k] == Recv(evs[1..][k].conn, DrawingReq(r.outbox[i].msg.data));
          assert evs[k + 1] == evs[1..][k];
        }
      }
    }
  }

  /**
   * The end-to-end scenario: register ABCD23 and XYZQ99, pair them, draw once, and let ABCD23 leave.
   * XYZQ99's socket receives exactly its ack, the pairing notice, the identical stroke and the
   * disconnection notice; its token stays registered and is free to pair again.
   */
  lemma SessionScenario(d: Stroke)
    requires d.from == "ABCD23" && d.to == "XYZQ99"
    ensures var s2 := Register(Register(Empty, "c1", "ABCD23"), "c2", "XYZQ99");
      var s5 := Disconnect(RelayDrawing(Pair(s2, "c1", "ABCD23", "XYZQ99"), d), "c1");
      && Inbox(s5.outbox, "c2") == [Registered(true, "XYZQ99"), Paired("ABCD23"), Drawing(d), Disconnected("ABCD23")]
      && Inbox(s5.outbox, "c1") == [Registered(true, "ABCD23"), Paired("XYZQ99")]
      && "XYZQ99" in s5.users && "XYZQ99" !in s5.pairs
      && "ABCD23" !in s5.users
  {
    var s1 := Register(Empty, "c1", "ABCD23");
    var s2 := Register(s1, "c2", "XYZQ99");
    var s3 := Pair(s2, "c1", "ABCD23", "XYZQ99");
    var s4 := RelayDrawing(s3, d);
    var s5 := Disconnect(s4, "c1");
    // The handlers emit these one after another; each socket's inbox grows by its own share.
    var ds := [Delivery("c1", Registered(true, "ABCD23")), Delivery("c2", Registered(true, "XYZQ99")),
               Delivery("c1", Paired("XYZQ99")), Delivery("c2", Paired("ABCD23")),
               Delivery("c2", Drawing(d)), Delivery("c2", Disconnected("ABCD23"))];
    assert s5.outbox == ds;
    forall c | c == "c1" || c == "c2"
      ensures Inbox(ds, c) == (if c == "c1" then [Registered(true, "ABCD23"), Paired("XYZQ99")]
                               else [Registered(true, "XYZQ99"), Paired("ABCD23"), Drawing(d), Disconnected("ABCD23")])
    {
      var e := [];
      InboxSnoc(e, ds[0], c);
      InboxSnoc(e + [ds[0]], ds[1], c);
      InboxSnoc(e + [ds[0]] + [ds[1]], ds[2], c);
      InboxSnoc(e + [ds[0]] + [ds[1]] + [ds[2]], ds[3], c);
      InboxSnoc(e + [ds[0]] + [ds[1]] + [ds[2]] + [ds[3]], ds[4], c);
      InboxSnoc(e + [ds[0]] + [ds[1]] + [ds[2]] + [ds[3]] + [ds[4]], ds[5], c);
      assert e + [ds[0]] + [ds[1]] + [ds[2]] + [ds[3]] + [ds[4]] + [ds[5]] == ds;
    }
  }

  // ---------------------------------------------------------------------------
  // The server object as sever.js keeps it: two module-level Maps and `socket.token`
  // ---------------------------------------------------------------------------

  class Relay {
    var users: map<Token, ConnId>
    var pairs: map<Token, Token>
    var sockTok: map<ConnId, Token>
    var outbox: seq<Delivery>

    /** The server's current state as a value. */
    function Snapshot(): State
      reads this
    {
      State(users, pairs, sockTok, outbox)
    }

    constructor ()
      ensures Snapshot() == Empty
    {
      users, pairs, sockTok, outbox := map[], map[], map[], [];
    }

    method OnRegister(c: ConnId, t: Token)
      modifies this`users, this`sockTok, this`outbox
      ensures Snapshot() == Register(old(Snapshot()), c, t)
      ensures users[t] == c && sockTok[c] == t
    {
      users := users[t := c];
      sockTok := sockTok[c := t];
      outbox := outbox + [Delivery(c, Registered(true, t))];
    }

    method OnPair(c: ConnId, from: Token, to: Token)
      modifies this`pairs, this`outbox
      ensures Snapshot() == Pair(old(Snapshot()), c, from, to)
      ensures to in users ==> pairs[from] == to && pairs[to] == from
    {
      if to in users {
        pairs := pairs[from := to];
        pairs := pairs[to := from];
        outbox := outbox + [Delivery(c, Paired(to))];
        outbox := outbox + [Delivery(users[to], Paired(from))];
      } else {
        outbox := outbox + [Delivery(c, Error("User not found"))];
      }
    }

    method OnDrawing(d: Stroke)
      modifies this`outbox
      ensures Snapshot() == RelayDrawing(old(Snapshot()), d)
    {
      if d.to in users {
        outbox := outbox + [Delivery(users[d.to], Drawing(d))];
      }
    }

    method OnClear(from: Token, to: Token)
      modifies this`outbox
      ensures Snapshot() == RelayClear(old(Snapshot()), from, to)
    {
      if to in users {
        outbox := outbox + [Delivery(users[to], Clear(from))];
      }
    }

    method OnDisconnect(c: ConnId)
      modifies this`users, this`pairs, this`outbox
      ensures Snapshot() == Disconnect(old(Snapshot()), c)
      ensures c in sockTok && Truthy(sockTok[c]) ==> sockTok[c] !in users
    {
      if c in sockTok && Truthy(sockTok[c]) {
        var t := sockTok[c];
        if t in pairs && Truthy(pairs[t]) {
          var p := pairs[t];
          if p in users {
            outbox := outbox + [Delivery(users[p], Disconnected(t))];
          }
          pairs := pairs - {t};
          pairs := pairs - {p};
        }
        users := users - {t};
      }
    }
  }
}
