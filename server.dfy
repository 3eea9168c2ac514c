// The older relay server (server.js): one plain object `users` (token -> socket id)
// and two per-socket fields, `socket.token` and `socket.pairedWith`. Pairing only
// notifies the target, the relay event is called `draw`, and a disconnection is
// silent. Emits are appends to one outbox, as in the fuller server.

module Server {
  import opened Protocol

  /** Messages server.js sends to a client. */
  datatype Msg =
    | Paired(text: string)
    | Draw(data: Stroke)

  /** One emitted message and the connection (room) it is addressed to. */
  datatype Delivery = Delivery(to: ConnId, msg: Msg)

  /** The `users` object, every socket's `token` and `pairedWith` fields, and everything emitted so far. */
  datatype State = State(
    users: map<Token, ConnId>,
    sockTok: map<ConnId, Token>,
    pairedWith: map<ConnId, Token>,
    outbox: seq<Delivery>)

  /** The state when the server starts. */
  const Empty := State(map[], map[], map[], [])

  /** The events server.js listens for; `register` carries the bare token. */
  datatype Event =
    | RecvRegister(conn: ConnId, token: Token)
    | RecvPair(conn: ConnId, from: Token, to: Token)
    | RecvDraw(conn: ConnId, data: Stroke)
    | RecvDisconnect(conn: ConnId)

  /** `users[t]` is truthy: the token is a key and its socket id is not empty. */
  predicate Known(users: map<Token, ConnId>, t: Token) {
    t in users && Truthy(users[t])
  }

  /** The text of the pairing notice the target receives. */
  function Notice(from: Token): string {
    "Connected with " + from
  }

  // ---------------------------------------------------------------------------
  // The handlers, as transitions of the whole state
  // ---------------------------------------------------------------------------

  /** `register`: bind the token to this socket and remember it on the socket; no acknowledgement. */
  function Register(s: State, c: ConnId, t: Token): State {
    s.(users := s.users[t := c], sockTok := s.sockTok[c := t])
  }

  /** `pair`: if the target is known, tell the target only, and record the target on the requesting socket. */
  function Pair(s: State, c: ConnId, from: Token, to: Token): State {
    if Known(s.users, to) then
      s.(outbox := s.outbox + [Delivery(s.users[to], Paired(Notice(from)))],
         pairedWith := s.pairedWith[c := to])
    else
      s
  }

  /** `draw`: forward the payload to the owner of `data.to` if known. */
  function RelayDraw(s: State, d: Stroke): State {
    if Known(s.users, d.to) then
      s.(outbox := s.outbox + [Delivery(s.users[d.to], Msg.Draw(d))])
    else
      s
  }

  /** `disconnect`: forget the socket's token, if it has a truthy one; tell no one. */
  function Disconnect(s: State, c: ConnId): State {
    if c in s.sockTok && Truthy(s.sockTok[c]) then
      s.(users := s.users - {s.sockTok[c]})
    else
      s
  }

  /** Dispatch one event to its handler. */
  function Step(s: State, e: Event): State {
    match e
    case RecvRegister(c, t) => Register(s, c, t)
    case RecvPair(c, from, to) => Pair(s, c, from, to)
    case RecvDraw(_, d) => RelayDraw(s, d)
    case RecvDisconnect(c) => Disconnect(s, c)
  }

  /** Handle the events one after another, each to completion. */
  function Run(s: State, evs: seq<Event>): State
    decreases |evs|
  {
    if evs == [] then s else Run(Step(s, evs[0]), evs[1..])
  }

  // ---------------------------------------------------------------------------
  // What each handler does
  // ---------------------------------------------------------------------------

  /** Registering binds the token to `c`, overwriting any earlier owner, and sends nothing. */
  lemma RegisterEffect(s: State, c: ConnId, t: Token)
    ensures var r := Register(s, c, t);
      && r.users.Keys == s.users.Keys + {t}
      && r.users[t] == c
      && (forall u :: u in s.users && u != t ==> r.users[u] == s.users[u])
      && r.sockTok.Keys == s.sockTok.Keys + {c}
      && r.sockTok[c] == t
      && (forall c' :: c' in s.sockTok && c' != c ==> r.sockTok[c'] == s.sockTok[c'])
      && r.pairedWith == s.pairedWith
      && r.outbox == s.outbox
  {
  }

  /** Pairing with a known target sends one notice naming the requester, to the target only. */
  lemma PairKnownEffect(s: State, c: ConnId, from: Token, to: Token)
    requires Known(s.users, to)
    ensures var r := Pair(s, c, from, to);
      && r.outbox == s.outbox + [Delivery(s.users[to], Paired(Notice(from)))]
      && r.pairedWith.Keys == s.pairedWith.Keys + {c}
      && r.pairedWith[c] == to
      && (forall c' :: c' in s.pairedWith && c' != c ==> r.pairedWith[c'] == s.pairedWith[c'])
      && r.users == s.users && r.sockTok == s.sockTok
  {
  }

  /** Pairing with an unknown target changes nothing and sends nothing. */
  lemma PairUnknownEffect(s: State, c: ConnId, from: Token, to: Token)
    requires !Known(s.users, to)
    ensures Pair(s, c, from, to) == s
  {
  }

  /** A draw goes verbatim to the owner of `data.to` if known, else nowhere; the maps are untouched. */
  lemma RelayDrawEffect(s: State, d: Stroke)
    ensures var r := RelayDraw(s, d);
      && r.users == s.users && r.sockTok == s.sockTok && r.pairedWith == s.pairedWith
      && r.outbox == s.outbox + (if Known(s.users, d.to) then [Delivery(s.users[d.to], Msg.Draw(d))] else [])
  {
  }

  /** Disconnecting removes only the socket's own token from `users`, and sends nothing. */
  lemma DisconnectEffect(s: State, c: ConnId)
    ensures var r := Disconnect(s, c);
      && r.outbox == s.outbox && r.sockTok == s.sockTok && r.pairedWith == s.pairedWith
      && r.users == (if c in s.sockTok && Truthy(s.sockTok[c]) then s.users - {s.sockTok[c]} else s.users)
  {
  }

  // ---------------------------------------------------------------------------
  // `socket.pairedWith` is written and never read
  // ---------------------------------------------------------------------------

  /** Two states that differ only in their `pairedWith` fields agree on everything else after one event. */
  lemma StepIgnoresPairedWith(s: State, t: State, e: Event)
    requires s.users == t.users && s.sockTok == t.sockTok && s.outbox == t.outbox
    ensures Step(s, e).users == Step(t, e).users
    ensures Step(s, e).sockTok == Step(t, e).sockTok
    ensures Step(s, e).outbox == Step(t, e).outbox
  {
  }

  /** Over any trace, no delivery and no registry entry depends on the `pairedWith` fields. */
  lemma {:induction false} RunIgnoresPairedWith(s: State, t: State, evs: seq<Event>)
    requires s.users == t.users && s.sockTok == t.sockTok && s.outbox == t.outbox
    ensures Run(s, evs).users == Run(t, evs).users
    ensures Run(s, evs).sockTok == Run(t, evs).sockTok
    ensures Run(s, evs).outbox == Run(t, evs).outbox
    decreases |evs|
  {
    if evs != [] {
      StepIgnoresPairedWith(s, t, evs[0]);
      RunIgnoresPairedWith(Step(s, evs[0]), Step(t, evs[0]), evs[1..]);
    }
  }

  // ---------------------------------------------------------------------------
  // The server object as server.js keeps it
  // ---------------------------------------------------------------------------

  class Relay {
    var users: map<Token, ConnId>
    var sockTok: map<ConnId, Token>
    var pairedWith: map<ConnId, Token>
    var outbox: seq<Delivery>

    /** The server's current state as a value. */
    function Snapshot(): State
      reads this
    {
      State(users, sockTok, pairedWith, outbox)
    }

    constructor ()
      ensures Snapshot() == Empty
    {
      users, sockTok, pairedWith, outbox := map[], map[], map[], [];
    }

    method OnRegister(c: ConnId, t: Token)
      modifies this`users, this`sockTok
      ensures Snapshot() == Register(old(Snapshot()), c, t)
      ensures users[t] == c && sockTok[c] == t
    {
      users := users[t := c];
      sockTok := sockTok[c := t];
    }

    method OnPair(c: ConnId, from: Token, to: Token)
      modifies this`pairedWith, this`outbox
      ensures Snapshot() == Pair(old(Snapshot()), c, from, to)
    {
      if to in users && Truthy(users[to]) {
        outbox := outbox + [Delivery(users[to], Paired(Notice(from)))];
        pairedWith := pairedWith[c := to];
      }
    }

    method OnDraw(d: Stroke)
      modifies this`outbox
      ensures Snapshot() == RelayDraw(old(Snapshot()), d)
    {
      if d.to in users && Truthy(users[d.to]) {
        outbox := outbox + [Delivery(users[d.to], Msg.Draw(d))];
      }
    }

    method OnDisconnect(c: ConnId)
      modifies this`users
      ensures Snapshot() == Disconnect(old(Snapshot()), c)
    {
      if c in sockTok && Truthy(sockTok[c]) {
        users := users - {sockTok[c]};
      }
    }
  }
}
