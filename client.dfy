// The drawing page (draw.js), without its canvas, DOM and transport code:
// the token it shows, the check on the friend's token, the stroke flag and
// hue, the guard on every outgoing drawing/clear message, and the two
// socket listeners that change pairing state or accept remote strokes.

module Client {
  import opened Protocol

  // ---------------------------------------------------------------------------
  // Tokens
  // ---------------------------------------------------------------------------

  /** The token alphabet: upper-case letters and digits without I, O, 0 and 1. */
  const Alphabet: string := "ABCDEFGHJKLMNPQRSTUVWXYZ23456789"

  /** Every generated token has six characters. */
  const TokenLength: nat := 6

  /** A string the generator can produce. */
  predicate IsToken(s: string) {
    |s| == TokenLength && forall i :: 0 <= i < |s| ==> s[i] in Alphabet
  }

  /** Upper-case letters other than I and O, and the digits 2 to 9. */
  predicate Unambiguous(c: char) {
    ('A' <= c <= 'Z' && c != 'I' && c != 'O') || ('2' <= c <= '9')
  }

  /** The alphabet is exactly the 32 unambiguous characters: none of I, O, 0 and 1. */
  lemma AlphabetMembers()
    ensures |Alphabet| == 32
    ensures forall c :: c in Alphabet <==> Unambiguous(c)
    ensures 'I' !in Alphabet && 'O' !in Alphabet && '0' !in Alphabet && '1' !in Alphabet
  {
    assert forall k :: 0 <= k < |Alphabet| ==> Unambiguous(Alphabet[k]);
    forall c | Unambiguous(c)
      ensures c in Alphabet
    {
      if c <= '9' {
        assert Alphabet[24 + (c as int - '2' as int)] == c;
      } else if c < 'I' {
        assert Alphabet[c as int - 'A' as int] == c;
      } else if c < 'O' {
        assert Alphabet[c as int - 'A' as int - 1] == c;
      } else {
        assert Alphabet[c as int - 'A' as int - 2] == c;
      }
    }
  }

  /** `chars.charAt(Math.floor(r * chars.length))` for one random draw `r` in [0, 1). */
  function Pick(r: real): (c: char)
    requires 0.0 <= r < 1.0
    ensures c in Alphabet
  {
    Alphabet[(r * |Alphabet| as real).Floor]
  }

  /** `generateToken`: one character per random draw, six draws. */
  method GenerateToken(draws: seq<real>) returns (token: Token)
    requires |draws| == TokenLength
    requires forall i :: 0 <= i < |draws| ==> 0.0 <= draws[i] < 1.0
    ensures IsToken(token)
    ensures forall i :: 0 <= i < TokenLength ==> token[i] == Pick(draws[i])
  {
    token := "";
    for i := 0 to TokenLength
      invariant |token| == i
      invariant forall k :: 0 <= k < i ==> token[k] == Pick(draws[k])
    {
      token := token + [Pick(draws[i])];
    }
  }

  // ---------------------------------------------------------------------------
  // Normalising what the user typed: `trim()` then `toUpperCase()`
  // ---------------------------------------------------------------------------

  /** The characters `String.prototype.trim` removes: ECMAScript white space and line terminators. */
  predicate IsJsSpace(c: char) {
    || c == '\t' || c == '\n' || c == '\U{000B}' || c == '\U{000C}' || c == '\r' || c == ' '
    || c == '\U{00A0}' || c == '\U{1680}' || ('\U{2000}' <= c <= '\U{200A}')
    || c == '\U{2028}' || c == '\U{2029}' || c == '\U{202F}' || c == '\U{205F}'
    || c == '\U{3000}' || c == '\U{FEFF}'
  }

  /** Drop leading white space. */
  function TrimStart(s: string): (r: string)
    ensures |r| <= |s| && r == s[|s| - |r|..]
    ensures forall i :: 0 <= i < |s| - |r| ==> IsJsSpace(s[i])
    ensures r != [] ==> !IsJsSpace(r[0])
  {
    if s != [] && IsJsSpace(s[0]) then TrimStart(s[1..]) else s
  }

  /** Drop trailing white space. */
  function TrimEnd(s: string): (r: string)
    ensures |r| <= |s| && r == s[..|r|]
    ensures forall i :: |r| <= i < |s| ==> IsJsSpace(s[i])
    ensures r != [] ==> !IsJsSpace(r[|r| - 1])
  {
    if s != [] && IsJsSpace(s[|s| - 1]) then TrimEnd(s[..|s| - 1]) else s
  }

  /** `s.trim()`. */
  function Trim(s: string): string {
    TrimEnd(TrimStart(s))
  }

  /** Upper-casing of one character (ASCII letters only). */
  function UpperChar(c: char): char {
    if 'a' <= c <= 'z' then (c as int - 32) as char else c
  }

  /** `s.toUpperCase()`, character by character. */
  function Upper(s: string): (r: string)
    ensures |r| == |s|
    ensures forall i :: 0 <= i < |s| ==> r[i] == UpperChar(s[i])
  {
    if s == [] then [] else [UpperChar(s[0])] + Upper(s[1..])
  }

  /** What `connectToFriend` makes of the text field. */
  function Normalize(input: string): string {
    Upper(Trim(input))
  }

  // ---------------------------------------------------------------------------
  // The friend-token check of `connectToFriend`
  // ---------------------------------------------------------------------------

  /** The outcome of `connectToFriend`: one of its three alerts, or a pairing request for `friend`. */
  datatype FriendOutcome = BadLength | SelfToken | NotConnected | Request(friend: Token)

  /** The checks in the order the page makes them: length, own token, connection. */
  function CheckFriend(input: string, own: Token, connected: bool): (r: FriendOutcome)
    ensures r.Request? <==> |Normalize(input)| == TokenLength && Normalize(input) != own && connected
    ensures r.Request? ==> r.friend == Normalize(input) && r.friend != own
    ensures r == BadLength <==> |Normalize(input)| != TokenLength
    ensures r == SelfToken <==> |Normalize(input)| == TokenLength && Normalize(input) == own
  {
    var friend := Normalize(input);
    if |friend| != TokenLength then BadLength
    else if friend == own then SelfToken
    else if !connected then NotConnected
    else Request(friend)
  }

  /** Leading white space is skipped up to the first character that is not white space. */
  lemma {:induction false} TrimStartSkips(lead: string, rest: string)
    requires forall i :: 0 <= i < |lead| ==> IsJsSpace(lead[i])
    requires rest != [] && !IsJsSpace(rest[0])
    ensures TrimStart(lead + rest) == rest
    decreases |lead|
  {
    if lead == [] {
      assert lead + rest == rest;
    } else {
      assert (lead + rest)[1..] == lead[1..] + rest;
      TrimStartSkips(lead[1..], rest);
    }
  }

  /** Trailing white space is dropped back to the last character that is not white space. */
  lemma {:induction false} TrimEndSkips(rest: string, trail: string)
    requires forall i :: 0 <= i < |trail| ==> IsJsSpace(trail[i])
    requires rest != [] && !IsJsSpace(rest[|rest| - 1])
    ensures TrimEnd(rest + trail) == rest
    decreases |trail|
  {
    if trail == [] {
      assert rest + trail == rest;
    } else {
      var s := rest + trail;
      assert s[..|s| - 1] == rest + trail[..|trail| - 1];
      TrimEndSkips(rest, trail[..|trail| - 1]);
    }
  }

  /** No character of a typed token, in any case, is white space. */
  lemma TypedTokenHasNoSpace(t: Token, typed: string)
    requires IsToken(t)
    requires |typed| == |t| && forall i :: 0 <= i < |t| ==> UpperChar(typed[i]) == t[i]
    ensures typed != [] && forall i :: 0 <= i < |typed| ==> !IsJsSpace(typed[i])
  {
    AlphabetMembers();
    forall i | 0 <= i < |typed|
      ensures !IsJsSpace(typed[i])
    {
      assert Unambiguous(t[i]);
    }
  }

  /**
   * A friend who types a displayed token in any mix of cases, with any white space around it,
   * is asked for exactly that token.
   */
  lemma FriendTokenRoundTrip(t: Token, typed: string, lead: string, trail: string)
    requires IsToken(t)
    requires |typed| == |t| && forall i :: 0 <= i < |t| ==> UpperChar(typed[i]) == t[i]
    requires forall i :: 0 <= i < |lead| ==> IsJsSpace(lead[i])
    requires forall i :: 0 <= i < |trail| ==> IsJsSpace(trail[i])
    ensures Normalize(lead + typed + trail) == t
  {
    TypedTokenHasNoSpace(t, typed);
    var rest := typed + trail;
    assert lead + typed + trail == lead + rest;
    TrimStartSkips(lead, rest);
    TrimEndSkips(typed, trail);
    assert Trim(lead + typed + trail) == typed;
    assert Upper(typed) == t;
  }

  /** A typed token that differs from the page's own token yields a request for it once connected. */
  lemma FriendTokenAccepted(t: Token, typed: string, lead: string, trail: string, own: Token)
    requires IsToken(t) && t != own
    requires |typed| == |t| && forall i :: 0 <= i < |t| ==> UpperChar(typed[i]) == t[i]
    requires forall i :: 0 <= i < |lead| ==> IsJsSpace(lead[i])
    requires forall i :: 0 <= i < |trail| ==> IsJsSpace(trail[i])
    ensures CheckFriend(lead + typed + trail, own, true) == Request(t)
  {
    FriendTokenRoundTrip(t, typed, lead, trail);
  }

  /** The page's own token, however typed, is always refused as self-pairing, connected or not. */
  lemma OwnTokenRefused(own: Token, typed: string, lead: string, trail: string, connected: bool)
    requires IsToken(own)
    requires |typed| == |own| && forall i :: 0 <= i < |own| ==> UpperChar(typed[i]) == own[i]
    requires forall i :: 0 <= i < |lead| ==> IsJsSpace(lead[i])
    requires forall i :: 0 <= i < |trail| ==> IsJsSpace(trail[i])
    ensures CheckFriend(lead + typed + trail, own, connected) == SelfToken
  {
    FriendTokenRoundTrip(own, typed, lead, trail);
  }

  // ---------------------------------------------------------------------------
  // Strokes: start, draw*, stop
  // ---------------------------------------------------------------------------

  /**
   * Reads the actions passed to `sendDrawingPoint` as strokes: Some(open) when every
   * 'draw' and 'stop' falls inside a stroke begun by a 'start', open telling whether a
   * stroke is still in progress; None otherwise. A second 'start' restarts a stroke,
   * as a second mousedown does.
   */
  function Phase(acts: seq<Action>): Option<bool>
    decreases |acts|
  {
    if acts == [] then Some(false)
    else
      match Phase(acts[..|acts| - 1])
      case None => None
      case Some(open) =>
        var a := acts[|acts| - 1];
        if a == Start then Some(true)
        else if open then Some(a == Draw)
        else None
  }

  /** A 'start' at `j` followed only by 'draw's up to (not including) `i`. */
  ghost predicate OpenedAt(acts: seq<Action>, j: int, i: int)
    requires 0 <= j < i <= |acts|
  {
    acts[j] == Start && forall k :: j < k < i ==> acts[k] == Draw
  }

  /** Every 'draw' and 'stop' is preceded by a 'start' with only 'draw's in between. */
  ghost predicate Framed(acts: seq<Action>) {
    forall i :: 0 <= i < |acts| && acts[i] != Start ==>
      exists j :: 0 <= j < i && OpenedAt(acts, j, i)
  }

  /** What Phase accepts is framed strokes, and an open stroke has its 'start' followed only by 'draw's. */
  lemma {:induction false} PhaseFramed(acts: seq<Action>)
    requires Phase(acts).Some?
    ensures Framed(acts)
    ensures Phase(acts) == Some(true) ==> exists j :: 0 <= j < |acts| && OpenedAt(acts, j, |acts|)
    decreases |acts|
  {
    if acts != [] {
      var n := |acts| - 1;
      var pre := acts[..n];
      PhaseFramed(pre);
      var a := acts[n];
      forall i | 0 <= i < |acts| && acts[i] != Start
        ensures exists j :: 0 <= j < i && OpenedAt(acts, j, i)
      {
        if i < n {
          assert pre[i] == acts[i];
          var j :| 0 <= j < i && OpenedAt(pre, j, i);
          assert OpenedAt(acts, j, i);
        } else {
          var j :| 0 <= j < n && OpenedAt(pre, j, n);
          assert OpenedAt(acts, j, i);
        }
      }
      if Phase(acts) == Some(true) {
        if a == Start {
          assert OpenedAt(acts, n, |acts|);
        } else {
          var j :| 0 <= j < n && OpenedAt(pre, j, n);
          assert OpenedAt(acts, j, |acts|);
        }
      }
    }
  }

  /** Phase of one more action, read off the phase before it. */
  lemma PhaseSnoc(acts: seq<Action>, a: Action)
    ensures Phase(acts + [a]) ==
      match Phase(acts)
      case None => None
      case Some(open) => if a == Start then Some(true) else if open then Some(a == Draw) else None
  {
    assert (acts + [a])[..|acts|] == acts;
  }

  // ---------------------------------------------------------------------------
  // The page's module-level variables
  // ---------------------------------------------------------------------------

  class App {
    const token: Token
    const lineWidth: int
    var drawing: bool
    var hue: int
    var pairedWith: Option<Token>
    var connected: bool
    var last: Point
    /** Everything emitted on the socket. */
    var outbox: seq<Request>
    /** Every remote stroke point handed to `drawRemote`. */
    var rendered: seq<Stroke>
    /** Every action passed to `sendDrawingPoint`, sent or not. */
    ghost var actions: seq<Action>

    ghost predicate Valid()
      reads this
    {
      0 <= hue < 360 && Phase(actions) == Some(drawing)
    }

    /** `pairedWith` is truthy: set and not empty. */
    predicate Linked()
      reads this`pairedWith
    {
      pairedWith.Some? && Truthy(pairedWith.value)
    }

    /** The guard of `sendDrawingPoint` and `clearCanvas`: a connected socket and a truthy `pairedWith`. */
    predicate CanSend()
      reads this`connected, this`pairedWith
    {
      connected && Linked()
    }

    /** What `sendDrawingPoint(p, a)` emits from the current state. */
    function PointMsg(p: Point, a: Action): seq<Request>
      reads this`connected, this`pairedWith, this`hue
    {
      if CanSend() then [DrawingReq(Stroke(token, pairedWith.value, p, a, hue, lineWidth))] else []
    }

    /** `initApp`: generate the token from six random draws; not drawing, hue 0, unpaired, not yet connected. */
    constructor (draws: seq<real>, mobile: bool)
      requires |draws| == TokenLength
      requires forall i :: 0 <= i < |draws| ==> 0.0 <= draws[i] < 1.0
      ensures Valid() && IsToken(token)
      ensures lineWidth == (if mobile then 8 else 5)
      ensures !drawing && hue == 0 && pairedWith == None && !connected
      ensures outbox == [] && rendered == [] && actions == []
    {
      var t := GenerateToken(draws);
      token := t;
      lineWidth := if mobile then 8 else 5;
      drawing, hue, pairedWith, connected := false, 0, None, false;
      last := Point(0.0, 0.0);
      outbox, rendered, actions := [], [], [];
    }

    /** The socket's `connect` listener: register the token with the server. */
    method OnConnect()
      modifies this`connected, this`outbox
      ensures connected && outbox == old(outbox) + [RegisterReq(token)]
    {
      connected := true;
      outbox := outbox + [RegisterReq(token)];
    }

    /** The socket's `disconnect`: from now on `socket.connected` is false. */
    method OnDisconnect()
      modifies this`connected
      ensures !connected
    {
      connected := false;
    }

    /** `sendDrawingPoint`: emit one stroke point, only when connected and paired. */
    method SendDrawingPoint(p: Point, a: Action)
      modifies this`outbox, this`actions
      ensures actions == old(actions) + [a]
      ensures outbox == old(outbox) + PointMsg(p, a)
      ensures |outbox| > |old(outbox)| ==>
        var d := outbox[|outbox| - 1].data;
        && CanSend() && d.from == token && d.to == pairedWith.value
        && d.action == a && d.color == hue && d.width == lineWidth
    {
      actions := actions + [a];
      if !connected || !Linked() {
        return;
      }
      outbox := outbox + [DrawingReq(Stroke(token, pairedWith.value, p, a, hue, lineWidth))];
    }

    /** `startDrawing`: begin a stroke at `p` and send its 'start' point. */
    method StartDrawing(p: Point)
      requires Valid()
      modifies this`drawing, this`last, this`outbox, this`actions
      ensures Valid() && drawing && last == p
      ensures actions == old(actions) + [Start]
      ensures outbox == old(outbox) + old(PointMsg(p, Start))
    {
      drawing := true;
      last := p;
      PhaseSnoc(actions, Start);
      SendDrawingPoint(last, Start);
    }

    /** `draw`: only while drawing, send a 'draw' point in the current hue, then advance the hue. */
    method Draw(p: Point)
      requires Valid()
      modifies this`last, this`hue, this`outbox, this`actions
      ensures Valid()
      ensures old(drawing) ==> actions == old(actions) + [Action.Draw]
      ensures old(drawing) ==> outbox == old(outbox) + old(PointMsg(p, Action.Draw)) && last == p && hue == (old(hue) + 1) % 360
      ensures !old(drawing) ==> outbox == old(outbox) && last == old(last) && hue == old(hue) && actions == old(actions)
    {
      if !drawing {
        return;
      }
      PhaseSnoc(actions, Action.Draw);
      SendDrawingPoint(p, Action.Draw);
      last := p;
      hue := (hue + 1) % 360;
    }

    /** `stopDrawing`: only while drawing, end the stroke and send a 'stop' at the last point. */
    method StopDrawing()
      requires Valid()
      modifies this`drawing, this`outbox, this`actions
      ensures Valid() && !drawing
      ensures old(drawing) ==> actions == old(actions) + [Stop]
      ensures old(drawing) ==> outbox == old(outbox) + old(PointMsg(last, Stop))
      ensures !old(drawing) ==> outbox == old(outbox) && actions == old(actions)
    {
      if !drawing {
        return;
      }
      drawing := false;
      PhaseSnoc(actions, Stop);
      SendDrawingPoint(last, Stop);
    }

    /** `connectToFriend`: on a valid friend token, request pairing and treat it as paired at once. */
    method ConnectToFriend(input: string) returns (r: FriendOutcome)
      modifies this`outbox, this`pairedWith
      ensures r == CheckFriend(input, token, connected)
      ensures r.Request? ==> outbox == old(outbox) + [PairReq(token, r.friend)] && pairedWith == Some(r.friend)
      ensures !r.Request? ==> outbox == old(outbox) && pairedWith == old(pairedWith)
    {
      var friend := Normalize(input);
      if |friend| != TokenLength {
        return BadLength;
      }
      if friend == token {
        return SelfToken;
      }
      if !connected {
        return NotConnected;
      }
      outbox := outbox + [PairReq(token, friend)];
      pairedWith := Some(friend);
      r := Request(friend);
    }

    /** `clearCanvas`: tell the partner to clear, only when connected and paired. */
    method ClearCanvas()
      modifies this`outbox
      ensures outbox == old(outbox) + (if CanSend() then [ClearReq(token, pairedWith.value)] else [])
    {
      if connected && Linked() {
        outbox := outbox + [ClearReq(token, pairedWith.value)];
      }
    }

    /** The `paired` listener: whoever the server names becomes the partner. */
    method OnPaired(with: Token)
      modifies this`pairedWith
      ensures pairedWith == Some(with)
    {
      pairedWith := Some(with);
    }

    /** The `drawing` listener: a remote point is drawn only when it comes from the partner. */
    method OnDrawing(d: Stroke)
      modifies this`rendered
      ensures rendered == old(rendered) + (if pairedWith == Some(d.from) then [d] else [])
    {
      if pairedWith == Some(d.from) {
        rendered := rendered + [d];
      }
    }
  }

  /**
   * Pairing that arrives in the middle of a stroke: connect, press the pen, get paired, move.
   * The partner receives the 'draw' point but never the 'start' of its stroke.
   */
  method PairedMidStroke(draws: seq<real>, p: Point, q: Point, partner: Token) returns (sent: seq<Request>)
    requires |draws| == TokenLength
    requires forall i :: 0 <= i < |draws| ==> 0.0 <= draws[i] < 1.0
    requires Truthy(partner)
    ensures |sent| == 2 && sent[0].RegisterReq? && sent[1].DrawingReq?
    ensures sent[1].data.action == Action.Draw && sent[1].data.to == partner && sent[1].data.at == q
    ensures forall i :: 0 <= i < |sent| && sent[i].DrawingReq? ==> sent[i].data.action != Start
  {
    var app := new App(draws, false);
    app.OnConnect();
    app.StartDrawing(p);
    // Not yet paired: the 'start' point was not sent.
    assert app.outbox == [RegisterReq(app.token)];
    app.OnPaired(partner);
    assert app.Valid() && app.drawing && app.CanSend();
    app.Draw(q);
    sent := app.outbox;
  }
}
