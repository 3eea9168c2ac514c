# Home Draw: pairing and stroke relay, modelled in Dafny

Two browsers pair by a six-character token. Then each sees the other's pen strokes live. This project
models the core of that: the relay servers' registry and pairing state, and the client's pairing and
stroke state machine.

- `protocol.dfy` (module `Protocol`): tokens, socket ids, stroke payloads and the four requests a client
  emits (`register`, `pair`, `drawing`, `clear`).
- `sever.dfy` (module `Sever`, for `sever.js`): the fuller server. It keeps the `users` map (token to socket
  id), the `pairs` map (token to partner token), each socket's `socket.token`, and one outbox that
  receives every `socket.emit` and `io.to(id).emit`. Each handler is a pure transition of a `State` value.
  The class `Sever.Relay` holds the same state as mutable fields, and each handler method is proved to
  perform exactly its transition. Lemmas state what each handler does. Other lemmas cover whole traces:
  the outbox only grows, and every relayed stroke is a payload some socket sent, unchanged.
- `server.dfy` (module `Server`, for `server.js`): the older server. It has the same shape, with an object
  `users` and per-socket `token` and `pairedWith` fields. Pairing notifies only the target, with the
  text `Connected with <from>`. The relay event is called `draw`. Disconnection is silent. A trace lemma
  shows that `pairedWith` is written and never read.
- `variants.dfy` (module `Variants`): fed the same traffic, the two servers keep identical registries.
- `client.dfy` (module `Client`, for `draw.js`): token generation, the friend-token check (`trim`,
  `toUpperCase`, then three guards), and the class `Client.App`. `App` holds the page's variables
  (`drawing`, `hue`, `pairedWith`, `token`, whether the socket is connected) plus an outbox, and has
  methods for the stroke handlers, `clearCanvas` and the `paired`/`drawing` listeners.

The code is modelled as written. A pairing relay should give each token one owner, keep every
pairing mutual, refuse self-pairing and relay strokes only to the partner. Where the code does
otherwise, the model keeps the code's behaviour and a lemma shows it:

- Registering a token that another socket holds is not refused. The new socket silently takes the token
  over (`Sever.RegisterEffect`).
- The server does not refuse self-pairing. Only the client checks for it (`Sever.SelfPairAccepted`,
  `Client.OwnTokenRefused`).
- `drawing` and `clear` go to whoever owns `data.to`. The pairing table is never checked
  (`Sever.RelayIgnoresPairs`).
- Pairing two unpaired tokens keeps every pairing mutual (`Sever.PairUnpairedKeepsSymmetry`). Re-pairing
  a paired token with a new partner breaks this: moving A from B to C leaves B pointing at A
  (`Sever.RepairBreaksSymmetry`).
- A socket whose token was taken over by a newer socket still deletes that token when it leaves. The
  newer owner becomes unreachable (`Sever.StaleDisconnectDropsNewOwner`).
- JavaScript truthiness is kept. `if (socket.token)` and `if (pairedWith)` treat an empty string as absent.
  In `server.js`, `if (users[to])` also treats an empty socket id as absent.
- The stroke state machine (`Client.PhaseFramed`) covers every call to `sendDrawingPoint`. Each `draw` and
  `stop` follows a `start` with only `draw`s in between. `StartDrawing`, `Draw` and `StopDrawing` each add
  their action to that history. The messages actually emitted are the calls that pass the
  connected-and-paired guard. So if pairing happens mid-stroke, the partner sees a stroke without its
  `start` (`Client.PairedMidStroke`).

## Model

| member | source | states |
|---|---|---|
| `Sever.Register` | sever.js:23-30 | The `register` transition. Its contract is stated by `Sever.RegisterEffect`, and `Sever.Relay.OnRegister` performs it in place. |
| `Sever.Pair` | sever.js:33-49 | The `pair` transition. Its contract is stated by `Sever.PairFoundEffect` and `Sever.PairNotFoundEffect`, and `Sever.Relay.OnPair` performs it in place. |
| `Sever.RelayDrawing` | sever.js:52-57 | The `drawing` transition. Its contract is stated by `Sever.RelayDrawingEffect`, and `Sever.Relay.OnDrawing` performs it in place. |
| `Sever.RelayClear` | sever.js:60-65 | The `clear` transition. Its contract is stated by `Sever.RelayClearEffect`, and `Sever.Relay.OnClear` performs it in place. |
| `Sever.Disconnect` | sever.js:68-86 | The `disconnect` transition. Its contract is stated by `Sever.DisconnectEffect` and `Sever.DisconnectUnregisteredEffect`, and `Sever.Relay.OnDisconnect` performs it in place. |
| `Sever.RegisterEffect` | sever.js:23-30 | After `register`, the token maps to this socket even if another socket held it, and `socket.token` is set. Other tokens, other sockets' `socket.token` and `pairs` are unchanged. Exactly one `registered{success: true, token}` goes to the sender. |
| `Sever.PairFoundEffect` | sever.js:33-45 | When the target is registered, both directions are linked and other pairings are kept. `users` is unchanged. The requester gets `paired{with: to}` and the target's socket gets `paired{with: from}`, in that order. |
| `Sever.PairNotFoundEffect` | sever.js:46-48 | When the target is unknown, no map changes and exactly one `error{'User not found'}` goes to the requester. |
| `Sever.SelfPairAccepted` | sever.js:37-43 | Pairing a registered token with itself succeeds. The token is paired with itself and two `paired` notices are sent. |
| `Sever.RelayDrawingEffect` | sever.js:52-57 | A drawing payload goes, unchanged, to the current owner of `data.to` and to no one else. It goes nowhere if `data.to` is unregistered. No map changes. |
| `Sever.RelayClearEffect` | sever.js:60-65 | A clear sends only `{from}` to the owner of `to`, or nothing. No map changes. |
| `Sever.RelayIgnoresPairs` | sever.js:52-65 | Drawing and clear deliveries are the same whatever the pairing table holds. |
| `Sever.DisconnectUnregisteredEffect` | sever.js:68-69 | A socket without a truthy token disconnects without changing state or sending anything. |
| `Sever.DisconnectEffect` | sever.js:68-86 | The leaver's token is always removed from `users`. If it had a truthy partner, both `pairs` entries go. The partner, if still registered, gets one `disconnected{from}`. |
| `Sever.PairUnpairedKeepsSymmetry` | sever.js:37-39 | Pairing two unpaired tokens keeps every pairing mutual. |
| `Sever.DisconnectKeepsSymmetry` | sever.js:70-81 | Disconnecting keeps every pairing mutual. |
| `Sever.RepairBreaksSymmetry` | sever.js:37-39 | Pairing A with B and then A with C leaves B paired with A while A is paired with C. |
| `Sever.StaleDisconnectDropsNewOwner` | sever.js:68-83 | When the token's first owner leaves after a second socket re-registered it, the token disappears from `users`. |
| `Sever.StepAppends` | sever.js:19-87 | Every handler only appends to the outbox, at most two messages. |
| `Sever.RunAppends` | sever.js:19-87 | Over any sequence of events, earlier messages are never withdrawn. At most two messages are sent per event. |
| `Sever.StepDrawingOrigin` | sever.js:52-57 | Any drawing message a handler emits comes from a `drawing` request carrying that exact payload. It is addressed to the owner of the payload's `to`. |
| `Sever.RunRelaysVerbatim` | sever.js:52-57 | Over any sequence of events, every drawing message emitted is the unchanged payload of some received `drawing` request. |
| `Sever.InboxAppend` | sever.js:19-87 | A socket's received messages for two outboxes back to back are its messages from the first, then from the second. |
| `Sever.SessionScenario` | sever.js:19-87 | Register ABCD23 and XYZQ99, pair, draw, and let ABCD23 leave. XYZQ99's socket gets exactly its ack, the pairing, the identical stroke and one disconnection notice. XYZQ99 stays registered and unpaired, and ABCD23 is freed. |
| `Sever.Relay.constructor` | sever.js:16-17 | The server starts with both maps empty and nothing sent. |
| `Sever.Relay.OnRegister` | sever.js:23-30 | The `register` handler updates the fields in place, exactly as the transition `Register` does. |
| `Sever.Relay.OnPair` | sever.js:33-49 | The `pair` handler updates the fields in place exactly as `Pair` does, linking both directions on success. |
| `Sever.Relay.OnDrawing` | sever.js:52-57 | The `drawing` handler appends exactly what `RelayDrawing` appends and changes nothing else. |
| `Sever.Relay.OnClear` | sever.js:60-65 | The `clear` handler appends exactly what `RelayClear` appends and changes nothing else. |
| `Sever.Relay.OnDisconnect` | sever.js:68-86 | The `disconnect` handler performs `Disconnect`. Afterwards the leaver's truthy token is no longer in `users`. |
| `Server.Register` | server.js:15-19 | The `register` transition. Its contract is stated by `Server.RegisterEffect`, and `Server.Relay.OnRegister` performs it in place. |
| `Server.Pair` | server.js:21-27 | The `pair` transition. Its contract is stated by `Server.PairKnownEffect` and `Server.PairUnknownEffect`, and `Server.Relay.OnPair` performs it in place. |
| `Server.RelayDraw` | server.js:29-33 | The `draw` transition. Its contract is stated by `Server.RelayDrawEffect`, and `Server.Relay.OnDraw` performs it in place. |
| `Server.Disconnect` | server.js:35-38 | The `disconnect` transition. Its contract is stated by `Server.DisconnectEffect`, and `Server.Relay.OnDisconnect` performs it in place. |
| `Server.RegisterEffect` | server.js:15-19 | `register` maps the token to this socket, overwriting any owner, and sets `socket.token`. Other tokens, other sockets' `socket.token` and every `pairedWith` are unchanged. It sends nothing. |
| `Server.PairKnownEffect` | server.js:21-26 | For a known target, the target only gets one `paired` notice naming the requester. The notice is `Connected with ` followed by the requester's token. The requester's `pairedWith` becomes `to`. No other socket's `pairedWith` is added or changed. |
| `Server.PairUnknownEffect` | server.js:23 | For an unknown target, `pair` changes nothing and sends nothing. |
| `Server.RelayDrawEffect` | server.js:29-33 | `draw` forwards the payload unchanged to the owner of `data.to` if known, and otherwise does nothing. No field changes. |
| `Server.DisconnectEffect` | server.js:35-38 | `disconnect` removes only the socket's own truthy token from `users`, and sends nothing. |
| `Server.StepIgnoresPairedWith` | server.js:21-38 | No handler's effect on `users`, `socket.token` or the outbox depends on any `pairedWith` field. |
| `Server.RunIgnoresPairedWith` | server.js:21-38 | Over any sequence of events, deliveries and the registry do not depend on `pairedWith`. |
| `Server.Relay.constructor` | server.js:10 | The server starts with an empty `users` object and nothing sent. |
| `Server.Relay.OnRegister` | server.js:15-19 | The `register` handler performs `Register` in place. |
| `Server.Relay.OnPair` | server.js:21-27 | The `pair` handler performs `Pair` in place. |
| `Server.Relay.OnDraw` | server.js:29-33 | The `draw` handler performs `RelayDraw` in place. |
| `Server.Relay.OnDisconnect` | server.js:35-38 | The `disconnect` handler performs `Disconnect` in place. |
| `Variants.StepSameRegistry` | server.js:15-36 | One event keeps the two servers' token-to-socket maps and socket tokens equal. |
| `Variants.RegistriesAgree` | sever.js:23-83 | Over any sequence of events, the two servers keep equal registries. `server.js` has no `clear` handler and calls the drawing event `draw`. |
| `Client.AlphabetMembers` | draw.js:56 | The token alphabet has 32 characters: exactly the upper-case letters other than I and O, and the digits 2 to 9. |
| `Client.Pick` | draw.js:59 | A random draw in [0, 1) always selects a character of the alphabet. |
| `Client.GenerateToken` | draw.js:55-61 | The token has six characters, each chosen by one draw, so every character is in the alphabet. |
| `Client.TrimStart` | draw.js:297 | The result is a suffix of the input. Only white space is dropped, and the result does not start with white space. |
| `Client.TrimEnd` | draw.js:297 | The result is a prefix of the input. Only white space is dropped, and the result does not end with white space. |
| `Client.Upper` | draw.js:297 | Upper-casing keeps the length and maps each character on its own. |
| `Client.CheckFriend` | draw.js:296-312 | The normalised input gives a pairing request iff its length is 6, it differs from the own token and the socket is connected. A length other than 6 is reported first, then the own token. |
| `Client.Trim` | draw.js:297 | `trim()`. Its contract is stated by `Client.TrimStart`, `Client.TrimEnd`, `Client.TrimStartSkips` and `Client.TrimEndSkips`. |
| `Client.Normalize` | draw.js:297 | `trim().toUpperCase()`. `Client.FriendTokenRoundTrip` states that it returns a displayed token typed in any case with surrounding white space unchanged. |
| `Client.TrimStartSkips` | draw.js:297 | Leading white space before a non-space character is removed entirely. |
| `Client.TrimEndSkips` | draw.js:297 | Trailing white space after a non-space character is removed entirely. |
| `Client.TypedTokenHasNoSpace` | draw.js:56 | No character of a token, typed in any case, is white space, so trimming never eats into it. |
| `Client.FriendTokenRoundTrip` | draw.js:297 | A displayed token typed in any mix of cases, with any surrounding white space, normalises back to that token. |
| `Client.FriendTokenAccepted` | draw.js:296-326 | Such a typed token, different from the own token, yields a pairing request for exactly that token once connected. |
| `Client.OwnTokenRefused` | draw.js:304-307 | The page's own token, however typed, is always refused as self-pairing. |
| `Client.Phase` | draw.js:117-166 | Reads the actions passed to `sendDrawingPoint` as strokes. `Client.PhaseFramed` states what it accepts, and `Client.App.Valid` ties it to `drawing`. |
| `Client.PhaseFramed` | draw.js:117-166 | Every `draw` and `stop` passed to `sendDrawingPoint` follows a `start` with only `draw`s in between. An open stroke is such a start followed by draws. |
| `Client.PhaseSnoc` | draw.js:117-166 | The stroke phase after one more action follows from the phase before it. |
| `Client.App.constructor` | draw.js:2-39 | The page starts not drawing, hue 0, unpaired and not connected, with a generated token. The line width is 8 on mobile and 5 otherwise. |
| `Client.App.OnConnect` | draw.js:223-232 | On connecting, the page sends exactly `register{token}`. |
| `Client.App.OnDisconnect` | draw.js:242-245 | After a disconnection the socket counts as not connected. |
| `Client.App.SendDrawingPoint` | draw.js:189-204 | A point is emitted only when connected and paired. It carries `from = token`, `to = pairedWith`, the action, the current hue and the line width. |
| `Client.App.StartDrawing` | draw.js:117-130 | Starting sets `drawing`, records `start` in the stroke history and sends a `start` point when connected and paired. |
| `Client.App.Draw` | draw.js:133-152 | While drawing, records `draw` in the stroke history, sends a `draw` point in the current hue and then advances the hue by 1 mod 360. Otherwise it changes nothing. The hue stays in [0, 360). |
| `Client.App.StopDrawing` | draw.js:155-166 | While drawing, clears `drawing`, records `stop` in the stroke history and sends `stop` at the last point. Otherwise it changes nothing. |
| `Client.App.ConnectToFriend` | draw.js:296-326 | Returns the `CheckFriend` outcome. Only on success does it emit `pair{from: token, to: friend}` and set `pairedWith` to the friend, before any confirmation. |
| `Client.App.ClearCanvas` | draw.js:353-364 | Emits `clear{from: token, to: pairedWith}` only when connected and paired. |
| `Client.App.OnPaired` | draw.js:255-260 | A `paired` message makes `data.with` the partner. |
| `Client.App.OnDrawing` | draw.js:248-252 | A remote point is rendered only when its `from` equals `pairedWith`. |
| `Client.PairedMidStroke` | draw.js:117-152 | Connect, start a stroke, get paired, then move: the page sends its `register` and one `draw` point to the partner, and never that stroke's `start`. |

## Left out

- Express/HTTP setup, CORS, static files, `server.listen` and all logging. This is plumbing.
- The socket.io transport: connection setup, reconnection and the `connect_error` retry, and the echo
  `message` listener. Room delivery through `io.to(id)` is an append to the outbox.
- Canvas work: resizing, pixel-ratio scaling, touch-to-mouse translation, coordinate normalisation and
  `drawRemote`'s geometry. Coordinates are opaque values, and a rendered remote point is recorded
  in `rendered`.
- Theme, menu, status text, alerts and the timezone selector. The three alerts of `connectToFriend` are
  the returned `FriendOutcome`.
- `Math.random`: the six draws are parameters in [0, 1).
- The client's remote `clear` listener (draw.js:412-416). It is attached only if `socket` is set when the
  script loads, and `socket` is still `null` then, so it never runs.
- Concurrency: Node runs each handler to completion, so each handler is one atomic transition.
- The constant `type` tags inside client payloads. Values of the wrong type, such as a missing `token`
  or a non-string field, are also left out, because payloads are typed. So is the mismatch between
  draw.js and server.js: the client sends `register` as an object, emits `drawing` rather than `draw`, and
  reads `data.with` from a `paired` message that server.js sends as a plain string.
- In server.js, inherited properties of the `users` object (such as a token named `constructor`) and
  JavaScript's conversion of keys to strings.
- Client.Upper: only ASCII a-z are upper-cased. The rest of Unicode case mapping, including mappings that
  change length such as `ß` to `SS`, is not modelled.
- Client.CheckFriend: lengths are counted in Unicode scalar values, whereas JavaScript counts UTF-16
  code units.
