// Wire vocabulary shared by the drawing client (draw.js) and the two relay
// servers (sever.js and server.js).

module Protocol {

  /** A pairing token. The client generates six characters; the servers accept any string. */
  type Token = string

  /** A socket.io connection id (`socket.id`), which is also the room `io.to(id)` addresses. */
  type ConnId = string

  datatype Option<T> = None | Some(value: T)

  /** The `action` field of a stroke point: 'start', 'draw' or 'stop'. */
  datatype Action = Start | Draw | Stop

  /** Normalised canvas coordinates; nothing in the relay core interprets them. */
  datatype Point = Point(x: real, y: real)

  /** The payload of a `drawing` event as the client builds it; the servers read only `to`. */
  datatype Stroke = Stroke(from: Token, to: Token, at: Point, action: Action, color: int, width: int)

  /** Client-to-server requests, one per event the client emits. */
  datatype Request =
    | RegisterReq(token: Token)
    | PairReq(from: Token, to: Token)
    | DrawingReq(data: Stroke)
    | ClearReq(from: Token, to: Token)

  /** JavaScript truthiness of a string: only the empty string is falsy. */
  predicate Truthy(s: string) {
    s != ""
  }
}
