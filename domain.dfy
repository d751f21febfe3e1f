/** Values exchanged between the chat transport, the location store, the
    air-quality provider and the message handlers of the bot. */
module Domain {

  datatype Option<T> = None | Some(value: T)

  datatype Result<T, E> = Ok(value: T) | Err(error: E)

  /** Rust's `i64`, the type of `ChatId.0`, the key of the location map. */
  newtype i64 = x: int | -0x8000_0000_0000_0000 <= x < 0x8000_0000_0000_0000

  /** Rust's `i32`, the type of the provider's `aqius` field. */
  newtype i32 = x: int | -0x8000_0000 <= x < 0x8000_0000

  type ChatId = i64

  /** A shared location `(latitude, longitude)`. Each `f64` is kept as its
      64-bit pattern: the bot stores and echoes coordinates but never
      computes with them. */
  datatype Coord = Coord(lat: bv64, lon: bv64)

  /** The parts of an inbound message the bot looks at: the chat it came
      from, its optional text and its optional attached location. */
  datatype Message = Message(chat: ChatId, text: Option<string>, location: Option<Coord>)

  /** The provider's JSON body `{ data: { city, current: { pollution: { aqius } } } }`. */
  datatype Pollution = Pollution(aqius: i32)
  datatype AirCurrent = AirCurrent(pollution: Pollution)
  datatype AirData = AirData(city: string, current: AirCurrent)
  datatype AirResponse = AirResponse(data: AirData)

  /** What the provider would answer for the one request a handler may make.
      Network, HTTP-status and decoding failures are one error, as in the
      source, where all of them reach the handler as a single `anyhow::Error`. */
  datatype FetchOutcome = Fetched(resp: AirResponse) | FetchFailed

  /** A reply-keyboard button: its text, and whether pressing it shares the
      user's device location. */
  datatype Button = Button(text: string, requestsLocation: bool)

  /** A reply keyboard: rows of buttons, and the `resize_keyboard` flag. */
  datatype Keyboard = Keyboard(rows: seq<seq<Button>>, resize: bool)

  datatype ParseMode = Plain | MarkdownV2

  /** The five kinds of text the bot sends. The fixed Russian wordings are
      named in comments where they are chosen; `AirReport` carries the
      formatted report itself. */
  datatype ReplyText =
    | ReturningGreeting
    | NewUserGreeting
    | LocationSaved(at: Coord)
    | ShareLocationFirst
    | AirReport(body: string)

  datatype Reply = Reply(text: ReplyText, keyboard: Keyboard, mode: ParseMode)

  /** The two ways a handler can fail: the provider request, or handing a
      reply to the transport (`send_message(..).await?`). */
  datatype Error = FetchError | SendError

  /** What one handler run does besides changing the store: the reply it
      hands to the transport (if any), the coordinate it asks the provider
      about (if it calls the provider at all), and the handler's result. */
  datatype Effects = Effects(reply: Option<Reply>, fetchedAt: Option<Coord>, result: Result<(), Error>)

  /** Handing `reply` to the transport as the last step of a handler. */
  function Send(reply: Reply, fetchedAt: Option<Coord>, delivered: bool): (e: Effects)
    ensures e.reply == Some(reply) && e.fetchedAt == fetchedAt
    ensures e.result.Ok? <==> delivered
    ensures !delivered ==> e.result == Err(SendError)
  {
    Effects(Some(reply), fetchedAt, if delivered then Ok(()) else Err(SendError))
  }
}
