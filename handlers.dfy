/** The three message handlers of `src/main.rs` (`start`, `handle_location`,
    `air_quality`) and the two reply keyboards they attach. Each handler is
    a method on the shared `Users` store; the effect functions beside them
    state, on values, what one run does. */
module Handlers {
  import opened Domain
  import opened Store
  import opened Report

  /** The text of the main menu's only button. */
  const AirQualityButtonText := "🌫 Качество воздуха"

  /** The text of the button that shares the device location. */
  const ShareLocationButtonText := "📍 Отправить локацию"

  /** `get_location_keyboard()`: one button, which shares the location. */
  function LocationKeyboard(): (k: Keyboard)
    ensures k.resize && |k.rows| == 1 && |k.rows[0]| == 1
    ensures k.rows[0][0].requestsLocation && k.rows[0][0].text == ShareLocationButtonText
  {
    Keyboard([[Button(ShareLocationButtonText, true)]], true)
  }

  /** `get_main_keyboard()`: one plain button asking for the air quality. */
  function MainKeyboard(): (k: Keyboard)
    ensures k.resize && |k.rows| == 1 && |k.rows[0]| == 1
    ensures !k.rows[0][0].requestsLocation && k.rows[0][0].text == AirQualityButtonText
  {
    Keyboard([[Button(AirQualityButtonText, false)]], true)
  }

  /** The two keyboards are told apart by whether their button shares a
      location. */
  lemma KeyboardsDiffer()
    ensures MainKeyboard() != LocationKeyboard()
  {
    assert MainKeyboard().rows[0][0].requestsLocation != LocationKeyboard().rows[0][0].requestsLocation;
  }

  // ----- start --------------------------------------------------------------

  /** What `start` does for `chat` when the store holds `entries`: it only
      reads the store, greets a returning chat with the main menu and a new
      one with the location keyboard, and never calls the provider. */
  function StartEffects(entries: Entries, chat: ChatId, delivered: bool): (e: Effects)
    ensures e.fetchedAt == None
    ensures chat in entries <==> e.reply == Some(Reply(ReturningGreeting, MainKeyboard(), Plain))
    ensures chat !in entries <==> e.reply == Some(Reply(NewUserGreeting, LocationKeyboard(), Plain))
    ensures e.result.Ok? <==> delivered
  {
    if chat in entries then
      // "С возвращением! Нажми кнопку, чтобы проверить качество воздуха."
      Send(Reply(ReturningGreeting, MainKeyboard(), Plain), None, delivered)
    else
      // "Привет! Отправь своё местоположение, чтобы узнать качество воздуха рядом с тобой."
      Send(Reply(NewUserGreeting, LocationKeyboard(), Plain), None, delivered)
  }

  /** `start`. It has no `modifies` clause: it cannot change the store. */
  method Start(users: Users, msg: Message, delivered: bool) returns (eff: Effects)
    ensures eff == StartEffects(users.entries, msg.chat, delivered)
  {
    var hasLocation := users.ContainsKey(msg.chat);
    if hasLocation {
      eff := Send(Reply(ReturningGreeting, MainKeyboard(), Plain), None, delivered);
    } else {
      eff := Send(Reply(NewUserGreeting, LocationKeyboard(), Plain), None, delivered);
    }
  }

  // ----- handle_location ----------------------------------------------------

  /** The store after `handle_location` sees `msg`: the message's location
      replaces whatever this chat had, every other chat keeps its entry, and
      a message without a location changes nothing. */
  function SavedStore(entries: Entries, msg: Message): (r: Entries)
    ensures msg.location.Some? ==> Lookup(r, msg.chat) == msg.location
    ensures msg.location.Some? ==> r.Keys == entries.Keys + {msg.chat}
    ensures forall k :: k != msg.chat ==> Lookup(r, k) == Lookup(entries, k)
    ensures msg.location.None? ==> r == entries
  {
    match msg.location
    case Some(c) => entries[msg.chat := c]
    case None => entries
  }

  /** What else `handle_location` does: it confirms a saved location with
      the main menu, and does nothing at all for a message without one. */
  function LocationEffects(msg: Message, delivered: bool): (e: Effects)
    ensures e.fetchedAt == None
    ensures msg.location.None? ==> e.reply == None && e.result == Ok(())
    ensures msg.location.Some? ==>
      e.reply == Some(Reply(LocationSaved(msg.location.value), MainKeyboard(), Plain))
      && (e.result.Ok? <==> delivered)
  {
    match msg.location
    // "✅ Местоположение сохранено: {lat}, {lon}"
    case Some(c) => Send(Reply(LocationSaved(c), MainKeyboard(), Plain), None, delivered)
    case None => Effects(None, None, Ok(()))
  }

  /** `handle_location`. The write completes before the reply is handed to
      the transport, so the store is updated even when sending fails. */
  method HandleLocation(users: Users, msg: Message, delivered: bool) returns (eff: Effects)
    modifies users
    ensures users.entries == SavedStore(old(users.entries), msg)
    ensures eff == LocationEffects(msg, delivered)
  {
    eff := Effects(None, None, Ok(()));
    if msg.location.Some? {
      var location := msg.location.value;
      users.Insert(msg.chat, location);
      eff := Send(Reply(LocationSaved(location), MainKeyboard(), Plain), None, delivered);
    }
  }

  // ----- air_quality --------------------------------------------------------

  /** What `air_quality` does for `chat`: without a stored location it asks
      for one and stops, without calling the provider; otherwise it calls
      the provider exactly once, at the stored location, and either sends
      the report with the main menu or fails with the provider's error
      without sending anything. It never changes the store. */
  function AirQualityEffects(entries: Entries, chat: ChatId, fetch: FetchOutcome, time: string, delivered: bool): (e: Effects)
    ensures e.fetchedAt == Lookup(entries, chat)
    ensures chat !in entries ==> e.reply == Some(Reply(ShareLocationFirst, LocationKeyboard(), Plain))
    ensures chat in entries && fetch.FetchFailed? ==> e.reply == None && e.result == Err(FetchError)
    ensures chat in entries && fetch.Fetched? ==>
      e.reply == Some(Reply(AirReport(FormatMessage(fetch.resp, time)), MainKeyboard(), MarkdownV2))
    ensures e.result.Ok? <==> (chat !in entries || fetch.Fetched?) && delivered
    ensures (chat !in entries || fetch.Fetched?) && !delivered ==> e.result == Err(SendError)
  {
    match Lookup(entries, chat)
    case None =>
      // "❗ Сначала поделись местоположением"
      Send(Reply(ShareLocationFirst, LocationKeyboard(), Plain), None, delivered)
    case Some(location) =>
      match fetch
      case FetchFailed => Effects(None, Some(location), Err(FetchError))
      case Fetched(resp) =>
        Send(Reply(AirReport(FormatMessage(resp, time)), MainKeyboard(), MarkdownV2), Some(location), delivered)
  }

  /** `air_quality`, given what the provider answers for this request and
      the wall-clock time. It has no `modifies` clause. */
  method AirQuality(users: Users, msg: Message, fetch: FetchOutcome, time: string, delivered: bool)
    returns (eff: Effects)
    ensures eff == AirQualityEffects(users.entries, msg.chat, fetch, time, delivered)
  {
    var chatId := msg.chat;
    var location: Coord;
    match users.Get(chatId) {
      case Some(c) =>
        location := c;
      case None =>
        eff := Send(Reply(ShareLocationFirst, LocationKeyboard(), Plain), None, delivered);
        return;
    }
    match fetch {
      case FetchFailed =>
        eff := Effects(None, Some(location), Err(FetchError));
        return;
      case Fetched(resp) =>
        var body := FormatMessage(resp, time);
        eff := Send(Reply(AirReport(body), MainKeyboard(), MarkdownV2), Some(location), delivered);
    }
  }
}
