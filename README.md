# Air-quality chat bot: routing, location store and report, in Dafny

This project models the core of a Telegram bot that reports air quality. The
bot's dispatcher tries three branches on each incoming message, in order:

1. the text is exactly `/start`, which runs `start`;
2. the message carries a location, which runs `handle_location`;
3. the text is exactly `🌫 Качество воздуха`, which runs `air_quality`.

Any other message is dropped without a reply. All three handlers share one
piece of state, a map from chat id to the last location that chat shared:

- `start` greets returning and new users differently.
- `handle_location` overwrites the chat's entry.
- `air_quality` either asks the user to share a location, or asks the
  provider for a reading at the stored location and sends a formatted report.

The report puts the AQI into one of five severity bands.

Modules, one per component:

- `Domain` (`domain.dfy`): messages, coordinates, the provider's response,
  keyboards, replies, and the `Effects` of one handler run (the reply handed
  to the transport, the coordinate the provider was asked about, and the
  handler's `Result`).
- `Store` (`store.dfy`): the `Users` map as a class whose `Insert` updates
  the map in place.
- `Report` (`report.dfy`): `format_message`. It covers the band classifier,
  Rust's decimal rendering of the AQI and the report layout. It also has a
  reader that parses a report back into its fields, which is the partner the
  round-trip lemmas connect to.
- `Handlers` (`handlers.dfy`): the three handlers of `src/main.rs` as methods
  on the store, the value-level functions that specify them, and the two
  keyboards.
- `Router` (`router.dfy`): the dispatcher's ordered branch list as a
  first-match search, one dispatch step, and lemmas over whole sequences of
  messages (last write wins, no fetch without a saved location).
- `Bot` (`bot.dfy`): the duplicate handlers and formatter of `src/bot.rs`,
  each proved to behave exactly like its `src/main.rs` counterpart.

The outside world enters as parameters:

- the provider's answer (`FetchOutcome`);
- the wall-clock time (a string already formatted as `%H:%M`);
- whether the transport accepts a reply (`delivered`).

Behaviour of the code that the model keeps as it is:

- Network failures, error HTTP statuses and undecodable bodies all reach the
  handler as one `anyhow::Error`, so the model has a single `FetchError`.
- The AQI bands start at 0, but the `match` ends in a wildcard arm, so a
  negative AQI lands in the hazardous band (`Report.StatusRanges`).
- The city name is inserted into the MarkdownV2 report without escaping its
  markup characters. The model does the same. The round trip in
  `Report.ReadReport` therefore has to be told the city's length, because the
  city may contain the very text that delimits it.

`src/bot.rs` is not declared as a module of the crate, so it is not
compiled. Its Cyrillic and emoji literals appear mis-decoded in the file. The
model treats them as the same words as in `src/main.rs`.

## Model

| member | source | states |
|---|---|---|
| `Domain.Send` | src/main.rs:111-121 | handing a reply to the transport records that reply; the handler's result is Ok exactly when the transport accepts it, and is `SendError` when it refuses (`send_message(..).await?`) |
| `Store.Users.constructor` | src/main.rs:35 | the location map starts empty |
| `Store.Lookup` | src/main.rs:76 | `HashMap::get` on the map's value: Some exactly for a key, holding the value stored under it |
| `Store.Users.ContainsKey` | src/main.rs:107 | `contains_key` holds exactly when a lookup of the chat id finds an entry |
| `Store.Users.Get` | src/main.rs:76 | a lookup returns the stored coordinate exactly when the chat id is a key |
| `Store.Users.Insert` | src/main.rs:132-134 | insert replaces the entry for this chat id (a following lookup returns exactly the new pair) and leaves every other key as it was |
| `Store.InsertTwice` | src/main.rs:132-134 | two `Insert` calls for the same chat leave the map as the second write alone, and a lookup then returns exactly the second coordinate |
| `Report.Status` | src/main.rs:169-175 | the band is hazardous exactly outside 0..=200; 0 is good; each other band of rank k covers exactly the 50 values (50k, 50k+50]; `StatusRanges` and `StatusCountsCutovers` characterize it further |
| `Report.Label` | src/main.rs:170-174 | each band's label opens with that band's own colour marker (so labels differ, `LabelInjective`) |
| `Report.StatusRanges` | src/main.rs:169-175 | each band is exactly one range: 0..=50, 51..=100, 101..=150, 151..=200; everything else, negative values included, is hazardous |
| `Report.StatusCountsCutovers` | src/main.rs:169-175 | for a non-negative AQI, the band's rank equals the number of cut-overs 50, 100, 150, 200 the value lies above (independent definition of the bands) |
| `Report.StatusMonotone` | src/main.rs:169-175 | on non-negative values the band never gets milder as the AQI rises, and each cut-over 50/51, 100/101, 150/151, 200/201 moves up exactly one band |
| `Report.LabelInjective` | src/main.rs:170-174 | the five band labels are pairwise different |
| `Report.Digits` | src/main.rs:183 | the rendered AQI is a non-empty run of decimal digits without a leading zero |
| `Report.DigitsRoundTrip` | src/main.rs:183 | the digits rendered for a non-negative value read back as that value |
| `Report.Decimal` | src/main.rs:183 | `{aqi}` is a non-empty string of digits, preceded by a minus sign exactly for negative values (`DecimalRoundTrip` reads it back) |
| `Report.DecimalRoundTrip` | src/main.rs:183 | the `{aqi}` rendering, with its minus sign for negative values, reads back as the AQI |
| `Report.NumericRunStops` | src/main.rs:183-184 | the AQI's digits end where the closing `*` of the bold markup begins |
| `Report.Layout` | src/main.rs:179-185 | the report is the title, city, time, AQI and status lines with the fields in order, and reads back (`ReadReport`, given the city's and the time's lengths) as exactly its city (verbatim, unescaped), its time, its AQI and its band |
| `Report.FormatMessage` | src/main.rs:167-186 | `format_message` reads back as the response's city unescaped, the time, the response's `aqius`, and the band `Status` assigns to it |
| `Handlers.LocationKeyboard` | src/main.rs:188-197 | one resized row with one button, labelled `📍 Отправить локацию`, which requests the device location |
| `Handlers.MainKeyboard` | src/main.rs:199-207 | one resized row with one plain button labelled `🌫 Качество воздуха` |
| `Handlers.KeyboardsDiffer` | src/main.rs:188-207 | the main-menu keyboard and the location keyboard are different keyboards |
| `Handlers.StartEffects` | src/main.rs:105-125 | a chat with a stored location gets the returning greeting and the main keyboard, one without gets the new-user greeting and the location keyboard; no provider call |
| `Handlers.Start` | src/main.rs:105-125 | `start` reads the store only (no modifies clause) and does what `StartEffects` states |
| `Handlers.SavedStore` | src/main.rs:128-134 | the message's location becomes this chat's entry, every other chat keeps its entry, and a message without a location changes nothing |
| `Handlers.LocationEffects` | src/main.rs:127-143 | a saved location is confirmed by echoing the coordinate with the main keyboard; a message without a location gets no reply and Ok |
| `Handlers.HandleLocation` | src/main.rs:127-143 | the store becomes `SavedStore` of the old store, and the store is written before the reply is sent, so it changes even when sending fails |
| `Handlers.AirQualityEffects` | src/main.rs:67-103 | the provider is called if and only if the chat has a stored location, and at that location; with no location the reply is "share location first" with the location keyboard and Ok; a fetch error is returned with no reply; a fetched reading is sent as the MarkdownV2 report with the main keyboard; whenever a reply is sent and the transport refuses it, the result is `SendError` |
| `Handlers.AirQuality` | src/main.rs:67-103 | `air_quality` reads the store only and does what `AirQualityEffects` states |
| `Router.Filter` | src/main.rs:39-54 | the three filters: text exactly `/start`; a location is attached; text present and exactly `🌫 Качество воздуха` (`map(..).unwrap_or(false)` is false without text) |
| `Router.Dispatch` | src/main.rs:37-56 | over the branch list `Branches` in the order `main` adds them, no handler runs exactly when no filter accepts, and the handler that runs is one whose filter accepts; `DispatchCases` gives the priority order |
| `Router.FirstMatchIndex` | src/main.rs:37-56 | the chosen branch is the first whose filter accepts the message: every earlier filter rejects it |
| `Router.DispatchCases` | src/main.rs:37-56 | `/start` runs `start` even with a location attached; a location with any other text (the air-quality label included) runs `handle_location`; the exact label without a location runs `air_quality`; everything else, a message without text included, runs nothing |
| `Router.MainButtonRunsAirQuality` | src/main.rs:48-56 | the main keyboard's button sends exactly the text the air-quality filter accepts |
| `Router.LocationButtonRunsHandleLocation` | src/main.rs:43-47 | the location keyboard's button shares a location, which the location branch accepts |
| `Router.Step` | src/main.rs:37-56 | one dispatch step: only the location branch changes the store, an unmatched message is ignored and changes nothing, and any provider call is made at the location stored for that chat |
| `Router.HandleUpdate` | src/main.rs:58-62 | handling one update on the shared store runs the dispatched handler and has the effect `Step` states |
| `Router.LastWriteWins` | src/main.rs:132-134 | after any sequence of messages, each chat's entry is the location from its last message that reached `handle_location`, or its old entry if it sent none |
| `Router.NoFetchWithoutLocation` | src/main.rs:76-88 | from a fresh store, a chat that never shared a location is asked to share one and the provider is not called |
| `Router.FetchAtLastSaved` | src/main.rs:90-92 | an air-quality request asks the provider about the chat's most recently saved location |
| `Router.StartGreetsReturning` | src/main.rs:106-122 | from a fresh store, `/start` gets the returning greeting exactly when the chat has shared a location before |
| `Router.FirstConversation` | src/main.rs:37-143 | `/start` for a new chat gets the new-user greeting with the location keyboard; sharing `c` stores `c` and is confirmed with `LocationSaved(c)` and the main keyboard; asking for the air quality fetches at `c` and reports the city, AQI 42 and the best band |
| `Bot.Status` | src/bot.rs:94-101 | the same five bands as `src/main.rs`; the wildcard arm takes values above 200 and negative values |
| `Bot.FormatMessage` | src/bot.rs:93-112 | the report shows the city unescaped, the time, the AQI and the band, and is the same text `src/main.rs` produces |
| `Bot.Start` | src/bot.rs:53-73 | reads the store only: a known chat gets the returning greeting with the main keyboard, an unknown one the new-user greeting with the location keyboard |
| `Bot.HandleLocation` | src/bot.rs:75-91 | overwrites this chat's entry only and replies echoing the coordinate with the main keyboard; without a location it writes nothing and sends nothing |
| `Bot.AirQuality` | src/bot.rs:15-51 | without a stored location it asks for one and returns Ok with no provider call; otherwise it makes one call at the stored location; an error is returned with no message, and a success is sent as the report with the main keyboard |

## Left out

- `fetch_air_quality` (`src/main.rs:145-164`, `src/api.rs:8-27`): the HTTP GET and the JSON decoding are not modelled. The provider's answer for the one request a handler may make is a parameter. Network, HTTP-status and decoding failures are one error, as in the code.
- The URL the request is sent to, and the API key, are not modelled: `ApiKey::from_env` and `env::var("AIR_API_KEY")` read the environment.
- Startup in `main` is not modelled: dotenv, tracing, `Bot::from_env` and building the dispatcher. Running the dispatcher is modelled one update at a time (`Router.HandleUpdate`).
- `Arc<RwLock<..>>` and the interleaving of concurrent handlers are not modelled. The store is used sequentially. So the model does not capture a location update racing an air-quality request from the same chat.
- Coordinates are kept as the bit patterns of the two `f64` values. The `{lat}, {lon}` rendering in the "location saved" reply is not modelled: the reply carries the coordinate itself (`LocationSaved(c)`).
- The fixed reply wordings are tags (`ReturningGreeting`, `NewUserGreeting`, `ShareLocationFirst`). Their Russian texts appear as comments where each tag is chosen. The router's literals, the keyboard labels and the report's literals are modelled exactly.
- `Local::now().format("%H:%M")` is not modelled: the time is an input string.
- Whether the transport accepts MarkdownV2 with unescaped markup characters in the city name is not modelled. The model keeps the city unescaped, as the code does.
- The dispatcher's logging of a handler's error is not modelled: the error is only returned in `Effects.result`.
- Of a Telegram message, only the chat id, the optional text and the optional location are modelled.
- The mis-decoded literals of `src/bot.rs` are not modelled as written. Its replies and keyboards are modelled with the `src/main.rs` words.
