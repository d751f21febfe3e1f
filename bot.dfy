/** `src/bot.rs`: a second copy of the handlers and of `format_message`,
    written against `crate::Users` and `api::fetch_air_quality`. Each copy
    here follows the lines of that file and is proved to behave exactly as
    the `src/main.rs` version does. Its text literals are the same words as
    in `src/main.rs` (see the README), so replies and keyboards are the
    same values. */
module Bot {
  import opened Domain
  import opened Store
  import Report
  import Handlers

  /** The `match aqi` of this file's `format_message`: the wildcard arm takes
      values above 200 and negative values alike, as in `src/main.rs`. */
  function Status(aqi: int): (b: Report.Band)
    ensures b == Report.Status(aqi)
    ensures b == Report.Hazardous <==> aqi < 0 || aqi > 200
  {
    if 0 <= aqi <= 50 then Report.Good
    else if 51 <= aqi <= 100 then Report.Moderate
    else if 101 <= aqi <= 150 then Report.UnhealthyForSensitive
    else if 151 <= aqi <= 200 then Report.Unhealthy
    else Report.Hazardous
  }

  /** This file's `format_message`: the report shows the city verbatim (no
      escaping), the time, the AQI and the band, and is the same text
      `src/main.rs` produces. */
  function FormatMessage(resp: AirResponse, time: string): (r: string)
    ensures var aqi := resp.data.current.pollution.aqius as int;
      Report.ReadReport(r, |resp.data.city|, |time|)
        == Some(Report.Fields(resp.data.city, time, aqi, Report.Status(aqi)))
    ensures r == Report.FormatMessage(resp, time)
  {
    var aqi := resp.data.current.pollution.aqius as int;
    var city := resp.data.city;
    Report.Layout(city, time, aqi, Status(aqi))
  }

  /** This file's `start`: reads the store only. */
  method Start(users: Users, msg: Message, delivered: bool) returns (eff: Effects)
    ensures eff == Handlers.StartEffects(users.entries, msg.chat, delivered)
    ensures msg.chat in users.entries ==> eff.reply.value.keyboard == Handlers.MainKeyboard()
    ensures msg.chat !in users.entries ==> eff.reply.value.keyboard == Handlers.LocationKeyboard()
  {
    var hasLocation := users.ContainsKey(msg.chat);
    if hasLocation {
      eff := Send(Reply(ReturningGreeting, Handlers.MainKeyboard(), Plain), None, delivered);
    } else {
      eff := Send(Reply(NewUserGreeting, Handlers.LocationKeyboard(), Plain), None, delivered);
    }
  }

  /** This file's `handle_location`: overwrites this chat's entry only and
      confirms with the main menu; a message without a location is a no-op. */
  method HandleLocation(users: Users, msg: Message, delivered: bool) returns (eff: Effects)
    modifies users
    ensures users.entries == Handlers.SavedStore(old(users.entries), msg)
    ensures eff == Handlers.LocationEffects(msg, delivered)
    ensures msg.location.None? ==> users.entries == old(users.entries) && eff.reply == None
  {
    if msg.location.Some? {
      var location := msg.location.value;
      users.Insert(msg.chat, location);
      eff := Send(Reply(LocationSaved(location), Handlers.MainKeyboard(), Plain), None, delivered);
    } else {
      eff := Effects(None, None, Ok(()));
    }
  }

  /** This file's `air_quality`: without a stored location it asks for one
      and returns Ok without calling the provider; otherwise one call, whose
      error is returned through `?` with nothing sent. */
  method AirQuality(users: Users, msg: Message, fetch: FetchOutcome, time: string, delivered: bool)
    returns (eff: Effects)
    ensures eff == Handlers.AirQualityEffects(users.entries, msg.chat, fetch, time, delivered)
    ensures msg.chat !in users.entries ==> eff.fetchedAt == None && (eff.result.Ok? <==> delivered)
  {
    var chatId := msg.chat;
    var location: Coord;
    match users.Get(chatId) {
      case Some(c) =>
        location := c;
      case None =>
        eff := Send(Reply(ShareLocationFirst, Handlers.LocationKeyboard(), Plain), None, delivered);
        return;
    }
    match fetch {
      case FetchFailed =>
        eff := Effects(None, Some(location), Err(FetchError));
      case Fetched(resp) =>
        var body := FormatMessage(resp, time);
        eff := Send(Reply(AirReport(body), Handlers.MainKeyboard(), MarkdownV2), Some(location), delivered);
    }
  }
}
