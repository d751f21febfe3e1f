/** The dispatcher built in `main`: three branches, each a filter on the
    message and a handler, tried in order; the first whose filter holds
    runs and a message no filter accepts is dropped silently. Over a
    sequence of messages this is a state machine whose only state is the
    location store. */
module Router {
  import opened Domain
  import opened Store
  import opened Report
  import opened Handlers

  /** The handler a branch ends in. */
  datatype Endpoint = OnStart | OnLocation | OnAirQuality

  const StartCommand := "/start"

  /** The text the air-quality branch's filter compares against. */
  const AirQualityCommand := "🌫 Качество воздуха"

  /** The filter of the branch that ends in `e`. */
  predicate Filter(e: Endpoint, m: Message): (b: bool)
    ensures e == OnStart ==> (b <==> m.text == Some(StartCommand))
    ensures e == OnLocation ==> (b <==> m.location.Some?)
    ensures e == OnAirQuality ==> (b <==> m.text == Some(AirQualityCommand))
  {
    match e
    case OnStart => m.text == Some(StartCommand)
    case OnLocation => m.location.Some?
    case OnAirQuality =>
      match m.text
      case Some(t) => t == AirQualityCommand
      case None => false
  }

  /** The branches in the order `main` adds them. */
  const Branches: seq<Endpoint> := [OnStart, OnLocation, OnAirQuality]

  /** The position of the first branch in `bs` whose filter accepts `m`,
      or `|bs|` when none does. */
  function FirstMatchIndex(bs: seq<Endpoint>, m: Message): (i: nat)
    ensures i <= |bs|
    ensures forall j :: 0 <= j < i ==> !Filter(bs[j], m)
    ensures i < |bs| ==> Filter(bs[i], m)
    decreases |bs|
  {
    if bs == [] then 0
    else if Filter(bs[0], m) then 0
    else 1 + FirstMatchIndex(bs[1..], m)
  }

  /** The handler the dispatcher runs for `m`, if any. */
  function Dispatch(m: Message): (r: Option<Endpoint>)
    ensures r.None? <==> forall e :: e in Branches ==> !Filter(e, m)
    ensures r.Some? ==> r.value in Branches && Filter(r.value, m)
  {
    var i := FirstMatchIndex(Branches, m);
    if i < |Branches| then Some(Branches[i]) else None
  }

  /** Which handler runs, in terms of the message alone: `/start` wins even
      over an attached location; a location wins over the air-quality text;
      the air-quality text runs `air_quality` only without a location; and
      everything else, a message without text included, is dropped. */
  lemma DispatchCases(m: Message)
    ensures Dispatch(m) == Some(OnStart) <==> m.text == Some(StartCommand)
    ensures Dispatch(m) == Some(OnLocation) <==> m.location.Some? && m.text != Some(StartCommand)
    ensures Dispatch(m) == Some(OnAirQuality) <==> m.location.None? && m.text == Some(AirQualityCommand)
    ensures Dispatch(m) == None <==>
      m.location.None? && m.text != Some(StartCommand) && m.text != Some(AirQualityCommand)
  {
    var i := FirstMatchIndex(Branches, m);
    assert Branches[0] == OnStart && Branches[1] == OnLocation && Branches[2] == OnAirQuality;
    if m.text == Some(StartCommand) {
      assert i == 0;
    } else if m.location.Some? {
      assert !Filter(Branches[0], m) && Filter(Branches[1], m);
      assert i == 1;
    } else if m.text == Some(AirQualityCommand) {
      assert !Filter(Branches[0], m) && !Filter(Branches[1], m) && Filter(Branches[2], m);
      assert i == 2;
    } else {
      assert !Filter(Branches[0], m) && !Filter(Branches[1], m) && !Filter(Branches[2], m);
      assert i == 3;
    }
  }

  /** The main menu's button sends the text that the air-quality branch
      accepts, so pressing it runs `air_quality`. */
  lemma MainButtonRunsAirQuality(chat: ChatId)
    ensures Dispatch(Message(chat, Some(MainKeyboard().rows[0][0].text), None)) == Some(OnAirQuality)
  {
    DispatchCases(Message(chat, Some(MainKeyboard().rows[0][0].text), None));
  }

  /** The location keyboard's button shares a location without text, so
      pressing it runs `handle_location`. */
  lemma LocationButtonRunsHandleLocation(chat: ChatId, c: Coord)
    ensures LocationKeyboard().rows[0][0].requestsLocation
    ensures Dispatch(Message(chat, None, Some(c))) == Some(OnLocation)
  {
    DispatchCases(Message(chat, None, Some(c)));
  }

  // ----- One message --------------------------------------------------------

  /** A message together with what the outside world does while it is
      handled: the provider's answer if asked, the wall-clock time, and
      whether the transport accepts the reply. */
  datatype Input = Input(msg: Message, fetch: FetchOutcome, time: string, delivered: bool)

  datatype Outcome = Ignored | Ran(endpoint: Endpoint, effects: Effects)

  /** One dispatch step on the store's value. Only `handle_location` writes
      the store, and the provider is only ever asked about a location the
      store holds for the message's chat. */
  function Step(entries: Entries, inp: Input): (r: (Entries, Outcome))
    ensures r.0 == if Dispatch(inp.msg) == Some(OnLocation) then SavedStore(entries, inp.msg) else entries
    ensures r.1.Ignored? <==> Dispatch(inp.msg).None?
    ensures r.1.Ran? ==> Dispatch(inp.msg) == Some(r.1.endpoint)
    ensures r.1.Ran? && r.1.effects.fetchedAt.Some? ==>
      r.1.endpoint == OnAirQuality && r.1.effects.fetchedAt == Lookup(entries, inp.msg.chat)
  {
    var m := inp.msg;
    match Dispatch(m)
    case None => (entries, Ignored)
    case Some(OnStart) => (entries, Ran(OnStart, StartEffects(entries, m.chat, inp.delivered)))
    case Some(OnLocation) => (SavedStore(entries, m), Ran(OnLocation, LocationEffects(m, inp.delivered)))
    case Some(OnAirQuality) =>
      (entries, Ran(OnAirQuality, AirQualityEffects(entries, m.chat, inp.fetch, inp.time, inp.delivered)))
  }

  /** The dispatcher handling one update on the shared store. */
  method HandleUpdate(users: Users, inp: Input) returns (out: Outcome)
    modifies users
    ensures (users.entries, out) == Step(old(users.entries), inp)
  {
    var route := Dispatch(inp.msg);
    match route {
      case None =>
        out := Ignored;
      case Some(OnStart) =>
        var eff := Start(users, inp.msg, inp.delivered);
        out := Ran(OnStart, eff);
      case Some(OnLocation) =>
        var eff := HandleLocation(users, inp.msg, inp.delivered);
        out := Ran(OnLocation, eff);
      case Some(OnAirQuality) =>
        var eff := AirQuality(users, inp.msg, inp.fetch, inp.time, inp.delivered);
        out := Ran(OnAirQuality, eff);
    }
  }

  // ----- A sequence of messages ---------------------------------------------

  /** The store after the dispatcher has handled `inputs` in order. */
  function Run(entries: Entries, inputs: seq<Input>): Entries
    decreases |inputs|
  {
    if inputs == [] then entries
    else Step(Run(entries, inputs[..|inputs| - 1]), inputs[|inputs| - 1]).0
  }

  /** `inp` is a message from `id` that `handle_location` handles. */
  predicate Saves(inp: Input, id: ChatId)
  {
    inp.msg.chat == id && Dispatch(inp.msg) == Some(OnLocation)
  }

  /** The location of the last message in `inputs` that saves one for `id`. */
  function LastSaved(inputs: seq<Input>, id: ChatId): Option<Coord>
    decreases |inputs|
  {
    if inputs == [] then None
    else if Saves(inputs[|inputs| - 1], id) then inputs[|inputs| - 1].msg.location
    else LastSaved(inputs[..|inputs| - 1], id)
  }

  /** Last write wins: after any sequence of messages, a chat's entry is the
      location of its last message that reached `handle_location`, or what
      it was before if it sent none. */
  lemma {:induction false} LastWriteWins(entries: Entries, inputs: seq<Input>, id: ChatId)
    ensures LastSaved(inputs, id).Some? ==> Lookup(Run(entries, inputs), id) == LastSaved(inputs, id)
    ensures LastSaved(inputs, id).None? ==> Lookup(Run(entries, inputs), id) == Lookup(entries, id)
    decreases |inputs|
  {
    if inputs != [] {
      var prefix, last := inputs[..|inputs| - 1], inputs[|inputs| - 1];
      LastWriteWins(entries, prefix, id);
      DispatchCases(last.msg);
    }
  }

  /** A chat that has never shared a location is asked for one when it
      requests the air quality, and the provider is not called. */
  lemma {:induction false} NoFetchWithoutLocation(inputs: seq<Input>, inp: Input)
    requires Dispatch(inp.msg) == Some(OnAirQuality)
    requires LastSaved(inputs, inp.msg.chat).None?
    ensures var out := Step(Run(map[], inputs), inp).1;
      out.Ran? && out.effects.fetchedAt == None
      && out.effects.reply == Some(Reply(ShareLocationFirst, LocationKeyboard(), Plain))
  {
    LastWriteWins(map[], inputs, inp.msg.chat);
  }

  /** A request for the air quality asks the provider about the chat's most
      recently saved location. */
  lemma {:induction false} FetchAtLastSaved(entries: Entries, inputs: seq<Input>, inp: Input)
    requires Dispatch(inp.msg) == Some(OnAirQuality)
    requires LastSaved(inputs, inp.msg.chat).Some?
    ensures Step(Run(entries, inputs), inp).1.effects.fetchedAt == LastSaved(inputs, inp.msg.chat)
  {
    LastWriteWins(entries, inputs, inp.msg.chat);
  }

  /** Starting from an empty store, `/start` greets a chat as returning
      exactly when it has saved a location before. */
  lemma {:induction false} StartGreetsReturning(inputs: seq<Input>, inp: Input)
    requires Dispatch(inp.msg) == Some(OnStart)
    ensures var out := Step(Run(map[], inputs), inp).1;
      out.Ran? && out.effects.fetchedAt == None
      && (out.effects.reply == Some(Reply(ReturningGreeting, MainKeyboard(), Plain))
          <==> LastSaved(inputs, inp.msg.chat).Some?)
  {
    LastWriteWins(map[], inputs, inp.msg.chat);
  }

  /** A new chat's first three messages: `/start` gets the new-user greeting
      and the location keyboard, sharing `c` stores it, and asking for the
      air quality fetches at `c` and reports the city, the AQI 42 and the
      best band. */
  lemma FirstConversation(chat: ChatId, c: Coord, time: string, city: string)
    ensures var fetch := Fetched(AirResponse(AirData(city, AirCurrent(Pollution(42)))));
      var i1 := Input(Message(chat, Some(StartCommand), None), fetch, time, true);
      var i2 := Input(Message(chat, None, Some(c)), fetch, time, true);
      var i3 := Input(Message(chat, Some(AirQualityCommand), None), fetch, time, true);
      && Step(map[], i1) == (map[], Ran(OnStart, Effects(Some(Reply(NewUserGreeting, LocationKeyboard(), Plain)), None, Ok(()))))
      && Step(map[], i2) == (map[chat := c], Ran(OnLocation, Effects(Some(Reply(LocationSaved(c), MainKeyboard(), Plain)), None, Ok(()))))
      && Run(map[], [i1, i2]) == map[chat := c]
      && Step(map[chat := c], i3).1.effects.fetchedAt == Some(c)
      && Step(map[chat := c], i3).1.effects.reply.Some?
      && ReadReport(Step(map[chat := c], i3).1.effects.reply.value.text.body, |city|, |time|)
         == Some(Fields(city, time, 42, Good))
  {
    var fetch := Fetched(AirResponse(AirData(city, AirCurrent(Pollution(42)))));
    var i1 := Input(Message(chat, Some(StartCommand), None), fetch, time, true);
    var i2 := Input(Message(chat, None, Some(c)), fetch, time, true);
    var i3 := Input(Message(chat, Some(AirQualityCommand), None), fetch, time, true);
    DispatchCases(i1.msg);
    DispatchCases(i2.msg);
    DispatchCases(i3.msg);
    assert [i1, i2][..1] == [i1] && [i1][..0] == [];
    assert Run(map[], [i1]) == map[];
  }
}
