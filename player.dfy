/** The client's player: the state the page keeps (`playerState`, the list, the
    current index, `isLive`, the error message), the handlers behind its buttons,
    and the callbacks the speech engine, the timer and the fetch deliver later.

    A callback is a closure over the values it was created with, so it is modelled
    as a value (`Callback`) that is pending until the environment delivers it, in
    any order. Each callback also records the playback chain it belongs to
    (`gen`); the page as written never reads that tag, the corrected player
    (`SafeStep`, class `PagePlayer`) ignores callbacks of a superseded chain. */
module Player {
  import opened Wrappers
  import opened NewsTypes
  import Page
  import NewsRoute

  datatype PlayerState = Idle | Loading | Playing | Paused

  /** The JSON body the client reads: `news` and `isLive`, either of which may be absent. */
  datatype ClientBody = ClientBody(news: Option<seq<NewsItem>>, isLive: Option<bool>)

  /** How the request to the route ended: failed (network error, status not ok, or a
      body that is not JSON), or a parsed body. */
  datatype FetchOutcome = FetchFailed | Fetched(body: ClientBody)

  /** A pending closure, with what it captured. */
  datatype Callback =
    | FetchDone(city: string, gen: nat)                           // the rest of `startNews`
    | ItemSpoken(index: nat, list: seq<NewsItem>, gen: nat)       // `onend`/`onerror` of an item
    | AdvanceTimer(index: nat, list: seq<NewsItem>, gen: nat)     // the one-second pause
    | OutroSpoken(gen: nat)                                       // `onend` of the outro

  datatype Event =
    | StartPressed(city: string)
    | TogglePressed
    | StopPressed
    | NextPressed
    | PreviousPressed
    | FetchSettled(cb: Callback, outcome: FetchOutcome)
    | SpeechEnded(cb: Callback)
    | SpeechFailed(cb: Callback)
    | TimerFired(cb: Callback)

  /** The page's state plus the texts handed to the speech engine, the pending
      callbacks, and the number of the newest playback chain. */
  datatype Session = Session(
    state: PlayerState,
    news: seq<NewsItem>,
    index: nat,
    isLive: Option<bool>,
    error: Option<string>,
    spoken: seq<string>,
    pending: multiset<Callback>,
    generation: nat)

  const INITIAL := Session(Idle, [], 0, None, None, [], multiset{}, 0)

  const SPEECH_ERROR := "Die Sprachausgabe wurde unterbrochen."

  // ---------------------------------------------------------------- handlers as written

  /** `speakNews(item, index, list)`: cancel what is playing, speak the item's text,
      and leave its callbacks pending on a new chain. */
  function Speak(s: Session, item: NewsItem, index: nat, list: seq<NewsItem>): Session {
    var g := s.generation + 1;
    s.(spoken := s.spoken + [Page.SpokenText(item, index)],
       pending := s.pending + multiset{ItemSpoken(index, list, g)},
       generation := g)
  }

  /** `speakNews(list[index], index, list)`; when there is no such item, speech is
      cancelled and reading the absent item throws before anything is spoken. */
  function SpeakAt(s: Session, index: nat, list: seq<NewsItem>): Session {
    if index < |list| then Speak(s, list[index], index, list)
    else s.(generation := s.generation + 1)
  }

  /** `startNews` up to the request. */
  function Start(s: Session, city: string): Session {
    var g := s.generation + 1;
    s.(error := None, state := Loading, index := 0, isLive := None,
       pending := s.pending + multiset{FetchDone(city, g)}, generation := g)
  }

  /** The list and the `isLive` flag `startNews` plays: the body's list when it has an
      item, with `isLive ?? false`; otherwise (failure, no list, an empty list whose
      first item is read and throws) the demo list for the city, not live. */
  function Received(outcome: FetchOutcome, city: string): (r: (seq<NewsItem>, bool))
    ensures |r.0| > 0
  {
    if outcome.Fetched? && outcome.body.news.Some? && outcome.body.news.value != [] then
      (outcome.body.news.value, outcome.body.isLive.GetOr(false))
    else
      (Page.GetDemoNews(city), false)
  }

  /** The rest of `startNews`, once the request has settled. */
  function Settle(s: Session, city: string, outcome: FetchOutcome): Session {
    var list := Received(outcome, city).0;
    SpeakAt(s.(news := list, isLive := Some(Received(outcome, city).1), state := Playing), 0, list)
  }

  function Toggle(s: Session): Session {
    if s.state == Playing then s.(state := Paused)
    else if s.state == Paused then s.(state := Playing)
    else s
  }

  function Stop(s: Session): Session {
    s.(state := Idle, index := 0, news := [], generation := s.generation + 1)
  }

  function Next(s: Session): Session {
    if s.index < |s.news| - 1 then SpeakAt(s.(index := s.index + 1), s.index + 1, s.news)
    else s
  }

  function Previous(s: Session): Session {
    if s.index > 0 then SpeakAt(s.(index := s.index - 1), s.index - 1, s.news)
    else s
  }

  /** `onend` of item `index` of `list`: schedule the next item, or speak the outro
      after the last one. */
  function ItemEnded(s: Session, index: nat, list: seq<NewsItem>, gen: nat): Session {
    if index < |list| - 1 then s.(pending := s.pending + multiset{AdvanceTimer(index, list, gen)})
    else s.(spoken := s.spoken + [Page.OUTRO], pending := s.pending + multiset{OutroSpoken(gen)})
  }

  /** The timer after item `index` of `list`: move on and speak the next item. */
  function Advance(s: Session, index: nat, list: seq<NewsItem>): Session {
    SpeakAt(s.(index := index + 1), index + 1, list)
  }

  function Consume(s: Session, cb: Callback): Session {
    s.(pending := s.pending - multiset{cb})
  }

  predicate IsCallback(e: Event) {
    e.FetchSettled? || e.SpeechEnded? || e.SpeechFailed? || e.TimerFired?
  }

  /** Whether `e` can happen in `s`: a button is on screen only in the states the page
      renders it in (start when idle; previous, pause, next and stop while playing or
      paused); a callback must be pending and of the kind the event delivers. */
  predicate Deliverable(s: Session, e: Event) {
    match e
    case StartPressed(_) => s.state.Idle?
    case TogglePressed => s.state.Playing? || s.state.Paused?
    case StopPressed => s.state.Playing? || s.state.Paused?
    case NextPressed => s.state.Playing? || s.state.Paused?
    case PreviousPressed => s.state.Playing? || s.state.Paused?
    case FetchSettled(cb, _) => cb.FetchDone? && cb in s.pending
    case SpeechEnded(cb) => (cb.ItemSpoken? || cb.OutroSpoken?) && cb in s.pending
    case SpeechFailed(cb) => (cb.ItemSpoken? || cb.OutroSpoken?) && cb in s.pending
    case TimerFired(cb) => cb.AdvanceTimer? && cb in s.pending
  }

  /** One event on the page as written; an event that cannot happen changes nothing.
      The outro has no `onerror`, so its failure only consumes it. */
  function Step(s: Session, e: Event): Session {
    if !Deliverable(s, e) then s
    else match e
      case StartPressed(city) => Start(s, city)
      case TogglePressed => Toggle(s)
      case StopPressed => Stop(s)
      case NextPressed => Next(s)
      case PreviousPressed => Previous(s)
      case FetchSettled(cb, outcome) => Settle(Consume(s, cb), cb.city, outcome)
      case SpeechEnded(cb) =>
        if cb.ItemSpoken? then ItemEnded(Consume(s, cb), cb.index, cb.list, cb.gen)
        else Consume(s, cb).(state := Idle, index := 0)
      case SpeechFailed(cb) =>
        if cb.ItemSpoken? then Consume(s, cb).(error := Some(SPEECH_ERROR), state := Idle)
        else Consume(s, cb)
      case TimerFired(cb) => Advance(Consume(s, cb), cb.index, cb.list)
  }

  function Run(s: Session, events: seq<Event>): Session
    decreases |events|
  {
    if events == [] then s else Run(Step(s, events[0]), events[1..])
  }

  // ---------------------------------------------------------------- corrected player

  /** The corrected player: a callback of a superseded chain is consumed and ignored. */
  function SafeStep(s: Session, e: Event): Session {
    if Deliverable(s, e) && IsCallback(e) && e.cb.gen != s.generation then Consume(s, e.cb)
    else Step(s, e)
  }

  function SafeRun(s: Session, events: seq<Event>): Session
    decreases |events|
  {
    if events == [] then s else SafeRun(SafeStep(s, events[0]), events[1..])
  }

  // One lemma per kind of event, so that proofs about runs need not unfold `Step`.

  lemma StepStart(s: Session, city: string)
    requires s.state.Idle?
    ensures Step(s, StartPressed(city)) == Start(s, city)
  {
  }

  lemma StepSettle(s: Session, cb: Callback, outcome: FetchOutcome)
    requires cb.FetchDone? && cb in s.pending
    ensures Step(s, FetchSettled(cb, outcome)) == Settle(Consume(s, cb), cb.city, outcome)
  {
  }

  lemma SettleSpeaks(s: Session, city: string, outcome: FetchOutcome, list: seq<NewsItem>, live: bool)
    requires (list, live) == Received(outcome, city)
    ensures Settle(s, city, outcome) == Speak(s.(news := list, isLive := Some(live), state := Playing), list[0], 0, list)
  {
  }

  lemma StepItemEnded(s: Session, cb: Callback)
    requires cb.ItemSpoken? && cb in s.pending
    ensures Step(s, SpeechEnded(cb)) == ItemEnded(Consume(s, cb), cb.index, cb.list, cb.gen)
  {
  }

  lemma StepOutroEnded(s: Session, gen: nat)
    requires OutroSpoken(gen) in s.pending
    ensures Step(s, SpeechEnded(OutroSpoken(gen))) == Consume(s, OutroSpoken(gen)).(state := Idle, index := 0)
  {
  }

  lemma StepTimer(s: Session, cb: Callback)
    requires cb.AdvanceTimer? && cb in s.pending
    ensures Step(s, TimerFired(cb)) == Advance(Consume(s, cb), cb.index, cb.list)
  {
  }

  lemma RunTwo(s: Session, e1: Event, e2: Event)
    ensures Run(s, [e1, e2]) == Step(Step(s, e1), e2)
  {
    assert [e1, e2][1..] == [e2];
    assert [e2][1..] == [];
    assert Run(Step(s, e1), [e2]) == Run(Step(Step(s, e1), e2), []);
  }

  // ---------------------------------------------------------------- handler properties

  /** `togglePause` swaps playing and paused, and swapping twice restores the state;
      idle and loading are left alone. */
  lemma TogglePause(s: Session)
    ensures s.state == Playing ==> Toggle(s) == s.(state := Paused)
    ensures s.state == Paused ==> Toggle(s) == s.(state := Playing)
    ensures s.state.Playing? || s.state.Paused? ==> Toggle(Toggle(s)) == s
    ensures s.state.Idle? || s.state.Loading? ==> Toggle(s) == s
  {
  }

  /** `stopNews` ends in idle at index 0 with an empty list from any state, keeps the
      spoken log, and leaves `isLive` and the error alone. */
  lemma StopClears(s: Session)
    ensures var t := Stop(s);
      t.state == Idle && t.index == 0 && t.news == [] && t.spoken == s.spoken &&
      t.isLive == s.isLive && t.error == s.error && t.pending == s.pending
  {
  }

  /** A speech error ends in idle with the message, keeping the list and the index. */
  lemma SpeechErrorKeepsPlace(s: Session, index: nat, list: seq<NewsItem>, gen: nat)
    requires ItemSpoken(index, list, gen) in s.pending
    ensures var t := Step(s, SpeechFailed(ItemSpoken(index, list, gen)));
      t.state == Idle && t.error == Some(SPEECH_ERROR) && t.news == s.news &&
      t.index == s.index && t.spoken == s.spoken
  {
  }

  /** `nextNews` moves exactly one item forward and speaks that item when one follows
      the current one, and otherwise changes nothing; the player state is kept. */
  lemma NextMovesByOne(s: Session)
    ensures var t := Next(s);
      t.state == s.state && t.news == s.news &&
      (s.index + 1 < |s.news| ==> t.index == s.index + 1 &&
                                  t.spoken == s.spoken + [Page.SpokenText(s.news[s.index + 1], s.index + 1)]) &&
      (s.index + 1 >= |s.news| ==> t == s)
  {
  }

  /** `previousNews` moves exactly one item back when not at the start, speaking that
      item when it exists, and otherwise changes nothing; the player state is kept. */
  lemma PreviousMovesByOne(s: Session)
    ensures var t := Previous(s);
      t.state == s.state && t.news == s.news &&
      (s.index > 0 ==> t.index == s.index - 1) &&
      (0 < s.index <= |s.news| ==> t.spoken == s.spoken + [Page.SpokenText(s.news[s.index - 1], s.index - 1)]) &&
      (s.index == 0 ==> t == s)
  {
  }

  /** Previous undoes next: stepping forward and back returns to the same item and
      speaks it again. */
  lemma PreviousUndoesNext(s: Session)
    requires s.index + 1 < |s.news|
    ensures var t := Previous(Next(s));
      t.index == s.index && t.news == s.news && t.state == s.state &&
      t.spoken[|t.spoken| - 1] == Page.SpokenText(s.news[s.index], s.index)
  {
  }

  /** `startNews` from idle, once its request settles, plays index 0 of the received
      list with no error: the body's list and `isLive ?? false` when the list has an
      item, the city's demo list and not live after a failure or without items. */
  lemma StartAlwaysPlays(s: Session, city: string, outcome: FetchOutcome)
    requires s.state == Idle
    ensures var t := Step(Step(s, StartPressed(city)), FetchSettled(FetchDone(city, s.generation + 1), outcome));
      t.state == Playing && t.index == 0 && t.error == None &&
      (outcome.Fetched? && outcome.body.news.Some? && outcome.body.news.value != [] ==>
         t.news == outcome.body.news.value && t.isLive == Some(outcome.body.isLive.GetOr(false))) &&
      (!(outcome.Fetched? && outcome.body.news.Some? && outcome.body.news.value != []) ==>
         t.news == Page.GetDemoNews(city) && t.isLive == Some(false)) &&
      t.spoken == s.spoken + [Page.SpokenText(t.news[0], 0)]
  {
    StepStart(s, city);
    var s1 := Start(s, city);
    var cb := FetchDone(city, s.generation + 1);
    assert cb in s1.pending;
    StepSettle(s1, cb, outcome);
  }

  /** The route's body carries no `isLive`, so the client always marks its answer as
      not live, and it always has an item to play. */
  lemma RouteAnswerIsNeverLive(s: Session, city: string, simplified: seq<NewsItem>, routeCity: string)
    requires s.state == Idle
    ensures var body := ClientBody(Some(NewsRoute.Assemble(simplified, NewsRoute.LocalItem(routeCity),
                                                          NewsRoute.WeatherItem(routeCity))), None);
      var t := Step(Step(s, StartPressed(city)), FetchSettled(FetchDone(city, s.generation + 1), Fetched(body)));
      t.isLive == Some(false) && t.news == body.news.value && t.state == Playing
  {
    var news := NewsRoute.Assemble(simplified, NewsRoute.LocalItem(routeCity), NewsRoute.WeatherItem(routeCity));
    NewsRoute.AssembleShape(simplified, NewsRoute.LocalItem(routeCity), NewsRoute.WeatherItem(routeCity));
    StartAlwaysPlays(s, city, Fetched(ClientBody(Some(news), None)));
  }

  // ---------------------------------------------------------------- playing through

  /** The texts of `list` from position `from` on, each with its own intro. */
  function SpokenFrom(list: seq<NewsItem>, from: nat): (r: seq<string>)
    requires from <= |list|
    ensures |r| == |list| - from
    ensures forall k :: 0 <= k < |r| ==> r[k] == Page.SpokenText(list[from + k], from + k)
    decreases |list| - from
  {
    if from == |list| then []
    else
      var rest := SpokenFrom(list, from + 1);
      var r := [Page.SpokenText(list[from], from)] + rest;
      assert forall k :: 0 <= k < |r| ==> r[k] == Page.SpokenText(list[from + k], from + k) by {
        forall k | 0 <= k < |r| ensures r[k] == Page.SpokenText(list[from + k], from + k) {
          if k > 0 { assert r[k] == rest[k - 1]; }
        }
      }
      r
  }

  /** Item `index` ends, then, until the last item, its timer fires and the next one
      ends; the last item's end is followed by the outro's. */
  function PlayRest(list: seq<NewsItem>, index: nat, gen: nat): seq<Event>
    requires index < |list|
    decreases |list| - index
  {
    if index == |list| - 1 then [SpeechEnded(ItemSpoken(index, list, gen)), SpeechEnded(OutroSpoken(gen))]
    else [SpeechEnded(ItemSpoken(index, list, gen)), TimerFired(AdvanceTimer(index, list, gen))]
         + PlayRest(list, index + 1, gen + 1)
  }

  lemma {:induction false} RunAppend(s: Session, a: seq<Event>, b: seq<Event>)
    ensures Run(s, a + b) == Run(Run(s, a), b)
    decreases |a|
  {
    if a != [] {
      assert (a + b)[0] == a[0];
      assert (a + b)[1..] == a[1..] + b;
      RunAppend(Step(s, a[0]), a[1..], b);
    } else {
      assert a + b == b;
    }
  }

  /** The state a play-through from item `index` of `list` comes to rest in. */
  function Played(s: Session, list: seq<NewsItem>, index: nat): Session
    requires index < |list|
  {
    s.(state := Idle, index := 0,
       spoken := s.spoken + SpokenFrom(list, index + 1) + [Page.OUTRO],
       pending := s.pending - multiset{ItemSpoken(index, list, s.generation)},
       generation := s.generation + (|list| - 1 - index))
  }

  /** The last item ends: the outro is spoken. */
  lemma EndLast(s: Session, list: seq<NewsItem>)
    requires |list| > 0
    requires ItemSpoken(|list| - 1, list, s.generation) in s.pending
    ensures var g := s.generation;
      Step(s, SpeechEnded(ItemSpoken(|list| - 1, list, g))) ==
      s.(spoken := s.spoken + [Page.OUTRO],
         pending := s.pending - multiset{ItemSpoken(|list| - 1, list, g)} + multiset{OutroSpoken(g)})
  {
    StepItemEnded(s, ItemSpoken(|list| - 1, list, s.generation));
  }

  /** The outro ends: idle at index 0. */
  lemma OutroRests(s: Session, gen: nat, rest: multiset<Callback>)
    requires s.pending == rest + multiset{OutroSpoken(gen)}
    ensures Step(s, SpeechEnded(OutroSpoken(gen))) == s.(pending := rest, state := Idle, index := 0)
  {
    StepOutroEnded(s, gen);
    assert s.pending - multiset{OutroSpoken(gen)} == rest;
  }

  /** The last item ends, then the outro. */
  lemma PlayLast(s: Session, list: seq<NewsItem>)
    requires |list| > 0
    requires ItemSpoken(|list| - 1, list, s.generation) in s.pending
    ensures Run(s, [SpeechEnded(ItemSpoken(|list| - 1, list, s.generation)), SpeechEnded(OutroSpoken(s.generation))])
              == Played(s, list, |list| - 1)
  {
    var g := s.generation;
    var item := ItemSpoken(|list| - 1, list, g);
    var rest := s.pending - multiset{item};
    EndLast(s, list);
    var s1 := s.(spoken := s.spoken + [Page.OUTRO], pending := rest + multiset{OutroSpoken(g)});
    OutroRests(s1, g, rest);
    RunTwo(s, SpeechEnded(item), SpeechEnded(OutroSpoken(g)));
    assert SpokenFrom(list, |list|) == [];
  }

  lemma PlayRestLast(list: seq<NewsItem>, gen: nat)
    requires |list| > 0
    ensures PlayRest(list, |list| - 1, gen) ==
      [SpeechEnded(ItemSpoken(|list| - 1, list, gen)), SpeechEnded(OutroSpoken(gen))]
  {
  }

  lemma PlayRestMore(list: seq<NewsItem>, index: nat, gen: nat)
    requires index + 1 < |list|
    ensures PlayRest(list, index, gen) ==
      [SpeechEnded(ItemSpoken(index, list, gen)), TimerFired(AdvanceTimer(index, list, gen))]
        + PlayRest(list, index + 1, gen + 1)
  {
  }

  /** An item that is not the last ends: its timer is scheduled. */
  lemma EndSchedules(s: Session, list: seq<NewsItem>, index: nat)
    requires index + 1 < |list|
    requires ItemSpoken(index, list, s.generation) in s.pending
    ensures var g := s.generation;
      Step(s, SpeechEnded(ItemSpoken(index, list, g))) ==
      s.(pending := s.pending - multiset{ItemSpoken(index, list, g)} + multiset{AdvanceTimer(index, list, g)})
  {
    StepItemEnded(s, ItemSpoken(index, list, s.generation));
  }

  /** The timer after item `index` speaks item `index + 1` on a new chain. */
  lemma TimerSpeaksNext(s: Session, list: seq<NewsItem>, index: nat, rest: multiset<Callback>)
    requires index + 1 < |list|
    requires s.pending == rest + multiset{AdvanceTimer(index, list, s.generation)}
    ensures var g := s.generation;
      Step(s, TimerFired(AdvanceTimer(index, list, g))) ==
      s.(index := index + 1,
         spoken := s.spoken + [Page.SpokenText(list[index + 1], index + 1)],
         pending := rest + multiset{ItemSpoken(index + 1, list, g + 1)},
         generation := g + 1)
  {
    var timer := AdvanceTimer(index, list, s.generation);
    StepTimer(s, timer);
    assert s.pending - multiset{timer} == rest;
  }

  /** An item that is not the last ends, and its timer speaks the next one. */
  lemma PlayOne(s: Session, list: seq<NewsItem>, index: nat)
    requires index + 1 < |list|
    requires ItemSpoken(index, list, s.generation) in s.pending
    ensures var g := s.generation;
      Run(s, [SpeechEnded(ItemSpoken(index, list, g)), TimerFired(AdvanceTimer(index, list, g))]) ==
      s.(index := index + 1,
         spoken := s.spoken + [Page.SpokenText(list[index + 1], index + 1)],
         pending := s.pending - multiset{ItemSpoken(index, list, g)} + multiset{ItemSpoken(index + 1, list, g + 1)},
         generation := g + 1)
  {
    var g := s.generation;
    var item := ItemSpoken(index, list, g);
    var timer := AdvanceTimer(index, list, g);
    var rest := s.pending - multiset{item};
    EndSchedules(s, list, index);
    var s1 := s.(pending := rest + multiset{timer});
    TimerSpeaksNext(s1, list, index, rest);
    RunTwo(s, SpeechEnded(item), TimerFired(timer));
  }

  /** Resting after item `index + 1` of the session that has just spoken it is resting
      after item `index` of the session before. */
  lemma PlayedAfterOne(s: Session, list: seq<NewsItem>, index: nat)
    requires index + 1 < |list|
    ensures var g := s.generation;
      var s2 := s.(index := index + 1,
                   spoken := s.spoken + [Page.SpokenText(list[index + 1], index + 1)],
                   pending := s.pending - multiset{ItemSpoken(index, list, g)} + multiset{ItemSpoken(index + 1, list, g + 1)},
                   generation := g + 1);
      Played(s2, list, index + 1) == Played(s, list, index)
  {
    var said := Page.SpokenText(list[index + 1], index + 1);
    assert SpokenFrom(list, index + 1) == [said] + SpokenFrom(list, index + 2);
    assert s.spoken + [said] + SpokenFrom(list, index + 2) == s.spoken + SpokenFrom(list, index + 1);
  }

  /** Left alone, the page reads the rest of the list in order, each item with its
      intro, then the outro, and comes to rest idle at index 0 with the list kept. */
  lemma {:induction false} PlayThrough(s: Session, list: seq<NewsItem>, index: nat)
    requires index < |list|
    requires ItemSpoken(index, list, s.generation) in s.pending
    ensures Run(s, PlayRest(list, index, s.generation)) == Played(s, list, index)
    decreases |list| - index
  {
    if index == |list| - 1 {
      PlayRestLast(list, s.generation);
      PlayLast(s, list);
    } else {
      var g := s.generation;
      var two := [SpeechEnded(ItemSpoken(index, list, g)), TimerFired(AdvanceTimer(index, list, g))];
      PlayRestMore(list, index, g);
      PlayOne(s, list, index);
      var s2 := Run(s, two);
      PlayThrough(s2, list, index + 1);
      RunAppend(s, two, PlayRest(list, index + 1, g + 1));
      PlayedAfterOne(s, list, index);
    }
  }

  // ---------------------------------------------------------------- the stale timer

  lemma RunStep(s: Session, events: seq<Event>)
    requires events != []
    ensures Run(s, events) == Run(Step(s, events[0]), events[1..])
  {
  }

  lemma SafeRunStep(s: Session, events: seq<Event>)
    requires events != []
    ensures SafeRun(s, events) == SafeRun(SafeStep(s, events[0]), events[1..])
  {
  }

  /** The current index names an item of the list, or is 0 for the empty list. */
  predicate InRange(s: Session) {
    (s.news == [] ==> s.index == 0) && (s.news != [] ==> s.index < |s.news|)
  }

  /** Start, the list arrives and its first item is spoken, that item ends, the user
      stops within the one-second pause, and the pause's timer fires. */
  function StaleTimerTrace(city: string, list: seq<NewsItem>): seq<Event> {
    [StartPressed(city),
     FetchSettled(FetchDone(city, 1), Fetched(ClientBody(Some(list), None))),
     SpeechEnded(ItemSpoken(0, list, 2)),
     StopPressed,
     TimerFired(AdvanceTimer(0, list, 2))]
  }

  /** The session after the first four events of the trace: stopped, with the timer
      of the first item still pending. */
  function StoppedWithTimer(list: seq<NewsItem>): Session
    requires list != []
  {
    Session(Idle, [], 0, Some(false), None, [Page.SpokenText(list[0], 0)],
            multiset{AdvanceTimer(0, list, 2)}, 3)
  }

  lemma StaleTimerPrefix(city: string, list: seq<NewsItem>)
    requires |list| >= 2
    ensures var t := StaleTimerTrace(city, list);
      Run(INITIAL, t) == Run(StoppedWithTimer(list), t[4..]) &&
      SafeRun(INITIAL, t) == SafeRun(StoppedWithTimer(list), t[4..])
  {
    var t := StaleTimerTrace(city, list);
    var fetch := FetchDone(city, 1);
    var s1 := Start(INITIAL, city);
    StepStart(INITIAL, city);
    StepSettle(s1, fetch, t[1].outcome);
    var s2 := Session(Playing, list, 0, Some(false), None, [Page.SpokenText(list[0], 0)],
                      multiset{ItemSpoken(0, list, 2)}, 2);
    assert s1.pending - multiset{fetch} == multiset{};
    assert Step(s1, t[1]) == s2;
    EndSchedules(s2, list, 0);
    var s3 := s2.(pending := multiset{AdvanceTimer(0, list, 2)});
    assert s2.pending - multiset{ItemSpoken(0, list, 2)} == multiset{};
    assert Step(s2, t[2]) == s3;
    assert Step(s3, t[3]) == StoppedWithTimer(list);
    RunStep(INITIAL, t);
    RunStep(s1, t[1..]);
    RunStep(s2, t[2..]);
    RunStep(s3, t[3..]);
    SafeRunStep(INITIAL, t);
    SafeRunStep(s1, t[1..]);
    SafeRunStep(s2, t[2..]);
    SafeRunStep(s3, t[3..]);
  }

  /** The page as written keeps talking after "stop": the timer of the pause before the
      second item fires after the list was cleared, speaks the second item while the
      player shows idle, and leaves the index at 1 on an empty list. The corrected
      player ignores that timer and stays silent at index 0. */
  lemma StaleTimerAfterStop(city: string, list: seq<NewsItem>)
    requires |list| >= 2
    ensures var w := Run(INITIAL, StaleTimerTrace(city, list));
      w.state == Idle && w.news == [] && w.index == 1 && !InRange(w) &&
      w.spoken == [Page.SpokenText(list[0], 0), Page.SpokenText(list[1], 1)]
    ensures var c := SafeRun(INITIAL, StaleTimerTrace(city, list));
      c.state == Idle && c.news == [] && c.index == 0 && InRange(c) &&
      c.spoken == [Page.SpokenText(list[0], 0)]
  {
    var t := StaleTimerTrace(city, list);
    var s4 := StoppedWithTimer(list);
    var timer := AdvanceTimer(0, list, 2);
    StaleTimerPrefix(city, list);
    assert t[4..] == [TimerFired(timer)];
    StepTimer(s4, timer);
    assert s4.pending - multiset{timer} == multiset{};
    RunStep(s4, t[4..]);
    SafeRunStep(s4, t[4..]);
    assert t[4..][1..] == [];
  }

  /** After that stop, the stale chain does not end with the second item: it reads the
      rest of the list with the pauses between items, then the outro, and comes to
      rest at index 0, all while nothing is on screen. */
  lemma StaleTimerReadsOn(city: string, list: seq<NewsItem>)
    requires |list| >= 2
    ensures var w := Run(INITIAL, StaleTimerTrace(city, list));
      ItemSpoken(1, list, w.generation) in w.pending &&
      Run(w, PlayRest(list, 1, w.generation)) == Played(w, list, 1)
  {
    StaleTimerRun(city, list);
    StaleChainReadsOn(list);
  }

  /** The session the stale timer leaves: item 1 spoken on a new chain, nothing on
      screen. */
  function StaleSpoken(list: seq<NewsItem>): Session
    requires |list| >= 2
  {
    Speak(Consume(StoppedWithTimer(list), AdvanceTimer(0, list, 2)).(index := 1), list[1], 1, list)
  }

  lemma StaleTimerRun(city: string, list: seq<NewsItem>)
    requires |list| >= 2
    ensures Run(INITIAL, StaleTimerTrace(city, list)) == StaleSpoken(list)
  {
    var t := StaleTimerTrace(city, list);
    var s4 := StoppedWithTimer(list);
    var timer := AdvanceTimer(0, list, 2);
    StaleTimerPrefix(city, list);
    assert t[4..] == [TimerFired(timer)];
    StepTimer(s4, timer);
    RunStep(s4, [TimerFired(timer)]);
    assert [TimerFired(timer)][1..] == [];
  }

  /** The chain the stale timer starts holds item 1 pending and plays to the end. */
  lemma StaleChainReadsOn(list: seq<NewsItem>)
    requires |list| >= 2
    ensures var w := StaleSpoken(list);
      ItemSpoken(1, list, w.generation) in w.pending &&
      Run(w, PlayRest(list, 1, w.generation)) == Played(w, list, 1)
  {
    var w := StaleSpoken(list);
    assert ItemSpoken(1, list, w.generation) in w.pending;
    PlayThrough(w, list, 1);
  }

  // ---------------------------------------------------------------- the corrected player's invariant

  /** What a callback of the newest chain may rely on: a request settles only while
      loading; an item, its timer and the outro belong to the list on screen. */
  predicate Current(s: Session, cb: Callback) {
    match cb
    case FetchDone(_, _) => s.state.Loading?
    case ItemSpoken(i, list, _) => !s.state.Loading? && list == s.news && i < |list|
    case AdvanceTimer(i, list, _) => !s.state.Loading? && list == s.news && i + 1 < |list|
    case OutroSpoken(_) => !s.state.Loading?
  }

  /** The index is within the list, loading starts from index 0, no callback is newer
      than the newest chain, and the newest chain's callbacks fit the session. */
  predicate Coherent(s: Session) {
    InRange(s) && (s.state.Loading? ==> s.index == 0) &&
    (forall cb :: cb in s.pending ==> cb.gen <= s.generation) &&
    (forall cb :: cb in s.pending && cb.gen == s.generation ==> Current(s, cb))
  }

  lemma InitialCoherent()
    ensures Coherent(INITIAL)
  {
  }

  lemma ConsumeKeeps(s: Session, cb: Callback)
    requires Coherent(s)
    ensures Coherent(Consume(s, cb))
  {
    var t := Consume(s, cb);
    forall x | x in t.pending ensures x in s.pending {
    }
  }

  /** Speaking on a new chain from a session whose callbacks are all older. */
  lemma SpeakKeeps(s: Session, index: nat, list: seq<NewsItem>)
    requires InRange(s) && !s.state.Loading? && list == s.news && index < |list|
    requires forall cb :: cb in s.pending ==> cb.gen <= s.generation
    ensures Coherent(SpeakAt(s, index, list))
  {
    var t := SpeakAt(s, index, list);
    forall cb | cb in t.pending && cb.gen == t.generation ensures Current(t, cb) {
      assert cb == ItemSpoken(index, list, t.generation);
    }
  }

  lemma StartKeeps(s: Session, city: string)
    requires Coherent(s)
    ensures Coherent(Start(s, city))
  {
    var t := Start(s, city);
    forall cb | cb in t.pending && cb.gen == t.generation ensures Current(t, cb) {
      assert cb == FetchDone(city, t.generation);
    }
  }

  lemma SettleKeeps(s: Session, cb: Callback, outcome: FetchOutcome)
    requires Coherent(s) && cb.FetchDone? && cb in s.pending && cb.gen == s.generation
    ensures Coherent(Settle(Consume(s, cb), cb.city, outcome))
  {
    assert Current(s, cb);
    ConsumeKeeps(s, cb);
    var list := Received(outcome, cb.city).0;
    var u := Consume(s, cb).(news := list, isLive := Some(Received(outcome, cb.city).1), state := Playing);
    SpeakKeeps(u, 0, list);
  }

  lemma ToggleKeeps(s: Session)
    requires Coherent(s)
    ensures Coherent(Toggle(s))
  {
    var t := Toggle(s);
    forall cb | cb in t.pending && cb.gen == t.generation ensures Current(t, cb) {
      assert Current(s, cb);
    }
  }

  lemma StopKeeps(s: Session)
    requires Coherent(s)
    ensures Coherent(Stop(s))
  {
    var t := Stop(s);
    assert forall cb :: cb in t.pending ==> cb.gen < t.generation;
  }

  lemma NextKeeps(s: Session)
    requires Coherent(s) && !s.state.Loading?
    ensures Coherent(Next(s))
  {
    if s.index < |s.news| - 1 {
      SpeakKeeps(s.(index := s.index + 1), s.index + 1, s.news);
    }
  }

  lemma PreviousKeeps(s: Session)
    requires Coherent(s) && !s.state.Loading?
    ensures Coherent(Previous(s))
  {
    if s.index > 0 {
      SpeakKeeps(s.(index := s.index - 1), s.index - 1, s.news);
    }
  }

  lemma ButtonKeeps(s: Session, e: Event)
    requires Coherent(s) && (s.state.Playing? || s.state.Paused?)
    requires e.TogglePressed? || e.StopPressed? || e.NextPressed? || e.PreviousPressed?
    ensures Coherent(Step(s, e))
  {
    match e
    case TogglePressed => ToggleKeeps(s);
    case StopPressed => StopKeeps(s);
    case NextPressed => NextKeeps(s);
    case PreviousPressed => PreviousKeeps(s);
  }

  lemma ItemEndedKeeps(s: Session, cb: Callback)
    requires Coherent(s) && cb.ItemSpoken? && cb in s.pending && cb.gen == s.generation
    ensures Coherent(ItemEnded(Consume(s, cb), cb.index, cb.list, cb.gen))
  {
    assert Current(s, cb);
    ConsumeKeeps(s, cb);
    var t := ItemEnded(Consume(s, cb), cb.index, cb.list, cb.gen);
    forall x | x in t.pending && x.gen == t.generation ensures Current(t, x) {
      if x != AdvanceTimer(cb.index, cb.list, cb.gen) && x != OutroSpoken(cb.gen) {
        assert x in s.pending;
        assert Current(s, x);
      }
    }
  }

  lemma SpeechStopsKeeps(s: Session, cb: Callback)
    requires Coherent(s) && (cb.ItemSpoken? || cb.OutroSpoken?) && cb in s.pending && cb.gen == s.generation
    ensures Coherent(Consume(s, cb).(state := Idle, index := 0))
    ensures cb.ItemSpoken? ==> Coherent(Consume(s, cb).(error := Some(SPEECH_ERROR), state := Idle))
  {
    ConsumeKeeps(s, cb);
    var c := Consume(s, cb);
    assert Current(s, cb);
    var t := c.(state := Idle, index := 0);
    forall x | x in t.pending && x.gen == t.generation ensures Current(t, x) {
      assert Current(c, x);
    }
    var u := c.(error := Some(SPEECH_ERROR), state := Idle);
    forall x | x in u.pending && x.gen == u.generation ensures Current(u, x) {
      assert Current(c, x);
    }
  }

  lemma TimerKeeps(s: Session, cb: Callback)
    requires Coherent(s) && cb.AdvanceTimer? && cb in s.pending && cb.gen == s.generation
    ensures Coherent(Advance(Consume(s, cb), cb.index, cb.list))
  {
    assert Current(s, cb);
    ConsumeKeeps(s, cb);
    SpeakKeeps(Consume(s, cb).(index := cb.index + 1), cb.index + 1, cb.list);
  }

  /** The corrected player keeps every session coherent: whatever the user presses and
      whatever callbacks arrive, in whatever order, the index stays within the list. */
  lemma SafeStepKeepsCoherent(s: Session, e: Event)
    requires Coherent(s)
    ensures Coherent(SafeStep(s, e))
    ensures InRange(SafeStep(s, e))
  {
    if !Deliverable(s, e) {
    } else if IsCallback(e) && e.cb.gen != s.generation {
      ConsumeKeeps(s, e.cb);
    } else {
      match e
      case StartPressed(city) => StartKeeps(s, city);
      case TogglePressed => ButtonKeeps(s, e);
      case StopPressed => ButtonKeeps(s, e);
      case NextPressed => ButtonKeeps(s, e);
      case PreviousPressed => ButtonKeeps(s, e);
      case FetchSettled(cb, outcome) => SettleKeeps(s, cb, outcome);
      case SpeechEnded(cb) =>
        if cb.ItemSpoken? { ItemEndedKeeps(s, cb); } else { SpeechStopsKeeps(s, cb); }
      case SpeechFailed(cb) =>
        if cb.ItemSpoken? { SpeechStopsKeeps(s, cb); } else { ConsumeKeeps(s, cb); }
      case TimerFired(cb) => TimerKeeps(s, cb);
    }
  }

  lemma SafeIgnoresStale(s: Session, e: Event)
    requires Deliverable(s, e) && IsCallback(e) && e.cb.gen != s.generation
    ensures SafeStep(s, e) == Consume(s, e.cb)
  {
  }

  lemma SafeFollowsCurrent(s: Session, e: Event)
    requires !(IsCallback(e) && e.cb.gen != s.generation)
    ensures SafeStep(s, e) == Step(s, e)
  {
  }

  // What the corrected player does on one button or speech end, so that the class's
  // methods need not unfold `SafeStep` and `Step`.

  lemma SafeNext(s: Session)
    requires s.state.Playing? || s.state.Paused?
    ensures SafeStep(s, NextPressed) == Next(s)
  {
  }

  lemma SafePrevious(s: Session)
    requires s.state.Playing? || s.state.Paused?
    ensures SafeStep(s, PreviousPressed) == Previous(s)
  {
  }

  lemma SafeSpeechEnded(s: Session, cb: Callback)
    requires (cb.ItemSpoken? || cb.OutroSpoken?) && cb in s.pending
    ensures cb.gen != s.generation ==> SafeStep(s, SpeechEnded(cb)) == Consume(s, cb)
    ensures cb.gen == s.generation && cb.ItemSpoken? ==>
              SafeStep(s, SpeechEnded(cb)) == ItemEnded(Consume(s, cb), cb.index, cb.list, cb.gen)
    ensures cb.gen == s.generation && cb.OutroSpoken? ==>
              SafeStep(s, SpeechEnded(cb)) == Consume(s, cb).(state := Idle, index := 0)
  {
  }

  lemma {:induction false} SafeRunKeepsCoherent(s: Session, events: seq<Event>)
    requires Coherent(s)
    ensures Coherent(SafeRun(s, events))
    decreases |events|
  {
    if events != [] {
      SafeStepKeepsCoherent(s, events[0]);
      SafeRunKeepsCoherent(SafeStep(s, events[0]), events[1..]);
    }
  }

  /** Stopped, with every pending callback from a superseded chain. */
  predicate Silenced(s: Session) {
    s.state.Idle? && s.news == [] && s.index == 0 &&
    forall cb :: cb in s.pending ==> cb.gen < s.generation
  }

  /** Stopping the corrected player silences it. */
  lemma StopSilences(s: Session)
    requires Coherent(s) && (s.state.Playing? || s.state.Paused?)
    ensures Silenced(SafeStep(s, StopPressed))
  {
  }

  /** Once silenced, the corrected player says nothing more and stays stopped until
      the next start, whatever callbacks arrive in the meantime; only the pending
      callbacks are used up. */
  lemma {:induction false} SilenceHolds(s: Session, events: seq<Event>)
    requires Silenced(s)
    requires forall i :: 0 <= i < |events| ==> !events[i].StartPressed?
    ensures Silenced(SafeRun(s, events))
    ensures SafeRun(s, events) == s.(pending := SafeRun(s, events).pending)
    decreases |events|
  {
    if events != [] {
      var e := events[0];
      var t := SafeStep(s, e);
      if Deliverable(s, e) {
        assert IsCallback(e);
        var u := Consume(s, e.cb);
        assert t == u;
        forall cb | cb in u.pending ensures cb.gen < u.generation {
          assert cb in s.pending;
        }
      }
      assert t == s.(pending := t.pending);
      SilenceHolds(t, events[1..]);
    }
  }

  // ---------------------------------------------------------------- the page's state, updated in place

  /** The corrected player as the page runs it: the state variables are fields, each
      handler and callback updates them as the corresponding `SafeStep` does. */
  class PagePlayer {
    var state: PlayerState
    var news: seq<NewsItem>
    var index: nat
    var isLive: Option<bool>
    var error: Option<string>
    var spoken: seq<string>
    var pending: multiset<Callback>
    var generation: nat

    function Snapshot(): Session
      reads this
    {
      Session(state, news, index, isLive, error, spoken, pending, generation)
    }

    predicate Valid()
      reads this
    {
      Coherent(Snapshot())
    }

    constructor ()
      ensures Snapshot() == INITIAL && Valid()
    {
      state := Idle;
      news := [];
      index := 0;
      isLive := None;
      error := None;
      spoken := [];
      pending := multiset{};
      generation := 0;
    }

    /** `speakNews`: cancel, speak, and leave the utterance's callbacks pending. */
    method SpeakNews(item: NewsItem, at: nat, list: seq<NewsItem>)
      modifies this
      ensures Snapshot() == Speak(old(Snapshot()), item, at, list)
    {
      generation := generation + 1;
      spoken := spoken + [Page.SpokenText(item, at)];
      pending := pending + multiset{ItemSpoken(at, list, generation)};
    }

    method StartNews(city: string)
      requires Valid() && state == Idle
      modifies this
      ensures Snapshot() == SafeStep(old(Snapshot()), StartPressed(city)) && Valid()
    {
      var before := Snapshot();
      SafeStepKeepsCoherent(before, StartPressed(city));
      error := None;
      state := Loading;
      index := 0;
      isLive := None;
      generation := generation + 1;
      pending := pending + multiset{FetchDone(city, generation)};
    }

    method ReceiveNews(fetch: Callback, outcome: FetchOutcome)
      requires Valid() && fetch.FetchDone? && fetch in pending
      modifies this
      ensures Snapshot() == SafeStep(old(Snapshot()), FetchSettled(fetch, outcome)) && Valid()
    {
      var before := Snapshot();
      SafeStepKeepsCoherent(before, FetchSettled(fetch, outcome));
      pending := pending - multiset{fetch};
      if fetch.gen != generation {
        SafeIgnoresStale(before, FetchSettled(fetch, outcome));
        return;
      }
      SafeFollowsCurrent(before, FetchSettled(fetch, outcome));
      StepSettle(before, fetch, outcome);
      var received := Received(outcome, fetch.city);
      SettleSpeaks(Consume(before, fetch), fetch.city, outcome, received.0, received.1);
      Play(received.0, received.1);
    }

    /** The end of `startNews`'s `try` or `catch`: show the list and speak its first item. */
    method Play(list: seq<NewsItem>, live: bool)
      requires list != []
      modifies this
      ensures Snapshot() == Speak(old(Snapshot()).(news := list, isLive := Some(live), state := Playing), list[0], 0, list)
    {
      news := list;
      isLive := Some(live);
      state := Playing;
      SpeakNews(list[0], 0, list);
    }

    method TogglePause()
      requires Valid() && (state == Playing || state == Paused)
      modifies this
      ensures Snapshot() == SafeStep(old(Snapshot()), TogglePressed) && Valid()
    {
      SafeStepKeepsCoherent(Snapshot(), TogglePressed);
      if state == Playing {
        state := Paused;
      } else if state == Paused {
        state := Playing;
      }
    }

    method StopNews()
      requires Valid() && (state == Playing || state == Paused)
      modifies this
      ensures Snapshot() == SafeStep(old(Snapshot()), StopPressed) && Valid()
    {
      SafeStepKeepsCoherent(Snapshot(), StopPressed);
      generation := generation + 1;
      state := Idle;
      index := 0;
      news := [];
    }

    method NextNews()
      requires Valid() && (state == Playing || state == Paused)
      modifies this
      ensures Snapshot() == SafeStep(old(Snapshot()), NextPressed) && Valid()
    {
      SafeStepKeepsCoherent(Snapshot(), NextPressed);
      SafeNext(Snapshot());
      if index < |news| - 1 {
        index := index + 1;
        SpeakNews(news[index], index, news);
      }
    }

    method PreviousNews()
      requires Valid() && (state == Playing || state == Paused)
      modifies this
      ensures Snapshot() == SafeStep(old(Snapshot()), PreviousPressed) && Valid()
    {
      SafeStepKeepsCoherent(Snapshot(), PreviousPressed);
      SafePrevious(Snapshot());
      if index > 0 {
        index := index - 1;
        SpeakNews(news[index], index, news);
      }
    }

    /** `onend` of an item or of the outro. */
    method OnSpeechEnd(cb: Callback)
      requires Valid() && (cb.ItemSpoken? || cb.OutroSpoken?) && cb in pending
      modifies this
      ensures Snapshot() == SafeStep(old(Snapshot()), SpeechEnded(cb)) && Valid()
    {
      var before := Snapshot();
      SafeStepKeepsCoherent(before, SpeechEnded(cb));
      SafeSpeechEnded(before, cb);
      pending := pending - multiset{cb};
      assert Snapshot() == Consume(before, cb);
      if cb.gen != generation {
        return;
      }
      if cb.ItemSpoken? {
        if cb.index < |cb.list| - 1 {
          pending := pending + multiset{AdvanceTimer(cb.index, cb.list, cb.gen)};
        } else {
          spoken := spoken + [Page.OUTRO];
          pending := pending + multiset{OutroSpoken(cb.gen)};
        }
        assert Snapshot() == ItemEnded(Consume(before, cb), cb.index, cb.list, cb.gen);
      } else {
        state := Idle;
        index := 0;
        assert Snapshot() == Consume(before, cb).(state := Idle, index := 0);
      }
    }

    /** `onerror` of an item; the outro has none. */
    method OnSpeechError(cb: Callback)
      requires Valid() && (cb.ItemSpoken? || cb.OutroSpoken?) && cb in pending
      modifies this
      ensures Snapshot() == SafeStep(old(Snapshot()), SpeechFailed(cb)) && Valid()
    {
      SafeStepKeepsCoherent(Snapshot(), SpeechFailed(cb));
      pending := pending - multiset{cb};
      if cb.gen == generation && cb.ItemSpoken? {
        error := Some(SPEECH_ERROR);
        state := Idle;
      }
    }

    /** The timer of the pause between two items. */
    method OnTimer(cb: Callback)
      requires Valid() && cb.AdvanceTimer? && cb in pending
      modifies this
      ensures Snapshot() == SafeStep(old(Snapshot()), TimerFired(cb)) && Valid()
    {
      var before := Snapshot();
      SafeStepKeepsCoherent(before, TimerFired(cb));
      pending := pending - multiset{cb};
      if cb.gen != generation {
        SafeIgnoresStale(before, TimerFired(cb));
        return;
      }
      SafeFollowsCurrent(before, TimerFired(cb));
      StepTimer(before, cb);
      assert Current(before, cb);
      index := cb.index + 1;
      SpeakNews(cb.list[index], index, cb.list);
    }
  }
}
