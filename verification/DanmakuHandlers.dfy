// Handlers of the signals of DanmakuViewModel and of its states that call back.
// The resource and operation states announce their changes in the middle of a
// call, and setPending announces a change of working(). The theorems about runs
// take each call as one step; here handlers call the view model, in any way,
// before the call has ended. Each call of a handler is again one step.
module DanmakuHandlers {
  import opened DanmakuLanes
  import opened LaneIds
  import opened Options
  import OperationState

  function RunFrom(hasPort: bool, d: Danmaku, events: seq<Event>): Danmaku {
    if events == [] then d
    else Next(hasPort, RunFrom(hasPort, d, events[..|events| - 1]), events[|events| - 1])
  }

  // The newest request of a lane after the calls of a handler, latest being the
  // one before them.
  function LeftBehind(hasPort: bool, d: Danmaku, events: seq<Event>, lane: Lane, latest: Option<Request>)
    : Option<Request>
  {
    if events == [] then latest
    else
      var before, last := events[..|events| - 1], events[|events| - 1];
      Follow(hasPort, RunFrom(hasPort, d, before), LeftBehind(hasPort, d, before, lane, latest), lane, last)
  }

  // What working() is about.
  predicate IsFlagged(d: Danmaku, lane: Lane) {
    match lane
    case Search => d.search.pending
    case AutomaticLoad => d.automatic.pending
    case ApplyMatch => d.apply.pending
    case Configuration => d.configuring.waiting
  }

  predicate InProgress(d: Danmaku, lane: Lane) {
    match lane
    case Search => d.search.resource.Pending()
    case AutomaticLoad => d.automatic.resource.Pending()
    case ApplyMatch => d.apply.Busy()
    case Configuration => d.configuring.Busy()
  }

  ghost predicate Accepts(d: Danmaku, lane: Lane, latest: Option<Request>) {
    match lane
    case Search => LoadAccepts(d.search, latest)
    case AutomaticLoad => LoadAccepts(d.automatic, latest)
    case ApplyMatch => ApplyAccepts(d.apply, latest)
    case Configuration => ConfiguringReflects(d.configuring, latest)
  }

  lemma BegunAccepts(hasPort: bool, d: Danmaku, l: Lane, item: string, lane: Lane, latest: Option<Request>)
    requires Accepts(d, lane, latest)
    ensures Accepts(d.Begun(hasPort, l, item), lane, Follow(hasPort, d, latest, lane, Event.Begin(l, item)))
  {
    if !d.Busy(l) {
      var q := Request(d.NextId(l, item), item);
      NextIdIsTrimmed(d, l, item);
      LoadBegins(d.search, q);
      LoadBegins(d.automatic, q);
      ApplyBegins(d.apply, q);
      ConfiguringBegins(d.configuring, q);
      BegunAsLanes(hasPort, d, l, q);
    }
  }

  lemma SettledAccepts(hasPort: bool, d: Danmaku, l: Lane, q: Request, v: Verdict, lane: Lane, latest: Option<Request>)
    requires Accepts(d, lane, latest)
    ensures Accepts(d.Settled(l, q, v), lane, Follow(hasPort, d, latest, lane, Settle(l, q, v)))
  {
  }

  lemma NextAccepts(hasPort: bool, d: Danmaku, e: Event, lane: Lane, latest: Option<Request>)
    requires Accepts(d, lane, latest)
    ensures Accepts(Next(hasPort, d, e), lane, Follow(hasPort, d, latest, lane, e))
  {
    match e
    case Begin(l, item) => BegunAccepts(hasPort, d, l, item, lane, latest);
    case Settle(l, q, v) => SettledAccepts(hasPort, d, l, q, v, lane, latest);
    case Invalidate =>
  }

  lemma {:induction false} HandlerAccepts(hasPort: bool, d: Danmaku, events: seq<Event>, lane: Lane,
                                          latest: Option<Request>)
    requires Accepts(d, lane, latest)
    ensures Accepts(RunFrom(hasPort, d, events), lane, LeftBehind(hasPort, d, events, lane, latest))
  {
    if events != [] {
      var before := events[..|events| - 1];
      HandlerAccepts(hasPort, d, before, lane, latest);
      NextAccepts(hasPort, RunFrom(hasPort, d, before), events[|events| - 1], lane,
                  LeftBehind(hasPort, d, before, lane, latest));
    }
  }

  // ------------------------------------------------- what handlers do to a flag

  // A step that begins, settles or drops a request of the lane.
  predicate Touches(d: Danmaku, lane: Lane, latest: Option<Request>, e: Event) {
    match e
    case Begin(l, _) => l == lane && !d.Busy(lane)
    case Settle(l, q, _) => l == lane && latest == Some(q)
    case Invalidate => true
  }

  predicate Untouched(hasPort: bool, d: Danmaku, events: seq<Event>, lane: Lane, latest: Option<Request>) {
    events == []
    || (var before, last := events[..|events| - 1], events[|events| - 1];
        && Untouched(hasPort, d, before, lane, latest)
        && !Touches(RunFrom(hasPort, d, before), lane, LeftBehind(hasPort, d, before, lane, latest), last))
  }

  // A step that touches the lane leaves its flag telling the truth; any other
  // leaves flag and request alone.
  ghost predicate Told(d: Danmaku, next: Danmaku, lane: Lane, touched: bool, before: Option<Request>,
                       after: Option<Request>) {
    && IsFlagged(next, lane) == (if touched then after.Some? else IsFlagged(d, lane))
    && (!touched ==> after == before)
  }

  lemma BegunTells(hasPort: bool, d: Danmaku, l: Lane, item: string, lane: Lane, latest: Option<Request>)
    requires lane != Configuration && Accepts(d, lane, latest)
    ensures var e := Event.Begin(l, item);
            Told(d, d.Begun(hasPort, l, item), lane, Touches(d, lane, latest, e),
                 latest, Follow(hasPort, d, latest, lane, e))
  {
    if !d.Busy(l) {
      BegunAsLanes(hasPort, d, l, Request(d.NextId(l, item), item));
    }
  }

  lemma SettledTells(hasPort: bool, d: Danmaku, l: Lane, q: Request, v: Verdict, lane: Lane, latest: Option<Request>)
    requires lane != Configuration && Accepts(d, lane, latest)
    ensures var e := Settle(l, q, v);
            Told(d, d.Settled(l, q, v), lane, Touches(d, lane, latest, e),
                 latest, Follow(hasPort, d, latest, lane, e))
  {
  }

  lemma NextTells(hasPort: bool, d: Danmaku, e: Event, lane: Lane, latest: Option<Request>)
    requires lane != Configuration && Accepts(d, lane, latest)
    ensures Told(d, Next(hasPort, d, e), lane, Touches(d, lane, latest, e),
                 latest, Follow(hasPort, d, latest, lane, e))
  {
    match e
    case Begin(l, item) => BegunTells(hasPort, d, l, item, lane, latest);
    case Settle(l, q, v) => SettledTells(hasPort, d, l, q, v, lane, latest);
    case Invalidate =>
  }

  lemma ToldFurther(d: Danmaku, mid: Danmaku, next: Danmaku, lane: Lane, touched: bool, more: bool,
                    before: Option<Request>, between: Option<Request>, after: Option<Request>)
    requires Told(d, mid, lane, touched, before, between) && Told(mid, next, lane, more, between, after)
    ensures Told(d, next, lane, touched || more, before, after)
  {
  }

  lemma {:induction false} HandlerTells(hasPort: bool, d: Danmaku, events: seq<Event>, lane: Lane,
                                        latest: Option<Request>)
    requires lane != Configuration && Accepts(d, lane, latest)
    ensures Told(d, RunFrom(hasPort, d, events), lane, !Untouched(hasPort, d, events, lane, latest),
                 latest, LeftBehind(hasPort, d, events, lane, latest))
  {
    if events != [] {
      var before, last := events[..|events| - 1], events[|events| - 1];
      var mid, between := RunFrom(hasPort, d, before), LeftBehind(hasPort, d, before, lane, latest);
      HandlerTells(hasPort, d, before, lane, latest);
      HandlerAccepts(hasPort, d, before, lane, latest);
      NextTells(hasPort, mid, last, lane, between);
      ToldFurther(d, mid, Next(hasPort, mid, last), lane, !Untouched(hasPort, d, before, lane, latest),
                  Touches(mid, lane, between, last), latest, between,
                  Follow(hasPort, mid, between, lane, last));
    }
  }

  lemma AcceptsInProgress(d: Danmaku, lane: Lane, latest: Option<Request>)
    requires Accepts(d, lane, latest)
    ensures InProgress(d, lane) <==> latest.Some?
  {
  }

  // What the calls of a handler leave of a lane.
  lemma AfterHandler(hasPort: bool, d: Danmaku, events: seq<Event>, lane: Lane, latest: Option<Request>)
    requires lane != Configuration && Accepts(d, lane, latest)
    ensures var end, left := RunFrom(hasPort, d, events), LeftBehind(hasPort, d, events, lane, latest);
            && Accepts(end, lane, left)
            && (InProgress(end, lane) <==> left.Some?)
            && Told(d, end, lane, !Untouched(hasPort, d, events, lane, latest), latest, left)
  {
    HandlerAccepts(hasPort, d, events, lane, latest);
    HandlerTells(hasPort, d, events, lane, latest);
    AcceptsInProgress(RunFrom(hasPort, d, events), lane, LeftBehind(hasPort, d, events, lane, latest));
  }

  // setPending(false) without its handlers, and the calls of a handler of
  // workingChanged, which are made only where that is emitted.
  function Unflagged(d: Danmaku, lane: Lane): Danmaku {
    match lane
    case Search => d.(search := d.search.(pending := false))
    case AutomaticLoad => d.(automatic := d.automatic.(pending := false))
    case ApplyMatch => d.(apply := d.apply.(pending := false))
    case Configuration => d
  }

  function Lowered(d: Danmaku, lane: Lane): Danmaku {
    Unflagged(d, lane).Announcing(d)
  }

  function Heard(before: Danmaku, after: Danmaku, calls: seq<Event>): seq<Event> {
    if after.Working() != before.Working() then calls else []
  }

  lemma LoweredLane(d: Danmaku, l: Lane, lane: Lane, latest: Option<Request>)
    requires lane != Configuration && Accepts(d, lane, latest)
    ensures Accepts(Lowered(d, l), lane, latest)
    ensures IsFlagged(Lowered(d, l), lane) == (l != lane && IsFlagged(d, lane))
  {
  }

  // -------------------------------------------------------------- settlements

  // A settlement up to the announcement of the state.
  function Committed(d: Danmaku, lane: Lane, q: Request, v: Verdict): Danmaku {
    match lane
    case Search => d.(search := d.search.Settled(q, v).(pending := d.search.pending))
    case AutomaticLoad => d.(automatic := d.automatic.Settled(q, v).(pending := d.automatic.pending))
    case ApplyMatch => d.(apply := d.apply.Settled(q, v).(pending := d.apply.pending))
    case Configuration => d.WithSettled(lane, q, v)
  }

  // The state in which the flag has been lowered, and what handlers of
  // workingChanged then call.
  datatype Lowering = Lowering(state: Danmaku, calls: seq<Event>)
  {
    function Finish(hasPort: bool): Danmaku {
      RunFrom(hasPort, state, calls)
    }
  }

  function LoweringOf(d: Danmaku, lane: Lane, calls: seq<Event>): Lowering {
    Lowering(Lowered(d, lane), Heard(d, Lowered(d, lane), calls))
  }

  // A settlement during which handlers of the state's signal and of
  // workingChanged call back.
  function SettledAround(hasPort: bool, d: Danmaku, lane: Lane, q: Request, v: Verdict,
                         during: seq<Event>, heard: seq<Event>): Danmaku
  {
    var mid := Committed(d, lane, q, v);
    LoweringOf(RunFrom(hasPort, mid, during), lane, heard).Finish(hasPort).Reporting(lane, q.item, v)
  }

  lemma QuietSettlement(hasPort: bool, d: Danmaku, lane: Lane, q: Request, v: Verdict)
    requires d.Commits(lane, q)
    ensures SettledAround(hasPort, d, lane, q, v, [], []) == d.Settled(lane, q, v)
  {
  }

  lemma CommittedAccepts(d: Danmaku, lane: Lane, q: Request, v: Verdict)
    requires lane != Configuration && Reflects(d, lane, Some(q))
    ensures Accepts(Committed(d, lane, q, v), lane, None)
  {
    SettleReflects(d, q, v, lane, lane, Some(q));
  }

  lemma ReportingLane(d: Danmaku, lane: Lane, item: string, v: Verdict)
    ensures IsFlagged(d.Reporting(lane, item, v), lane) == IsFlagged(d, lane)
    ensures InProgress(d.Reporting(lane, item, v), lane) == InProgress(d, lane)
  {
  }

  // However handlers call back while a result is announced: what is out in the
  // lane in the end is what they left there. Its flag then claims nothing untrue,
  // but it misses a request exactly if a handler of the state's signal left one
  // and no handler of workingChanged did anything to it or to the lane.
  lemma HandlerCanHideWork(hasPort: bool, events: seq<Event>, lane: Lane, q: Request, v: Verdict,
                           during: seq<Event>, heard: seq<Event>)
    requires lane != Configuration && Latest(hasPort, events, lane) == Some(q)
    ensures var mid := Committed(Run(hasPort, events), lane, q, v);
            var left := LeftBehind(hasPort, mid, during, lane, None);
            var low := LoweringOf(RunFrom(hasPort, mid, during), lane, heard);
            var end := SettledAround(hasPort, Run(hasPort, events), lane, q, v, during, heard);
            && (InProgress(end, lane) <==> LeftBehind(hasPort, low.state, low.calls, lane, left).Some?)
            && (IsFlagged(end, lane) ==> InProgress(end, lane))
            && (InProgress(end, lane) && !IsFlagged(end, lane)
                <==> left.Some? && Untouched(hasPort, low.state, low.calls, lane, left))
  {
    var mid := Committed(Run(hasPort, events), lane, q, v);
    RunReflects(hasPort, events, lane);
    CommittedAccepts(Run(hasPort, events), lane, q, v);
    AfterLowering(hasPort, mid, lane, q.item, v, during, heard);
  }

  lemma AfterLowering(hasPort: bool, mid: Danmaku, lane: Lane, item: string, v: Verdict,
                      during: seq<Event>, heard: seq<Event>)
    requires lane != Configuration && Accepts(mid, lane, None)
    ensures var left := LeftBehind(hasPort, mid, during, lane, None);
            var low := LoweringOf(RunFrom(hasPort, mid, during), lane, heard);
            var end := low.Finish(hasPort).Reporting(lane, item, v);
            && (InProgress(end, lane) <==> LeftBehind(hasPort, low.state, low.calls, lane, left).Some?)
            && (IsFlagged(end, lane) ==> InProgress(end, lane))
            && (InProgress(end, lane) && !IsFlagged(end, lane)
                <==> left.Some? && Untouched(hasPort, low.state, low.calls, lane, left))
  {
    var left := LeftBehind(hasPort, mid, during, lane, None);
    var low := LoweringOf(RunFrom(hasPort, mid, during), lane, heard);
    AfterHandler(hasPort, mid, during, lane, None);
    LoweredLane(RunFrom(hasPort, mid, during), lane, lane, left);
    AfterHandler(hasPort, low.state, low.calls, lane, left);
    ReportingLane(low.Finish(hasPort), lane, item, v);
  }

  // ------------------------------------------------------------- invalidation

  // invalidateSession clears the ids, drops the lanes one after the other, each
  // drop being announced, and clears the flags last.
  function IdsCleared(d: Danmaku): Danmaku {
    d.(search := d.search.(request := ""), automatic := d.automatic.(request := ""),
       apply := d.apply.(request := "", item := ""))
  }

  function SearchDetached(d: Danmaku): Danmaku {
    IdsCleared(d).(search := IdsCleared(d).search.(resource := d.search.resource.Detached()))
  }

  function AutomaticDetached(d: Danmaku): Danmaku {
    d.(automatic := d.automatic.(resource := d.automatic.resource.Detached()))
  }

  function ApplyReset(d: Danmaku): Danmaku {
    d.(apply := d.apply.(operation := OperationState.IDLE))
  }

  function ConfigurationReset(d: Danmaku): Danmaku {
    d.(configuring := d.configuring.Dropped())
  }

  // The calls of the handlers of the four announcements, and of workingChanged as
  // each flag is lowered, in order.
  datatype Handlers = Handlers(
    search: seq<Event>, automatic: seq<Event>, apply: seq<Event>, configuration: seq<Event>,
    searchLowered: seq<Event>, automaticLowered: seq<Event>, applyLowered: seq<Event>)

  const QUIET := Handlers([], [], [], [], [], [], [])

  datatype Stages = Stages(first: Danmaku, second: Danmaku, third: Danmaku, fourth: Danmaku)

  // The states in which the announcements are made.
  function Announced4(hasPort: bool, d: Danmaku, h: Handlers): Stages {
    var first := SearchDetached(d);
    var second := AutomaticDetached(RunFrom(hasPort, first, h.search));
    var third := ApplyReset(RunFrom(hasPort, second, h.automatic));
    Stages(first, second, third, ConfigurationReset(RunFrom(hasPort, third, h.apply)))
  }

  datatype Lowerings = Lowerings(search: Lowering, automatic: Lowering, apply: Lowering)

  function LoweringsOf(hasPort: bool, d: Danmaku, h: Handlers): Lowerings {
    var search := LoweringOf(d, Search, h.searchLowered);
    var automatic := LoweringOf(search.Finish(hasPort), AutomaticLoad, h.automaticLowered);
    Lowerings(search, automatic, LoweringOf(automatic.Finish(hasPort), ApplyMatch, h.applyLowered))
  }

  // The state after the handlers of the four announcements.
  function DroppedAround(hasPort: bool, d: Danmaku, h: Handlers): Danmaku {
    RunFrom(hasPort, Announced4(hasPort, d, h).fourth, h.configuration)
  }

  function InvalidatedAround(hasPort: bool, d: Danmaku, h: Handlers): Danmaku {
    LoweringsOf(hasPort, DroppedAround(hasPort, d, h), h).apply.Finish(hasPort)
  }

  lemma QuietInvalidation(hasPort: bool, d: Danmaku)
    ensures InvalidatedAround(hasPort, d, QUIET) == d.Invalidated()
  {
    assert DroppedAround(hasPort, d, QUIET)
        == ConfigurationReset(ApplyReset(AutomaticDetached(SearchDetached(d))));
  }

  // What handlers leave in a lane once it has been dropped.
  function LeftAround(hasPort: bool, d: Danmaku, h: Handlers, lane: Lane): Option<Request> {
    var s := Announced4(hasPort, d, h);
    var search := if lane == Search then LeftBehind(hasPort, s.first, h.search, lane, None) else None;
    var automatic := if lane == ApplyMatch then None else LeftBehind(hasPort, s.second, h.automatic, lane, search);
    var apply := LeftBehind(hasPort, s.third, h.apply, lane, automatic);
    LeftBehind(hasPort, s.fourth, h.configuration, lane, apply)
  }

  lemma DropsAccept(d: Danmaku, lane: Lane, latest: Option<Request>)
    requires Accepts(d, lane, latest)
    ensures lane != AutomaticLoad ==> Accepts(AutomaticDetached(d), lane, latest)
    ensures lane != ApplyMatch ==> Accepts(ApplyReset(d), lane, latest)
    ensures lane != Configuration ==> Accepts(ConfigurationReset(d), lane, latest)
  {
  }

  lemma DroppedAccepts(d: Danmaku)
    ensures Accepts(SearchDetached(d), Search, None)
    ensures Accepts(AutomaticDetached(d), AutomaticLoad, None)
    ensures Accepts(ApplyReset(d), ApplyMatch, None)
  {
  }

  lemma FourthAccepts(hasPort: bool, d: Danmaku, h: Handlers, lane: Lane)
    requires lane != Configuration
    ensures Accepts(DroppedAround(hasPort, d, h), lane, LeftAround(hasPort, d, h, lane))
  {
    var s := Announced4(hasPort, d, h);
    var first, second, third := RunFrom(hasPort, s.first, h.search), RunFrom(hasPort, s.second, h.automatic),
                                RunFrom(hasPort, s.third, h.apply);
    var latest: Option<Request> := None;
    DroppedAccepts(d);
    DroppedAccepts(first);
    DroppedAccepts(second);
    if lane == Search {
      HandlerAccepts(hasPort, s.first, h.search, lane, None);
      latest := LeftBehind(hasPort, s.first, h.search, lane, None);
      DropsAccept(first, lane, latest);
    }
    if lane != ApplyMatch {
      HandlerAccepts(hasPort, s.second, h.automatic, lane, latest);
      latest := LeftBehind(hasPort, s.second, h.automatic, lane, latest);
      DropsAccept(second, lane, latest);
    }
    HandlerAccepts(hasPort, s.third, h.apply, lane, latest);
    latest := LeftBehind(hasPort, s.third, h.apply, lane, latest);
    DropsAccept(third, lane, latest);
    HandlerAccepts(hasPort, s.fourth, h.configuration, lane, latest);
  }

  // What is left in a lane after the handlers of each lowering.
  datatype Leavings = Leavings(search: Option<Request>, automatic: Option<Request>, apply: Option<Request>)

  function LeavingsOf(hasPort: bool, w: Lowerings, lane: Lane, left: Option<Request>): Leavings {
    var search := LeftBehind(hasPort, w.search.state, w.search.calls, lane, left);
    var automatic := LeftBehind(hasPort, w.automatic.state, w.automatic.calls, lane, search);
    Leavings(search, automatic, LeftBehind(hasPort, w.apply.state, w.apply.calls, lane, automatic))
  }

  // A request that was out when the flag of its lane was lowered, and that no
  // handler of workingChanged has done anything about since.
  predicate Hidden(hasPort: bool, w: Lowerings, lane: Lane, left: Option<Request>) {
    var after := LeavingsOf(hasPort, w, lane, left);
    var atLowering := match lane case Search => left case AutomaticLoad => after.search case _ => after.automatic;
    && atLowering.Some?
    && (lane == Search ==> Untouched(hasPort, w.search.state, w.search.calls, lane, left))
    && (lane != ApplyMatch ==> Untouched(hasPort, w.automatic.state, w.automatic.calls, lane, after.search))
    && Untouched(hasPort, w.apply.state, w.apply.calls, lane, after.automatic)
  }

  lemma LoweringsTell(hasPort: bool, d: Danmaku, h: Handlers, lane: Lane, left: Option<Request>)
    requires lane != Configuration && Accepts(d, lane, left)
    ensures var w := LoweringsOf(hasPort, d, h);
            var end := w.apply.Finish(hasPort);
            && (InProgress(end, lane) <==> LeavingsOf(hasPort, w, lane, left).apply.Some?)
            && (IsFlagged(end, lane) ==> InProgress(end, lane))
            && (InProgress(end, lane) && !IsFlagged(end, lane) <==> Hidden(hasPort, w, lane, left))
  {
    var w := LoweringsOf(hasPort, d, h);
    var after := LeavingsOf(hasPort, w, lane, left);
    LoweredLane(d, Search, lane, left);
    AfterHandler(hasPort, w.search.state, w.search.calls, lane, left);
    LoweredLane(w.search.Finish(hasPort), AutomaticLoad, lane, after.search);
    AfterHandler(hasPort, w.automatic.state, w.automatic.calls, lane, after.search);
    LoweredLane(w.automatic.Finish(hasPort), ApplyMatch, lane, after.automatic);
    AfterHandler(hasPort, w.apply.state, w.apply.calls, lane, after.automatic);
  }

  // The same for the invalidation of the session, from whatever state: what is out
  // in a lane in the end is what handlers left there. The flag of the lane claims
  // nothing untrue, but it misses a request exactly if handlers had left one when
  // it was lowered and none of workingChanged has done anything to it or to the
  // lane since.
  lemma InvalidationCanHideWork(hasPort: bool, d: Danmaku, h: Handlers, lane: Lane)
    requires lane != Configuration
    ensures var w := LoweringsOf(hasPort, DroppedAround(hasPort, d, h), h);
            var left := LeftAround(hasPort, d, h, lane);
            var end := InvalidatedAround(hasPort, d, h);
            && (InProgress(end, lane) <==> LeavingsOf(hasPort, w, lane, left).apply.Some?)
            && (IsFlagged(end, lane) ==> InProgress(end, lane))
            && (InProgress(end, lane) && !IsFlagged(end, lane) <==> Hidden(hasPort, w, lane, left))
  {
    FourthAccepts(hasPort, d, h, lane);
    LoweringsTell(hasPort, DroppedAround(hasPort, d, h), h, lane, LeftAround(hasPort, d, h, lane));
  }

  // ------------------------------------------------------------------ requests

  // A request up to the announcement of its state, and the rest of it: a search
  // and an automatic load get their id afterwards, with the number the state has
  // by then.
  function Opened(d: Danmaku, lane: Lane, item: string): Danmaku {
    match lane
    case Search => d.(search := d.search.(resource := d.search.resource.Begun(item, 0, 0, false)))
    case AutomaticLoad => d.(automatic := d.automatic.(resource := d.automatic.resource.Begun(item, 0, 0, false)))
    case ApplyMatch =>
      d.(sequence := d.sequence + 1,
         apply := d.apply.Begun(Request(d.NextId(lane, item), item)).(pending := d.apply.pending))
    case Configuration =>
      d.(sequence := d.sequence + 1, configuring := d.configuring.Begun(Request(d.NextId(lane, item), item)))
  }

  function Continued(d: Danmaku, lane: Lane): Danmaku {
    match lane
    case Search =>
      var id := NumberedId("danmaku.search.", d.sequence + 1, d.search.resource.requestId);
      d.(sequence := d.sequence + 1, search := Load(d.search.resource, id, true)).Announcing(d)
    case AutomaticLoad =>
      var id := NumberedId("danmaku.auto.", d.sequence + 1, d.automatic.resource.requestId);
      d.(sequence := d.sequence + 1, automatic := Load(d.automatic.resource, id, true)).Announcing(d)
    case ApplyMatch => d.(apply := d.apply.(pending := true)).Announcing(d)
    case Configuration => d
  }

  // A request with a port during which handlers of the state's signal and of
  // workingChanged call back.
  function BegunAround(d: Danmaku, lane: Lane, item: string, during: seq<Event>, heard: seq<Event>): Danmaku {
    var out := RunFrom(true, Opened(d, lane, item), during);
    RunFrom(true, Continued(out, lane), Heard(out, Continued(out, lane), heard))
  }

  lemma QuietRequest(d: Danmaku, lane: Lane, item: string)
    requires !d.Busy(lane)
    ensures BegunAround(d, lane, item, [], []) == d.Begun(true, lane, item)
  {
  }

  // What a lane waits for when a request is announced: still the id of the one
  // before, with the new item, or in the apply lane the new request itself.
  function Awaited(d: Danmaku, lane: Lane, item: string): Request {
    match lane
    case Search => Request(d.search.request, item)
    case AutomaticLoad => Request(d.automatic.request, item)
    case _ => Request(d.NextId(lane, item), item)
  }

  lemma OpenedAccepts(d: Danmaku, lane: Lane, item: string)
    requires !d.Busy(lane)
    ensures Accepts(Opened(d, lane, item), lane, Some(Awaited(d, lane, item)))
  {
    NextIdIsTrimmed(d, lane, item);
    if lane == ApplyMatch {
      ApplyBegins(d.apply, Awaited(d, lane, item));
    } else if lane == Configuration {
      ConfiguringBegins(d.configuring, Awaited(d, lane, item));
    }
  }

  // The same under the id that it has when the flag is raised.
  function Named(d: Danmaku, lane: Lane, left: Option<Request>): Option<Request> {
    match left
    case None => None
    case Some(q) =>
      match lane
      case Search => Some(Request(d.search.request, q.item))
      case AutomaticLoad => Some(Request(d.automatic.request, q.item))
      case _ => left
  }

  lemma ContinuedLane(d: Danmaku, lane: Lane, left: Option<Request>)
    requires lane != Configuration && Accepts(d, lane, left)
    ensures Accepts(Continued(d, lane), lane, Named(Continued(d, lane), lane, left))
    ensures IsFlagged(Continued(d, lane), lane)
  {
  }

  // However handlers call back while a request is announced: what is out in the
  // lane in the end is what they left there. Its flag then misses nothing, but it
  // claims a request that nothing will end exactly if nothing that the lane waited
  // for was out when the handlers of the state's signal returned, neither the
  // request announced nor the one before nor one of theirs, and no handler of
  // workingChanged did anything to the lane.
  lemma HandlerCanFeignWork(d: Danmaku, lane: Lane, item: string, during: seq<Event>, heard: seq<Event>)
    requires lane != Configuration && !d.Busy(lane)
    ensures var first := Opened(d, lane, item);
            var left := LeftBehind(true, first, during, lane, Some(Awaited(d, lane, item)));
            var out := RunFrom(true, first, during);
            var raised := Continued(out, lane);
            var calls := Heard(out, raised, heard);
            var end := BegunAround(d, lane, item, during, heard);
            && (InProgress(end, lane)
                <==> LeftBehind(true, raised, calls, lane, Named(raised, lane, left)).Some?)
            && (InProgress(end, lane) ==> IsFlagged(end, lane))
            && (IsFlagged(end, lane) && !InProgress(end, lane)
                <==> left.None? && Untouched(true, raised, calls, lane, Named(raised, lane, left)))
  {
    var first := Opened(d, lane, item);
    var awaited := Some(Awaited(d, lane, item));
    var left := LeftBehind(true, first, during, lane, awaited);
    var out := RunFrom(true, first, during);
    var raised := Continued(out, lane);
    OpenedAccepts(d, lane, item);
    AfterHandler(true, first, during, lane, awaited);
    ContinuedLane(out, lane, left);
    AfterHandler(true, raised, Heard(out, raised, heard), lane, Named(raised, lane, left));
  }

  // A search started by a handler of the announcement of another: of the two
  // requests the port gets, the inner one is never accepted, and the outer one
  // exactly if both are for one item. Otherwise the lane waits for neither.
  lemma NestedSearchCanStrandTheLane(d: Danmaku, outer: string, inner: string)
    ensures var first := Opened(d, Search, outer);
            var end := Continued(first.Begun(true, Search, inner), Search);
            && !end.search.Commits(Request(first.NextId(Search, inner), inner))
            && (end.search.Commits(Request(end.search.request, outer)) <==> outer == inner)
            && end.search.pending
  {
    var first := Opened(d, Search, outer);
    var mid := first.Begun(true, Search, inner);
    BegunAsLanes(true, first, Search, Request(first.NextId(Search, inner), inner));
    var id := NumberedId("danmaku.search.", mid.sequence + 1, mid.search.resource.requestId);
    if id == first.NextId(Search, inner) {
      NumberedIdInjective("danmaku.search.", mid.sequence + 1, mid.search.resource.requestId,
                          first.sequence + 1, first.NextStateId(Search));
    }
  }
}
