// The four latest-wins lanes of DanmakuViewModel. Every call and every report
// of the port is one step.
module DanmakuLanes {
  import opened Decimal
  import opened LaneIds
  import opened Options
  import OperationState
  import PlaceMarkers
  import opened ResourceState

  datatype Lane = Search | AutomaticLoad | ApplyMatch | Configuration

  // A request as the port repeats it in its reports: its id and its item, or,
  // in the configuration lane, the kind of change.
  datatype Request = Request(id: string, item: string)

  datatype Verdict = Done(value: string) | Refused(message: string)

  datatype Emission = WorkingChanged | Report(lane: Lane, item: string, verdict: Verdict)

  const UNAVAILABLE := "Backend is unavailable."

  function AnsweredResource(r: Resource, t: ResourceState.Ticket, v: Verdict): Resource {
    match v
    case Done(value) => r.Resolved(t, Some(value), false)
    case Refused(message) => r.Rejected(t, message)
  }

  function AnsweredOperation(o: OperationState.Operation, id: string, v: Verdict): OperationState.Operation {
    match v
    case Done(value) => o.Resolved(id, value)
    case Refused(message) => o.Rejected(id, message)
  }

  // ----------------------------------------------- a lane over a resource state

  datatype Load = Load(resource: Resource, request: string, pending: bool)
  {
    function Ticket(item: string): ResourceState.Ticket {
      ResourceState.Ticket(resource.requestId, item, 0, 0)
    }

    function Begun(q: Request): Load {
      Load(resource.Begun(q.item, 0, 0, false), q.id, true)
    }

    function Unavailable(q: Request): Load {
      Load(resource.Rejected(Ticket(q.item), UNAVAILABLE), "", false)
    }

    predicate Matches(q: Request) {
      q.id == request && q.item == resource.key
    }

    predicate Commits(q: Request) {
      Matches(q) && resource.Accepts(Ticket(q.item))
    }

    function Settled(q: Request, v: Verdict): Load {
      if !Matches(q) then this
      else
        Load(AnsweredResource(resource, Ticket(q.item), v), "", if Commits(q) then false else pending)
    }

    function Dropped(): Load {
      Load(resource.Detached(), "", false)
    }
  }

  // What the lane accepts is the newest unsettled request, if there is one.
  ghost predicate LoadAccepts(l: Load, latest: Option<Request>) {
    && (l.resource.Pending() <==> latest.Some?)
    && (latest.Some? ==> l.request == latest.value.id && l.resource.key == latest.value.item
                         && l.resource.session == l.resource.view == 0 && l.resource.requestId > 0)
  }

  ghost predicate LoadReflects(l: Load, latest: Option<Request>) {
    LoadAccepts(l, latest) && (l.pending <==> latest.Some?) && (latest == None ==> l.request == "")
  }

  lemma LoadBegins(l: Load, q: Request)
    requires q.id != ""
    ensures LoadReflects(l.Begun(q), Some(q))
    ensures LoadReflects(l.Begun(q).Unavailable(q), None)
  {
  }

  // Exactly the report of the newest unsettled request commits, and any other
  // leaves the lane as it is.
  lemma LoadSettles(l: Load, q: Request, v: Verdict, latest: Option<Request>)
    requires LoadReflects(l, latest)
    ensures l.Commits(q) <==> latest == Some(q)
    ensures latest == Some(q) ==> LoadReflects(l.Settled(q, v), None)
    ensures latest != Some(q) ==> l.Settled(q, v) == l
  {
  }

  // ------------------------------------- the two lanes over an operation state

  datatype Apply = Apply(operation: OperationState.Operation, request: string, item: string, pending: bool)
  {
    predicate Busy() {
      operation.phase == OperationState.Running
    }

    function Begun(q: Request): Apply {
      Apply(operation.Begun(q.id), q.id, q.item, true)
    }

    function Unavailable(q: Request): Apply {
      Apply(operation.Rejected(q.id, UNAVAILABLE), "", "", false)
    }

    predicate Matches(q: Request) {
      Busy() && q.id == request && q.item == item
    }

    predicate Commits(q: Request) {
      Matches(q) && operation.Accepts(q.id)
    }

    function Settled(q: Request, v: Verdict): Apply {
      if !Matches(q) then this
      else
        Apply(AnsweredOperation(operation, q.id, v), "", "", if Commits(q) then false else pending)
    }

    function Dropped(): Apply {
      Apply(OperationState.IDLE, "", "", false)
    }
  }

  ghost predicate ApplyAccepts(a: Apply, latest: Option<Request>) {
    && (a.Busy() <==> latest.Some?)
    && (latest.Some? ==> latest.value == Request(a.request, a.item) && a.request == a.operation.mutationId
                         && a.request != "")
  }

  ghost predicate ApplyReflects(a: Apply, latest: Option<Request>) {
    ApplyAccepts(a, latest) && (a.pending <==> latest.Some?)
  }

  lemma ApplyBegins(a: Apply, q: Request)
    requires q.id != "" && OperationState.Trimmed(q.id) == q.id
    ensures ApplyReflects(a.Begun(q), Some(q))
    ensures ApplyReflects(a.Begun(q).Unavailable(q), None)
  {
  }

  lemma ApplySettles(a: Apply, q: Request, v: Verdict, latest: Option<Request>)
    requires ApplyReflects(a, latest)
    ensures a.Commits(q) <==> latest == Some(q)
    ensures latest == Some(q) ==> ApplyReflects(a.Settled(q, v), None)
    ensures latest != Some(q) ==> a.Settled(q, v) == a
  {
  }

  datatype Configuring = Configuring(operation: OperationState.Operation, kind: string, waiting: bool)
  {
    predicate Busy() {
      operation.phase == OperationState.Running
    }

    function Begun(q: Request): Configuring {
      Configuring(operation.Begun(q.id), q.item, true)
    }

    function Unavailable(q: Request): Configuring {
      Configuring(operation.Rejected(q.id, UNAVAILABLE), kind, false)
    }

    predicate Matches(q: Request) {
      waiting && q.item == kind && q.id == operation.mutationId
    }

    function Settled(q: Request, v: Verdict): Configuring {
      if !Matches(q) then this
      else
        Configuring(AnsweredOperation(operation, q.id, v), kind, false)
    }

    function Dropped(): Configuring {
      Configuring(OperationState.IDLE, kind, false)
    }
  }

  ghost predicate ConfiguringReflects(c: Configuring, latest: Option<Request>) {
    && (c.waiting <==> latest.Some?)
    && (c.Busy() <==> latest.Some?)
    && (latest.Some? ==> latest.value == Request(c.operation.mutationId, c.kind) && c.operation.mutationId != "")
  }

  lemma ConfiguringBegins(c: Configuring, q: Request)
    requires q.id != "" && OperationState.Trimmed(q.id) == q.id
    ensures ConfiguringReflects(c.Begun(q), Some(q))
    ensures ConfiguringReflects(c.Begun(q).Unavailable(q), None)
  {
  }

  lemma ConfiguringSettles(c: Configuring, q: Request, v: Verdict, latest: Option<Request>)
    requires ConfiguringReflects(c, latest)
    ensures latest == Some(q) ==> ConfiguringReflects(c.Settled(q, v), None) && !c.Settled(q, v).Busy()
    ensures latest != Some(q) ==> c.Settled(q, v) == c
  {
  }

  // ---------------------------------------------------------------- the view model

  datatype Danmaku = Danmaku(
    search: Load, automatic: Load, apply: Apply, configuring: Configuring,
    sequence: nat, emitted: seq<Emission>)
  {
    predicate Working() {
      search.pending || automatic.pending || apply.pending
    }

    function Emit(emissions: seq<Emission>): Danmaku {
      this.(emitted := emitted + emissions)
    }

    // What setPending adds for a change of the lanes from before to this.
    function Announcing(before: Danmaku): Danmaku {
      if Working() != before.Working() then Emit([WorkingChanged]) else this
    }

    // The number the resource state of a lane gives its next request.
    function NextStateId(lane: Lane): nat {
      match lane
      case Search => search.resource.requestId + 1
      case AutomaticLoad => automatic.resource.requestId + 1
      case _ => 0
    }

    function NextId(lane: Lane, item: string): string {
      IdOf(lane, item, sequence + 1, NextStateId(lane))
    }

    predicate Busy(lane: Lane) {
      match lane
      case Search => false
      case AutomaticLoad => false
      case ApplyMatch => apply.Busy()
      case Configuration => configuring.Busy()
    }

    function WithBegun(lane: Lane, q: Request): Danmaku {
      match lane
      case Search => this.(search := search.Begun(q))
      case AutomaticLoad => this.(automatic := automatic.Begun(q))
      case ApplyMatch => this.(apply := apply.Begun(q))
      case Configuration => this.(configuring := configuring.Begun(q))
    }

    function WithUnavailable(lane: Lane, q: Request): Danmaku {
      match lane
      case Search => this.(search := search.Unavailable(q))
      case AutomaticLoad => this.(automatic := automatic.Unavailable(q))
      case ApplyMatch => this.(apply := apply.Unavailable(q))
      case Configuration => this.(configuring := configuring.Unavailable(q))
    }

    predicate Commits(lane: Lane, q: Request) {
      match lane
      case Search => search.Commits(q)
      case AutomaticLoad => automatic.Commits(q)
      case ApplyMatch => apply.Commits(q)
      case Configuration => false
    }

    function WithSettled(lane: Lane, q: Request, v: Verdict): Danmaku {
      match lane
      case Search => this.(search := search.Settled(q, v))
      case AutomaticLoad => this.(automatic := automatic.Settled(q, v))
      case ApplyMatch => this.(apply := apply.Settled(q, v))
      case Configuration => this.(configuring := configuring.Settled(q, v))
    }

    function Reporting(lane: Lane, item: string, v: Verdict): Danmaku {
      if lane == Configuration then this else Emit([Report(lane, item, v)])
    }

    // search, loadAutomatically, applyMatch, configure and clearConfiguration.
    function Begun(hasPort: bool, lane: Lane, item: string): Danmaku {
      if Busy(lane) then this else BegunAs(hasPort, lane, Request(NextId(lane, item), item))
    }

    function Started(lane: Lane, q: Request): Danmaku {
      this.(sequence := sequence + 1).WithBegun(lane, q).Announcing(this)
    }

    // Without a port the request fails at once.
    function Refusing(lane: Lane, q: Request): Danmaku {
      WithUnavailable(lane, q).Announcing(this).Reporting(lane, q.item, Refused(UNAVAILABLE))
    }

    function BegunAs(hasPort: bool, lane: Lane, q: Request): Danmaku {
      if hasPort then Started(lane, q) else Started(lane, q).Refusing(lane, q)
    }

    // handleCompleted and handleFailed and their configuration counterparts.
    function Settled(lane: Lane, q: Request, v: Verdict): Danmaku {
      var settled := WithSettled(lane, q, v);
      if Commits(lane, q) then settled.Announcing(this).Reporting(lane, q.item, v) else settled
    }

    function Invalidated(): Danmaku {
      Danmaku(search.Dropped(), automatic.Dropped(), apply.Dropped(), configuring.Dropped(), sequence, emitted)
        .Announcing(this)
    }
  }

  const CLEAR := "clear"

  function KindPrefix(kind: string): string {
    if kind == CLEAR then "danmaku.clear." else "danmaku.configure."
  }

  function IdOf(lane: Lane, item: string, number: nat, stateId: nat): string {
    match lane
    case Search => NumberedId("danmaku.search.", number, stateId)
    case AutomaticLoad => NumberedId("danmaku.auto.", number, stateId)
    case ApplyMatch => ItemId("danmaku.apply.", item, number)
    case Configuration => KindPrefix(item) + Digits(number)
  }

  lemma IdOfInjective(lane: Lane, item: string, m: nat, j: nat, n: nat, k: nat)
    requires IdOf(lane, item, m, j) == IdOf(lane, item, n, k)
    ensures m == n
  {
    match lane
    case Search => NumberedIdInjective("danmaku.search.", m, j, n, k);
    case AutomaticLoad => NumberedIdInjective("danmaku.auto.", m, j, n, k);
    case ApplyMatch => ItemIdInjective("danmaku.apply.", item, m, n);
    case Configuration => PlainIdInjective(KindPrefix(item), m, n);
  }

  lemma PlainIdInjective(prefix: string, m: nat, n: nat)
    requires prefix + Digits(m) == prefix + Digits(n)
    ensures m == n
  {
    assert (prefix + Digits(m))[|prefix|..] == Digits(m) && (prefix + Digits(n))[|prefix|..] == Digits(n);
    DigitsInjective(m, n);
  }

  const START := Danmaku(
    Load(ResourceState.IDLE, "", false), Load(ResourceState.IDLE, "", false),
    Apply(OperationState.IDLE, "", "", false), Configuring(OperationState.IDLE, "configure", false), 0, [])

  // ----------------------------------------------------------------------- runs

  datatype Event =
    | Begin(lane: Lane, item: string)
    | Settle(lane: Lane, request: Request, verdict: Verdict)
    | Invalidate

  function Next(hasPort: bool, d: Danmaku, e: Event): Danmaku {
    match e
    case Begin(lane, item) => d.Begun(hasPort, lane, item)
    case Settle(lane, q, v) => d.Settled(lane, q, v)
    case Invalidate => d.Invalidated()
  }

  function Run(hasPort: bool, events: seq<Event>): Danmaku {
    if events == [] then START
    else Next(hasPort, Run(hasPort, events[..|events| - 1]), events[|events| - 1])
  }

  // The newest request of a lane, until it is settled or invalidated. The apply
  // and configuration lanes take no request while they have one.
  function Latest(hasPort: bool, events: seq<Event>, lane: Lane): Option<Request> {
    if events == [] then None
    else
      var before, last := events[..|events| - 1], events[|events| - 1];
      Follow(hasPort, Run(hasPort, before), Latest(hasPort, before, lane), lane, last)
  }

  function Follow(hasPort: bool, d: Danmaku, latest: Option<Request>, lane: Lane, e: Event): Option<Request> {
    match e
    case Begin(l, item) =>
      if l != lane || ((lane == ApplyMatch || lane == Configuration) && latest.Some?) then latest
      else if hasPort then Some(Request(d.NextId(lane, item), item))
      else None
    case Settle(l, q, _) => if l == lane && latest == Some(q) then None else latest
    case Invalidate => None
  }

  ghost predicate Reflects(d: Danmaku, lane: Lane, latest: Option<Request>) {
    match lane
    case Search => LoadReflects(d.search, latest)
    case AutomaticLoad => LoadReflects(d.automatic, latest)
    case ApplyMatch => ApplyReflects(d.apply, latest)
    case Configuration => ConfiguringReflects(d.configuring, latest)
  }

  lemma NextIdIsTrimmed(d: Danmaku, lane: Lane, item: string)
    ensures var id := d.NextId(lane, item); id != "" && OperationState.Trimmed(id) == id
  {
    var n := d.sequence + 1;
    NumberedIdEnds("danmaku.search.", n, d.search.resource.requestId + 1);
    NumberedIdEnds("danmaku.auto.", n, d.automatic.resource.requestId + 1);
    ItemIdEnds("danmaku.apply.", item, n);
    PlainIdEnds(KindPrefix(item), n);
    IsTrimmed(d.NextId(lane, item));
  }

  lemma PlainIdEnds(prefix: string, n: nat)
    requires prefix != "" && 'a' <= prefix[0] <= 'z'
    ensures var id := prefix + Digits(n);
            id != "" && id[0] == prefix[0] && IsDigit(id[|id| - 1])
  {
    assert (prefix + Digits(n))[|prefix + Digits(n)| - 1] == Digits(n)[|Digits(n)| - 1];
  }

  lemma WithBegunReflects(d: Danmaku, q: Request, l: Lane, lane: Lane, latest: Option<Request>)
    requires Reflects(d, lane, latest)
    requires q.id != "" && OperationState.Trimmed(q.id) == q.id
    ensures Reflects(d.WithBegun(l, q), lane, if l == lane then Some(q) else latest)
    ensures Reflects(d.WithBegun(l, q).WithUnavailable(l, q), lane, if l == lane then None else latest)
  {
    LoadBegins(d.search, q);
    LoadBegins(d.automatic, q);
    ApplyBegins(d.apply, q);
    ConfiguringBegins(d.configuring, q);
  }

  predicate SameLanes(d: Danmaku, e: Danmaku) {
    d.search == e.search && d.automatic == e.automatic && d.apply == e.apply && d.configuring == e.configuring
  }

  lemma BegunAsLanes(hasPort: bool, d: Danmaku, l: Lane, q: Request)
    ensures SameLanes(d.BegunAs(hasPort, l, q),
                      if hasPort then d.WithBegun(l, q) else d.WithBegun(l, q).WithUnavailable(l, q))
    ensures d.BegunAs(hasPort, l, q).sequence == d.sequence + 1
  {
  }

  lemma BegunReflects(hasPort: bool, d: Danmaku, l: Lane, item: string, lane: Lane, latest: Option<Request>)
    requires Reflects(d, lane, latest)
    ensures Reflects(d.Begun(hasPort, l, item), lane, Follow(hasPort, d, latest, lane, Event.Begin(l, item)))
  {
    if !d.Busy(l) {
      var q := Request(d.NextId(l, item), item);
      NextIdIsTrimmed(d, l, item);
      WithBegunReflects(d, q, l, lane, latest);
      BegunAsLanes(hasPort, d, l, q);
    }
  }

  lemma SettleReflects(d: Danmaku, q: Request, v: Verdict, l: Lane, lane: Lane, latest: Option<Request>)
    requires Reflects(d, lane, latest)
    ensures Reflects(d.WithSettled(l, q, v), lane, if l == lane && latest == Some(q) then None else latest)
    ensures l == lane && lane != Configuration ==> (d.Commits(lane, q) <==> latest == Some(q))
    ensures l == lane && latest != Some(q) ==> d.WithSettled(l, q, v) == d
  {
    match lane
    case Search => LoadSettles(d.search, q, v, latest);
    case AutomaticLoad => LoadSettles(d.automatic, q, v, latest);
    case ApplyMatch => ApplySettles(d.apply, q, v, latest);
    case Configuration => ConfiguringSettles(d.configuring, q, v, latest);
  }

  lemma InvalidateReflects(d: Danmaku, lane: Lane)
    ensures Reflects(d.Invalidated(), lane, None)
  {
  }

  lemma NextReflects(hasPort: bool, d: Danmaku, e: Event, lane: Lane, latest: Option<Request>)
    requires Reflects(d, lane, latest)
    ensures Reflects(Next(hasPort, d, e), lane, Follow(hasPort, d, latest, lane, e))
  {
    match e
    case Begin(l, item) => BegunReflects(hasPort, d, l, item, lane, latest);
    case Settle(l, q, v) => SettleReflects(d, q, v, l, lane, latest);
    case Invalidate => InvalidateReflects(d, lane);
  }

  lemma {:induction false} RunReflects(hasPort: bool, events: seq<Event>, lane: Lane)
    ensures Reflects(Run(hasPort, events), lane, Latest(hasPort, events, lane))
  {
    if events != [] {
      var before := events[..|events| - 1];
      RunReflects(hasPort, before, lane);
      NextReflects(hasPort, Run(hasPort, before), events[|events| - 1], lane, Latest(hasPort, before, lane));
    }
  }

  // ------------------------------------------------------------------- theorems

  // working() says exactly whether the newest request of some lane is unsettled.
  lemma WorkingIffUnsettled(hasPort: bool, events: seq<Event>)
    ensures Run(hasPort, events).Working()
            <==> Latest(hasPort, events, Search).Some? || Latest(hasPort, events, AutomaticLoad).Some?
                 || Latest(hasPort, events, ApplyMatch).Some?
  {
    RunReflects(hasPort, events, Search);
    RunReflects(hasPort, events, AutomaticLoad);
    RunReflects(hasPort, events, ApplyMatch);
  }

  lemma SettledReports(d: Danmaku, lane: Lane, q: Request, v: Verdict, latest: Option<Request>)
    requires lane != Configuration && Reflects(d, lane, latest) && latest == Some(q)
    ensures var next := d.Settled(lane, q, v);
            next.emitted == d.emitted + (if next.Working() != d.Working() then [WorkingChanged] else [])
                            + [Report(lane, q.item, v)]
  {
    SettleReflects(d, q, v, lane, lane, latest);
  }

  predicate Tells(o: OperationState.Operation, v: Verdict) {
    match v
    case Done(value) => o.phase == OperationState.Succeeded && o.result == value
    case Refused(message) => o.phase == OperationState.Failed && o.errorMessage == OperationState.Trimmed(message)
  }

  lemma OperationsTell(d: Danmaku, lane: Lane, q: Request, v: Verdict, latest: Option<Request>)
    requires Reflects(d, lane, latest) && latest == Some(q)
    ensures lane == ApplyMatch ==> Tells(d.Settled(lane, q, v).apply.operation, v)
    ensures lane == Configuration ==>
              var next := d.Settled(lane, q, v);
              Tells(next.configuring.operation, v) && !next.configuring.waiting && next.emitted == d.emitted
  {
  }

  // After every run a report of the port is passed on exactly if it answers the
  // newest unsettled request of its lane; any other changes nothing at all. In
  // the configuration lane, whose reports are not passed on, it then settles the
  // operation, as in the apply lane.
  lemma OnlyTheNewestReports(hasPort: bool, events: seq<Event>, lane: Lane, q: Request, v: Verdict)
    ensures var d := Run(hasPort, events);
            var next := d.Settled(lane, q, v);
            if Latest(hasPort, events, lane) != Some(q) then next == d
            else
              && (lane == ApplyMatch ==> Tells(next.apply.operation, v))
              && (lane == Configuration ==>
                    Tells(next.configuring.operation, v) && !next.configuring.waiting && next.emitted == d.emitted)
              && (lane != Configuration ==>
                    next.emitted == d.emitted + (if next.Working() != d.Working() then [WorkingChanged] else [])
                                    + [Report(lane, q.item, v)])
  {
    var d, latest := Run(hasPort, events), Latest(hasPort, events, lane);
    RunReflects(hasPort, events, lane);
    if latest == Some(q) {
      OperationsTell(d, lane, q, v, latest);
      if lane != Configuration {
        SettledReports(d, lane, q, v, latest);
      }
    } else {
      SettleReflects(d, q, v, lane, lane, latest);
    }
  }

  // The same for what the search lane shows.
  lemma OnlyTheNewestCommits(hasPort: bool, events: seq<Event>, q: Request, value: string)
    ensures var r := Run(hasPort, events).Settled(Search, q, Done(value)).search.resource;
            if Latest(hasPort, events, Search) == Some(q) then r.phase == Ready && r.data == Some(value)
            else r == Run(hasPort, events).search.resource
  {
    RunReflects(hasPort, events, Search);
  }

  // The ids, spelled out.
  predicate IsId(d: Danmaku, lane: Lane, item: string, id: string) {
    var n := Digits(d.sequence + 1);
    match lane
    case Search => id == "danmaku.search." + n + "." + Digits(d.search.resource.requestId + 1)
    case AutomaticLoad => id == "danmaku.auto." + n + "." + Digits(d.automatic.resource.requestId + 1)
    case ApplyMatch => id == PlaceMarkers.Arg("danmaku.apply." + item + ".%2", n)
    case Configuration => id == (if item == "clear" then "danmaku.clear." else "danmaku.configure.") + n
  }

  predicate IsLoading(l: Load, id: string, item: string) {
    && l.request == id && l.pending && l.resource.key == item
    && l.resource.phase == Loading && l.resource.data == None
  }

  predicate IsRefused(l: Load, item: string) {
    && l.request == "" && !l.pending && l.resource.key == item && l.resource.data == None
    && l.resource.phase == Error && l.resource.errorMessage == OperationState.Trimmed("Backend is unavailable.")
  }

  predicate IsRunning(o: OperationState.Operation, id: string) {
    o == OperationState.Operation(OperationState.Running, id, "", "")
  }

  predicate HasFailed(o: OperationState.Operation, id: string) {
    o == OperationState.Operation(OperationState.Failed, id, "", OperationState.Trimmed("Backend is unavailable."))
  }

  // What the lane of a request shows of it.
  predicate ShowsRequest(hasPort: bool, next: Danmaku, lane: Lane, id: string, item: string) {
    match lane
    case Search => if hasPort then IsLoading(next.search, id, item) else IsRefused(next.search, item)
    case AutomaticLoad => if hasPort then IsLoading(next.automatic, id, item) else IsRefused(next.automatic, item)
    case ApplyMatch =>
      if hasPort then IsRunning(next.apply.operation, id) && next.apply.request == id && next.apply.item == item
                      && next.apply.pending
      else HasFailed(next.apply.operation, id) && next.apply.request == "" && !next.apply.pending
    case Configuration =>
      next.configuring.kind == item && next.configuring.waiting == hasPort
      && if hasPort then IsRunning(next.configuring.operation, id) else HasFailed(next.configuring.operation, id)
  }

  lemma ResourcesShowRequests(d: Danmaku, lane: Lane, q: Request)
    requires q.id != "" && OperationState.Trimmed(q.id) == q.id
    ensures ShowsRequest(true, d.WithBegun(lane, q), lane, q.id, q.item)
    ensures ShowsRequest(false, d.WithBegun(lane, q).WithUnavailable(lane, q), lane, q.id, q.item)
  {
  }

  // The other lanes are as they were.
  predicate OthersStay(d: Danmaku, next: Danmaku, lane: Lane) {
    && (lane != Search ==> next.search == d.search) && (lane != AutomaticLoad ==> next.automatic == d.automatic)
    && (lane != ApplyMatch ==> next.apply == d.apply)
    && (lane != Configuration ==> next.configuring == d.configuring)
  }

  // A request is refused only where the lane does not supersede and still waits.
  // Otherwise the lane shows it, under an id of its own; without a port as failed,
  // and for all but the configuration that is also reported.
  lemma RequestsAreMade(hasPort: bool, events: seq<Event>, lane: Lane, item: string)
    ensures var d := Run(hasPort, events);
            var next := d.Begun(hasPort, lane, item);
            if (lane == ApplyMatch || lane == Configuration) && Latest(hasPort, events, lane).Some? then next == d
            else
              && next.sequence == d.sequence + 1 && OthersStay(d, next, lane)
              && (exists id :: IsId(d, lane, item, id) && ShowsRequest(hasPort, next, lane, id, item))
              && (!hasPort && lane != Configuration ==>
                    d.emitted < next.emitted
                    && next.emitted[|next.emitted| - 1] == Report(lane, item, Refused("Backend is unavailable.")))
              && (hasPort || lane == Configuration ==>
                    next.emitted == d.emitted + (if next.Working() != d.Working() then [WorkingChanged] else []))
  {
    var d := Run(hasPort, events);
    RunReflects(hasPort, events, lane);
    BusyReflects(d, lane, Latest(hasPort, events, lane));
    if !d.Busy(lane) {
      var q := Request(d.NextId(lane, item), item);
      NextIdIsTrimmed(d, lane, item);
      ResourcesShowRequests(d, lane, q);
      BegunAsLanes(hasPort, d, lane, q);
      BegunEmits(hasPort, d, lane, q);
      assert IsId(d, lane, item, q.id);
      ShownAlike(hasPort, d, lane, q);
    }
  }

  lemma ShownAlike(hasPort: bool, d: Danmaku, lane: Lane, q: Request)
    requires q.id != "" && OperationState.Trimmed(q.id) == q.id
    ensures ShowsRequest(hasPort, d.BegunAs(hasPort, lane, q), lane, q.id, q.item)
    ensures OthersStay(d, d.BegunAs(hasPort, lane, q), lane)
  {
    ResourcesShowRequests(d, lane, q);
    BegunAsLanes(hasPort, d, lane, q);
  }

  lemma BegunEmits(hasPort: bool, d: Danmaku, lane: Lane, q: Request)
    ensures var next := d.BegunAs(hasPort, lane, q);
            && (!hasPort && lane != Configuration ==>
                  d.emitted < next.emitted
                  && next.emitted[|next.emitted| - 1] == Report(lane, q.item, Refused("Backend is unavailable.")))
            && (hasPort || lane == Configuration ==>
                  next.emitted == d.emitted + (if next.Working() != d.Working() then [WorkingChanged] else []))
  {
  }

  function Announcements(emitted: seq<Emission>): nat {
    if emitted == [] then 0
    else Announcements(emitted[..|emitted| - 1]) + (if emitted[|emitted| - 1] == WorkingChanged then 1 else 0)
  }

  lemma OneMore(emitted: seq<Emission>, e: Emission)
    ensures Announcements(emitted + [e]) == Announcements(emitted) + (if e == WorkingChanged then 1 else 0)
  {
    assert (emitted + [e])[..|emitted|] == emitted;
  }

  function Change(before: bool, after: bool): nat {
    if before != after then 1 else 0
  }

  // A request that is refused for want of a port raises its flag and lowers it
  // again.
  predicate IsBrief(hasPort: bool, d: Danmaku, e: Event) {
    e.Begin? && !hasPort && e.lane != Configuration && !d.Busy(e.lane)
  }

  function StepChanges(hasPort: bool, d: Danmaku, e: Event): nat {
    var next := Next(hasPort, d, e);
    if IsBrief(hasPort, d, e) then Change(d.Working(), true) + Change(true, next.Working())
    else Change(d.Working(), next.Working())
  }

  // How often working() changes in the course of a run.
  function Changes(hasPort: bool, events: seq<Event>): nat {
    if events == [] then 0
    else
      var before, last := events[..|events| - 1], events[|events| - 1];
      Changes(hasPort, before) + StepChanges(hasPort, Run(hasPort, before), last)
  }

  lemma AnnouncingAnnounces(before: Danmaku, after: Danmaku)
    requires after.emitted == before.emitted
    ensures var d := after.Announcing(before);
            && d.Working() == after.Working()
            && Announcements(d.emitted)
            == Announcements(before.emitted) + Change(before.Working(), after.Working())
  {
    OneMore(before.emitted, WorkingChanged);
  }

  lemma ReportingAnnounces(d: Danmaku, lane: Lane, item: string, v: Verdict)
    ensures var reported := d.Reporting(lane, item, v);
            reported.Working() == d.Working() && Announcements(reported.emitted) == Announcements(d.emitted)
  {
    OneMore(d.emitted, Report(lane, item, v));
  }

  lemma LanesDoNotEmit(d: Danmaku, lane: Lane, q: Request, v: Verdict)
    ensures d.WithBegun(lane, q).emitted == d.WithUnavailable(lane, q).emitted
         == d.WithSettled(lane, q, v).emitted == d.emitted
  {
  }

  lemma StartedAnnounces(d: Danmaku, lane: Lane, q: Request)
    ensures var begun := d.Started(lane, q);
            && begun.Working() == (lane != Configuration || d.Working())
            && Announcements(begun.emitted) == Announcements(d.emitted) + Change(d.Working(), begun.Working())
  {
    var counted := d.(sequence := d.sequence + 1);
    LanesDoNotEmit(counted, lane, q, Refused(UNAVAILABLE));
    AnnouncingAnnounces(d, counted.WithBegun(lane, q));
  }

  lemma RefusingAnnounces(begun: Danmaku, lane: Lane, q: Request)
    ensures var refused := begun.Refusing(lane, q);
            && (lane == Configuration ==> refused.Working() == begun.Working())
            && Announcements(refused.emitted)
            == Announcements(begun.emitted) + Change(begun.Working(), refused.Working())
  {
    var v := Refused(UNAVAILABLE);
    LanesDoNotEmit(begun, lane, q, v);
    AnnouncingAnnounces(begun, begun.WithUnavailable(lane, q));
    ReportingAnnounces(begun.WithUnavailable(lane, q).Announcing(begun), lane, q.item, v);
  }

  lemma BegunAnnounces(hasPort: bool, d: Danmaku, lane: Lane, item: string)
    ensures Announcements(d.Begun(hasPort, lane, item).emitted)
         == Announcements(d.emitted) + StepChanges(hasPort, d, Event.Begin(lane, item))
  {
    if !d.Busy(lane) {
      var q := Request(d.NextId(lane, item), item);
      StartedAnnounces(d, lane, q);
      if !hasPort {
        RefusingAnnounces(d.Started(lane, q), lane, q);
      }
    }
  }

  lemma UnsettledWorks(d: Danmaku, lane: Lane, q: Request, v: Verdict)
    requires !d.Commits(lane, q)
    ensures d.WithSettled(lane, q, v).Working() == d.Working()
  {
  }

  lemma SettledAnnounces(d: Danmaku, lane: Lane, q: Request, v: Verdict)
    ensures var next := d.Settled(lane, q, v);
            Announcements(next.emitted) == Announcements(d.emitted) + Change(d.Working(), next.Working())
  {
    var settled := d.WithSettled(lane, q, v);
    LanesDoNotEmit(d, lane, q, v);
    if d.Commits(lane, q) {
      AnnouncingAnnounces(d, settled);
      ReportingAnnounces(settled.Announcing(d), lane, q.item, v);
    } else {
      UnsettledWorks(d, lane, q, v);
    }
  }

  lemma NextAnnounces(hasPort: bool, d: Danmaku, e: Event)
    ensures Announcements(Next(hasPort, d, e).emitted) == Announcements(d.emitted) + StepChanges(hasPort, d, e)
  {
    match e
    case Begin(lane, item) => BegunAnnounces(hasPort, d, lane, item);
    case Settle(lane, q, v) => SettledAnnounces(d, lane, q, v);
    case Invalidate => AnnouncingAnnounces(d, d.Invalidated().(emitted := d.emitted));
  }

  lemma ToAndFro(before: bool, between: bool, after: bool)
    ensures after == (before != (Change(before, after) % 2 == 1))
    ensures after == (before != ((Change(before, between) + Change(between, after)) % 2 == 1))
  {
  }

  lemma NextChanges(hasPort: bool, d: Danmaku, e: Event)
    ensures Next(hasPort, d, e).Working() == (d.Working() != (StepChanges(hasPort, d, e) % 2 == 1))
  {
    ToAndFro(d.Working(), true, Next(hasPort, d, e).Working());
  }

  // workingChanged has been emitted n times, and the last time told the truth; at
  // first working() is false.
  ghost predicate Announced(d: Danmaku, n: nat) {
    Announcements(d.emitted) == n && (d.Working() <==> n % 2 == 1)
  }

  lemma AnnouncedFurther(d: Danmaku, next: Danmaku, n: nat, changes: nat)
    requires Announced(d, n) && Announcements(next.emitted) == Announcements(d.emitted) + changes
    requires next.Working() == (d.Working() != (changes % 2 == 1))
    ensures Announced(next, n + changes)
  {
  }

  // workingChanged is emitted exactly as often as working() changes.
  lemma {:induction false} EveryChangeIsAnnounced(hasPort: bool, events: seq<Event>)
    ensures Announced(Run(hasPort, events), Changes(hasPort, events))
  {
    if events != [] {
      var before, last := events[..|events| - 1], events[|events| - 1];
      EveryChangeIsAnnounced(hasPort, before);
      NextAnnounces(hasPort, Run(hasPort, before), last);
      NextChanges(hasPort, Run(hasPort, before), last);
      AnnouncedFurther(Run(hasPort, before), Run(hasPort, events), Changes(hasPort, before),
                       StepChanges(hasPort, Run(hasPort, before), last));
    }
  }

  // q was issued under number n.
  predicate Carries(lane: Lane, q: Request, n: nat, k: nat) {
    q.id == IdOf(lane, q.item, n, k)
  }

  lemma NumbersGrow(hasPort: bool, d: Danmaku, e: Event)
    ensures d.sequence <= Next(hasPort, d, e).sequence <= d.sequence + 1
    ensures e.Begin? && !d.Busy(e.lane) ==> Next(hasPort, d, e).sequence == d.sequence + 1
  {
    if e.Begin? && !d.Busy(e.lane) {
      BegunAsLanes(hasPort, d, e.lane, Request(d.NextId(e.lane, e.item), e.item));
    }
  }

  lemma BusyReflects(d: Danmaku, lane: Lane, latest: Option<Request>)
    requires Reflects(d, lane, latest)
    ensures d.Busy(lane) <==> (lane == ApplyMatch || lane == Configuration) && latest.Some?
  {
  }

  lemma {:induction false} LatestIsNumbered(hasPort: bool, events: seq<Event>, lane: Lane) returns (n: nat, k: nat)
    ensures n <= Run(hasPort, events).sequence
    ensures var latest := Latest(hasPort, events, lane); latest.Some? ==> Carries(lane, latest.value, n, k)
  {
    n, k := 0, 0;
    if events != [] {
      var before, last := events[..|events| - 1], events[|events| - 1];
      var d := Run(hasPort, before);
      n, k := LatestIsNumbered(hasPort, before, lane);
      RunReflects(hasPort, before, lane);
      BusyReflects(d, lane, Latest(hasPort, before, lane));
      NumbersGrow(hasPort, d, last);
      if last.Begin? && last.lane == lane && !d.Busy(lane) {
        n, k := d.sequence + 1, d.NextStateId(lane);
      }
    }
  }

  lemma NotTakenUpAgain(hasPort: bool, d: Danmaku, lane: Lane, latest: Option<Request>, e: Event,
                        q: Request, n: nat, k: nat)
    requires Carries(lane, q, n, k) && n <= d.sequence && latest != Some(q)
    ensures Follow(hasPort, d, latest, lane, e) != Some(q)
  {
    if e.Begin? && d.NextId(lane, e.item) == q.id && e.item == q.item {
      IdOfInjective(lane, q.item, n, k, d.sequence + 1, d.NextStateId(lane));
    }
  }

  ghost predicate Superseded(hasPort: bool, events: seq<Event>, lane: Lane, q: Request, n: nat) {
    n <= Run(hasPort, events).sequence && Latest(hasPort, events, lane) != Some(q)
  }

  lemma StaysSuperseded(hasPort: bool, events: seq<Event>, all: seq<Event>, lane: Lane, q: Request, n: nat, k: nat)
    requires Carries(lane, q, n, k) && Superseded(hasPort, events, lane, q, n)
    requires |all| == |events| + 1 && all[..|events|] == events
    ensures Superseded(hasPort, all, lane, q, n)
  {
    var d, e := Run(hasPort, events), all[|events|];
    NumbersGrow(hasPort, d, e);
    NotTakenUpAgain(hasPort, d, lane, Latest(hasPort, events, lane), e, q, n, k);
  }

  lemma {:induction false} SupersededPrefix(hasPort: bool, all: seq<Event>, m: nat, i: nat, lane: Lane,
                                            q: Request, n: nat, k: nat)
    requires m <= i <= |all| && Carries(lane, q, n, k) && Superseded(hasPort, all[..m], lane, q, n)
    ensures Superseded(hasPort, all[..i], lane, q, n)
    decreases i
  {
    if m < i {
      SupersededPrefix(hasPort, all, m, i - 1, lane, q, n, k);
      StaysSuperseded(hasPort, all[..i - 1], all[..i], lane, q, n, k);
    }
  }

  // A request that was the newest of its lane and no longer is, because it was
  // settled, superseded or invalidated, never is again: no report, however late
  // or repeated, can commit it.
  lemma SupersededForGood(hasPort: bool, first: seq<Event>, second: seq<Event>, third: seq<Event>,
                          lane: Lane, q: Request)
    requires Latest(hasPort, first, lane) == Some(q)
    requires Latest(hasPort, first + second, lane) != Some(q)
    ensures Latest(hasPort, first + second + third, lane) != Some(q)
  {
    var n, k := LatestIsNumbered(hasPort, first, lane);
    var all := first + second + third;
    SequenceGrows(hasPort, first, second);
    assert all[..|first + second|] == first + second && all[..|all|] == all;
    SupersededPrefix(hasPort, all, |first + second|, |all|, lane, q, n, k);
  }

  lemma OneMoreGrows(hasPort: bool, events: seq<Event>, all: seq<Event>)
    requires |all| == |events| + 1 && all[..|events|] == events
    ensures Run(hasPort, events).sequence <= Run(hasPort, all).sequence
  {
    NumbersGrow(hasPort, Run(hasPort, events), all[|events|]);
  }

  lemma {:induction false} SequenceGrows(hasPort: bool, events: seq<Event>, more: seq<Event>)
    ensures Run(hasPort, events).sequence <= Run(hasPort, events + more).sequence
    decreases |more|
  {
    var all := events + more;
    if more == [] {
      assert all == events;
    } else {
      var before := events + more[..|more| - 1];
      SequenceGrows(hasPort, events, more[..|more| - 1]);
      assert all == before + [more[|more| - 1]];
      OneMoreGrows(hasPort, before, all);
    }
  }

  lemma InvalidatedIsDeaf(d: Danmaku, lane: Lane, q: Request, v: Verdict)
    ensures d.Invalidated().Settled(lane, q, v) == d.Invalidated()
  {
  }

  // ---------------------------------------------------------------- the object

  // A report handed to a resource state under that state's own request id.
  method SettleResource(state: AsyncResourceState, item: string, v: Verdict) returns (accepted: bool)
    modifies state
    ensures var ticket := ResourceState.Ticket(old(state.requestId), item, 0, 0);
            && accepted == old(state.Value()).Accepts(ticket)
            && state.Value() == AnsweredResource(old(state.Value()), ticket, v)
  {
    match v
    case Done(value) => accepted := state.Resolve(state.requestId, item, 0, 0, Some(value), false);
    case Refused(message) => accepted := state.Reject(state.requestId, item, 0, 0, message);
  }

  method SettleOperation(operation: OperationState.AsyncOperationState, id: string, v: Verdict)
    returns (accepted: bool)
    modifies operation
    ensures accepted == old(operation.Value()).Accepts(id)
    ensures operation.Value() == AnsweredOperation(old(operation.Value()), id, v)
  {
    match v
    case Done(value) => accepted := operation.Resolve(id, value);
    case Refused(message) => accepted := operation.Reject(id, message);
  }

  class DanmakuViewModel {
    const hasPort: bool
    const searchState: AsyncResourceState
    const automaticLoadState: AsyncResourceState
    const applyOperation: OperationState.AsyncOperationState
    const configurationOperation: OperationState.AsyncOperationState
    var searchRequestId: string
    var automaticLoadRequestId: string
    var applyRequestId: string
    var applyItemId: string
    var pendingConfiguration: string
    var hasPendingConfiguration: bool
    var searchPending: bool
    var automaticLoadPending: bool
    var applyMatchPending: bool
    var operationSequence: nat
    var emitted: seq<Emission>

    ghost predicate Valid() {
      searchState != automaticLoadState && applyOperation != configurationOperation
    }

    ghost function SearchLane(): Load
      reads `searchRequestId, `searchPending, searchState
    {
      Load(searchState.Value(), searchRequestId, searchPending)
    }

    ghost function AutomaticLane(): Load
      reads `automaticLoadRequestId, `automaticLoadPending, automaticLoadState
    {
      Load(automaticLoadState.Value(), automaticLoadRequestId, automaticLoadPending)
    }

    ghost function ApplyLane(): Apply
      reads `applyRequestId, `applyItemId, `applyMatchPending, applyOperation
    {
      Apply(applyOperation.Value(), applyRequestId, applyItemId, applyMatchPending)
    }

    ghost function ConfigurationLane(): Configuring
      reads `pendingConfiguration, `hasPendingConfiguration, configurationOperation
    {
      Configuring(configurationOperation.Value(), pendingConfiguration, hasPendingConfiguration)
    }

    ghost function Value(): Danmaku
      reads this, searchState, automaticLoadState, applyOperation, configurationOperation
    {
      Danmaku(SearchLane(), AutomaticLane(), ApplyLane(), ConfigurationLane(), operationSequence, emitted)
    }

    constructor (port: bool)
      ensures hasPort == port && Valid() && Value() == START
      ensures fresh(searchState) && fresh(automaticLoadState) && fresh(applyOperation) && fresh(configurationOperation)
    {
      hasPort := port;
      var search := new AsyncResourceState();
      var automatic := new AsyncResourceState();
      var apply := new OperationState.AsyncOperationState();
      var configuration := new OperationState.AsyncOperationState();
      searchState, automaticLoadState := search, automatic;
      applyOperation, configurationOperation := apply, configuration;
      searchRequestId, automaticLoadRequestId, applyRequestId, applyItemId := "", "", "", "";
      pendingConfiguration, hasPendingConfiguration := "configure", false;
      searchPending, automaticLoadPending, applyMatchPending := false, false, false;
      operationSequence, emitted := 0, [];
    }

    predicate Working()
      reads this
    {
      searchPending || automaticLoadPending || applyMatchPending
    }

    // setPending, lane by lane: workingChanged if working() has changed.
    method SetSearchPending(pending: bool)
      modifies `searchPending, `emitted
      ensures searchPending == pending
      ensures emitted == old(emitted) + (if Working() != old(Working()) then [WorkingChanged] else [])
    {
      var wasWorking := Working();
      searchPending := pending;
      if Working() != wasWorking {
        emitted := emitted + [WorkingChanged];
      }
    }

    method SetAutomaticPending(pending: bool)
      modifies `automaticLoadPending, `emitted
      ensures automaticLoadPending == pending
      ensures emitted == old(emitted) + (if Working() != old(Working()) then [WorkingChanged] else [])
    {
      var wasWorking := Working();
      automaticLoadPending := pending;
      if Working() != wasWorking {
        emitted := emitted + [WorkingChanged];
      }
    }

    method SetApplyPending(pending: bool)
      modifies `applyMatchPending, `emitted
      ensures applyMatchPending == pending
      ensures emitted == old(emitted) + (if Working() != old(Working()) then [WorkingChanged] else [])
    {
      var wasWorking := Working();
      applyMatchPending := pending;
      if Working() != wasWorking {
        emitted := emitted + [WorkingChanged];
      }
    }

    method StartSearch(item: string) returns (q: Request, stateRequestId: nat)
      requires Valid()
      modifies `searchRequestId, `searchPending, `operationSequence, `emitted, searchState
      ensures q == Request(old(Value()).NextId(Search, item), item) && stateRequestId == searchState.requestId
      ensures Value() == old(Value()).Started(Search, q)
    {
      stateRequestId := searchState.Begin(item, 0, 0, false);
      operationSequence := operationSequence + 1;
      searchRequestId := NumberedId("danmaku.search.", operationSequence, stateRequestId);
      SetSearchPending(true);
      q := Request(searchRequestId, item);
    }

    method RefuseSearch(q: Request, stateRequestId: nat)
      requires Valid() && stateRequestId == searchState.requestId
      modifies `searchRequestId, `searchPending, `operationSequence, `emitted, searchState
      ensures Value() == old(Value()).Refusing(Search, q)
    {
      searchRequestId := "";
      var rejected := searchState.Reject(stateRequestId, q.item, 0, 0, UNAVAILABLE);
      SetSearchPending(false);
      emitted := emitted + [Report(Search, q.item, Refused(UNAVAILABLE))];
    }

    // sent is what the port is handed.
    method BeginSearch(item: string) returns (sent: Option<Request>)
      requires Valid()
      modifies `searchRequestId, `searchPending, `operationSequence, `emitted, searchState
      ensures Value() == old(Value()).Begun(hasPort, Search, item)
      ensures sent == if hasPort then Some(Request(old(Value()).NextId(Search, item), item)) else None
    {
      var q, stateRequestId := StartSearch(item);
      if hasPort {
        return Some(q);
      }
      RefuseSearch(q, stateRequestId);
      return None;
    }

    // The search branches of handleCompleted and handleFailed.
    method HandleSearchReport(q: Request, v: Verdict)
      requires Valid()
      modifies `searchRequestId, `searchPending, `operationSequence, `emitted, searchState
      ensures Value() == old(Value()).Settled(Search, q, v)
    {
      if q.id != searchRequestId || q.item != searchState.resourceKey {
        return;
      }
      searchRequestId := "";
      var accepted := SettleResource(searchState, q.item, v);
      if !accepted {
        return;
      }
      SetSearchPending(false);
      emitted := emitted + [Report(Search, q.item, v)];
    }

    method StartAutomatic(item: string) returns (q: Request, stateRequestId: nat)
      requires Valid()
      modifies `automaticLoadRequestId, `automaticLoadPending, `operationSequence, `emitted, automaticLoadState
      ensures q == Request(old(Value()).NextId(AutomaticLoad, item), item)
      ensures stateRequestId == automaticLoadState.requestId
      ensures Value() == old(Value()).Started(AutomaticLoad, q)
    {
      stateRequestId := automaticLoadState.Begin(item, 0, 0, false);
      operationSequence := operationSequence + 1;
      automaticLoadRequestId := NumberedId("danmaku.auto.", operationSequence, stateRequestId);
      SetAutomaticPending(true);
      q := Request(automaticLoadRequestId, item);
    }

    method RefuseAutomatic(q: Request, stateRequestId: nat)
      requires Valid() && stateRequestId == automaticLoadState.requestId
      modifies `automaticLoadRequestId, `automaticLoadPending, `operationSequence, `emitted, automaticLoadState
      ensures Value() == old(Value()).Refusing(AutomaticLoad, q)
    {
      automaticLoadRequestId := "";
      var rejected := automaticLoadState.Reject(stateRequestId, q.item, 0, 0, UNAVAILABLE);
      SetAutomaticPending(false);
      emitted := emitted + [Report(AutomaticLoad, q.item, Refused(UNAVAILABLE))];
    }

    method LoadAutomatically(item: string) returns (sent: Option<Request>)
      requires Valid()
      modifies `automaticLoadRequestId, `automaticLoadPending, `operationSequence, `emitted, automaticLoadState
      ensures Value() == old(Value()).Begun(hasPort, AutomaticLoad, item)
      ensures sent == if hasPort then Some(Request(old(Value()).NextId(AutomaticLoad, item), item)) else None
    {
      var q, stateRequestId := StartAutomatic(item);
      if hasPort {
        return Some(q);
      }
      RefuseAutomatic(q, stateRequestId);
      return None;
    }

    // The automatic branches of handleCompleted and handleFailed.
    method HandleAutomaticReport(q: Request, v: Verdict)
      requires Valid()
      modifies `automaticLoadRequestId, `automaticLoadPending, `operationSequence, `emitted, automaticLoadState
      ensures Value() == old(Value()).Settled(AutomaticLoad, q, v)
    {
      if q.id != automaticLoadRequestId || q.item != automaticLoadState.resourceKey {
        return;
      }
      automaticLoadRequestId := "";
      var accepted := SettleResource(automaticLoadState, q.item, v);
      if !accepted {
        return;
      }
      SetAutomaticPending(false);
      emitted := emitted + [Report(AutomaticLoad, q.item, v)];
    }

    method StartApply(q: Request)
      requires Valid()
      modifies `applyRequestId, `applyItemId, `applyMatchPending, `operationSequence, `emitted, applyOperation
      ensures Value() == old(Value()).Started(ApplyMatch, q)
    {
      operationSequence := operationSequence + 1;
      applyRequestId := q.id;
      applyItemId := q.item;
      var begun := applyOperation.Begin(applyRequestId);
      SetApplyPending(true);
    }

    method RefuseApply(q: Request)
      requires Valid()
      modifies `applyRequestId, `applyItemId, `applyMatchPending, `operationSequence, `emitted, applyOperation
      ensures Value() == old(Value()).Refusing(ApplyMatch, q)
    {
      applyRequestId := "";
      applyItemId := "";
      var rejected := applyOperation.Reject(q.id, UNAVAILABLE);
      SetApplyPending(false);
      emitted := emitted + [Report(ApplyMatch, q.item, Refused(UNAVAILABLE))];
    }

    method BeginApply(item: string) returns (sent: Option<Request>)
      requires Valid()
      modifies `applyRequestId, `applyItemId, `applyMatchPending, `operationSequence, `emitted, applyOperation
      ensures Value() == old(Value()).Begun(hasPort, ApplyMatch, item)
      ensures sent == if hasPort && !old(Value()).Busy(ApplyMatch)
                      then Some(Request(old(Value()).NextId(ApplyMatch, item), item)) else None
    {
      if applyOperation.phase == OperationState.Running {
        return None;
      }
      var q := Request(ItemId("danmaku.apply.", item, operationSequence + 1), item);
      StartApply(q);
      if hasPort {
        return Some(q);
      }
      RefuseApply(q);
      return None;
    }

    method HandleApplyReport(q: Request, v: Verdict)
      requires Valid()
      modifies `applyRequestId, `applyItemId, `applyMatchPending, `emitted, applyOperation
      ensures Value() == old(Value()).Settled(ApplyMatch, q, v)
    {
      if applyOperation.phase != OperationState.Running || q.id != applyRequestId || q.item != applyItemId {
        return;
      }
      var accepted := SettleApply(q, v);
      if !accepted {
        return;
      }
      SetApplyPending(false);
      emitted := emitted + [Report(ApplyMatch, q.item, v)];
    }

    // Up to what the operation says to it.
    method SettleApply(q: Request, v: Verdict) returns (accepted: bool)
      requires Valid() && ApplyLane().Matches(q)
      modifies `applyRequestId, `applyItemId, applyOperation
      ensures accepted == old(ApplyLane()).Commits(q)
      ensures ApplyLane() == if accepted then old(ApplyLane()).Settled(q, v).(pending := applyMatchPending)
                             else old(ApplyLane()).Settled(q, v)
    {
      applyRequestId := "";
      applyItemId := "";
      accepted := SettleOperation(applyOperation, q.id, v);
    }

    // configure and clearConfiguration, which differ in the kind.
    method BeginConfiguration(kind: string) returns (sent: Option<Request>)
      requires Valid()
      modifies `pendingConfiguration, `hasPendingConfiguration, `operationSequence, configurationOperation
      ensures Value() == old(Value()).Begun(hasPort, Configuration, kind)
      ensures sent == if hasPort && !old(Value()).Busy(Configuration)
                      then Some(Request(old(Value()).NextId(Configuration, kind), kind)) else None
    {
      if configurationOperation.phase == OperationState.Running {
        return None;
      }
      var q := Request(KindPrefix(kind) + Digits(operationSequence + 1), kind);
      StartConfiguration(q);
      if hasPort {
        return Some(q);
      }
      hasPendingConfiguration := false;
      var rejected := configurationOperation.Reject(q.id, UNAVAILABLE);
      return None;
    }

    method StartConfiguration(q: Request)
      requires Valid()
      modifies `pendingConfiguration, `hasPendingConfiguration, `operationSequence, configurationOperation
      ensures Value() == old(Value()).Started(Configuration, q)
    {
      operationSequence := operationSequence + 1;
      pendingConfiguration := q.item;
      hasPendingConfiguration := true;
      var begun := configurationOperation.Begin(q.id);
    }

    method HandleConfigurationReport(q: Request, v: Verdict)
      requires Valid()
      modifies `pendingConfiguration, `hasPendingConfiguration, `operationSequence, configurationOperation
      ensures Value() == old(Value()).Settled(Configuration, q, v)
    {
      if !hasPendingConfiguration || q.item != pendingConfiguration || q.id != configurationOperation.mutationId {
        return;
      }
      hasPendingConfiguration := false;
      var accepted := SettleOperation(configurationOperation, q.id, v);
    }

    // From now on no report counts, until a request is begun in its lane.
    method InvalidateSession()
      requires Valid()
      modifies this, searchState, automaticLoadState, applyOperation, configurationOperation
      ensures Value() == old(Value()).Invalidated() && !Working()
      ensures forall lane, q, v :: Value().Settled(lane, q, v) == Value()
    {
      DetachLanes();
      ClearPending();
      forall lane, q, v ensures Value().Settled(lane, q, v) == Value() {
        InvalidatedIsDeaf(old(Value()), lane, q, v);
      }
    }

    // Everything but the pending flags.
    method DetachLanes()
      requires Valid()
      modifies `searchRequestId, `automaticLoadRequestId, `applyRequestId, `applyItemId, `hasPendingConfiguration
      modifies searchState, automaticLoadState, applyOperation, configurationOperation
      ensures SearchLane() == old(SearchLane()).Dropped().(pending := searchPending)
      ensures AutomaticLane() == old(AutomaticLane()).Dropped().(pending := automaticLoadPending)
      ensures ApplyLane() == old(ApplyLane()).Dropped().(pending := applyMatchPending)
      ensures ConfigurationLane() == old(ConfigurationLane()).Dropped()
    {
      searchRequestId := "";
      automaticLoadRequestId := "";
      applyRequestId := "";
      applyItemId := "";
      searchState.Detach();
      automaticLoadState.Detach();
      applyOperation.Reset();
      hasPendingConfiguration := false;
      configurationOperation.Reset();
    }

    method ClearPending()
      modifies `searchPending, `automaticLoadPending, `applyMatchPending, `emitted
      ensures !searchPending && !automaticLoadPending && !applyMatchPending
      ensures emitted == old(emitted) + (if old(Working()) then [WorkingChanged] else [])
    {
      SetSearchPending(false);
      SetAutomaticPending(false);
      SetApplyPending(false);
    }
  }
}
