// The preparation lane of PlaybackViewModel: prepare and switchTo supersede each
// other, and only the newest request may become playable.
module PlaybackPreparation {
  import opened LaneIds
  import opened Options
  import R = ResourceState

  datatype Emission = Playable(descriptor: string) | Unplayable(item: string, message: string)

  datatype Report = Ready(descriptor: string) | Failed(item: string, message: string)

  datatype Event = Prepare(item: string) | Cancel | Settle(id: string, report: Report)

  datatype Playback = Playback(preparation: R.Resource, pending: string, sequence: nat, emitted: seq<Emission>)
  {
    function NextId(): string {
      NumberedId("playback.", sequence + 1, preparation.requestId + 1)
    }

    function Begun(item: string): Playback {
      Playback(preparation.Begun(item, 0, 0, false), NextId(), sequence + 1, emitted)
    }

    function Cancelled(): Playback {
      Playback(preparation.Detached(), "", sequence, emitted)
    }

    // The state's own request id and key are handed back to it, so that all the
    // filtering is done by the pending id and the phase.
    function Ticket(): R.Ticket {
      R.Ticket(preparation.requestId, preparation.key, 0, 0)
    }

    function Settled(id: string, report: Report): Playback {
      if id != pending || !preparation.Pending() then this
      else if !preparation.Accepts(Ticket()) then this.(pending := "")
      else match report
        case Ready(descriptor) =>
          Playback(preparation.Resolved(Ticket(), Some(descriptor), false), "", sequence,
                   emitted + [Playable(descriptor)])
        case Failed(item, message) =>
          Playback(preparation.Rejected(Ticket(), message), "", sequence, emitted + [Unplayable(item, message)])
    }
  }

  const START := Playback(R.IDLE, "", 0, [])

  function Next(p: Playback, e: Event): Playback {
    match e
    case Prepare(item) => p.Begun(item)
    case Cancel => p.Cancelled()
    case Settle(id, report) => p.Settled(id, report)
  }

  function Run(events: seq<Event>): Playback {
    if events == [] then START else Next(Run(events[..|events| - 1]), events[|events| - 1])
  }

  // The id of the newest preparation, until it is settled or cancelled.
  function Latest(events: seq<Event>): Option<string> {
    if events == [] then None
    else
      var before, last := events[..|events| - 1], events[|events| - 1];
      Follow(Run(before), Latest(before), last)
  }

  function Follow(p: Playback, latest: Option<string>, e: Event): Option<string> {
    match e
    case Prepare(_) => Some(p.NextId())
    case Cancel => None
    case Settle(id, _) => if latest == Some(id) then None else latest
  }

  ghost predicate Reflects(p: Playback, latest: Option<string>) {
    && p.pending == (if latest.Some? then latest.value else "")
    && (p.preparation.Pending() <==> latest.Some?)
    && (latest.Some? ==> p.preparation.data == None)
    && (latest.Some? ==> p.preparation.session == p.preparation.view == 0 && p.preparation.requestId > 0)
  }

  lemma NextReflects(p: Playback, latest: Option<string>, e: Event)
    requires Reflects(p, latest)
    ensures Reflects(Next(p, e), Follow(p, latest, e))
  {
  }

  lemma {:induction false} RunReflects(events: seq<Event>)
    ensures Reflects(Run(events), Latest(events))
  {
    if events != [] {
      var before := events[..|events| - 1];
      RunReflects(before);
      NextReflects(Run(before), Latest(before), events[|events| - 1]);
    }
  }

  // A report makes something playable, or fails it, exactly if it answers the
  // newest preparation; any other changes nothing.
  lemma {:induction false} OnlyTheNewestIsPlayed(events: seq<Event>, id: string, report: Report)
    ensures var p := Run(events);
            var next := p.Settled(id, report);
            if Latest(events) != Some(id) then next == p
            else match report
              case Ready(d) =>
                next.emitted == p.emitted + [Playable(d)]
                && next.preparation.phase == R.Phase.Ready && next.preparation.data == Some(d)
              case Failed(item, message) =>
                next.emitted == p.emitted + [Unplayable(item, message)] && next.preparation.phase == R.Error
  {
    RunReflects(events);
  }

  // -------------------------------------------- a superseded preparation stays so

  predicate Carries(id: string, n: nat, k: nat) {
    id == NumberedId("playback.", n, k)
  }

  // The newest preparation carries the newest number.
  lemma {:induction false} LatestIsNumbered(events: seq<Event>) returns (k: nat)
    ensures Latest(events).Some? ==> Carries(Latest(events).value, Run(events).sequence, k)
  {
    k := 0;
    if events != [] {
      var before, last := events[..|events| - 1], events[|events| - 1];
      if last.Prepare? {
        k := Run(before).preparation.requestId + 1;
      } else {
        k := LatestIsNumbered(before);
      }
    }
  }

  ghost predicate Superseded(events: seq<Event>, id: string, n: nat) {
    n <= Run(events).sequence && Latest(events) != Some(id)
  }

  lemma StaysSuperseded(events: seq<Event>, all: seq<Event>, id: string, n: nat, k: nat)
    requires Carries(id, n, k) && Superseded(events, id, n)
    requires |all| == |events| + 1 && all[..|events|] == events
    ensures Superseded(all, id, n)
  {
    var p := Run(events);
    if all[|events|].Prepare? && p.NextId() == id {
      NumberedIdInjective("playback.", n, k, p.sequence + 1, p.preparation.requestId + 1);
    }
  }

  lemma {:induction false} SupersededPrefix(all: seq<Event>, m: nat, i: nat, id: string, n: nat, k: nat)
    requires m <= i <= |all| && Carries(id, n, k) && Superseded(all[..m], id, n)
    ensures Superseded(all[..i], id, n)
    decreases i
  {
    if m < i {
      SupersededPrefix(all, m, i - 1, id, n, k);
      StaysSuperseded(all[..i - 1], all[..i], id, n, k);
    }
  }

  lemma OneMoreGrows(events: seq<Event>, all: seq<Event>)
    requires |all| == |events| + 1 && all[..|events|] == events
    ensures Run(events).sequence <= Run(all).sequence
  {
  }

  lemma {:induction false} SequenceGrows(events: seq<Event>, more: seq<Event>)
    ensures Run(events).sequence <= Run(events + more).sequence
    decreases |more|
  {
    var all := events + more;
    if more == [] {
      assert all == events;
    } else {
      var before := events + more[..|more| - 1];
      SequenceGrows(events, more[..|more| - 1]);
      assert all == before + [more[|more| - 1]];
      OneMoreGrows(before, all);
    }
  }

  // Once settled, superseded or cancelled, a preparation is never played: its
  // id is not issued again.
  lemma SupersededForGood(first: seq<Event>, second: seq<Event>, third: seq<Event>, id: string)
    requires Latest(first) == Some(id) && Latest(first + second) != Some(id)
    ensures Latest(first + second + third) != Some(id)
  {
    var n := Run(first).sequence;
    var k := LatestIsNumbered(first);
    var all := first + second + third;
    SequenceGrows(first, second);
    assert all[..|first + second|] == first + second && all[..|all|] == all;
    SupersededPrefix(all, |first + second|, |all|, id, n, k);
  }

  // ------------------------------------------------- handlers that call back

  // The resource state announces its changes in the middle of a call. The theorems
  // above take each call as one step; here handlers of this signal call the view
  // model, in any way, before the call has ended.

  function RunFrom(p: Playback, events: seq<Event>): Playback {
    if events == [] then p else Next(RunFrom(p, events[..|events| - 1]), events[|events| - 1])
  }

  // The newest preparation after the calls of a handler, latest being the one
  // before them.
  function LeftBehind(p: Playback, events: seq<Event>, latest: Option<string>): Option<string> {
    if events == [] then latest
    else
      var before, last := events[..|events| - 1], events[|events| - 1];
      Follow(RunFrom(p, before), LeftBehind(p, before, latest), last)
  }

  lemma {:induction false} HandlerReflects(p: Playback, events: seq<Event>, latest: Option<string>)
    requires Reflects(p, latest)
    ensures Reflects(RunFrom(p, events), LeftBehind(p, events, latest))
  {
    if events != [] {
      var before := events[..|events| - 1];
      HandlerReflects(p, before, latest);
      NextReflects(RunFrom(p, before), LeftBehind(p, before, latest), events[|events| - 1]);
    }
  }

  // A report up to the announcement of the state, and the rest of it.
  function Committed(p: Playback, id: string, report: Report): Playback {
    p.Settled(id, report).(emitted := p.emitted)
  }

  function Announced(report: Report): Emission {
    match report
    case Ready(descriptor) => Playable(descriptor)
    case Failed(item, message) => Unplayable(item, message)
  }

  function Concluded(p: Playback, report: Report): Playback {
    p.(emitted := p.emitted + [Announced(report)])
  }

  lemma SettledInTwo(events: seq<Event>, id: string, report: Report)
    requires Latest(events) == Some(id)
    ensures Run(events).Settled(id, report) == Concluded(Committed(Run(events), id, report), report)
  {
    OnlyTheNewestIsPlayed(events, id, report);
  }

  predicate Prepares(events: seq<Event>) {
    exists i :: 0 <= i < |events| && events[i].Prepare?
  }

  // A preparation that a handler has itself begun is reported back to it.
  predicate Answers(p: Playback, events: seq<Event>) {
    exists i :: 0 <= i < |events| && Answered(p, events, i)
  }

  predicate Answered(p: Playback, events: seq<Event>, i: nat)
    requires i < |events|
  {
    events[i].Settle? && LeftBehind(p, events[..i], None) == Some(events[i].id)
  }

  lemma {:induction false} HandlerNumbers(p: Playback, events: seq<Event>)
    ensures RunFrom(p, events).sequence >= p.sequence
    ensures RunFrom(p, events).sequence == p.sequence <==> !Prepares(events)
  {
    if events != [] {
      var before, n := events[..|events| - 1], |events| - 1;
      HandlerNumbers(p, before);
      assert forall i :: 0 <= i < n ==> before[i] == events[i];
      assert Prepares(events) <==> Prepares(before) || events[n].Prepare?;
    }
  }

  lemma OneMoreEmits(p: Playback, latest: Option<string>, e: Event)
    requires Reflects(p, latest)
    ensures p.emitted <= Next(p, e).emitted
    ensures p.emitted == Next(p, e).emitted <==> !(e.Settle? && latest == Some(e.id))
  {
  }

  lemma AnswersOneMore(p: Playback, events: seq<Event>, n: nat)
    requires |events| == n + 1
    ensures Answers(p, events) <==> Answers(p, events[..n]) || Answered(p, events, n)
  {
    var before := events[..n];
    assert forall i :: 0 <= i < n ==> before[..i] == events[..i];
    assert forall i :: 0 <= i < n ==> Answered(p, before, i) == Answered(p, events, i);
  }

  lemma {:induction false} HandlerEmits(p: Playback, events: seq<Event>)
    requires Reflects(p, None)
    ensures p.emitted <= RunFrom(p, events).emitted
    ensures p.emitted == RunFrom(p, events).emitted <==> !Answers(p, events)
  {
    if events != [] {
      var n := |events| - 1;
      HandlerEmits(p, events[..n]);
      HandlerReflects(p, events[..n], None);
      OneMoreEmits(RunFrom(p, events[..n]), LeftBehind(p, events[..n], None), events[n]);
      AnswersOneMore(p, events, n);
    }
  }

  lemma CommittedReflects(events: seq<Event>, id: string, report: Report)
    requires Latest(events) == Some(id)
    ensures Reflects(Committed(Run(events), id, report), None)
  {
    RunReflects(events);
    NextReflects(Run(events), Latest(events), Settle(id, report));
  }

  lemma NewestIffUnprepared(events: seq<Event>, id: string, p: Playback, during: seq<Event>)
    requires Latest(events) == Some(id) && p.sequence == Run(events).sequence
    ensures (exists k :: Carries(id, RunFrom(p, during).sequence, k)) <==> !Prepares(during)
  {
    var end := RunFrom(p, during).sequence;
    var k := LatestIsNumbered(events);
    HandlerNumbers(p, during);
    if j :| Carries(id, end, j) {
      NumberedIdInjective("playback.", p.sequence, k, end, j);
    }
  }

  // Whatever a handler does while a result is announced, the result is emitted
  // afterwards. Its preparation is then still the newest exactly if the handler
  // began none; a preparation is out exactly if the handler left one; and it is
  // emitted after a newer one exactly if one that the handler began was answered
  // meanwhile.
  lemma HandlerCanOvertake(events: seq<Event>, id: string, report: Report, during: seq<Event>)
    requires Latest(events) == Some(id)
    ensures var p := Run(events);
            var mid := Committed(p, id, report);
            var end := Concluded(RunFrom(mid, during), report);
            && ((exists k :: Carries(id, end.sequence, k)) <==> !Prepares(during))
            && (end.preparation.Pending() <==> LeftBehind(mid, during, None).Some?)
            && (end.emitted == p.emitted + [Announced(report)] <==> !Answers(mid, during))
            && p.emitted <= end.emitted && end.emitted[|end.emitted| - 1] == Announced(report)
  {
    var mid := Committed(Run(events), id, report);
    CommittedReflects(events, id, report);
    NewestIffUnprepared(events, id, mid, during);
    HandlerReflects(mid, during, None);
    HandlerEmits(mid, during);
  }

  // A preparation up to the announcement of the state, when the id before it is
  // still in place, and the rest of it.
  function Started(p: Playback, item: string): Playback {
    p.(preparation := p.preparation.Begun(item, 0, 0, false))
  }

  function Continued(p: Playback): Playback {
    p.(sequence := p.sequence + 1,
       pending := NumberedId("playback.", p.sequence + 1, p.preparation.requestId))
  }

  lemma BegunInTwo(p: Playback, item: string)
    ensures p.Begun(item) == Continued(Started(p, item))
  {
  }

  // Whatever a handler does while a preparation is announced, the id the port gets
  // in the end is the one that is waited for. Its report is emitted exactly if what
  // was pending when the handler returned was so, be it the replaced preparation or
  // one of the handler's own; otherwise it is never played.
  lemma HandlerCanLoseThePreparation(p: Playback, item: string, during: seq<Event>, report: Report)
    ensures var first := Started(p, item);
            var end := Continued(RunFrom(first, during));
            var next := end.Settled(end.pending, report);
            if LeftBehind(first, during, Some(p.pending)).Some?
            then next.emitted == end.emitted + [Announced(report)] && !next.preparation.Pending()
            else next == end
  {
    var first := Started(p, item);
    HandlerReflects(first, during, Some(p.pending));
  }

  // ---------------------------------------------------------------- the object

  class PlaybackViewModel {
    const preparationState: R.AsyncResourceState
    var pendingRequestId: string
    var requestSequence: nat
    var emitted: seq<Emission>

    ghost function Value(): Playback
      reads this, preparationState
    {
      Playback(preparationState.Value(), pendingRequestId, requestSequence, emitted)
    }

    constructor ()
      ensures Value() == START && fresh(preparationState)
    {
      preparationState := new R.AsyncResourceState();
      pendingRequestId, requestSequence, emitted := "", 0, [];
    }

    // From now on the report under id is the one that counts.
    method BeginPreparation(item: string) returns (id: string)
      modifies this, preparationState
      ensures Value() == old(Value()).Begun(item) && id == old(Value()).NextId()
      ensures forall other, report :: other != id ==> Value().Settled(other, report) == Value()
      ensures forall report :: Value().Settled(id, report).emitted == emitted + [Announced(report)]
    {
      var _ := preparationState.Begin(item, 0, 0, false);
      requestSequence := requestSequence + 1;
      pendingRequestId := NumberedId("playback.", requestSequence, preparationState.requestId);
      return pendingRequestId;
    }

    // From now on no report counts, until the next preparation.
    method CancelPreparation()
      modifies this, preparationState
      ensures Value() == old(Value()).Cancelled()
      ensures forall id, report :: Value().Settled(id, report) == Value()
      ensures emitted == old(emitted) && preparationState.data == old(preparationState.data)
    {
      pendingRequestId := "";
      preparationState.Detach();
    }

    method HandleReport(id: string, report: Report)
      modifies this, preparationState
      ensures Value() == old(Value()).Settled(id, report)
    {
      var phase := preparationState.phase;
      if id != pendingRequestId || (phase != R.Loading && phase != R.Refreshing) {
        return;
      }
      var stateId, key := preparationState.requestId, preparationState.resourceKey;
      pendingRequestId := "";
      var accepted: bool;
      match report {
        case Ready(descriptor) =>
          accepted := preparationState.Resolve(stateId, key, 0, 0, Some(descriptor), false);
          if accepted {
            emitted := emitted + [Playable(descriptor)];
          }
        case Failed(item, message) =>
          accepted := preparationState.Reject(stateId, key, 0, 0, message);
          if accepted {
            emitted := emitted + [Unplayable(item, message)];
          }
      }
    }
  }
}
