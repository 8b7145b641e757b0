// The stale-while-revalidate state machine: AsyncResourceState.
module ResourceState {
  import opened Options
  import OperationState

  datatype Phase = Idle | Loading | Ready | Refreshing | Error

  // What a result has to bring back to be committed.
  datatype Ticket = Ticket(id: nat, key: string, session: nat, view: nat)

  // data is None for an invalid or null QVariant; the time stamp is not modelled.
  datatype Resource = Resource(
    phase: Phase, data: Option<string>, stale: bool, errorMessage: string,
    requestId: nat, key: string, session: nat, view: nat, remoteChanged: bool)
  {
    predicate Pending() {
      phase == Loading || phase == Refreshing
    }

    function Current(): Ticket {
      Ticket(requestId, key, session, view)
    }

    predicate Accepts(t: Ticket) {
      Pending() && t.id != 0 && t == Current()
    }

    function Begun(newKey: string, newSession: nat, newView: nat, preserve: bool): Resource {
      if preserve && data.Some? then
        Resource(Refreshing, data, true, "", requestId + 1, newKey, newSession, newView, false)
      else
        Resource(Loading, None, false, "", requestId + 1, newKey, newSession, newView, false)
    }

    function Resolved(t: Ticket, value: Option<string>, isStale: bool): Resource {
      if Accepts(t) then
        this.(phase := Ready, data := value, stale := isStale, errorMessage := "", remoteChanged := false)
      else this
    }

    function Rejected(t: Ticket, message: string): Resource {
      if !Accepts(t) then this
      else if data.Some? then
        this.(phase := Ready, stale := true, errorMessage := OperationState.Trimmed(message))
      else this.(phase := Error, stale := false, errorMessage := OperationState.Trimmed(message))
    }

    function Detached(): Resource {
      this.(phase := if data.Some? then Ready else Idle, errorMessage := "",
            requestId := requestId + 1, view := view + 1)
    }

    // The generations are kept.
    function Cleared(): Resource {
      Resource(Idle, None, false, "", requestId + 1, "", session, view, false)
    }
  }

  const IDLE := Resource(Idle, None, false, "", 0, "", 0, 0, false)

  // ----------------------------------------------------------------------- runs

  datatype Event =
    | Begin(key: string, session: nat, view: nat, preserve: bool)
    | Resolve(ticket: Ticket, value: Option<string>, isStale: bool)
    | Reject(ticket: Ticket, message: string)
    | Detach
    | Reset
    | MarkRemote(changed: bool)

  function Next(r: Resource, e: Event): Resource {
    match e
    case Begin(key, session, view, preserve) => r.Begun(key, session, view, preserve)
    case Resolve(t, value, isStale) => r.Resolved(t, value, isStale)
    case Reject(t, message) => r.Rejected(t, message)
    case Detach => r.Detached()
    case Reset => r.Cleared()
    case MarkRemote(changed) => r.(remoteChanged := changed)
  }

  function Run(events: seq<Event>): Resource {
    if events == [] then IDLE else Next(Run(events[..|events| - 1]), events[|events| - 1])
  }

  // ------------------------------------------- what a run means, read off its events

  // Request ids are numbered by begins, detaches and resets alike.
  function Issued(events: seq<Event>): nat {
    if events == [] then 0
    else
      var last := events[|events| - 1];
      Issued(events[..|events| - 1]) + (if last.Begin? || last.Detach? || last.Reset? then 1 else 0)
  }

  // The newest request, until it is settled or abandoned.
  function Latest(events: seq<Event>): Option<Ticket> {
    if events == [] then None
    else
      var before, last := events[..|events| - 1], events[|events| - 1];
      match last
      case Begin(key, session, view, _) => Some(Ticket(Issued(events), key, session, view))
      case Resolve(t, _, _) => if Latest(before) == Some(t) then None else Latest(before)
      case Reject(t, _) => if Latest(before) == Some(t) then None else Latest(before)
      case Detach => None
      case Reset => None
      case MarkRemote(_) => Latest(before)
  }

  // The data last committed by a newest request and not dropped since.
  function Committed(events: seq<Event>): Option<string> {
    if events == [] then None
    else
      var before, last := events[..|events| - 1], events[|events| - 1];
      match last
      case Begin(_, _, _, preserve) => if preserve then Committed(before) else None
      case Resolve(t, value, _) => if Latest(before) == Some(t) then value else Committed(before)
      case Reset => None
      case _ => Committed(before)
  }

  ghost predicate Reflects(r: Resource, issued: nat, latest: Option<Ticket>, data: Option<string>) {
    && r.requestId == issued
    && r.data == data
    && (latest.Some? ==> latest.value == r.Current() && latest.value.id > 0)
    && (latest.Some? <==> r.Pending())
    && (r.phase == Refreshing ==> data.Some? && r.stale)
    && (r.phase != Refreshing && r.phase != Ready ==> data.None?)
  }

  lemma {:induction false} RunReflects(events: seq<Event>)
    ensures Reflects(Run(events), Issued(events), Latest(events), Committed(events))
  {
    if events != [] {
      RunReflects(events[..|events| - 1]);
    }
  }

  // Over every run, exactly the ticket of the newest unsettled request is accepted.
  lemma OnlyTheNewestIsAccepted(events: seq<Event>, t: Ticket)
    ensures Run(events).Accepts(t) <==> Latest(events) == Some(t)
  {
    RunReflects(events);
  }

  // Over every run the data shown are those of the newest committed result, and
  // the phase says whether a request is out and whether there are data to show.
  lemma PhaseTellsTheRun(events: seq<Event>)
    ensures var r := Run(events);
            && r.data == Committed(events)
            && (r.phase == Loading <==> Latest(events).Some? && Committed(events).None?)
            && (r.phase == Refreshing <==> Latest(events).Some? && Committed(events).Some?)
            && (r.phase == Refreshing ==> r.stale)
            && (r.phase == Error || r.phase == Idle ==> Committed(events).None?)
  {
    RunReflects(events);
  }

  // What a run says of its data besides: whether they are stale, because they are
  // being refreshed, or could not be, or were committed as such; the message of the
  // last failure not yet followed by anything; and the view they belong to.
  datatype Remark = Remark(stale: bool, message: string, view: nat)

  function Remarked(events: seq<Event>): Remark {
    if events == [] then Remark(false, "", 0)
    else
      var before, last := events[..|events| - 1], events[|events| - 1];
      var remark := Remarked(before);
      match last
      case Begin(_, _, view, preserve) => Remark(preserve && Committed(before).Some?, "", view)
      case Resolve(t, _, isStale) => if Latest(before) == Some(t) then Remark(isStale, "", remark.view) else remark
      case Reject(t, message) =>
        if Latest(before) == Some(t) then Remark(Committed(before).Some?, OperationState.Trimmed(message), remark.view)
        else remark
      case Detach => Remark(remark.stale, "", remark.view + 1)
      case Reset => Remark(false, "", remark.view)
      case MarkRemote(_) => remark
  }

  lemma {:induction false} RemarksTellTheRun(events: seq<Event>)
    ensures var r := Run(events); Remarked(events) == Remark(r.stale, r.errorMessage, r.view)
  {
    if events != [] {
      RemarksTellTheRun(events[..|events| - 1]);
      RunReflects(events[..|events| - 1]);
    }
  }

  // A failed or abandoned refresh leaves the data in use.
  lemma FailedRefreshKeepsData(events: seq<Event>, t: Ticket, message: string)
    requires Committed(events).Some?
    ensures var failed, left := Run(events + [Reject(t, message)]), Run(events + [Detach]);
            && failed.data == left.data == Committed(events)
            && left.phase == Ready
            && (Latest(events) == Some(t) ==> failed.phase == Ready && failed.stale)
            && (Latest(events) != Some(t) ==> failed == Run(events))
  {
    RunReflects(events);
    assert (events + [Reject(t, message)])[..|events|] == events;
    assert (events + [Detach])[..|events|] == events;
  }

  lemma {:induction false} IssuedGrows(events: seq<Event>, more: seq<Event>)
    ensures Issued(events) <= Issued(events + more)
    decreases |more|
  {
    var all := events + more;
    if more == [] {
      assert all == events;
    } else {
      assert all[..|all| - 1] == events + more[..|more| - 1];
      IssuedGrows(events, more[..|more| - 1]);
    }
  }

  // A ticket that is no longer accepted never will be again.
  lemma {:induction false} SupersededForGood(events: seq<Event>, more: seq<Event>, t: Ticket)
    requires t.id <= Issued(events) && Latest(events) != Some(t)
    ensures Latest(events + more) != Some(t) && !Run(events + more).Accepts(t)
    decreases |more|
  {
    var all := events + more;
    if more == [] {
      assert all == events;
    } else {
      assert all[..|all| - 1] == events + more[..|more| - 1];
      SupersededForGood(events, more[..|more| - 1], t);
      IssuedGrows(events, more[..|more| - 1]);
    }
    OnlyTheNewestIsAccepted(all, t);
  }

  // The id a begin returns is larger than every id handed out before.
  lemma BeginIssuesANewId(events: seq<Event>, more: seq<Event>, key: string, session: nat, view: nat, preserve: bool)
    ensures Issued(events) < Run(events + more + [Begin(key, session, view, preserve)]).requestId
  {
    var all := events + more + [Begin(key, session, view, preserve)];
    RunReflects(all);
    IssuedGrows(events, more);
    assert all[..|all| - 1] == events + more;
  }

  // ------------------------------------------------------- marks of remote changes

  function WithoutMarks(events: seq<Event>): seq<Event> {
    if events == [] then []
    else
      var before, last := WithoutMarks(events[..|events| - 1]), events[|events| - 1];
      if last.MarkRemote? then before else before + [last]
  }

  // Whether a change was marked that no later begin, committed result, reset or
  // clearing has answered.
  function Marked(events: seq<Event>): bool {
    events != []
    && var before, last := events[..|events| - 1], events[|events| - 1];
       match last
       case Begin(_, _, _, _) => false
       case Resolve(t, _, _) => Marked(before) && Latest(before) != Some(t)
       case Reset => false
       case MarkRemote(changed) => changed
       case _ => Marked(before)
  }

  lemma UnmarkedStep(r: Resource, e: Event)
    ensures Next(r, e).(remoteChanged := false) == Next(r.(remoteChanged := false), e).(remoteChanged := false)
    ensures !e.MarkRemote? && !r.remoteChanged ==> !Next(r, e).remoteChanged
  {
  }

  // Marks touch nothing but their flag: without them a run would have come to the
  // same state, accepting the same tickets and showing the same data. The flag
  // stands exactly while a marked change has not been answered.
  lemma {:induction false} MarksTouchNothingElse(events: seq<Event>)
    ensures Run(WithoutMarks(events)) == Run(events).(remoteChanged := false)
    ensures Run(events).remoteChanged <==> Marked(events)
  {
    if events != [] {
      var before, last := events[..|events| - 1], events[|events| - 1];
      MarksTouchNothingElse(before);
      UnmarkedStep(Run(before), last);
      RunReflects(before);
      if !last.MarkRemote? {
        var kept := WithoutMarks(before);
        assert (kept + [last])[..|kept|] == kept;
        UnmarkedStep(Run(kept), last);
      }
    }
  }

  // ---------------------------------------------------------------- the object

  class AsyncResourceState {
    var phase: Phase
    var data: Option<string>
    var stale: bool
    var errorMessage: string
    var requestId: nat
    var resourceKey: string
    var sessionGeneration: nat
    var viewGeneration: nat
    var remoteChanged: bool

    ghost function Value(): Resource
      reads this
    {
      Resource(phase, data, stale, errorMessage, requestId, resourceKey,
               sessionGeneration, viewGeneration, remoteChanged)
    }

    constructor ()
      ensures Value() == IDLE
    {
      phase, data, stale, errorMessage := Idle, None, false, "";
      requestId, resourceKey, sessionGeneration, viewGeneration := 0, "", 0, 0;
      remoteChanged := false;
    }

    predicate Accepts(id: nat, key: string, session: nat, view: nat)
      reads this
      ensures Accepts(id, key, session, view) == Value().Accepts(Ticket(id, key, session, view))
    {
      && (phase == Loading || phase == Refreshing)
      && id != 0
      && id == requestId
      && key == resourceKey
      && session == sessionGeneration
      && view == viewGeneration
    }

    method Begin(key: string, session: nat, view: nat, preserveData: bool) returns (id: nat)
      modifies this
      ensures Value() == old(Value()).Begun(key, session, view, preserveData)
      ensures id == requestId == old(requestId) + 1
    {
      requestId := requestId + 1;
      resourceKey := key;
      sessionGeneration := session;
      viewGeneration := view;
      errorMessage := "";
      remoteChanged := false;
      if preserveData && data.Some? {
        phase := Refreshing;
        stale := true;
      } else {
        data := None;
        phase := Loading;
        stale := false;
      }
      return requestId;
    }

    method Resolve(id: nat, key: string, session: nat, view: nat, value: Option<string>, isStale: bool)
      returns (ok: bool)
      modifies this
      ensures ok == old(Accepts(id, key, session, view))
      ensures Value() == old(Value()).Resolved(Ticket(id, key, session, view), value, isStale)
    {
      if !Accepts(id, key, session, view) {
        return false;
      }
      data := value;
      stale := isStale;
      errorMessage := "";
      phase := Ready;
      remoteChanged := false;
      return true;
    }

    method Reject(id: nat, key: string, session: nat, view: nat, message: string) returns (ok: bool)
      modifies this
      ensures ok == old(Accepts(id, key, session, view))
      ensures Value() == old(Value()).Rejected(Ticket(id, key, session, view), message)
    {
      if !Accepts(id, key, session, view) {
        return false;
      }
      errorMessage := OperationState.Trimmed(message);
      if data.Some? {
        phase := Ready;
        stale := true;
      } else {
        phase := Error;
        stale := false;
      }
      return true;
    }

    method Detach()
      modifies this
      ensures Value() == old(Value()).Detached()
    {
      requestId := requestId + 1;
      viewGeneration := viewGeneration + 1;
      errorMessage := "";
      phase := if data.Some? then Ready else Idle;
    }

    method Reset()
      modifies this
      ensures Value() == old(Value()).Cleared()
    {
      requestId := requestId + 1;
      phase := Idle;
      data := None;
      stale := false;
      errorMessage := "";
      resourceKey := "";
      remoteChanged := false;
    }

    method MarkRemoteChanged()
      modifies this
      ensures Value() == Next(old(Value()), MarkRemote(true))
    {
      if remoteChanged {
        return;
      }
      remoteChanged := true;
    }

    method ClearRemoteChanged()
      modifies this
      ensures Value() == Next(old(Value()), MarkRemote(false))
    {
      if !remoteChanged {
        return;
      }
      remoteChanged := false;
    }
  }
}
