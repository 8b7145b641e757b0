// That the requests for images get on: acquire comes to an end with a response,
// the registry is swept on schedule, and a response lives as its owner has it.
module ImageRequests {
  import opened ImageLoads

  // ------------------------------------------------------ that acquire goes on

  predicate IsAcquiring(step: Step) {
    || step.ReadCount? || step.TryExchange? || step.CountRequest? || step.SweepEntry? || step.FinishSweep?
    || step.CreateLoad? || step.InsertLoad?
  }

  // How far acquire is from its end.
  function Remaining(s: State): nat {
    match s.acquirer
    case Idle => 0
    case Inserting(_, _, _) => 1
    case Creating(_) => 2
    case Sweeping(_, todo) => 3 + |todo|
    case Missed(_) => 4 + |s.registry|
    case Trying(_, _, _) => 5 + |s.registry|
    case Locked(_, _) => 6 + |s.registry|
  }

  // The exchange of this step fails, and leaves somebody to join.
  predicate MissesExchange(s: State, step: Step) {
    && step.TryExchange? && s.acquirer.Trying? && s.acquirer.load in s.loads
    && s.loads[s.acquirer.load].consumers > 0
    && (step.spurious || s.loads[s.acquirer.load].consumers != s.acquirer.seen)
  }

  lemma CountGoesOn(s: State)
    requires s.acquirer.Missed?
    ensures Remaining(RequestCounted(s)) < Remaining(s)
  {
    assert |s.registry.Keys| == |s.registry|;
  }

  lemma SweepGoesOn(s: State, key: Key)
    requires s.acquirer.Sweeping? && key in s.acquirer.todo && key in s.registry
    ensures Remaining(Swept(s, key)) < Remaining(s)
  {
  }

  lemma ExchangeGoesOn(s: State, r: ResponseId, spurious: bool)
    requires s.acquirer.Trying? && s.acquirer.load in s.loads && r !in s.responses && s.acquirer.seen > 0
    ensures var l := s.acquirer.load;
            var s' := Exchanged(s, r, spurious);
            if s.loads[l].consumers > 0 && (spurious || s.loads[l].consumers != s.acquirer.seen)
            then s'.acquirer == Trying(s.acquirer.key, l, s.loads[l].consumers)
            else Remaining(s') < Remaining(s)
  {
  }

  lemma OthersGoOn(s: State, step: Step)
    requires Enabled(s, step)
    requires step.ReadCount? || step.FinishSweep? || step.CreateLoad? || step.InsertLoad?
    ensures Remaining(Apply(s, step)) < Remaining(s)
  {
  }

  lemma StepGoesOn(s: State, step: Step)
    requires Enabled(s, step) && IsAcquiring(step) && AcquirerOk(s.loads, s.registry, s.acquirer)
    ensures if MissesExchange(s, step)
            then Apply(s, step).acquirer == Trying(s.acquirer.key, s.acquirer.load, s.loads[s.acquirer.load].consumers)
            else Remaining(Apply(s, step)) < Remaining(s)
  {
    match step
    case TryExchange(r, spurious) => ExchangeGoesOn(s, r, spurious);
    case CountRequest => CountGoesOn(s);
    case SweepEntry(key) => SweepGoesOn(s, key);
    case _ => OthersGoOn(s, step);
  }

  // Every step of acquire brings it nearer to its end, but for an exchange that
  // fails and then knows the count; and in every state there is such a step.
  lemma AcquireGoesOn(steps: seq<Step>, step: Step)
    requires Runs(Init(), steps) && Enabled(Execute(Init(), steps), step) && IsAcquiring(step)
    ensures var s := Execute(Init(), steps);
            if MissesExchange(s, step)
            then Apply(s, step).acquirer == Trying(s.acquirer.key, s.acquirer.load, s.loads[s.acquirer.load].consumers)
            else Remaining(Apply(s, step)) < Remaining(s)
  {
    RunKeepsInv(Init(), steps);
    StepGoesOn(Execute(Init(), steps), step);
  }

  lemma AcquireIsNotStuck(steps: seq<Step>, l: LoadId, r: ResponseId)
    requires Runs(Init(), steps)
    requires var s := Execute(Init(), steps); l !in s.loads && r !in s.responses && !s.acquirer.Idle?
    ensures exists step :: IsAcquiring(step) && Enabled(Execute(Init(), steps), step)
  {
    RunKeepsInv(Init(), steps);
    var s := Execute(Init(), steps);
    match s.acquirer {
      case Locked(_, _) => assert Enabled(s, ReadCount) && IsAcquiring(ReadCount);
      case Trying(_, _, _) => assert Enabled(s, TryExchange(r, false)) && IsAcquiring(TryExchange(r, false));
      case Missed(_) => assert Enabled(s, CountRequest) && IsAcquiring(CountRequest);
      case Sweeping(_, todo) =>
        if todo == {} {
          assert Enabled(s, FinishSweep) && IsAcquiring(FinishSweep);
        } else {
          var k :| k in todo;
          assert Enabled(s, SweepEntry(k)) && IsAcquiring(SweepEntry(k));
        }
      case Creating(_) => assert Enabled(s, CreateLoad(l, r)) && IsAcquiring(CreateLoad(l, r));
      case Inserting(_, _, _) => assert Enabled(s, InsertLoad) && IsAcquiring(InsertLoad);
    }
  }

  // What has been asked for, in order.
  function Requests(steps: seq<Step>): seq<Key> {
    if steps == [] then []
    else Asked(steps[0]) + Requests(steps[1..])
  }

  function Asked(step: Step): seq<Key> {
    if step.Lookup? then [step.key] else []
  }

  predicate Underway(a: Acquirer) {
    a.Locked? || a.Trying? || a.Missed? || a.Sweeping? || a.Creating?
  }

  // Each request has its response, but for one that is under way.
  predicate Served(s: State, requests: seq<Key>) {
    && |s.responses| + (if Underway(s.acquirer) then 1 else 0) == |requests|
    && (s.acquirer.Idle? || (requests != [] && s.acquirer.key == requests[|requests| - 1]))
  }

  lemma StepServes(s: State, step: Step, requests: seq<Key>)
    requires Enabled(s, step) && Served(s, requests)
    ensures Served(Apply(s, step), requests + Asked(step))
  {
  }

  lemma {:induction false} RunServes(s: State, steps: seq<Step>, requests: seq<Key>)
    requires Runs(s, steps) && Served(s, requests)
    ensures Served(Execute(s, steps), requests + Requests(steps))
    decreases |steps|
  {
    RequestsInOrder(requests, steps);
    if steps != [] {
      StepServes(s, steps[0], requests);
      RunServes(Apply(s, steps[0]), steps[1..], requests + Asked(steps[0]));
    }
  }

  lemma RequestsInOrder(requests: seq<Key>, steps: seq<Step>)
    ensures steps == [] ==> requests + Requests(steps) == requests
    ensures steps != [] ==> requests + Requests(steps) == requests + Asked(steps[0]) + Requests(steps[1..])
  {
  }

  // A response that is new, for a load that somebody else waits for or that is new.
  predicate IsServed(s: State, s': State, r: ResponseId, key: Key) {
    r in s'.responses
    && var q := s'.responses[r];
       && q == Response(q.load, Constructing, false, false, false, NotYet)
       && q.load in s'.loads && s'.loads[q.load].key == key
       && (if q.load in s.loads
           then 0 < s.loads[q.load].consumers == s'.loads[q.load].consumers - 1
                && s'.loads[q.load].worker == s.loads[q.load].worker
           else s'.loads[q.load].consumers == 1 && s'.loads[q.load].worker == Starting)
  }

  lemma ExchangeServes(s: State, r: ResponseId, spurious: bool)
    requires Inv(s) && Enabled(s, TryExchange(r, spurious)) && r in Exchanged(s, r, spurious).responses
    ensures IsServed(s, Exchanged(s, r, spurious), r, s.acquirer.key)
  {
  }

  lemma CreationServes(s: State, l: LoadId, r: ResponseId)
    requires Enabled(s, CreateLoad(l, r))
    ensures IsServed(s, Created(s, l, r), r, s.acquirer.key)
  {
  }

  lemma NewResponse(s: State, step: Step, r: ResponseId)
    requires Inv(s) && Enabled(s, step) && r !in s.responses && r in Apply(s, step).responses
    ensures (step.TryExchange? || step.CreateLoad?) && step.response == r
  {
  }

  lemma StepIsServed(s: State, step: Step, r: ResponseId)
    requires Inv(s) && Enabled(s, step) && r !in s.responses && r in Apply(s, step).responses
    ensures !s.acquirer.Idle? && IsServed(s, Apply(s, step), r, s.acquirer.key)
  {
    NewResponse(s, step, r);
    if step.TryExchange? {
      ExchangeServes(s, r, step.spurious);
    } else {
      CreationServes(s, step.load, r);
    }
  }

  // Every request gets one response, and it is for a load of its own key that it
  // holds: one of which somebody else is a consumer, or a new one.
  lemma RequestsAreServed(steps: seq<Step>, s: State, step: Step, r: ResponseId)
    requires Runs(Init(), steps) && s == Execute(Init(), steps)
    requires Enabled(s, step) && r !in s.responses && r in Apply(s, step).responses
    ensures var asked := Requests(steps);
            asked != [] && IsServed(s, Apply(s, step), r, asked[|asked| - 1]) && |s.responses| + 1 == |asked|
  {
    RunKeepsInv(Init(), steps);
    RunIsServed(steps);
    LastIsServed(s, Requests(steps), step, r);
  }

  lemma RunIsServed(steps: seq<Step>)
    requires Runs(Init(), steps)
    ensures Served(Execute(Init(), steps), Requests(steps))
  {
    RunServes(Init(), steps, []);
    assert [] + Requests(steps) == Requests(steps);
  }

  lemma LastIsServed(s: State, asked: seq<Key>, step: Step, r: ResponseId)
    requires Inv(s) && Served(s, asked) && Enabled(s, step) && r !in s.responses && r in Apply(s, step).responses
    ensures asked != [] && IsServed(s, Apply(s, step), r, asked[|asked| - 1]) && |s.responses| + 1 == |asked|
  {
    StepIsServed(s, step, r);
    NewResponse(s, step, r);
  }

  // A request looks at a registered load exactly as long as somebody refers to it.
  lemma LookupFindsTheReferenced(steps: seq<Step>, key: Key)
    requires Runs(Init(), steps) && Execute(Init(), steps).acquirer.Idle?
    ensures var s := Execute(Init(), steps);
            var s' := Apply(s, Lookup(key));
            if key in s.registry
               && exists r :: r in s.responses && s.responses[r].load == s.registry[key] && !s.responses[r].stage.Gone?
            then s'.acquirer == Locked(key, s.registry[key]) else s'.acquirer == Missed(key)
  {
  }

  function Counted(steps: seq<Step>): nat {
    if steps == [] then 0 else (if steps[0].CountRequest? then 1 else 0) + Counted(steps[1..])
  }

  lemma {:induction false} RequestsAreCounted(s: State, steps: seq<Step>)
    requires Runs(s, steps)
    ensures Execute(s, steps).requestCount == s.requestCount + Counted(steps)
    decreases |steps|
  {
    if steps != [] {
      RequestsAreCounted(Apply(s, steps[0]), steps[1..]);
    }
  }

  // Of the requests that find nothing every 64th sweeps the registry, and each
  // does when it has more than 1024 entries: all that are there then, of which
  // those go that nobody refers to.
  lemma SweepsOnSchedule(steps: seq<Step>)
    requires Runs(Init(), steps) && Execute(Init(), steps).acquirer.Missed?
    ensures var s := Execute(Init(), steps);
            Apply(s, CountRequest).acquirer
            == if (Counted(steps) + 1) % 64 == 0 || |s.registry| > 1024
               then Sweeping(s.acquirer.key, s.registry.Keys) else Creating(s.acquirer.key)
  {
    RequestsAreCounted(Init(), steps);
  }

  lemma SweepDropsTheExpired(steps: seq<Step>, step: Step)
    requires Runs(Init(), steps) && Execute(Init(), steps).acquirer.Sweeping?
    requires Enabled(Execute(Init(), steps), step)
    ensures var s := Execute(Init(), steps);
            var s' := Apply(s, step);
            match step
            case SweepEntry(k) =>
              && k in s.acquirer.todo && s'.acquirer == Sweeping(s.acquirer.key, s.acquirer.todo - {k})
              && s'.registry
              == if exists r :: r in s.responses && s.responses[r].load == s.registry[k] && !s.responses[r].stage.Gone?
                 then s.registry else s.registry - {k}
            case FinishSweep => s.acquirer.todo == {} && s'.acquirer == Creating(s.acquirer.key)
            case _ => s'.acquirer == s.acquirer
  {
  }

  // ------------------------------------------------------- the life of a response

  datatype Deed = Did(act: Act) | Lowered

  function DeedOf(step: Step, r: ResponseId): seq<Deed> {
    match step
    case ActOn(q, act) => if q == r then [Did(act)] else []
    case Decrement(q) => if q == r then [Lowered] else []
    case _ => []
  }

  // What was done to a response, in order.
  function Deeds(steps: seq<Step>, r: ResponseId): seq<Deed> {
    if steps == [] then [] else DeedOf(steps[0], r) + Deeds(steps[1..], r)
  }

  // A response is what was done to it: however often it was released, it owes or
  // has performed one decrement.
  predicate Shows(q: Response, deeds: seq<Deed>) {
    && q.stage == (if Did(EndDestroy) in deeds then Gone
                   else if Did(BeginDestroy) in deeds then Destroying
                   else if Did(Construct) in deeds then Alive
                   else Constructing)
    && (q.cancelled <==> Did(Cancel) in deeds)
    && (q.delivery == NotYet <==> Did(Deliver) !in deeds)
    && (q.released <==> Did(Exchange) in deeds)
    && (q.owesDecrement <==> Did(Exchange) in deeds && Lowered !in deeds)
    && (Lowered in deeds ==> Did(Exchange) in deeds)
  }

  ghost predicate AllShow(s: State, r: ResponseId, deeds: seq<Deed>) {
    if r in s.responses then Shows(s.responses[r], deeds) else deeds == []
  }

  lemma ActShows(s: State, r: ResponseId, act: Act, deeds: seq<Deed>)
    requires CanAct(s, r, act) && Shows(s.responses[r], deeds)
    ensures Shows(Acted(s.responses[r], act, s.loads[s.responses[r].load].worker), deeds + [Did(act)])
  {
    forall d
      ensures d in deeds + [Did(act)] <==> d in deeds || d == Did(act)
    {
    }
  }

  lemma StepShows(s: State, step: Step, r: ResponseId, deeds: seq<Deed>)
    requires Enabled(s, step) && AllShow(s, r, deeds)
    ensures AllShow(Apply(s, step), r, deeds + DeedOf(step, r))
  {
    match step
    case ActOn(q, act) =>
      if q == r {
        ActShows(s, r, act, deeds);
      } else {
        assert deeds + [] == deeds;
      }
    case Decrement(q) =>
      assert q == r ==> forall d :: d in deeds + [Lowered] <==> d in deeds || d == Lowered;
      assert deeds + [] == deeds;
    case _ => assert deeds + [] == deeds;
  }

  lemma {:induction false} RunShows(s: State, steps: seq<Step>, r: ResponseId, deeds: seq<Deed>)
    requires Runs(s, steps) && AllShow(s, r, deeds)
    ensures AllShow(Execute(s, steps), r, deeds + Deeds(steps, r))
    decreases |steps|
  {
    DeedsInOrder(deeds, steps, r);
    if steps != [] {
      StepShows(s, steps[0], r, deeds);
      RunShows(Apply(s, steps[0]), steps[1..], r, deeds + DeedOf(steps[0], r));
    }
  }

  lemma DeedsInOrder(deeds: seq<Deed>, steps: seq<Step>, r: ResponseId)
    ensures steps == [] ==> deeds + Deeds(steps, r) == deeds
    ensures steps != [] ==> deeds + Deeds(steps, r) == deeds + DeedOf(steps[0], r) + Deeds(steps[1..], r)
  {
  }

  lemma ResponseShowsItsDeeds(steps: seq<Step>, r: ResponseId)
    requires Runs(Init(), steps) && r in Execute(Init(), steps).responses
    ensures Shows(Execute(Init(), steps).responses[r], Deeds(steps, r))
  {
    RunShows(Init(), steps, r, []);
    assert [] + Deeds(steps, r) == Deeds(steps, r);
  }

  // A response that is there can be cancelled, told when its load has finished, or
  // destroyed, and each of these takes it off the counter.
  predicate TakesOff(s: State, s': State, r: ResponseId)
    requires r in s.responses && s.responses[r].load in s.loads
  {
    var l := s.responses[r].load;
    r in s'.responses && l in s'.loads && s'.responses[r].released && !s'.responses[r].owesDecrement
    && s'.loads[l].consumers == s.loads[l].consumers - 1
  }

  lemma FirstStep(s: State, step: Step, rest: seq<Step>)
    requires Enabled(s, step) && Runs(Apply(s, step), rest)
    ensures Runs(s, [step] + rest) && Execute(s, [step] + rest) == Execute(Apply(s, step), rest)
  {
    assert ([step] + rest)[1..] == rest;
  }

  lemma ThreeSteps(s: State, a: Step, b: Step, c: Step)
    requires Enabled(s, a) && Enabled(Apply(s, a), b) && Enabled(Apply(Apply(s, a), b), c)
    ensures Runs(s, [a, b, c]) && Execute(s, [a, b, c]) == Apply(Apply(Apply(s, a), b), c)
  {
    FirstStep(Apply(Apply(s, a), b), c, []);
    FirstStep(Apply(s, a), b, [c] + []);
    FirstStep(s, a, [b] + ([c] + []));
    assert [a, b, c] == [a] + ([b] + ([c] + []));
  }

  lemma ReleaseTakesOff(s: State, act: Act, r: ResponseId)
    requires CanAct(s, r, act) && !s.responses[r].released && (act.Cancel? || act.Deliver? || act.BeginDestroy?)
    ensures var steps := [ActOn(r, act), ActOn(r, Exchange), Decrement(r)];
            && Runs(s, steps) && TakesOff(s, Execute(s, steps), r)
            && (act.BeginDestroy? ==> CanAct(Execute(s, steps), r, EndDestroy))
  {
    var one := Apply(s, ActOn(r, act));
    assert CanAct(one, r, Exchange);
    ThreeSteps(s, ActOn(r, act), ActOn(r, Exchange), Decrement(r));
  }

  lemma ResponseCanEnd(steps: seq<Step>, r: ResponseId, act: Act)
    requires Runs(Init(), steps) && r in Execute(Init(), steps).responses
    requires var q := Execute(Init(), steps).responses[r]; q.stage.Alive? && !q.released
    requires act.Cancel? || act.BeginDestroy?
             || (act.Deliver? && var s := Execute(Init(), steps);
                                 s.responses[r].delivery.NotYet? && s.responses[r].load in s.loads
                                 && s.loads[s.responses[r].load].worker.Finished?)
    ensures var s := Execute(Init(), steps);
            var release := [ActOn(r, act), ActOn(r, Exchange), Decrement(r)];
            && s.responses[r].load in s.loads
            && Runs(s, release) && TakesOff(s, Execute(s, release), r)
            && (act.BeginDestroy? ==> CanAct(Execute(s, release), r, EndDestroy))
  {
    RunKeepsInv(Init(), steps);
    var s := Execute(Init(), steps);
    assert ResponseOk(s.loads, s.responses[r]);
    ReleaseTakesOff(s, act, r);
  }

  // Once acquire has returned it, a response can be constructed.
  lemma ResponseCanBegin(steps: seq<Step>, r: ResponseId)
    requires Runs(Init(), steps) && r in Execute(Init(), steps).responses
    requires Execute(Init(), steps).responses[r].stage.Constructing? && Execute(Init(), steps).acquirer.Idle?
    ensures Enabled(Execute(Init(), steps), ActOn(r, Construct))
  {
    RunKeepsInv(Init(), steps);
    assert ResponseOk(Execute(Init(), steps).loads, Execute(Init(), steps).responses[r]);
  }

  // ------------------------------------------------------------------- shutdown

  function Shut(steps: seq<Step>, now: bool): bool {
    if steps == [] then now
    else Shut(steps[1..], if steps[0].RequestShutdown? then true else if steps[0].ResetShutdown? then false else now)
  }

  // Whether shutdown was requested at some moment since the load was created.
  ghost function ShutSince(s: State, steps: seq<Step>, l: LoadId, saw: bool): bool
    requires Runs(s, steps)
    decreases |steps|
  {
    if steps == [] then saw
    else
      var s' := Apply(s, steps[0]);
      ShutSince(s', steps[1..], l, saw || (l in s'.loads && s'.shutdown))
  }

  lemma {:induction false} RunIsShut(s: State, steps: seq<Step>)
    requires Runs(s, steps)
    ensures Execute(s, steps).shutdown == Shut(steps, s.shutdown)
    decreases |steps|
  {
    if steps != [] {
      RunIsShut(Apply(s, steps[0]), steps[1..]);
    }
  }

  ghost predicate Saw(s: State, l: LoadId, saw: bool) {
    (l in s.loads ==> s.loads[l].sawShutdown == saw && (s.shutdown ==> saw)) && (l !in s.loads ==> !saw)
  }

  lemma StepSaw(s: State, step: Step, l: LoadId, saw: bool)
    requires Enabled(s, step) && Saw(s, l, saw)
    ensures var s' := Apply(s, step); Saw(s', l, saw || (l in s'.loads && s'.shutdown))
  {
  }

  lemma {:induction false} RunSaw(s: State, steps: seq<Step>, l: LoadId, saw: bool)
    requires Runs(s, steps) && Saw(s, l, saw)
    ensures Saw(Execute(s, steps), l, ShutSince(s, steps, l, saw))
    decreases |steps|
  {
    if steps != [] {
      var s' := Apply(s, steps[0]);
      StepSaw(s, steps[0], l, saw);
      RunSaw(s', steps[1..], l, saw || (l in s'.loads && s'.shutdown));
    }
  }

  // The shutdown flag is what was asked for last, and what a load is said to have
  // seen of it is that it was set in its life.
  lemma ShutdownIsSeen(steps: seq<Step>, l: LoadId)
    requires Runs(Init(), steps)
    ensures var s := Execute(Init(), steps);
            && s.shutdown == Shut(steps, false)
            && (l in s.loads ==> s.loads[l].sawShutdown == ShutSince(Init(), steps, l, false))
  {
    RunIsShut(Init(), steps);
    RunSaw(Init(), steps, l, false);
  }
}
