// Shared image loads: a mutex-guarded registry of weak references, a lock-free
// count of consumers per load, and a worker that polls the count to decide
// whether anyone still wants the image.
//
// Every atomic access of the source is one step, and a run is any interleaving
// of the steps that the requesting, cancelling, finishing, destroying and
// decoding threads can take.
module ImageLoads {
  import opened Decimal
  import opened Options

  type LoadId = nat
  type ResponseId = nat

  datatype Key = Key(candidate: string, width: int, height: int)

  // An ImageLoadResult with an image, with an error, or with neither.
  datatype Result = Picture | Failure | Abandoned

  datatype Probe = Missing | Ready | Unsafe

  const POLL_ATTEMPTS: nat := 600
  const SWEEP_PERIOD: nat := 64
  const SWEEP_SIZE: nat := 1024

  // Where the worker of a load stands in loadImage. Each of its tests reads the
  // shutdown flag first and the consumer count second.
  datatype Worker =
    | Starting
    | ReadingShutdown(attempt: nat)
    | ReadingConsumers(attempt: nat)
    | Probing(attempt: nat)
    | LastShutdown
    | LastConsumers
    | Decoding
    | Finished(result: Result)

  // sawShutdown records that shutdown was requested at some moment of the load's life.
  datatype Load = Load(key: Key, consumers: int, worker: Worker, sawShutdown: bool)

  datatype Stage = Constructing | Alive | Destroying | Gone

  datatype Delivery = NotYet | Skipped | Got(result: Result)

  // owesDecrement: the caller that won the exchange on m_released has not
  // performed its fetch_sub yet.
  datatype Response = Response(
    load: LoadId, stage: Stage, cancelled: bool, released: bool,
    owesDecrement: bool, delivery: Delivery)
  {
    predicate Holds() {
      !released || owesDecrement
    }
  }

  // The thread inside acquire, which holds the registry's mutex.
  datatype Acquirer =
    | Idle
    | Locked(key: Key, load: LoadId)
    | Trying(key: Key, load: LoadId, seen: int)
    | Missed(key: Key)
    | Sweeping(key: Key, todo: set<Key>)
    | Creating(key: Key)
    | Inserting(key: Key, load: LoadId, response: ResponseId)

  datatype State = State(
    loads: map<LoadId, Load>,
    registry: map<Key, LoadId>,
    responses: map<ResponseId, Response>,
    acquirer: Acquirer,
    requestCount: nat,
    shutdown: bool)

  function Init(): State {
    State(map[], map[], map[], Idle, 0, false)
  }

  // A weak reference to the load can still be locked.
  ghost predicate Referenced(s: State, l: LoadId) {
    || (exists r :: r in s.responses && s.responses[r].load == l && !s.responses[r].stage.Gone?)
    || ((s.acquirer.Locked? || s.acquirer.Trying?) && s.acquirer.load == l)
  }

  function NextWorker(load: Load, shutdown: bool, probe: Probe, decoded: bool): Worker {
    match load.worker
    case Starting =>
      if load.key.candidate == "" then Finished(Failure) else ReadingShutdown(0)
    case ReadingShutdown(n) =>
      if shutdown then Finished(Abandoned) else ReadingConsumers(n)
    case ReadingConsumers(n) =>
      if load.consumers == 0 then Finished(Abandoned) else Probing(n)
    case Probing(n) =>
      (match probe
       case Ready => LastShutdown
       case Unsafe => Finished(Failure)
       case Missing =>
         if n + 1 < POLL_ATTEMPTS then ReadingShutdown(n + 1) else Finished(Failure))
    case LastShutdown =>
      if shutdown then Finished(Abandoned) else LastConsumers
    case LastConsumers =>
      if load.consumers == 0 then Finished(Abandoned) else Decoding
    case Decoding => Finished(if decoded then Picture else Failure)
    case Finished(r) => load.worker
  }

  // ------------------------------------------------------ steps inside acquire

  ghost function LookedUp(s: State, key: Key): State {
    s.(acquirer := if key in s.registry && Referenced(s, s.registry[key])
                   then Locked(key, s.registry[key]) else Missed(key))
  }

  // What acquire does with a count it has just read: retry while it is
  // positive, otherwise give the load up.
  function Continue(key: Key, load: LoadId, count: int): Acquirer {
    if count > 0 then Trying(key, load, count) else Missed(key)
  }

  function CountRead(s: State): State
    requires s.acquirer.Locked? && s.acquirer.load in s.loads
  {
    var l := s.acquirer.load;
    s.(acquirer := Continue(s.acquirer.key, l, s.loads[l].consumers))
  }

  // compare_exchange_weak: it may fail spuriously, and reloads the count when it fails.
  function Exchanged(s: State, r: ResponseId, spurious: bool): State
    requires s.acquirer.Trying? && s.acquirer.load in s.loads
  {
    var l := s.acquirer.load;
    var count := s.loads[l].consumers;
    if count == s.acquirer.seen && !spurious then
      State(s.loads[l := s.loads[l].(consumers := count + 1)], s.registry,
            s.responses[r := Joined(l)], Idle, s.requestCount, s.shutdown)
    else
      s.(acquirer := Continue(s.acquirer.key, l, count))
  }

  function Joined(l: LoadId): Response {
    Response(l, Constructing, false, false, false, NotYet)
  }

  function RequestCounted(s: State): State
    requires s.acquirer.Missed?
  {
    var count := s.requestCount + 1;
    s.(requestCount := count,
       acquirer := if count % SWEEP_PERIOD == 0 || |s.registry| > SWEEP_SIZE
                   then Sweeping(s.acquirer.key, s.registry.Keys)
                   else Creating(s.acquirer.key))
  }

  ghost function Swept(s: State, key: Key): State
    requires s.acquirer.Sweeping? && key in s.registry
  {
    s.(registry := if Referenced(s, s.registry[key]) then s.registry else s.registry - {key},
       acquirer := Sweeping(s.acquirer.key, s.acquirer.todo - {key}))
  }

  function Created(s: State, l: LoadId, r: ResponseId): State
    requires s.acquirer.Creating?
  {
    State(s.loads[l := Load(s.acquirer.key, 1, Starting, s.shutdown)], s.registry,
          s.responses[r := Joined(l)], Inserting(s.acquirer.key, l, r), s.requestCount, s.shutdown)
  }

  function Inserted(s: State): State
    requires s.acquirer.Inserting?
  {
    s.(registry := s.registry[s.acquirer.key := s.acquirer.load], acquirer := Idle)
  }

  // --------------------------------------------------------- steps of a response

  datatype Act = Construct | Cancel | Exchange | Deliver | BeginDestroy | EndDestroy

  predicate CanAct(s: State, r: ResponseId, act: Act) {
    && r in s.responses && s.responses[r].load in s.loads
    && var q := s.responses[r];
    match act
    case Construct => q.stage.Constructing? && !(s.acquirer.Inserting? && s.acquirer.response == r)
    case Cancel => q.stage.Alive?
    case Exchange =>
      q.stage.Destroying? || (q.stage.Alive? && (q.cancelled || !q.delivery.NotYet?))
    case Deliver => q.stage.Alive? && q.delivery.NotYet? && s.loads[q.load].worker.Finished?
    case BeginDestroy => q.stage.Alive?
    case EndDestroy => q.stage.Destroying? && q.released && !q.owesDecrement
  }

  // How a response changes in one atomic step other than its fetch_sub.
  function Acted(q: Response, act: Act, worker: Worker): Response
    requires act.Deliver? ==> worker.Finished?
  {
    match act
    case Construct => q.(stage := Alive)
    case Cancel => q.(cancelled := true)
    case Exchange => if q.released then q else q.(released := true, owesDecrement := true)
    case Deliver => q.(delivery := if q.cancelled then Skipped else Got(worker.result))
    case BeginDestroy => q.(stage := Destroying)
    case EndDestroy => q.(stage := Gone)
  }

  function Decremented(s: State, r: ResponseId): State
    requires r in s.responses && s.responses[r].load in s.loads
  {
    var l := s.responses[r].load;
    s.(responses := s.responses[r := s.responses[r].(owesDecrement := false)],
       loads := s.loads[l := s.loads[l].(consumers := s.loads[l].consumers - 1)])
  }

  // ------------------------------------------------------------------ all steps

  datatype Step =
    | Lookup(key: Key)
    | ReadCount
    | TryExchange(response: ResponseId, spurious: bool)
    | CountRequest
    | SweepEntry(key: Key)
    | FinishSweep
    | CreateLoad(load: LoadId, response: ResponseId)
    | InsertLoad
    | ActOn(response: ResponseId, act: Act)
    | Decrement(response: ResponseId)
    | Work(load: LoadId, probe: Probe, decoded: bool)
    | RequestShutdown
    | ResetShutdown

  predicate Enabled(s: State, step: Step) {
    match step
    case Lookup(key) => s.acquirer.Idle?
    case ReadCount => s.acquirer.Locked? && s.acquirer.load in s.loads
    case TryExchange(r, spurious) =>
      s.acquirer.Trying? && s.acquirer.load in s.loads && r !in s.responses
    case CountRequest => s.acquirer.Missed?
    case SweepEntry(key) => s.acquirer.Sweeping? && key in s.acquirer.todo && key in s.registry
    case FinishSweep => s.acquirer.Sweeping? && s.acquirer.todo == {}
    case CreateLoad(l, r) => s.acquirer.Creating? && l !in s.loads && r !in s.responses
    case InsertLoad => s.acquirer.Inserting?
    case ActOn(r, act) => CanAct(s, r, act)
    case Decrement(r) =>
      r in s.responses && s.responses[r].owesDecrement && s.responses[r].load in s.loads
    case Work(l, _, _) => l in s.loads
    case RequestShutdown => true
    case ResetShutdown => true
  }

  ghost function Apply(s: State, step: Step): State
    requires Enabled(s, step)
  {
    match step
    case Lookup(key) => LookedUp(s, key)
    case ReadCount => CountRead(s)
    case TryExchange(r, spurious) => Exchanged(s, r, spurious)
    case CountRequest => RequestCounted(s)
    case SweepEntry(key) => Swept(s, key)
    case FinishSweep => s.(acquirer := Creating(s.acquirer.key))
    case CreateLoad(l, r) => Created(s, l, r)
    case InsertLoad => Inserted(s)
    case ActOn(r, act) =>
      s.(responses := s.responses[r := Acted(s.responses[r], act, s.loads[s.responses[r].load].worker)])
    case Decrement(r) => Decremented(s, r)
    case Work(l, probe, decoded) =>
      s.(loads := s.loads[l := s.loads[l].(
        worker := NextWorker(s.loads[l], s.shutdown, probe, decoded))])
    case RequestShutdown =>
      s.(shutdown := true, loads := map l | l in s.loads :: s.loads[l].(sawShutdown := true))
    case ResetShutdown => s.(shutdown := false)
  }

  // ---------------------------------------------------------------- invariant

  ghost function Holders(responses: map<ResponseId, Response>, l: LoadId): set<ResponseId> {
    set r | r in responses && responses[r].load == l && responses[r].Holds()
  }

  ghost predicate CountsOk(loads: map<LoadId, Load>, responses: map<ResponseId, Response>) {
    forall l :: l in loads ==> loads[l].consumers == |Holders(responses, l)|
  }

  ghost predicate ResponseOk(loads: map<LoadId, Load>, q: Response) {
    && q.load in loads
    && (q.owesDecrement ==> q.released)
    && (q.released ==> q.cancelled || !q.delivery.NotYet? || q.stage.Destroying? || q.stage.Gone?)
    && (q.stage.Constructing? ==> !q.released && !q.cancelled && q.delivery.NotYet?)
    && (q.stage.Gone? ==> q.released && !q.owesDecrement)
    && (q.delivery.Skipped? ==> q.cancelled)
    && (q.delivery.Got? ==> loads[q.load].worker == Finished(q.delivery.result))
    && (q.delivery == Got(Abandoned) ==> loads[q.load].sawShutdown)
  }

  ghost predicate ResponsesOk(loads: map<LoadId, Load>, responses: map<ResponseId, Response>) {
    forall r :: r in responses ==> ResponseOk(loads, responses[r])
  }

  ghost predicate WorkerOk(load: Load, shutdown: bool) {
    && (load.worker == Finished(Abandoned) ==> load.sawShutdown || load.consumers == 0)
    && (shutdown ==> load.sawShutdown)
  }

  ghost predicate WorkersOk(loads: map<LoadId, Load>, shutdown: bool) {
    forall l :: l in loads ==> WorkerOk(loads[l], shutdown)
  }

  ghost predicate RegistryOk(loads: map<LoadId, Load>, registry: map<Key, LoadId>) {
    forall k :: k in registry ==> registry[k] in loads && loads[registry[k]].key == k
  }

  // A load somebody still wants is the registered one of its key, or is about
  // to be registered by the thread that holds the mutex.
  ghost predicate LiveOk(loads: map<LoadId, Load>, registry: map<Key, LoadId>, acquirer: Acquirer) {
    forall l :: l in loads && loads[l].consumers > 0 ==>
      || (loads[l].key in registry && registry[loads[l].key] == l)
      || (acquirer.Inserting? && acquirer.load == l)
  }

  ghost predicate NoLiveLoad(loads: map<LoadId, Load>, key: Key, except: set<LoadId>) {
    forall l :: l in loads && l !in except && loads[l].key == key ==> loads[l].consumers == 0
  }

  ghost predicate AcquirerOk(loads: map<LoadId, Load>, registry: map<Key, LoadId>, acquirer: Acquirer) {
    match acquirer
    case Idle => true
    case Locked(key, l) => key in registry && registry[key] == l
    case Trying(key, l, seen) => key in registry && registry[key] == l && seen > 0
    case Missed(key) => NoLiveLoad(loads, key, {})
    case Sweeping(key, todo) => NoLiveLoad(loads, key, {}) && todo <= registry.Keys
    case Creating(key) => NoLiveLoad(loads, key, {})
    case Inserting(key, l, r) =>
      l in loads && loads[l].key == key && NoLiveLoad(loads, key, {l})
  }

  ghost predicate LoadsOk(loads: map<LoadId, Load>, registry: map<Key, LoadId>, acquirer: Acquirer, shutdown: bool) {
    && WorkersOk(loads, shutdown)
    && RegistryOk(loads, registry)
    && LiveOk(loads, registry, acquirer)
    && AcquirerOk(loads, registry, acquirer)
  }

  ghost predicate Inv(s: State) {
    && CountsOk(s.loads, s.responses)
    && ResponsesOk(s.loads, s.responses)
    && LoadsOk(s.loads, s.registry, s.acquirer, s.shutdown)
  }

  // ------------------------------------------------- counts and their holders

  lemma HoldersAfterUpdate(responses: map<ResponseId, Response>, r: ResponseId, q: Response, l: LoadId)
    requires r in responses ==> responses[r].load == q.load
    ensures Holders(responses[r := q], l) ==
            if q.load == l && q.Holds() then Holders(responses, l) + {r} else Holders(responses, l) - {r}
  {
  }

  lemma CountsAfterUpdate(loads: map<LoadId, Load>, responses: map<ResponseId, Response>,
                          r: ResponseId, q: Response, loads': map<LoadId, Load>)
    requires CountsOk(loads, responses)
    requires r in responses ==> responses[r].load == q.load
    requires loads.Keys == loads'.Keys && q.load in loads
    requires forall l :: l in loads && l != q.load ==> loads'[l].consumers == loads[l].consumers
    requires loads'[q.load].consumers == loads[q.load].consumers
             + (if q.Holds() then 1 else 0)
             - (if r in responses && responses[r].Holds() then 1 else 0)
    ensures CountsOk(loads', responses[r := q])
  {
    forall l | l in loads'
      ensures loads'[l].consumers == |Holders(responses[r := q], l)|
    {
      HoldersAfterUpdate(responses, r, q, l);
    }
  }

  lemma HeldLoadIsReferenced(s: State, l: LoadId)
    requires CountsOk(s.loads, s.responses) && ResponsesOk(s.loads, s.responses)
    requires l in s.loads && s.loads[l].consumers > 0
    ensures Referenced(s, l)
  {
    var r :| r in Holders(s.responses, l);
    assert ResponseOk(s.loads, s.responses[r]);
  }

  // How a load may change: a count at zero stays there, a result stays, and the
  // record of a requested shutdown is not forgotten.
  predicate Evolves(load: Load, load': Load) {
    && load'.key == load.key
    && (load.consumers <= 0 ==> load'.consumers <= 0)
    && (load.worker.Finished? ==> load'.worker == load.worker)
    && (load.sawShutdown ==> load'.sawShutdown)
  }

  ghost predicate AllEvolve(loads: map<LoadId, Load>, loads': map<LoadId, Load>) {
    forall l :: l in loads ==> l in loads' && Evolves(loads[l], loads'[l])
  }

  lemma ResponsesEvolve(loads: map<LoadId, Load>, loads': map<LoadId, Load>, responses: map<ResponseId, Response>)
    requires ResponsesOk(loads, responses) && AllEvolve(loads, loads')
    ensures ResponsesOk(loads', responses)
  {
    forall r | r in responses
      ensures ResponseOk(loads', responses[r])
    {
      assert ResponseOk(loads, responses[r]);
    }
  }

  lemma ResponseUpdateKeeps(loads: map<LoadId, Load>, responses: map<ResponseId, Response>, r: ResponseId, q: Response)
    requires ResponsesOk(loads, responses) && ResponseOk(loads, q)
    ensures ResponsesOk(loads, responses[r := q])
  {
  }

  lemma LoadUpdateKeeps(loads: map<LoadId, Load>, registry: map<Key, LoadId>, acquirer: Acquirer, shutdown: bool,
                        l: LoadId, load: Load)
    requires LoadsOk(loads, registry, acquirer, shutdown)
    requires l in loads && Evolves(loads[l], load) && WorkerOk(load, shutdown) && load.consumers >= 0
    ensures LoadsOk(loads[l := load], registry, acquirer, shutdown)
    ensures AllEvolve(loads, loads[l := load])
  {
    var loads' := loads[l := load];
    assert WorkersOk(loads', shutdown);
    assert RegistryOk(loads', registry);
    assert loads[l].consumers == 0 ==> load.consumers == 0;
    assert LiveOk(loads', registry, acquirer);
  }

  // ----------------------------------------------- every step keeps the invariant

  lemma LookupKeepsInv(s: State, key: Key)
    requires Inv(s) && s.acquirer.Idle?
    ensures Inv(LookedUp(s, key))
  {
    forall l | l in s.loads && s.loads[l].key == key && s.loads[l].consumers > 0
      ensures key in s.registry && s.registry[key] == l && Referenced(s, l)
    {
      HeldLoadIsReferenced(s, l);
    }
  }

  lemma ReadKeepsInv(s: State)
    requires Inv(s) && s.acquirer.Locked? && s.acquirer.load in s.loads
    ensures Inv(CountRead(s))
  {
  }

  lemma ExchangeKeepsInv(s: State, r: ResponseId, spurious: bool)
    requires Inv(s) && s.acquirer.Trying? && s.acquirer.load in s.loads && r !in s.responses
    ensures Inv(Exchanged(s, r, spurious)) && AllEvolve(s.loads, Exchanged(s, r, spurious).loads)
  {
    var s' := Exchanged(s, r, spurious);
    if s'.acquirer.Idle? {
      var l := s.acquirer.load;
      assert WorkerOk(s.loads[l], s.shutdown);
      CountsAfterUpdate(s.loads, s.responses, r, Joined(l), s'.loads);
      LoadUpdateKeeps(s.loads, s.registry, s.acquirer, s.shutdown, l, s'.loads[l]);
      ResponsesEvolve(s.loads, s'.loads, s.responses);
      ResponseUpdateKeeps(s'.loads, s.responses, r, Joined(l));
    }
  }

  lemma SweepKeepsInv(s: State, key: Key)
    requires Inv(s) && s.acquirer.Sweeping? && key in s.registry
    ensures Inv(Swept(s, key))
  {
    var l := s.registry[key];
    if s.loads[l].consumers > 0 {
      HeldLoadIsReferenced(s, l);
    }
  }

  lemma CreateKeepsLoads(loads: map<LoadId, Load>, registry: map<Key, LoadId>, key: Key, shutdown: bool,
                         l: LoadId, r: ResponseId)
    requires LoadsOk(loads, registry, Creating(key), shutdown) && l !in loads
    ensures LoadsOk(loads[l := Load(key, 1, Starting, shutdown)], registry, Inserting(key, l, r), shutdown)
  {
    var loads' := loads[l := Load(key, 1, Starting, shutdown)];
    assert WorkersOk(loads', shutdown);
    assert RegistryOk(loads', registry);
    assert LiveOk(loads', registry, Inserting(key, l, r));
  }

  lemma CreateKeepsCounts(s: State, l: LoadId, r: ResponseId)
    requires CountsOk(s.loads, s.responses) && ResponsesOk(s.loads, s.responses)
    requires s.acquirer.Creating? && l !in s.loads && r !in s.responses
    ensures CountsOk(Created(s, l, r).loads, Created(s, l, r).responses)
  {
    assert forall q :: q in s.responses ==> ResponseOk(s.loads, s.responses[q]);
    assert Holders(s.responses, l) == {};
    var padded := s.loads[l := Load(s.acquirer.key, 0, Starting, s.shutdown)];
    CountsAfterUpdate(padded, s.responses, r, Joined(l), Created(s, l, r).loads);
  }

  lemma CreateKeepsInv(s: State, l: LoadId, r: ResponseId)
    requires Inv(s) && s.acquirer.Creating? && l !in s.loads && r !in s.responses
    ensures Inv(Created(s, l, r)) && AllEvolve(s.loads, Created(s, l, r).loads)
  {
    var s' := Created(s, l, r);
    CreateKeepsCounts(s, l, r);
    CreateKeepsLoads(s.loads, s.registry, s.acquirer.key, s.shutdown, l, r);
    ResponsesEvolve(s.loads, s'.loads, s.responses);
    ResponseUpdateKeeps(s'.loads, s.responses, r, Joined(l));
  }

  lemma InsertKeepsInv(s: State)
    requires Inv(s) && s.acquirer.Inserting?
    ensures Inv(Inserted(s))
  {
  }

  lemma ActKeepsResponse(s: State, r: ResponseId, act: Act)
    requires Inv(s) && CanAct(s, r, act)
    ensures var q := s.responses[r];
            var q' := Acted(q, act, s.loads[q.load].worker);
            q'.load == q.load && q'.Holds() == q.Holds() && ResponseOk(s.loads, q')
  {
    var q := s.responses[r];
    assert ResponseOk(s.loads, q);
    if act.Deliver? && !q.cancelled {
      // An unreleased response holds its load, so its worker has not seen zero.
      assert r in Holders(s.responses, q.load);
      assert WorkerOk(s.loads[q.load], s.shutdown);
    }
  }

  lemma ActKeepsInv(s: State, r: ResponseId, act: Act)
    requires Inv(s) && CanAct(s, r, act)
    ensures Inv(Apply(s, ActOn(r, act)))
  {
    var q' := Acted(s.responses[r], act, s.loads[s.responses[r].load].worker);
    ActKeepsResponse(s, r, act);
    CountsAfterUpdate(s.loads, s.responses, r, q', s.loads);
    ResponseUpdateKeeps(s.loads, s.responses, r, q');
  }

  lemma DecrementKeepsInv(s: State, r: ResponseId)
    requires Inv(s) && r in s.responses && s.responses[r].owesDecrement && s.responses[r].load in s.loads
    ensures Inv(Decremented(s, r)) && AllEvolve(s.loads, Decremented(s, r).loads)
  {
    var q, s' := s.responses[r], Decremented(s, r);
    var q' := q.(owesDecrement := false);
    assert ResponseOk(s.loads, q) && WorkerOk(s.loads[q.load], s.shutdown);
    assert r in Holders(s.responses, q.load);
    CountsAfterUpdate(s.loads, s.responses, r, q', s'.loads);
    LoadUpdateKeeps(s.loads, s.registry, s.acquirer, s.shutdown, q.load, s'.loads[q.load]);
    ResponsesEvolve(s.loads, s'.loads, s.responses);
    ResponseUpdateKeeps(s'.loads, s.responses, r, q');
  }

  lemma WorkKeepsInv(s: State, l: LoadId, probe: Probe, decoded: bool)
    requires Inv(s) && l in s.loads
    ensures Inv(Apply(s, Work(l, probe, decoded)))
    ensures AllEvolve(s.loads, Apply(s, Work(l, probe, decoded)).loads)
  {
    var loads' := Apply(s, Work(l, probe, decoded)).loads;
    assert WorkerOk(s.loads[l], s.shutdown);
    LoadUpdateKeeps(s.loads, s.registry, s.acquirer, s.shutdown, l, loads'[l]);
    ResponsesEvolve(s.loads, loads', s.responses);
    assert CountsOk(loads', s.responses);
  }

  lemma ShutdownKeepsInv(s: State)
    requires Inv(s)
    ensures Inv(Apply(s, RequestShutdown)) && AllEvolve(s.loads, Apply(s, RequestShutdown).loads)
  {
    var loads' := Apply(s, RequestShutdown).loads;
    assert forall l :: l in s.loads ==> WorkerOk(s.loads[l], s.shutdown);
    assert AllEvolve(s.loads, loads');
    ResponsesEvolve(s.loads, loads', s.responses);
    assert CountsOk(loads', s.responses);
    assert WorkersOk(loads', true);
    assert AcquirerOk(loads', s.registry, s.acquirer);
  }

  lemma ResetKeepsInv(s: State)
    requires Inv(s)
    ensures Inv(Apply(s, ResetShutdown))
  {
    assert forall l :: l in s.loads ==> WorkerOk(s.loads[l], s.shutdown);
  }

  lemma StepKeepsInv(s: State, step: Step)
    requires Inv(s) && Enabled(s, step)
    ensures Inv(Apply(s, step)) && AllEvolve(s.loads, Apply(s, step).loads)
  {
    match step
    case Lookup(key) => LookupKeepsInv(s, key);
    case ReadCount => ReadKeepsInv(s);
    case TryExchange(r, spurious) => ExchangeKeepsInv(s, r, spurious);
    case CountRequest =>
    case SweepEntry(key) => SweepKeepsInv(s, key);
    case FinishSweep =>
    case CreateLoad(l, r) => CreateKeepsInv(s, l, r);
    case InsertLoad => InsertKeepsInv(s);
    case ActOn(r, act) => ActKeepsInv(s, r, act);
    case Decrement(r) => DecrementKeepsInv(s, r);
    case Work(l, probe, decoded) => WorkKeepsInv(s, l, probe, decoded);
    case RequestShutdown => ShutdownKeepsInv(s);
    case ResetShutdown => ResetKeepsInv(s);
  }

  // -------------------------------------------------------------------- all runs

  ghost predicate Runs(s: State, steps: seq<Step>)
    decreases |steps|
  {
    steps == [] || (Enabled(s, steps[0]) && Runs(Apply(s, steps[0]), steps[1..]))
  }

  ghost function Execute(s: State, steps: seq<Step>): State
    requires Runs(s, steps)
    decreases |steps|
  {
    if steps == [] then s else Execute(Apply(s, steps[0]), steps[1..])
  }

  lemma {:induction false} RunKeepsInv(s: State, steps: seq<Step>)
    requires Inv(s) && Runs(s, steps)
    ensures Inv(Execute(s, steps)) && AllEvolve(s.loads, Execute(s, steps).loads)
    decreases |steps|
  {
    if steps != [] {
      StepKeepsInv(s, steps[0]);
      RunKeepsInv(Apply(s, steps[0]), steps[1..]);
    }
  }

  // In every interleaving the counter of a load is the number of responses that
  // have not released it, so it is never negative.
  lemma CounterEqualsHolders(steps: seq<Step>, l: LoadId)
    requires Runs(Init(), steps) && l in Execute(Init(), steps).loads
    ensures var s := Execute(Init(), steps);
            s.loads[l].consumers == |Holders(s.responses, l)| >= 0
  {
    RunKeepsInv(Init(), steps);
  }

  // A counter that has reached zero never leaves it, whatever happens next.
  lemma ZeroIsFinal(before: seq<Step>, after: seq<Step>, l: LoadId)
    requires Runs(Init(), before) && Runs(Execute(Init(), before), after)
    requires l in Execute(Init(), before).loads && Execute(Init(), before).loads[l].consumers == 0
    ensures var s := Execute(Execute(Init(), before), after);
            l in s.loads && s.loads[l].consumers == 0
  {
    RunKeepsInv(Init(), before);
    RunKeepsInv(Execute(Init(), before), after);
  }

  // Requests for one key share one live load.
  lemma OneLiveLoadPerKey(steps: seq<Step>, l: LoadId, m: LoadId)
    requires Runs(Init(), steps)
    requires var s := Execute(Init(), steps);
             l in s.loads && m in s.loads && s.loads[l].key == s.loads[m].key
             && s.loads[l].consumers > 0 && s.loads[m].consumers > 0
    ensures l == m
  {
    RunKeepsInv(Init(), steps);
  }

  // Neither the expiry sweep nor the overwrite of a registry entry displaces a
  // load that still has a consumer, and a second load is started for a key only
  // when no live one is left.
  lemma LiveLoadIsNeverDisplaced(steps: seq<Step>, step: Step, key: Key)
    requires Runs(Init(), steps) && Enabled(Execute(Init(), steps), step)
    ensures var s := Execute(Init(), steps);
            var s' := Apply(s, step);
            key in s.registry && (key !in s'.registry || s'.registry[key] != s.registry[key]) ==>
              s.registry[key] in s.loads && s.loads[s.registry[key]].consumers == 0
    ensures var s := Execute(Init(), steps);
            step.CreateLoad? ==>
              forall l :: l in s.loads && s.loads[l].key == s.acquirer.key ==> s.loads[l].consumers == 0
  {
    RunKeepsInv(Init(), steps);
    var s := Execute(Init(), steps);
    if step.SweepEntry? && s.loads[s.registry[step.key]].consumers > 0 {
      HeldLoadIsReferenced(s, s.registry[step.key]);
    }
  }

  // A load is given up as abandoned only when nobody is waiting for it, and no
  // response that was uncancelled when the shared future finished receives the
  // empty result, unless shutdown was requested during the life of the load.
  lemma WaitingResponseGetsAResult(steps: seq<Step>, r: ResponseId)
    requires Runs(Init(), steps) && r in Execute(Init(), steps).responses
    ensures var s := Execute(Init(), steps);
            var q := s.responses[r];
            && q.load in s.loads
            && (!s.loads[q.load].sawShutdown ==>
                 && q.delivery != Got(Abandoned)
                 && (s.loads[q.load].worker == Finished(Abandoned) ==>
                       q.cancelled || q.stage.Destroying? || q.stage.Gone?))
  {
    RunKeepsInv(Init(), steps);
    var s := Execute(Init(), steps);
    var q := s.responses[r];
    assert ResponseOk(s.loads, q) && WorkerOk(s.loads[q.load], s.shutdown);
    if s.loads[q.load].worker == Finished(Abandoned) && !s.loads[q.load].sawShutdown {
      assert r !in Holders(s.responses, q.load);
    }
  }

  // The registry's text for a key: the candidate path, a NUL, and the
  // requested width and height. It never identifies two different requests.
  function KeyText(key: Key): string {
    key.candidate + "\0" + (Numeral(key.width) + "x" + Numeral(key.height))
  }

  lemma KeyTextInjective(a: Key, b: Key)
    requires KeyText(a) == KeyText(b)
    ensures a == b
  {
    var sizeA := Numeral(a.width) + "x" + Numeral(a.height);
    var sizeB := Numeral(b.width) + "x" + Numeral(b.height);
    SplitAtLast('\0', a.candidate, sizeA, b.candidate, sizeB);
    SplitAtFirst('x', Numeral(a.width), Numeral(a.height), Numeral(b.width), Numeral(b.height));
    NumeralInjective(a.width, b.width);
    NumeralInjective(a.height, b.height);
  }
}
