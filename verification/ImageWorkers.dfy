// What the worker of a shared image load delivers: the result that follows from
// what its own steps saw, in whatever interleaving.
module ImageWorkers {
  import opened ImageLoads

  // What the surroundings were when a worker took one of its steps.
  datatype Sight = Sight(shutdown: bool, consumers: int, probe: Probe, decoded: bool)

  // The sights of the worker of a load, in order.
  ghost function History(s: State, steps: seq<Step>, l: LoadId): seq<Sight>
    requires Runs(s, steps)
    decreases |steps|
  {
    if steps == [] then []
    else Seen(s, steps[0], l) + History(Apply(s, steps[0]), steps[1..], l)
  }

  function Seen(s: State, step: Step, l: LoadId): seq<Sight>
    requires Enabled(s, step)
  {
    if step.Work? && step.load == l then [Sight(s.shutdown, s.loads[l].consumers, step.probe, step.decoded)] else []
  }

  // The first step looks at the candidate. Then attempt i reads the shutdown flag,
  // the count and the file, in three steps; the two tests before decoding are the
  // first two of one more attempt, and decoding takes the place of its third.
  predicate StillWanted(h: seq<Sight>, i: nat) {
    3 * i + 2 < |h| && !h[3 * i + 1].shutdown && h[3 * i + 2].consumers != 0
  }

  predicate Polled(h: seq<Sight>, i: nat, probe: Probe) {
    StillWanted(h, i) && 3 * i + 3 < |h| && h[3 * i + 3].probe == probe
  }

  predicate AllMissing(h: seq<Sight>, n: nat) {
    forall i: nat :: i < n ==> Polled(h, i, Missing)
  }

  predicate FoundAt(h: seq<Sight>, i: nat) {
    i < 600 && AllMissing(h, i) && Polled(h, i, Ready)
  }

  predicate UnsafeAt(h: seq<Sight>, i: nat) {
    i < 600 && AllMissing(h, i) && Polled(h, i, Unsafe)
  }

  predicate Decoded(h: seq<Sight>, i: nat, ok: bool) {
    FoundAt(h, i) && StillWanted(h, i + 1) && 3 * i + 6 < |h| && h[3 * i + 6].decoded == ok
  }

  // The attempt, or the last test, that found the shutdown flag or nobody waiting.
  predicate GaveUpAt(h: seq<Sight>, i: nat) {
    && ((i < 600 && AllMissing(h, i)) || (i > 0 && FoundAt(h, i - 1)))
    && 3 * i + 1 < |h|
    && (h[3 * i + 1].shutdown || (3 * i + 2 < |h| && h[3 * i + 2].consumers == 0))
  }

  // What a worker that has seen h has to have come to, with these results.
  ghost predicate Delivers(candidate: string, h: seq<Sight>, result: Result) {
    match result
    case Picture => candidate != "" && exists i: nat :: Decoded(h, i, true)
    case Failure =>
      h != [] && (candidate == "" || AllMissing(h, 600) || (exists i: nat :: UnsafeAt(h, i))
                  || exists i: nat :: Decoded(h, i, false))
    case Abandoned => candidate != "" && exists i: nat :: GaveUpAt(h, i)
  }

  ghost predicate HasSeen(candidate: string, worker: Worker, h: seq<Sight>) {
    match worker
    case Starting => h == []
    case ReadingShutdown(n) => candidate != "" && |h| == 3 * n + 1 && n < 600 && AllMissing(h, n)
    case ReadingConsumers(n) =>
      candidate != "" && |h| == 3 * n + 2 && n < 600 && AllMissing(h, n) && !h[3 * n + 1].shutdown
    case Probing(n) => candidate != "" && |h| == 3 * n + 3 && n < 600 && AllMissing(h, n) && StillWanted(h, n)
    case LastShutdown => candidate != "" && exists n: nat :: |h| == 3 * n + 4 && FoundAt(h, n)
    case LastConsumers =>
      candidate != "" && exists n: nat :: |h| == 3 * n + 5 && FoundAt(h, n) && !h[3 * n + 4].shutdown
    case Decoding => candidate != "" && exists n: nat :: |h| == 3 * n + 6 && FoundAt(h, n) && StillWanted(h, n + 1)
    case Finished(result) => Delivers(candidate, h, result)
  }

  lemma MissingStays(h: seq<Sight>, x: Sight, n: nat)
    requires AllMissing(h, n)
    ensures AllMissing(h + [x], n)
  {
    forall i: nat | i < n
      ensures Polled(h + [x], i, Missing)
    {
      assert Polled(h, i, Missing);
    }
  }

  lemma OneMoreMissing(h: seq<Sight>, n: nat)
    requires AllMissing(h, n) && Polled(h, n, Missing)
    ensures AllMissing(h, n + 1)
  {
  }

  lemma FoundStays(h: seq<Sight>, x: Sight, n: nat)
    requires FoundAt(h, n)
    ensures FoundAt(h + [x], n)
  {
    MissingStays(h, x, n);
  }

  lemma DeliveredStays(candidate: string, h: seq<Sight>, x: Sight, result: Result)
    requires Delivers(candidate, h, result)
    ensures Delivers(candidate, h + [x], result)
  {
    match result {
      case Picture =>
        var i: nat :| Decoded(h, i, true);
        FoundStays(h, x, i);
        assert Decoded(h + [x], i, true);
      case Failure =>
        if AllMissing(h, 600) {
          MissingStays(h, x, 600);
        } else if i: nat :| UnsafeAt(h, i) {
          MissingStays(h, x, i);
          assert UnsafeAt(h + [x], i);
        } else if i: nat :| Decoded(h, i, false) {
          FoundStays(h, x, i);
          assert Decoded(h + [x], i, false);
        }
      case Abandoned =>
        var i: nat :| GaveUpAt(h, i);
        if i < 600 && AllMissing(h, i) {
          MissingStays(h, x, i);
        } else {
          FoundStays(h, x, i - 1);
        }
        assert GaveUpAt(h + [x], i);
    }
  }

  // Two results are never due at once.
  lemma FirstDecides(h: seq<Sight>, i: nat, j: nat)
    requires AllMissing(h, i) && AllMissing(h, j) && !Polled(h, i, Missing) && !Polled(h, j, Missing)
    ensures i == j
  {
  }

  lemma GaveUpFirst(h: seq<Sight>, i: nat, j: nat)
    requires GaveUpAt(h, i) && AllMissing(h, j) && StillWanted(h, j) && !Polled(h, j, Missing) && j < 600
    ensures FoundAt(h, j) && i == j + 1
  {
    if i < 600 && AllMissing(h, i) {
      assert !StillWanted(h, i);
      FirstDecides(h, i, j);
    } else {
      FirstDecides(h, i - 1, j);
    }
  }

  lemma NeverAfterAll(h: seq<Sight>, i: nat)
    requires AllMissing(h, 600)
    ensures !FoundAt(h, i) && !UnsafeAt(h, i) && !GaveUpAt(h, i)
  {
    if i < 600 {
      assert Polled(h, i, Missing);
    }
    if i > 0 && i - 1 < 600 {
      assert Polled(h, i - 1, Missing);
    }
  }

  lemma PictureOrFailure(h: seq<Sight>, i: nat)
    requires Decoded(h, i, true)
    ensures !AllMissing(h, 600)
    ensures forall j: nat :: !UnsafeAt(h, j) && !Decoded(h, j, false) && !GaveUpAt(h, j)
  {
    if AllMissing(h, 600) {
      NeverAfterAll(h, i);
    }
    forall j: nat
      ensures !UnsafeAt(h, j) && !Decoded(h, j, false) && !GaveUpAt(h, j)
    {
      if UnsafeAt(h, j) || Decoded(h, j, false) {
        FirstDecides(h, i, j);
      }
      if GaveUpAt(h, j) {
        GaveUpFirst(h, j, i);
      }
    }
  }

  lemma FailureOrAbandoned(h: seq<Sight>, i: nat)
    requires GaveUpAt(h, i)
    ensures !AllMissing(h, 600) && forall j: nat :: !UnsafeAt(h, j) && !Decoded(h, j, false)
  {
    if AllMissing(h, 600) {
      NeverAfterAll(h, i);
    }
    forall j: nat
      ensures !UnsafeAt(h, j) && !Decoded(h, j, false)
    {
      if UnsafeAt(h, j) || Decoded(h, j, false) {
        GaveUpFirst(h, i, j);
      }
    }
  }

  lemma OneResult(candidate: string, h: seq<Sight>, a: Result, b: Result)
    requires Delivers(candidate, h, a) && Delivers(candidate, h, b)
    ensures a == b
  {
    if a != b {
      if a == Picture || b == Picture {
        var i: nat :| Decoded(h, i, true);
        PictureOrFailure(h, i);
      } else {
        var i: nat :| GaveUpAt(h, i);
        FailureOrAbandoned(h, i);
      }
    }
  }

  // A worker that has not finished owes no result.
  lemma NothingDueYet(candidate: string, worker: Worker, h: seq<Sight>, result: Result)
    requires HasSeen(candidate, worker, h) && !worker.Finished?
    ensures !Delivers(candidate, h, result)
  {
    match worker {
      case Starting =>
      case ReadingShutdown(n) => UndecidedYet(h, n);
      case ReadingConsumers(n) => UndecidedYet(h, n);
      case Probing(n) => UndecidedYet(h, n);
      case LastShutdown =>
        var n: nat :| |h| == 3 * n + 4 && FoundAt(h, n);
        UndecodedYet(h, n);
      case LastConsumers =>
        var n: nat :| |h| == 3 * n + 5 && FoundAt(h, n) && !h[3 * n + 4].shutdown;
        UndecodedYet(h, n);
      case Decoding =>
        var n: nat :| |h| == 3 * n + 6 && FoundAt(h, n) && StillWanted(h, n + 1);
        UndecodedYet(h, n);
    }
  }

  lemma UndecidedYet(h: seq<Sight>, n: nat)
    requires n < 600 && AllMissing(h, n) && 3 * n + 1 <= |h| <= 3 * n + 3
    requires |h| > 3 * n + 1 ==> !h[3 * n + 1].shutdown
    requires |h| > 3 * n + 2 ==> h[3 * n + 2].consumers != 0
    ensures !AllMissing(h, 600)
    ensures forall j: nat :: !UnsafeAt(h, j) && !GaveUpAt(h, j) && !Decoded(h, j, true) && !Decoded(h, j, false)
  {
    assert !Polled(h, n, Missing);
    forall j: nat
      ensures !UnsafeAt(h, j) && !GaveUpAt(h, j) && !Decoded(h, j, true) && !Decoded(h, j, false)
    {
      if j < n {
        assert Polled(h, j, Missing);
      }
      if j > 0 && j - 1 < n {
        assert Polled(h, j - 1, Missing);
      }
    }
  }

  lemma UndecodedYet(h: seq<Sight>, n: nat)
    requires FoundAt(h, n) && |h| <= 3 * n + 6
    requires |h| > 3 * n + 4 ==> !h[3 * n + 4].shutdown
    requires |h| > 3 * n + 5 ==> h[3 * n + 5].consumers != 0
    ensures !AllMissing(h, 600)
    ensures forall j: nat :: !UnsafeAt(h, j) && !GaveUpAt(h, j) && !Decoded(h, j, true) && !Decoded(h, j, false)
  {
    if AllMissing(h, 600) {
      NeverAfterAll(h, n);
    }
    forall j: nat
      ensures !UnsafeAt(h, j) && !GaveUpAt(h, j) && !Decoded(h, j, true) && !Decoded(h, j, false)
    {
      if UnsafeAt(h, j) || Decoded(h, j, true) || Decoded(h, j, false) {
        FirstDecides(h, n, j);
      }
      if GaveUpAt(h, j) {
        GaveUpFirst(h, j, n);
      }
    }
  }

  lemma PollingSees(load: Load, h: seq<Sight>, x: Sight)
    requires HasSeen(load.key.candidate, load.worker, h) && x.consumers == load.consumers
    requires load.worker.ReadingShutdown? || load.worker.ReadingConsumers?
    ensures HasSeen(load.key.candidate, NextWorker(load, x.shutdown, x.probe, x.decoded), h + [x])
  {
    var n := load.worker.attempt;
    MissingStays(h, x, n);
    if x.shutdown || x.consumers == 0 {
      assert (load.worker.ReadingShutdown? && x.shutdown) || (load.worker.ReadingConsumers? && x.consumers == 0)
             ==> GaveUpAt(h + [x], n);
    }
  }

  lemma ProbingSees(load: Load, h: seq<Sight>, x: Sight)
    requires HasSeen(load.key.candidate, load.worker, h) && load.worker.Probing?
    ensures HasSeen(load.key.candidate, NextWorker(load, x.shutdown, x.probe, x.decoded), h + [x])
  {
    var n := load.worker.attempt;
    MissingStays(h, x, n);
    assert Polled(h + [x], n, x.probe);
    match x.probe
    case Ready => assert FoundAt(h + [x], n);
    case Unsafe => assert UnsafeAt(h + [x], n);
    case Missing => OneMoreMissing(h + [x], n);
  }

  lemma DecodingSees(load: Load, h: seq<Sight>, x: Sight)
    requires HasSeen(load.key.candidate, load.worker, h) && x.consumers == load.consumers
    requires load.worker.LastShutdown? || load.worker.LastConsumers? || load.worker.Decoding?
    ensures HasSeen(load.key.candidate, NextWorker(load, x.shutdown, x.probe, x.decoded), h + [x])
  {
    match load.worker {
      case LastShutdown =>
        var n: nat :| |h| == 3 * n + 4 && FoundAt(h, n);
        FoundStays(h, x, n);
        assert x.shutdown ==> GaveUpAt(h + [x], n + 1);
      case LastConsumers =>
        var n: nat :| |h| == 3 * n + 5 && FoundAt(h, n) && !h[3 * n + 4].shutdown;
        FoundStays(h, x, n);
        assert x.consumers == 0 ==> GaveUpAt(h + [x], n + 1);
        assert x.consumers != 0 ==> StillWanted(h + [x], n + 1);
      case Decoding =>
        var n: nat :| |h| == 3 * n + 6 && FoundAt(h, n) && StillWanted(h, n + 1);
        FoundStays(h, x, n);
        assert Decoded(h + [x], n, x.decoded);
    }
  }

  lemma WorkSees(load: Load, h: seq<Sight>, x: Sight)
    requires HasSeen(load.key.candidate, load.worker, h) && x.consumers == load.consumers
    ensures HasSeen(load.key.candidate, NextWorker(load, x.shutdown, x.probe, x.decoded), h + [x])
  {
    match load.worker
    case Starting =>
    case ReadingShutdown(_) => PollingSees(load, h, x);
    case ReadingConsumers(_) => PollingSees(load, h, x);
    case Probing(_) => ProbingSees(load, h, x);
    case Finished(result) => DeliveredStays(load.key.candidate, h, x, result);
    case _ => DecodingSees(load, h, x);
  }

  ghost predicate LoadHasSeen(loads: map<LoadId, Load>, l: LoadId, h: seq<Sight>) {
    if l in loads then HasSeen(loads[l].key.candidate, loads[l].worker, h) else h == []
  }

  lemma OthersStay(s: State, step: Step, l: LoadId)
    requires Enabled(s, step) && !(step.Work? && step.load == l)
    ensures var loads' := Apply(s, step).loads;
            if l in s.loads then
              l in loads' && loads'[l].key == s.loads[l].key && loads'[l].worker == s.loads[l].worker
            else l in loads' ==> loads'[l].worker == Starting
  {
  }

  lemma StepSees(s: State, step: Step, l: LoadId, h: seq<Sight>)
    requires Enabled(s, step) && LoadHasSeen(s.loads, l, h)
    ensures LoadHasSeen(Apply(s, step).loads, l, h + Seen(s, step, l))
  {
    if step.Work? && step.load == l {
      WorkSees(s.loads[l], h, Sight(s.shutdown, s.loads[l].consumers, step.probe, step.decoded));
    } else {
      OthersStay(s, step, l);
      assert h + [] == h;
    }
  }

  lemma {:induction false} RunSees(s: State, steps: seq<Step>, l: LoadId, h: seq<Sight>)
    requires Runs(s, steps) && LoadHasSeen(s.loads, l, h)
    ensures LoadHasSeen(Execute(s, steps).loads, l, h + History(s, steps, l))
    decreases |steps|
  {
    if steps == [] {
      assert h + [] == h;
    } else {
      var seen := Seen(s, steps[0], l);
      StepSees(s, steps[0], l, h);
      RunSees(Apply(s, steps[0]), steps[1..], l, h + seen);
      assert (h + seen) + History(Apply(s, steps[0]), steps[1..], l) == h + History(s, steps, l);
    }
  }

  // Over every run the worker of a load has come to a result exactly if what it
  // saw calls for it: to the picture if the file was found, only missing before,
  // at one of 600 attempts and could be decoded; to an error for an empty
  // candidate, an unsafe file, a file missing at every attempt or one that could
  // not be decoded; and to nothing if at one of its tests the load was given up.
  lemma WorkerDelivers(steps: seq<Step>, l: LoadId, result: Result)
    requires Runs(Init(), steps) && l in Execute(Init(), steps).loads
    ensures var load := Execute(Init(), steps).loads[l];
            load.worker == Finished(result) <==> Delivers(load.key.candidate, History(Init(), steps, l), result)
  {
    var load, h := Execute(Init(), steps).loads[l], History(Init(), steps, l);
    RunSees(Init(), steps, l, []);
    assert [] + h == h;
    if load.worker.Finished? {
      if Delivers(load.key.candidate, h, result) {
        OneResult(load.key.candidate, h, result, load.worker.result);
      }
    } else {
      NothingDueYet(load.key.candidate, load.worker, h, result);
    }
  }

  // And what a response hands on when it is told is that result, unless it has
  // been cancelled.
  lemma ResponseDelivers(steps: seq<Step>, r: ResponseId, result: Result)
    requires Runs(Init(), steps) && Enabled(Execute(Init(), steps), ActOn(r, Deliver))
    ensures var s := Execute(Init(), steps);
            var q := s.responses[r];
            var told := Apply(s, ActOn(r, Deliver)).responses[r];
            && (told.delivery == Got(result)
                <==> !q.cancelled
                     && Delivers(s.loads[q.load].key.candidate, History(Init(), steps, q.load), result))
            && (told.delivery == Skipped <==> q.cancelled)
  {
    WorkerDelivers(steps, Execute(Init(), steps).responses[r].load, result);
  }
}
