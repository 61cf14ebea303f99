/**
 * The bounded pool that fetches and writes batches: workers pull from one shared cursor, a failure stops the
 * others from taking more, and the caller is answered once every worker has stopped.
 *
 * A worker's check of the cursor and its taking of a batch run without interruption; everything between
 * taking a batch and its end may be interleaved with the other workers in any order.
 */
module WorkerPool {
  import opened Records

  type Failure = string

  datatype Worker = Ready | Working(batch: nat) | Stopped

  /** What happened, in order: a batch taken, a batch ended with or without a failure, the caller answered. */
  datatype Entry =
    | Took(worker: nat, batch: nat)
    | Ended(batch: nat, failure: Option<Failure>)
    | Answered(failure: Option<Failure>)

  datatype Pool = Pool(workers: seq<Worker>, cursor: nat, failure: Option<Failure>, log: seq<Entry>)

  datatype Step = Take(worker: nat) | Stop(worker: nat) | End(worker: nat, failure: Option<Failure>) | Answer

  function Min(a: nat, b: nat): nat {
    if a < b then a else b
  }

  function Start(batches: nat, concurrency: nat): Pool {
    Pool(seq(Min(concurrency, batches), (_: int) => Ready), 0, None, [])
  }

  predicate HasAnswered(p: Pool) {
    p.log != [] && p.log[|p.log| - 1].Answered?
  }

  /** The loop's condition: no failure recorded and batches left to take. */
  predicate MayTake(p: Pool, batches: nat) {
    p.failure == None && p.cursor < batches
  }

  predicate Enabled(p: Pool, batches: nat, step: Step) {
    && !HasAnswered(p)
    && match step
       case Take(w) => w < |p.workers| && p.workers[w] == Ready && MayTake(p, batches)
       case Stop(w) => w < |p.workers| && p.workers[w] == Ready && !MayTake(p, batches)
       case End(w, _) => w < |p.workers| && p.workers[w].Working?
       case Answer => forall w :: 0 <= w < |p.workers| ==> p.workers[w] == Stopped
  }

  function Next(p: Pool, batches: nat, step: Step): Pool
    requires Enabled(p, batches, step)
  {
    match step
    case Take(w) =>
      p.(workers := p.workers[w := Working(p.cursor)], cursor := p.cursor + 1, log := p.log + [Took(w, p.cursor)])
    case Stop(w) => p.(workers := p.workers[w := Stopped])
    case End(w, failure) =>
      p.(workers := p.workers[w := Ready], failure := if p.failure == None then failure else p.failure,
         log := p.log + [Ended(p.workers[w].batch, failure)])
    case Answer => p.(log := p.log + [Answered(p.failure)])
  }

  predicate EnabledRun(p: Pool, batches: nat, steps: seq<Step>)
    decreases |steps|
  {
    steps == [] || (Enabled(p, batches, steps[0]) && EnabledRun(Next(p, batches, steps[0]), batches, steps[1..]))
  }

  function Run(p: Pool, batches: nat, steps: seq<Step>): Pool
    requires EnabledRun(p, batches, steps)
    decreases |steps|
  {
    if steps == [] then p else Run(Next(p, batches, steps[0]), batches, steps[1..])
  }

  // ---- what the log says ----

  function FirstFailure(log: seq<Entry>): Option<Failure> {
    if log == [] then None
    else if log[0].Ended? && log[0].failure.Some? then log[0].failure
    else FirstFailure(log[1..])
  }

  predicate TookBatch(log: seq<Entry>, batch: nat) {
    exists i :: 0 <= i < |log| && log[i].Took? && log[i].batch == batch
  }

  predicate EndedBatch(log: seq<Entry>, batch: nat) {
    exists i :: 0 <= i < |log| && log[i].Ended? && log[i].batch == batch
  }

  /** Batches are taken in list order, so each at most once, and none after a failure; each ends at most once. */
  predicate Orderly(log: seq<Entry>) {
    && (forall i, j :: 0 <= i < j < |log| && log[i].Took? && log[j].Took? ==> log[i].batch < log[j].batch)
    && (forall i, j :: 0 <= i < j < |log| && log[i].Ended? && log[i].failure.Some? ==> !log[j].Took?)
    && (forall i, j :: 0 <= i < j < |log| && log[i].Ended? && log[j].Ended? ==> log[i].batch != log[j].batch)
    && (forall i, j :: 0 <= i < j < |log| && log[j].Took? && log[i].Ended? ==> log[i].batch != log[j].batch)
    && (forall i :: 0 <= i < |log| && log[i].Answered? ==> i == |log| - 1)
  }

  function InFlight(workers: seq<Worker>): set<nat> {
    set w | 0 <= w < |workers| && workers[w].Working? :: workers[w].batch
  }

  /** The failure is the first in the log, and the log tells which batches were taken and which have ended. */
  ghost predicate LogShape(p: Pool) {
    && Orderly(p.log)
    && p.failure == FirstFailure(p.log)
    && (forall b: nat :: TookBatch(p.log, b) <==> b < p.cursor)
    && (forall b: nat :: EndedBatch(p.log, b) <==> b < p.cursor && b !in InFlight(p.workers))
  }

  /** Workers hold different taken batches, and stop only when nothing may be taken. */
  predicate WorkersShape(p: Pool, batches: nat) {
    && (forall v, w :: 0 <= v < w < |p.workers| && p.workers[v].Working? && p.workers[w].Working? ==>
          p.workers[v].batch != p.workers[w].batch)
    && (forall w :: 0 <= w < |p.workers| && p.workers[w].Working? ==> p.workers[w].batch < p.cursor)
    && (forall w :: 0 <= w < |p.workers| && p.workers[w] == Stopped ==> !MayTake(p, batches))
  }

  /** An answer comes when every worker has stopped, and says the first failure. */
  predicate AnswerShape(p: Pool) {
    HasAnswered(p) ==>
      && p.log[|p.log| - 1] == Answered(p.failure)
      && forall w :: 0 <= w < |p.workers| ==> p.workers[w] == Stopped
  }

  ghost predicate Consistent(p: Pool, batches: nat) {
    p.cursor <= batches && LogShape(p) && WorkersShape(p, batches) && AnswerShape(p)
  }

  lemma {:induction false} FirstFailureAppended(log: seq<Entry>, entry: Entry)
    ensures FirstFailure(log + [entry]) ==
            if FirstFailure(log).Some? then FirstFailure(log) else if entry.Ended? then entry.failure else None
  {
    if log == [] {
      assert log + [entry] == [entry];
    } else {
      assert (log + [entry])[1..] == log[1..] + [entry];
      FirstFailureAppended(log[1..], entry);
    }
  }

  lemma {:induction false} FailureIsFirst(log: seq<Entry>, i: nat)
    requires i < |log| && log[i].Ended? && log[i].failure.Some?
    ensures FirstFailure(log).Some?
  {
    if i > 0 {
      FailureIsFirst(log[1..], i - 1);
    }
  }

  lemma Appended(log: seq<Entry>, entry: Entry, batch: nat)
    ensures TookBatch(log + [entry], batch) <==> TookBatch(log, batch) || (entry.Took? && entry.batch == batch)
    ensures EndedBatch(log + [entry], batch) <==> EndedBatch(log, batch) || (entry.Ended? && entry.batch == batch)
  {
    var next := log + [entry];
    if TookBatch(log, batch) {
      var i :| 0 <= i < |log| && log[i].Took? && log[i].batch == batch;
      assert next[i].Took?;
    }
    if EndedBatch(log, batch) {
      var i :| 0 <= i < |log| && log[i].Ended? && log[i].batch == batch;
      assert next[i].Ended?;
    }
    assert next[|log|] == entry;
  }

  /** What a worker's move from one batch, or none, to another does to the batches in flight. */
  lemma InFlightMoved(p: Pool, q: Pool, w: nat, worker: Worker)
    requires w < |p.workers| && q.workers == p.workers[w := worker]
    requires forall v :: 0 <= v < |p.workers| && v != w && p.workers[v].Working? && p.workers[w].Working? ==>
      p.workers[v].batch != p.workers[w].batch
    ensures
      var left := if p.workers[w].Working? then InFlight(p.workers) - {p.workers[w].batch} else InFlight(p.workers);
      InFlight(q.workers) == if worker.Working? then left + {worker.batch} else left
  {
    assert forall v :: 0 <= v < |p.workers| && v != w ==> q.workers[v] == p.workers[v];
    assert q.workers[w] == worker;
  }

  /** Every batch in the log was taken, and one that ended is not in flight. */
  lemma Logged(p: Pool, i: nat)
    requires LogShape(p) && i < |p.log|
    ensures p.log[i].Took? ==> p.log[i].batch < p.cursor
    ensures p.log[i].Ended? ==> p.log[i].batch < p.cursor && p.log[i].batch !in InFlight(p.workers)
    ensures p.log[i].Ended? && p.log[i].failure.Some? ==> p.failure.Some?
  {
    assert p.log[i].Took? ==> TookBatch(p.log, p.log[i].batch);
    assert p.log[i].Ended? ==> EndedBatch(p.log, p.log[i].batch);
    if p.log[i].Ended? && p.log[i].failure.Some? {
      FailureIsFirst(p.log, i);
    }
  }

  /** One more batch taken leaves the log in order, if it is a later one and nothing has failed. */
  lemma OrderlyTaken(log: seq<Entry>, worker: nat, batch: nat)
    requires Orderly(log)
    requires forall i :: 0 <= i < |log| ==>
      && !log[i].Answered?
      && (log[i].Took? ==> log[i].batch < batch)
      && (log[i].Ended? ==> log[i].batch < batch && log[i].failure == None)
    ensures Orderly(log + [Took(worker, batch)])
  {
  }

  /** One more batch ended leaves the log in order, if it had not ended. */
  lemma OrderlyEnded(log: seq<Entry>, batch: nat, failure: Option<Failure>)
    requires Orderly(log)
    requires forall i :: 0 <= i < |log| ==> !log[i].Answered? && (log[i].Ended? ==> log[i].batch != batch)
    ensures Orderly(log + [Ended(batch, failure)])
  {
  }

  lemma NotYetAnswered(p: Pool)
    requires Orderly(p.log) && !HasAnswered(p)
    ensures forall i :: 0 <= i < |p.log| ==> !p.log[i].Answered?
  {
  }

  lemma TakeKeeps(p: Pool, batches: nat, w: nat)
    requires Consistent(p, batches) && Enabled(p, batches, Take(w))
    ensures Consistent(Next(p, batches, Take(w)), batches)
  {
    TakenLog(p, Next(p, batches, Take(w)), w);
    hide LogShape;
  }

  lemma TakenLog(p: Pool, q: Pool, w: nat)
    requires LogShape(p) && !HasAnswered(p) && w < |p.workers| && p.workers[w] == Ready && p.failure == None
    requires q ==
      p.(workers := p.workers[w := Working(p.cursor)], cursor := p.cursor + 1, log := p.log + [Took(w, p.cursor)])
    ensures LogShape(q)
  {
    NotYetAnswered(p);
    forall i | 0 <= i < |p.log|
      ensures p.log[i].Took? ==> p.log[i].batch < p.cursor
      ensures p.log[i].Ended? ==> p.log[i].batch < p.cursor && p.log[i].failure == None
    {
      Logged(p, i);
    }
    OrderlyTaken(p.log, w, p.cursor);
    InFlightMoved(p, q, w, Working(p.cursor));
    FirstFailureAppended(p.log, Took(w, p.cursor));
    hide Orderly, TookBatch, EndedBatch, InFlight, FirstFailure;
    forall b: nat ensures TookBatch(q.log, b) <==> b < q.cursor {
      Appended(p.log, Took(w, p.cursor), b);
    }
    forall b: nat ensures EndedBatch(q.log, b) <==> b < q.cursor && b !in InFlight(q.workers) {
      Appended(p.log, Took(w, p.cursor), b);
    }
  }

  lemma EndKeeps(p: Pool, batches: nat, w: nat, failure: Option<Failure>)
    requires Consistent(p, batches) && Enabled(p, batches, End(w, failure))
    ensures Consistent(Next(p, batches, End(w, failure)), batches)
  {
    EndedLog(p, Next(p, batches, End(w, failure)), batches, w, failure);
    hide LogShape;
  }

  lemma EndedLog(p: Pool, q: Pool, batches: nat, w: nat, failure: Option<Failure>)
    requires LogShape(p) && WorkersShape(p, batches) && !HasAnswered(p) && w < |p.workers| && p.workers[w].Working?
    requires
      q ==
        p.(workers := p.workers[w := Ready], failure := if p.failure == None then failure else p.failure,
           log := p.log + [Ended(p.workers[w].batch, failure)])
    ensures LogShape(q)
  {
    var batch := p.workers[w].batch;
    NotYetAnswered(p);
    assert batch in InFlight(p.workers) && batch < p.cursor;
    InFlightMoved(p, q, w, Ready);
    hide WorkersShape, InFlight;
    forall i | 0 <= i < |p.log| && p.log[i].Ended? ensures p.log[i].batch != batch {
      Logged(p, i);
    }
    OrderlyEnded(p.log, batch, failure);
    FirstFailureAppended(p.log, Ended(batch, failure));
    hide Orderly, TookBatch, EndedBatch, FirstFailure;
    forall b: nat ensures TookBatch(q.log, b) <==> b < q.cursor {
      Appended(p.log, Ended(batch, failure), b);
    }
    forall b: nat ensures EndedBatch(q.log, b) <==> b < q.cursor && b !in InFlight(q.workers) {
      Appended(p.log, Ended(batch, failure), b);
    }
  }

  lemma StopKeeps(p: Pool, batches: nat, w: nat)
    requires Consistent(p, batches) && Enabled(p, batches, Stop(w))
    ensures Consistent(Next(p, batches, Stop(w)), batches)
  {
    InFlightMoved(p, Next(p, batches, Stop(w)), w, Stopped);
    hide Orderly, TookBatch, EndedBatch, InFlight, FirstFailure;
  }

  lemma AnswerKeeps(p: Pool, batches: nat)
    requires Consistent(p, batches) && Enabled(p, batches, Answer)
    ensures Consistent(Next(p, batches, Answer), batches)
  {
    var q := Next(p, batches, Answer);
    NotYetAnswered(p);
    assert Orderly(q.log);
    FirstFailureAppended(p.log, Answered(p.failure));
    hide Orderly, TookBatch, EndedBatch, InFlight, FirstFailure;
    forall b: nat
      ensures (TookBatch(q.log, b) <==> TookBatch(p.log, b)) && (EndedBatch(q.log, b) <==> EndedBatch(p.log, b))
    {
      Appended(p.log, Answered(p.failure), b);
    }
  }

  lemma {:induction false} RunKeeps(p: Pool, batches: nat, steps: seq<Step>)
    requires Consistent(p, batches) && EnabledRun(p, batches, steps)
    ensures Consistent(Run(p, batches, steps), batches) && |Run(p, batches, steps).workers| == |p.workers|
    decreases |steps|
  {
    if steps != [] {
      match steps[0] {
        case Take(w) => TakeKeeps(p, batches, w);
        case Stop(w) => StopKeeps(p, batches, w);
        case End(w, failure) => EndKeeps(p, batches, w, failure);
        case Answer => AnswerKeeps(p, batches);
      }
      RunKeeps(Next(p, batches, steps[0]), batches, steps[1..]);
    }
  }

  lemma {:induction false} InFlightWithin(workers: seq<Worker>)
    ensures |InFlight(workers)| <= |workers|
  {
    if workers != [] {
      var rest := workers[..|workers| - 1];
      InFlightWithin(rest);
      var last := workers[|workers| - 1];
      var added := if last.Working? then {last.batch} else {};
      assert InFlight(workers) == InFlight(rest) + added;
      assert |InFlight(rest) + added| <= |InFlight(rest)| + |added|;
    }
  }

  /** In every interleaving: batches in list order, each once, none after a failure, and few enough at a time. */
  lemma EveryRunIsOrderly(batches: nat, concurrency: nat, steps: seq<Step>)
    requires EnabledRun(Start(batches, concurrency), batches, steps)
    ensures
      var p := Run(Start(batches, concurrency), batches, steps);
      && Orderly(p.log) && |InFlight(p.workers)| <= concurrency && |InFlight(p.workers)| <= batches
      && (forall b: nat :: TookBatch(p.log, b) ==> b < batches)
      && (forall b: nat :: TookBatch(p.log, b) <==> EndedBatch(p.log, b) || b in InFlight(p.workers))
  {
    RunKeeps(Start(batches, concurrency), batches, steps);
    InFlightWithin(Run(Start(batches, concurrency), batches, steps).workers);
  }

  /**
   * The caller is answered once, when every batch taken has ended, with the first failure if there was one;
   * without one every batch was done exactly when the pool had a worker for them.
   */
  lemma TheAnswerIsFinal(batches: nat, concurrency: nat, steps: seq<Step>)
    requires EnabledRun(Start(batches, concurrency), batches, steps)
    requires HasAnswered(Run(Start(batches, concurrency), batches, steps))
    ensures
      var p := Run(Start(batches, concurrency), batches, steps);
      var answer := p.log[|p.log| - 1];
      && (forall i :: 0 <= i < |p.log| && p.log[i].Answered? ==> i == |p.log| - 1)
      && answer == Answered(FirstFailure(p.log))
      && (forall b: nat :: TookBatch(p.log, b) <==> EndedBatch(p.log, b))
      && (answer.failure == None ==> ((forall b: nat :: b < batches ==> EndedBatch(p.log, b)) <==>
           (concurrency > 0 || batches == 0)))
  {
    var p := Run(Start(batches, concurrency), batches, steps);
    RunKeeps(Start(batches, concurrency), batches, steps);
    if p.failure == None {
      if concurrency > 0 && batches > 0 {
        assert p.workers[0] == Stopped;
      } else if batches > 0 {
        assert |p.workers| == 0;
        NothingTaken(Start(batches, concurrency), batches, steps);
        assert !EndedBatch(p.log, 0);
      }
    }
  }

  lemma {:induction false} NothingTaken(p: Pool, batches: nat, steps: seq<Step>)
    requires p.workers == [] && EnabledRun(p, batches, steps)
    ensures Run(p, batches, steps).cursor == p.cursor
    decreases |steps|
  {
    if steps != [] {
      NothingTaken(Next(p, batches, steps[0]), batches, steps[1..]);
    }
  }

  /** A pool never waits for ever: until the caller is answered some step is enabled, and steps run out. */
  function Remaining(p: Pool, batches: nat): nat
    requires p.cursor <= batches
  {
    3 * (batches - p.cursor) + Pending(p.workers) + if HasAnswered(p) then 0 else 1
  }

  function Pending(workers: seq<Worker>): nat {
    if workers == [] then 0
    else
      Pending(workers[..|workers| - 1])
      + match workers[|workers| - 1] case Ready => 1 case Working(_) => 2 case Stopped => 0
  }

  lemma {:induction false} PendingUpdated(workers: seq<Worker>, w: nat, worker: Worker)
    requires w < |workers|
    ensures Pending(workers[w := worker]) + Pending([workers[w]]) == Pending(workers) + Pending([worker])
  {
    var next := workers[w := worker];
    assert [workers[w]][..0] == [] && [worker][..0] == [];
    if w == |workers| - 1 {
      assert next[..w] == workers[..w];
    } else {
      assert next[..|workers| - 1] == workers[..|workers| - 1][w := worker];
      PendingUpdated(workers[..|workers| - 1], w, worker);
    }
  }

  lemma StepsRunOut(p: Pool, batches: nat, step: Step)
    requires Consistent(p, batches) && Enabled(p, batches, step)
    ensures Next(p, batches, step).cursor <= batches
    ensures Remaining(Next(p, batches, step), batches) < Remaining(p, batches)
  {
    assert forall w: Worker {:trigger Pending([w])} :: [w][..0] == [];
    match step
    case Take(w) => PendingUpdated(p.workers, w, Working(p.cursor));
    case Stop(w) => PendingUpdated(p.workers, w, Stopped);
    case End(w, _) => PendingUpdated(p.workers, w, Ready);
    case Answer =>
  }

  lemma NeverStuck(p: Pool, batches: nat)
    requires !HasAnswered(p)
    ensures exists step :: Enabled(p, batches, step)
  {
    if w :| 0 <= w < |p.workers| && p.workers[w] != Stopped {
      if p.workers[w].Working? {
        assert Enabled(p, batches, End(w, None));
      } else if MayTake(p, batches) {
        assert Enabled(p, batches, Take(w));
      } else {
        assert Enabled(p, batches, Stop(w));
      }
    } else {
      assert Enabled(p, batches, Answer);
    }
  }
}
