/**
 The worker pool of the GPU benchmark (experimentation/cmd/gpubench/main.go) as an interleaved step
 system: main spawns the workers, a producer hands out job indices over an unbuffered channel, workers
 send results to a buffered channel, main waits for the wait group, closes the channel and tallies.
 */
module GpuBench {
  import opened Perms
  import opened Sums

  /** What one request returns; a failed request carries no measurements. */
  datatype Outcome = Failed | Served(latencyMS: int, outTok: int, inTok: int)

  /** concurrency, requests, and what the endpoint answers to each job. */
  datatype Config = Config(concurrency: nat, requests: nat, reply: nat -> Outcome)

  /** A result on the channel; the job index is for the specification only. */
  datatype Result = Result(job: nat, outcome: Outcome)

  /** A worker: not started, receiving from jobs, calling the endpoint, sending to out, returned. */
  datatype Worker = Unborn | Receiving | Calling(job: nat) | Sending(result: Result) | Returned

  /** main: starting workers, waiting on the wait group, tallying the closed channel, done. */
  datatype Main = Spawning | Waiting | Draining | Finished

  datatype Tally = Tally(served: nat, errs: nat, totalOut: int, totalIn: int, lats: seq<int>)

  /**
   next: jobs the producer has handed out; producing: the producer goroutine has been started;
   jobsClosed, outClosed: the channels; sent: every result ever put on out; drained: how many of them
   main has taken off.
   */
  datatype State = State(workers: seq<Worker>, spawned: nat, producing: bool, next: nat, jobsClosed: bool,
                         sent: seq<Result>, outClosed: bool, drained: nat, main: Main, tally: Tally)

  const ZERO := Tally(0, 0, 0, 0, [])

  function Init(c: Config): State {
    State(seq(c.concurrency, _ => Unborn), 0, false, 0, false, [], false, 0, Spawning, ZERO)
  }

  /** One result added to the tally: the body of main's range loop. */
  function Count(t: Tally, o: Outcome): Tally {
    match o
    case Failed => t.(errs := t.errs + 1)
    case Served(lat, outTok, inTok) =>
      t.(served := t.served + 1, totalOut := t.totalOut + outTok, totalIn := t.totalIn + inTok,
         lats := t.lats + [lat])
  }

  // ---------- steps ----------

  datatype Label =
    | Spawn | StartProducer | Handoff(w: nat) | CloseJobs | Call(w: nat) | Send(w: nat) | Return(w: nat)
    | CloseOut | Drain | Finish

  /** The wait group's counter: workers added and not yet done. */
  function Running(ws: seq<Worker>): nat {
    if ws == [] then 0
    else (if ws[0].Unborn? || ws[0].Returned? then 0 else 1) + Running(ws[1..])
  }

  predicate Enabled(c: Config, s: State, l: Label) {
    match l
    case Spawn => s.main == Spawning && s.spawned < c.concurrency && s.spawned < |s.workers|
    case StartProducer => s.main == Spawning && s.spawned == c.concurrency
    // A send on the unbuffered channel happens together with a receive.
    case Handoff(w) => s.producing && !s.jobsClosed && s.next < c.requests && w < |s.workers| && s.workers[w] == Receiving
    case CloseJobs => s.producing && !s.jobsClosed && s.next == c.requests
    case Call(w) => w < |s.workers| && s.workers[w].Calling?
    // A send on the buffered channel blocks when the buffer is full.
    case Send(w) => w < |s.workers| && s.workers[w].Sending? && Buffered(s) < c.requests
    // Ranging over a closed channel ends the worker.
    case Return(w) => s.jobsClosed && w < |s.workers| && s.workers[w] == Receiving
    case CloseOut => s.main == Waiting && Running(s.workers) == 0
    case Drain => s.main == Draining && s.drained < |s.sent|
    case Finish => s.main == Draining && s.drained == |s.sent|
  }

  /** The results sitting in the buffer of out. */
  function Buffered(s: State): int {
    |s.sent| - s.drained
  }

  function Apply(c: Config, s: State, l: Label): State
    requires Enabled(c, s, l)
  {
    match l
    case Spawn => s.(workers := s.workers[s.spawned := Receiving], spawned := s.spawned + 1)
    case StartProducer => s.(producing := true, main := Waiting)
    case Handoff(w) => s.(workers := s.workers[w := Calling(s.next)], next := s.next + 1)
    case CloseJobs => s.(jobsClosed := true)
    case Call(w) =>
      var job := s.workers[w].job;
      s.(workers := s.workers[w := Sending(Result(job, c.reply(job)))])
    case Send(w) => s.(workers := s.workers[w := Receiving], sent := s.sent + [s.workers[w].result])
    case Return(w) => s.(workers := s.workers[w := Returned])
    case CloseOut => s.(outClosed := true, main := Draining)
    case Drain => s.(drained := s.drained + 1, tally := Count(s.tally, s.sent[s.drained].outcome))
    case Finish => s.(main := Finished)
  }

  ghost predicate Step(c: Config, s: State, s': State) {
    exists l :: Enabled(c, s, l) && s' == Apply(c, s, l)
  }

  /** An interleaving: the states from the start, each by one step of some goroutine. */
  ghost predicate Run(c: Config, r: seq<State>) {
    && r != [] && r[0] == Init(c)
    && forall i | 0 <= i < |r| - 1 :: Step(c, r[i], r[i + 1])
  }

  // ---------- where each job is ----------

  predicate Holds(w: Worker, job: nat) {
    w == Calling(job) || (w.Sending? && w.result.job == job)
  }

  predicate Busy(w: Worker) {
    w.Calling? || w.Sending?
  }

  /** How many workers have the job in hand. */
  function HeldBy(ws: seq<Worker>, job: nat): nat {
    if ws == [] then 0 else (if Holds(ws[0], job) then 1 else 0) + HeldBy(ws[1..], job)
  }

  /** How many results of the job have been sent. */
  function SentFor(rs: seq<Result>, job: nat): nat {
    if rs == [] then 0 else (if rs[0].job == job then 1 else 0) + SentFor(rs[1..], job)
  }

  function BusyCount(ws: seq<Worker>): nat {
    if ws == [] then 0 else (if Busy(ws[0]) then 1 else 0) + BusyCount(ws[1..])
  }

  lemma {:induction false} WorkerUpdate(ws: seq<Worker>, w: nat, x: Worker, job: nat)
    requires w < |ws|
    ensures HeldBy(ws[w := x], job) + (if Holds(ws[w], job) then 1 else 0)
         == HeldBy(ws, job) + (if Holds(x, job) then 1 else 0)
    ensures BusyCount(ws[w := x]) + (if Busy(ws[w]) then 1 else 0) == BusyCount(ws) + (if Busy(x) then 1 else 0)
  {
    if w > 0 {
      assert ws[w := x][1..] == ws[1..][w - 1 := x] && ws[1..][w - 1] == ws[w];
      WorkerUpdate(ws[1..], w - 1, x, job);
    } else {
      assert ws[w := x][1..] == ws[1..];
    }
  }

  lemma {:induction false} SentSnoc(rs: seq<Result>, x: Result, job: nat)
    ensures SentFor(rs + [x], job) == SentFor(rs, job) + if x.job == job then 1 else 0
  {
    if rs == [] {
      assert rs + [x] == [x];
    } else {
      assert (rs + [x])[1..] == rs[1..] + [x];
      SentSnoc(rs[1..], x, job);
    }
  }

  lemma {:induction false} BusyAtLeast(ws: seq<Worker>, w: nat)
    requires w < |ws| && Busy(ws[w])
    ensures BusyCount(ws) > 0
  {
    if w > 0 {
      BusyAtLeast(ws[1..], w - 1);
    }
  }

  // ---------- the invariant ----------

  /** The tally of the first n results. */
  function TallyOf(rs: seq<Result>): Tally {
    if rs == [] then ZERO else Count(TallyOf(rs[..|rs| - 1]), rs[|rs| - 1].outcome)
  }

  /** How far main, the producer and the channels have come. */
  ghost predicate Phases(c: Config, s: State) {
    && |s.workers| == c.concurrency && s.spawned <= c.concurrency
    && s.next <= c.requests && s.drained <= |s.sent|
    // started workers come first, and the producer starts after all of them
    && (forall w | 0 <= w < |s.workers| :: s.workers[w].Unborn? <==> w >= s.spawned)
    && (s.producing <==> s.main != Spawning)
    && (s.producing ==> s.spawned == c.concurrency)
    && (s.jobsClosed ==> s.producing && s.next == c.requests)
    && (c.concurrency == 0 ==> s.next == 0)
    && (forall w | 0 <= w < |s.workers| && s.workers[w].Returned? :: s.jobsClosed)
    // out is closed only after the last worker has returned
    && (s.outClosed <==> s.main == Draining || s.main == Finished)
    && (s.outClosed ==> forall w | 0 <= w < |s.workers| :: s.workers[w].Returned?)
    && (!s.outClosed ==> s.drained == 0)
    && (s.main == Finished ==> s.drained == |s.sent|)
  }

  /** Each job handed out is in exactly one place: with one worker, or sent once. */
  ghost predicate JobsPlaced(s: State) {
    && (forall job: nat :: SentFor(s.sent, job) + HeldBy(s.workers, job) == if job < s.next then 1 else 0)
    && |s.sent| + BusyCount(s.workers) == s.next
  }

  /** Every result is the endpoint's answer to its job, and the tally is that of the results taken off. */
  ghost predicate Answered(c: Config, s: State) {
    && (forall r | r in s.sent :: r.outcome == c.reply(r.job))
    && (forall w | 0 <= w < |s.workers| && s.workers[w].Sending? ::
          s.workers[w].result.outcome == c.reply(s.workers[w].result.job))
    && s.drained <= |s.sent| && s.tally == TallyOf(s.sent[..s.drained])
  }

  ghost predicate Inv(c: Config, s: State) {
    Phases(c, s) && JobsPlaced(s) && Answered(c, s)
  }

  lemma {:induction false} NoneHeld(ws: seq<Worker>)
    requires forall w | w in ws :: !Busy(w)
    ensures BusyCount(ws) == 0
    ensures forall job: nat :: HeldBy(ws, job) == 0
  {
    if ws != [] {
      NoneHeld(ws[1..]);
    }
  }

  lemma InitInv(c: Config)
    ensures Inv(c, Init(c))
  {
    NoneHeld(Init(c).workers);
  }

  lemma {:induction false} NoneRunning(ws: seq<Worker>)
    requires Running(ws) == 0
    ensures forall w | 0 <= w < |ws| :: ws[w].Unborn? || ws[w].Returned?
  {
    if ws != [] {
      NoneRunning(ws[1..]);
      forall w | 0 <= w < |ws| ensures ws[w].Unborn? || ws[w].Returned? {
        if w > 0 { assert ws[w] == ws[1..][w - 1]; }
      }
    }
  }

  lemma PhasesKept(c: Config, s: State, l: Label)
    requires Phases(c, s) && Enabled(c, s, l)
    ensures Phases(c, Apply(c, s, l))
  {
    if l == CloseOut {
      NoneRunning(s.workers);
    }
  }

  lemma JobsKept(c: Config, s: State, l: Label)
    requires Phases(c, s) && JobsPlaced(s) && Enabled(c, s, l)
    ensures JobsPlaced(Apply(c, s, l))
  {
    var s' := Apply(c, s, l);
    forall job: nat ensures SentFor(s'.sent, job) + HeldBy(s'.workers, job) == if job < s'.next then 1 else 0 {
      PlacedStep(c, s, l, job);
    }
    PlacedStep(c, s, l, 0);
  }

  lemma PlacedStep(c: Config, s: State, l: Label, job: nat)
    requires Phases(c, s) && JobsPlaced(s) && Enabled(c, s, l)
    ensures var s' := Apply(c, s, l);
            && SentFor(s'.sent, job) + HeldBy(s'.workers, job) == (if job < s'.next then 1 else 0)
            && |s'.sent| + BusyCount(s'.workers) == s'.next
  {
    match l
    case Spawn => WorkerUpdate(s.workers, s.spawned, Receiving, job);
    case Handoff(w) => WorkerUpdate(s.workers, w, Calling(s.next), job);
    case Call(w) =>
      WorkerUpdate(s.workers, w, Sending(Result(s.workers[w].job, c.reply(s.workers[w].job))), job);
    case Send(w) =>
      WorkerUpdate(s.workers, w, Receiving, job);
      SentSnoc(s.sent, s.workers[w].result, job);
    case Return(w) => WorkerUpdate(s.workers, w, Returned, job);
    case _ =>
  }

  lemma AnsweredKept(c: Config, s: State, l: Label)
    requires Answered(c, s) && Enabled(c, s, l)
    ensures Answered(c, Apply(c, s, l))
  {
    if l.Send? {
      assert (s.sent + [s.workers[l.w].result])[..s.drained] == s.sent[..s.drained];
    } else if l.Drain? {
      assert s.sent[..s.drained + 1][..s.drained] == s.sent[..s.drained];
    }
  }

  /** Every step of every goroutine keeps the invariant ... */
  lemma StepInv(c: Config, s: State, l: Label)
    requires Inv(c, s) && Enabled(c, s, l)
    ensures Inv(c, Apply(c, s, l))
  {
    PhasesKept(c, s, l);
    JobsKept(c, s, l);
    AnsweredKept(c, s, l);
  }

  lemma StepKeeps(c: Config, s: State, s': State)
    requires Inv(c, s) && Step(c, s, s')
    ensures Inv(c, s') && 0 <= Fuel(c, s') < Fuel(c, s)
  {
    var l :| Enabled(c, s, l) && s' == Apply(c, s, l);
    StepInv(c, s, l);
    FuelDecreases(c, s, l);
    FuelNonNegative(c, s');
  }

  /** ... so it holds in every state of every interleaving. */
  lemma {:induction false} RunInv(c: Config, r: seq<State>, i: nat)
    requires Run(c, r) && i < |r|
    ensures Inv(c, r[i])
  {
    if i == 0 {
      InitInv(c);
    } else {
      RunInv(c, r, i - 1);
      assert Step(c, r[i - 1], r[i - 1 + 1]);
      StepKeeps(c, r[i - 1], r[i]);
    }
  }

  // ---------- safety ----------

  /** A worker with a result always finds room on out, and out is never closed under it. */
  lemma SendNeverBlocks(c: Config, s: State, w: nat)
    requires Inv(c, s) && w < |s.workers| && s.workers[w].Sending?
    ensures Enabled(c, s, Send(w)) && !s.outClosed
  {
    BusyAtLeast(s.workers, w);
  }

  // ---------- progress ----------

  /** In every reachable state but the last some goroutine can move: no deadlock. */
  lemma SomeStepEnabled(c: Config, s: State)
    requires Inv(c, s) && s.main != Finished
    ensures exists l :: Enabled(c, s, l)
  {
    if s.main == Spawning {
      assert Enabled(c, s, Spawn) || Enabled(c, s, StartProducer);
    } else if s.main == Draining {
      assert Enabled(c, s, Drain) || Enabled(c, s, Finish);
    } else if Running(s.workers) == 0 {
      assert Enabled(c, s, CloseOut);
    } else {
      var w := SomeRunning(s.workers);
      match s.workers[w]
      case Receiving => assert Enabled(c, s, Handoff(w)) || Enabled(c, s, CloseJobs) || Enabled(c, s, Return(w));
      case Calling(_) => assert Enabled(c, s, Call(w));
      case Sending(_) => SendNeverBlocks(c, s, w);
    }
  }

  lemma {:induction false} SomeRunning(ws: seq<Worker>) returns (w: nat)
    requires Running(ws) > 0
    ensures w < |ws| && !ws[w].Unborn? && !ws[w].Returned?
  {
    if ws[0].Unborn? || ws[0].Returned? {
      w := SomeRunning(ws[1..]);
      w := w + 1;
    } else {
      w := 0;
    }
  }

  function WorkerFuel(w: Worker): nat {
    match w
    case Unborn => 2
    case Receiving => 1
    case Calling(_) => 3
    case Sending(_) => 2
    case Returned => 0
  }

  function WorkersFuel(ws: seq<Worker>): nat {
    if ws == [] then 0 else WorkerFuel(ws[0]) + WorkersFuel(ws[1..])
  }

  function MainFuel(m: Main): nat {
    match m
    case Spawning => 3
    case Waiting => 2
    case Draining => 1
    case Finished => 0
  }

  /** The number of steps still possible, at most. */
  function Fuel(c: Config, s: State): int {
    4 * (c.requests - s.next) + WorkersFuel(s.workers) + (if s.jobsClosed then 0 else 1)
    + MainFuel(s.main) + (c.requests - s.drained)
  }

  lemma {:induction false} FuelUpdate(ws: seq<Worker>, w: nat, x: Worker)
    requires w < |ws|
    ensures WorkersFuel(ws[w := x]) + WorkerFuel(ws[w]) == WorkersFuel(ws) + WorkerFuel(x)
  {
    if w > 0 {
      assert ws[w := x][1..] == ws[1..][w - 1 := x] && ws[1..][w - 1] == ws[w];
      FuelUpdate(ws[1..], w - 1, x);
    } else {
      assert ws[w := x][1..] == ws[1..];
    }
  }

  lemma FuelNonNegative(c: Config, s: State)
    requires Inv(c, s)
    ensures Fuel(c, s) >= 0
  {
  }

  /** Every step uses fuel. */
  lemma FuelDecreases(c: Config, s: State, l: Label)
    requires Phases(c, s) && Enabled(c, s, l)
    ensures Fuel(c, Apply(c, s, l)) < Fuel(c, s)
  {
    match l
    case Spawn => FuelUpdate(s.workers, s.spawned, Receiving);
    case Handoff(w) => FuelUpdate(s.workers, w, Calling(s.next));
    case Call(w) => FuelUpdate(s.workers, w, Sending(Result(s.workers[w].job, c.reply(s.workers[w].job))));
    case Send(w) => FuelUpdate(s.workers, w, Receiving);
    case Return(w) => FuelUpdate(s.workers, w, Returned);
    case _ =>
  }

  lemma {:induction false} UnbornFuel(n: nat)
    ensures WorkersFuel(seq(n, _ => Unborn)) == 2 * n
  {
    if n > 0 {
      assert seq(n, _ => Unborn)[1..] == seq(n - 1, _ => Unborn);
      UnbornFuel(n - 1);
    }
  }

  /** No interleaving is longer than 5 steps a request, 2 a worker, and 5 more states. */
  lemma {:induction false} RunBounded(c: Config, r: seq<State>, i: nat)
    requires Run(c, r) && i < |r|
    ensures i + Fuel(c, r[i]) <= 5 * c.requests + 2 * c.concurrency + 4
    ensures Fuel(c, r[i]) >= 0
  {
    if i == 0 {
      UnbornFuel(c.concurrency);
    } else {
      RunBounded(c, r, i - 1);
      RunInv(c, r, i - 1);
      assert Step(c, r[i - 1], r[i - 1 + 1]);
      StepKeeps(c, r[i - 1], r[i]);
    }
  }

  // ---------- the final tally ----------

  /** The tally of the jobs 0, ..., n - 1, answered one after the other. */
  function Sequential(c: Config, n: nat): Tally {
    if n == 0 then ZERO else Count(Sequential(c, n - 1), c.reply(n - 1))
  }

  function InOrder(c: Config, n: nat): seq<Result> {
    seq(n, i requires 0 <= i < n => Result(i, c.reply(i)))
  }

  /** The same counts and totals, and the same latencies in some order. */
  predicate SameTally(t: Tally, u: Tally) {
    && t.served == u.served && t.errs == u.errs && t.totalOut == u.totalOut && t.totalIn == u.totalIn
    && multiset(t.lats) == multiset(u.lats)
  }

  lemma {:induction false} InOrderTally(c: Config, n: nat)
    ensures TallyOf(InOrder(c, n)) == Sequential(c, n)
    ensures forall job: nat :: SentFor(InOrder(c, n), job) == if job < n then 1 else 0
  {
    if n > 0 {
      InOrderTally(c, n - 1);
      assert InOrder(c, n) == InOrder(c, n - 1) + [Result(n - 1, c.reply(n - 1))];
      assert InOrder(c, n)[..n - 1] == InOrder(c, n - 1);
      forall job: nat ensures SentFor(InOrder(c, n), job) == if job < n then 1 else 0 {
        SentSnoc(InOrder(c, n - 1), Result(n - 1, c.reply(n - 1)), job);
      }
    }
  }

  /** Where every result is the answer to its job, counting a result is counting its job. */
  lemma {:induction false} Multiplicity(c: Config, rs: seq<Result>, x: Result)
    requires forall r | r in rs :: r.outcome == c.reply(r.job)
    ensures multiset(rs)[x] == if x.outcome == c.reply(x.job) then SentFor(rs, x.job) else 0
  {
    if rs != [] {
      assert rs == [rs[0]] + rs[1..];
      Multiplicity(c, rs[1..], x);
    }
  }

  lemma SamePlaces(c: Config, rs: seq<Result>, n: nat)
    requires forall r | r in rs :: r.outcome == c.reply(r.job)
    requires forall job: nat :: SentFor(rs, job) == if job < n then 1 else 0
    ensures multiset(rs) == multiset(InOrder(c, n))
  {
    InOrderTally(c, n);
    forall x: Result ensures multiset(rs)[x] == multiset(InOrder(c, n))[x] {
      Multiplicity(c, rs, x);
      Multiplicity(c, InOrder(c, n), x);
    }
  }

  lemma CountSame(t: Tally, u: Tally, o: Outcome)
    requires SameTally(t, u)
    ensures SameTally(Count(t, o), Count(u, o))
  {
  }

  lemma CountSwap(t: Tally, o: Outcome, p: Outcome)
    ensures SameTally(Count(Count(t, o), p), Count(Count(t, p), o))
  {
  }

  lemma {:induction false} TallyAround(rs: seq<Result>, k: nat)
    requires k < |rs|
    ensures SameTally(TallyOf(rs), Count(TallyOf(rs[..k] + rs[k + 1..]), rs[k].outcome))
    decreases |rs|
  {
    var rest := rs[..k] + rs[k + 1..];
    if k == |rs| - 1 {
      assert rest == rs[..k];
    } else {
      var u, y := rs[..|rs| - 1], rs[|rs| - 1];
      TallyAround(u, k);
      var rest' := u[..k] + u[k + 1..];
      assert rs[k + 1..] == u[k + 1..] + [y] && rs[..k] == u[..k];
      assert rest == rest' + [y] && rest[..|rest| - 1] == rest';
      CountSame(TallyOf(u), Count(TallyOf(rest'), rs[k].outcome), y.outcome);
      CountSwap(TallyOf(rest'), rs[k].outcome, y.outcome);
    }
  }

  /** The tally does not depend on the order of the results. */
  lemma {:induction false} TallyOrder(rs: seq<Result>, ts: seq<Result>)
    requires multiset(rs) == multiset(ts)
    ensures SameTally(TallyOf(rs), TallyOf(ts))
  {
    PermFacts(rs, ts);
    if rs != [] {
      var x := rs[|rs| - 1];
      assert x in ts;
      var k :| 0 <= k < |ts| && ts[k] == x;
      RemoveAt(rs, |rs| - 1);
      RemoveAt(ts, k);
      assert rs[..|rs| - 1] + rs[|rs|..] == rs[..|rs| - 1];
      TallyOrder(rs[..|rs| - 1], ts[..k] + ts[k + 1..]);
      CountSame(TallyOf(rs[..|rs| - 1]), TallyOf(ts[..k] + ts[k + 1..]), x.outcome);
      TallyAround(ts, k);
    }
  }

  lemma {:induction false} SequentialCounts(c: Config, n: nat)
    ensures Sequential(c, n).served + Sequential(c, n).errs == n
    ensures |Sequential(c, n).lats| == Sequential(c, n).served
  {
    if n > 0 {
      SequentialCounts(c, n - 1);
    }
  }

  /**
   When main is done it has tallied every job exactly once, whatever the interleaving: the tally is the
   sequential one, and served plus errors is the number of requests. Without a single worker the wait
   group is already at zero and the tally stays empty.
   */
  lemma FinishedTally(c: Config, s: State)
    requires Inv(c, s) && s.main == Finished
    ensures var jobs := if c.concurrency == 0 then 0 else c.requests;
            && SameTally(s.tally, Sequential(c, jobs))
            && s.tally.served + s.tally.errs == jobs && |s.tally.lats| == s.tally.served
  {
    if c.concurrency > 0 {
      assert s.workers[0].Returned?;
    }
    NoneHeld(s.workers);
    assert s.sent[..s.drained] == s.sent;
    forall job: nat ensures SentFor(s.sent, job) == if job < s.next then 1 else 0 {
      assert SentFor(s.sent, job) + HeldBy(s.workers, job) == if job < s.next then 1 else 0;
    }
    SamePlaces(c, s.sent, s.next);
    TallyOrder(s.sent, InOrder(c, s.next));
    InOrderTally(c, s.next);
    SequentialCounts(c, s.next);
    assert |s.tally.lats| == |multiset(s.tally.lats)| == |multiset(Sequential(c, s.next).lats)|;
  }

  /** Safety, progress and the result, for every state of every interleaving. */
  lemma PoolIsCorrect(c: Config, r: seq<State>, i: nat)
    requires Run(c, r) && i < |r|
    ensures i <= 5 * c.requests + 2 * c.concurrency + 4
    ensures r[i].main != Finished ==> exists l :: Enabled(c, r[i], l)
    ensures forall w | 0 <= w < |r[i].workers| && r[i].workers[w].Sending? ::
              Enabled(c, r[i], Send(w)) && !r[i].outClosed
    ensures forall job: nat :: SentFor(r[i].sent, job) + HeldBy(r[i].workers, job) <= 1
    ensures r[i].main == Finished && c.concurrency > 0 ==>
              && SameTally(r[i].tally, Sequential(c, c.requests))
              && r[i].tally.served + r[i].tally.errs == c.requests
  {
    RunInv(c, r, i);
    RunBounded(c, r, i);
    if r[i].main != Finished {
      SomeStepEnabled(c, r[i]);
    } else {
      FinishedTally(c, r[i]);
    }
    forall w | 0 <= w < |r[i].workers| && r[i].workers[w].Sending?
      ensures Enabled(c, r[i], Send(w)) && !r[i].outClosed
    {
      SendNeverBlocks(c, r[i], w);
    }
  }

  function IsServed(): Result -> bool {
    (r: Result) => r.outcome.Served?
  }

  function OutTokens(): Result -> real {
    (r: Result) => if r.outcome.Served? then r.outcome.outTok as real else 0.0
  }

  function InTokens(): Result -> real {
    (r: Result) => if r.outcome.Served? then r.outcome.inTok as real else 0.0
  }

  function WithLatency(v: int): Result -> bool {
    (r: Result) => r.outcome.Served? && r.outcome.latencyMS == v
  }

  /** What a tally says of the answers: how many were served, their tokens, and their latencies. */
  ghost predicate TalliesAnswers(t: Tally, rs: seq<Result>) {
    && t.served == CountIf(rs, IsServed()) && t.served + t.errs == |rs|
    && t.totalOut as real == SumOf(rs, OutTokens()) && t.totalIn as real == SumOf(rs, InTokens())
    && forall v :: multiset(t.lats)[v] == CountIf(rs, WithLatency(v))
  }

  lemma TallyOneMore(t: Tally, rs: seq<Result>, r: Result)
    requires TalliesAnswers(t, rs)
    ensures TalliesAnswers(Count(t, r.outcome), rs + [r])
  {
    CountIfSnoc(rs, r, IsServed());
    SumOfSnoc(rs, r, OutTokens());
    SumOfSnoc(rs, r, InTokens());
    forall v ensures multiset(Count(t, r.outcome).lats)[v] == CountIf(rs + [r], WithLatency(v)) {
      CountIfSnoc(rs, r, WithLatency(v));
    }
  }

  lemma {:induction false} SequentialTallies(c: Config, n: nat)
    ensures TalliesAnswers(Sequential(c, n), InOrder(c, n))
  {
    if n > 0 {
      SequentialTallies(c, n - 1);
      TallyOneMore(Sequential(c, n - 1), InOrder(c, n - 1), Result(n - 1, c.reply(n - 1)));
      assert InOrder(c, n) == InOrder(c, n - 1) + [Result(n - 1, c.reply(n - 1))];
    }
  }

  /** With a worker, whatever the interleaving, the final tally is that of the endpoint's answers to all requests. */
  lemma PoolTallies(c: Config, r: seq<State>, i: nat)
    requires Run(c, r) && i < |r| && r[i].main == Finished && c.concurrency > 0
    ensures TalliesAnswers(r[i].tally, InOrder(c, c.requests))
  {
    PoolIsCorrect(c, r, i);
    SequentialTallies(c, c.requests);
  }
}
