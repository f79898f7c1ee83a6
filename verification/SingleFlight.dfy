/** The tick goroutine, the emit worker and the queue between them, over any number of leaderships
    (internal/schedule/runner.go and internal/schedule/scheduler.go).

    Every critical section is one step, so the steps of the two goroutines, of a cancellation and of
    other leaders' checkpoint writes interleave in every possible way. */
module SingleFlight {
  import opened Model
  import opened Checkpoint
  import R = Runner

  type Mark = R.Mark

  /** A collected batch: the leadership it was collected in, and the position it was collected from. */
  datatype Batch = Batch(term: nat, since: Mark)

  /** `runOnce`: after `Busy` was false, after `Since`, after `Collect`, and blocked in `Enqueue`. */
  datatype Tick = Idle | Checked | Located(since: Mark) | Collected(batch: Batch) | Enqueuing(batch: Batch) | TickGone

  /** `Run` and `ProcessBatch`: a batch is taken, worked on, saved, and its result applied. */
  datatype Worker =
    | Waiting
    | Taken(batch: Batch)
    | Working(batch: Batch)
    | Saving(batch: Batch, mark: Mark)
    | Reloading(batch: Batch, mark: Mark)
    | Applying(batch: Batch, mark: Mark, result: R.SaveResult)
    | Ending
    | WorkerGone

  /** Work begun on a batch: in which leadership, from which frontier, and whether it was cancelled by then. */
  datatype Started = Started(batch: Batch, term: nat, front: Option<Mark>, cancelled: bool)

  datatype State = State(
    term: nat, cancelled: bool, tick: Tick, worker: Worker, queue: seq<Batch>, depth: nat,
    flags: R.State, durable: Mark, started: seq<Started>)

  datatype SaveEvent = Acknowledged | AckLost | Refused | Broken

  datatype Action =
    | Check | Locate | LocateFails | Collect | CollectFails | MarkBusy | Send | GiveUp | TickExit
    | Take | Drop | Start | Abort | Commit(mark: Mark) | Skip | Save(event: SaveEvent) | Reload(ok: bool)
    | Apply | Finish | WorkerExit
    | Cancel | Elect | Other(mark: Mark)

  function Tock(s: State, a: Action): State {
    match a
    case Check => if s.tick.Idle? && !s.flags.busy then s.(tick := Checked) else s
    case Locate =>
      if s.tick.Checked?
      then s.(tick := Located(if s.flags.front.Some? then s.flags.front.value else s.durable)) else s
    case LocateFails => if s.tick.Checked? && s.flags.front.None? then s.(tick := Idle) else s
    case Collect => if s.tick.Located? then s.(tick := Collected(Batch(s.term, s.tick.since))) else s
    case CollectFails => if s.tick.Located? then s.(tick := Idle) else s
    case MarkBusy =>
      if s.tick.Collected? then s.(tick := Enqueuing(s.tick.batch), flags := s.flags.(busy := true)) else s
    case Send =>
      if s.tick.Enqueuing? && |s.queue| < s.depth
      then s.(queue := s.queue + [s.tick.batch], tick := Idle) else s
    case GiveUp =>
      if s.tick.Enqueuing? && s.cancelled then s.(tick := Idle, flags := s.flags.(busy := false)) else s
    case TickExit => if s.tick.Idle? && s.cancelled then s.(tick := TickGone) else s
    case _ => s
  }

  function Work(s: State, a: Action): State {
    match a
    case Take =>
      if s.worker.Waiting? && s.queue != [] then s.(worker := Taken(s.queue[0]), queue := s.queue[1..]) else s
    case Drop => if s.worker.Taken? && s.cancelled then s.(worker := WorkerGone) else s
    case Start =>
      if s.worker.Taken? && !s.cancelled
      then s.(worker := Working(s.worker.batch),
              started := s.started + [Started(s.worker.batch, s.term, s.flags.front, s.cancelled)]) else s
    case Abort => if s.worker.Working? && s.cancelled then s.(worker := Ending) else s
    case Commit(m) => if s.worker.Working? && !s.cancelled then s.(worker := Saving(s.worker.batch, m)) else s
    case Skip => if s.worker.Working? then s.(worker := Ending) else s
    case Save(e) =>
      if !s.worker.Saving? then s
      else
        var b, m := s.worker.batch, s.worker.mark;
        if e.Broken? then s.(worker := Applying(b, m, R.SaveFailed))
        else if e.Refused? || !Accepts(s.durable, m) then s.(worker := Reloading(b, m))
        else s.(durable := m, worker := Applying(b, m, if e.Acknowledged? then R.Saved else R.SaveFailed))
    case Reload(ok) =>
      if s.worker.Reloading?
      then s.(worker := Applying(s.worker.batch, s.worker.mark, R.Stale(if ok then Some(s.durable) else None))) else s
    case Apply =>
      if s.worker.Applying?
      then s.(flags := R.Committed(s.flags, s.worker.mark, s.worker.result), worker := Ending) else s
    case Finish => if s.worker.Ending? then s.(worker := Waiting, flags := s.flags.(busy := false)) else s
    case WorkerExit => if s.worker.Waiting? && s.cancelled then s.(worker := WorkerGone) else s
    case _ => s
  }

  /** `Elect` is `Reset` followed by the start of both goroutines; `lead` and `Scheduler.Run` wait for
      the previous pair to exit before it can happen. */
  function Next(s: State, a: Action): State {
    match a
    case Cancel => s.(cancelled := true)
    case Elect =>
      if s.tick.TickGone? && s.worker.WorkerGone?
      then s.(term := s.term + 1, cancelled := false, tick := Idle, worker := Waiting, queue := [],
              flags := R.State(false, None, 0, false)) else s
    case Other(m) => if Accepts(s.durable, m) then s.(durable := m) else s
    case _ => Work(Tock(s, a), a)
  }

  function Exec(s: State, acts: seq<Action>): State {
    if acts == [] then s else Next(Exec(s, acts[..|acts| - 1]), acts[|acts| - 1])
  }

  function Init(durable: Mark, depth: nat): State {
    State(0, false, Idle, Waiting, [], depth, R.State(false, None, 0, false), durable, [])
  }

  // ----- invariant -----

  predicate WorkerHolds(w: Worker) { !w.Waiting? && !w.WorkerGone? }

  /** Exactly one place holds the batch, and only while `busy` is set. */
  ghost predicate OneInFlight(s: State) {
    && |s.queue| <= 1
    && (!s.flags.busy ==> s.queue == [] && !WorkerHolds(s.worker) && !s.tick.Enqueuing?)
    && (s.tick.Enqueuing? ==> s.queue == [] && !WorkerHolds(s.worker))
    && (s.queue != [] ==> !WorkerHolds(s.worker) && !s.tick.Enqueuing?)
    && (s.tick.Checked? || s.tick.Located? || s.tick.Collected? ==> !s.flags.busy)
  }

  /** A batch in flight belongs to this leadership and starts where the runner stands. */
  ghost predicate Fresh(s: State, b: Batch) { b.term == s.term && Placed(s, b.since) }

  ghost predicate Placed(s: State, since: Mark) {
    && (s.flags.front.Some? ==> since == s.flags.front.value)
    && since.time <= s.durable.time && AllUpTo(s.started, since.time)
  }

  ghost predicate AllUpTo(started: seq<Started>, t: int) {
    forall i :: 0 <= i < |started| ==> started[i].batch.since.time <= t
  }

  ghost predicate Known(s: State, m: Mark) { m.time <= s.durable.time && AllUpTo(s.started, m.time) }

  ghost predicate InFlightFresh(s: State) {
    && (s.tick.Located? ==> Placed(s, s.tick.since))
    && (s.tick.Collected? || s.tick.Enqueuing? ==> Fresh(s, s.tick.batch))
    && (forall i :: 0 <= i < |s.queue| ==> Fresh(s, s.queue[i]))
    && (s.worker.Taken? ==> Fresh(s, s.worker.batch))
  }

  ghost predicate ResultKnown(s: State) {
    s.worker.Applying? ==>
      && (s.worker.result.Saved? ==> Known(s, s.worker.mark))
      && (s.worker.result.Stale? && s.worker.result.stored.Some? ==> Known(s, s.worker.result.stored.value))
  }

  ghost predicate HistoryFresh(started: seq<Started>) {
    && (forall i :: 0 <= i < |started| ==>
                      started[i].batch.term == started[i].term && !started[i].cancelled
                      && (started[i].front.Some? ==> started[i].batch.since == started[i].front.value))
    && (forall i, j :: 0 <= i < j < |started| ==> started[i].batch.since.time <= started[j].batch.since.time)
  }

  ghost predicate Inv(s: State) {
    && OneInFlight(s) && InFlightFresh(s) && ResultKnown(s) && HistoryFresh(s.started)
    && AllUpTo(s.started, s.durable.time)
    && (s.flags.front.Some? ==> Known(s, s.flags.front.value))
  }

  lemma TockInv(s: State, a: Action)
    requires Inv(s)
    ensures Inv(Tock(s, a))
  {
  }

  lemma StartInv(s: State)
    requires Inv(s)
    ensures Inv(Work(s, Start))
  {
  }

  lemma SaveInv(s: State, e: SaveEvent)
    requires Inv(s)
    ensures Inv(Work(s, Save(e)))
  {
  }

  lemma ApplyInv(s: State)
    requires Inv(s)
    ensures Inv(Work(s, Apply))
  {
  }

  lemma WorkInv(s: State, a: Action)
    requires Inv(s)
    ensures Inv(Work(s, a))
  {
    match a
    case Start => StartInv(s);
    case Save(e) => SaveInv(s, e);
    case Apply => ApplyInv(s);
    case _ =>
  }

  lemma NextInv(s: State, a: Action)
    requires Inv(s)
    ensures Inv(Next(s, a))
  {
    TockInv(s, a);
    WorkInv(Tock(s, a), a);
  }

  lemma {:induction false} RunSafe(durable: Mark, depth: nat, acts: seq<Action>)
    ensures Inv(Exec(Init(durable, depth), acts))
  {
    if acts != [] {
      RunSafe(durable, depth, acts[..|acts| - 1]);
      NextInv(Exec(Init(durable, depth), acts[..|acts| - 1]), acts[|acts| - 1]);
    }
  }

  // ----- what every run keeps -----

  /** At most one collected batch exists; when the runner is not busy there is none. */
  lemma NeverTwoInFlight(durable: Mark, depth: nat, acts: seq<Action>)
    ensures var s := Exec(Init(durable, depth), acts);
            && |s.queue| <= 1
            && !(s.queue != [] && WorkerHolds(s.worker))
            && (!s.flags.busy ==> s.queue == [] && !WorkerHolds(s.worker))
  {
    RunSafe(durable, depth, acts);
  }

  /** No batch outlives its leadership, no work begins after its cancellation, and each batch
      is worked on from the very position it was collected from. */
  lemma NoStaleBatch(durable: Mark, depth: nat, acts: seq<Action>, i: nat)
    requires i < |Exec(Init(durable, depth), acts).started|
    ensures var e := Exec(Init(durable, depth), acts).started[i];
            e.batch.term == e.term && !e.cancelled && (e.front.Some? ==> e.batch.since == e.front.value)
  {
    RunSafe(durable, depth, acts);
  }

  /** The positions collected from never go back, across leaderships and other leaders' writes. */
  lemma CollectionsAdvance(durable: Mark, depth: nat, acts: seq<Action>, i: nat, j: nat)
    requires i <= j < |Exec(Init(durable, depth), acts).started|
    ensures var st := Exec(Init(durable, depth), acts).started;
            st[i].batch.since.time <= st[j].batch.since.time
  {
    RunSafe(durable, depth, acts);
  }

  /** The frontier in memory is never ahead of the durable one. */
  lemma FrontierBehindDurable(durable: Mark, depth: nat, acts: seq<Action>)
    ensures var s := Exec(Init(durable, depth), acts);
            s.flags.front.Some? ==> s.flags.front.value.time <= s.durable.time
  {
    RunSafe(durable, depth, acts);
  }

  // ----- where the next collection starts -----

  /** The save has told the worker that the frontier is `m`: by a refusal that read it, or by an
      acknowledgement of a mark that moves the frontier. */
  predicate Told(w: Worker, front: Option<Mark>, m: Mark) {
    && w.Applying?
    && (|| w.result == R.Stale(Some(m))
        || (w.result.Saved? && w.mark == m &&
            (front.None? || front.value.time < m.time
             || (front.value.time == m.time && m.cursor != "" && m.cursor != front.value.cursor))))
  }

  /** The next collection of this leadership has to start at `m`. */
  predicate Owed(s: State, term: nat, m: Mark) {
    && s.term == term && s.queue == [] && (s.tick.Idle? || s.tick.Checked? || s.tick.TickGone?)
    && (Told(s.worker, s.flags.front, m)
        || (s.flags.front == Some(m) && (s.worker.Ending? || s.worker.Waiting? || s.worker.WorkerGone?)))
  }

  lemma OwedStep(s: State, a: Action, term: nat, m: Mark)
    requires Inv(s) && Owed(s, term, m) && Next(s, a).term == term && !(a.Locate? && s.tick.Checked?)
    ensures Owed(Next(s, a), term, m)
  {
  }

  predicate StepAt(run: seq<State>, acts: seq<Action>, k: nat) {
    k < |acts| && k + 1 < |run| && run[k + 1] == Next(run[k], acts[k])
  }

  /** The states of a run: `run[k]` is the one before step `k`. */
  ghost predicate Run(durable: Mark, depth: nat, run: seq<State>, acts: seq<Action>) {
    && |run| == |acts| + 1 && run[0] == Init(durable, depth)
    && forall k: nat {:trigger StepAt(run, acts, k)} :: k < |acts| ==> StepAt(run, acts, k)
  }

  lemma {:induction false} RunInv(durable: Mark, depth: nat, run: seq<State>, acts: seq<Action>, k: nat)
    requires Run(durable, depth, run, acts) && k < |run|
    ensures Inv(run[k])
  {
    if k == 0 {
      RunSafe(durable, depth, []);
    } else {
      RunInv(durable, depth, run, acts, k - 1);
      assert StepAt(run, acts, k - 1);
      NextInv(run[k - 1], acts[k - 1]);
    }
  }

  /** Step `k` belongs to leadership `term` and locates nothing. */
  predicate Passes(run: seq<State>, acts: seq<Action>, term: nat, k: nat)
    requires k < |acts| < |run|
  {
    run[k].term == term && !(acts[k].Locate? && run[k].tick.Checked?)
  }

  ghost predicate Unlocated(run: seq<State>, acts: seq<Action>, term: nat, i: nat, j: nat)
    requires i <= j <= |acts| < |run|
  {
    run[j].term == term && forall k: nat {:trigger Passes(run, acts, term, k)} :: i <= k < j ==> Passes(run, acts, term, k)
  }

  lemma {:induction false} OwedUntil(durable: Mark, depth: nat, run: seq<State>, acts: seq<Action>, term: nat, i: nat,
                                     j: nat, m: Mark)
    requires Run(durable, depth, run, acts) && i <= j <= |acts| && Unlocated(run, acts, term, i, j)
    requires Owed(run[i], term, m)
    ensures Owed(run[j], term, m)
  {
    if i < j {
      assert Passes(run, acts, term, j - 1) && StepAt(run, acts, j - 1);
      OwedUntil(durable, depth, run, acts, term, i, j - 1, m);
      RunInv(durable, depth, run, acts, j - 1);
      OwedStep(run[j - 1], acts[j - 1], term, m);
    }
  }

  lemma ToldOwed(s: State, m: Mark)
    requires Inv(s) && Told(s.worker, s.flags.front, m)
    ensures Owed(s, s.term, m)
  {
  }

  lemma OwedLocate(s: State, term: nat, m: Mark)
    requires Inv(s) && Owed(s, term, m) && s.tick.Checked?
    ensures Next(s, Locate).tick == Located(m)
  {
  }

  /** In every run: once a save was refused and its reload read the stored mark, or a save that moves the
      frontier was acknowledged, the next collection of that leadership starts at that mark. */
  lemma NextCollectionStartsThere(durable: Mark, depth: nat, run: seq<State>, acts: seq<Action>, i: nat, j: nat, m: Mark)
    requires Run(durable, depth, run, acts) && i < j < |acts| && Unlocated(run, acts, run[i].term, i, j)
    requires Told(run[i].worker, run[i].flags.front, m) && acts[j].Locate? && run[j].tick.Checked?
    ensures run[j + 1].tick == Located(m)
  {
    RunInv(durable, depth, run, acts, i);
    RunInv(durable, depth, run, acts, j);
    ToldOwed(run[i], m);
    OwedUntil(durable, depth, run, acts, run[i].term, i, j, m);
    OwedLocate(run[j], run[i].term, m);
    assert StepAt(run, acts, j);
  }

  /** In every run: once the reload of a refused save has read the stored mark, the next collection of that
      leadership starts at it. */
  lemma RefusalResyncs(durable: Mark, depth: nat, run: seq<State>, acts: seq<Action>, i: nat, j: nat)
    requires Run(durable, depth, run, acts) && i + 1 < j < |acts|
    requires run[i].worker.Reloading? && acts[i] == Reload(true) && Unlocated(run, acts, run[i + 1].term, i + 1, j)
    requires acts[j].Locate? && run[j].tick.Checked?
    ensures run[j + 1].tick == Located(run[i].durable)
  {
    assert StepAt(run, acts, i);
    NextCollectionStartsThere(durable, depth, run, acts, i + 1, j, run[i].durable);
  }

  /** What an arriving save does, in any state: an advance over the stored mark is stored, and told to the
      worker if its acknowledgement arrives; anything else is reloaded. */
  lemma SaveArrives(s: State, e: SaveEvent)
    requires s.worker.Saving? && (e.Acknowledged? || e.AckLost?)
    ensures var t, m := Next(s, Save(e)), s.worker.mark;
            if Advances(s.durable, m) then
              t.durable == m && t.worker == Applying(s.worker.batch, m, if e.Acknowledged? then R.Saved else R.SaveFailed)
            else t.durable == s.durable && t.worker == Reloading(s.worker.batch, m)
  {
    AcceptsIff(s.durable, s.worker.mark);
  }

  // ----- busy is not forgotten -----

  /** As long as the worker is there, busy means that a batch is in flight. */
  predicate BusyHeld(s: State) {
    s.flags.busy ==> s.tick.Enqueuing? || s.queue != [] || WorkerHolds(s.worker) || s.worker.WorkerGone?
  }

  /** Both goroutines stay until the leadership is cancelled. */
  predicate Staffed(s: State) { s.tick.TickGone? || s.worker.WorkerGone? ==> s.cancelled }

  lemma BusyStep(s: State, a: Action)
    requires Inv(s) && BusyHeld(s) && Staffed(s)
    ensures BusyHeld(Next(s, a)) && Staffed(Next(s, a))
  {
  }

  /** A runner never stays busy without work: until the worker of a leadership has exited, which only a
      cancellation allows, it is busy if and only if the tick, the queue or the worker holds a batch. */
  lemma {:induction false} BusyIff(durable: Mark, depth: nat, acts: seq<Action>)
    ensures var s := Exec(Init(durable, depth), acts);
            && BusyHeld(s) && Staffed(s)
            && (!s.worker.WorkerGone? ==>
                  (s.flags.busy <==> s.tick.Enqueuing? || s.queue != [] || WorkerHolds(s.worker)))
  {
    RunSafe(durable, depth, acts);
    if acts != [] {
      BusyIff(durable, depth, acts[..|acts| - 1]);
      RunSafe(durable, depth, acts[..|acts| - 1]);
      BusyStep(Exec(Init(durable, depth), acts[..|acts| - 1]), acts[|acts| - 1]);
    }
  }

  /** Work and saves begin only under a leadership that is not cancelled, whatever the state. */
  lemma NothingBeginsCancelled(s: State, a: Action)
    requires s.cancelled && !a.Elect?
    ensures Next(s, a).worker.Working? ==> s.worker.Working?
    ensures Next(s, a).worker.Saving? ==> s.worker.Saving?
  {
  }
}
