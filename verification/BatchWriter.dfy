/** The batching writer: concurrent Adds fill one batch, which is inserted when it is full or when its
    timer fires, and every Add waits for the insert that holds its row, or for its own context. */
module BatchWriter {
  import opened Wrappers

  /** What one call to Add returns. */
  datatype Answer = Nil | InsertError | Cancelled

  /** Where a call to Add is: it filled the batch and is about to flush; it is inside its own flush of
      that batch; it waits on its channel and its context; or it has returned. */
  datatype Phase = MustFlush | InFlush(batch: nat) | Awaiting | Returned(answer: Answer)

  /** inbox is the channel's one slot; sends counts what was ever put into it. */
  datatype AddCall = AddCall(phase: Phase, inbox: Option<bool>, sends: nat)

  datatype Timer = Armed | Fired | Over

  /** One insert call: the rows it holds, whom to tell, how it ended, and how many have been told. */
  datatype Batch = Batch(rows: seq<nat>, waiters: seq<nat>, result: Option<bool>, told: nat)

  /** Rows and channels are named by the call to Add they belong to. batches are in the order in which
      they were taken; timer is the field, timers every timer ever started. */
  datatype State = State(maxBatch: nat, adds: seq<AddCall>, pending: seq<nat>, waiters: seq<nat>, timer: Option<nat>,
                         timers: seq<Timer>, batches: seq<Batch>)

  datatype Step =
    | Enter
    | CallerFlush(a: nat)
    | Fire(t: nat)
    | TimerFlush(t: nat)
    | Insert(b: nat, ok: bool)
    | Tell(b: nat)
    | LeaveFlush(a: nat)
    | Receive(a: nat)
    | GiveUp(a: nat)

  // ---------- The two critical sections ----------

  /** Appends the row and its channel; the first row of a batch starts the timer. */
  function Append(s: State): State {
    var a := |s.adds|;
    var full := s.maxBatch <= |s.pending| + 1;
    s.(adds := s.adds + [AddCall(if full then MustFlush else Awaiting, None, 0)],
       pending := s.pending + [a], waiters := s.waiters + [a],
       timer := if s.pending == [] then Some(|s.timers|) else s.timer,
       timers := if s.pending == [] then s.timers + [Armed] else s.timers)
  }

  /** Stops the timer and takes everything that is pending; a timer that has already fired cannot be
      stopped any more, and its flush will come later. */
  function Take(s: State): State {
    s.(timer := None, pending := [], waiters := [],
       timers := if s.timer.Some? && s.timer.value < |s.timers| && s.timers[s.timer.value].Armed?
                 then s.timers[s.timer.value := Over] else s.timers,
       batches := if s.pending == [] then s.batches else s.batches + [Batch(s.pending, s.waiters, None, 0)])
  }

  // ---------- Steps ----------

  predicate Enabled(s: State, step: Step) {
    match step
    case Enter => true
    case CallerFlush(a) => a < |s.adds| && s.adds[a].phase.MustFlush?
    case Fire(t) => t < |s.timers| && s.timers[t].Armed?
    case TimerFlush(t) => t < |s.timers| && s.timers[t].Fired?
    case Insert(b, _) => b < |s.batches| && s.batches[b].result.None?
    case Tell(b) =>
      && b < |s.batches| && s.batches[b].result.Some? && s.batches[b].told < |s.batches[b].waiters|
      && s.batches[b].waiters[s.batches[b].told] < |s.adds|
      && s.adds[s.batches[b].waiters[s.batches[b].told]].inbox.None?
    case LeaveFlush(a) =>
      && a < |s.adds| && s.adds[a].phase.InFlush? && s.adds[a].phase.batch < |s.batches|
      && s.batches[s.adds[a].phase.batch].told == |s.batches[s.adds[a].phase.batch].waiters|
    case Receive(a) => a < |s.adds| && s.adds[a].phase.Awaiting? && s.adds[a].inbox.Some?
    case GiveUp(a) => a < |s.adds| && s.adds[a].phase.Awaiting?
  }

  function SetPhase(s: State, a: nat, phase: Phase): State
    requires a < |s.adds|
  {
    s.(adds := s.adds[a := s.adds[a].(phase := phase)])
  }

  function Do(s: State, step: Step): State
    requires Enabled(s, step)
  {
    match step
    case Enter => Append(s)
    case CallerFlush(a) => SetPhase(Take(s), a, if s.pending == [] then Awaiting else InFlush(|s.batches|))
    case Fire(t) => s.(timers := s.timers[t := Fired])
    case TimerFlush(t) => var s1 := s.(timers := s.timers[t := Over]); Take(s1)
    case Insert(b, ok) => s.(batches := s.batches[b := s.batches[b].(result := Some(ok))])
    case Tell(b) =>
      var batch := s.batches[b];
      var a := batch.waiters[batch.told];
      s.(adds := s.adds[a := s.adds[a].(inbox := batch.result, sends := s.adds[a].sends + 1)],
         batches := s.batches[b := batch.(told := batch.told + 1)])
    case LeaveFlush(a) => SetPhase(s, a, Awaiting)
    case Receive(a) =>
      s.(adds := s.adds[a := s.adds[a].(phase := Returned(if s.adds[a].inbox.value then Nil else InsertError), inbox := None)])
    case GiveUp(a) => SetPhase(s, a, Returned(Cancelled))
  }

  function Execute(s: State, steps: seq<Step>): State
    decreases |steps|
  {
    if steps == [] then s
    else Execute(if Enabled(s, steps[0]) then Do(s, steps[0]) else s, steps[1..])
  }

  function Start(maxBatch: nat): State {
    State(maxBatch, [], [], [], None, [], [])
  }

  // ---------- What every step keeps ----------

  /** The first row that was not in the batches before b. */
  function First(s: State, b: nat): nat
    requires b <= |s.batches|
  {
    if b == 0 then 0 else First(s, b - 1) + |s.batches[b - 1].rows|
  }

  /** The batches, one after the other, and then what is pending, are all rows in the order of their
      Adds; every row has its own channel beside it. */
  ghost predicate RowsOk(s: State) {
    && (forall b, i :: 0 <= b < |s.batches| && 0 <= i < |s.batches[b].rows| ==> s.batches[b].rows[i] == First(s, b) + i)
    && (forall b :: 0 <= b < |s.batches| ==> s.batches[b].rows != [] && s.batches[b].waiters == s.batches[b].rows)
    && (forall i :: 0 <= i < |s.pending| ==> s.pending[i] == First(s, |s.batches|) + i)
    && s.waiters == s.pending
    && |s.adds| == First(s, |s.batches|) + |s.pending|
  }

  /** A timer is set exactly while something is pending, and it is running or its flush is coming. */
  ghost predicate TimerOk(s: State) {
    && (s.timer.Some? <==> s.pending != [])
    && (s.timer.Some? ==> s.timer.value < |s.timers| && !s.timers[s.timer.value].Over?)
  }

  /** Row i of batch b: told exactly once if i is below the batch's counter, not yet otherwise. */
  ghost predicate ToldOk(s: State, b: nat, i: nat)
    requires b < |s.batches| && i < |s.batches[b].rows| && s.batches[b].rows[i] < |s.adds|
  {
    var batch, call := s.batches[b], s.adds[s.batches[b].rows[i]];
    && batch.told <= |batch.rows| && (batch.told > 0 ==> batch.result.Some?)
    && call.sends == (if i < batch.told then 1 else 0)
    && (call.inbox.Some? ==> i < batch.told && call.inbox == batch.result)
    && (call.phase == Returned(Nil) ==> batch.result == Some(true))
    && (call.phase == Returned(InsertError) ==> batch.result == Some(false))
    && (!call.phase.Returned? && i < batch.told ==> call.inbox.Some?)
  }

  ghost predicate BatchesOk(s: State) {
    forall b, i :: 0 <= b < |s.batches| && 0 <= i < |s.batches[b].rows| ==>
      s.batches[b].rows[i] < |s.adds| && ToldOk(s, b, i)
  }

  /** A pending row's Add has been told nothing; the one that filled the batch, and any after it, are
      about to flush. */
  ghost predicate PendingOk(s: State) {
    && (forall i :: 0 <= i < |s.pending| ==> s.pending[i] < |s.adds|)
    && (forall i :: 0 <= i < |s.pending| ==> s.adds[s.pending[i]].sends == 0 && s.adds[s.pending[i]].inbox.None?)
    && (forall i :: 0 <= i < |s.pending| ==> s.adds[s.pending[i]].phase in {MustFlush, Awaiting, Returned(Cancelled)})
    && (forall i :: 0 <= i < |s.pending| && s.maxBatch <= i + 1 ==> s.adds[s.pending[i]].phase == MustFlush)
  }

  ghost predicate CallersOk(s: State) {
    forall a :: 0 <= a < |s.adds| && s.adds[a].phase.InFlush? ==> s.adds[a].phase.batch < |s.batches|
  }

  ghost predicate WriterOk(s: State) {
    RowsOk(s) && TimerOk(s) && BatchesOk(s) && PendingOk(s) && CallersOk(s)
  }

  // ---------- Where a row is ----------

  lemma {:induction false} FirstGrows(s: State, b: nat, c: nat)
    requires b <= c <= |s.batches|
    ensures First(s, b) <= First(s, c)
    ensures b < c ==> First(s, b) + |s.batches[b].rows| <= First(s, c)
    decreases c
  {
    if b < c {
      FirstGrows(s, b, c - 1);
    }
  }

  lemma OnePlace(s: State, b: nat, i: nat, c: nat, j: nat)
    requires RowsOk(s) && b < |s.batches| && c < |s.batches| && i < |s.batches[b].rows| && j < |s.batches[c].rows|
    requires s.batches[b].rows[i] == s.batches[c].rows[j]
    ensures b == c && i == j
  {
    FirstGrows(s, b, |s.batches|);
    FirstGrows(s, c, |s.batches|);
    if b < c {
      FirstGrows(s, b, c);
    } else if c < b {
      FirstGrows(s, c, b);
    }
  }

  lemma NotPending(s: State, b: nat, i: nat)
    requires RowsOk(s) && b < |s.batches| && i < |s.batches[b].rows|
    ensures s.batches[b].rows[i] < |s.adds| && s.batches[b].rows[i] !in s.pending
  {
    FirstGrows(s, b, |s.batches|);
  }

  lemma {:induction false} Locate(s: State, a: nat, b: nat) returns (c: nat, i: nat)
    requires RowsOk(s) && b <= |s.batches| && a < First(s, b)
    ensures c < b && i < |s.batches[c].rows| && s.batches[c].rows[i] == a
    decreases b
  {
    if First(s, b - 1) <= a {
      c, i := b - 1, a - First(s, b - 1);
    } else {
      c, i := Locate(s, a, b - 1);
    }
  }

  lemma {:induction false} SameFirst(s: State, t: State, b: nat)
    requires b <= |s.batches| && b <= |t.batches|
    requires forall k :: 0 <= k < b ==> t.batches[k].rows == s.batches[k].rows
    ensures First(t, b) == First(s, b)
    decreases b
  {
    if b > 0 {
      SameFirst(s, t, b - 1);
    }
  }

  // ---------- Step by step ----------

  lemma TakeKeepsRows(s: State)
    requires RowsOk(s)
    ensures RowsOk(Take(s))
  {
    var t := Take(s);
    forall b: nat | b <= |s.batches| ensures First(t, b) == First(s, b) {
      SameFirst(s, t, b);
    }
    if |t.batches| > |s.batches| {
      assert First(t, |t.batches|) == First(s, |s.batches|) + |s.pending|;
    }
  }

  /** Only the rows themselves matter, not who has been told or has returned. */
  lemma SameRows(s: State, t: State)
    requires RowsOk(s) && t.pending == s.pending && t.waiters == s.waiters && |t.adds| == |s.adds| && |t.batches| == |s.batches|
    requires forall b :: 0 <= b < |s.batches| ==> t.batches[b].rows == s.batches[b].rows && t.batches[b].waiters == s.batches[b].waiters
    ensures RowsOk(t)
  {
    forall b: nat | b <= |s.batches| ensures First(t, b) == First(s, b) {
      SameFirst(s, t, b);
    }
  }

  lemma RowsKept(s: State, step: Step)
    requires Enabled(s, step) && RowsOk(s)
    ensures RowsOk(Do(s, step))
  {
    var t := Do(s, step);
    match step
    case Enter =>
      forall b: nat | b <= |s.batches| ensures First(t, b) == First(s, b) {
        SameFirst(s, t, b);
      }
    case CallerFlush(_) =>
      TakeKeepsRows(s);
      SameRows(Take(s), t);
    case TimerFlush(k) =>
      SameRows(s, s.(timers := s.timers[k := Over]));
      TakeKeepsRows(s.(timers := s.timers[k := Over]));
    case _ => SameRows(s, t);
  }

  lemma TimerKept(s: State, step: Step)
    requires Enabled(s, step) && TimerOk(s)
    ensures TimerOk(Do(s, step))
  {
  }

  lemma CallersKept(s: State, step: Step)
    requires Enabled(s, step) && CallersOk(s)
    ensures CallersOk(Do(s, step))
  {
  }

  lemma PendingKept(s: State, step: Step)
    requires Enabled(s, step) && RowsOk(s) && PendingOk(s)
    ensures PendingOk(Do(s, step))
  {
    if step.Tell? {
      NotPending(s, step.b, s.batches[step.b].told);
    }
  }

  lemma BatchesKept(s: State, step: Step)
    requires Enabled(s, step) && RowsOk(s) && BatchesOk(s) && PendingOk(s)
    ensures BatchesOk(Do(s, step))
  {
    var t := Do(s, step);
    hide ToldOk;
    forall b: nat, i: nat | b < |t.batches| && i < |t.batches[b].rows| ensures t.batches[b].rows[i] < |t.adds| && ToldOk(t, b, i) {
      if b == |s.batches| {
        TakenIsUntold(s, step, i);
      } else if step.Tell? {
        TellKeeps(s, step.b, b, i);
      } else {
        ToldKept(s, step, b, i);
      }
    }
  }

  lemma ToldKept(s: State, step: Step, b: nat, i: nat)
    requires Enabled(s, step) && !step.Tell? && BatchesOk(s) && b < |s.batches| && i < |s.batches[b].rows|
    ensures var t := Do(s, step); b < |t.batches| && t.batches[b].rows == s.batches[b].rows && t.batches[b].rows[i] < |t.adds| && ToldOk(t, b, i)
  {
    assert ToldOk(s, b, i);
  }

  lemma TellKeeps(s: State, told: nat, b: nat, i: nat)
    requires Enabled(s, Tell(told)) && RowsOk(s) && BatchesOk(s) && b < |s.batches| && i < |s.batches[b].rows|
    ensures var t := Do(s, Tell(told)); t.batches[b].rows == s.batches[b].rows && t.batches[b].rows[i] < |t.adds| && ToldOk(t, b, i)
  {
    assert ToldOk(s, b, i);
    if s.batches[told].rows[s.batches[told].told] == s.batches[b].rows[i] {
      OnePlace(s, told, s.batches[told].told, b, i);
    }
  }

  lemma TakenIsUntold(s: State, step: Step, i: nat)
    requires Enabled(s, step) && PendingOk(s) && |Do(s, step).batches| > |s.batches| && i < |Do(s, step).batches[|s.batches|].rows|
    ensures var t := Do(s, step); t.batches[|s.batches|].rows[i] < |t.adds| && ToldOk(t, |s.batches|, i)
  {
    assert Do(s, step).batches[|s.batches|].rows[i] == s.pending[i];
  }

  lemma DoKeeps(s: State, step: Step)
    requires Enabled(s, step) && WriterOk(s)
    ensures WriterOk(Do(s, step))
  {
    hide Do, Enabled, RowsOk, TimerOk, BatchesOk, PendingOk, CallersOk;
    RowsKept(s, step);
    TimerKept(s, step);
    CallersKept(s, step);
    PendingKept(s, step);
    BatchesKept(s, step);
  }

  lemma {:induction false} ExecuteKeeps(s: State, steps: seq<Step>)
    requires WriterOk(s)
    ensures WriterOk(Execute(s, steps))
    decreases |steps|
  {
    hide WriterOk;
    if steps != [] {
      if Enabled(s, steps[0]) {
        DoKeeps(s, steps[0]);
        ExecuteKeeps(Do(s, steps[0]), steps[1..]);
      } else {
        ExecuteKeeps(s, steps[1..]);
      }
    }
  }

  lemma StartIsOk(maxBatch: nat)
    ensures WriterOk(Start(maxBatch))
  {
  }

  // ---------- Every run ----------

  /** Row a is the i-th of insert call b. */
  predicate At(t: State, b: nat, i: nat, a: nat) {
    b < |t.batches| && i < |t.batches[b].rows| && t.batches[b].rows[i] == a
  }

  lemma PendingIff(t: State, a: nat)
    requires RowsOk(t) && a < |t.adds|
    ensures a in t.pending <==> First(t, |t.batches|) <= a
  {
    if First(t, |t.batches|) <= a {
      assert t.pending[a - First(t, |t.batches|)] == a;
    }
  }

  /** Every row goes into exactly one insert call, or is still pending and in none. */
  lemma EveryRowInOneInsert(maxBatch: nat, steps: seq<Step>, a: nat)
    requires a < |Execute(Start(maxBatch), steps).adds|
    ensures var t := Execute(Start(maxBatch), steps);
            && (a !in t.pending <==> exists b: nat, i: nat :: At(t, b, i, a))
            && (forall b: nat, i: nat, c: nat, j: nat :: At(t, b, i, a) && At(t, c, j, a) ==> b == c && i == j)
  {
    StartIsOk(maxBatch);
    ExecuteKeeps(Start(maxBatch), steps);
    var t := Execute(Start(maxBatch), steps);
    PendingIff(t, a);
    if a !in t.pending {
      var b, i := Locate(t, a, |t.batches|);
      assert At(t, b, i, a);
    }
    forall b: nat, i: nat | At(t, b, i, a) ensures a !in t.pending {
      NotPending(t, b, i);
    }
    forall b: nat, i: nat, c: nat, j: nat | At(t, b, i, a) && At(t, c, j, a) ensures b == c && i == j {
      OnePlace(t, b, i, c, j);
    }
  }

  /** Add returns nil only if, and an insert error only if, the one insert call that held its row ended
      so; and it has been told at most once. */
  lemma AnswersAreTrue(maxBatch: nat, steps: seq<Step>, b: nat, i: nat)
    requires var t := Execute(Start(maxBatch), steps); b < |t.batches| && i < |t.batches[b].rows|
    ensures var t := Execute(Start(maxBatch), steps);
            var a := t.batches[b].rows[i];
            && a < |t.adds| && t.adds[a].sends <= 1
            && (t.adds[a].phase == Returned(Nil) ==> t.batches[b].result == Some(true))
            && (t.adds[a].phase == Returned(InsertError) ==> t.batches[b].result == Some(false))
  {
    StartIsOk(maxBatch);
    ExecuteKeeps(Start(maxBatch), steps);
    assert ToldOk(Execute(Start(maxBatch), steps), b, i);
  }

  /** An Add whose row is still pending has not returned, except by its own context. */
  lemma NotBeforeTheInsert(maxBatch: nat, steps: seq<Step>, a: nat)
    requires a in Execute(Start(maxBatch), steps).pending
    ensures var t := Execute(Start(maxBatch), steps);
            a < |t.adds| && (t.adds[a].phase.Returned? ==> t.adds[a].phase == Returned(Cancelled))
  {
    StartIsOk(maxBatch);
    ExecuteKeeps(Start(maxBatch), steps);
  }

  /** No flush blocks: while a batch has somebody left to tell, the channel of the next one is free,
      also when its Add gave up long ago. */
  lemma TellingNeverBlocks(maxBatch: nat, steps: seq<Step>, b: nat)
    requires var t := Execute(Start(maxBatch), steps);
             b < |t.batches| && t.batches[b].result.Some? && t.batches[b].told < |t.batches[b].waiters|
    ensures Enabled(Execute(Start(maxBatch), steps), Tell(b))
  {
    StartIsOk(maxBatch);
    ExecuteKeeps(Start(maxBatch), steps);
    var t := Execute(Start(maxBatch), steps);
    assert ToldOk(t, b, t.batches[b].told);
  }

  /** No row is stranded: something is pending exactly while a timer is set, and that timer is running
      or its flush is on the way; a full batch does not wait for it. */
  lemma NothingIsStranded(maxBatch: nat, steps: seq<Step>)
    ensures var t := Execute(Start(maxBatch), steps);
            && (t.pending != [] <==> t.timer.Some?)
            && (t.pending != [] ==> Enabled(t, Fire(t.timer.value)) || Enabled(t, TimerFlush(t.timer.value)))
            && (t.pending != [] && maxBatch <= |t.pending| ==> Enabled(t, CallerFlush(t.pending[|t.pending| - 1])))
  {
    StartIsOk(maxBatch);
    ExecuteKeeps(Start(maxBatch), steps);
    MaxStays(Start(maxBatch), steps);
  }

  lemma {:induction false} MaxStays(s: State, steps: seq<Step>)
    ensures Execute(s, steps).maxBatch == s.maxBatch
    decreases |steps|
  {
    if steps != [] {
      MaxStays(if Enabled(s, steps[0]) then Do(s, steps[0]) else s, steps[1..]);
    }
  }

  predicate BatchMoves(t: State, b: nat) {
    Enabled(t, Insert(b, true)) || Enabled(t, Tell(b))
  }

  /** The Add can go on by itself, or what it waits for can: the timer of the batch its row is pending
      in, the insert and the telling of the batch its row is in, or those of the batch it flushes. */
  ghost predicate CanGoOn(t: State, a: nat)
    requires a < |t.adds|
  {
    || Enabled(t, CallerFlush(a)) || Enabled(t, LeaveFlush(a)) || Enabled(t, Receive(a))
    || (a in t.pending && t.timer.Some? && (Enabled(t, Fire(t.timer.value)) || Enabled(t, TimerFlush(t.timer.value))))
    || (t.adds[a].phase.InFlush? && BatchMoves(t, t.adds[a].phase.batch))
    || exists b: nat, i: nat :: At(t, b, i, a) && BatchMoves(t, b)
  }

  /** In every reachable state an Add that has not returned can go on, without help from its context. */
  lemma NobodyWaitsForEver(maxBatch: nat, steps: seq<Step>, a: nat)
    requires var t := Execute(Start(maxBatch), steps); a < |t.adds| && !t.adds[a].phase.Returned?
    ensures CanGoOn(Execute(Start(maxBatch), steps), a)
  {
    StartIsOk(maxBatch);
    ExecuteKeeps(Start(maxBatch), steps);
    GoesOn(Execute(Start(maxBatch), steps), a);
  }

  lemma GoesOn(t: State, a: nat)
    requires WriterOk(t) && a < |t.adds| && !t.adds[a].phase.Returned?
    ensures CanGoOn(t, a)
  {
    if t.adds[a].phase.InFlush? {
      BatchGoesOn(t, t.adds[a].phase.batch);
    } else if t.adds[a].phase.Awaiting? {
      PendingIff(t, a);
      if a !in t.pending {
        var b, i := Locate(t, a, |t.batches|);
        assert At(t, b, i, a) && ToldOk(t, b, i);
        BatchGoesOn(t, b);
      }
    }
  }

  lemma BatchGoesOn(t: State, b: nat)
    requires WriterOk(t) && b < |t.batches|
    ensures BatchMoves(t, b) || (t.batches[b].told == |t.batches[b].rows| && t.batches[b].waiters == t.batches[b].rows)
  {
    if t.batches[b].told < |t.batches[b].rows| {
      assert ToldOk(t, b, t.batches[b].told);
    } else {
      assert ToldOk(t, b, 0);
    }
  }

  // ---------- Everybody returns ----------

  function Sum<T>(xs: seq<T>, weight: T -> nat): nat {
    if xs == [] then 0 else Sum(xs[..|xs| - 1], weight) + weight(xs[|xs| - 1])
  }

  lemma {:induction false} SumUpdate<T>(xs: seq<T>, i: nat, x: T, weight: T -> nat)
    requires i < |xs|
    ensures Sum(xs[i := x], weight) == Sum(xs, weight) - weight(xs[i]) + weight(x)
    decreases |xs|
  {
    var n := |xs| - 1;
    if i == n {
      assert xs[i := x][..n] == xs[..n];
    } else {
      assert xs[i := x][..n] == xs[..n][i := x];
      SumUpdate(xs[..n], i, x, weight);
    }
  }

  lemma SumAppend<T>(xs: seq<T>, x: T, weight: T -> nat)
    ensures Sum(xs + [x], weight) == Sum(xs, weight) + weight(x)
  {
    assert (xs + [x])[..|xs|] == xs;
  }

  function AddLeft(x: AddCall): nat {
    match x.phase
    case MustFlush => 3
    case InFlush(_) => 2
    case Awaiting => 1
    case Returned(_) => 0
  }

  function TimerLeft(x: Timer): nat {
    match x
    case Armed => 2
    case Fired => 1
    case Over => 0
  }

  function BatchLeft(x: Batch): nat {
    (if x.result.None? then 1 else 0) + if x.told < |x.waiters| then |x.waiters| - x.told else 0
  }

  /** An upper bound on the steps that are left when no further row comes in. */
  function Left(s: State): nat {
    Sum(s.adds, AddLeft) + Sum(s.timers, TimerLeft) + Sum(s.batches, BatchLeft) + 2 * |s.pending|
  }

  lemma TakeDescends(s: State)
    requires WriterOk(s)
    ensures Left(Take(s)) <= Left(s)
  {
    if s.timer.Some? && s.timers[s.timer.value].Armed? {
      SumUpdate(s.timers, s.timer.value, Over, TimerLeft);
    }
    SumAppend(s.batches, Batch(s.pending, s.waiters, None, 0), BatchLeft);
    hide Sum, BatchesOk, PendingOk, CallersOk;
  }

  lemma PhaseDescends(s: State, a: nat, phase: Phase)
    requires a < |s.adds|
    ensures Left(SetPhase(s, a, phase)) == Left(s) - AddLeft(s.adds[a]) + AddLeft(s.adds[a].(phase := phase))
  {
    SumUpdate(s.adds, a, s.adds[a].(phase := phase), AddLeft);
    hide Sum;
  }

  lemma TimerDescends(s: State, t: nat, timer: Timer)
    requires t < |s.timers|
    ensures Left(s.(timers := s.timers[t := timer])) == Left(s) - TimerLeft(s.timers[t]) + TimerLeft(timer)
  {
    SumUpdate(s.timers, t, timer, TimerLeft);
    hide Sum;
  }

  lemma StaysOkWithout(s: State, t: nat)
    requires Enabled(s, TimerFlush(t)) && WriterOk(s)
    ensures s.timer == Some(t) || WriterOk(s.(timers := s.timers[t := Over]))
  {
    if s.timer != Some(t) {
      var u := s.(timers := s.timers[t := Over]);
      SameRows(s, u);
      forall b: nat, i: nat | b < |u.batches| && i < |u.batches[b].rows| ensures u.batches[b].rows[i] < |u.adds| && ToldOk(u, b, i) {
        assert ToldOk(s, b, i);
      }
      hide RowsOk, ToldOk, PendingOk;
    }
  }

  lemma TimerFlushDescends(s: State, t: nat)
    requires Enabled(s, TimerFlush(t)) && WriterOk(s)
    ensures Left(Do(s, TimerFlush(t))) < Left(s)
  {
    var u := s.(timers := s.timers[t := Over]);
    TimerDescends(s, t, Over);
    if s.timer == Some(t) {
      assert RowsOk(s);
      SumAppend(s.batches, Batch(s.pending, s.waiters, None, 0), BatchLeft);
    } else {
      StaysOkWithout(s, t);
      TakeDescends(u);
    }
    hide Sum, WriterOk;
  }

  /** Every step but a new Add brings the end nearer. */
  lemma StepsDescend(s: State, step: Step)
    requires Enabled(s, step) && WriterOk(s) && !step.Enter?
    ensures Left(Do(s, step)) < Left(s)
  {
    hide Left, Sum, Take, WriterOk;
    match step
    case CallerFlush(a) =>
      TakeDescends(s);
      assert Take(s).adds == s.adds by { TakeLeavesAdds(s); }
      PhaseDescends(Take(s), a, if s.pending == [] then Awaiting else InFlush(|s.batches|));
    case Fire(t) => TimerDescends(s, t, Fired);
    case TimerFlush(t) => TimerFlushDescends(s, t);
    case Insert(b, ok) => BatchDescends(s, b, s.batches[b].(result := Some(ok)));
    case Tell(b) => TellDescends(s, b);
    case LeaveFlush(a) => PhaseDescends(s, a, Awaiting);
    case Receive(a) => ReceiveDescends(s, a);
    case GiveUp(a) => PhaseDescends(s, a, Returned(Cancelled));
  }

  lemma TakeLeavesAdds(s: State)
    ensures Take(s).adds == s.adds
  {
  }

  lemma BatchDescends(s: State, b: nat, x: Batch)
    requires b < |s.batches|
    ensures Left(s.(batches := s.batches[b := x])) == Left(s) - BatchLeft(s.batches[b]) + BatchLeft(x)
  {
    SumUpdate(s.batches, b, x, BatchLeft);
    hide Sum;
  }

  lemma TellDescends(s: State, b: nat)
    requires Enabled(s, Tell(b))
    ensures Left(Do(s, Tell(b))) < Left(s)
  {
    var batch := s.batches[b];
    var a := batch.waiters[batch.told];
    var x := s.adds[a].(inbox := batch.result, sends := s.adds[a].sends + 1);
    SumUpdate(s.batches, b, batch.(told := batch.told + 1), BatchLeft);
    SumUpdate(s.adds, a, x, AddLeft);
    hide Sum;
  }

  lemma ReceiveDescends(s: State, a: nat)
    requires Enabled(s, Receive(a))
    ensures Left(Do(s, Receive(a))) < Left(s)
  {
    SumUpdate(s.adds, a, Do(s, Receive(a)).adds[a], AddLeft);
    hide Sum;
  }

  lemma MovesBy(s: State, b: nat) returns (step: Step)
    requires BatchMoves(s, b)
    ensures Enabled(s, step) && (step == Tell(b) || step == Insert(b, true))
  {
    if Enabled(s, Tell(b)) {
      step := Tell(b);
    } else {
      step := Insert(b, true);
    }
  }

  /** A step of its own or of what it waits for, none of them a new Add or a context's end. */
  lemma SomeStep(s: State, a: nat) returns (step: Step)
    requires WriterOk(s) && a < |s.adds| && !s.adds[a].phase.Returned?
    ensures Enabled(s, step) && !step.Enter? && !step.GiveUp?
  {
    GoesOn(s, a);
    hide WriterOk;
    if Enabled(s, CallerFlush(a)) {
      step := CallerFlush(a);
    } else if Enabled(s, LeaveFlush(a)) {
      step := LeaveFlush(a);
    } else if Enabled(s, Receive(a)) {
      step := Receive(a);
    } else if s.timer.Some? && Enabled(s, Fire(s.timer.value)) {
      step := Fire(s.timer.value);
    } else if s.timer.Some? && Enabled(s, TimerFlush(s.timer.value)) {
      step := TimerFlush(s.timer.value);
    } else {
      var b: nat :| BatchMoves(s, b);
      step := MovesBy(s, b);
    }
  }

  ghost predicate AllReturned(s: State) {
    forall a :: 0 <= a < |s.adds| ==> s.adds[a].phase.Returned?
  }

  /** From every state a run can reach, without a new row and without a context ending, all Adds return
      after no more steps than are left. */
  lemma {:induction false} EverybodyReturns(s: State) returns (steps: seq<Step>)
    requires WriterOk(s)
    ensures |steps| <= Left(s) && AllReturned(Execute(s, steps))
    ensures forall step :: step in steps ==> !step.Enter? && !step.GiveUp?
    decreases Left(s)
  {
    hide WriterOk, Do, Enabled, Left;
    if AllReturned(s) {
      steps := [];
    } else {
      var a :| 0 <= a < |s.adds| && !s.adds[a].phase.Returned?;
      var step := SomeStep(s, a);
      StepsDescend(s, step);
      DoKeeps(s, step);
      var rest := EverybodyReturns(Do(s, step));
      steps := [step] + rest;
      assert steps[0] == step && steps[1..] == rest;
      assert Execute(s, steps) == Execute(Do(s, step), rest);
      assert forall next :: next in steps ==> next == step || next in rest;
    }
  }

  /** An Add that waits can always be ended by its own context; the row stays where it is, and nobody else
      notices. */
  lemma ContextEnds(s: State, a: nat)
    requires a < |s.adds| && s.adds[a].phase.Awaiting?
    ensures Enabled(s, GiveUp(a))
    ensures Do(s, GiveUp(a)) == s.(adds := s.adds[a := s.adds[a].(phase := Returned(Cancelled))])
  {
  }

  /** The answer of an insert call is its batch's result, for good: nothing else sets one, and nothing changes
      one that is set. */
  lemma InsertDecides(s: State, step: Step, b: nat)
    requires Enabled(s, step) && b < |s.batches|
    ensures b < |Do(s, step).batches| && Do(s, step).batches[b].rows == s.batches[b].rows
    ensures Do(s, step).batches[b].result == if step.Insert? && step.b == b then Some(step.ok) else s.batches[b].result
    ensures step.Insert? && step.b == b ==> s.batches[b].result == None
  {
  }

  // ---------- The writer's own code ----------

  /** A channel with room for one answer. */
  class Channel {
    var slot: Option<bool>

    constructor ()
      ensures slot == None
    {
      slot := None;
    }

    /** A send into a full channel would block, so the sender must know that it is free. */
    method Send(ok: bool)
      requires slot == None
      modifies this
      ensures slot == Some(ok)
    {
      slot := Some(ok);
    }
  }

  /** The writer's three fields, under its mutex. inserted is the history of insert calls. */
  class Writer {
    const maxBatch: int
    var pending: seq<nat>
    var waiters: seq<Channel>
    var timerSet: bool
    ghost var inserted: seq<seq<nat>>

    constructor (max: int)
      ensures Valid() && pending == [] && inserted == [] && maxBatch == if max <= 0 then 1000 else max
    {
      maxBatch := if max <= 0 then 1000 else max;
      pending, waiters, timerSet, inserted := [], [], false, [];
    }

    /** Every pending row has a channel of its own, still free; the timer is set exactly while there is
        something pending. */
    ghost predicate Valid()
      reads this, waiters
    {
      && |waiters| == |pending|
      && (forall i, j :: 0 <= i < j < |waiters| ==> waiters[i] != waiters[j])
      && (forall i :: 0 <= i < |waiters| ==> waiters[i].slot == None)
      && (timerSet <==> pending != [])
    }

    /** The first half of Add: what it does under the mutex. */
    method Enter(row: nat) returns (ch: Channel, full: bool)
      requires Valid()
      modifies this
      ensures Valid() && fresh(ch) && timerSet && inserted == old(inserted)
      ensures pending == old(pending) + [row] && waiters == old(waiters) + [ch]
      ensures full <==> maxBatch <= |pending|
    {
      pending := pending + [row];
      ch := new Channel();
      waiters := waiters + [ch];
      full := |pending| >= maxBatch;
      if |pending| == 1 {
        timerSet := true;
      }
    }

    /** Takes everything under the mutex, then one insert call and one answer to each channel; on an
        empty batch it does nothing, however often it is called. */
    method Flush(ok: bool)
      requires Valid()
      modifies this, waiters
      ensures Valid() && pending == [] && !timerSet
      ensures inserted == old(inserted) + if old(pending) == [] then [] else [old(pending)]
      ensures forall ch :: ch in old(waiters) ==> ch.slot == Some(ok)
    {
      timerSet := false;
      var rows, told := pending, waiters;
      pending, waiters := [], [];
      if |rows| == 0 {
        return;
      }
      inserted := inserted + [rows];
      var i := 0;
      while i < |told|
        invariant i <= |told|
        invariant forall j :: 0 <= j < i ==> told[j].slot == Some(ok)
        invariant forall j :: i <= j < |told| ==> told[j].slot == None
        modifies told
      {
        told[i].Send(ok);
        i := i + 1;
      }
    }

    /** Add as the only caller. givesUp says that its select takes the end of its context; otherwise it
        waits for the answer, which the timer's flush brings if the batch was not full. Giving up on a
        batch that is not full leaves the row pending; in every other case it is in one insert, whose
        answer is Add's own unless it gave up. */
    method Add(row: nat, ok: bool, givesUp: bool) returns (answer: Answer)
      requires Valid()
      modifies this, waiters
      ensures Valid()
      ensures answer == if givesUp then Cancelled else if ok then Nil else InsertError
      ensures if givesUp && |old(pending)| + 1 < maxBatch then
                pending == old(pending) + [row] && inserted == old(inserted)
              else pending == [] && inserted == old(inserted) + [old(pending) + [row]]
    {
      var ch, full := Enter(row);
      assert ch == waiters[|waiters| - 1];
      if full {
        Flush(ok);
      }
      if givesUp {
        return Cancelled;
      }
      if ch.slot == None {
        Flush(ok);
      }
      return if ch.slot.value then Nil else InsertError;
    }
  }
}
