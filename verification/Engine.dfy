/** The partition engine: one worker per assigned partition, fed through a channel of four batches,
    told to stop by closing its quit channel, and waited for. The first half is the engine's own
    code on its map of workers; the second, all its goroutines running at once. */
module Engine {
  import opened Wrappers

  datatype Tp = Tp(topic: string, partition: int)

  datatype Fetch = Fetch(tp: Tp, records: seq<nat>)

  const CAPACITY := 4

  /** Where a worker is: in its select, about to look at quit before the next record of its batch, in
      process, or returned. */
  datatype Pc = Waiting | AtCheck(rest: seq<nat>) | Processing(rest: seq<nat>) | Exited

  /** closes counts how often quit was closed; a second close would panic. sent, processed and late
      are bookkeeping: what dispatch put into the channel, what process has finished, and how many
      of those finished after quit was closed. */
  datatype Worker = Worker(tp: Tp, queue: seq<seq<nat>>, closes: nat, pc: Pc, sent: seq<nat>, processed: seq<nat>, late: nat)

  /** The loop of Run: polling, handing out a fetch, or past its end and in stopAll. */
  datatype Poller = Polling | Dispatching(fetches: seq<Fetch>, target: Option<nat>) | Collected(keys: seq<Tp>) | Leaving(waiting: seq<nat>)

  /** A revoked or lost callback that is waiting for the workers of its partitions, or none. */
  datatype Callback = Quiet | Stopping(tps: seq<Tp>, waiting: seq<nat>)

  /** all holds every worker ever started; workers is the engine's map, into it. */
  datatype State = State(workers: map<Tp, nat>, all: seq<Worker>, poller: Poller, callback: Callback)

  // ---------- The critical sections ----------

  function Started(tp: Tp): Worker {
    Worker(tp, [], 0, Waiting, [], [], 0)
  }

  function AssignOne(s: State, tp: Tp): State {
    s.(workers := s.workers[tp := |s.all|], all := s.all + [Started(tp)])
  }

  function AssignAll(s: State, tps: seq<Tp>): State {
    if tps == [] then s else AssignOne(AssignAll(s, tps[..|tps| - 1]), tps[|tps| - 1])
  }

  function CloseOne(s: State, tp: Tp): State {
    if tp in s.workers && s.workers[tp] < |s.all| then
      var w := s.workers[tp];
      s.(workers := s.workers - {tp}, all := s.all[w := s.all[w].(closes := s.all[w].closes + 1)])
    else s
  }

  function Found(s: State, tp: Tp): seq<nat> {
    if tp in s.workers then [s.workers[tp]] else []
  }

  /** Closes the quit of every worker of these partitions and takes it out of the map: the new state,
      and the workers to wait for. */
  function CloseAll(s: State, tps: seq<Tp>): (State, seq<nat>) {
    if tps == [] then (s, [])
    else
      var (s1, waiting) := CloseAll(s, tps[..|tps| - 1]);
      (CloseOne(s1, tps[|tps| - 1]), waiting + Found(s1, tps[|tps| - 1]))
  }

  // ---------- Running at once ----------

  datatype Step =
    | Poll(fetches: seq<Fetch>)
    | LookUp
    | SendBatch
    | AllowRebalance
    | Assign(tps: seq<Tp>)
    | Revoke(tps: seq<Tp>)
    | Await
    | StopAllKeys(keys: seq<Tp>)
    | StopAllClose
    | StopAllAwait
    | Take(w: nat)
    | SeeQuit(w: nat)
    | Check(w: nat)
    | Done(w: nat)

  predicate Enabled(s: State, step: Step) {
    match step
    case Poll(_) => s.poller.Polling? && s.callback.Quiet?
    case LookUp => s.poller.Dispatching? && s.poller.target.None? && s.poller.fetches != []
    case SendBatch =>
      && s.poller.Dispatching? && s.poller.target.Some? && s.poller.fetches != []
      && s.poller.target.value < |s.all| && |s.all[s.poller.target.value].queue| < CAPACITY
    case AllowRebalance => s.poller.Dispatching? && s.poller.fetches == []
    case Assign(_) => s.poller.Polling? && s.callback.Quiet?
    case Revoke(_) => !s.poller.Dispatching? && s.callback.Quiet?
    case Await => s.callback.Stopping? && Gone(s, s.callback.waiting)
    case StopAllKeys(keys) => s.poller.Polling? && (forall tp :: tp in keys ==> tp in s.workers) && (forall tp :: tp in s.workers ==> tp in keys)
    case StopAllClose => s.poller.Collected?
    case StopAllAwait => s.poller.Leaving? && Gone(s, s.poller.waiting)
    case Take(w) => w < |s.all| && s.all[w].pc.Waiting? && s.all[w].queue != []
    case SeeQuit(w) => w < |s.all| && s.all[w].pc.Waiting? && 0 < s.all[w].closes
    case Check(w) => w < |s.all| && s.all[w].pc.AtCheck? && s.all[w].pc.rest != []
    case Done(w) => w < |s.all| && s.all[w].pc.Processing? && s.all[w].pc.rest != []
  }

  /** Every one of these has returned. */
  predicate Gone(s: State, waiting: seq<nat>) {
    forall w :: w in waiting ==> w < |s.all| && s.all[w].pc.Exited?
  }

  function Next(rest: seq<nat>): Pc {
    if rest == [] then Waiting else AtCheck(rest)
  }

  function WorkerStep(x: Worker, step: Step): Worker
    requires step.Take? || step.SeeQuit? || step.Check? || step.Done?
    requires step.Take? ==> x.queue != []
    requires step.Check? ==> x.pc.AtCheck?
    requires step.Done? ==> x.pc.Processing? && x.pc.rest != []
  {
    match step
    case Take(_) => x.(queue := x.queue[1..], pc := Next(x.queue[0]))
    case SeeQuit(_) => x.(pc := Exited)
    case Check(_) => if 0 < x.closes then x.(pc := Exited) else x.(pc := Processing(x.pc.rest))
    case Done(_) =>
      x.(pc := Next(x.pc.rest[1..]), processed := x.processed + [x.pc.rest[0]], late := if 0 < x.closes then x.late + 1 else x.late)
  }

  function Do(s: State, step: Step): State
    requires Enabled(s, step)
  {
    match step
    case Poll(fetches) => s.(poller := Dispatching(fetches, None))
    case LookUp =>
      var f := s.poller.fetches[0];
      if f.records == [] || f.tp !in s.workers then s.(poller := Dispatching(s.poller.fetches[1..], None))
      else s.(poller := s.poller.(target := Some(s.workers[f.tp])))
    case SendBatch =>
      var w := s.poller.target.value;
      var batch := s.poller.fetches[0].records;
      s.(all := s.all[w := s.all[w].(queue := s.all[w].queue + [batch], sent := s.all[w].sent + batch)],
         poller := Dispatching(s.poller.fetches[1..], None))
    case AllowRebalance => s.(poller := Polling)
    case Assign(tps) => AssignAll(s, tps)
    case Revoke(tps) => var (t, waiting) := CloseAll(s, tps); t.(callback := Stopping(tps, waiting))
    case Await => s.(callback := Quiet)
    case StopAllKeys(keys) => s.(poller := Collected(keys))
    case StopAllClose => var (t, waiting) := CloseAll(s, s.poller.keys); t.(poller := Leaving(waiting))
    case StopAllAwait => s.(poller := Leaving([]))
    case Take(_) => s.(all := s.all[step.w := WorkerStep(s.all[step.w], step)])
    case SeeQuit(_) => s.(all := s.all[step.w := WorkerStep(s.all[step.w], step)])
    case Check(_) => s.(all := s.all[step.w := WorkerStep(s.all[step.w], step)])
    case Done(_) => s.(all := s.all[step.w := WorkerStep(s.all[step.w], step)])
  }

  function Execute(s: State, steps: seq<Step>): State
    decreases |steps|
  {
    if steps == [] then s
    else Execute(if Enabled(s, steps[0]) then Do(s, steps[0]) else s, steps[1..])
  }

  const START := State(map[], [], Polling, Quiet)

  // ---------- What every step keeps ----------

  function Flat(batches: seq<seq<nat>>): seq<nat> {
    if batches == [] then [] else batches[0] + Flat(batches[1..])
  }

  function Rest(pc: Pc): seq<nat> {
    match pc
    case Waiting => []
    case AtCheck(rest) => rest
    case Processing(rest) => rest
    case Exited => []
  }

  /** Quit is closed at most once; nothing is skipped or taken out of order; at most one record, the
      one already in process, is finished after quit was closed. */
  ghost predicate WorkerOk(x: Worker) {
    && x.closes <= 1
    && (x.pc.Exited? ==> x.closes == 1)
    && |x.queue| <= CAPACITY && (forall i :: 0 <= i < |x.queue| ==> x.queue[i] != [])
    && (x.pc.AtCheck? || x.pc.Processing? ==> Rest(x.pc) != [])
    && (!x.pc.Exited? ==> x.sent == x.processed + Rest(x.pc) + Flat(x.queue))
    && x.processed <= x.sent
    && (x.closes == 0 || x.pc.Processing? ==> x.late == 0)
    && x.late <= 1
  }

  /** The workers in the map are those of their partitions, and their quit is open. */
  ghost predicate MapOk(s: State) {
    forall tp :: tp in s.workers ==>
      s.workers[tp] < |s.all| && s.all[s.workers[tp]].tp == tp && s.all[s.workers[tp]].closes == 0
  }

  ghost predicate AllOk(s: State) {
    forall w :: 0 <= w < |s.all| ==> WorkerOk(s.all[w])
  }

  /** Who has a worker in hand to wait for. */
  ghost predicate Awaited(s: State, w: nat) {
    (s.callback.Stopping? && w in s.callback.waiting) || (s.poller.Leaving? && w in s.poller.waiting)
  }

  /** A worker whose quit is closed has returned, or somebody is waiting for it to. */
  ghost predicate ClosedAreAwaited(s: State) {
    forall w :: 0 <= w < |s.all| && 0 < s.all[w].closes && !s.all[w].pc.Exited? ==> Awaited(s, w)
  }

  ghost predicate TargetOk(s: State) {
    s.poller.Dispatching? && s.poller.target.Some? ==>
      && s.poller.fetches != [] && s.poller.fetches[0].records != [] && s.poller.fetches[0].tp in s.workers
      && s.poller.target.value == s.workers[s.poller.fetches[0].tp]
  }

  /** Past the end of Run no partition is in the map that stopAll does not know of; the partitions a
      callback is stopping are out of the map. */
  ghost predicate LeavingOk(s: State) {
    && (s.poller.Collected? ==> forall tp :: tp in s.workers ==> tp in s.poller.keys)
    && (s.poller.Leaving? ==> s.workers == map[])
    && (s.callback.Stopping? ==> forall tp :: tp in s.callback.tps ==> tp !in s.workers)
  }

  ghost predicate AllClosed(s: State, waiting: seq<nat>) {
    forall w :: w in waiting ==> w < |s.all| && 0 < s.all[w].closes
  }

  /** Nobody waits for a worker whose quit is open. */
  ghost predicate WaitingOk(s: State) {
    && (s.callback.Stopping? ==> AllClosed(s, s.callback.waiting))
    && (s.poller.Leaving? ==> AllClosed(s, s.poller.waiting))
  }

  ghost predicate EngineOk(s: State) {
    AllOk(s) && MapOk(s) && ClosedAreAwaited(s) && TargetOk(s) && LeavingOk(s) && WaitingOk(s)
  }

  // ---------- Starting and stopping many ----------

  ghost predicate SameButWorkers(s: State, t: State) {
    t.poller == s.poller && t.callback == s.callback
  }

  /** Assigning starts one worker for each partition and touches no other. */
  lemma {:induction false} AssignAllDoes(s: State, tps: seq<Tp>)
    requires MapOk(s) && AllOk(s)
    ensures var t := AssignAll(s, tps);
            && SameButWorkers(s, t) && MapOk(t) && AllOk(t)
            && |t.all| == |s.all| + |tps|
            && (forall w :: 0 <= w < |s.all| ==> t.all[w] == s.all[w])
            && (forall w :: |s.all| <= w < |t.all| ==> t.all[w] == Started(tps[w - |s.all|]))
            && (forall tp :: tp in t.workers <==> tp in s.workers || tp in tps)
            && (forall tp :: tp in s.workers && tp !in tps ==> t.workers[tp] == s.workers[tp])
            && (forall tp :: tp in tps ==> |s.all| <= t.workers[tp])
    decreases |tps|
  {
    if tps != [] {
      var init, last := tps[..|tps| - 1], tps[|tps| - 1];
      AssignAllDoes(s, init);
      assert tps == init + [last];
      var s1 := AssignAll(s, init);
      assert AssignAll(s, tps) == AssignOne(s1, last);
      assert WorkerOk(Started(last));
    }
  }

  /** From s to t exactly the mapped workers of these partitions were closed, each once, and taken out
      of the map; they are the ones to wait for. */
  ghost predicate Closed(s: State, tps: seq<Tp>, t: State, waiting: seq<nat>) {
    && SameButWorkers(s, t)
    && |t.all| == |s.all|
    && (forall tp :: tp in t.workers <==> tp in s.workers && tp !in tps)
    && (forall tp :: tp in t.workers ==> t.workers[tp] == s.workers[tp])
    && (forall w :: 0 <= w < |s.all| ==> t.all[w] == if w in waiting then s.all[w].(closes := s.all[w].closes + 1) else s.all[w])
    && (forall w :: w in waiting ==> w < |s.all| && s.all[w].tp in tps && s.all[w].tp in s.workers && s.workers[s.all[w].tp] == w)
    && (forall tp :: tp in s.workers && tp in tps ==> s.workers[tp] in waiting)
  }

  lemma CloseOneMore(s: State, tps: seq<Tp>, t: State, waiting: seq<nat>, tp: Tp)
    requires MapOk(s) && Closed(s, tps, t, waiting)
    ensures Closed(s, tps + [tp], CloseOne(t, tp), waiting + Found(t, tp))
  {
  }

  lemma ClosedKeepsMap(s: State, tps: seq<Tp>, t: State, waiting: seq<nat>)
    requires MapOk(s) && Closed(s, tps, t, waiting)
    ensures MapOk(t)
  {
  }

  lemma {:induction false} CloseAllDoes(s: State, tps: seq<Tp>)
    requires MapOk(s)
    ensures Closed(s, tps, CloseAll(s, tps).0, CloseAll(s, tps).1)
    decreases |tps|
  {
    if tps != [] {
      hide Closed, MapOk, CloseOne, Found;
      var init, last := tps[..|tps| - 1], tps[|tps| - 1];
      CloseAllDoes(s, init);
      var (s1, waiting) := CloseAll(s, init);
      CloseOneMore(s, init, s1, waiting, last);
      assert tps == init + [last];
    }
  }

  // ---------- Step by step ----------

  lemma {:induction false} FlatAppend(batches: seq<seq<nat>>, batch: seq<nat>)
    ensures Flat(batches + [batch]) == Flat(batches) + batch
  {
    if batches == [] {
      assert batches + [batch] == [batch] && [batch][1..] == [];
    } else {
      assert (batches + [batch])[1..] == batches[1..] + [batch];
      FlatAppend(batches[1..], batch);
    }
  }

  lemma BatchSent(x: Worker, batch: seq<nat>)
    requires WorkerOk(x) && x.closes == 0 && |x.queue| < CAPACITY && batch != []
    ensures WorkerOk(x.(queue := x.queue + [batch], sent := x.sent + batch))
  {
    FlatAppend(x.queue, batch);
  }

  lemma WorkerStepKeeps(x: Worker, step: Step)
    requires WorkerOk(x)
    requires step.Take? || step.SeeQuit? || step.Check? || step.Done?
    requires step.Take? ==> x.pc.Waiting? && x.queue != []
    requires step.SeeQuit? ==> x.pc.Waiting? && 0 < x.closes
    requires step.Check? ==> x.pc.AtCheck? && x.pc.rest != []
    requires step.Done? ==> x.pc.Processing? && x.pc.rest != []
    ensures WorkerOk(WorkerStep(x, step))
  {
  }

  lemma AllKept(s: State, step: Step)
    requires Enabled(s, step) && EngineOk(s)
    ensures AllOk(Do(s, step))
  {
    var t := Do(s, step);
    match step
    case Assign(tps) => AssignAllDoes(s, tps);
    case Revoke(tps) => ClosedOk(s, tps);
    case StopAllClose => ClosedOk(s, s.poller.keys);
    case SendBatch =>
      assert MapOk(s);
      BatchSent(s.all[s.poller.target.value], s.poller.fetches[0].records);
    case Take(w) => WorkerStepKeeps(s.all[w], step);
    case SeeQuit(w) => WorkerStepKeeps(s.all[w], step);
    case Check(w) => WorkerStepKeeps(s.all[w], step);
    case Done(w) => WorkerStepKeeps(s.all[w], step);
    case _ =>
  }

  lemma ClosedOk(s: State, tps: seq<Tp>)
    requires MapOk(s) && AllOk(s)
    ensures AllOk(CloseAll(s, tps).0)
  {
    CloseAllDoes(s, tps);
    var (t, waiting) := CloseAll(s, tps);
    forall w | 0 <= w < |t.all| ensures WorkerOk(t.all[w]) {
      assert WorkerOk(s.all[w]);
      if w in waiting {
        assert s.all[w].closes == 0;
      }
    }
  }

  lemma MapKept(s: State, step: Step)
    requires Enabled(s, step) && EngineOk(s)
    ensures MapOk(Do(s, step))
  {
    if step.Assign? {
      AssignAllDoes(s, step.tps);
    } else if step.Revoke? {
      CloseAllDoes(s, step.tps);
      ClosedKeepsMap(s, step.tps, CloseAll(s, step.tps).0, CloseAll(s, step.tps).1);
    } else if step.StopAllClose? {
      CloseAllDoes(s, s.poller.keys);
      ClosedKeepsMap(s, s.poller.keys, CloseAll(s, s.poller.keys).0, CloseAll(s, s.poller.keys).1);
    } else {
      UntouchedMap(s, step);
    }
  }

  lemma UntouchedMap(s: State, step: Step)
    requires Enabled(s, step) && EngineOk(s) && !step.Assign? && !step.Revoke? && !step.StopAllClose?
    ensures MapOk(Do(s, step))
  {
    hide WorkerOk, ClosedAreAwaited, TargetOk, LeavingOk, WaitingOk;
  }

  lemma AwaitedKept(s: State, step: Step)
    requires Enabled(s, step) && EngineOk(s)
    ensures ClosedAreAwaited(Do(s, step))
  {
    var t := Do(s, step);
    match step
    case Assign(tps) => AssignAllDoes(s, tps);
    case Revoke(tps) => CloseAllDoes(s, tps);
    case StopAllClose => CloseAllDoes(s, s.poller.keys);
    case _ =>
  }

  lemma TargetKept(s: State, step: Step)
    requires Enabled(s, step) && EngineOk(s)
    ensures TargetOk(Do(s, step)) && LeavingOk(Do(s, step))
  {
    if step.Assign? {
      AssignAllDoes(s, step.tps);
    } else if step.Revoke? {
      CloseAllDoes(s, step.tps);
    } else if step.StopAllClose? {
      CloseAllDoes(s, s.poller.keys);
      assert Do(s, step).workers.Keys == {};
    }
  }

  /** Workers stay, and what is closed stays closed. */
  ghost predicate ClosesStay(s: State, t: State) {
    |s.all| <= |t.all| && forall w :: 0 <= w < |s.all| ==> s.all[w].closes <= t.all[w].closes
  }

  lemma DoClosesStay(s: State, step: Step)
    requires Enabled(s, step) && AllOk(s) && MapOk(s)
    ensures ClosesStay(s, Do(s, step))
  {
    hide WorkerOk;
    if step.Assign? {
      AssignAllDoes(s, step.tps);
    } else if step.Revoke? {
      CloseAllDoes(s, step.tps);
    } else if step.StopAllClose? {
      CloseAllDoes(s, s.poller.keys);
    }
  }

  lemma WaitingKept(s: State, step: Step)
    requires Enabled(s, step) && AllOk(s) && MapOk(s) && WaitingOk(s)
    ensures WaitingOk(Do(s, step))
  {
    DoClosesStay(s, step);
    if step.Revoke? {
      CloseAllDoes(s, step.tps);
    } else if step.StopAllClose? {
      CloseAllDoes(s, s.poller.keys);
    } else if step.Assign? {
      AssignAllDoes(s, step.tps);
    }
    hide AllOk, MapOk;
  }

  lemma DoKeeps(s: State, step: Step)
    requires Enabled(s, step) && EngineOk(s)
    ensures EngineOk(Do(s, step))
  {
    hide Do, Enabled, AllOk, MapOk, ClosedAreAwaited, TargetOk, LeavingOk, WaitingOk;
    AllKept(s, step);
    MapKept(s, step);
    AwaitedKept(s, step);
    TargetKept(s, step);
    WaitingKept(s, step);
  }

  lemma {:induction false} ExecuteKeeps(s: State, steps: seq<Step>)
    requires EngineOk(s)
    ensures EngineOk(Execute(s, steps))
    decreases |steps|
  {
    hide EngineOk;
    if steps != [] {
      if Enabled(s, steps[0]) {
        DoKeeps(s, steps[0]);
        ExecuteKeeps(Do(s, steps[0]), steps[1..]);
      } else {
        ExecuteKeeps(s, steps[1..]);
      }
    }
  }

  lemma StartIsOk()
    ensures EngineOk(START)
  {
  }

  // ---------- Every run ----------

  /** No quit channel is closed twice, also when stopAll and a callback stop the same partition. What a
      worker has finished is a prefix, in order, of what was put into its channel, and at most one
      record of it was finished after quit was closed. */
  lemma WorkersAreSafe(steps: seq<Step>, w: nat)
    requires w < |Execute(START, steps).all|
    ensures var x := Execute(START, steps).all[w];
            x.closes <= 1 && x.processed <= x.sent && x.late <= 1 && (x.closes == 0 ==> x.late == 0)
  {
    StartIsOk();
    ExecuteKeeps(START, steps);
    assert WorkerOk(Execute(START, steps).all[w]);
  }

  /** The worker that dispatch has looked up still has its quit open when the batch is sent, and it is
      the worker of that batch's partition. */
  lemma NeverSentToStopped(steps: seq<Step>)
    requires Enabled(Execute(START, steps), SendBatch)
    ensures var t := Execute(START, steps);
            var x := t.all[t.poller.target.value];
            x.closes == 0 && !x.pc.Exited? && x.tp == t.poller.fetches[0].tp
  {
    StartIsOk();
    ExecuteKeeps(START, steps);
    var t := Execute(START, steps);
    assert WorkerOk(t.all[t.poller.target.value]);
  }

  // ---------- Handing out ----------

  /** What a sequence of fetches holds for one partition. */
  function Addressed(fetches: seq<Fetch>, tp: Tp): seq<nat> {
    if fetches == [] then []
    else Addressed(fetches[..|fetches| - 1], tp) +
         if fetches[|fetches| - 1].tp == tp then fetches[|fetches| - 1].records else []
  }

  lemma AddressedOne(f: Fetch, tp: Tp)
    ensures Addressed([f], tp) == if tp == f.tp then f.records else []
  {
  }

  lemma AddressedMore(fetches: seq<Fetch>, f: Fetch, tp: Tp)
    ensures Addressed(fetches + [f], tp) == Addressed(fetches, tp) + Addressed([f], tp)
  {
    assert (fetches + [f])[..|fetches|] == fetches;
    AddressedOne(f, tp);
  }

  /** While these fetches are being handed out: the map is as it was at the poll, every mapped worker has been
      sent what the fetches done with held for its partition, in order, and nobody else anything. */
  ghost predicate Sending(start: State, fetches: seq<Fetch>, s: State) {
    && s.poller.Dispatching? && s.workers == start.workers && |s.all| == |start.all|
    && |s.poller.fetches| <= |fetches| && s.poller.fetches == fetches[|fetches| - |s.poller.fetches|..]
    && (forall tp :: tp in s.workers ==>
          && s.workers[tp] < |s.all|
          && s.all[s.workers[tp]].sent == start.all[s.workers[tp]].sent + Addressed(fetches[..|fetches| - |s.poller.fetches|], tp))
    && (forall w :: 0 <= w < |s.all| && w !in s.workers.Values ==> s.all[w].sent == start.all[w].sent)
  }

  /** A batch of a partition that has a worker is held for that worker; an empty one, or one that has no
      worker, is passed over. */
  lemma LookUpTargets(s: State)
    requires Enabled(s, LookUp)
    ensures var f, t := s.poller.fetches[0], Do(s, LookUp);
            && (t.poller.target.Some? <==> f.records != [] && f.tp in s.workers)
            && (t.poller.target.Some? ==> t.poller == Dispatching(s.poller.fetches, Some(s.workers[f.tp])))
            && (t.poller.target.None? ==> t.poller.fetches == s.poller.fetches[1..])
  {
  }

  lemma OneFetchDone(fetches: seq<Fetch>, rest: seq<Fetch>, tp: Tp)
    requires 0 < |rest| <= |fetches| && rest == fetches[|fetches| - |rest|..]
    ensures rest[1..] == fetches[|fetches| - |rest| + 1..]
    ensures Addressed(fetches[..|fetches| - |rest| + 1], tp)
         == Addressed(fetches[..|fetches| - |rest|], tp) + if tp == rest[0].tp then rest[0].records else []
  {
    var n := |fetches| - |rest|;
    assert fetches[..n + 1] == fetches[..n] + [rest[0]];
    AddressedMore(fetches[..n], rest[0], tp);
    AddressedOne(rest[0], tp);
  }

  lemma LookUpSends(start: State, fetches: seq<Fetch>, s: State)
    requires EngineOk(s) && Sending(start, fetches, s) && Enabled(s, LookUp)
    ensures Sending(start, fetches, Do(s, LookUp))
  {
    hide Addressed, EngineOk;
    LookUpTargets(s);
    if Do(s, LookUp).poller.target.None? {
      OneFetchDone(fetches, s.poller.fetches, s.poller.fetches[0].tp);
      forall tp | tp in s.workers
        ensures s.all[s.workers[tp]].sent == start.all[s.workers[tp]].sent + Addressed(fetches[..|fetches| - |s.poller.fetches| + 1], tp)
      {
        OneFetchDone(fetches, s.poller.fetches, tp);
        var done := fetches[..|fetches| - |s.poller.fetches|];
        assert Addressed(done, tp) + [] == Addressed(done, tp);
      }
    }
  }

  lemma SendSends(start: State, fetches: seq<Fetch>, s: State)
    requires EngineOk(s) && Sending(start, fetches, s) && Enabled(s, SendBatch)
    ensures Sending(start, fetches, Do(s, SendBatch))
  {
    hide Addressed, AllOk, ClosedAreAwaited, LeavingOk;
    var f, w, t := s.poller.fetches[0], s.poller.target.value, Do(s, SendBatch);
    var done := fetches[..|fetches| - |s.poller.fetches|];
    assert w == s.workers[f.tp] && f.tp in s.workers;
    forall tp | tp in s.workers
      ensures t.all[s.workers[tp]].sent == start.all[s.workers[tp]].sent + Addressed(fetches[..|fetches| - |t.poller.fetches|], tp)
    {
      OneFetchDone(fetches, s.poller.fetches, tp);
      if tp == f.tp {
        assert (start.all[w].sent + Addressed(done, tp)) + f.records == start.all[w].sent + (Addressed(done, tp) + f.records);
      } else {
        assert s.workers[tp] != w;
        assert Addressed(done, tp) + [] == Addressed(done, tp);
      }
    }
    OneFetchDone(fetches, s.poller.fetches, f.tp);
    assert w in s.workers.Values;
  }

  lemma OthersSendNothing(start: State, fetches: seq<Fetch>, s: State, step: Step)
    requires EngineOk(s) && Sending(start, fetches, s) && Enabled(s, step) && !step.LookUp? && !step.SendBatch? && !step.AllowRebalance?
    ensures Sending(start, fetches, Do(s, step))
  {
    hide Addressed, EngineOk;
    var t := Do(s, step);
    assert t.workers == s.workers && t.poller == s.poller && |t.all| == |s.all|;
    assert forall w :: 0 <= w < |s.all| ==> t.all[w].sent == s.all[w].sent;
    hide Do, Enabled;
  }

  lemma {:induction false} StaysSending(start: State, fetches: seq<Fetch>, s: State, steps: seq<Step>)
    requires EngineOk(s) && Sending(start, fetches, s) && AllowRebalance !in steps
    ensures Sending(start, fetches, Execute(s, steps))
    decreases |steps|
  {
    hide EngineOk, Sending, Do, Enabled;
    if steps != [] {
      var step := steps[0];
      assert step in steps && forall x :: x in steps[1..] ==> x in steps;
      if Enabled(s, step) {
        DoKeeps(s, step);
        if step == LookUp {
          LookUpSends(start, fetches, s);
        } else if step == SendBatch {
          SendSends(start, fetches, s);
        } else {
          OthersSendNothing(start, fetches, s, step);
        }
        StaysSending(start, fetches, Do(s, step), steps[1..]);
      } else {
        StaysSending(start, fetches, s, steps[1..]);
      }
    }
  }

  /** From the poll until a rebalance is allowed again nobody but dispatch touches the map, and when it has
      come to the end of the fetches, every worker of the map has been sent all that they held for its
      partition, in order, and no other worker anything: whatever the workers and callbacks do meanwhile. */
  lemma AllIsHandedOut(past: seq<Step>, fetches: seq<Fetch>, steps: seq<Step>)
    requires Enabled(Execute(START, past), Poll(fetches)) && AllowRebalance !in steps
    ensures var s := Execute(START, past);
            var t := Execute(Do(s, Poll(fetches)), steps);
            && t.workers == s.workers && |t.all| == |s.all| && t.poller.Dispatching?
            && (t.poller.fetches == [] ==>
                  && (forall tp :: tp in s.workers ==>
                        s.workers[tp] < |s.all| && t.all[s.workers[tp]].sent == s.all[s.workers[tp]].sent + Addressed(fetches, tp))
                  && (forall w :: 0 <= w < |s.all| && w !in s.workers.Values ==> t.all[w].sent == s.all[w].sent))
  {
    StartIsOk();
    ExecuteKeeps(START, past);
    var s := Execute(START, past);
    var s1 := Do(s, Poll(fetches));
    DoKeeps(s, Poll(fetches));
    assert fetches[..0] == [] && fetches[|fetches| - |s1.poller.fetches|..] == fetches;
    assert Sending(s, fetches, s1);
    hide EngineOk, Execute, Do, Enabled;
    StaysSending(s, fetches, s1, steps);
    assert fetches[..|fetches|] == fetches;
  }

  /** While a fetch is being handed out, dispatch itself can go on, or the worker whose channel is full
      can: a full channel does not block the loop for ever. */
  lemma DispatchGoesOn(steps: seq<Step>)
    requires Execute(START, steps).poller.Dispatching?
    ensures var t := Execute(START, steps);
            || Enabled(t, AllowRebalance) || Enabled(t, LookUp) || Enabled(t, SendBatch)
            || (t.poller.target.Some? && (var w := t.poller.target.value; Enabled(t, Take(w)) || Enabled(t, Check(w)) || Enabled(t, Done(w))))
  {
    StartIsOk();
    ExecuteKeeps(START, steps);
    var t := Execute(START, steps);
    if t.poller.target.Some? {
      assert MapOk(t) && WorkerOk(t.all[t.poller.target.value]);
    }
  }

  /** How far the worker that dispatch waits for still is from making room. */
  function Ahead(s: State): (nat, nat, nat) {
    if s.poller.Dispatching? && s.poller.target.Some? && s.poller.target.value < |s.all| then
      var x := s.all[s.poller.target.value];
      (|x.queue|, |Rest(x.pc)|, if x.pc.AtCheck? then 1 else 0)
    else (0, 0, 0)
  }

  predicate Nearer(a: (nat, nat, nat), b: (nat, nat, nat)) {
    a.0 < b.0 || (a.0 == b.0 && (a.1 < b.1 || (a.1 == b.1 && a.2 < b.2)))
  }

  /** The next step of dispatch, or, if the channel is full, of the worker. */
  function DispatchStep(s: State): Step
    requires s.poller.Dispatching? && s.poller.target.Some? ==> s.poller.target.value < |s.all|
  {
    if !s.poller.Dispatching? || s.poller.fetches == [] then AllowRebalance
    else if s.poller.target.None? then LookUp
    else
      var w := s.poller.target.value;
      if |s.all[w].queue| < CAPACITY then SendBatch
      else if s.all[w].pc.Waiting? then Take(w)
      else if s.all[w].pc.AtCheck? then Check(w)
      else Done(w)
  }

  lemma DispatchMoves(s: State)
    requires EngineOk(s) && s.poller.Dispatching? && s.poller.fetches != []
    ensures s.poller.target.Some? ==> s.poller.target.value < |s.all|
    ensures Enabled(s, DispatchStep(s)) && DispatchStep(s) != AllowRebalance
    ensures var t := Do(s, DispatchStep(s));
            && t.workers == s.workers && t.poller.Dispatching? && |t.poller.fetches| <= |s.poller.fetches|
            && (|t.poller.fetches| == |s.poller.fetches| && s.poller.target.None? ==> t.poller.target.Some?)
            && (|t.poller.fetches| == |s.poller.fetches| && s.poller.target.Some? ==> t.poller == s.poller && Nearer(Ahead(t), Ahead(s)))
  {
    if s.poller.target.Some? {
      assert MapOk(s) && WorkerOk(s.all[s.poller.target.value]);
    }
    hide AllOk, ClosedAreAwaited, LeavingOk;
  }

  /** And the fetches are handed out to their end: from every reachable state of dispatch it comes, by steps
      of its own and of the workers it waits for, to where a rebalance is allowed again. */
  lemma {:induction false} DispatchEnds(s: State) returns (steps: seq<Step>)
    requires EngineOk(s) && s.poller.Dispatching?
    ensures var t := Execute(s, steps);
            && t.poller == Dispatching([], None) && t.workers == s.workers
            && Enabled(t, AllowRebalance) && Do(t, AllowRebalance) == t.(poller := Polling)
    ensures AllowRebalance !in steps
    decreases |s.poller.fetches|, s.poller.target.None?, Ahead(s).0, Ahead(s).1, Ahead(s).2
  {
    if s.poller.fetches == [] {
      steps := [];
    } else {
      DispatchMoves(s);
      var step := DispatchStep(s);
      var t := Do(s, step);
      DoKeeps(s, step);
      hide EngineOk, Do, Enabled, Ahead, DispatchStep;
      var rest := DispatchEnds(t);
      steps := [step] + rest;
      assert steps[0] == step && steps[1..] == rest;
      assert Execute(s, steps) == Execute(t, rest);
    }
  }

  /** How many steps of its own a worker whose quit is closed can still make. */
  function StepsLeft(x: Worker): nat {
    match x.pc
    case Processing(_) => 3
    case Waiting => 2
    case AtCheck(_) => 1
    case Exited => 0
  }

  function OwnSteps(w: nat): seq<Step> {
    [Take(w), SeeQuit(w), Check(w), Done(w)]
  }

  /** So waiting for done ends: a stopped worker can move until it has returned, ... */
  lemma StoppedWorkerMoves(s: State, w: nat)
    requires EngineOk(s) && w < |s.all| && 0 < s.all[w].closes && !s.all[w].pc.Exited?
    ensures exists step :: step in OwnSteps(w) && Enabled(s, step)
  {
    assert WorkerOk(s.all[w]);
    var own := OwnSteps(w);
    assert own[0] in own && own[1] in own && own[2] in own && own[3] in own;
  }

  /** ... and does so in at most three steps, whatever its select picks and whoever else moves. */
  lemma StoppedWorkerReturns(s: State, w: nat, step: Step)
    requires EngineOk(s) && w < |s.all| && 0 < s.all[w].closes && Enabled(s, step)
    ensures StepsLeft(s.all[w]) <= 3 && (StepsLeft(s.all[w]) == 0 <==> s.all[w].pc.Exited?)
    ensures w < |Do(s, step).all|
    ensures StepsLeft(Do(s, step).all[w]) <= StepsLeft(s.all[w]) - if step in OwnSteps(w) then 1 else 0
  {
    assert WorkerOk(s.all[w]);
    hide WorkerOk, ClosedAreAwaited, TargetOk, LeavingOk, WaitingOk;
    if step.Assign? {
      AssignAllDoes(s, step.tps);
    } else if step.Revoke? {
      CloseAllDoes(s, step.tps);
    } else if step.StopAllClose? {
      CloseAllDoes(s, s.poller.keys);
    }
  }

  // ---------- The fence ----------

  /** A worker that runs on although the map does not know it: nobody is going to stop it. */
  ghost predicate Orphan(s: State, w: nat) {
    w < |s.all| && s.all[w].closes == 0 && !(s.all[w].tp in s.workers && s.workers[s.all[w].tp] == w)
  }

  ghost predicate NoOrphans(s: State) {
    forall w :: !Orphan(s, w)
  }

  /** Some partition is assigned while it still has a worker, or twice in one callback. */
  predicate AssignsTwice(s: State, step: Step) {
    step.Assign? && Enabled(s, step)
    && ((exists i :: 0 <= i < |step.tps| && step.tps[i] in s.workers) || exists i, j :: 0 <= i < j < |step.tps| && step.tps[i] == step.tps[j])
  }

  predicate Somewhere(s: State, steps: seq<Step>, bad: (State, Step) -> bool)
    decreases |steps|
  {
    steps != [] && (bad(s, steps[0]) || Somewhere(if Enabled(s, steps[0]) then Do(s, steps[0]) else s, steps[1..], bad))
  }

  lemma AssignedTwice(s: State, tps: seq<Tp>)
    requires MapOk(s) && AllOk(s) && AssignsTwice(s, Assign(tps))
    ensures !NoOrphans(AssignAll(s, tps))
  {
    hide AllOk, WorkerOk, AssignAll;
    AssignAllDoes(s, tps);
    var t := AssignAll(s, tps);
    if i :| 0 <= i < |tps| && tps[i] in s.workers {
      assert Orphan(t, s.workers[tps[i]]);
    } else {
      var i, j :| 0 <= i < j < |tps| && tps[i] == tps[j];
      assert t.all[|s.all| + i] == Started(tps[i]) && t.all[|s.all| + j] == Started(tps[i]);
      assert Orphan(t, |s.all| + i) || Orphan(t, |s.all| + j);
    }
  }

  lemma AssignedOnce(s: State, tps: seq<Tp>, w: nat)
    requires MapOk(s) && AllOk(s) && !Orphan(s, w) && Enabled(s, Assign(tps)) && !AssignsTwice(s, Assign(tps))
    ensures !Orphan(AssignAll(s, tps), w)
  {
    hide AllOk, WorkerOk, AssignAll;
    AssignAllDoes(s, tps);
    var t := AssignAll(s, tps);
    if |s.all| <= w < |t.all| {
      var tp := tps[w - |s.all|];
      var v := t.workers[tp];
      assert t.all[v] == Started(tps[v - |s.all|]);
    }
  }

  lemma ClosedOrphans(s: State, tps: seq<Tp>)
    requires MapOk(s)
    ensures forall w :: Orphan(CloseAll(s, tps).0, w) <==> Orphan(s, w)
  {
    CloseAllDoes(s, tps);
    var (t, waiting) := CloseAll(s, tps);
    forall w: nat ensures Orphan(t, w) <==> Orphan(s, w) {
      if w < |s.all| {
        assert t.all[w] == if w in waiting then s.all[w].(closes := s.all[w].closes + 1) else s.all[w];
      }
    }
  }

  lemma DoOrphans(s: State, step: Step)
    requires EngineOk(s) && Enabled(s, step)
    ensures NoOrphans(s) ==> (NoOrphans(Do(s, step)) <==> !AssignsTwice(s, step))
    ensures !NoOrphans(s) ==> !NoOrphans(Do(s, step))
  {
    var t := Do(s, step);
    if step.Assign? {
      AssignAllDoes(s, step.tps);
      if AssignsTwice(s, step) {
        AssignedTwice(s, step.tps);
      } else if NoOrphans(s) {
        forall w ensures !Orphan(t, w) {
          AssignedOnce(s, step.tps, w);
        }
      }
      if !NoOrphans(s) {
        var w :| Orphan(s, w);
        assert Orphan(t, w);
      }
    } else if step.Revoke? {
      ClosedOrphans(s, step.tps);
      assert forall w :: Orphan(t, w) <==> Orphan(CloseAll(s, step.tps).0, w);
    } else if step.StopAllClose? {
      ClosedOrphans(s, s.poller.keys);
      assert forall w :: Orphan(t, w) <==> Orphan(CloseAll(s, s.poller.keys).0, w);
    } else {
      forall w ensures Orphan(t, w) <==> Orphan(s, w) {
      }
    }
  }

  /** A run leaves no orphan if and only if it never assigned a partition that still had a worker. */
  lemma {:induction false} OrphansIff(s: State, steps: seq<Step>)
    requires EngineOk(s)
    ensures NoOrphans(Execute(s, steps)) <==> NoOrphans(s) && !Somewhere(s, steps, AssignsTwice)
    decreases |steps|
  {
    hide EngineOk, NoOrphans, AssignsTwice, Do, Enabled;
    if steps != [] {
      if Enabled(s, steps[0]) {
        DoKeeps(s, steps[0]);
        DoOrphans(s, steps[0]);
        OrphansIff(Do(s, steps[0]), steps[1..]);
      } else {
        NotTwice(s, steps[0]);
        OrphansIff(s, steps[1..]);
      }
    }
  }

  lemma NotTwice(s: State, step: Step)
    requires !Enabled(s, step)
    ensures !AssignsTwice(s, step)
  {
  }

  /** The partition has no worker in the map, and every worker it ever had has returned. */
  ghost predicate Still(s: State, tp: Tp) {
    tp !in s.workers && forall w :: 0 <= w < |s.all| && s.all[w].tp == tp ==> s.all[w].pc.Exited?
  }

  /** Nobody but the callback itself is waiting for a worker of its partitions. */
  ghost predicate NotLeftToStopAll(s: State, tp: Tp) {
    s.poller.Leaving? ==> forall w :: w in s.poller.waiting && w < |s.all| && s.all[w].tp == tp ==> s.all[w].pc.Exited?
  }

  /** When the callback's stop is about to return, a partition it was asked to stop is still, if and
      only if stopAll is not the one that closed, and is still waiting for, a worker of it. */
  lemma StopReturns(steps: seq<Step>, tp: Tp)
    requires !Somewhere(START, steps, AssignsTwice)
    requires Enabled(Execute(START, steps), Await) && tp in Execute(START, steps).callback.tps
    ensures var t := Execute(START, steps); Still(Do(t, Await), tp) <==> NotLeftToStopAll(t, tp)
  {
    StartIsOk();
    ExecuteKeeps(START, steps);
    OrphansIff(START, steps);
    var t := Execute(START, steps);
    if NotLeftToStopAll(t, tp) {
      forall w: nat | w < |t.all| && t.all[w].tp == tp ensures t.all[w].pc.Exited? {
        assert !Orphan(t, w);
        assert 0 < t.all[w].closes;
        assert t.all[w].pc.Exited? || Awaited(t, w);
      }
    }
  }

  /** Once still, a partition's workers stay as they are and nothing of it is processed, in every run
      that does not assign it again. */
  lemma {:induction false} StillStays(s: State, steps: seq<Step>, tp: Tp)
    requires EngineOk(s) && Still(s, tp)
    requires forall i :: 0 <= i < |steps| && steps[i].Assign? ==> tp !in steps[i].tps
    ensures var t := Execute(s, steps);
            && Still(t, tp) && |s.all| <= |t.all|
            && (forall w :: 0 <= w < |s.all| ==> t.all[w].tp == s.all[w].tp && (s.all[w].tp == tp ==> t.all[w] == s.all[w]))
            && (forall w :: |s.all| <= w < |t.all| ==> t.all[w].tp != tp)
    decreases |steps|
  {
    hide EngineOk, Do, Enabled;
    if steps != [] {
      if Enabled(s, steps[0]) {
        DoKeeps(s, steps[0]);
        StillStep(s, steps[0], tp);
        StillStays(Do(s, steps[0]), steps[1..], tp);
      } else {
        StillStays(s, steps[1..], tp);
      }
    }
  }

  lemma StillStep(s: State, step: Step, tp: Tp)
    requires EngineOk(s) && Still(s, tp) && Enabled(s, step)
    requires step.Assign? ==> tp !in step.tps
    ensures var t := Do(s, step);
            && Still(t, tp) && |s.all| <= |t.all|
            && (forall w :: 0 <= w < |s.all| ==> t.all[w].tp == s.all[w].tp && (s.all[w].tp == tp ==> t.all[w] == s.all[w]))
            && (forall w :: |s.all| <= w < |t.all| ==> t.all[w].tp != tp)
  {
    hide WorkerOk, ClosedAreAwaited, LeavingOk;
    if step.Assign? {
      AssignAllDoes(s, step.tps);
    } else if step.Revoke? {
      CloseAllDoes(s, step.tps);
    } else if step.StopAllClose? {
      CloseAllDoes(s, s.poller.keys);
    }
  }

  /** After stopAll has returned no worker is left. */
  lemma StopAllStopsAll(steps: seq<Step>, w: nat)
    requires !Somewhere(START, steps, AssignsTwice)
    requires var t := Execute(START, steps); w < |t.all| && Enabled(t, StopAllAwait) && t.callback.Quiet?
    ensures Execute(START, steps).all[w].pc.Exited?
  {
    StartIsOk();
    ExecuteKeeps(START, steps);
    OrphansIff(START, steps);
    var t := Execute(START, steps);
    assert !Orphan(t, w);
    assert t.all[w].pc.Exited? || Awaited(t, w);
  }

  lemma WorkersOwnStep(s: State, w: nat, step: Step)
    requires EngineOk(s) && w < |s.all| && Enabled(s, step) && step in OwnSteps(w)
    ensures var t := Do(s, step);
            && t.poller == s.poller && t.callback == s.callback && t.workers == s.workers && |t.all| == |s.all|
            && forall v :: 0 <= v < |s.all| && v != w ==> t.all[v] == s.all[v]
  {
  }

  lemma {:induction false} ExitsAlone(s: State, w: nat) returns (steps: seq<Step>)
    requires EngineOk(s) && w < |s.all| && 0 < s.all[w].closes
    ensures var t := Execute(s, steps);
            && EngineOk(t) && t.poller == s.poller && t.callback == s.callback && t.workers == s.workers && |t.all| == |s.all|
            && t.all[w].pc.Exited? && forall v :: 0 <= v < |s.all| && v != w ==> t.all[v] == s.all[v]
    decreases StepsLeft(s.all[w])
  {
    if s.all[w].pc.Exited? {
      steps := [];
    } else {
      StoppedWorkerMoves(s, w);
      var step :| step in OwnSteps(w) && Enabled(s, step);
      StoppedWorkerReturns(s, w, step);
      WorkersOwnStep(s, w, step);
      DoKeeps(s, step);
      DoClosesStay(s, step);
      hide EngineOk, Do, Enabled, OwnSteps, StepsLeft;
      var rest := ExitsAlone(Do(s, step), w);
      steps := [step] + rest;
      assert steps[0] == step && steps[1..] == rest;
      assert Execute(s, steps) == Execute(Do(s, step), rest);
    }
  }

  lemma {:induction false} AllExit(s: State, waiting: seq<nat>) returns (steps: seq<Step>)
    requires EngineOk(s) && AllClosed(s, waiting)
    ensures var t := Execute(s, steps);
            && EngineOk(t) && t.poller == s.poller && t.callback == s.callback && t.workers == s.workers && Gone(t, waiting)
            && |t.all| == |s.all| && forall v :: 0 <= v < |s.all| && s.all[v].pc.Exited? ==> t.all[v] == s.all[v]
    decreases |waiting|
  {
    hide EngineOk;
    if waiting == [] {
      steps := [];
    } else {
      var w, others := waiting[0], waiting[1..];
      assert w in waiting && forall v :: v in waiting <==> v == w || v in others;
      if s.all[w].pc.Exited? {
        steps := AllExit(s, others);
      } else {
        var first := ExitsAlone(s, w);
        var s1 := Execute(s, first);
        ExitsKeepClosed(s, s1, w, others);
        var rest := AllExit(s1, others);
        steps := first + rest;
        Executes(s, first, rest);
      }
    }
  }

  lemma ExitsKeepClosed(s: State, t: State, w: nat, waiting: seq<nat>)
    requires (forall v :: v in waiting ==> v < |s.all| && 0 < s.all[v].closes) && EngineOk(t) && |t.all| == |s.all| && w < |s.all| && t.all[w].pc.Exited?
    requires forall v :: 0 <= v < |s.all| && v != w ==> t.all[v] == s.all[v]
    ensures AllClosed(t, waiting)
  {
    assert WorkerOk(t.all[w]);
  }

  lemma {:induction false} Executes(s: State, steps: seq<Step>, more: seq<Step>)
    ensures Execute(s, steps + more) == Execute(Execute(s, steps), more)
    decreases |steps|
  {
    if steps == [] {
      assert steps + more == more;
    } else {
      assert (steps + more)[1..] == steps[1..] + more;
      Executes(if Enabled(s, steps[0]) then Do(s, steps[0]) else s, steps[1..], more);
    }
  }

  /** And the waits end: from every reachable state the workers a callback waits for can all return by steps
      of their own, and then it does; and so with stopAll. */
  lemma WaitsEnd(s: State) returns (steps: seq<Step>)
    requires EngineOk(s)
    ensures var t := Execute(s, steps);
            && t.workers == s.workers
            && (s.callback.Stopping? ==> Enabled(t, Await) && Do(t, Await) == t.(callback := Quiet))
            && (s.poller.Leaving? ==> Enabled(t, StopAllAwait) && Do(t, StopAllAwait) == t.(poller := Leaving([])))
  {
    var first: seq<Step> := [];
    if s.callback.Stopping? {
      first := AllExit(s, s.callback.waiting);
    }
    var s1 := Execute(s, first);
    var second: seq<Step> := [];
    if s.poller.Leaving? {
      second := AllExit(s1, s1.poller.waiting);
    }
    hide EngineOk, Do;
    steps := first + second;
    Executes(s, first, second);
  }

  // ---------- What the fence does not cover ----------

  /** An orphan that has a batch in its channel goes on processing, whatever has been stopped. */
  lemma OrphanRunsOn(s: State, w: nat)
    requires EngineOk(s) && Orphan(s, w) && s.all[w].pc.Waiting? && s.all[w].queue != []
    ensures var t := Execute(s, [Take(w), Check(w), Done(w)]);
            && t.workers == s.workers && |t.all| == |s.all|
            && t.all[w].processed == s.all[w].processed + [s.all[w].queue[0][0]]
  {
    assert WorkerOk(s.all[w]);
    var steps := [Take(w), Check(w), Done(w)];
    assert s.all[w].queue[0] != [];
    OneStep(s, steps);
    var s1 := Do(s, Take(w));
    OneStep(s1, steps[1..]);
    var s2 := Do(s1, Check(w));
    OneStep(s2, steps[1..][1..]);
    assert steps[1..][1..][1..] == [];
  }

  lemma OneStep(s: State, steps: seq<Step>)
    requires steps != [] && Enabled(s, steps[0])
    ensures Execute(s, steps) == Execute(Do(s, steps[0]), steps[1..])
  {
  }

  /** The one worker of p: started, collected by stopAll, closed by it, and met by a callback. */
  function Lone(p: Tp, closed: bool, poller: Poller, callback: Callback): State {
    if closed then State(map[], [Started(p).(closes := 1)], poller, callback)
    else State(map[p := 0], [Started(p)], poller, callback)
  }

  lemma AssignLone(p: Tp)
    ensures AssignAll(START, [p]) == Lone(p, false, Polling, Quiet)
  {
  }

  lemma CloseLone(p: Tp, closed: bool, poller: Poller)
    ensures CloseAll(Lone(p, closed, poller, Quiet), [p]) == (Lone(p, true, poller, Quiet), if closed then [] else [0])
  {
    var s := Lone(p, closed, poller, Quiet);
    assert [p][..0] == [] && CloseAll(s, []) == (s, []);
    var one: map<Tp, nat> := map[p := 0];
    assert one - {p} == map[];
    assert [] + Found(s, p) == Found(s, p);
    assert CloseOne(s, p).all == [Started(p).(closes := 1)];
  }

  function LoneRun(p: Tp): seq<Step> {
    [Assign([p]), StopAllKeys([p]), StopAllClose, Revoke([p])]
  }

  /** stopAll closes the worker, the callback finds nothing to wait for and returns at once, while the
      worker has not returned. */
  lemma CallbackReturnsEarly(p: Tp)
    ensures var t := Execute(START, LoneRun(p));
            Enabled(t, Await) && t.callback == Stopping([p], []) && !Still(Do(t, Await), p)
  {
    hide AssignAll, CloseAll;
    var run := LoneRun(p);
    AssignLone(p);
    CloseLone(p, false, Collected([p]));
    CloseLone(p, true, Leaving([0]));
    OneStep(START, run);
    OneStep(Lone(p, false, Polling, Quiet), run[1..]);
    OneStep(Lone(p, false, Collected([p]), Quiet), run[1..][1..]);
    OneStep(Lone(p, true, Leaving([0]), Quiet), run[1..][1..][1..]);
    var t := Lone(p, true, Leaving([0]), Stopping([p], []));
    assert Execute(t, []) == t && run[1..][1..][1..][1..] == [];
    assert !Do(t, Await).all[0].pc.Exited?;
  }

  // ---------- The engine's own code ----------

  /** Every mapped worker has been sent what the fetches hold for its partition, in order, and no
      worker whose quit is closed has changed. */
  ghost predicate HandedOut(workers: map<Tp, nat>, before: seq<Worker>, after: seq<Worker>, fetches: seq<Fetch>) {
    && |after| == |before|
    && (forall tp :: tp in workers ==>
          workers[tp] < |before| && after[workers[tp]].sent == before[workers[tp]].sent + Addressed(fetches, tp))
    && (forall w :: 0 <= w < |before| ==> after[w].closes == before[w].closes && (before[w].closes == 1 ==> after[w] == before[w]))
  }

  lemma OneMoreHandedOut(workers: map<Tp, nat>, before: seq<Worker>, mid: seq<Worker>, after: seq<Worker>, fetches: seq<Fetch>, f: Fetch)
    requires HandedOut(workers, before, mid, fetches) && HandedOut(workers, mid, after, [f])
    ensures HandedOut(workers, before, after, fetches + [f])
  {
    hide Addressed;
    forall tp | tp in workers ensures after[workers[tp]].sent == before[workers[tp]].sent + Addressed(fetches + [f], tp) {
      AddressedMore(fetches, f, tp);
      assert mid[workers[tp]].sent + Addressed([f], tp)
          == before[workers[tp]].sent + (Addressed(fetches, tp) + Addressed([f], tp));
    }
  }

  lemma FlatFrom(batches: seq<seq<nat>>, i: nat)
    requires i < |batches|
    ensures Flat(batches[i..]) == batches[i] + Flat(batches[i + 1..])
  {
    assert batches[i..][1..] == batches[i + 1..];
  }

  lemma FlatNone()
    ensures Flat([]) == []
  {
  }

  /** One record more of a batch is done. */
  lemma OneMoreDone(whole: seq<nat>, done: seq<nat>, records: seq<nat>, j: nat, tail: seq<nat>)
    requires j < |records| && whole == done + (records[j..] + tail)
    ensures whole == done + [records[j]] + (records[j + 1..] + tail)
  {
    assert records[j..] == [records[j]] + records[j + 1..];
  }

  lemma CloseStep(s: State, tps: seq<Tp>, i: nat)
    requires MapOk(s) && i < |tps|
    ensures var (t, waiting) := CloseAll(s, tps[..i]);
            && CloseAll(s, tps[..i + 1]) == (CloseOne(t, tps[i]), waiting + Found(t, tps[i]))
            && waiting + [] == waiting
            && (tps[i] in t.workers ==> t.workers[tps[i]] < |t.all| && t.all[t.workers[tps[i]]].closes == 0)
  {
    assert tps[..i + 1][..i] == tps[..i];
    CloseAllDoes(s, tps[..i]);
    var (t, waiting) := CloseAll(s, tps[..i]);
    ClosedKeepsMap(s, tps[..i], t, waiting);
  }

  lemma Replaced(s: State, w: nat, x: Worker)
    requires MapOk(s) && AllOk(s) && w < |s.all| && WorkerOk(x) && x.tp == s.all[w].tp && x.closes == s.all[w].closes
    ensures MapOk(s.(all := s.all[w := x])) && AllOk(s.(all := s.all[w := x]))
  {
  }

  /** The engine's methods, in the order the program runs them: the callbacks and dispatch share one
      mutex. all stands for the worker goroutines, which run on by themselves while a method waits. */
  class PartitionEngine {
    var workers: map<Tp, nat>
    var all: seq<Worker>

    constructor ()
      ensures workers == map[] && all == []
    {
      workers, all := map[], [];
    }

    function Seen(): State
      reads this
    {
      State(workers, all, Polling, Quiet)
    }

    method Assigned(tps: seq<Tp>)
      modifies this
      ensures Seen() == AssignAll(old(Seen()), tps)
    {
      var i := 0;
      while i < |tps|
        invariant i <= |tps| && Seen() == AssignAll(old(Seen()), tps[..i])
      {
        assert tps[..i + 1][..i] == tps[..i];
        workers, all := workers[tps[i] := |all|], all + [Started(tps[i])];
        i := i + 1;
      }
      assert tps[..i] == tps;
    }

    /** A second close would panic, so the caller must know that it is the first. */
    method CloseQuit(w: nat)
      requires w < |all| && all[w].closes == 0
      modifies this`all
      ensures all == old(all)[w := old(all[w]).(closes := 1)]
    {
      all := all[w := all[w].(closes := 1)];
    }

    /** Closes every quit under the mutex, then waits for the workers outside it. When it returns,
        every worker it closed has returned, having finished a prefix of what it was sent and at most
        one record since. */
    method Stop(tps: seq<Tp>, picks: nat -> bool)
      requires MapOk(Seen()) && AllOk(Seen())
      modifies this
      ensures MapOk(Seen()) && AllOk(Seen()) && |all| == |old(all)|
      ensures workers == CloseAll(old(Seen()), tps).0.workers
      ensures forall w :: 0 <= w < |all| && w !in CloseAll(old(Seen()), tps).1 ==> all[w] == old(all[w])
      ensures forall w :: w in CloseAll(old(Seen()), tps).1 ==>
                w < |all| && all[w].pc.Exited? && all[w].sent == old(all)[w].sent && old(all)[w].processed <= all[w].processed
    {
      hide CloseAll, WorkerOk;
      var stopped := CloseQuits(tps);
      CloseAllDoes(old(Seen()), tps);
      ClosedKeepsMap(old(Seen()), tps, Seen(), stopped);
      ClosedOk(old(Seen()), tps);
      AwaitAll(stopped, picks);
    }

    method CloseQuits(tps: seq<Tp>) returns (stopped: seq<nat>)
      requires MapOk(Seen())
      modifies this
      ensures (Seen(), stopped) == CloseAll(old(Seen()), tps)
    {
      assert CloseAll(Seen(), []) == (Seen(), []) && tps[..0] == [];
      stopped := [];
      hide CloseAll, MapOk;
      var i := 0;
      while i < |tps|
        invariant i <= |tps| && (Seen(), stopped) == CloseAll(old(Seen()), tps[..i])
      {
        CloseStep(old(Seen()), tps, i);
        if tps[i] in workers {
          var w := workers[tps[i]];
          CloseQuit(w);
          workers := workers - {tps[i]};
          stopped := stopped + [w];
        }
        i := i + 1;
      }
      assert tps[..i] == tps;
    }

    method AwaitAll(stopped: seq<nat>, picks: nat -> bool)
      requires AllOk(Seen()) && MapOk(Seen())
      requires forall w :: w in stopped ==> w < |all| && all[w].closes == 1
      modifies this`all
      ensures AllOk(Seen()) && MapOk(Seen()) && |all| == |old(all)|
      ensures forall w :: 0 <= w < |all| && w !in stopped ==> all[w] == old(all)[w]
      ensures forall w :: w in stopped ==>
                w < |all| && all[w].pc.Exited? && all[w].sent == old(all)[w].sent && old(all)[w].processed <= all[w].processed
    {
      hide MapOk;
      var i := 0;
      while i < |stopped|
        invariant i <= |stopped| && |all| == |old(all)| && AllOk(Seen()) && MapOk(Seen())
        invariant forall w :: 0 <= w < |all| && w !in stopped[..i] ==> all[w] == old(all)[w]
        invariant forall w :: w in stopped[..i] ==>
                    w < |all| && all[w].pc.Exited? && all[w].sent == old(all)[w].sent && old(all)[w].processed <= all[w].processed
        invariant forall w :: w in stopped ==> w < |all| && all[w].closes == 1
      {
        assert stopped[i] in stopped;
        assert WorkerOk(all[stopped[i]]);
        var x := Await(all[stopped[i]], picks);
        Replaced(Seen(), stopped[i], x);
        all := all[stopped[i] := x];
        assert stopped[..i + 1] == stopped[..i] + [stopped[i]];
        i := i + 1;
      }
    }

    /** The worker's loop, on the batches that come out of its channel while it runs. looks says what it
        sees each time it looks at quit: in its select, and before every record. It processes in order,
        and returns at the first look that finds quit closed. */
    static method Run(batches: seq<seq<nat>>, looks: nat -> bool) returns (processed: seq<nat>, looked: nat)
      ensures processed <= Flat(batches)
      ensures forall k :: 0 <= k < looked - 1 ==> !looks(k)
      ensures processed == Flat(batches) || (0 < looked && looks(looked - 1))
      ensures looked - |batches| - 1 <= |processed| <= looked
    {
      processed, looked := [], 0;
      var i := 0;
      assert batches[0..] == batches;
      hide Flat;
      while i < |batches|
        invariant i <= |batches| && Flat(batches) == processed + Flat(batches[i..]) && looked == |processed| + i
        invariant forall k :: 0 <= k < looked ==> !looks(k)
      {
        looked := looked + 1;
        if looks(looked - 1) {
          return;
        }
        var records := batches[i];
        FlatFrom(batches, i);
        assert records[0..] == records;
        var j := 0;
        while j < |records|
          invariant j <= |records| && Flat(batches) == processed + (records[j..] + Flat(batches[i + 1..]))
          invariant looked == |processed| + i + 1
          invariant forall k :: 0 <= k < looked ==> !looks(k)
        {
          looked := looked + 1;
          if looks(looked - 1) {
            return;
          }
          OneMoreDone(Flat(batches), processed, records, j, Flat(batches[i + 1..]));
          processed := processed + [records[j]];
          j := j + 1;
        }
        assert records[j..] + Flat(batches[i + 1..]) == Flat(batches[i + 1..]);
        i := i + 1;
      }
      FlatNone();
      assert batches[i..] == [];
    }

    /** A worker whose quit is closed, running until it returns. In its select it may pick the channel
        although quit is closed too; picks says which. */
    static method Await(x: Worker, picks: nat -> bool) returns (y: Worker)
      requires WorkerOk(x) && x.closes == 1
      ensures WorkerOk(y) && y.pc.Exited? && y.tp == x.tp && y.closes == 1 && y.sent == x.sent && x.processed <= y.processed
      ensures |y.processed| <= |x.processed| + 1
    {
      y := x;
      while !y.pc.Exited?
        invariant WorkerOk(y) && y.tp == x.tp && y.closes == 1 && y.sent == x.sent && x.processed <= y.processed
        invariant |y.processed| <= |x.processed| + if StepsLeft(y) < 3 then 1 else 0
        decreases StepsLeft(y)
      {
        var step :=
          if y.pc.Waiting? && y.queue != [] && picks(StepsLeft(y)) then Take(0)
          else if y.pc.Waiting? then SeeQuit(0)
          else if y.pc.AtCheck? then Check(0)
          else Done(0);
        WorkerStepKeeps(y, step);
        y := WorkerStep(y, step);
      }
    }

    /** Hands every batch to the worker of its partition, in order; what has no worker is dropped, and
        a worker whose quit is closed is left alone. */
    method Dispatch(fetches: seq<Fetch>)
      requires MapOk(Seen()) && AllOk(Seen())
      modifies this`all
      ensures MapOk(Seen()) && AllOk(Seen()) && HandedOut(workers, old(all), all, fetches)
    {
      var i := 0;
      assert HandedOut(workers, all, all, fetches[..i]);
      hide MapOk, AllOk, HandedOut;
      while i < |fetches|
        invariant i <= |fetches| && MapOk(Seen()) && AllOk(Seen()) && HandedOut(workers, old(all), all, fetches[..i])
      {
        ghost var before := all;
        DispatchOne(fetches[i]);
        OneMoreHandedOut(workers, old(all), before, all, fetches[..i], fetches[i]);
        assert fetches[..i + 1] == fetches[..i] + [fetches[i]];
        i := i + 1;
      }
      assert fetches[..i] == fetches;
    }

    method DispatchOne(f: Fetch)
      requires MapOk(Seen()) && AllOk(Seen())
      modifies this`all
      ensures MapOk(Seen()) && AllOk(Seen()) && HandedOut(workers, old(all), all, [f])
    {
      forall tp ensures Addressed([f], tp) == if tp == f.tp then f.records else [] {
        AddressedOne(f, tp);
      }
      if f.records != [] && f.tp in workers {
        var w := workers[f.tp];
        assert WorkerOk(all[w]);
        hide WorkerOk;
        var x := MakeRoom(all[w]);
        BatchSent(x, f.records);
        x := x.(queue := x.queue + [f.records], sent := x.sent + f.records);
        Replaced(Seen(), w, x);
        all := all[w := x];
      }
    }

    /** A send into a full channel waits until the worker has taken a batch out of it. */
    static method MakeRoom(x: Worker) returns (y: Worker)
      requires WorkerOk(x) && x.closes == 0
      ensures WorkerOk(y) && y.tp == x.tp && y.closes == 0 && y.sent == x.sent && x.processed <= y.processed
      ensures |y.queue| < CAPACITY
    {
      y := x;
      while |y.queue| == CAPACITY
        invariant WorkerOk(y) && y.tp == x.tp && y.closes == 0 && y.sent == x.sent && x.processed <= y.processed
        decreases |y.queue|, |Rest(y.pc)|, y.pc.AtCheck?
      {
        var step := if y.pc.Waiting? then Take(0) else if y.pc.AtCheck? then Check(0) else Done(0);
        WorkerStepKeeps(y, step);
        y := WorkerStep(y, step);
      }
    }

    /** Collects the partitions of the map under the mutex, then stops them all. */
    method StopAll(picks: nat -> bool)
      requires MapOk(Seen()) && AllOk(Seen())
      modifies this
      ensures workers == map[] && AllOk(Seen()) && |all| == |old(all)|
      ensures forall tp :: tp in old(workers) ==> all[old(workers)[tp]].pc.Exited?
    {
      var keys: seq<Tp> := [];
      var rest := workers.Keys;
      while rest != {}
        invariant rest <= workers.Keys && forall tp :: tp in workers <==> tp in keys || tp in rest
        decreases |rest|
      {
        var tp :| tp in rest;
        keys := keys + [tp];
        rest := rest - {tp};
      }
      CloseAllDoes(Seen(), keys);
      Stop(keys, picks);
      assert workers.Keys == {};
    }
  }
}
