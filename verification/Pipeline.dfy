/** The event pipeline as one transition system: outbox rows, relays that select them with SKIP
    LOCKED, topic partitions with cumulative offset commits, consumer sessions that crash and start
    again, retry and dead-letter publishes that may fail, and the marks of processed events. */
module Pipeline {
  import opened Wrappers
  import Outbox

  datatype Kind = Source | Retry | Dlq

  /** A stored record: which event it carries, and when it was stored. */
  datatype Rec = Rec(event: nat, stamp: nat)

  /** A consumer's hold on a partition. next is the record being worked on; finishing means its work
      is done and its offset is about to be committed. doubted means that some record of this
      session was left after a publish the broker did not acknowledge, or after a wait cut short;
      dropped, that some such record has in fact neither been applied nor stored anywhere else. */
  datatype Session = Down | Up(next: nat, finishing: bool, doubted: bool, dropped: bool)

  /** settled is bookkeeping: the positions whose event has been applied or stored again. */
  datatype Part = Part(kind: Kind, log: seq<Rec>, committed: nat, session: Session, settled: set<nat>)

  datatype Row = Row(event: nat, published: bool, holder: Option<nat>)

  datatype Relay = Idle | Batch(rows: seq<nat>, at: nat, acked: set<nat>)

  /** marks are the processed_events; effects, the business changes committed, in order. */
  datatype Sys = Sys(rows: seq<Row>, relays: seq<Relay>, parts: seq<Part>, clock: nat, marks: set<nat>, effects: seq<nat>)

  datatype Step =
    | Insert(event: nat)
    | Select(relay: nat, limit: nat)
    | Publish(relay: nat, part: nat, ack: Ack)
    | Mark(relay: nat)
    | Abort(relay: nat)
    | Assign(part: nat)
    | Stop(part: nat)
    | Apply(part: nat, reported: bool)
    | Send(part: nat, to: nat, ack: Ack)
    | CutShort(part: nat)
    | Commit(part: nat, ok: bool)

  // ---------- Steps ----------

  predicate Free(row: Row) {
    !row.published && row.holder == None
  }

  /** What SKIP LOCKED hands to one relay: the first unpublished rows nobody holds. */
  function Pick(rows: seq<Row>, limit: nat): seq<nat> {
    Outbox.FirstFree(rows, Free, 0, limit)
  }

  /** Every row in held is given to the holder, or back. */
  function Hold(rows: seq<Row>, held: seq<nat>, holder: Option<nat>): (out: seq<Row>)
    ensures |out| == |rows|
    ensures forall r :: 0 <= r < |rows| ==> out[r] == if r in held then rows[r].(holder := holder) else rows[r]
  {
    seq(|rows|, r requires 0 <= r < |rows| => if r in held then rows[r].(holder := holder) else rows[r])
  }

  function MarkPublished(rows: seq<Row>, acked: set<nat>): (out: seq<Row>)
    ensures |out| == |rows|
    ensures forall r :: 0 <= r < |rows| ==> out[r] == if r in acked then rows[r].(published := true) else rows[r]
  {
    seq(|rows|, r requires 0 <= r < |rows| => if r in acked then rows[r].(published := true) else rows[r])
  }

  function Stored(s: Sys, to: nat, event: nat, ack: Ack): Sys
    requires to < |s.parts|
  {
    if ack.Lost? then s
    else s.(parts := s.parts[to := s.parts[to].(log := s.parts[to].log + [Rec(event, s.clock)])], clock := s.clock + 1)
  }

  /** Consumers of the source send on to the retry topic or the dead letter queue; the retry consumer
      does the same; the reprocessing tool reads the dead letter queue and writes to the source. */
  predicate Route(from: Kind, to: Kind) {
    if from == Dlq then to == Source else to != Source
  }

  predicate Working(p: Part) {
    p.session.Up? && !p.session.finishing && p.session.next < |p.log|
  }

  predicate Enabled(s: Sys, step: Step) {
    match step
    case Insert(_) => true
    case Select(i, limit) => i < |s.relays| && s.relays[i].Idle?
    case Publish(i, p, _) =>
      && i < |s.relays| && s.relays[i].Batch? && s.relays[i].at < |s.relays[i].rows|
      && s.relays[i].rows[s.relays[i].at] < |s.rows|
      && p < |s.parts| && s.parts[p].kind == Source
    case Mark(i) =>
      && i < |s.relays| && s.relays[i].Batch? && s.relays[i].at == |s.relays[i].rows|
      && s.relays[i].acked != {}
    case Abort(i) => i < |s.relays| && s.relays[i].Batch?
    case Assign(p) => p < |s.parts| && s.parts[p].session.Down?
    case Stop(p) => p < |s.parts| && s.parts[p].session.Up?
    case Apply(p, _) => p < |s.parts| && Working(s.parts[p]) && s.parts[p].kind != Dlq
    case Send(p, to, _) =>
      p < |s.parts| && Working(s.parts[p]) && to < |s.parts| && Route(s.parts[p].kind, s.parts[to].kind)
    case CutShort(p) => p < |s.parts| && Working(s.parts[p]) && s.parts[p].kind == Retry
    case Commit(p, _) => p < |s.parts| && s.parts[p].session.Up? && s.parts[p].session.finishing
  }

  /** The work on the current record is done. */
  function Finished(p: Part): Part
    requires p.session.Up?
  {
    p.(session := p.session.(finishing := true), settled := p.settled + {p.session.next})
  }

  /** The current record is left uncommitted, and the session goes on with the next one; the
      reprocessing tool stops instead. */
  function Left(p: Part, stored: bool): Part
    requires p.session.Up?
  {
    var settled := if stored then p.settled + {p.session.next} else p.settled;
    p.(settled := settled,
       session := if p.kind == Dlq then Down
                  else Up(p.session.next + 1, false, true, p.session.dropped || p.session.next !in settled))
  }

  function Do(s: Sys, step: Step): Sys
    requires Enabled(s, step)
  {
    match step
    case Insert(event) => s.(rows := s.rows + [Row(event, false, None)])
    case Select(i, limit) =>
      var picked := Pick(s.rows, limit);
      s.(rows := Hold(s.rows, picked, Some(i)), relays := s.relays[i := Batch(picked, 0, {})])
    case Publish(i, p, ack) =>
      var r := s.relays[i];
      var acked := if ack.Acked? then r.acked + {r.rows[r.at]} else r.acked;
      Stored(s, p, s.rows[r.rows[r.at]].event, ack).(relays := s.relays[i := r.(at := r.at + 1, acked := acked)])
    case Mark(i) =>
      s.(rows := Hold(MarkPublished(s.rows, s.relays[i].acked), s.relays[i].rows, None), relays := s.relays[i := Idle])
    case Abort(i) => s.(rows := Hold(s.rows, s.relays[i].rows, None), relays := s.relays[i := Idle])
    case Assign(p) => s.(parts := s.parts[p := s.parts[p].(session := Up(s.parts[p].committed, false, false, false))])
    case Stop(p) => s.(parts := s.parts[p := s.parts[p].(session := Down)])
    case Apply(p, reported) =>
      var event := s.parts[p].log[s.parts[p].session.next].event;
      s.(marks := s.marks + {event},
         effects := if event in s.marks then s.effects else s.effects + [event],
         parts := if reported then s.parts[p := Finished(s.parts[p])] else s.parts)
    case Send(p, to, ack) =>
      var event := s.parts[p].log[s.parts[p].session.next].event;
      var s1 := Stored(s, to, event, ack);
      s1.(parts := s1.parts[p := if ack.Acked? then Finished(s1.parts[p]) else Left(s1.parts[p], !ack.Lost?)])
    case CutShort(p) => s.(parts := s.parts[p := Left(s.parts[p], false)])
    case Commit(p, ok) =>
      var part := s.parts[p];
      s.(parts := s.parts[p := part.(committed := if ok then part.session.next + 1 else part.committed,
                                     session := part.session.(next := part.session.next + 1, finishing := false))])
  }

  /** A run: any steps in any order; one that is not enabled does nothing. */
  function Execute(s: Sys, steps: seq<Step>): Sys
    decreases |steps|
  {
    if steps == [] then s
    else Execute(if Enabled(s, steps[0]) then Do(s, steps[0]) else s, steps[1..])
  }

  predicate Initial(s: Sys) {
    && s.rows == [] && s.marks == {} && s.effects == []
    && (forall i :: 0 <= i < |s.relays| ==> s.relays[i] == Idle)
    && (forall p :: 0 <= p < |s.parts| ==> s.parts[p] == Part(s.parts[p].kind, [], 0, Down, {}))
  }

  // ---------- What every step keeps ----------

  /** One partition: the session is at or past the committed offset, and unless it dropped something,
      everything from there to where it is now is settled. */
  ghost predicate PartOk(p: Part) {
    && p.committed <= |p.log|
    && (forall k :: k in p.settled ==> k < |p.log|)
    && (p.session.Up? ==>
          && p.committed <= p.session.next <= |p.log|
          && (p.session.finishing ==> p.session.next < |p.log| && p.session.next in p.settled)
          && (p.session.dropped ==> p.session.doubted && exists k: nat :: k < p.session.next && k !in p.settled)
          && (!p.session.dropped ==> forall k: nat :: p.committed <= k < p.session.next ==> k in p.settled))
  }

  ghost predicate PartsOk(s: Sys) {
    forall p :: 0 <= p < |s.parts| ==> PartOk(s.parts[p])
  }

  /** Some stored record carries the event and is at least this young. */
  ghost predicate Copied(s: Sys, event: nat, since: nat) {
    exists p: nat, k: nat :: p < |s.parts| && k < |s.parts[p].log| && Carries(s.parts[p].log[k], event, since)
  }

  predicate Carries(rec: Rec, event: nat, since: nat) {
    rec.event == event && since <= rec.stamp
  }

  /** A settled record's event has been applied, or stored again later. */
  ghost predicate SettledIsSafe(s: Sys) {
    forall p, k :: 0 <= p < |s.parts| && k in s.parts[p].settled && k < |s.parts[p].log| ==>
      s.parts[p].log[k].event in s.marks || Copied(s, s.parts[p].log[k].event, s.parts[p].log[k].stamp + 1)
  }

  ghost predicate StampsOk(s: Sys) {
    forall p, k :: 0 <= p < |s.parts| && 0 <= k < |s.parts[p].log| ==> s.parts[p].log[k].stamp < s.clock
  }

  ghost predicate PublishedIsStored(s: Sys) {
    forall r :: 0 <= r < |s.rows| && s.rows[r].published ==> Copied(s, s.rows[r].event, 0)
  }

  /** A row is held by a relay exactly when it is in that relay's batch; it is then unpublished. */
  ghost predicate Held(s: Sys) {
    forall i, r {:trigger r in s.relays[i].rows} :: 0 <= i < |s.relays| && s.relays[i].Batch? && r in s.relays[i].rows ==>
      r < |s.rows| && s.rows[r].holder == Some(i) && !s.rows[r].published
  }

  ghost predicate Holders(s: Sys) {
    forall r :: 0 <= r < |s.rows| && s.rows[r].holder.Some? ==>
      s.rows[r].holder.value < |s.relays| && s.relays[s.rows[r].holder.value].Batch? && r in s.relays[s.rows[r].holder.value].rows
  }

  ghost predicate LocksOk(s: Sys) {
    Held(s) && Holders(s)
  }

  ghost predicate AckedIsStored(s: Sys) {
    forall i, r {:trigger r in s.relays[i].acked} :: 0 <= i < |s.relays| && s.relays[i].Batch? && r in s.relays[i].acked ==>
      r in s.relays[i].rows && r < |s.rows| && Copied(s, s.rows[r].event, 0)
  }

  function Count(effects: seq<nat>, event: nat): nat {
    if effects == [] then 0
    else Count(effects[..|effects| - 1], event) + if effects[|effects| - 1] == event then 1 else 0
  }

  ghost predicate EffectsOk(s: Sys) {
    forall event :: Count(s.effects, event) == if event in s.marks then 1 else 0
  }

  ghost predicate SysOk(s: Sys) {
    PartsOk(s) && SettledIsSafe(s) && StampsOk(s) && PublishedIsStored(s) && LocksOk(s) && AckedIsStored(s) && EffectsOk(s)
  }

  /** No committed offset has passed a record that was neither applied nor stored again. */
  ghost predicate Lossless(s: Sys) {
    forall p, k :: 0 <= p < |s.parts| && 0 <= k < s.parts[p].committed ==> k in s.parts[p].settled
  }

  // ---------- Step by step ----------

  /** Logs and marks only grow, and the clock does not go back. */
  ghost predicate Grows(s: Sys, t: Sys) {
    && |t.parts| == |s.parts| && s.marks <= t.marks && s.clock <= t.clock
    && (forall p :: 0 <= p < |s.parts| ==> s.parts[p].log <= t.parts[p].log)
  }

  lemma DoGrows(s: Sys, step: Step)
    requires Enabled(s, step)
    ensures Grows(s, Do(s, step))
  {
  }

  lemma CopyStays(s: Sys, t: Sys, event: nat, since: nat)
    requires Grows(s, t) && Copied(s, event, since)
    ensures Copied(t, event, since)
  {
  }

  lemma StoredIsCopy(s: Sys, to: nat, event: nat, ack: Ack, since: nat)
    requires to < |s.parts| && !ack.Lost? && since <= s.clock
    ensures Copied(Stored(s, to, event, ack), event, since)
  {
    var t := Stored(s, to, event, ack);
    assert Carries(t.parts[to].log[|s.parts[to].log|], event, since);
  }

  lemma PartsKept(s: Sys, step: Step)
    requires Enabled(s, step) && PartsOk(s)
    ensures PartsOk(Do(s, step))
  {
    var t := Do(s, step);
    forall p | 0 <= p < |t.parts| ensures PartOk(t.parts[p]) {
      assert PartOk(s.parts[p]);
      PartKept(s, step, p);
    }
  }

  lemma PartKept(s: Sys, step: Step, p: nat)
    requires Enabled(s, step) && p < |s.parts| && PartOk(s.parts[p])
    ensures PartOk(Do(s, step).parts[p])
  {
    var part := s.parts[p];
    hide PartOk, Finished, Left;
    match step
    case Publish(_, q, _) =>
      if q == p { StoreKeeps(part, Rec(s.rows[s.relays[step.relay].rows[s.relays[step.relay].at]].event, s.clock)); }
    case Assign(q) => SessionKeeps(part);
    case Stop(q) => SessionKeeps(part);
    case Apply(q, _) =>
      if q == p { FinishKeeps(part); }
    case Send(q, to, ack) =>
      var rec := Rec(s.parts[q].log[s.parts[q].session.next].event, s.clock);
      StoreKeeps(part, rec);
      if q == p {
        var stored := if to == p && !ack.Lost? then part.(log := part.log + [rec]) else part;
        FinishKeeps(stored);
        LeaveKeeps(stored, !ack.Lost?);
      }
    case CutShort(q) =>
      if q == p { LeaveKeeps(part, false); }
    case Commit(q, ok) =>
      if q == p { CommitKeeps(part, ok); }
    case _ =>
  }

  lemma StoreKeeps(p: Part, rec: Rec)
    requires PartOk(p)
    ensures PartOk(p.(log := p.log + [rec]))
  {
  }

  lemma SessionKeeps(p: Part)
    requires PartOk(p)
    ensures PartOk(p.(session := Down)) && PartOk(p.(session := Up(p.committed, false, false, false)))
  {
  }

  lemma FinishKeeps(p: Part)
    requires PartOk(p) && Working(p)
    ensures PartOk(Finished(p))
  {
    if p.session.dropped {
      var k: nat :| k < p.session.next && k !in p.settled;
      assert k !in Finished(p).settled;
    }
  }

  lemma LeaveKeeps(p: Part, stored: bool)
    requires PartOk(p) && Working(p)
    ensures PartOk(Left(p, stored))
  {
    var after := Left(p, stored);
    if after.session.Up? && p.session.dropped {
      var k: nat :| k < p.session.next && k !in p.settled;
      assert k < after.session.next && k !in after.settled;
    } else if after.session.Up? && after.session.dropped {
      assert p.session.next < after.session.next && p.session.next !in after.settled;
    }
  }

  lemma CommitKeeps(p: Part, ok: bool)
    requires PartOk(p) && p.session.Up? && p.session.finishing
    ensures PartOk(p.(committed := if ok then p.session.next + 1 else p.committed,
                      session := p.session.(next := p.session.next + 1, finishing := false)))
  {
    if p.session.dropped {
      var k: nat :| k < p.session.next && k !in p.settled;
      assert k < p.session.next + 1;
    }
  }

  /** The relay notes a row for marking if and only if its publish was acknowledged, and goes on to the next
      either way; what was not lost is in the topic. */
  lemma NotedIfAcked(s: Sys, i: nat, p: nat, ack: Ack)
    requires Enabled(s, Publish(i, p, ack))
    ensures var r, t := s.relays[i], Do(s, Publish(i, p, ack));
            && t.relays[i] == Batch(r.rows, r.at + 1, if ack.Acked? then r.acked + {r.rows[r.at]} else r.acked)
            && |t.parts[p].log| == |s.parts[p].log| + (if ack.Lost? then 0 else 1)
            && (!ack.Lost? ==> t.parts[p].log[|s.parts[p].log|].event == s.rows[r.rows[r.at]].event)
  {
  }

  /** A wait that is cut short leaves its record behind, unsettled unless it was settled before, and the
      session goes on with the next one, doubtful from then on. */
  lemma CutShortSkips(s: Sys, p: nat)
    requires p < |s.parts| && Working(s.parts[p]) && s.parts[p].kind == Retry
    ensures Enabled(s, CutShort(p))
    ensures var before, after := s.parts[p], Do(s, CutShort(p)).parts[p];
            && after.log == before.log && after.committed == before.committed && after.settled == before.settled
            && after.session.Up? && after.session.next == before.session.next + 1 && !after.session.finishing && after.session.doubted
            && (after.session.dropped <==> before.session.dropped || before.session.next !in before.settled)
  {
  }

  lemma StampsKept(s: Sys, step: Step)
    requires Enabled(s, step) && StampsOk(s)
    ensures StampsOk(Do(s, step))
  {
  }

  lemma SettledKept(s: Sys, step: Step)
    requires Enabled(s, step) && PartsOk(s) && StampsOk(s) && SettledIsSafe(s)
    ensures SettledIsSafe(Do(s, step))
  {
    var t := Do(s, step);
    DoGrows(s, step);
    forall p, k | 0 <= p < |t.parts| && k in t.parts[p].settled && k < |t.parts[p].log|
      ensures t.parts[p].log[k].event in t.marks || Copied(t, t.parts[p].log[k].event, t.parts[p].log[k].stamp + 1)
    {
      assert PartOk(s.parts[p]);
      if k in s.parts[p].settled {
        var rec := s.parts[p].log[k];
        if rec.event !in s.marks {
          CopyStays(s, t, rec.event, rec.stamp + 1);
        }
      } else {
        NewlySettled(s, step, p, k);
      }
    }
  }

  /** A position becomes settled when its event has just been applied, or its copy just stored. */
  lemma NewlySettled(s: Sys, step: Step, p: nat, k: nat)
    requires Enabled(s, step) && StampsOk(s) && p < |s.parts| && k !in s.parts[p].settled
    requires k in Do(s, step).parts[p].settled && k < |Do(s, step).parts[p].log|
    ensures var t := Do(s, step);
            t.parts[p].log[k].event in t.marks || Copied(t, t.parts[p].log[k].event, t.parts[p].log[k].stamp + 1)
  {
    var t := Do(s, step);
    if step.Send? {
      var rec := s.parts[p].log[k];
      var s1 := Stored(s, step.to, rec.event, step.ack);
      StoredIsCopy(s, step.to, rec.event, step.ack, rec.stamp + 1);
      assert Grows(s1, t);
      CopyStays(s1, t, rec.event, rec.stamp + 1);
    }
  }

  lemma PublishedKept(s: Sys, step: Step)
    requires Enabled(s, step) && PublishedIsStored(s) && AckedIsStored(s)
    ensures PublishedIsStored(Do(s, step))
  {
    var t := Do(s, step);
    DoGrows(s, step);
    forall r | 0 <= r < |t.rows| && t.rows[r].published ensures Copied(t, t.rows[r].event, 0) {
      assert Copied(s, s.rows[r].event, 0);
      CopyStays(s, t, s.rows[r].event, 0);
    }
  }

  lemma HeldKept(s: Sys, step: Step)
    requires Enabled(s, step) && LocksOk(s) && AckedIsStored(s)
    ensures Held(Do(s, step))
  {
  }

  lemma HoldersKept(s: Sys, step: Step)
    requires Enabled(s, step) && LocksOk(s)
    ensures Holders(Do(s, step))
  {
  }

  lemma AckedKept(s: Sys, step: Step)
    requires Enabled(s, step) && LocksOk(s) && AckedIsStored(s)
    ensures AckedIsStored(Do(s, step))
  {
    var t := Do(s, step);
    DoGrows(s, step);
    forall i, r | 0 <= i < |t.relays| && t.relays[i].Batch? && r in t.relays[i].acked
      ensures r in t.relays[i].rows && r < |t.rows| && Copied(t, t.rows[r].event, 0)
    {
      if s.relays[i].Batch? && r in s.relays[i].acked {
        CopyStays(s, t, s.rows[r].event, 0);
      } else {
        NewlyAcked(s, step, i, r);
      }
    }
  }

  lemma NewlyAcked(s: Sys, step: Step, i: nat, r: nat)
    requires Enabled(s, step) && i < |s.relays| && !(s.relays[i].Batch? && r in s.relays[i].acked)
    requires Do(s, step).relays[i].Batch? && r in Do(s, step).relays[i].acked
    ensures var t := Do(s, step); r in t.relays[i].rows && r < |t.rows| && Copied(t, t.rows[r].event, 0)
  {
    var t := Do(s, step);
    var s1 := Stored(s, step.part, s.rows[r].event, step.ack);
    StoredIsCopy(s, step.part, s.rows[r].event, step.ack, 0);
    assert Grows(s1, t);
    CopyStays(s1, t, s.rows[r].event, 0);
  }

  lemma EffectsKept(s: Sys, step: Step)
    requires Enabled(s, step) && EffectsOk(s)
    ensures EffectsOk(Do(s, step))
  {
  }

  lemma DoKeeps(s: Sys, step: Step)
    requires Enabled(s, step) && SysOk(s)
    ensures SysOk(Do(s, step))
  {
    hide Do, PartsOk, SettledIsSafe, StampsOk, PublishedIsStored, Held, Holders, AckedIsStored, EffectsOk;
    PartsKept(s, step);
    SettledKept(s, step);
    StampsKept(s, step);
    PublishedKept(s, step);
    HeldKept(s, step);
    HoldersKept(s, step);
    assert LocksOk(Do(s, step));
    AckedKept(s, step);
    EffectsKept(s, step);
  }

  lemma InitialIsOk(s: Sys)
    requires Initial(s)
    ensures SysOk(s) && Lossless(s)
  {
  }

  lemma {:induction false} ExecuteKeeps(s: Sys, steps: seq<Step>)
    requires SysOk(s)
    ensures SysOk(Execute(s, steps))
    decreases |steps|
  {
    hide SysOk;
    if steps != [] {
      if Enabled(s, steps[0]) {
        DoKeeps(s, steps[0]);
        ExecuteKeeps(Do(s, steps[0]), steps[1..]);
      } else {
        ExecuteKeeps(s, steps[1..]);
      }
    }
  }

  // ---------- Exactly when a record is lost ----------

  /** The commit of a later record of a session that has dropped one. */
  predicate PassesDropped(s: Sys, step: Step) {
    step.Commit? && step.ok && Enabled(s, step) && s.parts[step.part].session.dropped
  }

  /** What the consumer itself could see: a commit in a session that has left a record behind. */
  predicate PassesDoubted(s: Sys, step: Step) {
    step.Commit? && step.ok && Enabled(s, step) && s.parts[step.part].session.doubted
  }

  predicate Somewhere(s: Sys, steps: seq<Step>, bad: (Sys, Step) -> bool)
    decreases |steps|
  {
    steps != [] && (bad(s, steps[0]) || Somewhere(if Enabled(s, steps[0]) then Do(s, steps[0]) else s, steps[1..], bad))
  }

  lemma DoLossless(s: Sys, step: Step)
    requires Enabled(s, step) && PartsOk(s) && Lossless(s)
    ensures Lossless(Do(s, step)) <==> !PassesDropped(s, step)
  {
    var t := Do(s, step);
    if PassesDropped(s, step) {
      var p := step.part;
      assert PartOk(s.parts[p]);
      var k: nat :| k < s.parts[p].session.next && k !in s.parts[p].settled;
      assert k < t.parts[p].committed && k !in t.parts[p].settled;
    } else {
      forall p, k | 0 <= p < |t.parts| && 0 <= k < t.parts[p].committed ensures k in t.parts[p].settled {
        assert PartOk(s.parts[p]);
        assert k < s.parts[p].committed ==> k in s.parts[p].settled;
      }
    }
  }

  /** A lost record stays lost: its offset is behind, and nobody is going to read it again. */
  lemma DoStaysLossy(s: Sys, step: Step)
    requires Enabled(s, step) && PartsOk(s) && !Lossless(s)
    ensures !Lossless(Do(s, step))
  {
    var t := Do(s, step);
    var p: nat, k: nat :| p < |s.parts| && k < s.parts[p].committed && k !in s.parts[p].settled;
    assert PartOk(s.parts[p]);
    assert k < t.parts[p].committed && k !in t.parts[p].settled;
  }

  /** The end of a run has lost nothing if and only if the run started so and at no point of it an
      offset was committed in a session that had dropped a record. */
  lemma {:induction false} LosslessIff(s: Sys, steps: seq<Step>)
    requires SysOk(s)
    ensures Lossless(Execute(s, steps)) <==> Lossless(s) && !Somewhere(s, steps, PassesDropped)
    decreases |steps|
  {
    if steps != [] {
      if Enabled(s, steps[0]) {
        DoKeeps(s, steps[0]);
        if Lossless(s) {
          DoLossless(s, steps[0]);
        } else {
          DoStaysLossy(s, steps[0]);
        }
        LosslessIff(Do(s, steps[0]), steps[1..]);
      } else {
        LosslessIff(s, steps[1..]);
      }
    }
  }

  /** A consumer that commits nothing more after an unacknowledged publish or a wait cut short, until
      its next session, is enough. */
  lemma {:induction false} CarefulIsLossless(s: Sys, steps: seq<Step>)
    requires SysOk(s) && Lossless(s) && !Somewhere(s, steps, PassesDoubted)
    ensures Lossless(Execute(s, steps))
  {
    CarefulDropsNothing(s, steps);
    LosslessIff(s, steps);
  }

  lemma {:induction false} CarefulDropsNothing(s: Sys, steps: seq<Step>)
    requires SysOk(s) && !Somewhere(s, steps, PassesDoubted)
    ensures !Somewhere(s, steps, PassesDropped)
    decreases |steps|
  {
    if steps != [] {
      if Enabled(s, steps[0]) {
        DoKeeps(s, steps[0]);
        CarefulDropsNothing(Do(s, steps[0]), steps[1..]);
      } else {
        CarefulDropsNothing(s, steps[1..]);
      }
    }
  }

  // ---------- Nothing vanishes ----------

  /** The event lies at or beyond the committed offset of some partition: of the source or the retry
      topic, or of the dead letter queue. */
  ghost predicate Ahead(s: Sys, event: nat) {
    exists p: nat, k: nat :: p < |s.parts| && s.parts[p].committed <= k < |s.parts[p].log| && Carries(s.parts[p].log[k], event, 0)
  }

  lemma {:induction false} CopyIsSafe(s: Sys, event: nat, since: nat)
    requires SysOk(s) && Lossless(s) && Copied(s, event, since)
    ensures event in s.marks || Ahead(s, event)
    decreases s.clock - since
  {
    var p: nat, k: nat :| p < |s.parts| && k < |s.parts[p].log| && Carries(s.parts[p].log[k], event, since);
    assert PartOk(s.parts[p]);
    if k < s.parts[p].committed {
      assert k in s.parts[p].settled;
      if event !in s.marks {
        CopyIsSafe(s, event, s.parts[p].log[k].stamp + 1);
      }
    } else {
      assert Carries(s.parts[p].log[k], event, 0);
    }
  }

  /** In every reachable state that has lost no record, every event of the outbox is still to be
      published, or still to be read, or applied. */
  lemma NothingVanishes(s: Sys, steps: seq<Step>, r: nat)
    requires Initial(s) && r < |Execute(s, steps).rows| && !Somewhere(s, steps, PassesDropped)
    ensures var t := Execute(s, steps);
            !t.rows[r].published || Ahead(t, t.rows[r].event) || t.rows[r].event in t.marks
  {
    InitialIsOk(s);
    ExecuteKeeps(s, steps);
    LosslessIff(s, steps);
    var t := Execute(s, steps);
    if t.rows[r].published {
      CopyIsSafe(t, t.rows[r].event, 0);
    }
  }

  /** Every row is published and every log is read to its end. */
  ghost predicate Drained(s: Sys) {
    && (forall r :: 0 <= r < |s.rows| ==> s.rows[r].published)
    && (forall p :: 0 <= p < |s.parts| ==> s.parts[p].committed == |s.parts[p].log|)
  }

  /** At least once and at most once: when a run that dropped nothing has drained, every event of the
      outbox has had its effect exactly once. */
  lemma DrainedIsExactlyOnce(s: Sys, steps: seq<Step>, r: nat)
    requires Initial(s) && r < |Execute(s, steps).rows| && !Somewhere(s, steps, PassesDropped)
    requires Drained(Execute(s, steps))
    ensures var t := Execute(s, steps); Count(t.effects, t.rows[r].event) == 1
  {
    InitialIsOk(s);
    ExecuteKeeps(s, steps);
    NothingVanishes(s, steps, r);
  }

  /** However often an event is delivered, its effect is committed if and only if its mark is, and
      then once; a loss does not change that. */
  lemma EffectAtMostOnce(s: Sys, steps: seq<Step>, event: nat)
    requires Initial(s)
    ensures var t := Execute(s, steps); Count(t.effects, event) == if event in t.marks then 1 else 0
  {
    InitialIsOk(s);
    ExecuteKeeps(s, steps);
  }

  /** Two relays never hold the same row. */
  lemma BatchesAreDisjoint(s: Sys, steps: seq<Step>, i: nat, j: nat)
    requires Initial(s) && i < j < |Execute(s, steps).relays|
    ensures var t := Execute(s, steps);
            t.relays[i].Batch? && t.relays[j].Batch? ==> forall r :: !(r in t.relays[i].rows && r in t.relays[j].rows)
  {
    InitialIsOk(s);
    ExecuteKeeps(s, steps);
  }

  // ---------- And a run that loses one ----------

  function Topics(log: seq<Rec>, committed: nat, session: Session, settled: set<nat>): seq<Part> {
    [Part(Source, log, committed, session, settled), Part(Retry, [], 0, Down, {})]
  }

  const BOTH_PUBLISHED := [Row(7, true, None), Row(8, true, None)]
  const BOTH := [Rec(7, 0), Rec(8, 1)]
  const LOSING_START := Sys([], [Idle], Topics([], 0, Down, {}), 0, {}, [])
  const LOSING_END := Sys(BOTH_PUBLISHED, [Idle], Topics(BOTH, 2, Up(2, false, true, true), {1}), 2, {8}, [8])

  /** Two events; the first cannot be applied and its publish to the retry topic is lost; the worker
      goes on, applies the second, and commits its offset. */
  const LOSING_RUN := [
    Insert(7), Insert(8), Select(0, 100), Publish(0, 0, Acked), Publish(0, 0, Acked), Mark(0),
    Assign(0), Send(0, 1, Lost), Apply(0, true), Commit(0, true)
  ]

  lemma OneStep(s: Sys, steps: seq<Step>, t: Sys)
    requires steps != [] && Enabled(s, steps[0]) && Do(s, steps[0]) == t
    ensures Execute(s, steps) == Execute(t, steps[1..])
  {
  }

  lemma PickBoth(rows: seq<Row>)
    requires |rows| == 2 && Free(rows[0]) && Free(rows[1])
    ensures Pick(rows, 100) == [0, 1]
  {
    assert Outbox.FirstFree(rows, Free, 2, 98) == [];
    assert Outbox.FirstFree(rows, Free, 1, 99) == [1];
  }

  function Selected(at: nat, acked: set<nat>, log: seq<Rec>): Sys {
    Sys([Row(7, false, Some(0)), Row(8, false, Some(0))], [Batch([0, 1], at, acked)], Topics(log, 0, Down, {}), |log|, {}, [])
  }

  lemma LosingSelect()
    ensures Execute(LOSING_START, LOSING_RUN) == Execute(Selected(0, {}, []), LOSING_RUN[3..])
  {
    hide Execute, Pick;
    var run := LOSING_RUN;
    var s1 := LOSING_START.(rows := [Row(7, false, None)]);
    OneStep(LOSING_START, run, s1);
    var s2 := s1.(rows := [Row(7, false, None), Row(8, false, None)]);
    OneStep(s1, run[1..], s2);
    PickBoth(s2.rows);
    OneStep(s2, run[2..], Selected(0, {}, []));
  }

  lemma LosingPublish()
    ensures Execute(Selected(0, {}, []), LOSING_RUN[3..]) ==
            Execute(Sys(BOTH_PUBLISHED, [Idle], Topics(BOTH, 0, Down, {}), 2, {}, []), LOSING_RUN[6..])
  {
    hide Execute, Pick;
    var run := LOSING_RUN;
    assert Do(Selected(0, {}, []), run[3]).parts[0].log == [Rec(7, 0)];
    assert Do(Selected(0, {}, []), run[3]).parts == Topics([Rec(7, 0)], 0, Down, {});
    assert Do(Selected(0, {}, []), run[3]).relays[0].acked == {0};
    OneStep(Selected(0, {}, []), run[3..], Selected(1, {0}, [Rec(7, 0)]));
    assert Do(Selected(1, {0}, [Rec(7, 0)]), run[4]).parts[0].log == BOTH;
    assert Do(Selected(1, {0}, [Rec(7, 0)]), run[4]).parts == Topics(BOTH, 0, Down, {});
    assert Do(Selected(1, {0}, [Rec(7, 0)]), run[4]).relays[0].acked == {0, 1};
    OneStep(Selected(1, {0}, [Rec(7, 0)]), run[4..], Selected(2, {0, 1}, BOTH));
    OneStep(Selected(2, {0, 1}, BOTH), run[5..], Sys(BOTH_PUBLISHED, [Idle], Topics(BOTH, 0, Down, {}), 2, {}, []));
  }

  function AtWork(session: Session, settled: set<nat>, marks: set<nat>, effects: seq<nat>): Sys {
    Sys(BOTH_PUBLISHED, [Idle], Topics(BOTH, 0, session, settled), 2, marks, effects)
  }

  lemma LosingSkip()
    ensures Execute(AtWork(Down, {}, {}, []), LOSING_RUN[6..]) == Execute(AtWork(Up(1, false, true, true), {}, {}, []), LOSING_RUN[8..])
  {
    hide Execute, Pick;
    var run := LOSING_RUN;
    OneStep(AtWork(Down, {}, {}, []), run[6..], AtWork(Up(0, false, false, false), {}, {}, []));
    OneStep(AtWork(Up(0, false, false, false), {}, {}, []), run[7..], AtWork(Up(1, false, true, true), {}, {}, []));
  }

  lemma LosingCommit()
    ensures Execute(AtWork(Up(1, false, true, true), {}, {}, []), LOSING_RUN[8..]) == LOSING_END
  {
    hide Execute, Pick;
    var run := LOSING_RUN;
    var s := AtWork(Up(1, false, true, true), {}, {}, []);
    assert Do(s, run[8]).parts[0].settled == {1} && Do(s, run[8]).marks == {8};
    OneStep(s, run[8..], AtWork(Up(1, true, true, true), {1}, {8}, [8]));
    OneStep(AtWork(Up(1, true, true, true), {1}, {8}, [8]), run[9..], LOSING_END);
    NoStep(LOSING_END, run[10..]);
  }

  lemma NoStep(s: Sys, steps: seq<Step>)
    requires steps == []
    ensures Execute(s, steps) == s
  {
  }

  /** The event of a published row is nowhere ahead and was never applied. */
  lemma ALostEvent()
    ensures Execute(LOSING_START, LOSING_RUN) == LOSING_END && Initial(LOSING_START)
    ensures LOSING_END.rows[0] == Row(7, true, None) && !Ahead(LOSING_END, 7) && 7 !in LOSING_END.marks
  {
    hide Execute, Do, Enabled;
    LosingSelect();
    LosingPublish();
    LosingSkip();
    LosingCommit();
  }
}
