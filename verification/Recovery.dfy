/** Whatever has happened to the pipeline, short of a loss: it can still be brought to the point where
    every event of the outbox has had its effect exactly once. */
module Recovery {
  import opened Wrappers
  import Outbox
  import opened Pipeline

  // ---------- What is left to do ----------

  function Sum<T>(xs: seq<T>, f: T -> nat): nat {
    if xs == [] then 0 else Sum(xs[..|xs| - 1], f) + f(xs[|xs| - 1])
  }

  lemma {:induction false} SumUpdate<T>(xs: seq<T>, i: nat, x: T, f: T -> nat)
    requires i < |xs|
    ensures Sum(xs[i := x], f) == Sum(xs, f) - f(xs[i]) + f(x) && f(xs[i]) <= Sum(xs, f)
    decreases |xs|
  {
    var init := xs[..|xs| - 1];
    if i < |init| {
      assert xs[i := x][..|xs| - 1] == init[i := x];
      SumUpdate(init, i, x, f);
    } else {
      assert xs[i := x][..|xs| - 1] == init;
    }
  }

  lemma {:induction false} SumSame<T>(xs: seq<T>, ys: seq<T>, f: T -> nat)
    requires |xs| == |ys| && forall i :: 0 <= i < |xs| ==> f(xs[i]) == f(ys[i])
    ensures Sum(xs, f) == Sum(ys, f)
    decreases |xs|
  {
    if xs != [] {
      SumSame(xs[..|xs| - 1], ys[..|ys| - 1], f);
    }
  }

  lemma {:induction false} FindPositive<T>(xs: seq<T>, f: T -> nat) returns (i: nat)
    requires 0 < Sum(xs, f)
    ensures i < |xs| && 0 < f(xs[i])
    decreases |xs|
  {
    if 0 < f(xs[|xs| - 1]) {
      i := |xs| - 1;
    } else {
      i := FindPositive(xs[..|xs| - 1], f);
    }
  }

  /** Publishing a row, or sending a dead letter back, leaves one record of the source to apply. */
  function RowWork(row: Row): nat { if row.published then 0 else 2 }

  function RelayWork(relay: Relay): nat { if relay.Idle? then 0 else 1 }

  function PartWork(p: Part): nat {
    (if p.committed <= |p.log| then (|p.log| - p.committed) * (if p.kind == Dlq then 2 else 1) else 0) + if p.session.Up? then 1 else 0
  }

  function Work(s: Sys): nat {
    Sum(s.rows, RowWork) + Sum(s.relays, RelayWork) + Sum(s.parts, PartWork)
  }

  /** There is a relay, and a partition of the source topic. */
  predicate Equipped(s: Sys, source: nat) {
    s.relays != [] && source < |s.parts| && s.parts[source].kind == Source
  }

  // ---------- One piece of it ----------

  /** The run goes from s to t, takes less work to finish from there, and drops nothing on the way. */
  ghost predicate Leads(s: Sys, steps: seq<Step>, t: Sys, source: nat) {
    && Execute(s, steps) == t && !Somewhere(s, steps, PassesDropped)
    && Work(t) < Work(s) && Equipped(t, source) && |t.rows| == |s.rows|
  }

  lemma SafeStep(s: Sys, steps: seq<Step>, t: Sys)
    requires steps != [] && Enabled(s, steps[0]) && Do(s, steps[0]) == t && !PassesDropped(s, steps[0])
    ensures Execute(s, steps) == Execute(t, steps[1..])
    ensures Somewhere(s, steps, PassesDropped) <==> Somewhere(t, steps[1..], PassesDropped)
  {
  }

  lemma NoStep(s: Sys, steps: seq<Step>)
    requires steps == []
    ensures Execute(s, steps) == s && !Somewhere(s, steps, PassesDropped)
  {
  }

  lemma AbortLeads(s: Sys, source: nat, i: nat)
    requires Equipped(s, source) && i < |s.relays| && s.relays[i].Batch?
    ensures Leads(s, [Abort(i)], Do(s, Abort(i)), source)
  {
    var t := Do(s, Abort(i));
    SafeStep(s, [Abort(i)], t);
    NoStep(t, [Abort(i)][1..]);
    SumSame(s.rows, t.rows, RowWork);
    SumUpdate(s.relays, i, Idle, RelayWork);
  }

  lemma StopLeads(s: Sys, source: nat, p: nat)
    requires Equipped(s, source) && p < |s.parts| && s.parts[p].session.Up?
    ensures Leads(s, [Stop(p)], Do(s, Stop(p)), source)
  {
    var t := Do(s, Stop(p));
    SafeStep(s, [Stop(p)], t);
    NoStep(t, [Stop(p)][1..]);
    SumUpdate(s.parts, p, t.parts[p], PartWork);
  }

  /** Record next of partition p is done with: one handler call, or one publish back to the source. */
  function Handled(s: Sys, p: nat, source: nat): seq<Step>
    requires p < |s.parts|
  {
    [Assign(p), if s.parts[p].kind == Dlq then Send(p, source, Acked) else Apply(p, true), Commit(p, true), Stop(p)]
  }

  lemma ApplyLeads(s: Sys, source: nat, p: nat) returns (t: Sys)
    requires Equipped(s, source) && PartsOk(s) && p < |s.parts| && s.parts[p].session.Down?
    requires s.parts[p].kind != Dlq && s.parts[p].committed < |s.parts[p].log|
    ensures Leads(s, Handled(s, p, source), t, source)
  {
    hide Execute, Somewhere;
    var steps, part := Handled(s, p, source), s.parts[p];
    var n := part.committed;
    var s1 := s.(parts := s.parts[p := part.(session := Up(n, false, false, false))]);
    SafeStep(s, steps, s1);
    var s2 := Do(s1, steps[1]);
    SafeStep(s1, steps[1..], s2);
    var done := part.(settled := part.settled + {n});
    assert s2.parts == s.parts[p := done.(session := Up(n, true, false, false))];
    var s3 := s2.(parts := s.parts[p := done.(committed := n + 1, session := Up(n + 1, false, false, false))]);
    SafeStep(s2, steps[2..], s3);
    t := s2.(parts := s.parts[p := done.(committed := n + 1)]);
    SafeStep(s3, steps[3..], t);
    NoStep(t, steps[4..]);
    SumUpdate(s.parts, p, t.parts[p], PartWork);
  }

  lemma SendWork(s: Sys, source: nat, p: nat, t: Sys, rec: Rec)
    requires p < |s.parts| && source < |s.parts| && p != source && PartOk(s.parts[source]) && s.parts[source].kind == Source
    requires s.parts[p].kind == Dlq && s.parts[p].session.Down? && s.parts[p].committed < |s.parts[p].log|
    requires t.rows == s.rows && t.relays == s.relays
    requires var to, part := s.parts[source], s.parts[p];
             t.parts == s.parts[source := to.(log := to.log + [rec])]
                               [p := part.(settled := part.settled + {part.committed}, committed := part.committed + 1)]
    ensures Work(t) < Work(s)
  {
    var both := s.parts[source := s.parts[source].(log := s.parts[source].log + [rec])];
    SumUpdate(s.parts, source, both[source], PartWork);
    SumUpdate(both, p, t.parts[p], PartWork);
  }

  lemma SendLeads(s: Sys, source: nat, p: nat) returns (t: Sys)
    requires Equipped(s, source) && PartsOk(s) && p < |s.parts| && s.parts[p].session.Down?
    requires s.parts[p].kind == Dlq && s.parts[p].committed < |s.parts[p].log|
    ensures Leads(s, Handled(s, p, source), t, source)
  {
    hide Execute, Somewhere, Work;
    var steps, part, to := Handled(s, p, source), s.parts[p], s.parts[source];
    var n := part.committed;
    var s1 := s.(parts := s.parts[p := part.(session := Up(n, false, false, false))]);
    SafeStep(s, steps, s1);
    var rec := Rec(part.log[n].event, s.clock);
    var done := part.(settled := part.settled + {n});
    var both := s.parts[source := to.(log := to.log + [rec])];
    var s2 := s.(parts := both[p := done.(session := Up(n, true, false, false))], clock := s.clock + 1);
    SentBack(s, s1, source, p, s2);
    SafeStep(s1, steps[1..], s2);
    var s3 := s2.(parts := both[p := done.(committed := n + 1, session := Up(n + 1, false, false, false))]);
    SafeStep(s2, steps[2..], s3);
    t := s2.(parts := both[p := done.(committed := n + 1)]);
    SafeStep(s3, steps[3..], t);
    NoStep(t, steps[4..]);
    assert PartOk(to);
    SendWork(s, source, p, t, rec);
  }

  lemma SentBack(s: Sys, s1: Sys, source: nat, p: nat, s2: Sys)
    requires p < |s.parts| && source < |s.parts| && p != source && s.parts[p].kind == Dlq && s.parts[source].kind == Source
    requires s.parts[p].committed < |s.parts[p].log|
    requires var part, n, to := s.parts[p], s.parts[p].committed, s.parts[source];
             && s1 == s.(parts := s.parts[p := part.(session := Up(n, false, false, false))])
             && s2 == s.(parts := s.parts[source := to.(log := to.log + [Rec(part.log[n].event, s.clock)])]
                                         [p := part.(settled := part.settled + {n}, session := Up(n, true, false, false))],
                         clock := s.clock + 1)
    ensures Enabled(s1, Send(p, source, Acked)) && Do(s1, Send(p, source, Acked)) == s2
  {
    assert Do(s1, Send(p, source, Acked)).parts == s2.parts;
  }

  /** One row on its way from the outbox into the source: picked, stored and acknowledged, marked. */
  function Holding(s: Sys, q: nat): Sys
    requires q < |s.rows| && s.relays != []
  {
    s.(rows := s.rows[q := s.rows[q].(holder := Some(0))], relays := s.relays[0 := Batch([q], 0, {})])
  }

  function Acknowledged(s: Sys, q: nat, source: nat): Sys
    requires q < |s.rows| && s.relays != [] && source < |s.parts|
  {
    var to := s.parts[source];
    Holding(s, q).(relays := s.relays[0 := Batch([q], 1, {q})],
                   parts := s.parts[source := to.(log := to.log + [Rec(s.rows[q].event, s.clock)])], clock := s.clock + 1)
  }

  lemma SelectsOne(s: Sys, q: nat)
    requires q < |s.rows| && Pick(s.rows, 1) == [q] && s.relays != [] && s.relays[0].Idle?
    ensures Do(s, Select(0, 1)) == Holding(s, q)
  {
    assert Hold(s.rows, [q], Some(0)) == Holding(s, q).rows;
  }

  lemma PublishesOne(s: Sys, q: nat, source: nat)
    requires q < |s.rows| && Equipped(s, source)
    ensures Enabled(Holding(s, q), Publish(0, source, Acked))
    ensures Do(Holding(s, q), Publish(0, source, Acked)) == Acknowledged(s, q, source)
  {
    assert {} + {q} == {q};
    assert Do(Holding(s, q), Publish(0, source, Acked)).relays == Acknowledged(s, q, source).relays;
  }

  lemma PublishWork(s: Sys, q: nat, source: nat, t: Sys)
    requires q < |s.rows| && source < |s.parts| && !s.rows[q].published && PartOk(s.parts[source]) && s.parts[source].kind == Source
    requires t.rows == s.rows[q := s.rows[q].(published := true)] && t.relays == s.relays
    requires t.parts == s.parts[source := s.parts[source].(log := s.parts[source].log + [Rec(s.rows[q].event, s.clock)])]
    ensures Work(t) < Work(s)
  {
    SumUpdate(s.rows, q, t.rows[q], RowWork);
    SumUpdate(s.parts, source, t.parts[source], PartWork);
  }

  lemma PublishLeads(s: Sys, source: nat, r: nat) returns (t: Sys)
    requires Equipped(s, source) && s.relays[0].Idle? && r < |s.rows| && Free(s.rows[r]) && PartsOk(s)
    ensures Leads(s, [Select(0, 1), Publish(0, source, Acked), Mark(0)], t, source)
  {
    hide Execute, Somewhere, Work;
    var steps := [Select(0, 1), Publish(0, source, Acked), Mark(0)];
    var q := FirstOne(s.rows, r);
    var s2 := Acknowledged(s, q, source);
    t := s2.(rows := s.rows[q := s.rows[q].(published := true)], relays := s.relays);
    SelectsOne(s, q);
    PublishesOne(s, q, source);
    MarkedOne(s, q, s2, t);
    PublishWork(s, q, source, t);
    hide Do, Pick;
    SafeStep(s, steps, Holding(s, q));
    SafeStep(Holding(s, q), steps[1..], s2);
    SafeStep(s2, steps[2..], t);
    NoStep(t, steps[3..]);
  }

  lemma FirstOne(rows: seq<Row>, r: nat) returns (q: nat)
    requires r < |rows| && Free(rows[r])
    ensures q < |rows| && Free(rows[q]) && Pick(rows, 1) == [q]
  {
    var picked := Pick(rows, 1);
    assert r !in picked ==> |picked| == 1;
    q := picked[0];
    assert picked == [q];
  }

  lemma MarkedOne(s: Sys, q: nat, s2: Sys, t: Sys)
    requires q < |s.rows| && Free(s.rows[q]) && s.relays != [] && s.relays[0].Idle?
    requires s2.rows == s.rows[q := s.rows[q].(holder := Some(0))] && s2.relays == s.relays[0 := Batch([q], 1, {q})]
    requires t == s2.(rows := s.rows[q := s.rows[q].(published := true)], relays := s.relays)
    ensures Enabled(s2, Mark(0)) && Do(s2, Mark(0)) == t
  {
    var u := Do(s2, Mark(0));
    assert u.rows == t.rows;
    assert u.relays == s.relays[0 := Idle] == s.relays;
  }

  // ---------- All of it ----------

  lemma OneMove(s: Sys, source: nat) returns (steps: seq<Step>, t: Sys)
    requires SysOk(s) && Equipped(s, source) && 0 < Work(s)
    ensures Leads(s, steps, t, source)
  {
    hide Leads, SettledIsSafe, StampsOk, PublishedIsStored, AckedIsStored, EffectsOk;
    if i :| 0 <= i < |s.relays| && s.relays[i].Batch? {
      AbortLeads(s, source, i);
      steps, t := [Abort(i)], Do(s, Abort(i));
    } else if p :| 0 <= p < |s.parts| && s.parts[p].session.Up? {
      StopLeads(s, source, p);
      steps, t := [Stop(p)], Do(s, Stop(p));
    } else if r :| 0 <= r < |s.rows| && !s.rows[r].published {
      assert Holders(s) && s.relays[0].Idle? && Free(s.rows[r]);
      steps := [Select(0, 1), Publish(0, source, Acked), Mark(0)];
      t := PublishLeads(s, source, r);
    } else {
      var p := BacklogSomewhere(s);
      steps := Handled(s, p, source);
      if s.parts[p].kind == Dlq {
        t := SendLeads(s, source, p);
      } else {
        t := ApplyLeads(s, source, p);
      }
    }
  }

  lemma BacklogSomewhere(s: Sys) returns (p: nat)
    requires 0 < Work(s)
    requires forall i :: 0 <= i < |s.relays| ==> s.relays[i].Idle?
    requires forall q :: 0 <= q < |s.parts| ==> s.parts[q].session.Down?
    requires forall r :: 0 <= r < |s.rows| ==> s.rows[r].published
    ensures p < |s.parts| && s.parts[p].committed < |s.parts[p].log|
  {
    if 0 < Sum(s.rows, RowWork) {
      var r := FindPositive(s.rows, RowWork);
    } else if 0 < Sum(s.relays, RelayWork) {
      var i := FindPositive(s.relays, RelayWork);
    }
    p := FindPositive(s.parts, PartWork);
  }

  lemma {:induction false} Executes(s: Sys, steps: seq<Step>, more: seq<Step>)
    ensures Execute(s, steps + more) == Execute(Execute(s, steps), more)
    ensures Somewhere(s, steps + more, PassesDropped) <==> Somewhere(s, steps, PassesDropped) || Somewhere(Execute(s, steps), more, PassesDropped)
    decreases |steps|
  {
    if steps == [] {
      assert steps + more == more;
    } else {
      assert (steps + more)[1..] == steps[1..] + more;
      Executes(if Enabled(s, steps[0]) then Do(s, steps[0]) else s, steps[1..], more);
    }
  }

  lemma NoWorkIsDrained(s: Sys)
    requires PartsOk(s) && Work(s) == 0
    ensures Drained(s)
  {
    forall r: nat | r < |s.rows| ensures s.rows[r].published {
      SumUpdate(s.rows, r, s.rows[r], RowWork);
    }
    forall p: nat | p < |s.parts| ensures s.parts[p].committed == |s.parts[p].log| {
      SumUpdate(s.parts, p, s.parts[p], PartWork);
      assert PartOk(s.parts[p]);
    }
  }

  lemma {:induction false} Drains(s: Sys, source: nat) returns (steps: seq<Step>)
    requires SysOk(s) && Equipped(s, source)
    ensures Drained(Execute(s, steps)) && !Somewhere(s, steps, PassesDropped) && |Execute(s, steps).rows| == |s.rows|
    decreases Work(s)
  {
    if Work(s) == 0 {
      NoWorkIsDrained(s);
      steps := [];
    } else {
      hide SysOk, Drained, Execute, Somewhere;
      var first, t := OneMove(s, source);
      ExecuteKeeps(s, first);
      var rest := Drains(t, source);
      Executes(s, first, rest);
      steps := first + rest;
    }
  }

  /** From every state that a run without a loss can reach, if there are a relay and a source topic, some
      continuation leads to the point where every event of the outbox has had its effect exactly once. */
  lemma CanStillFinish(s: Sys, past: seq<Step>, source: nat) returns (more: seq<Step>)
    requires Initial(s) && !Somewhere(s, past, PassesDropped) && Equipped(Execute(s, past), source)
    ensures var t := Execute(s, past + more);
            && !Somewhere(s, past + more, PassesDropped)
            && |t.rows| == |Execute(s, past).rows|
            && forall r :: 0 <= r < |t.rows| ==> Count(t.effects, t.rows[r].event) == 1
  {
    InitialIsOk(s);
    ExecuteKeeps(s, past);
    more := Drains(Execute(s, past), source);
    Executes(s, past, more);
    forall r: nat | r < |Execute(s, past + more).rows| ensures Count(Execute(s, past + more).effects, Execute(s, past + more).rows[r].event) == 1 {
      DrainedIsExactlyOnce(s, past + more, r);
    }
  }
}
