/** Placing an order under an idempotency key: the key's protocol in Redis, the order service that uses
    it, and any number of calls running at once. */
module PlaceOrder {
  import opened Wrappers

  datatype Command = Command(buyer: int, listing: string, key: string)

  datatype Listing = Listing(published: bool, price: int, currency: string, author: int)

  datatype Order = Order(id: nat, buyer: int, listing: string, price: int, currency: string, author: int)

  /** What lies under the key; an absent key is free. */
  datatype Envelope = InProgress | Done(order: Order)

  datatype Answer = Placed(order: Order) | Busy | NoKey | NotAvailable | Failed

  function NewOrder(id: nat, cmd: Command, l: Listing): Order {
    Order(id, cmd.buyer, cmd.listing, l.price, l.currency, l.author)
  }

  // ---------- Calls running at once ----------

  /** Where a call is: before SETNX, before the GET that follows a refused SETNX, then, as the owner of
      the key, before the listing is read, before Create, before the saga is started, before Complete,
      and finally back at its caller. */
  datatype Phase = AtSetNX | AtGet | AtListing | AtCreate(l: Listing) | AtStart | AtComplete | Returned(answer: Answer)

  /** granted: Begin answered that the key is free. order: what the call has passed to Create. */
  datatype Call = Call(cmd: Command, phase: Phase, granted: bool, order: Option<Order>)

  datatype State = State(calls: seq<Call>, store: map<string, Envelope>, nextId: nat, expiries: multiset<string>)

  datatype Step =
    | Arrive(cmd: Command)
    | SetNX(c: nat, fault: Fault)
    | Get(c: nat, works: bool)
    | ReadListing(c: nat, l: Option<Listing>)
    | Create(c: nat, works: bool)
    | StartSaga(c: nat, works: bool)
    | Complete(c: nat, stored: bool)
    | Crash(c: nat)
    | Expire(key: string)

  predicate Enabled(s: State, step: Step) {
    match step
    case Arrive(_) => true
    case SetNX(c, _) => c < |s.calls| && s.calls[c].phase.AtSetNX?
    case Get(c, _) => c < |s.calls| && s.calls[c].phase.AtGet?
    case ReadListing(c, _) => c < |s.calls| && s.calls[c].phase.AtListing?
    case Create(c, _) => c < |s.calls| && s.calls[c].phase.AtCreate?
    case StartSaga(c, _) => c < |s.calls| && s.calls[c].phase.AtStart?
    case Complete(c, _) => c < |s.calls| && s.calls[c].phase.AtComplete? && s.calls[c].order.Some?
    case Crash(c) => c < |s.calls| && !s.calls[c].phase.Returned?
    case Expire(key) => key in s.store
  }

  function Goto(s: State, c: nat, phase: Phase): State
    requires c < |s.calls|
  {
    s.(calls := s.calls[c := s.calls[c].(phase := phase)])
  }

  function Do(s: State, step: Step): State
    requires Enabled(s, step)
  {
    match step
    case Arrive(cmd) =>
      s.(calls := s.calls + [Call(cmd, if cmd.key == "" then Returned(NoKey) else AtSetNX, false, None)])
    case SetNX(c, fault) =>
      var key := s.calls[c].cmd.key;
      var claims := key !in s.store && !fault.Fails?;
      var s1 := if claims then s.(store := s.store[key := InProgress], calls := s.calls[c := s.calls[c].(granted := true)]) else s;
      Goto(s1, c, if !fault.Works? then Returned(Failed) else if claims then AtListing else AtGet)
    case Get(c, works) =>
      var key := s.calls[c].cmd.key;
      Goto(s, c, if !works then Returned(Failed)
                 else if key !in s.store then AtSetNX
                 else if s.store[key].Done? then Returned(Placed(s.store[key].order)) else Returned(Busy))
    case ReadListing(c, l) =>
      Goto(s, c, if l.None? then Returned(Failed) else if !l.value.published then Returned(NotAvailable) else AtCreate(l.value))
    case Create(c, works) =>
      var x := s.calls[c];
      s.(calls := s.calls[c := x.(order := Some(NewOrder(s.nextId, x.cmd, x.phase.l)), phase := if works then AtStart else Returned(Failed))],
         nextId := s.nextId + 1)
    case StartSaga(c, works) => Goto(s, c, if works then AtComplete else Returned(Failed))
    case Complete(c, stored) =>
      var x := s.calls[c];
      Goto(if stored then s.(store := s.store[x.cmd.key := Done(x.order.value)]) else s, c, Returned(Placed(x.order.value)))
    case Crash(c) => Goto(s, c, Returned(Failed))
    case Expire(key) => s.(store := s.store - {key}, expiries := s.expiries + multiset{key})
  }

  function Execute(s: State, steps: seq<Step>): State
    decreases |steps|
  {
    if steps == [] then s
    else Execute(if Enabled(s, steps[0]) then Do(s, steps[0]) else s, steps[1..])
  }

  const START := State([], map[], 0, multiset{})

  /** How many calls with this key Begin let through, and how many of them reached Create. */
  function Grants(calls: seq<Call>, key: string): nat {
    if calls == [] then 0
    else Grants(calls[..|calls| - 1], key) + if calls[|calls| - 1].granted && calls[|calls| - 1].cmd.key == key then 1 else 0
  }

  function Creates(calls: seq<Call>, key: string): nat {
    if calls == [] then 0
    else Creates(calls[..|calls| - 1], key) + if calls[|calls| - 1].order.Some? && calls[|calls| - 1].cmd.key == key then 1 else 0
  }

  // ---------- What every step keeps ----------

  /** The key has been granted at most once for each time it has expired, and once more while it is held. */
  ghost predicate GrantsOk(s: State) {
    forall key :: Grants(s.calls, key) <= s.expiries[key] + if key in s.store then 1 else 0
  }

  /** Only a call that owns the key gets as far as Create, and only a created order goes further. */
  ghost predicate CallOk(x: Call) {
    && (x.phase.AtListing? || x.phase.AtCreate? || x.order.Some? ==> x.granted)
    && (x.phase.AtSetNX? || x.phase.AtGet? ==> !x.granted)
    && (x.phase.AtListing? || x.phase.AtCreate? ==> x.order.None?)
    && (x.phase.AtStart? || x.phase.AtComplete? ==> x.order.Some?)
    && (x.cmd.key == "" ==> x.phase.Returned? && !x.granted)
    && (x.phase.AtCreate? ==> x.phase.l.published)
    && (x.order.Some? ==> x.order.value.buyer == x.cmd.buyer && x.order.value.listing == x.cmd.listing)
  }

  /** The order is for the caller who asked and the listing asked for, at the price, in the currency and
      from the author that the listing had when it was read. */
  ghost predicate AsAsked(order: Order, cmd: Command, l: Listing) {
    && order.buyer == cmd.buyer && order.listing == cmd.listing
    && order.price == l.price && order.currency == l.currency && order.author == l.author
  }

  /** Create is passed such an order, of a published listing, under an identifier not used before, whether it
      succeeds or not. */
  lemma CreatesAsAsked(s: State, c: nat, works: bool)
    requires CallsOk(s) && Enabled(s, Create(c, works))
    ensures s.calls[c].phase.l.published
    ensures var t := Do(s, Create(c, works)); var x := t.calls[c];
            && x.order.Some? && AsAsked(x.order.value, s.calls[c].cmd, s.calls[c].phase.l)
            && x.order.value.id == s.nextId < t.nextId && (x.phase.AtStart? <==> works)
  {
  }

  ghost predicate CallsOk(s: State) {
    forall c :: 0 <= c < |s.calls| ==> CallOk(s.calls[c])
  }

  /** Some call with this key passed this order to Create. */
  ghost predicate Created(s: State, key: string, order: Order) {
    exists c :: 0 <= c < |s.calls| && s.calls[c].cmd.key == key && s.calls[c].order == Some(order)
  }

  ghost predicate StoreOk(s: State) {
    && "" !in s.store
    && (forall key :: key in s.store && s.store[key].Done? ==> Created(s, key, s.store[key].order))
    && (forall c :: 0 <= c < |s.calls| && s.calls[c].phase.Returned? && s.calls[c].phase.answer.Placed? ==>
          Created(s, s.calls[c].cmd.key, s.calls[c].phase.answer.order))
  }

  ghost predicate ServiceOk(s: State) {
    GrantsOk(s) && CallsOk(s) && StoreOk(s)
  }

  lemma {:induction false} GrantsChange(calls: seq<Call>, c: nat, x: Call, key: string)
    requires c < |calls| && x.cmd == calls[c].cmd && (calls[c].granted ==> x.granted)
    ensures Grants(calls[c := x], key) == Grants(calls, key) + if x.granted && !calls[c].granted && x.cmd.key == key then 1 else 0
    decreases |calls|
  {
    var init := calls[..|calls| - 1];
    if c < |init| {
      assert calls[c := x][..|calls| - 1] == init[c := x];
      GrantsChange(init, c, x, key);
    } else {
      assert calls[c := x][..|calls| - 1] == init;
    }
  }

  lemma GrantsKept(s: State, step: Step)
    requires Enabled(s, step) && GrantsOk(s) && CallsOk(s)
    ensures GrantsOk(Do(s, step))
  {
    var t := Do(s, step);
    forall key ensures Grants(t.calls, key) <= t.expiries[key] + if key in t.store then 1 else 0 {
      assert Grants(s.calls, key) <= s.expiries[key] + if key in s.store then 1 else 0;
      if step.Arrive? {
        assert t.calls[..|t.calls| - 1] == s.calls;
      } else if !step.Expire? {
        assert CallOk(s.calls[step.c]);
        GrantsChange(s.calls, step.c, t.calls[step.c], key);
        assert t.calls == s.calls[step.c := t.calls[step.c]];
      }
    }
  }

  lemma CallsKept(s: State, step: Step)
    requires Enabled(s, step) && CallsOk(s)
    ensures CallsOk(Do(s, step))
  {
  }

  lemma CreatedStays(s: State, step: Step, key: string, order: Order)
    requires Enabled(s, step) && CallsOk(s) && Created(s, key, order)
    ensures Created(Do(s, step), key, order)
  {
    var c :| 0 <= c < |s.calls| && s.calls[c].cmd.key == key && s.calls[c].order == Some(order);
    assert CallOk(s.calls[c]);
    assert Do(s, step).calls[c].order == Some(order);
  }

  lemma StoreKept(s: State, step: Step)
    requires Enabled(s, step) && CallsOk(s) && StoreOk(s)
    ensures StoreOk(Do(s, step))
  {
    var t := Do(s, step);
    forall key | key in t.store && t.store[key].Done? ensures Created(t, key, t.store[key].order) {
      if key in s.store && t.store[key] == s.store[key] {
        CreatedStays(s, step, key, t.store[key].order);
      } else {
        assert t.calls[step.c].order == Some(t.store[key].order);
      }
    }
    forall c | 0 <= c < |t.calls| && t.calls[c].phase.Returned? && t.calls[c].phase.answer.Placed?
      ensures Created(t, t.calls[c].cmd.key, t.calls[c].phase.answer.order)
    {
      if c < |s.calls| && s.calls[c].phase == t.calls[c].phase {
        CreatedStays(s, step, t.calls[c].cmd.key, t.calls[c].phase.answer.order);
      } else if step.Get? {
        CreatedStays(s, step, t.calls[c].cmd.key, t.calls[c].phase.answer.order);
      } else {
        assert t.calls[c].order == Some(t.calls[c].phase.answer.order);
      }
    }
  }

  lemma {:induction false} ExecuteKeeps(s: State, steps: seq<Step>)
    requires ServiceOk(s)
    ensures ServiceOk(Execute(s, steps))
    decreases |steps|
  {
    hide Do, Enabled, GrantsOk, CallsOk, StoreOk;
    if steps != [] {
      if Enabled(s, steps[0]) {
        GrantsKept(s, steps[0]);
        CallsKept(s, steps[0]);
        StoreKept(s, steps[0]);
        ExecuteKeeps(Do(s, steps[0]), steps[1..]);
      } else {
        ExecuteKeeps(s, steps[1..]);
      }
    }
  }

  lemma StartIsOk()
    ensures ServiceOk(START)
  {
  }

  /** The ways a call can fail once it has asked Redis. */
  predicate Fails(step: Step, c: nat) {
    || step == Crash(c) || step == Get(c, false) || step == ReadListing(c, None) || step == Create(c, false) || step == StartSaga(c, false)
  }

  /** A crash is always among them. */
  lemma AnyCallCanCrash(s: State, c: nat)
    requires c < |s.calls| && !s.calls[c].phase.Returned?
    ensures Enabled(s, Crash(c)) && Fails(Crash(c), c)
  {
  }

  /** Whichever it is, the caller is told of a failure, the key is left as it lies, and nobody else notices. */
  lemma FailureLeavesTheKey(s: State, c: nat, step: Step)
    requires Enabled(s, step) && Fails(step, c)
    ensures var t := Do(s, step);
            && t.store == s.store && t.expiries == s.expiries && |t.calls| == |s.calls|
            && t.calls[c].phase == Returned(Failed) && t.calls[c].cmd == s.calls[c].cmd && t.calls[c].granted == s.calls[c].granted
            && forall d :: 0 <= d < |s.calls| && d != c ==> t.calls[d] == s.calls[d]
  {
  }

  /** A call that was refused the key gets the stored order if there is one, is told that the first is still at
      work if not, and starts over if the key has gone meanwhile. */
  lemma RefusedLooks(s: State, c: nat)
    requires Enabled(s, Get(c, true))
    ensures var key, phase := s.calls[c].cmd.key, Do(s, Get(c, true)).calls[c].phase;
            && (phase == AtSetNX <==> key !in s.store)
            && (phase == Returned(Busy) <==> key in s.store && s.store[key] == InProgress)
            && (key in s.store && s.store[key].Done? ==> phase == Returned(Placed(s.store[key].order)))
  {
  }

  // ---------- One order per key ----------

  lemma {:induction false} CreatesAreGranted(calls: seq<Call>, key: string)
    requires forall c :: 0 <= c < |calls| ==> CallOk(calls[c])
    ensures Creates(calls, key) <= Grants(calls, key)
    decreases |calls|
  {
    if calls != [] {
      CreatesAreGranted(calls[..|calls| - 1], key);
      assert CallOk(calls[|calls| - 1]);
    }
  }

  /** In every interleaving, with failures of any dependency and crashes anywhere: Create is reached
      at most once, and once more for each time the key has expired. */
  lemma OneCreatePerExpiry(steps: seq<Step>, key: string)
    ensures var t := Execute(START, steps); Creates(t.calls, key) <= 1 + t.expiries[key]
  {
    StartIsOk();
    ExecuteKeeps(START, steps);
    CreatesAreGranted(Execute(START, steps).calls, key);
  }

  /** Every order a caller gets has been passed to Create under the caller's own key, for the buyer and the
      listing of the call that did. */
  lemma PlacedIsCreated(steps: seq<Step>, c: nat)
    requires var t := Execute(START, steps); c < |t.calls| && t.calls[c].phase.Returned? && t.calls[c].phase.answer.Placed?
    ensures var t := Execute(START, steps); var order := t.calls[c].phase.answer.order;
            exists owner :: 0 <= owner < |t.calls| && t.calls[owner].order == Some(order)
                            && t.calls[owner].cmd == Command(order.buyer, order.listing, t.calls[c].cmd.key)
  {
    StartIsOk();
    ExecuteKeeps(START, steps);
    var t := Execute(START, steps);
    var order := t.calls[c].phase.answer.order;
    assert Created(t, t.calls[c].cmd.key, order);
    var owner :| 0 <= owner < |t.calls| && t.calls[owner].cmd.key == t.calls[c].cmd.key && t.calls[owner].order == Some(order);
    assert CallOk(t.calls[owner]);
  }

  lemma {:induction false} TwoGrants(calls: seq<Call>, c: nat, d: nat, key: string)
    requires c < |calls| && d < |calls| && calls[c].granted && calls[d].granted && calls[c].cmd.key == key && calls[d].cmd.key == key
    ensures Grants(calls, key) >= if c == d then 1 else 2
    decreases |calls|
  {
    var init := calls[..|calls| - 1];
    if c < |init| && d < |init| {
      TwoGrants(init, c, d, key);
    } else if c < |init| {
      TwoGrants(init, c, c, key);
    } else if d < |init| {
      TwoGrants(init, d, d, key);
    }
  }

  /** While the key does not expire, all calls that return an order return the same one: also when its
      owner failed, or crashed, before or at Complete. */
  lemma SameOrder(steps: seq<Step>, c: nat, d: nat, key: string)
    requires var t := Execute(START, steps);
             && t.expiries[key] == 0 && c < |t.calls| && d < |t.calls|
             && t.calls[c].cmd.key == key && t.calls[c].phase.Returned? && t.calls[c].phase.answer.Placed?
             && t.calls[d].cmd.key == key && t.calls[d].phase.Returned? && t.calls[d].phase.answer.Placed?
    ensures var t := Execute(START, steps); t.calls[c].phase.answer == t.calls[d].phase.answer
  {
    StartIsOk();
    ExecuteKeeps(START, steps);
    var t := Execute(START, steps);
    var i :| 0 <= i < |t.calls| && t.calls[i].cmd.key == key && t.calls[i].order == Some(t.calls[c].phase.answer.order);
    var j :| 0 <= j < |t.calls| && t.calls[j].cmd.key == key && t.calls[j].order == Some(t.calls[d].phase.answer.order);
    assert CallOk(t.calls[i]) && CallOk(t.calls[j]);
    TwoGrants(t.calls, i, j, key);
  }

  /** The allowance for an expiry is needed: the key of a finished order expires, the client repeats,
      and a second order is created. */
  lemma TwoCreatesAfterExpiry(cmd: Command, l: Listing)
    requires cmd.key != "" && l.published
    ensures exists steps :: var t := Execute(START, steps); t.expiries[cmd.key] == 1 && Creates(t.calls, cmd.key) == 2
  {
    var one, two := OneOrder(0, cmd, l), OneOrder(1, cmd, l);
    var placed := Call(cmd, Returned(Placed(NewOrder(0, cmd, l))), true, Some(NewOrder(0, cmd, l)));
    var again := Call(cmd, Returned(Placed(NewOrder(1, cmd, l))), true, Some(NewOrder(1, cmd, l)));
    OrderIsPlaced(START, cmd, l);
    var s1 := State([placed], map[cmd.key := Done(NewOrder(0, cmd, l))], 1, multiset{});
    assert Execute(START, one) == s1;
    var s2 := State([placed], map[], 1, multiset{cmd.key});
    assert s1.store - {cmd.key} == map[];
    assert Do(s1, Expire(cmd.key)) == s2;
    OrderIsPlaced(s2, cmd, l);
    Executes(START, one, [Expire(cmd.key)] + two);
    Executes(s1, [Expire(cmd.key)], two);
    assert [Expire(cmd.key)][1..] == [] && Execute(s1, [Expire(cmd.key)]) == s2;
    var t := Execute(START, one + ([Expire(cmd.key)] + two));
    assert t == Execute(s2, two) && t.calls == [placed, again];
    assert t.calls[..1] == [placed] && [placed][..0] == [];
    assert Creates([placed], cmd.key) == 1;
  }

  function OneOrder(c: nat, cmd: Command, l: Listing): seq<Step> {
    [Arrive(cmd), SetNX(c, Works), ReadListing(c, Some(l)), Create(c, true), StartSaga(c, true), Complete(c, true)]
  }

  lemma {:induction false} Executes(s: State, steps: seq<Step>, more: seq<Step>)
    ensures Execute(s, steps + more) == Execute(Execute(s, steps), more)
    decreases |steps|
  {
    if steps == [] {
      assert steps + more == more;
    } else {
      assert (steps + more)[1..] == steps[1..] + more;
      Executes(if Enabled(s, steps[0]) then Do(s, steps[0]) else s, steps[1..], more);
    }
  }

  lemma OneStep(s: State, steps: seq<Step>, t: State)
    requires steps != [] && Enabled(s, steps[0]) && Do(s, steps[0]) == t
    ensures Execute(s, steps) == Execute(t, steps[1..])
  {
  }

  /** A call that has claimed a free key and read the listing ... */
  function Claimed(s: State, cmd: Command, l: Listing): State {
    s.(calls := s.calls + [Call(cmd, AtCreate(l), true, None)], store := s.store[cmd.key := InProgress])
  }

  lemma KeyIsClaimed(s: State, cmd: Command, l: Listing)
    requires cmd.key != "" && l.published && cmd.key !in s.store
    ensures Execute(s, OneOrder(|s.calls|, cmd, l)) == Execute(Claimed(s, cmd, l), OneOrder(|s.calls|, cmd, l)[3..])
  {
    hide Execute;
    var steps := OneOrder(|s.calls|, cmd, l);
    var s1 := s.(calls := s.calls + [Call(cmd, AtSetNX, false, None)]);
    OneStep(s, steps, s1);
    var s2 := s.(calls := s.calls + [Call(cmd, AtListing, true, None)], store := s.store[cmd.key := InProgress]);
    OneStep(s1, steps[1..], s2);
    OneStep(s2, steps[2..], Claimed(s, cmd, l));
  }

  /** ... and then created the order ... */
  function Stored(s: State, cmd: Command, l: Listing): State {
    s.(calls := s.calls + [Call(cmd, AtStart, true, Some(NewOrder(s.nextId, cmd, l)))],
       store := s.store[cmd.key := InProgress], nextId := s.nextId + 1)
  }

  lemma OrderIsStored(s: State, cmd: Command, l: Listing)
    requires cmd.key != "" && l.published && cmd.key !in s.store
    ensures Execute(s, OneOrder(|s.calls|, cmd, l)) == Execute(Stored(s, cmd, l), OneOrder(|s.calls|, cmd, l)[4..])
  {
    KeyIsClaimed(s, cmd, l);
    hide Execute;
    OneStep(Claimed(s, cmd, l), OneOrder(|s.calls|, cmd, l)[3..], Stored(s, cmd, l));
  }

  /** ... and then meets no failure. */
  lemma OrderIsPlaced(s: State, cmd: Command, l: Listing)
    requires cmd.key != "" && l.published && cmd.key !in s.store
    ensures var order := NewOrder(s.nextId, cmd, l);
            Execute(s, OneOrder(|s.calls|, cmd, l)) ==
            s.(calls := s.calls + [Call(cmd, Returned(Placed(order)), true, Some(order))],
               store := s.store[cmd.key := Done(order)], nextId := s.nextId + 1)
  {
    var order := NewOrder(s.nextId, cmd, l);
    var steps := OneOrder(|s.calls|, cmd, l);
    OrderIsStored(s, cmd, l);
    hide Execute;
    var s4 := Stored(s, cmd, l);
    var s5 := s4.(calls := s.calls + [Call(cmd, AtComplete, true, Some(order))]);
    OneStep(s4, steps[4..], s5);
    var s6 := s5.(calls := s.calls + [Call(cmd, Returned(Placed(order)), true, Some(order))], store := s.store[cmd.key := Done(order)]);
    OneStep(s5, steps[5..], s6);
    NoStep(s6, steps[6..]);
  }

  lemma NoStep(s: State, steps: seq<Step>)
    requires steps == []
    ensures Execute(s, steps) == s
  {
  }

  /** The key is held, but no call that owns it is still running. */
  ghost predicate Abandoned(s: State, key: string) {
    && key in s.store && s.store[key].InProgress?
    && forall c :: 0 <= c < |s.calls| && s.calls[c].cmd.key == key && s.calls[c].granted ==> s.calls[c].phase.Returned?
  }

  predicate HasReturned(s: State, c: nat) {
    c < |s.calls| && s.calls[c].phase.Returned?
  }

  /** From s to t no call has been answered under the key, except that the first is still at work, or that
      it failed; who was answered before stays answered so. */
  ghost predicate OnlyBusy(s: State, t: State, key: string) {
    && |s.calls| <= |t.calls| && (forall c: nat :: HasReturned(s, c) ==> t.calls[c] == s.calls[c])
    && forall c: nat :: HasReturned(t, c) && !HasReturned(s, c) && t.calls[c].cmd.key == key ==>
         t.calls[c].phase.answer == Busy || t.calls[c].phase.answer == Failed
  }

  /** A key whose owner failed before Complete stays so until it expires: nobody creates a second
      order, and every further caller is told that the first is still at work, or that the call failed. */
  lemma {:induction false} AbandonedStays(first: State, s: State, steps: seq<Step>, key: string)
    requires CallsOk(s) && Abandoned(s, key) && key != "" && Expire(key) !in steps && OnlyBusy(first, s, key)
    ensures Abandoned(Execute(s, steps), key) && Creates(Execute(s, steps).calls, key) == Creates(s.calls, key)
    ensures OnlyBusy(first, Execute(s, steps), key)
    decreases |steps|
  {
    hide CallsOk, Abandoned, OnlyBusy, Do, Enabled;
    if steps != [] {
      assert steps[0] in steps && forall step :: step in steps[1..] ==> step in steps;
      if Enabled(s, steps[0]) {
        CallsKept(s, steps[0]);
        AbandonedStep(s, steps[0], key);
        OnlyBusyStep(first, s, steps[0], key);
        AbandonedStays(first, Do(s, steps[0]), steps[1..], key);
      } else {
        AbandonedStays(first, s, steps[1..], key);
      }
    }
  }

  lemma OnlyBusyStep(first: State, s: State, step: Step, key: string)
    requires Enabled(s, step) && CallsOk(s) && Abandoned(s, key) && key != "" && step != Expire(key) && OnlyBusy(first, s, key)
    ensures OnlyBusy(first, Do(s, step), key)
  {
    var t := Do(s, step);
    if !step.Arrive? && !step.Expire? {
      assert CallOk(s.calls[step.c]);
    }
    forall c: nat | HasReturned(first, c) ensures t.calls[c] == first.calls[c] {
      assert HasReturned(s, c);
    }
    forall c: nat | HasReturned(t, c) && !HasReturned(first, c) && t.calls[c].cmd.key == key
      ensures t.calls[c].phase.answer == Busy || t.calls[c].phase.answer == Failed
    {
      assert HasReturned(s, c) ==> t.calls[c] == s.calls[c];
    }
  }

  lemma {:induction false} CreatesSame(calls: seq<Call>, c: nat, x: Call, key: string)
    requires c < |calls| && x.cmd == calls[c].cmd && (x.cmd.key == key ==> x.order == calls[c].order)
    ensures Creates(calls[c := x], key) == Creates(calls, key)
    decreases |calls|
  {
    var init := calls[..|calls| - 1];
    if c < |init| {
      assert calls[c := x][..|calls| - 1] == init[c := x];
      CreatesSame(init, c, x, key);
    } else {
      assert calls[c := x][..|calls| - 1] == init;
    }
  }

  lemma AbandonedStep(s: State, step: Step, key: string)
    requires Enabled(s, step) && CallsOk(s) && Abandoned(s, key) && step != Expire(key)
    ensures Abandoned(Do(s, step), key) && Creates(Do(s, step).calls, key) == Creates(s.calls, key)
  {
    var t := Do(s, step);
    if step.Arrive? {
      assert t.calls[..|t.calls| - 1] == s.calls;
    } else if !step.Expire? {
      assert CallOk(s.calls[step.c]);
      CreatesSame(s.calls, step.c, t.calls[step.c], key);
      assert t.calls == s.calls[step.c := t.calls[step.c]];
    }
  }

  /** Some call under the key that had not been answered in s has been given an order in t. */
  ghost predicate NewlyPlaced(s: State, t: State, key: string) {
    exists c: nat :: HasReturned(t, c) && !HasReturned(s, c) && t.calls[c].cmd.key == key && t.calls[c].phase.answer.Placed?
  }

  /** What the owner of a key still does when nothing fails. */
  function Rest(c: nat, phase: Phase, l: Listing): seq<Step> {
    match phase
    case AtListing => [ReadListing(c, Some(l)), Create(c, true), StartSaga(c, true), Complete(c, true)]
    case AtCreate(_) => [Create(c, true), StartSaga(c, true), Complete(c, true)]
    case AtStart => [StartSaga(c, true), Complete(c, true)]
    case AtComplete => [Complete(c, true)]
    case _ => []
  }

  lemma {:induction false} OwnerFinishes(s: State, c: nat, l: Listing)
    requires CallsOk(s) && c < |s.calls| && s.calls[c].granted && !s.calls[c].phase.Returned? && l.published
    ensures var t := Execute(s, Rest(c, s.calls[c].phase, l));
            && |t.calls| == |s.calls| && t.calls[c].cmd == s.calls[c].cmd
            && t.calls[c].phase.Returned? && t.calls[c].phase.answer.Placed?
    decreases |Rest(c, s.calls[c].phase, l)|
  {
    assert CallOk(s.calls[c]);
    var steps := Rest(c, s.calls[c].phase, l);
    var t := Do(s, steps[0]);
    OneStep(s, steps, t);
    CallsKept(s, steps[0]);
    if s.calls[c].phase.AtComplete? {
      NoStep(t, steps[1..]);
    } else {
      assert Rest(c, t.calls[c].phase, l) == steps[1..];
      OwnerFinishes(t, c, l);
    }
  }

  lemma DoneIsHandedOut(s: State, key: string)
    requires key in s.store && s.store[key].Done? && key != ""
    ensures var c := |s.calls|;
            NewlyPlaced(s, Execute(s, [Arrive(Command(0, "", key)), SetNX(c, Works), Get(c, true)]), key)
  {
    var c, cmd := |s.calls|, Command(0, "", key);
    var steps := [Arrive(cmd), SetNX(c, Works), Get(c, true)];
    var s1 := s.(calls := s.calls + [Call(cmd, AtSetNX, false, None)]);
    OneStep(s, steps, s1);
    var s2 := s.(calls := s.calls + [Call(cmd, AtGet, false, None)]);
    OneStep(s1, steps[1..], s2);
    var s3 := s.(calls := s.calls + [Call(cmd, Returned(Placed(s.store[key].order)), false, None)]);
    OneStep(s2, steps[2..], s3);
    NoStep(s3, steps[3..]);
    assert HasReturned(s3, c);
  }

  /** In every reachable state with the key in the store: some continuation without an expiry gives an
      order to a call under the key if and only if its owner has not abandoned it. */
  lemma PlaceableIff(past: seq<Step>, key: string)
    requires key in Execute(START, past).store
    ensures var s := Execute(START, past);
            (exists more :: Expire(key) !in more && NewlyPlaced(s, Execute(s, more), key)) <==> !Abandoned(s, key)
  {
    StartIsOk();
    ExecuteKeeps(START, past);
    var s := Execute(START, past);
    if Abandoned(s, key) {
      forall more | Expire(key) !in more ensures !NewlyPlaced(s, Execute(s, more), key) {
        AbandonedStays(s, s, more, key);
      }
    } else if s.store[key].Done? {
      DoneIsHandedOut(s, key);
      var more := [Arrive(Command(0, "", key)), SetNX(|s.calls|, Works), Get(|s.calls|, true)];
      assert Expire(key) !in more && NewlyPlaced(s, Execute(s, more), key);
    } else {
      var c :| 0 <= c < |s.calls| && s.calls[c].cmd.key == key && s.calls[c].granted && !s.calls[c].phase.Returned?;
      var l := Listing(true, 0, "", 0);
      OwnerFinishes(s, c, l);
      var more := Rest(c, s.calls[c].phase, l);
      assert HasReturned(Execute(s, more), c);
      assert Expire(key) !in more && NewlyPlaced(s, Execute(s, more), key);
    }
  }

  // ---------- The service's own code ----------

  /** What the environment decides for one call, when no other runs beside it: how Begin's SETNX and
      GET, the listing, Create, the saga and Complete turn out, and how often the key expires between
      SETNX and GET. */
  datatype Luck = Luck(setNX: Fault, gone: nat, get: bool, listing: Option<Listing>, create: bool, saga: bool, complete: bool)

  datatype BeginResult = Free | Running | Finished(order: Order)

  class Redis {
    var store: map<string, Envelope>

    constructor ()
      ensures store == map[]
    {
      store := map[];
    }

    /** SETNX, and if that is refused GET; if the key is gone by then, all over again. */
    method Begin(key: string, luck: Luck) returns (r: Result<BeginResult, string>)
      modifies this
      ensures luck.setNX.Works? && (key !in old(store) || (luck.get && 0 < luck.gone)) ==>
                r == Success(Free) && store == old(store)[key := InProgress]
      ensures luck.setNX.Works? && key in old(store) && luck.get && luck.gone == 0 ==>
                store == old(store) && r == Success(if old(store)[key].Done? then Finished(old(store)[key].order) else Running)
      ensures luck.setNX.Works? && key in old(store) && !luck.get ==> r.Failure? && store == old(store)
      ensures !luck.setNX.Works? ==>
                r.Failure? && store == if luck.setNX.FailsAfter? && key !in old(store) then old(store)[key := InProgress] else old(store)
      decreases luck.gone
    {
      var free := key !in store;
      if free && !luck.setNX.Fails? {
        store := store[key := InProgress];
      }
      if !luck.setNX.Works? {
        return Failure("setnx");
      }
      if free {
        return Success(Free);
      }
      if !luck.get {
        return Failure("get");
      }
      if 0 < luck.gone {
        var before := store;
        store := store - {key};
        r := Begin(key, luck.(gone := luck.gone - 1));
        assert store == before[key := InProgress];
        return r;
      }
      return Success(if store[key].Done? then Finished(store[key].order) else Running);
    }

    /** Overwrites whatever is there. */
    method Complete(key: string, order: Order, stored: bool)
      modifies this
      ensures store == if stored then old(store)[key := Done(order)] else old(store)
    {
      if stored {
        store := store[key := Done(order)];
      }
    }
  }

  class OrderService {
    const redis: Redis
    var created: seq<Order>
    var sagas: seq<Order>
    var nextId: nat

    constructor (redis: Redis)
      ensures this.redis == redis && created == [] && sagas == [] && nextId == 0
    {
      this.redis := redis;
      created, sagas, nextId := [], [], 0;
    }

    /** An order is created exactly when Begin answers Free and the listing is published; a saga is
        started for it exactly when Create succeeded; the caller gets it exactly when both did, also
        if Complete fails. A key already done gives back the stored order and touches nothing; every
        other outcome leaves the orders alone. */
    method PlaceOrder(cmd: Command, luck: Luck) returns (answer: Answer)
      modifies this`created, this`sagas, this`nextId, redis
      ensures var free := cmd.key != "" && luck.setNX.Works? && (cmd.key !in old(redis.store) || (luck.get && 0 < luck.gone));
              var creates := free && luck.listing.Some? && luck.listing.value.published;
              var order := if creates then [NewOrder(old(nextId), cmd, luck.listing.value)] else [];
              && created == old(created) + order
              && sagas == old(sagas) + (if luck.create then order else [])
              && (free ==> answer == if luck.listing.None? then Failed
                                     else if !luck.listing.value.published then NotAvailable
                                     else if luck.create && luck.saga then Placed(order[0]) else Failed)
              && (free ==> redis.store == old(redis.store)[cmd.key :=
                             if creates && luck.create && luck.saga && luck.complete then Done(order[0]) else InProgress])
      ensures created == old(created) || (
                && |created| == |old(created)| + 1 && created[..|old(created)|] == old(created)
                && luck.listing.Some? && luck.listing.value.published
                && AsAsked(created[|old(created)|], cmd, luck.listing.value) && created[|old(created)|].id == old(nextId))
      ensures cmd.key == "" ==> answer == NoKey && redis.store == old(redis.store)
      ensures cmd.key != "" && (!luck.setNX.Works? || (cmd.key in old(redis.store) && !luck.get)) ==> answer == Failed
      ensures cmd.key != "" && !luck.setNX.Works? ==>
                redis.store == if luck.setNX.FailsAfter? && cmd.key !in old(redis.store)
                               then old(redis.store)[cmd.key := InProgress] else old(redis.store)
      ensures cmd.key != "" && luck.setNX.Works? && cmd.key in old(redis.store) && luck.get && luck.gone == 0 ==>
                && redis.store == old(redis.store)
                && answer == if old(redis.store)[cmd.key].Done? then Placed(old(redis.store)[cmd.key].order) else Busy
    {
      if cmd.key == "" {
        return NoKey;
      }
      var begun := redis.Begin(cmd.key, luck);
      match begun
      case Failure(_) => return Failed;
      case Success(Finished(order)) => return Placed(order);
      case Success(Running) => return Busy;
      case Success(Free) =>
        if luck.listing.None? {
          return Failed;
        }
        if !luck.listing.value.published {
          return NotAvailable;
        }
        var order := NewOrder(nextId, cmd, luck.listing.value);
        nextId := nextId + 1;
        created := created + [order];
        if !luck.create {
          return Failed;
        }
        sagas := sagas + [order];
        if !luck.saga {
          return Failed;
        }
        redis.Complete(cmd.key, order, luck.complete);
        return Placed(order);
    }
  }
}
