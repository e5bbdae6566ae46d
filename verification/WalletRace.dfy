/** Calls under one key at the same time: exactly when all of them are given the same answer, whatever
    the interleaving. Repeated Reserves first, then Commits. */
module WalletRace {
  import opened Wrappers
  import opened Ledger
  import opened WalletSpec
  import opened WalletService
  import opened WalletTx
  import opened WalletAlone

  // ---------- Two at once ----------

  lemma {:induction false} Executes(s: Sys, schedule: seq<Action>, more: seq<Action>)
    ensures Execute(s, schedule + more) == Execute(Execute(s, schedule), more)
    decreases |schedule|
  {
    if schedule == [] {
      assert schedule + more == more;
    } else {
      assert (schedule + more)[1..] == schedule[1..] + more;
      Executes(Next(s, schedule[0]), schedule[1..], more);
    }
  }

  /** Two transactions look their key up; then one runs to its end, and after it the other. */
  function Race(i: nat, j: nat): seq<Action> {
    (Steps(i, 1) + Steps(j, 1)) + (Steps(i, 6) + Steps(j, 6))
  }

  lemma RaceRuns(s: Sys, i: nat, j: nat)
    requires Initial(s) && i < |s.txs| && j < |s.txs| && i != j
    requires var (db1, first) := After(s.db, s.txs[i], 1); db1 == s.db && first.locks == {}
    requires var (db2, second) := After(s.db, s.txs[j], 1); db2 == s.db && second.locks == {}
    requires After(s.db, After(s.db, s.txs[i], 1).1, 6).1.locks == {}
    ensures var (db3, first) := After(s.db, After(s.db, s.txs[i], 1).1, 6);
            var (db4, second) := After(db3, After(s.db, s.txs[j], 1).1, 6);
            Execute(s, Race(i, j)) == Sys(db4, s.txs[i := first][j := second])
  {
    hide After, Execute;
    AloneRuns(s, i, 1);
    var s1 := Execute(s, Steps(i, 1));
    AloneRuns(s1, j, 1);
    var s2 := Execute(s1, Steps(j, 1));
    AloneRuns(s2, i, 6);
    var s3 := Execute(s2, Steps(i, 6));
    AloneRuns(s3, j, 6);
    Executes(s, Steps(i, 1), Steps(j, 1));
    Executes(s2, Steps(i, 6), Steps(j, 6));
    Executes(s, Steps(i, 1) + Steps(j, 1), Steps(i, 6) + Steps(j, 6));
    assert Execute(s, Race(i, j)).txs == s.txs[i := s3.txs[i]][j := Execute(s3, Steps(j, 6)).txs[j]];
  }

  // ---------- Repeated reserves ----------

  /** Any number of equal Reserve calls, of an amount and on an account that pass the checks. */
  ghost predicate Repeats(s: Sys, call: Call) {
    && Initial(s) && 2 <= |s.txs| && (forall i :: 0 <= i < |s.txs| ==> s.txs[i].call == call)
    && call.ReserveFunds? && call.key != "" && 0 < call.amount && Solvent(s.db, call.account, call.currency)
  }

  /** The call has ended, and neither by a rollback nor with its answer lost. */
  predicate Answered(tx: Tx) {
    tx.pc.Finished? && tx.pc.answer != Failed(StoreFailure)
  }

  /** Everybody who has been answered has been given one and the same reservation, or pair of entries. */
  ghost predicate OneAnswer(s: Sys) {
    forall i, j :: 0 <= i < |s.txs| && 0 <= j < |s.txs| && Answered(s.txs[i]) && Answered(s.txs[j]) ==>
      !s.txs[i].pc.answer.Failed? && s.txs[i].pc.answer == s.txs[j].pc.answer
  }

  /** What a repeat relies on, while the account could pay twice: its available amount is the first one,
      less the amount once the key is stored. */
  ghost predicate CanPay(db: Db, call: Call, funds: int)
    requires call.ReserveFunds?
  {
    && Solvent(db, call.account, call.currency)
    && Available(db, call.account) == funds - if call.key in db.keys then call.amount else 0
  }

  ghost predicate Unrefused(db: Db, tx: Tx, call: Call)
    requires call.ReserveFunds?
  {
    && tx.call == call && (Answered(tx) ==> !tx.pc.answer.Failed?)
    && (tx.pc.ReserveWinner? ==> call.key in db.keys)
  }

  lemma RepeatMoves(db: Db, tx: Tx, call: Call, funds: int)
    requires Inv(db) && TxOk(db, tx) && call.ReserveFunds? && call.key != "" && 0 < call.amount
    requires 2 * call.amount <= funds && CanPay(db, call, funds) && Unrefused(db, tx, call)
    ensures var (db', tx') := AdvanceTx(db, tx); CanPay(db', call, funds) && Unrefused(db', tx', call)
  {
    hide RowsOk, JournalOk, ReferencesKnown, LedgerBalance, ActiveReserved;
    match tx.pc
    case ReserveInsert(_) => DrawnAmounts(db, 1, call.account);
    case Ready(Insert(row), _) => ReservationAddedAmounts(db, row, call.account);
    case ReserveWinner => assert db.keys[call.key] in db.reservations;
    case Start => assert call.key in db.keys ==> db.keys[call.key] in db.reservations;
    case _ =>
  }

  lemma UnrefusedAgree(s: Sys, call: Call)
    requires SysOk(s) && call.ReserveFunds?
    requires forall i :: 0 <= i < |s.txs| ==> s.txs[i].call == call && (Answered(s.txs[i]) ==> !s.txs[i].pc.answer.Failed?)
    ensures OneAnswer(s)
  {
    hide SysOk;
    forall i, j | 0 <= i < |s.txs| && 0 <= j < |s.txs| && Answered(s.txs[i]) && Answered(s.txs[j])
      ensures !s.txs[i].pc.answer.Failed? && s.txs[i].pc.answer == s.txs[j].pc.answer
    {
      OneReservationPerKey(s, i, j);
    }
  }

  lemma {:induction false} RepeatsAgree(s: Sys, schedule: seq<Action>, call: Call, funds: int)
    requires SysOk(s) && call.ReserveFunds? && call.key != "" && 0 < call.amount
    requires 2 * call.amount <= funds && CanPay(s.db, call, funds)
    requires forall i :: 0 <= i < |s.txs| ==> Unrefused(s.db, s.txs[i], call)
    ensures OneAnswer(Execute(s, schedule))
    decreases |schedule|
  {
    if schedule == [] {
      UnrefusedAgree(s, call);
    } else {
      hide Inv, AdvanceTx, CanPay, TxOk, OneAnswer;
      var a := schedule[0];
      NextKeeps(s, a);
      if a.tx < |s.txs| {
        RepeatMoves(s.db, s.txs[a.tx], call, funds);
      }
      RepeatsAgree(Next(s, a), schedule[1..], call, funds);
    }
  }

  ghost predicate AtStartOrServed(s: Sys, call: Call) {
    forall i :: 0 <= i < |s.txs| ==> s.txs[i].call == call && (s.txs[i].pc == Start || (s.txs[i].pc.Finished? && (Answered(s.txs[i]) ==> !s.txs[i].pc.answer.Failed?)))
  }

  lemma StoredServes(s: Sys, a: Action, call: Call)
    requires Inv(s.db) && call.ReserveFunds? && call.key != "" && 0 < call.amount && call.key in s.db.keys
    requires AtStartOrServed(s, call)
    ensures Next(s, a).db == s.db && AtStartOrServed(Next(s, a), call)
  {
    hide AdvanceTx, RowsOk, JournalOk, ReferencesKnown;
    var id := s.db.keys[call.key];
    if a.tx < |s.txs| && s.txs[a.tx].pc == Start {
      FirstStepFinds(s.db, s.txs[a.tx], Reserved(id, s.db.reservations[id].availableAfter));
    }
  }

  /** When the key is stored already, everybody finds it in the first step. */
  lemma {:induction false} StoredIsFound(s: Sys, schedule: seq<Action>, call: Call)
    requires SysOk(s) && call.ReserveFunds? && call.key != "" && 0 < call.amount && call.key in s.db.keys
    requires AtStartOrServed(s, call)
    ensures OneAnswer(Execute(s, schedule))
    decreases |schedule|
  {
    if schedule == [] {
      UnrefusedAgree(s, call);
    } else {
      hide Inv, Next, AllOk, AtStartOrServed, OneAnswer;
      NextKeeps(s, schedule[0]);
      StoredServes(s, schedule[0], call);
      StoredIsFound(Next(s, schedule[0]), schedule[1..], call);
    }
  }

  lemma FundsAfterFirst(db: Db, call: Call)
    requires Inv(db) && call.ReserveFunds?
    ensures Available(ReservedDb(db, call), call.account) == Available(db, call.account) - call.amount
  {
    Drawn(db, 1);
    DrawnAmounts(db, 1, call.account);
    ReservationAddedAmounts(Draw(db, 1), RowFor(db, call), call.account);
  }

  /** Two that both look the key up too early, on an account that cannot pay for both: one is refused. */
  lemma RaceRefuses(s: Sys, call: Call)
    requires Repeats(s, call) && call.key !in s.db.keys && Available(s.db, call.account) < 2 * call.amount
    ensures !OneAnswer(Execute(s, Race(0, 1)))
  {
    hide After, Execute, Inv, Available, LedgerBalance, ActiveReserved;
    assert s.txs[0] == Tx(call, Start, {}) && s.txs[1] == Tx(call, Start, {});
    LookUp(s.db, call);
    if Available(s.db, call.account) < call.amount {
      RefusedAlone(s.db, call);
      RaceRuns(s, 0, 1);
      assert Answered(Execute(s, Race(0, 1)).txs[1]);
    } else {
      ReservedAlone(s.db, call);
      FundsAfterFirst(s.db, call);
      RefusedAlone(ReservedDb(s.db, call), call);
      RaceRuns(s, 0, 1);
      assert Answered(Execute(s, Race(0, 1)).txs[1]);
    }
  }

  /** Any number of equal calls at once: every schedule, with rollbacks and lost answers anywhere, gives
      all that are answered the one reservation if and only if the key was stored before, or the account could have paid twice. */
  lemma ConcurrentRepeats(s: Sys, call: Call)
    requires Repeats(s, call)
    ensures (call.key in s.db.keys || 2 * call.amount <= Available(s.db, call.account))
            <==> forall schedule :: OneAnswer(Execute(s, schedule))
  {
    InitialIsOk(s);
    if call.key in s.db.keys {
      forall schedule ensures OneAnswer(Execute(s, schedule)) {
        StoredIsFound(s, schedule, call);
      }
    } else if 2 * call.amount <= Available(s.db, call.account) {
      forall schedule ensures OneAnswer(Execute(s, schedule)) {
        RepeatsAgree(s, schedule, call, Available(s.db, call.account));
      }
    } else {
      RaceRefuses(s, call);
    }
  }

  // ---------- Commits under one key ----------

  /** Any number of commits that could each succeed alone, under one key that is not on record yet. */
  ghost predicate SharesKey(s: Sys, key: string) {
    && Initial(s) && key != "" && (key, CommitKind) !in s.db.journal
    && (forall i :: 0 <= i < |s.txs| ==> Committable(s.db, s.txs[i].call) && s.txs[i].call.key == key)
  }

  /** The reservation all of them name: active or committed, and the key on record only for it. */
  ghost predicate Named(db: Db, id: Id, key: string) {
    && id in db.reservations && db.reservations[id].status != Released
    && ((key, CommitKind) in db.journal ==> db.journal[(key, CommitKind)].reservationId == id)
  }

  ghost predicate Unhindered(db: Db, tx: Tx, id: Id, key: string) {
    && tx.call.CommitFunds? && tx.call.id == id && tx.call.key == key && id in db.reservations && MayPay(db, tx.call)
    && (Answered(tx) ==> !tx.pc.answer.Failed?)
  }

  lemma CommitMovesOn(db: Db, tx: Tx, id: Id, key: string)
    requires Inv(db) && TxOk(db, tx) && key != "" && Named(db, id, key) && Unhindered(db, tx, id, key)
    ensures var (db', tx') := AdvanceTx(db, tx); Named(db', id, key) && Unhindered(db', tx', id, key)
  {
    hide RowsOk, KeysOk, ReferencesKnown, EntriesOf;
    assert (key, CommitKind) in db.journal ==> OperationOk(db, CommitKind, db.journal[(key, CommitKind)]);
  }

  ghost predicate AllUnhindered(s: Sys, id: Id, key: string) {
    Named(s.db, id, key) && forall i :: 0 <= i < |s.txs| ==> Unhindered(s.db, s.txs[i], id, key)
  }

  lemma CommitNext(s: Sys, a: Action, id: Id, key: string)
    requires SysOk(s) && key != "" && AllUnhindered(s, id, key)
    ensures AllUnhindered(Next(s, a), id, key)
  {
    hide Inv, AdvanceTx, TxOk, Available, CurrencySum;
    NextKeeps(s, a);
    if a.tx < |s.txs| {
      CommitMovesOn(s.db, s.txs[a.tx], id, key);
    }
  }

  lemma {:induction false} CommitsAgree(s: Sys, schedule: seq<Action>, id: Id, key: string)
    requires SysOk(s) && key != "" && AllUnhindered(s, id, key)
    ensures OneAnswer(Execute(s, schedule))
    decreases |schedule|
  {
    if schedule == [] {
      forall i, j | 0 <= i < |s.txs| && 0 <= j < |s.txs| && Answered(s.txs[i]) && Answered(s.txs[j])
        ensures !s.txs[i].pc.answer.Failed? && s.txs[i].pc.answer == s.txs[j].pc.answer
      {
        OnePairPerReservation(s, i, j);
      }
    } else {
      hide SysOk, Next, AllUnhindered, OneAnswer;
      NextKeeps(s, schedule[0]);
      CommitNext(s, schedule[0], id, key);
      CommitsAgree(Next(s, schedule[0]), schedule[1..], id, key);
    }
  }

  lemma StillCommittable(db: Db, first: Call, second: Call)
    requires Committable(db, first) && Committable(db, second) && first.id != second.id
    ensures Committable(CommittedDb(db, first), second) && CommittedDb(db, first).nextId == db.nextId + 3
  {
  }

  /** Two of different reservations that both look the key up too early both succeed, each with its own
      entries. */
  lemma RaceDisagrees(s: Sys, key: string, i: nat, j: nat)
    requires SharesKey(s, key) && i < |s.txs| && j < |s.txs| && s.txs[i].call.id != s.txs[j].call.id
    ensures !OneAnswer(Execute(s, Race(i, j)))
  {
    hide After, Execute, Inv, CommittedDb;
    var first, second := s.txs[i].call, s.txs[j].call;
    assert s.txs[i] == Tx(first, Start, {}) && s.txs[j] == Tx(second, Start, {});
    LookUpCommit(s.db, first);
    LookUpCommit(s.db, second);
    CommitAlone(s.db, first);
    StillCommittable(s.db, first, second);
    CommitAlone(CommittedDb(s.db, first), second);
    RaceRuns(s, i, j);
    var t := Execute(s, Race(i, j));
    assert Answered(t.txs[i]) && Answered(t.txs[j]);
    assert t.txs[i].pc.answer.entryIds[0] == s.db.nextId + 1 && t.txs[j].pc.answer.entryIds[0] == s.db.nextId + 4;
  }

  /** Any number of commits under one key: every schedule, with rollbacks and lost answers anywhere, gives
      all that are answered the same entries if and only if they all name the same reservation. */
  lemma SharedCommitKey(s: Sys, key: string)
    requires SharesKey(s, key)
    ensures (forall i, j :: 0 <= i < |s.txs| && 0 <= j < |s.txs| ==> s.txs[i].call.id == s.txs[j].call.id)
            <==> forall schedule :: OneAnswer(Execute(s, schedule))
  {
    InitialIsOk(s);
    if i, j :| 0 <= i < |s.txs| && 0 <= j < |s.txs| && s.txs[i].call.id != s.txs[j].call.id {
      RaceDisagrees(s, key, i, j);
    } else if s.txs != [] {
      var id := s.txs[0].call.id;
      forall schedule ensures OneAnswer(Execute(s, schedule)) {
        CommitsAgree(s, schedule, id, key);
      }
    } else {
      forall schedule ensures OneAnswer(Execute(s, schedule)) {
        NobodyStays(s, schedule);
      }
    }
  }

  lemma {:induction false} NobodyStays(s: Sys, schedule: seq<Action>)
    requires s.txs == []
    ensures Execute(s, schedule).txs == []
    decreases |schedule|
  {
    if schedule != [] {
      NobodyStays(Next(s, schedule[0]), schedule[1..]);
    }
  }
}
