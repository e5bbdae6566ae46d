/** A transaction that nobody interferes with does exactly what the serial specification says. */
module WalletAlone {
  import opened Wrappers
  import opened Ledger
  import opened WalletSpec
  import WalletOutcomes
  import opened WalletService
  import opened WalletTx

  // ---------- Steps of one transaction ----------

  function After(db: Db, tx: Tx, n: nat): (Db, Tx)
    decreases n
  {
    if n == 0 then (db, tx) else var (db1, tx1) := AdvanceTx(db, tx); After(db1, tx1, n - 1)
  }

  function Steps(i: nat, n: nat): (steps: seq<Action>)
    ensures |steps| == n && forall k :: 0 <= k < n ==> steps[k] == Advance(i)
  {
    seq(n, _ => Advance(i))
  }

  lemma {:induction false} AloneRuns(s: Sys, i: nat, n: nat)
    requires i < |s.txs| && forall j :: 0 <= j < |s.txs| && j != i ==> s.txs[j].locks == {}
    ensures var (db, tx) := After(s.db, s.txs[i], n); Execute(s, Steps(i, n)) == Sys(db, s.txs[i := tx])
    decreases n
  {
    hide AdvanceReserve, AdvanceCommit, AdvanceRelease;
    if n > 0 {
      var t := Next(s, Advance(i));
      FinishedIsFinal(s.db, s.txs[i]);
      assert Steps(i, n)[1..] == Steps(i, n - 1);
      AloneRuns(t, i, n - 1);
    } else {
      assert s.txs[i := s.txs[i]] == s.txs;
    }
  }

  lemma FinishedIsFinal(db: Db, tx: Tx)
    ensures tx.pc.Finished? ==> AdvanceTx(db, tx) == (db, tx)
  {
  }

  lemma OneAfter(db: Db, tx: Tx, n: nat, db1: Db, tx1: Tx)
    requires 0 < n && AdvanceTx(db, tx) == (db1, tx1)
    ensures After(db, tx, n) == After(db1, tx1, n - 1)
  {
  }

  lemma {:induction false} NoneAfter(db: Db, tx: Tx, n: nat)
    requires n == 0 || tx.pc.Finished?
    ensures After(db, tx, n) == (db, tx)
    decreases n
  {
    if n > 0 {
      FinishedIsFinal(db, tx);
      NoneAfter(db, tx, n - 1);
    }
  }

  // ---------- Reserve ----------

  function RowFor(db: Db, call: Call): Reservation
    requires call.ReserveFunds?
  {
    Reservation(db.nextId, call.account, call.amount, call.currency, Active, call.key, Available(db, call.account) - call.amount)
  }

  function ReservedDb(db: Db, call: Call): Db
    requires call.ReserveFunds?
  {
    AddReservation(Draw(db, 1), RowFor(db, call))
  }

  lemma ReserveReads(db: Db, call: Call)
    requires call.ReserveFunds? && Solvent(db, call.account, call.currency)
    ensures After(db, Tx(call, ReserveLock, {}), 6) ==
            After(db, Tx(call, ReserveReserved(LedgerBalance(db.ledger, call.account)), {AccountLock(call.account)}), 4)
  {
    hide After, LedgerBalance, ActiveReserved;
    var a := {AccountLock(call.account)};
    assert {} + a == a;
    OneAfter(db, Tx(call, ReserveLock, {}), 6, db, Tx(call, ReserveBalance, a));
    OneAfter(db, Tx(call, ReserveBalance, a), 5, db, Tx(call, ReserveReserved(LedgerBalance(db.ledger, call.account)), a));
  }

  /** Past the lookup, a Reserve that finds too little is refused. */
  lemma RefusedAlone(db: Db, call: Call)
    requires call.ReserveFunds? && Solvent(db, call.account, call.currency) && Available(db, call.account) < call.amount
    ensures After(db, Tx(call, ReserveLock, {}), 6) == (db, Tx(call, Finished(Failed(InsufficientFunds)), {}))
  {
    ReserveReads(db, call);
    hide After, LedgerBalance, ActiveReserved;
    var end := Tx(call, Finished(Failed(InsufficientFunds)), {});
    OneAfter(db, Tx(call, ReserveReserved(LedgerBalance(db.ledger, call.account)), {AccountLock(call.account)}), 4, db, end);
    NoneAfter(db, end, 3);
  }

  /** One that finds enough, and whose key is free, stores its row. */
  lemma ReservedAlone(db: Db, call: Call)
    requires call.ReserveFunds? && Solvent(db, call.account, call.currency) && call.key !in db.keys
    requires call.amount <= Available(db, call.account)
    ensures var row := RowFor(db, call);
            After(db, Tx(call, ReserveLock, {}), 6) == (ReservedDb(db, call), Tx(call, Finished(Reserved(row.id, row.availableAfter)), {}))
  {
    ReserveReads(db, call);
    hide After, LedgerBalance, ActiveReserved, RowFor, ReservedDb;
    var a, available := {AccountLock(call.account)}, Available(db, call.account);
    OneAfter(db, Tx(call, ReserveReserved(LedgerBalance(db.ledger, call.account)), a), 4, db, Tx(call, ReserveInsert(available), a));
    ReserveStores(db, call);
  }

  lemma ReserveStores(db: Db, call: Call)
    requires call.ReserveFunds? && call.key !in db.keys
    ensures var row := RowFor(db, call);
            After(db, Tx(call, ReserveInsert(Available(db, call.account)), {AccountLock(call.account)}), 3)
            == (ReservedDb(db, call), Tx(call, Finished(Reserved(row.id, row.availableAfter)), {}))
  {
    hide After, Available;
    var row, available := RowFor(db, call), Available(db, call.account);
    var a, k := {AccountLock(call.account)}, {AccountLock(call.account), KeyLock(call.key)};
    assert a + {KeyLock(call.key)} == k;
    var ready := Ready(Insert(row), Reserved(row.id, row.availableAfter));
    OneAfter(db, Tx(call, ReserveInsert(available), a), 3, Draw(db, 1), Tx(call, ready, k));
    var end := Tx(call, Finished(Reserved(row.id, row.availableAfter)), {});
    OneAfter(Draw(db, 1), Tx(call, ready, k), 2, ReservedDb(db, call), end);
    NoneAfter(ReservedDb(db, call), end, 1);
  }

  lemma LookUp(db: Db, call: Call)
    requires call.ReserveFunds? && call.key != "" && 0 < call.amount && call.key !in db.keys
    ensures After(db, Tx(call, Start, {}), 1) == (db, Tx(call, ReserveLock, {}))
  {
    OneAfter(db, Tx(call, Start, {}), 1, db, Tx(call, ReserveLock, {}));
  }

  // ---------- Commit ----------

  /** A commit that nothing stands in the way of: an active reservation, both accounts known, all in one
      currency. */
  ghost predicate Committable(db: Db, call: Call) {
    && call.CommitFunds? && call.id in db.reservations && db.reservations[call.id].status == Active && MayPay(db, call)
  }

  ghost predicate MayPay(db: Db, call: Call)
    requires call.CommitFunds? && call.id in db.reservations
  {
    var r := db.reservations[call.id];
    Solvent(db, r.accountId, r.currency) && Solvent(db, call.payee, r.currency)
  }

  /** The database after one of them alone. */
  function CommittedDb(db: Db, call: Call): Db
    requires call.CommitFunds? && call.id in db.reservations
  {
    Confirm(Draw(db, 3), call.id, call.payee, db.nextId, db.nextId + 1, db.nextId + 2, call.key)
  }

  function PairLocksOf(db: Db, call: Call): set<Lock>
    requires call.CommitFunds? && call.id in db.reservations
  {
    {ReservationLock(call.id), AccountLock(db.reservations[call.id].accountId), AccountLock(call.payee)}
  }

  lemma CommitLocks(db: Db, call: Call) returns (n: nat)
    requires call.CommitFunds? && HasStatus(db, call.id, Active)
    requires db.reservations[call.id].accountId in db.accounts && call.payee in db.accounts
    ensures 3 <= n && After(db, Tx(call, CommitLock, {}), 6) == After(db, Tx(call, CommitCheck, PairLocksOf(db, call)), n)
  {
    hide After;
    var a := db.reservations[call.id].accountId;
    var low, high := Smaller(a, call.payee), Larger(a, call.payee);
    var l1, l2 := {ReservationLock(call.id)}, {ReservationLock(call.id), AccountLock(low)};
    var l3 := PairLocksOf(db, call);
    assert {} + l1 == l1 && l1 + {AccountLock(low)} == l2 && l2 + {AccountLock(high)} == l3;
    OneAfter(db, Tx(call, CommitLock, {}), 6, db, Tx(call, CommitFirst, l1));
    if a == call.payee {
      assert l2 == l3;
      OneAfter(db, Tx(call, CommitFirst, l1), 5, db, Tx(call, CommitCheck, l3));
      n := 4;
    } else {
      OneAfter(db, Tx(call, CommitFirst, l1), 5, db, Tx(call, CommitSecond, l2));
      OneAfter(db, Tx(call, CommitSecond, l2), 4, db, Tx(call, CommitCheck, l3));
      n := 3;
    }
  }

  lemma CommitPosts(db: Db, call: Call, locks: set<Lock>, n: nat)
    requires Committable(db, call) && 3 <= n
    ensures After(db, Tx(call, CommitCheck, locks), n) ==
            (CommittedDb(db, call), Tx(call, Finished(Posted([db.nextId + 1, db.nextId + 2])), {}))
  {
    hide After, Confirm;
    var pair := CommitRecord(db.nextId, db.nextId + 1, db.nextId + 2);
    var ready := Ready(PostPair(db.nextId, db.nextId + 1, db.nextId + 2), Posted([db.nextId + 1, db.nextId + 2]));
    var more := if (call.key, CommitKind) in db.journal then locks else locks + {OperationLock(call.key, CommitKind)};
    var end := Tx(call, Finished(Posted([db.nextId + 1, db.nextId + 2])), {});
    OneAfter(db, Tx(call, CommitCheck, locks), n, Draw(db, 3), Tx(call, pair, locks));
    OneAfter(Draw(db, 3), Tx(call, pair, locks), n - 1, Draw(db, 3), Tx(call, ready, more));
    OneAfter(Draw(db, 3), Tx(call, ready, more), n - 2, CommittedDb(db, call), end);
    NoneAfter(CommittedDb(db, call), end, n - 3);
  }

  lemma CommitAlone(db: Db, call: Call)
    requires Committable(db, call)
    ensures After(db, Tx(call, CommitLock, {}), 6) ==
            (CommittedDb(db, call), Tx(call, Finished(Posted([db.nextId + 1, db.nextId + 2])), {}))
  {
    hide After, CommittedDb;
    var n := CommitLocks(db, call);
    CommitPosts(db, call, PairLocksOf(db, call), n);
  }

  lemma LookUpCommit(db: Db, call: Call)
    requires call.CommitFunds? && call.key != "" && (call.key, CommitKind) !in db.journal
    ensures After(db, Tx(call, Start, {}), 1) == (db, Tx(call, CommitLock, {}))
  {
    OneAfter(db, Tx(call, Start, {}), 1, db, Tx(call, CommitLock, {}));
  }

  // ---------- From the start ----------

  /** In so many steps a call that runs alone has ended. */
  const ENOUGH := 7

  ghost predicate EndsAs(db: Db, call: Call, end: (Db, Answer)) {
    After(db, Tx(call, Start, {}), ENOUGH) == (end.0, Tx(call, Finished(end.1), {}))
  }

  lemma EndsAtOnce(db: Db, tx: Tx, n: nat, answer: Answer)
    requires 0 < n && AdvanceTx(db, tx) == (db, Finish(tx, answer))
    ensures After(db, tx, n) == (db, Tx(tx.call, Finished(answer), {}))
  {
    NoneAfter(db, Finish(tx, answer), n - 1);
  }

  lemma ReserveIsSerial(db: Db, call: Call)
    requires Inv(db) && call.ReserveFunds?
    ensures EndsAs(db, call, Serve(db, call))
  {
    hide After, Inv, Available;
    var start, locking := Tx(call, Start, {}), Tx(call, ReserveLock, {});
    KeysAreStored(db, call.key);
    if call.key == "" || call.amount <= 0 || call.key in db.keys {
      EndsAtOnce(db, start, ENOUGH, Serve(db, call).1);
    } else {
      OneAfter(db, start, ENOUGH, db, locking);
      if !Solvent(db, call.account, call.currency) {
        EndsAtOnce(db, locking, ENOUGH - 1, Serve(db, call).1);
      } else if Available(db, call.account) < call.amount {
        RefusedAlone(db, call);
      } else {
        ReservedAlone(db, call);
      }
    }
  }

  lemma CommitIsSerial(db: Db, call: Call)
    requires Inv(db) && call.CommitFunds?
    ensures EndsAs(db, call, Serve(db, call))
  {
    hide After, Inv, Confirm, EntriesOf, Record;
    var start, locking := Tx(call, Start, {}), Tx(call, CommitLock, {});
    JournalIsOfItsKind(db, call.key);
    if call.key == "" || (call.key, CommitKind) in db.journal {
      EndsAtOnce(db, start, ENOUGH, Serve(db, call).1);
    } else {
      OneAfter(db, start, ENOUGH, db, locking);
      if call.id !in db.reservations || HasStatus(db, call.id, Released) {
        EndsAtOnce(db, locking, ENOUGH - 1, Serve(db, call).1);
      } else {
        BuyerIsSolvent(db, call.id);
        if HasStatus(db, call.id, Committed) {
          CommitsAgain(db, call);
        } else if call.payee !in db.accounts {
          PayeeIsMissing(db, call);
        } else {
          var n := CommitLocks(db, call);
          if Solvent(db, call.payee, db.reservations[call.id].currency) {
            CommitPosts(db, call, PairLocksOf(db, call), n);
          } else {
            EndsAtOnce(db, Tx(call, CommitCheck, PairLocksOf(db, call)), n, Failed(CurrencyMismatch));
          }
        }
      }
    }
  }

  lemma JournalIsOfItsKind(db: Db, key: string)
    requires Inv(db)
    ensures (key, CommitKind) in db.journal ==> db.journal[(key, CommitKind)].result.CommitResult?
    ensures (key, ReleaseKind) in db.journal ==> db.journal[(key, ReleaseKind)].result.ReleaseResult?
  {
    assert forall kind :: (key, kind) in db.journal ==> OperationOk(db, kind, db.journal[(key, kind)]);
  }

  lemma CommitsAgain(db: Db, call: Call)
    requires call.CommitFunds? && HasStatus(db, call.id, Committed) && (call.key, CommitKind) !in db.journal
    ensures var ids := EntryIds(EntriesOf(db.ledger, call.id));
            After(db, Tx(call, CommitLock, {}), 6)
            == (Record(db, call.key, CommitKind, Operation(call.id, CommitResult(ids))), Tx(call, Finished(Posted(ids)), {}))
  {
    hide After, EntriesOf, Record;
    var ids := EntryIds(EntriesOf(db.ledger, call.id));
    var l1, l2 := {ReservationLock(call.id)}, {ReservationLock(call.id), OperationLock(call.key, CommitKind)};
    assert {} + l1 == l1 && l1 + {OperationLock(call.key, CommitKind)} == l2;
    var ready := Ready(RecordAgain(ids), Posted(ids));
    var recorded := Record(db, call.key, CommitKind, Operation(call.id, CommitResult(ids)));
    OneAfter(db, Tx(call, CommitLock, {}), 6, db, Tx(call, CommitEntries, l1));
    OneAfter(db, Tx(call, CommitEntries, l1), 5, db, Tx(call, CommitAgain(ids), l1));
    OneAfter(db, Tx(call, CommitAgain(ids), l1), 4, db, Tx(call, ready, l2));
    OneAfter(db, Tx(call, ready, l2), 3, recorded, Tx(call, Finished(Posted(ids)), {}));
    NoneAfter(recorded, Tx(call, Finished(Posted(ids)), {}), 2);
  }

  lemma PayeeIsMissing(db: Db, call: Call)
    requires call.CommitFunds? && HasStatus(db, call.id, Active)
    requires db.reservations[call.id].accountId in db.accounts && call.payee !in db.accounts
    ensures After(db, Tx(call, CommitLock, {}), 6) == (db, Tx(call, Finished(Failed(AccountNotFound)), {}))
  {
    hide After;
    var buyer, l1 := db.reservations[call.id].accountId, {ReservationLock(call.id)};
    assert {} + l1 == l1;
    OneAfter(db, Tx(call, CommitLock, {}), 6, db, Tx(call, CommitFirst, l1));
    if call.payee < buyer {
      EndsAtOnce(db, Tx(call, CommitFirst, l1), 5, Failed(AccountNotFound));
    } else {
      var second := Tx(call, CommitSecond, l1 + {AccountLock(buyer)});
      OneAfter(db, Tx(call, CommitFirst, l1), 5, db, second);
      EndsAtOnce(db, second, 4, Failed(AccountNotFound));
    }
  }

  lemma ReleaseIsSerial(db: Db, call: Call)
    requires Inv(db) && call.ReleaseFunds?
    ensures EndsAs(db, call, Serve(db, call))
  {
    hide After, Inv, Available;
    var start, locking := Tx(call, Start, {}), Tx(call, ReleaseLock, {});
    JournalIsOfItsKind(db, call.key);
    if call.key == "" || (call.key, ReleaseKind) in db.journal {
      EndsAtOnce(db, start, ENOUGH, Serve(db, call).1);
    } else {
      OneAfter(db, start, ENOUGH, db, locking);
      if call.id !in db.reservations || HasStatus(db, call.id, Committed) {
        EndsAtOnce(db, locking, ENOUGH - 1, Serve(db, call).1);
      } else {
        Releases(db, call);
        FreedIsRead(db, call.id);
      }
    }
  }

  /** What a Release adds up with its own status change seen. */
  function FreedAvailable(db: Db, id: Id): int
    requires id in db.reservations
  {
    var r := db.reservations[id];
    LedgerBalance(db.ledger, r.accountId) -
    (ActiveReserved(db.reservations, db.nextId, r.accountId) - if r.status == Active then Held(db.reservations, id, r.accountId) else 0)
  }

  lemma FreedIsRead(db: Db, id: Id)
    requires Inv(db) && id in db.reservations && db.reservations[id].status != Committed
    ensures var freed := if db.reservations[id].status == Released then db else SetStatus(db, id, Released);
            Available(freed, db.reservations[id].accountId) == FreedAvailable(db, id)
  {
    assert RowOk(db, id);
    hide Inv, RowOk;
    if db.reservations[id].status == Active {
      ReleasedAmounts(db, id, db.reservations[id].accountId);
    }
  }

  lemma Releases(db: Db, call: Call)
    requires call.ReleaseFunds? && call.id in db.reservations && db.reservations[call.id].status != Committed
    requires (call.key, ReleaseKind) !in db.journal
    ensures var r, available := db.reservations[call.id], FreedAvailable(db, call.id);
            After(db, Tx(call, ReleaseLock, {}), 6)
            == (ApplyFree(db, call.id, call.key, r.status == Active, available), Tx(call, Finished(Freed(available, r.currency)), {}))
  {
    hide After, LedgerBalance, ActiveReserved, ApplyFree, AdvanceReserve, AdvanceCommit;
    var r, available := db.reservations[call.id], FreedAvailable(db, call.id);
    var active := r.status == Active;
    var balance := LedgerBalance(db.ledger, r.accountId);
    var l1, l2 := {ReservationLock(call.id)}, {ReservationLock(call.id), OperationLock(call.key, ReleaseKind)};
    assert {} + l1 == l1 && l1 + {OperationLock(call.key, ReleaseKind)} == l2;
    var ready := Ready(Free(active, available), Freed(available, r.currency));
    var freed, end := ApplyFree(db, call.id, call.key, active, available), Tx(call, Finished(Freed(available, r.currency)), {});
    OneAfter(db, Tx(call, ReleaseLock, {}), 6, db, Tx(call, ReleaseBalance(active), l1));
    OneAfter(db, Tx(call, ReleaseBalance(active), l1), 5, db, Tx(call, ReleaseReserved(active, balance), l1));
    OneAfter(db, Tx(call, ReleaseReserved(active, balance), l1), 4, db, Tx(call, ReleaseRecord(active, available), l1));
    OneAfter(db, Tx(call, ReleaseRecord(active, available), l1), 3, db, Tx(call, ready, l2));
    OneAfter(db, Tx(call, ready, l2), 2, freed, end);
    NoneAfter(freed, end, 1);
  }

  /** In any reachable state in which nobody else is under way, a transaction at its start, left to run,
      ends with the database and the answer of the serial specification. */
  lemma AloneIsSerial(s: Sys, i: nat)
    requires SysOk(s) && i < |s.txs| && s.txs[i].pc == Start
    requires forall j :: 0 <= j < |s.txs| && j != i ==> s.txs[j].locks == {}
    ensures var (db', answer) := Serve(s.db, s.txs[i].call);
            Execute(s, Steps(i, ENOUGH)) == Sys(db', s.txs[i := Tx(s.txs[i].call, Finished(answer), {})])
  {
    assert TxOk(s.db, s.txs[i]);
    hide SysOk, TxOk, After, Serve, Execute;
    AloneRuns(s, i, ENOUGH);
    match s.txs[i].call
    case ReserveFunds(_, _, _, _) => ReserveIsSerial(s.db, s.txs[i].call);
    case CommitFunds(_, _, _) => CommitIsSerial(s.db, s.txs[i].call);
    case ReleaseFunds(_, _) => ReleaseIsSerial(s.db, s.txs[i].call);
  }

  /** So a Release under a new key is refused exactly when its reservation is unknown or committed; and
      otherwise it leaves the row released, gives its account back what the row held, and answers with what
      that account then has. */
  lemma ReleaseAlone(s: Sys, i: nat)
    requires SysOk(s) && i < |s.txs| && s.txs[i].pc == Start && s.txs[i].call.ReleaseFunds?
    requires Inv(s.db) && forall j :: 0 <= j < |s.txs| && j != i ==> s.txs[j].locks == {}
    requires s.txs[i].call.key != "" && (s.txs[i].call.key, ReleaseKind) !in s.db.journal
    ensures var t, id := Execute(s, Steps(i, ENOUGH)), s.txs[i].call.id;
            && |t.txs| == |s.txs|
            && (t.txs[i].pc == Finished(Failed(AlreadyCommitted)) <==> HasStatus(s.db, id, Committed))
            && (t.txs[i].pc == Finished(Failed(ReservationNotFound)) <==> id !in s.db.reservations)
            && (id in s.db.reservations && !HasStatus(s.db, id, Committed) ==>
                  var r := s.db.reservations[id];
                  && t.txs[i].pc == Finished(Freed(Available(t.db, r.accountId), r.currency)) && HasStatus(t.db, id, Released)
                  && forall a :: Available(t.db, a) == Available(s.db, a) + if a == r.accountId && r.status == Active then r.amount else 0)
  {
    AloneIsSerial(s, i);
    ServedRelease(s.db, s.txs[i].call);
    hide Execute, SysOk, Inv, Available, Serve;
  }

  lemma ServedRelease(db: Db, call: Call)
    requires Inv(db) && call.ReleaseFunds? && call.key != "" && (call.key, ReleaseKind) !in db.journal
    ensures var (db', answer) := Serve(db, call);
            && (answer == Failed(AlreadyCommitted) <==> HasStatus(db, call.id, Committed))
            && (answer == Failed(ReservationNotFound) <==> call.id !in db.reservations)
            && (call.id in db.reservations && !HasStatus(db, call.id, Committed) ==>
                  var r := db.reservations[call.id];
                  && answer == Freed(Available(db', r.accountId), r.currency) && HasStatus(db', call.id, Released)
                  && forall a :: Available(db', a) == Available(db, a) + if a == r.accountId && r.status == Active then r.amount else 0)
  {
    hide Inv, Available, Release;
    WalletOutcomes.ReleaseOutcome(db, call.id, call.key);
    if call.id in db.reservations && !HasStatus(db, call.id, Committed) {
      WalletOutcomes.ReleaseChanges(db, call.id, call.key);
    }
  }
}
