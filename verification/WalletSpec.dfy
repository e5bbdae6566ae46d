/** What one wallet call does to the stored data when it runs alone, and what every
    sequence of calls keeps. */
module WalletSpec {
  import opened Ledger

  datatype Error =
    | EmptyIdempotencyKey
    | InvalidAmount
    | AccountNotFound
    | CurrencyMismatch
    | InsufficientFunds
    | ReservationNotFound
    | AlreadyReleased
    | AlreadyCommitted
    | ConflictWithoutWinner
    | StoreFailure

  datatype Call =
    | ReserveFunds(account: int, amount: int, currency: string, key: string)
    | CommitFunds(id: Id, payee: int, key: string)
    | ReleaseFunds(id: Id, key: string)

  datatype Answer =
    | Reserved(id: Id, availableAfter: int)
    | Posted(entryIds: seq<Id>)
    | Freed(available: int, currency: string)
    | Failed(error: Error)

  function Reserve(db: Db, account: int, amount: int, currency: string, key: string): (Db, Answer) {
    if key == "" then (db, Failed(EmptyIdempotencyKey))
    else if amount <= 0 then (db, Failed(InvalidAmount))
    else if key in db.keys && db.keys[key] in db.reservations then
      var existing := db.reservations[db.keys[key]];
      (db, Reserved(existing.id, existing.availableAfter))
    else if account !in db.accounts then (db, Failed(AccountNotFound))
    else if db.accounts[account].currency != currency then (db, Failed(CurrencyMismatch))
    else
      var available := Available(db, account);
      if available < amount then (db, Failed(InsufficientFunds))
      else
        var row := Reservation(db.nextId, account, amount, currency, Active, key, available - amount);
        (AddReservation(Draw(db, 1), row), Reserved(row.id, row.availableAfter))
  }

  /** The whole effect of a first commit under given identifiers: the pair, the journal line. */
  function Confirm(db: Db, id: Id, payee: int, operation: Id, debit: Id, credit: Id, key: string): Db
    requires id in db.reservations
  {
    Record(Post(db, id, payee, operation, debit, credit), key, CommitKind,
           Operation(id, CommitResult([debit, credit])))
  }

  function Commit(db: Db, id: Id, payee: int, key: string): (Db, Answer) {
    if key == "" then (db, Failed(EmptyIdempotencyKey))
    else if (key, CommitKind) in db.journal && db.journal[(key, CommitKind)].result.CommitResult? then
      (db, Posted(db.journal[(key, CommitKind)].result.entryIds))
    else if id !in db.reservations then (db, Failed(ReservationNotFound))
    else
      var r := db.reservations[id];
      match r.status
      case Committed =>
        var ids := EntryIds(EntriesOf(db.ledger, id));
        (Record(db, key, CommitKind, Operation(id, CommitResult(ids))), Posted(ids))
      case Released => (db, Failed(AlreadyReleased))
      case Active =>
        if r.accountId !in db.accounts || payee !in db.accounts then (db, Failed(AccountNotFound))
        else if db.accounts[r.accountId].currency != r.currency || db.accounts[payee].currency != r.currency then
          (db, Failed(CurrencyMismatch))
        else
          var operation, debit, credit := db.nextId, db.nextId + 1, db.nextId + 2;
          (Confirm(Draw(db, 3), id, payee, operation, debit, credit, key), Posted([debit, credit]))
  }

  function Release(db: Db, id: Id, key: string): (Db, Answer) {
    if key == "" then (db, Failed(EmptyIdempotencyKey))
    else if (key, ReleaseKind) in db.journal && db.journal[(key, ReleaseKind)].result.ReleaseResult? then
      var saved := db.journal[(key, ReleaseKind)].result;
      (db, Freed(saved.available, saved.currency))
    else if id !in db.reservations then (db, Failed(ReservationNotFound))
    else
      var r := db.reservations[id];
      if r.status == Committed then (db, Failed(AlreadyCommitted))
      else
        var freed := if r.status == Released then db else SetStatus(db, id, Released);
        var available := Available(freed, r.accountId);
        (Record(freed, key, ReleaseKind, Operation(id, ReleaseResult(available, r.currency))),
         Freed(available, r.currency))
  }

  function Serve(db: Db, call: Call): (Db, Answer) {
    match call
    case ReserveFunds(account, amount, currency, key) => Reserve(db, account, amount, currency, key)
    case CommitFunds(id, payee, key) => Commit(db, id, payee, key)
    case ReleaseFunds(id, key) => Release(db, id, key)
  }

  function Run(db: Db, calls: seq<Call>): Db
    decreases |calls|
  {
    if calls == [] then db else Run(Serve(db, calls[0]).0, calls[1..])
  }

  // ---------- One call ----------

  lemma ReserveSteps(db: Db, account: int, amount: int, currency: string, key: string)
    requires Inv(db)
    ensures var (db', answer) := Reserve(db, account, amount, currency, key);
            && Inv(db') && Later(db, db') && SameTotals(db, db')
            && (answer.Failed? ==> db' == db)
            && (answer.Reserved? ==> key in db'.keys && db'.keys[key] == answer.id
                                     && db'.reservations[answer.id].availableAfter == answer.availableAfter)
  {
    var (db', answer) := Reserve(db, account, amount, currency, key);
    if db' != db {
      var drawn := Draw(db, 1);
      var row := db'.reservations[db.nextId];
      Drawn(db, 1);
      ReservationAdded(drawn, row);
      ReservationAddedLater(drawn, row);
      LaterIsTransitive(db, drawn, db');
    } else if answer.Reserved? {
      assert RowOk(db, db.keys[key]);
    }
  }

  /** A new reservation takes exactly its amount out of one account, which stays able to pay;
      the answer is that account's new available amount. */
  lemma ReserveAmounts(db: Db, account: int, amount: int, currency: string, key: string)
    requires Inv(db)
    ensures var (db', answer) := Reserve(db, account, amount, currency, key);
            && NoOverdraft(db, db')
            && (db' != db ==>
                  && answer.Reserved? && 0 <= Available(db', account) == answer.availableAfter == Available(db, account) - amount
                  && (forall a :: a != account ==> Available(db', a) == Available(db, a)))
  {
    var (db', answer) := Reserve(db, account, amount, currency, key);
    if db' != db {
      Drawn(db, 1);
      forall a
        ensures Available(db', a) == Available(db, a) - if a == account then amount else 0
      {
        DrawnAmounts(db, 1, a);
        ReservationAddedAmounts(Draw(db, 1), db'.reservations[db.nextId], a);
      }
    }
  }

  lemma Confirmed(db: Db, id: Id, payee: int, operation: Id, debit: Id, credit: Id, key: string)
    requires Inv(db) && id in db.reservations && db.reservations[id].status == Active
    requires payee in db.accounts && db.accounts[payee].currency == db.reservations[id].currency
    requires debit < credit
    ensures Inv(Confirm(db, id, payee, operation, debit, credit, key))
  {
    PostedRow(db, id, payee, operation, debit, credit);
    PostedEntries(db, id, payee, operation, debit, credit);
    Recorded(Post(db, id, payee, operation, debit, credit), key, CommitKind, Operation(id, CommitResult([debit, credit])));
  }

  lemma ConfirmedKeeps(db: Db, id: Id, payee: int, operation: Id, debit: Id, credit: Id, key: string)
    requires Inv(db) && id in db.reservations && db.reservations[id].status == Active
    requires payee in db.accounts && db.accounts[payee].currency == db.reservations[id].currency
    ensures Later(db, Confirm(db, id, payee, operation, debit, credit, key))
    ensures SameTotals(db, Confirm(db, id, payee, operation, debit, credit, key))
    ensures EntryIds(EntriesOf(Confirm(db, id, payee, operation, debit, credit, key).ledger, id)) == [debit, credit]
  {
    assert RowOk(db, id);
    var posted := Post(db, id, payee, operation, debit, credit);
    var op := Operation(id, CommitResult([debit, credit]));
    PostedLater(db, id, payee, operation, debit, credit);
    PostedTotals(db, id, payee, operation, debit, credit);
    PostedEntries(db, id, payee, operation, debit, credit);
    RecordedKeeps(posted, key, CommitKind, op);
    LaterIsTransitive(db, posted, Record(posted, key, CommitKind, op));
  }

  lemma CommitSteps(db: Db, id: Id, payee: int, key: string)
    requires Inv(db)
    ensures Inv(Commit(db, id, payee, key).0)
  {
    hide RowsOk, KeysOk, ReferencesKnown;
    var db' := Commit(db, id, payee, key).0;
    if db' != db {
      if db.reservations[id].status == Active {
        Drawn(db, 3);
        Confirmed(Draw(db, 3), id, payee, db.nextId, db.nextId + 1, db.nextId + 2, key);
      } else {
        Recorded(db, key, CommitKind, Operation(id, CommitResult(EntryIds(EntriesOf(db.ledger, id)))));
      }
    }
  }

  lemma CommitKeeps(db: Db, id: Id, payee: int, key: string)
    requires Inv(db)
    ensures var (db', answer) := Commit(db, id, payee, key);
            Later(db, db') && SameTotals(db, db') && (answer.Failed? ==> db' == db)
  {
    hide Inv, Later, CurrencySum, EntriesOf;
    var (db', answer) := Commit(db, id, payee, key);
    if db' != db {
      if db.reservations[id].status == Active {
        var drawn := Draw(db, 3);
        Drawn(db, 3);
        ConfirmedKeeps(drawn, id, payee, db.nextId, db.nextId + 1, db.nextId + 2, key);
        LaterIsTransitive(db, drawn, db');
      } else {
        RecordedKeeps(db, key, CommitKind, Operation(id, CommitResult(answer.entryIds)));
      }
    } else {
      LaterIsReflexive(db);
    }
  }

  lemma CommitIsRecorded(db: Db, id: Id, payee: int, key: string)
    requires Inv(db)
    ensures var (db', answer) := Commit(db, id, payee, key);
            answer.Posted? ==> (key, CommitKind) in db'.journal && db'.journal[(key, CommitKind)].result == CommitResult(answer.entryIds)
  {
    if (key, CommitKind) in db.journal {
      assert OperationOk(db, CommitKind, db.journal[(key, CommitKind)]);
    }
    hide Inv, OperationOk, Post;
  }

  /** A commit pays the payee and takes from nobody's available amount: the buyer's money was
      already held. */
  lemma CommitAmounts(db: Db, id: Id, payee: int, key: string)
    requires Inv(db)
    ensures var db' := Commit(db, id, payee, key).0;
            (forall a :: Available(db, a) <= Available(db', a) && (a != payee ==> Available(db', a) == Available(db, a)))
  {
    var db' := Commit(db, id, payee, key).0;
    forall a
      ensures Available(db, a) <= Available(db', a) && (a != payee ==> Available(db', a) == Available(db, a))
    {
      if db' != db && db.reservations[id].status == Active {
        assert RowOk(db, id);
        DrawnAmounts(db, 3, a);
        PostedAmounts(Draw(db, 3), id, payee, db.nextId, db.nextId + 1, db.nextId + 2, a);
      }
    }
  }

  lemma ReleaseSteps(db: Db, id: Id, key: string)
    requires Inv(db)
    ensures Inv(Release(db, id, key).0)
  {
    var (db', answer) := Release(db, id, key);
    if db' != db {
      var op := Operation(id, ReleaseResult(answer.available, answer.currency));
      if db.reservations[id].status == Active {
        ReleasedRow(db, id);
        Recorded(SetStatus(db, id, Released), key, ReleaseKind, op);
      } else {
        Recorded(db, key, ReleaseKind, op);
      }
    }
  }

  lemma ReleaseKeeps(db: Db, id: Id, key: string)
    requires Inv(db)
    ensures var (db', answer) := Release(db, id, key);
            && Later(db, db') && SameTotals(db, db')
            && (answer.Failed? ==> db' == db)
            && (answer.Freed? ==> (key, ReleaseKind) in db'.journal
                                  && db'.journal[(key, ReleaseKind)].result == ReleaseResult(answer.available, answer.currency))
  {
    hide RowsOk, KeysOk, ReferencesKnown;
    var (db', answer) := Release(db, id, key);
    if (key, ReleaseKind) in db.journal {
      assert OperationOk(db, ReleaseKind, db.journal[(key, ReleaseKind)]);
    } else if answer.Freed? {
      var op := Operation(id, ReleaseResult(answer.available, answer.currency));
      if db.reservations[id].status == Active {
        var freed := SetStatus(db, id, Released);
        ReleasedLater(db, id);
        RecordedKeeps(freed, key, ReleaseKind, op);
        LaterIsTransitive(db, freed, db');
      } else {
        RecordedKeeps(db, key, ReleaseKind, op);
      }
    }
  }

  /** A release gives the held amount back to its own account, once, and touches no other. */
  lemma ReleaseAmounts(db: Db, id: Id, key: string)
    requires Inv(db)
    ensures var (db', answer) := Release(db, id, key);
            && (forall a :: Available(db, a) <= Available(db', a))
            && (answer.Freed? && id in db.reservations && (key, ReleaseKind) !in db.journal ==>
                  var r := db.reservations[id];
                  && answer == Freed(Available(db', r.accountId), r.currency)
                  && (forall a :: Available(db', a) == Available(db, a) + if a == r.accountId && r.status == Active then r.amount else 0))
  {
    var (db', answer) := Release(db, id, key);
    forall a
      ensures Available(db', a) == Available(db, a) +
              if db' != db && a == db.reservations[id].accountId && db.reservations[id].status == Active
              then db.reservations[id].amount else 0
      ensures Available(db, a) <= Available(db', a)
    {
      if db' != db && db.reservations[id].status == Active {
        assert RowOk(db, id);
        ReleasedAmounts(db, id, a);
      }
    }
  }

  lemma ServeKeeps(db: Db, call: Call)
    requires Inv(db)
    ensures var (db', answer) := Serve(db, call);
            && Inv(db') && Later(db, db') && SameTotals(db, db') && NoOverdraft(db, db')
            && (answer.Failed? ==> db' == db)
  {
    match call
    case ReserveFunds(account, amount, currency, key) =>
      ReserveSteps(db, account, amount, currency, key);
      ReserveAmounts(db, account, amount, currency, key);
    case CommitFunds(id, payee, key) =>
      CommitSteps(db, id, payee, key);
      CommitKeeps(db, id, payee, key);
      CommitAmounts(db, id, payee, key);
    case ReleaseFunds(id, key) =>
      ReleaseSteps(db, id, key);
      ReleaseKeeps(db, id, key);
      ReleaseAmounts(db, id, key);
  }

  // ---------- Whole runs ----------

  /** Over any run the ledger only grows, every currency total is kept, no account that could
      spend becomes overdrawn, every reservation stays balanced by its pair of entries, and
      committed and released are final. */
  lemma {:induction false} RunKeeps(db: Db, calls: seq<Call>)
    requires Inv(db)
    ensures var db' := Run(db, calls);
            Inv(db') && Later(db, db') && SameTotals(db, db') && NoOverdraft(db, db')
    decreases |calls|
  {
    if calls != [] {
      var db1 := Serve(db, calls[0]).0;
      ServeKeeps(db, calls[0]);
      RunKeeps(db1, calls[1..]);
      LaterIsTransitive(db, db1, Run(db1, calls[1..]));
    }
  }

  lemma ReplayReserve(db: Db, account: int, amount: int, currency: string, key: string, calls: seq<Call>,
                      account': int, amount': int, currency': string)
    requires Inv(db) && 0 < amount' && !Reserve(db, account, amount, currency, key).1.Failed?
    ensures var (db1, answer) := Reserve(db, account, amount, currency, key); var db2 := Run(db1, calls);
            Reserve(db2, account', amount', currency', key) == (db2, answer)
  {
    var (db1, answer) := Reserve(db, account, amount, currency, key);
    ReserveSteps(db, account, amount, currency, key);
    RunKeeps(db1, calls);
    assert RowOk(db1, answer.id);
  }

  lemma ReplayCommit(db: Db, id: Id, payee: int, key: string, calls: seq<Call>, id': Id, payee': int)
    requires Inv(db) && !Commit(db, id, payee, key).1.Failed?
    ensures var (db1, answer) := Commit(db, id, payee, key); var db2 := Run(db1, calls);
            Commit(db2, id', payee', key) == (db2, answer)
  {
    hide Inv, CurrencySum, Confirm;
    CommitSteps(db, id, payee, key);
    CommitIsRecorded(db, id, payee, key);
    RunKeeps(Commit(db, id, payee, key).0, calls);
  }

  lemma ReplayRelease(db: Db, id: Id, key: string, calls: seq<Call>, id': Id)
    requires Inv(db) && !Release(db, id, key).1.Failed?
    ensures var (db1, answer) := Release(db, id, key); var db2 := Run(db1, calls);
            Release(db2, id', key) == (db2, answer)
  {
    hide Inv, CurrencySum;
    ReleaseSteps(db, id, key);
    ReleaseKeeps(db, id, key);
    RunKeeps(Release(db, id, key).0, calls);
  }

  /** The same operation under the same key, whatever its other arguments. */
  ghost predicate SameKey(call: Call, again: Call) {
    match call
    case ReserveFunds(_, _, _, key) => again.ReserveFunds? && again.key == key && 0 < again.amount
    case CommitFunds(_, _, key) => again.CommitFunds? && again.key == key
    case ReleaseFunds(_, key) => again.ReleaseFunds? && again.key == key
  }

  /** Repeating a successful operation with its key, after any other calls (among them the other
      operation under the very same key), gives the first answer and changes nothing. */
  lemma Replay(db: Db, call: Call, calls: seq<Call>, again: Call)
    requires Inv(db) && !Serve(db, call).1.Failed? && SameKey(call, again)
    ensures var (db1, answer) := Serve(db, call); var db2 := Run(db1, calls);
            Serve(db2, again) == (db2, answer)
  {
    match call
    case ReserveFunds(account, amount, currency, key) =>
      ReplayReserve(db, account, amount, currency, key, calls, again.account, again.amount, again.currency);
    case CommitFunds(id, payee, key) =>
      ReplayCommit(db, id, payee, key, calls, again.id, again.payee);
    case ReleaseFunds(id, key) =>
      ReplayRelease(db, id, key, calls, again.id);
  }

  /** The pair of entries of a committed reservation is never added to. */
  lemma PairStays(db: Db, db': Db, id: Id)
    requires Inv(db) && Inv(db') && Later(db, db')
    requires id in db.reservations && db.reservations[id].status == Committed
    ensures EntriesOf(db'.ledger, id) == EntriesOf(db.ledger, id)
  {
    assert RowOk(db, id) && RowOk(db', id);
    EntriesOfGrow(db.ledger, db'.ledger, id);
  }

  /** Committed and released are final. After any calls, a committed reservation cannot be released
      and every commit of it names the same two entries; a released one cannot be committed. */
  lemma FinalStates(db: Db, id: Id, calls: seq<Call>, payee: int, key: string)
    requires Inv(db) && id in db.reservations && key != ""
    requires (key, CommitKind) !in Run(db, calls).journal && (key, ReleaseKind) !in Run(db, calls).journal
    ensures var db' := Run(db, calls); var status := db.reservations[id].status;
            && (status == Committed ==>
                  && Release(db', id, key) == (db', Failed(AlreadyCommitted))
                  && Commit(db', id, payee, key).1 == Posted(EntryIds(EntriesOf(db.ledger, id))))
            && (status == Released ==>
                  && Commit(db', id, payee, key) == (db', Failed(AlreadyReleased))
                  && Release(db', id, key).1.Freed?)
  {
    hide RowsOk, KeysOk, ReferencesKnown;
    var db' := Run(db, calls);
    RunKeeps(db, calls);
    if db.reservations[id].status == Committed {
      PairStays(db, db', id);
    }
  }
}
