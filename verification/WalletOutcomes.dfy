/** What every call comes to when it runs alone: which answer it gets under which condition, and field by
    field what it has changed. */
module WalletOutcomes {
  import opened Ledger
  import opened WalletSpec

  ghost predicate Holds(db: Db, account: int, currency: string) {
    account in db.accounts && db.accounts[account].currency == currency
  }

  ghost predicate Has(db: Db, id: Id, status: Status) {
    id in db.reservations && db.reservations[id].status == status
  }

  /** Without a key nothing is done, and an amount has to be positive. */
  lemma Unkeyed(db: Db, call: Call)
    requires Inv(db)
    ensures Serve(db, call).1 == Failed(EmptyIdempotencyKey) <==> call.key == ""
    ensures call.ReserveFunds? ==> (Serve(db, call).1 == Failed(InvalidAmount) <==> call.key != "" && call.amount <= 0)
  {
    hide Inv;
  }

  /** A Reserve under a new key succeeds exactly when its account is known, in its currency, and can pay. */
  lemma ReserveOutcome(db: Db, account: int, amount: int, currency: string, key: string)
    requires Inv(db) && key != "" && 0 < amount && key !in db.keys
    ensures var answer := Reserve(db, account, amount, currency, key).1;
            && (answer == Failed(AccountNotFound) <==> account !in db.accounts)
            && (answer == Failed(CurrencyMismatch) <==> account in db.accounts && db.accounts[account].currency != currency)
            && (answer == Failed(InsufficientFunds) <==> Holds(db, account, currency) && Available(db, account) < amount)
            && (answer.Reserved? <==> Holds(db, account, currency) && amount <= Available(db, account))
  {
    hide Inv, Available;
  }

  /** Then one row has come into being, active, of that amount, and nothing else has changed. */
  lemma ReserveChanges(db: Db, account: int, amount: int, currency: string, key: string)
    requires Inv(db) && key != "" && 0 < amount && key !in db.keys
    requires Holds(db, account, currency) && amount <= Available(db, account)
    ensures var (db', answer) := Reserve(db, account, amount, currency, key);
            && answer == Reserved(answer.id, Available(db, account) - amount) && answer.id !in db.reservations
            && db'.reservations == db.reservations[answer.id := Reservation(answer.id, account, amount, currency, Active, key, answer.availableAfter)]
            && db'.keys == db.keys[key := answer.id]
            && db'.accounts == db.accounts && db'.ledger == db.ledger && db'.journal == db.journal && db'.outbox == db.outbox
            && Available(db', account) == answer.availableAfter && (forall a :: a != account ==> Available(db', a) == Available(db, a))
  {
    var answer := Reserve(db, account, amount, currency, key).1;
    assert answer.id in db.reservations ==> RowOk(db, answer.id);
    hide Inv, RowOk;
    ReserveAmounts(db, account, amount, currency, key);
  }

  lemma BuyerIsKnown(db: Db, id: Id)
    requires Inv(db) && id in db.reservations
    ensures Holds(db, db.reservations[id].accountId, db.reservations[id].currency)
  {
    assert RowOk(db, id);
  }

  /** A Commit under a new key succeeds exactly when the reservation is committed already, or active with
      a payee known in its currency. */
  lemma CommitOutcome(db: Db, id: Id, payee: int, key: string)
    requires Inv(db) && key != "" && (key, CommitKind) !in db.journal
    ensures var answer := Commit(db, id, payee, key).1;
            && (answer == Failed(ReservationNotFound) <==> id !in db.reservations)
            && (answer == Failed(AlreadyReleased) <==> Has(db, id, Released))
            && (answer == Failed(AccountNotFound) <==> Has(db, id, Active) && payee !in db.accounts)
            && (answer == Failed(CurrencyMismatch) <==>
                  Has(db, id, Active) && payee in db.accounts && db.accounts[payee].currency != db.reservations[id].currency)
            && (answer.Posted? <==> Has(db, id, Committed) || (Has(db, id, Active) && Holds(db, payee, db.reservations[id].currency)))
  {
    if id in db.reservations {
      BuyerIsKnown(db, id);
    }
    hide Inv, Confirm, Draw, EntriesOf;
  }

  /** The two steps of a first commit: posting, and putting the answer on record. */
  lemma CommitConfirms(db: Db, id: Id, payee: int, key: string)
    requires Inv(db) && key != "" && (key, CommitKind) !in db.journal
    requires Has(db, id, Active) && Holds(db, payee, db.reservations[id].currency)
    ensures var posted := Post(Draw(db, 3), id, payee, db.nextId, db.nextId + 1, db.nextId + 2);
            var ids := [db.nextId + 1, db.nextId + 2];
            Commit(db, id, payee, key) == (Record(posted, key, CommitKind, Operation(id, CommitResult(ids))), Posted(ids))
  {
    BuyerIsKnown(db, id);
    hide Inv, Post, Record, EntriesOf;
  }

  lemma PostedOnto(db: Db, id: Id, payee: int, operation: Id, debit: Id, credit: Id)
    requires id in db.reservations && db.reservations[id].id == id && EntriesOf(db.ledger, id) == []
    ensures var r := db.reservations[id];
            var pair := [DebitOf(r, operation, debit), CreditOf(r, payee, operation, credit)];
            var ledger := Post(db, id, payee, operation, debit, credit).ledger;
            ledger == db.ledger + pair && EntriesOf(ledger, id) == pair
  {
    hide EntriesOf, EventsOf, DebitOf, CreditOf;
    PostedTables(db, id, payee, operation, debit, credit, id);
  }

  lemma NoneYet(db: Db, id: Id)
    requires Inv(db) && Has(db, id, Active)
    ensures EntriesOf(db.ledger, id) == [] && db.reservations[id].id == id
  {
    assert RowOk(db, id);
  }

  /** Confirming an active reservation posts its amount from its own account to the payee, both entries
      under one operation, in its name, and answers with the two. */
  lemma CommitPosts(db: Db, id: Id, payee: int, key: string)
    requires Inv(db) && key != "" && (key, CommitKind) !in db.journal
    requires Has(db, id, Active) && Holds(db, payee, db.reservations[id].currency)
    ensures var (db', answer) := Commit(db, id, payee, key); var r := db.reservations[id]; var n := |db.ledger|;
            && |db'.ledger| == n + 2 && db'.ledger[..n] == db.ledger && EntriesOf(db'.ledger, id) == db'.ledger[n..]
            && var d, c := db'.ledger[n], db'.ledger[n + 1];
               && d == Entry(d.id, r.accountId, r.amount, Debit, d.operationId, ORDER_PAYMENT, id)
               && c == Entry(c.id, payee, r.amount, Credit, d.operationId, ORDER_PAYMENT, id)
               && answer == Posted([d.id, c.id])
  {
    CommitConfirms(db, id, payee, key);
    NoneYet(db, id);
    PostedOnto(Draw(db, 3), id, payee, db.nextId, db.nextId + 1, db.nextId + 2);
    hide Inv, EntriesOf, Commit, Post;
  }

  /** The row is committed, one event tells of the debit, the answer is on record, and nothing else has
      changed. */
  lemma CommitChanges(db: Db, id: Id, payee: int, key: string)
    requires Inv(db) && key != "" && (key, CommitKind) !in db.journal
    requires Has(db, id, Active) && Holds(db, payee, db.reservations[id].currency)
    ensures var (db', answer) := Commit(db, id, payee, key); var r := db.reservations[id];
            && answer.Posted?
            && db'.reservations == db.reservations[id := r.(status := Committed)]
            && db'.outbox == db.outbox + [Debited(r.accountId, r.amount, r.currency, ORDER_PAYMENT, id)]
            && db'.journal == db.journal[(key, CommitKind) := Operation(id, CommitResult(answer.entryIds))]
            && db'.accounts == db.accounts && db'.keys == db.keys
  {
    CommitConfirms(db, id, payee, key);
    NoneYet(db, id);
    hide Inv, EntriesOf, Commit;
  }

  /** And the payee has the amount to spend, at nobody's expense: the buyer's was held back already. */
  lemma CommitPays(db: Db, id: Id, payee: int, key: string)
    requires Inv(db) && key != "" && (key, CommitKind) !in db.journal
    requires Has(db, id, Active) && Holds(db, payee, db.reservations[id].currency)
    ensures var db' := Commit(db, id, payee, key).0;
            forall a :: Available(db', a) == Available(db, a) + if a == payee then db.reservations[id].amount else 0
  {
    CommitConfirms(db, id, payee, key);
    assert RowOk(db, id);
    hide Inv, RowOk, LedgerBalance, ActiveReserved, Post, Commit;
    var posted := Post(Draw(db, 3), id, payee, db.nextId, db.nextId + 1, db.nextId + 2);
    forall a ensures Available(posted, a) == Available(db, a) + if a == payee then db.reservations[id].amount else 0 {
      DrawnAmounts(db, 3, a);
      PostedAmounts(Draw(db, 3), id, payee, db.nextId, db.nextId + 1, db.nextId + 2, a);
    }
  }

  /** A Commit of a committed reservation under a new key names its two entries, puts them on record, and
      changes nothing else. */
  lemma CommitAgainChanges(db: Db, id: Id, payee: int, key: string)
    requires Inv(db) && key != "" && (key, CommitKind) !in db.journal && Has(db, id, Committed)
    ensures var (db', answer) := Commit(db, id, payee, key);
            && answer == Posted(EntryIds(EntriesOf(db.ledger, id))) && |answer.entryIds| == 2
            && db' == db.(journal := db.journal[(key, CommitKind) := Operation(id, CommitResult(answer.entryIds))])
  {
    assert RowOk(db, id);
  }

  /** A Release under a new key is refused exactly when its reservation is unknown or committed. */
  lemma ReleaseOutcome(db: Db, id: Id, key: string)
    requires Inv(db) && key != "" && (key, ReleaseKind) !in db.journal
    ensures var answer := Release(db, id, key).1;
            && (answer == Failed(ReservationNotFound) <==> id !in db.reservations)
            && (answer == Failed(AlreadyCommitted) <==> Has(db, id, Committed))
            && (answer.Freed? <==> Has(db, id, Active) || Has(db, id, Released))
  {
    hide Inv, Available;
  }

  /** An active reservation is released and its amount can be spent again; a released one stays as it is.
      The answer is what the account then has, and it is on record. */
  lemma ReleaseChanges(db: Db, id: Id, key: string)
    requires Inv(db) && key != "" && (key, ReleaseKind) !in db.journal
    requires Has(db, id, Active) || Has(db, id, Released)
    ensures var (db', answer) := Release(db, id, key); var r := db.reservations[id];
            && answer == Freed(Available(db', r.accountId), r.currency)
            && db'.reservations == db.reservations[id := r.(status := Released)]
            && db'.journal == db.journal[(key, ReleaseKind) := Operation(id, ReleaseResult(answer.available, answer.currency))]
            && db'.accounts == db.accounts && db'.ledger == db.ledger && db'.keys == db.keys && db'.outbox == db.outbox
            && (forall a :: Available(db', a) == Available(db, a) + if a == r.accountId && r.status == Active then r.amount else 0)
  {
    ReleaseAmounts(db, id, key);
    hide Inv, Available;
    var db' := Release(db, id, key).0;
    assert db.reservations[id := db.reservations[id]] == db.reservations;
  }
}
