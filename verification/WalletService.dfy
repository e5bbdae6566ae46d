/** The wallet service as it runs inside one transaction of the store: steps that each may
    fail, rolled back as a whole when any of them does. */
module WalletService {
  import opened Wrappers
  import opened Ledger
  import Spec = WalletSpec

  type Error = Spec.Error

  /** Row locks and unique-key locks, in the order in which a transaction may take them. */
  datatype Lock =
    | ReservationLock(id: Id)
    | AccountLock(account: int)
    | KeyLock(key: string)
    | OperationLock(key: string, kind: Kind)

  /** Reservation rows before accounts, accounts by ascending id, unique keys last. */
  predicate Before(a: Lock, b: Lock) {
    match (a, b)
    case (ReservationLock(_), ReservationLock(_)) => false
    case (ReservationLock(_), _) => true
    case (AccountLock(x), AccountLock(y)) => x < y
    case (AccountLock(_), ReservationLock(_)) => false
    case (AccountLock(_), _) => true
    case (_, _) => false
  }

  ghost predicate Rising(locks: seq<Lock>) {
    forall i, j :: 0 <= i < j < |locks| ==> Before(locks[i], locks[j])
  }

  /** What a transaction must keep to: it only asks for a lock above all it holds. */
  ghost predicate Above(locks: seq<Lock>, l: Lock) {
    forall k :: k in locks ==> Before(k, l)
  }

  /** The locks of a transfer between two accounts: the smaller id first, one account once. */
  function InOrder(idA: int, idB: int): (locks: seq<Lock>)
    ensures Rising(locks)
    ensures forall l :: l in locks <==> l == AccountLock(idA) || l == AccountLock(idB)
  {
    if idA == idB then [AccountLock(idA)]
    else if idA < idB then [AccountLock(idA), AccountLock(idB)]
    else [AccountLock(idB), AccountLock(idA)]
  }

  /** The row lock of the reservation first, and, if it has to be paid, those of both accounts. */
  ghost predicate HoldsForCommit(db: Db, id: Id, payee: int, locks: seq<Lock>) {
    && [ReservationLock(id)] <= locks
    && (id in db.reservations && db.reservations[id].status == Active ==>
          [ReservationLock(id)] + InOrder(db.reservations[id].accountId, payee) <= locks)
  }

  /** An error that says nothing about the request: the call may be tried again. */
  predicate Unsettled(error: Error) {
    error == Spec.StoreFailure || error == Spec.ConflictWithoutWinner
  }

  /** What an unsettled failure may leave behind: nothing, or everything that was specified, with its
      answer lost. */
  ghost predicate Unseen(before: Db, specified: (Db, Spec.Answer), after: Db) {
    || (after == before.(nextId := after.nextId) && before.nextId <= after.nextId)
    || (after == specified.0 && !specified.1.Failed?)
  }

  /** Whatever an unsettled failure has left behind, the data are sound. */
  lemma UnseenIsSound(before: Db, call: Spec.Call, after: Db)
    requires Inv(before) && Unseen(before, Spec.Serve(before, call), after)
    ensures Inv(after)
  {
    hide Inv;
    if after == Spec.Serve(before, call).0 {
      Spec.ServeKeeps(before, call);
    } else {
      Drawn(before, after.nextId - before.nextId);
    }
  }

  /** And if it has changed more than the identifier source, the call had taken effect: then, whatever
      is called in between, the next call under its key gives exactly the answer that was lost, and
      changes nothing. */
  lemma UnseenThenRetried(before: Db, call: Spec.Call, after: Db, calls: seq<Spec.Call>)
    requires Inv(before) && Unseen(before, Spec.Serve(before, call), after)
    requires after != before.(nextId := after.nextId)
    ensures Spec.Serve(Spec.Run(after, calls), call) == (Spec.Run(after, calls), Spec.Serve(before, call).1)
  {
    Spec.Replay(before, call, calls, call);
  }

  /** Whether a statement of the transaction has failed, or has found its key taken. */
  class Trouble {
    var met: bool

    constructor ()
      ensures !met
    {
      met := false;
    }
  }

  /** The transaction's view of the stored data, and the locks it has taken so far. */
  class TxStore {
    var accounts: map<int, Account>
    var ledger: seq<Entry>
    var reservations: map<Id, Reservation>
    var keys: map<string, Id>
    var journal: map<(string, Kind), Operation>
    var outbox: seq<Debited>
    var nextId: Id
    var locks: seq<Lock>
    const trouble: Trouble

    constructor (db: Db)
      ensures State() == db && locks == [] && fresh(trouble)
    {
      accounts, ledger, reservations, keys := db.accounts, db.ledger, db.reservations, db.keys;
      journal, outbox, nextId, locks := db.journal, db.outbox, db.nextId, [];
      trouble := new Trouble();
    }

    function State(): Db
      reads this
    {
      Db(accounts, ledger, reservations, keys, journal, outbox, nextId)
    }

    /** Rows are stored under their own primary key. */
    ghost predicate Valid()
      reads this
    {
      forall id :: id in reservations ==> reservations[id].id == id
    }

    method NewId() returns (id: Id)
      modifies this`nextId
      ensures id == old(nextId) && nextId == id + 1
    {
      id := nextId;
      nextId := nextId + 1;
    }

    method Begin() returns (snapshot: Db)
      modifies this`locks, trouble
      ensures snapshot == State() && locks == [] && !trouble.met
    {
      snapshot := State();
      locks, trouble.met := [], false;
    }

    /** Everything but the identifier source goes back. */
    method Rollback(snapshot: Db)
      modifies this
      ensures State() == snapshot.(nextId := old(nextId)) && locks == old(locks)
    {
      accounts, ledger, reservations := snapshot.accounts, snapshot.ledger, snapshot.reservations;
      keys, journal, outbox := snapshot.keys, snapshot.journal, snapshot.outbox;
    }

    /** COMMIT, which may fail like any other statement, or be carried out with its answer lost. */
    method TryCommit() returns (fault: Fault)
      modifies trouble
      ensures trouble.met <==> old(trouble.met) || !fault.Works?
    {
      fault := *;
      trouble.met := trouble.met || !fault.Works?;
    }

    method LockAccount(id: int) returns (r: Result<Account, Error>)
      requires Above(locks, AccountLock(id))
      modifies this`locks, trouble
      ensures r.Success? ==> id in accounts && r.value == accounts[id] && locks == old(locks) + [AccountLock(id)]
      ensures r.Failure? ==> locks == old(locks) && (r.error == Spec.StoreFailure || (r.error == Spec.AccountNotFound && id !in accounts))
      ensures trouble.met <==> old(trouble.met) || (r.Failure? && r.error == Spec.StoreFailure)
    {
      if * {
        trouble.met := true;
        return Failure(Spec.StoreFailure);
      }
      if id !in accounts {
        return Failure(Spec.AccountNotFound);
      }
      locks := locks + [AccountLock(id)];
      return Success(accounts[id]);
    }

    method LockReservation(id: Id) returns (r: Result<Reservation, Error>)
      requires Above(locks, ReservationLock(id))
      modifies this`locks, trouble
      ensures r.Success? ==> id in reservations && r.value == reservations[id] && locks == old(locks) + [ReservationLock(id)]
      ensures r.Failure? ==> locks == old(locks) && (r.error == Spec.StoreFailure || (r.error == Spec.ReservationNotFound && id !in reservations))
      ensures trouble.met <==> old(trouble.met) || (r.Failure? && r.error == Spec.StoreFailure)
    {
      if * {
        trouble.met := true;
        return Failure(Spec.StoreFailure);
      }
      if id !in reservations {
        return Failure(Spec.ReservationNotFound);
      }
      locks := locks + [ReservationLock(id)];
      return Success(reservations[id]);
    }

    method ReadAvailable(account: int) returns (r: Result<int, Error>)
      modifies trouble
      ensures r.Success? ==> r.value == Available(State(), account)
      ensures r.Failure? ==> r.error == Spec.StoreFailure
      ensures trouble.met <==> old(trouble.met) || (r.Failure? && r.error == Spec.StoreFailure)
    {
      if * {
        trouble.met := true;
        return Failure(Spec.StoreFailure);
      }
      var balance := LedgerBalance(ledger, account);
      if * {
        trouble.met := true;
        return Failure(Spec.StoreFailure);
      }
      var reserved := ActiveReserved(reservations, nextId, account);
      return Success(balance - reserved);
    }

    method FindReservationByIdempotencyKey(key: string) returns (r: Result<Option<Reservation>, Error>)
      modifies trouble
      ensures r.Failure? ==> r.error == Spec.StoreFailure
      ensures r.Success? && key in keys && keys[key] in reservations ==> r.value == Some(reservations[keys[key]])
      ensures r.Success? && !(key in keys && keys[key] in reservations) ==> r.value == None
      ensures trouble.met <==> old(trouble.met) || (r.Failure? && r.error == Spec.StoreFailure)
    {
      if * {
        trouble.met := true;
        return Failure(Spec.StoreFailure);
      }
      if key in keys && keys[key] in reservations {
        return Success(Some(reservations[keys[key]]));
      }
      return Success(None);
    }

    /** INSERT ... ON CONFLICT DO NOTHING. Another session may hold the key unseen, so a conflict
        is possible even when the key is not among the committed rows. */
    method InsertReservation(row: Reservation) returns (r: Result<bool, Error>)
      requires Above(locks, KeyLock(row.key))
      modifies this`reservations, this`keys, this`locks, trouble
      ensures r.Failure? ==> r.error == Spec.StoreFailure
      ensures r.Success? && r.value ==> row.key !in old(keys) && State() == AddReservation(old(State()), row)
                                        && locks == old(locks) + [KeyLock(row.key)]
      ensures !(r.Success? && r.value) ==> State() == old(State()) && locks == old(locks)
      ensures trouble.met <==> old(trouble.met) || r.Failure? || !r.value
    {
      if * {
        trouble.met := true;
        return Failure(Spec.StoreFailure);
      }
      var taken: bool := *;
      if taken || row.key in keys {
        trouble.met := true;
        return Success(false);
      }
      reservations := reservations[row.id := row];
      keys := keys[row.key := row.id];
      locks := locks + [KeyLock(row.key)];
      return Success(true);
    }

    method SetReservationStatus(id: Id, status: Status) returns (r: Result<(), Error>)
      modifies this`reservations, trouble
      ensures r.Success? ==> id in old(reservations) && State() == SetStatus(old(State()), id, status)
      ensures r.Failure? ==> r.error == Spec.StoreFailure || (r.error == Spec.ReservationNotFound && id !in old(reservations))
      ensures trouble.met <==> old(trouble.met) || (r.Failure? && r.error == Spec.StoreFailure)
    {
      if * {
        trouble.met := true;
        return Failure(Spec.StoreFailure);
      }
      if id !in reservations {
        return Failure(Spec.ReservationNotFound);
      }
      reservations := reservations[id := reservations[id].(status := status)];
      return Success(());
    }

    method InsertLedgerEntries(entries: seq<Entry>) returns (r: Result<(), Error>)
      modifies this`ledger, trouble
      ensures r.Success? ==> ledger == old(ledger) + entries
      ensures r.Failure? ==> r.error == Spec.StoreFailure
      ensures trouble.met <==> old(trouble.met) || (r.Failure? && r.error == Spec.StoreFailure)
    {
      if * {
        trouble.met := true;
        return Failure(Spec.StoreFailure);
      }
      ledger := ledger + entries;
      return Success(());
    }

    method LedgerEntryIdsByReference(reference: Id) returns (r: Result<seq<Id>, Error>)
      modifies trouble
      ensures r.Success? ==> r.value == EntryIds(EntriesOf(ledger, reference))
      ensures r.Failure? ==> r.error == Spec.StoreFailure
      ensures trouble.met <==> old(trouble.met) || (r.Failure? && r.error == Spec.StoreFailure)
    {
      if * {
        trouble.met := true;
        return Failure(Spec.StoreFailure);
      }
      return Success(EntryIds(EntriesOf(ledger, reference)));
    }

    method FindOperation(key: string, kind: Kind) returns (r: Result<Option<OpResult>, Error>)
      modifies trouble
      ensures r.Failure? ==> r.error == Spec.StoreFailure
      ensures r.Success? ==> r.value == if (key, kind) in journal then Some(journal[(key, kind)].result) else None
      ensures trouble.met <==> old(trouble.met) || (r.Failure? && r.error == Spec.StoreFailure)
    {
      if * {
        trouble.met := true;
        return Failure(Spec.StoreFailure);
      }
      return Success(if (key, kind) in journal then Some(journal[(key, kind)].result) else None);
    }

    method RecordOperation(key: string, kind: Kind, op: Operation) returns (r: Result<bool, Error>)
      requires Above(locks, OperationLock(key, kind))
      modifies this`journal, this`locks, trouble
      ensures r.Success? ==> State() == Record(old(State()), key, kind, op)
                             && locks == old(locks) + (if r.value then [OperationLock(key, kind)] else [])
      ensures r.Failure? ==> r.error == Spec.StoreFailure && locks == old(locks)
      ensures trouble.met <==> old(trouble.met) || (r.Failure? && r.error == Spec.StoreFailure)
    {
      if * {
        trouble.met := true;
        return Failure(Spec.StoreFailure);
      }
      if (key, kind) in journal {
        return Success(false);
      }
      journal := journal[(key, kind) := op];
      locks := locks + [OperationLock(key, kind)];
      return Success(true);
    }

    method WriteAccountDebited(event: Debited) returns (r: Result<(), Error>)
      modifies this`outbox, trouble
      ensures r.Success? ==> outbox == old(outbox) + [event]
      ensures r.Failure? ==> r.error == Spec.StoreFailure
      ensures trouble.met <==> old(trouble.met) || (r.Failure? && r.error == Spec.StoreFailure)
    {
      if * {
        trouble.met := true;
        return Failure(Spec.StoreFailure);
      }
      outbox := outbox + [event];
      return Success(());
    }
  }

  class Service {
    const store: TxStore

    constructor (store: TxStore)
      ensures this.store == store
    {
      this.store := store;
    }

    /** Freezes an amount. A settled answer is the specified one; an unsettled failure is only answered
        when a statement has failed, and then the stored data are as they were, or as specified. Locks are
        taken in rising order either way, and a new row is written under those of its account and key. */
    method Reserve(account: int, amount: int, currency: string, key: string) returns (answer: Spec.Answer)
      requires store.Valid()
      modifies store, store.trouble
      ensures store.Valid()
      ensures Rising(store.locks)
      ensures !answer.Failed? && store.State() != old(store.State()) ==> store.locks == [AccountLock(account), KeyLock(key)]
      ensures answer.Failed? && Unsettled(answer.error) ==>
                store.trouble.met && Unseen(old(store.State()), Spec.Reserve(old(store.State()), account, amount, currency, key), store.State())
      ensures !(answer.Failed? && Unsettled(answer.error)) ==>
                (store.State(), answer) == Spec.Reserve(old(store.State()), account, amount, currency, key)
    {
      var snapshot := store.Begin();
      if key == "" {
        return Spec.Failed(Spec.EmptyIdempotencyKey);
      }
      if amount <= 0 {
        return Spec.Failed(Spec.InvalidAmount);
      }
      var r := ReserveTx(account, amount, currency, key);
      if r.Failure? {
        store.Rollback(snapshot);
        return Spec.Failed(r.error);
      }
      var fault := store.TryCommit();
      if fault.Fails? {
        store.Rollback(snapshot);
      }
      if !fault.Works? {
        return Spec.Failed(Spec.StoreFailure);
      }
      return Spec.Reserved(r.value.0, r.value.1);
    }

    method ReserveTx(account: int, amount: int, currency: string, key: string)
      returns (r: Result<(Id, int), Error>)
      requires key != "" && 0 < amount && store.locks == []
      requires store.Valid()
      modifies store, store.trouble
      ensures old(store.nextId) <= store.nextId
      ensures r.Success? ==> store.Valid()
      ensures Rising(store.locks)
      ensures r.Success? && store.State() != old(store.State()) ==> store.locks == [AccountLock(account), KeyLock(key)]
      ensures r.Failure? && Unsettled(r.error) ==> store.trouble.met
      ensures r.Success? ==>
                (store.State(), Spec.Reserved(r.value.0, r.value.1)) == Spec.Reserve(old(store.State()), account, amount, currency, key)
      ensures r.Failure? && !Unsettled(r.error) ==>
                store.nextId == old(store.nextId) &&
                Spec.Reserve(old(store.State()), account, amount, currency, key) == (old(store.State()), Spec.Failed(r.error))
    {
      hide Available;
      var existing := store.FindReservationByIdempotencyKey(key);
      if existing.Failure? {
        return Failure(existing.error);
      }
      if existing.value.Some? {
        return Success((existing.value.value.id, existing.value.value.availableAfter));
      }
      var locked := store.LockAccount(account);
      if locked.Failure? {
        return Failure(locked.error);
      }
      if locked.value.currency != currency {
        return Failure(Spec.CurrencyMismatch);
      }
      var available := store.ReadAvailable(account);
      if available.Failure? {
        return Failure(available.error);
      }
      if available.value < amount {
        return Failure(Spec.InsufficientFunds);
      }
      var id := store.NewId();
      var row := Reservation(id, account, amount, currency, Active, key, available.value - amount);
      var created := store.InsertReservation(row);
      if created.Failure? {
        return Failure(created.error);
      }
      if created.value {
        return Success((row.id, row.availableAfter));
      }
      var winner := store.FindReservationByIdempotencyKey(key);
      if winner.Failure? {
        return Failure(winner.error);
      }
      match winner.value {
        case None => r := Failure(Spec.ConflictWithoutWinner);
        case Some(w) => r := Success((w.id, w.availableAfter));
      }
    }

    /** Confirms a reservation: takes from the buyer, gives to the payee. */
    method Commit(id: Id, payee: int, key: string) returns (answer: Spec.Answer)
      requires store.Valid()
      modifies store, store.trouble
      ensures store.Valid()
      ensures Rising(store.locks)
      ensures !answer.Failed? && store.State() != old(store.State()) ==> HoldsForCommit(old(store.State()), id, payee, store.locks)
      ensures answer.Failed? && Unsettled(answer.error) ==>
                store.trouble.met && Unseen(old(store.State()), Spec.Commit(old(store.State()), id, payee, key), store.State())
      ensures !(answer.Failed? && Unsettled(answer.error)) ==>
                (store.State(), answer) == Spec.Commit(old(store.State()), id, payee, key)
    {
      var snapshot := store.Begin();
      if key == "" {
        return Spec.Failed(Spec.EmptyIdempotencyKey);
      }
      var r := CommitTx(id, payee, key);
      if r.Failure? {
        store.Rollback(snapshot);
        return Spec.Failed(r.error);
      }
      var fault := store.TryCommit();
      if fault.Fails? {
        store.Rollback(snapshot);
      }
      if !fault.Works? {
        return Spec.Failed(Spec.StoreFailure);
      }
      return Spec.Posted(r.value);
    }

    method CommitTx(id: Id, payee: int, key: string) returns (r: Result<seq<Id>, Error>)
      requires key != "" && store.locks == []
      requires store.Valid()
      modifies store, store.trouble
      ensures old(store.nextId) <= store.nextId
      ensures r.Success? ==> store.Valid()
      ensures Rising(store.locks)
      ensures r.Success? && store.State() != old(store.State()) ==> HoldsForCommit(old(store.State()), id, payee, store.locks)
      ensures r.Failure? && Unsettled(r.error) ==> store.trouble.met
      ensures r.Success? ==> (store.State(), Spec.Posted(r.value)) == Spec.Commit(old(store.State()), id, payee, key)
      ensures r.Failure? && !Unsettled(r.error) ==>
                store.nextId == old(store.nextId) &&
                Spec.Commit(old(store.State()), id, payee, key) == (old(store.State()), Spec.Failed(r.error))
    {
      hide Spec.Confirm, EntriesOf, Record;
      var found := store.FindOperation(key, CommitKind);
      if found.Failure? {
        return Failure(found.error);
      }
      if found.value.Some? && found.value.value.CommitResult? {
        return Success(found.value.value.entryIds);
      }
      var locked := store.LockReservation(id);
      if locked.Failure? {
        return Failure(locked.error);
      }
      var reservation := locked.value;
      match reservation.status
      case Committed =>
        var ids := store.LedgerEntryIdsByReference(id);
        if ids.Failure? {
          return Failure(ids.error);
        }
        var recorded := store.RecordOperation(key, CommitKind, Operation(id, CommitResult(ids.value)));
        if recorded.Failure? {
          return Failure(recorded.error);
        }
        return Success(ids.value);
      case Released =>
        return Failure(Spec.AlreadyReleased);
      case Active =>
        r := Transfer(id, reservation, payee, key);
    }

    /** The first commit of an active, locked reservation. */
    method Transfer(id: Id, reservation: Reservation, payee: int, key: string) returns (r: Result<seq<Id>, Error>)
      requires id in store.reservations && store.reservations[id] == reservation
      requires store.locks == [ReservationLock(id)]
      requires store.Valid()
      modifies store, store.trouble
      ensures old(store.nextId) <= store.nextId
      ensures r.Success? ==> store.Valid()
      ensures Rising(store.locks)
      ensures r.Success? ==> [ReservationLock(id)] + InOrder(reservation.accountId, payee) <= store.locks
      ensures r.Failure? && Unsettled(r.error) ==> store.trouble.met
      ensures var db := old(store.State());
              var buyerKnown, payeeKnown := reservation.accountId in db.accounts, payee in db.accounts;
              && (r.Success? ==>
                    && buyerKnown && payeeKnown
                    && db.accounts[reservation.accountId].currency == db.accounts[payee].currency == reservation.currency
                    && r.value == [db.nextId + 1, db.nextId + 2]
                    && store.State() == Spec.Confirm(Draw(db, 3), id, payee, db.nextId, db.nextId + 1, db.nextId + 2, key))
              && (r.Failure? && !Unsettled(r.error) ==>
                    && store.nextId == db.nextId
                    && if r.error == Spec.CurrencyMismatch then
                         && buyerKnown && payeeKnown
                         && (db.accounts[reservation.accountId].currency != reservation.currency || db.accounts[payee].currency != reservation.currency)
                       else
                         r.error == Spec.AccountNotFound && !(buyerKnown && payeeKnown))
    {
      var pair := LockAccountsSorted(reservation.accountId, payee);
      if pair.Failure? {
        return Failure(pair.error);
      }
      var (buyer, seller) := pair.value;
      if buyer.currency != reservation.currency || seller.currency != reservation.currency {
        return Failure(Spec.CurrencyMismatch);
      }
      r := PostPair(id, reservation, payee, key);
    }

    /** Writes both entries, the status, the event and the journal line. */
    method PostPair(id: Id, reservation: Reservation, payee: int, key: string) returns (r: Result<seq<Id>, Error>)
      requires id in store.reservations && store.reservations[id] == reservation && reservation.id == id
      requires store.Valid() && Rising(store.locks) && forall l :: l in store.locks ==> l.ReservationLock? || l.AccountLock?
      modifies store, store.trouble
      ensures old(store.nextId) <= store.nextId
      ensures Rising(store.locks)
      ensures r.Failure? ==> Unsettled(r.error) && store.trouble.met
      ensures old(store.locks) <= store.locks
      ensures var db := old(store.State());
              r.Success? ==>
                && store.Valid() && r.value == [db.nextId + 1, db.nextId + 2]
                && store.State() == Spec.Confirm(Draw(db, 3), id, payee, db.nextId, db.nextId + 1, db.nextId + 2, key)
    {
      var operation := store.NewId();
      var debitId := store.NewId();
      var creditId := store.NewId();
      ghost var drawn := store.State();
      assert drawn == Draw(old(store.State()), 3);
      var debit := Entry(debitId, reservation.accountId, reservation.amount, Debit, operation, ORDER_PAYMENT, id);
      var credit := Entry(creditId, payee, reservation.amount, Credit, operation, ORDER_PAYMENT, id);
      var inserted := store.InsertLedgerEntries([debit, credit]);
      if inserted.Failure? {
        return Failure(inserted.error);
      }
      var marked := store.SetReservationStatus(id, Committed);
      if marked.Failure? {
        return Failure(Spec.StoreFailure);
      }
      var written := store.WriteAccountDebited(
        Debited(reservation.accountId, reservation.amount, reservation.currency, ORDER_PAYMENT, id));
      if written.Failure? {
        return Failure(written.error);
      }
      assert store.State() == Post(drawn, id, payee, operation, debitId, creditId);
      hide Post, Draw;
      var recorded := store.RecordOperation(key, CommitKind, Operation(id, CommitResult([debit.id, credit.id])));
      if recorded.Failure? {
        return Failure(recorded.error);
      }
      return Success([debit.id, credit.id]);
    }

    /** Both accounts in the caller's order, locked in ascending order of id, each once. */
    method LockAccountsSorted(idA: int, idB: int) returns (r: Result<(Account, Account), Error>)
      requires Above(store.locks, AccountLock(idA)) && Above(store.locks, AccountLock(idB))
      modifies store`locks, store.trouble
      ensures old(store.trouble.met) || (r.Failure? && r.error == Spec.StoreFailure) ==> store.trouble.met
      ensures r.Success? ==> idA in store.accounts && idB in store.accounts && r.value == (store.accounts[idA], store.accounts[idB])
      ensures r.Failure? ==> r.error == Spec.StoreFailure
                             || (r.error == Spec.AccountNotFound && (idA !in store.accounts || idB !in store.accounts))
      ensures r.Success? ==> store.locks == old(store.locks) + InOrder(idA, idB)
      ensures r.Failure? ==> old(store.locks) <= store.locks <= old(store.locks) + InOrder(idA, idB)
    {
      var first, second, swapped := idA, idB, false;
      if second < first {
        first, second, swapped := second, first, true;
      }
      var lockedFirst := store.LockAccount(first);
      if lockedFirst.Failure? {
        return Failure(lockedFirst.error);
      }
      var lockedSecond := lockedFirst;
      if first != second {
        lockedSecond := store.LockAccount(second);
        if lockedSecond.Failure? {
          return Failure(lockedSecond.error);
        }
      }
      if swapped {
        return Success((lockedSecond.value, lockedFirst.value));
      }
      return Success((lockedFirst.value, lockedSecond.value));
    }

    /** Frees a reservation. Repeating it under another key is not an error. */
    method Release(id: Id, key: string) returns (answer: Spec.Answer)
      requires store.Valid()
      modifies store, store.trouble
      ensures store.Valid()
      ensures Rising(store.locks)
      ensures !answer.Failed? && store.State() != old(store.State()) ==> [ReservationLock(id)] <= store.locks
      ensures answer.Failed? && Unsettled(answer.error) ==>
                store.trouble.met && Unseen(old(store.State()), Spec.Release(old(store.State()), id, key), store.State())
      ensures !(answer.Failed? && Unsettled(answer.error)) ==>
                (store.State(), answer) == Spec.Release(old(store.State()), id, key)
    {
      var snapshot := store.Begin();
      if key == "" {
        return Spec.Failed(Spec.EmptyIdempotencyKey);
      }
      var r := ReleaseTx(id, key);
      if r.Failure? {
        store.Rollback(snapshot);
        return Spec.Failed(r.error);
      }
      var fault := store.TryCommit();
      if fault.Fails? {
        store.Rollback(snapshot);
      }
      if !fault.Works? {
        return Spec.Failed(Spec.StoreFailure);
      }
      return Spec.Freed(r.value.0, r.value.1);
    }

    method ReleaseTx(id: Id, key: string) returns (r: Result<(int, string), Error>)
      requires key != "" && store.locks == []
      requires store.Valid()
      modifies store, store.trouble
      ensures old(store.nextId) <= store.nextId
      ensures r.Success? ==> store.Valid()
      ensures Rising(store.locks)
      ensures r.Success? && store.State() != old(store.State()) ==> [ReservationLock(id)] <= store.locks
      ensures r.Failure? && Unsettled(r.error) ==> store.trouble.met
      ensures r.Success? ==>
                (store.State(), Spec.Freed(r.value.0, r.value.1)) == Spec.Release(old(store.State()), id, key)
      ensures r.Failure? && !Unsettled(r.error) ==>
                store.nextId == old(store.nextId) &&
                Spec.Release(old(store.State()), id, key) == (old(store.State()), Spec.Failed(r.error))
    {
      hide Available, Record;
      var found := store.FindOperation(key, ReleaseKind);
      if found.Failure? {
        return Failure(found.error);
      }
      if found.value.Some? && found.value.value.ReleaseResult? {
        return Success((found.value.value.available, found.value.value.currency));
      }
      var locked := store.LockReservation(id);
      if locked.Failure? {
        return Failure(locked.error);
      }
      var reservation := locked.value;
      if reservation.status == Committed {
        return Failure(Spec.AlreadyCommitted);
      }
      if reservation.status == Active {
        var marked := store.SetReservationStatus(id, Released);
        if marked.Failure? {
          return Failure(Spec.StoreFailure);
        }
      }
      var available := store.ReadAvailable(reservation.accountId);
      if available.Failure? {
        return Failure(available.error);
      }
      var op := Operation(id, ReleaseResult(available.value, reservation.currency));
      var recorded := store.RecordOperation(key, ReleaseKind, op);
      if recorded.Failure? {
        return Failure(recorded.error);
      }
      return Success((available.value, reservation.currency));
    }
  }
}
