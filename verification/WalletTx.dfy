/** Wallet calls as interleaved transactions: row locks held to the end, reads that see only
    committed data, unique-key inserts that wait for a competing insert, rollback at any step. */
module WalletTx {
  import opened Wrappers
  import opened Ledger
  import opened WalletSpec
  import opened WalletService

  datatype Write =
    | NoWrite
    | Insert(row: Reservation)
    | PostPair(operation: Id, debit: Id, credit: Id)
    | RecordAgain(ids: seq<Id>)
    | Free(wasActive: bool, available: int)

  datatype Pc =
    | Start
    | ReserveLock
    | ReserveBalance
    | ReserveReserved(balance: int)
    | ReserveInsert(available: int)
    | ReserveWinner
    | CommitLock
    | CommitEntries
    | CommitAgain(ids: seq<Id>)
    | CommitFirst
    | CommitSecond
    | CommitCheck
    | CommitRecord(operation: Id, debit: Id, credit: Id)
    | ReleaseLock
    | ReleaseBalance(wasActive: bool)
    | ReleaseReserved(wasActive: bool, balance: int)
    | ReleaseRecord(wasActive: bool, available: int)
    | Ready(write: Write, answer: Answer)
    | Finished(answer: Answer)

  datatype Tx = Tx(call: Call, pc: Pc, locks: set<Lock>)

  datatype Sys = Sys(db: Db, txs: seq<Tx>)

  function Smaller(a: int, b: int): int { if b < a then b else a }

  function Larger(a: int, b: int): int { if b < a then a else b }

  function Finish(tx: Tx, answer: Answer): Tx { tx.(pc := Finished(answer), locks := {}) }

  function Lost(tx: Tx): Tx { Finish(tx, Failed(StoreFailure)) }

  function Go(tx: Tx, pc: Pc): Tx { tx.(pc := pc) }

  function Take(tx: Tx, l: Lock, pc: Pc): Tx { tx.(pc := pc, locks := tx.locks + {l}) }

  /** The account whose money the reservation of this call holds, 0 when there is no such row. */
  function Buyer(db: Db, tx: Tx): int {
    if !tx.call.ReserveFunds? && tx.call.id in db.reservations then db.reservations[tx.call.id].accountId else 0
  }

  /** The lock the next step needs. */
  function Wants(db: Db, tx: Tx): Option<Lock> {
    match (tx.pc, tx.call)
    case (ReserveLock, ReserveFunds(account, _, _, _)) => Some(AccountLock(account))
    case (ReserveInsert(_), ReserveFunds(_, _, _, key)) => Some(KeyLock(key))
    case (CommitLock, CommitFunds(id, _, _)) => Some(ReservationLock(id))
    case (CommitFirst, CommitFunds(_, payee, _)) => Some(AccountLock(Smaller(Buyer(db, tx), payee)))
    case (CommitSecond, CommitFunds(_, payee, _)) => Some(AccountLock(Larger(Buyer(db, tx), payee)))
    case (CommitAgain(_), CommitFunds(_, _, key)) => Some(OperationLock(key, CommitKind))
    case (CommitRecord(_, _, _), CommitFunds(_, _, key)) => Some(OperationLock(key, CommitKind))
    case (ReleaseLock, ReleaseFunds(id, _)) => Some(ReservationLock(id))
    case (ReleaseRecord(_, _), ReleaseFunds(_, key)) => Some(OperationLock(key, ReleaseKind))
    case _ => None
  }

  function AdvanceReserve(db: Db, tx: Tx): (r: (Db, Tx))
    requires tx.call.ReserveFunds?
    ensures r.1.call == tx.call
  {
    var ReserveFunds(account, amount, currency, key) := tx.call;
    match tx.pc
    case Start =>
      if key == "" then (db, Finish(tx, Failed(EmptyIdempotencyKey)))
      else if amount <= 0 then (db, Finish(tx, Failed(InvalidAmount)))
      else if key in db.keys && db.keys[key] in db.reservations then
        (db, Finish(tx, Reserved(db.keys[key], db.reservations[db.keys[key]].availableAfter)))
      else (db, Go(tx, ReserveLock))
    case ReserveLock =>
      if account !in db.accounts then (db, Finish(tx, Failed(AccountNotFound)))
      else if db.accounts[account].currency != currency then (db, Finish(tx, Failed(CurrencyMismatch)))
      else (db, Take(tx, AccountLock(account), ReserveBalance))
    case ReserveBalance =>
      (db, Go(tx, ReserveReserved(LedgerBalance(db.ledger, account))))
    case ReserveReserved(balance) =>
      var available := balance - ActiveReserved(db.reservations, db.nextId, account);
      if available < amount then (db, Finish(tx, Failed(InsufficientFunds)))
      else (db, Go(tx, ReserveInsert(available)))
    case ReserveInsert(available) =>
      if key in db.keys then (Draw(db, 1), Go(tx, ReserveWinner))
      else
        var row := Reservation(db.nextId, account, amount, currency, Active, key, available - amount);
        (Draw(db, 1), Take(tx, KeyLock(key), Ready(Insert(row), Reserved(row.id, row.availableAfter))))
    case ReserveWinner =>
      if key in db.keys && db.keys[key] in db.reservations then
        (db, Finish(tx, Reserved(db.keys[key], db.reservations[db.keys[key]].availableAfter)))
      else (db, Finish(tx, Failed(ConflictWithoutWinner)))
    case Ready(Insert(row), answer) => (AddReservation(db, row), Finish(tx, answer))
    case _ => (db, tx)
  }

  function AdvanceCommit(db: Db, tx: Tx): (r: (Db, Tx))
    requires tx.call.CommitFunds?
    ensures r.1.call == tx.call
  {
    var CommitFunds(id, payee, key) := tx.call;
    match tx.pc
    case Start =>
      if key == "" then (db, Finish(tx, Failed(EmptyIdempotencyKey)))
      else if (key, CommitKind) in db.journal && db.journal[(key, CommitKind)].result.CommitResult? then
        (db, Finish(tx, Posted(db.journal[(key, CommitKind)].result.entryIds)))
      else (db, Go(tx, CommitLock))
    case CommitLock =>
      if id !in db.reservations then (db, Finish(tx, Failed(ReservationNotFound)))
      else (match db.reservations[id].status
            case Committed => (db, Take(tx, ReservationLock(id), CommitEntries))
            case Released => (db, Finish(tx, Failed(AlreadyReleased)))
            case Active => (db, Take(tx, ReservationLock(id), CommitFirst)))
    case CommitEntries => (db, Go(tx, CommitAgain(EntryIds(EntriesOf(db.ledger, id)))))
    case CommitAgain(ids) =>
      if (key, CommitKind) in db.journal then (db, Go(tx, Ready(NoWrite, Posted(ids))))
      else (db, Take(tx, OperationLock(key, CommitKind), Ready(RecordAgain(ids), Posted(ids))))
    case CommitFirst =>
      var first := Smaller(Buyer(db, tx), payee);
      if first !in db.accounts then (db, Finish(tx, Failed(AccountNotFound)))
      else (db, Take(tx, AccountLock(first), if Buyer(db, tx) == payee then CommitCheck else CommitSecond))
    case CommitSecond =>
      var second := Larger(Buyer(db, tx), payee);
      if second !in db.accounts then (db, Finish(tx, Failed(AccountNotFound)))
      else (db, Take(tx, AccountLock(second), CommitCheck))
    case CommitCheck =>
      if id in db.reservations && Buyer(db, tx) in db.accounts && payee in db.accounts
         && db.accounts[Buyer(db, tx)].currency == db.reservations[id].currency == db.accounts[payee].currency
      then (Draw(db, 3), Go(tx, CommitRecord(db.nextId, db.nextId + 1, db.nextId + 2)))
      else (db, Finish(tx, Failed(CurrencyMismatch)))
    case CommitRecord(operation, debit, credit) =>
      var ready := Ready(PostPair(operation, debit, credit), Posted([debit, credit]));
      if (key, CommitKind) in db.journal then (db, Go(tx, ready))
      else (db, Take(tx, OperationLock(key, CommitKind), ready))
    case Ready(PostPair(operation, debit, credit), answer) =>
      (if id in db.reservations then Confirm(db, id, payee, operation, debit, credit, key) else db, Finish(tx, answer))
    case Ready(RecordAgain(ids), answer) =>
      (Record(db, key, CommitKind, Operation(id, CommitResult(ids))), Finish(tx, answer))
    case Ready(NoWrite, answer) => (db, Finish(tx, answer))
    case _ => (db, tx)
  }

  function AdvanceRelease(db: Db, tx: Tx): (r: (Db, Tx))
    requires tx.call.ReleaseFunds?
    ensures r.1.call == tx.call
  {
    var ReleaseFunds(id, key) := tx.call;
    match tx.pc
    case Start =>
      if key == "" then (db, Finish(tx, Failed(EmptyIdempotencyKey)))
      else if (key, ReleaseKind) in db.journal && db.journal[(key, ReleaseKind)].result.ReleaseResult? then
        var saved := db.journal[(key, ReleaseKind)].result;
        (db, Finish(tx, Freed(saved.available, saved.currency)))
      else (db, Go(tx, ReleaseLock))
    case ReleaseLock =>
      if id !in db.reservations then (db, Finish(tx, Failed(ReservationNotFound)))
      else if db.reservations[id].status == Committed then (db, Finish(tx, Failed(AlreadyCommitted)))
      else (db, Take(tx, ReservationLock(id), ReleaseBalance(db.reservations[id].status == Active)))
    case ReleaseBalance(wasActive) =>
      (db, Go(tx, ReleaseReserved(wasActive, LedgerBalance(db.ledger, Buyer(db, tx)))))
    case ReleaseReserved(wasActive, balance) =>
      // the transaction sees its own status change, everyone else's only once committed
      var own := if wasActive then Held(db.reservations, id, Buyer(db, tx)) else 0;
      var reserved := ActiveReserved(db.reservations, db.nextId, Buyer(db, tx)) - own;
      (db, Go(tx, ReleaseRecord(wasActive, balance - reserved)))
    case ReleaseRecord(wasActive, available) =>
      var ready := Ready(Free(wasActive, available),
                         Freed(available, if id in db.reservations then db.reservations[id].currency else ""));
      if (key, ReleaseKind) in db.journal then (db, Go(tx, ready))
      else (db, Take(tx, OperationLock(key, ReleaseKind), ready))
    case Ready(Free(wasActive, available), answer) =>
      (if id in db.reservations then ApplyFree(db, id, key, wasActive, available) else db, Finish(tx, answer))
    case _ => (db, tx)
  }

  function ApplyFree(db: Db, id: Id, key: string, wasActive: bool, available: int): Db
    requires id in db.reservations
  {
    var freed := if wasActive then SetStatus(db, id, Released) else db;
    Record(freed, key, ReleaseKind, Operation(id, ReleaseResult(available, db.reservations[id].currency)))
  }

  function AdvanceTx(db: Db, tx: Tx): (Db, Tx) {
    match tx.call
    case ReserveFunds(_, _, _, _) => AdvanceReserve(db, tx)
    case CommitFunds(_, _, _) => AdvanceCommit(db, tx)
    case ReleaseFunds(_, _) => AdvanceRelease(db, tx)
  }

  // ---------- The system ----------

  /** A transaction moves, is rolled back, or commits with its answer lost. */
  datatype Action = Advance(tx: nat) | Abort(tx: nat) | Unseen(tx: nat)

  predicate FreeFor(s: Sys, i: nat, l: Lock) {
    forall j :: 0 <= j < |s.txs| && j != i ==> l !in s.txs[j].locks
  }

  predicate Enabled(s: Sys, i: nat)
    requires i < |s.txs|
  {
    && !s.txs[i].pc.Finished?
    && (Wants(s.db, s.txs[i]).Some? ==> FreeFor(s, i, Wants(s.db, s.txs[i]).value))
  }

  /** A blocked or finished transaction does not move. An abort can hit any unfinished one; the answer
      can only be lost of one that is about to commit. */
  function Next(s: Sys, a: Action): Sys {
    if a.tx >= |s.txs| then s
    else
      var tx := s.txs[a.tx];
      match a
      case Advance(i) =>
        if !Enabled(s, i) then s
        else var (db, tx') := AdvanceTx(s.db, tx); Sys(db, s.txs[i := tx'])
      case Abort(i) =>
        if tx.pc.Finished? then s else s.(txs := s.txs[i := Lost(tx)])
      case Unseen(i) =>
        if !tx.pc.Ready? then s else Sys(AdvanceTx(s.db, tx).0, s.txs[i := Lost(tx)])
  }

  function Execute(s: Sys, schedule: seq<Action>): Sys
    decreases |schedule|
  {
    if schedule == [] then s else Execute(Next(s, schedule[0]), schedule[1..])
  }

  ghost predicate Initial(s: Sys) {
    Inv(s.db) && forall i :: 0 <= i < |s.txs| ==> s.txs[i].pc == Start && s.txs[i].locks == {}
  }

  // ---------- What each transaction knows while it holds its locks ----------

  ghost predicate Solvent(db: Db, account: int, currency: string) {
    account in db.accounts && db.accounts[account].currency == currency
  }

  ghost predicate InsertOk(db: Db, tx: Tx, row: Reservation, answer: Answer)
    requires tx.call.ReserveFunds?
  {
    var ReserveFunds(account, amount, currency, key) := tx.call;
    && tx.locks == {AccountLock(account), KeyLock(key)}
    && key !in db.keys && Unused(db, row.id)
    && row == Reservation(row.id, account, amount, currency, Active, key, row.availableAfter)
    && 0 <= row.availableAfter <= Available(db, account) - amount
    && answer == Reserved(row.id, row.availableAfter)
  }

  ghost predicate ReserveOk(db: Db, tx: Tx)
    requires tx.call.ReserveFunds?
  {
    var ReserveFunds(account, amount, currency, key) := tx.call;
    match tx.pc
    case Start => tx.locks == {}
    case ReserveLock => tx.locks == {} && 0 < amount
    case ReserveBalance => tx.locks == {AccountLock(account)} && 0 < amount && Solvent(db, account, currency)
    case ReserveReserved(balance) =>
      && tx.locks == {AccountLock(account)} && 0 < amount && Solvent(db, account, currency)
      && balance == LedgerBalance(db.ledger, account)
    case ReserveInsert(available) =>
      && tx.locks == {AccountLock(account)} && 0 < amount && Solvent(db, account, currency)
      && amount <= available <= Available(db, account)
    case ReserveWinner => tx.locks == {AccountLock(account)} && key in db.keys
    case Ready(write, answer) => write.Insert? && 0 < amount && Solvent(db, account, currency) && InsertOk(db, tx, write.row, answer)
    case Finished(answer) =>
      && tx.locks == {} && (answer.Failed? || answer.Reserved?)
      && (answer.Reserved? ==> ReservedAs(db, key, answer.id, answer.availableAfter))
    case _ => false
  }

  /** The reservation stored under this key is the answered one. */
  ghost predicate ReservedAs(db: Db, key: string, id: Id, availableAfter: int) {
    && key in db.keys && db.keys[key] == id
    && id in db.reservations && db.reservations[id].availableAfter == availableAfter
  }

  ghost predicate HasStatus(db: Db, id: Id, status: Status) {
    id in db.reservations && db.reservations[id].status == status
  }

  ghost predicate AgainOk(db: Db, id: Id, ids: seq<Id>) {
    HasStatus(db, id, Committed) && ids == EntryIds(EntriesOf(db.ledger, id))
  }

  ghost predicate PairReady(db: Db, tx: Tx, debit: Id, credit: Id)
    requires tx.call.CommitFunds?
  {
    && HasStatus(db, tx.call.id, Active) && debit < credit
    && Solvent(db, tx.call.payee, db.reservations[tx.call.id].currency)
  }

  function PairLocks(db: Db, tx: Tx): set<Lock>
    requires tx.call.CommitFunds?
  {
    {ReservationLock(tx.call.id), AccountLock(Buyer(db, tx)), AccountLock(tx.call.payee)}
  }

  /** These are the entries of one committed reservation: the one named by the call, or the one
      on record under the call's key. */
  ghost predicate PostedAs(db: Db, id: Id, key: string, ids: seq<Id>) {
    || AgainOk(db, id, ids)
    || ((key, CommitKind) in db.journal && AgainOk(db, db.journal[(key, CommitKind)].reservationId, ids))
  }

  ghost predicate CommitOk(db: Db, tx: Tx)
    requires tx.call.CommitFunds?
  {
    var CommitFunds(id, payee, key) := tx.call;
    match tx.pc
    case Start => tx.locks == {}
    case CommitLock => tx.locks == {}
    case CommitEntries => tx.locks == {ReservationLock(id)} && HasStatus(db, id, Committed)
    case CommitAgain(ids) => tx.locks == {ReservationLock(id)} && AgainOk(db, id, ids)
    case CommitFirst => tx.locks == {ReservationLock(id)} && HasStatus(db, id, Active)
    case CommitSecond =>
      && tx.locks == {ReservationLock(id), AccountLock(Smaller(Buyer(db, tx), payee))}
      && HasStatus(db, id, Active) && Buyer(db, tx) != payee && Smaller(Buyer(db, tx), payee) in db.accounts
    case CommitCheck => tx.locks == PairLocks(db, tx) && HasStatus(db, id, Active) && payee in db.accounts
    case CommitRecord(_, debit, credit) => tx.locks == PairLocks(db, tx) && PairReady(db, tx, debit, credit)
    case Ready(write, answer) =>
      (match write
       case PostPair(_, debit, credit) =>
         && PairLocks(db, tx) <= tx.locks <= PairLocks(db, tx) + {OperationLock(key, CommitKind)}
         && PairReady(db, tx, debit, credit) && answer == Posted([debit, credit])
       case RecordAgain(ids) =>
         tx.locks == {ReservationLock(id), OperationLock(key, CommitKind)} && AgainOk(db, id, ids) && answer == Posted(ids)
       case NoWrite =>
         && tx.locks == {ReservationLock(id)} && (key, CommitKind) in db.journal
         && answer.Posted? && AgainOk(db, id, answer.entryIds)
       case _ => false)
    case Finished(answer) =>
      && tx.locks == {} && (answer.Failed? || answer.Posted?)
      && (answer.Posted? ==> PostedAs(db, id, key, answer.entryIds))
    case _ => false
  }

  /** The row is locked, not committed, and active exactly when it was seen so. */
  ghost predicate FreeOk(db: Db, id: Id, wasActive: bool) {
    id in db.reservations && db.reservations[id].status == if wasActive then Active else Released
  }

  ghost predicate ReleaseOk(db: Db, tx: Tx)
    requires tx.call.ReleaseFunds?
  {
    var ReleaseFunds(id, key) := tx.call;
    match tx.pc
    case Start => tx.locks == {}
    case ReleaseLock => tx.locks == {}
    case ReleaseBalance(wasActive) => tx.locks == {ReservationLock(id)} && FreeOk(db, id, wasActive)
    case ReleaseReserved(wasActive, _) => tx.locks == {ReservationLock(id)} && FreeOk(db, id, wasActive)
    case ReleaseRecord(wasActive, _) => tx.locks == {ReservationLock(id)} && FreeOk(db, id, wasActive)
    case Ready(write, answer) =>
      && write.Free? && FreeOk(db, id, write.wasActive)
      && {ReservationLock(id)} <= tx.locks <= {ReservationLock(id), OperationLock(key, ReleaseKind)}
      && answer == Freed(write.available, db.reservations[id].currency)
    case Finished(answer) => tx.locks == {} && (answer.Failed? || answer.Freed?)
    case _ => false
  }

  /** A refusal that can be told from the data has its reason there, and keeps it; one for lack of funds,
      or of the reservation, was true when it was given. */
  ghost predicate Grounds(db: Db, call: Call, error: Error) {
    match error
    case EmptyIdempotencyKey => call.key == ""
    case InvalidAmount => call.ReserveFunds? && call.amount <= 0
    case AccountNotFound => Counterpart(call).Some? && Counterpart(call).value !in db.accounts
    case CurrencyMismatch =>
      && Counterpart(call).Some? && Counterpart(call).value in db.accounts
      && (call.ReserveFunds? ==> db.accounts[call.account].currency != call.currency)
      && (call.CommitFunds? ==> call.id in db.reservations && db.accounts[call.payee].currency != db.reservations[call.id].currency)
    case InsufficientFunds => call.ReserveFunds?
    case ReservationNotFound => !call.ReserveFunds?
    case AlreadyReleased => call.CommitFunds? && HasStatus(db, call.id, Released)
    case AlreadyCommitted => call.ReleaseFunds? && HasStatus(db, call.id, Committed)
    case ConflictWithoutWinner => false
    case StoreFailure => true
  }

  /** The account a call names. */
  function Counterpart(call: Call): Option<int> {
    match call
    case ReserveFunds(account, _, _, _) => Some(account)
    case CommitFunds(_, payee, _) => Some(payee)
    case ReleaseFunds(_, _) => None
  }

  ghost predicate Grounded(db: Db, tx: Tx) {
    tx.pc.Finished? && tx.pc.answer.Failed? ==> Grounds(db, tx.call, tx.pc.answer.error)
  }

  ghost predicate TxOk(db: Db, tx: Tx) {
    && (tx.pc == Start || tx.pc.Finished? || tx.call.key != "")
    && Grounded(db, tx)
    && match tx.call
    case ReserveFunds(_, _, _, _) => ReserveOk(db, tx)
    case CommitFunds(_, _, _) => CommitOk(db, tx)
    case ReleaseFunds(_, _) => ReleaseOk(db, tx)
  }

  // ---------- What one committing transaction may change for the others ----------

  /** Balances fall and ledgers move only on accounts the mover has locked, rows and their entries
      change only under their row lock, keys appear only under their key lock. */
  ghost predicate Guarantee(db: Db, db': Db, locks: set<Lock>) {
    && Later(db, db')
    && (forall a :: AccountLock(a) !in locks ==> LedgerBalance(db'.ledger, a) == LedgerBalance(db.ledger, a) && Available(db, a) <= Available(db', a))
    && (forall id :: id in db.reservations && ReservationLock(id) !in locks ==>
          db'.reservations[id] == db.reservations[id] && EntriesOf(db'.ledger, id) == EntriesOf(db.ledger, id))
    && (forall key :: KeyLock(key) !in locks && key in db'.keys ==> key in db.keys)
  }

  lemma GuaranteeDraw(db: Db, n: nat, locks: set<Lock>)
    requires Inv(db)
    ensures Guarantee(db, Draw(db, n), locks)
  {
    hide Inv;
    Drawn(db, n);
    forall a
      ensures Available(Draw(db, n), a) == Available(db, a)
    {
      DrawnAmounts(db, n, a);
    }
  }

  lemma GuaranteeInsert(db: Db, row: Reservation, locks: set<Lock>)
    requires Unused(db, row.id) && row.status == Active && row.key !in db.keys
    requires AccountLock(row.accountId) in locks && KeyLock(row.key) in locks
    ensures Guarantee(db, AddReservation(db, row), locks)
  {
    ReservationAddedLater(db, row);
    forall a
      ensures Available(AddReservation(db, row), a) == Available(db, a) - if a == row.accountId then row.amount else 0
    {
      ReservationAddedAmounts(db, row, a);
    }
  }

  lemma GuaranteeRecord(db: Db, key: string, kind: Kind, op: Operation, locks: set<Lock>)
    ensures Guarantee(db, Record(db, key, kind, op), locks)
  {
  }

  lemma GuaranteeConfirm(db: Db, id: Id, payee: int, operation: Id, debit: Id, credit: Id, key: string, locks: set<Lock>)
    requires Inv(db) && HasStatus(db, id, Active) && Solvent(db, payee, db.reservations[id].currency)
    requires ReservationLock(id) in locks && AccountLock(db.reservations[id].accountId) in locks && AccountLock(payee) in locks
    ensures Guarantee(db, Confirm(db, id, payee, operation, debit, credit, key), locks)
  {
    var db' := Confirm(db, id, payee, operation, debit, credit, key);
    assert RowOk(db, id);
    hide Inv, RowOk, Later, LedgerBalance, Available, EntriesOf;
    ConfirmedKeeps(db, id, payee, operation, debit, credit, key);
    forall a | AccountLock(a) !in locks
      ensures LedgerBalance(db'.ledger, a) == LedgerBalance(db.ledger, a) && Available(db, a) <= Available(db', a)
    {
      ConfirmedElsewhere(db, id, payee, operation, debit, credit, key, a);
    }
    forall k | k in db.reservations && ReservationLock(k) !in locks
      ensures db'.reservations[k] == db.reservations[k] && EntriesOf(db'.ledger, k) == EntriesOf(db.ledger, k)
    {
      OtherRowsStay(db, id, payee, operation, debit, credit, key, k);
    }
    assert db'.keys == db.keys;
    hide Confirm;
  }

  lemma ConfirmedElsewhere(db: Db, id: Id, payee: int, operation: Id, debit: Id, credit: Id, key: string, a: int)
    requires Inv(db) && HasStatus(db, id, Active) && a != db.reservations[id].accountId && a != payee
    ensures var db' := Confirm(db, id, payee, operation, debit, credit, key);
            LedgerBalance(db'.ledger, a) == LedgerBalance(db.ledger, a) && Available(db, a) <= Available(db', a)
  {
    assert RowOk(db, id);
    hide Inv, RowOk;
    var r := db.reservations[id];
    var d, c := DebitOf(r, operation, debit), CreditOf(r, payee, operation, credit);
    assert db.ledger + [d, c] == (db.ledger + [d]) + [c];
    BalanceAppend(db.ledger, d, a);
    BalanceAppend(db.ledger + [d], c, a);
    PostedAmounts(db, id, payee, operation, debit, credit, a);
  }

  lemma OtherRowsStay(db: Db, id: Id, payee: int, operation: Id, debit: Id, credit: Id, key: string, k: Id)
    requires Inv(db) && id in db.reservations && k in db.reservations && k != id
    ensures var db' := Confirm(db, id, payee, operation, debit, credit, key);
            && k in db'.reservations && db'.reservations[k] == db.reservations[k]
            && EntriesOf(db'.ledger, k) == EntriesOf(db.ledger, k)
  {
    assert RowOk(db, id);
    PostedTables(db, id, payee, operation, debit, credit, k);
  }

  lemma GuaranteeFree(db: Db, id: Id, key: string, wasActive: bool, available: int, locks: set<Lock>)
    requires Inv(db) && FreeOk(db, id, wasActive) && ReservationLock(id) in locks
    ensures Guarantee(db, ApplyFree(db, id, key, wasActive, available), locks)
  {
    hide Inv, Guarantee, SetStatus, Record;
    var op := Operation(id, ReleaseResult(available, db.reservations[id].currency));
    if wasActive {
      GuaranteeReleased(db, id, locks);
      var freed := SetStatus(db, id, Released);
      GuaranteeRecord(freed, key, ReleaseKind, op, locks);
      GuaranteeIsTransitive(db, freed, Record(freed, key, ReleaseKind, op), locks);
    } else {
      GuaranteeRecord(db, key, ReleaseKind, op, locks);
    }
  }

  lemma GuaranteeReleased(db: Db, id: Id, locks: set<Lock>)
    requires Inv(db) && HasStatus(db, id, Active) && ReservationLock(id) in locks
    ensures Guarantee(db, SetStatus(db, id, Released), locks)
  {
    ReleasedLater(db, id);
    forall a
      ensures Available(db, a) <= Available(SetStatus(db, id, Released), a)
    {
      ReleasedAmounts(db, id, a);
    }
  }

  lemma GuaranteeIsTransitive(a: Db, b: Db, c: Db, locks: set<Lock>)
    requires Guarantee(a, b, locks) && Guarantee(b, c, locks)
    ensures Guarantee(a, c, locks)
  {
    hide LedgerBalance, Available, EntriesOf;
    LaterIsTransitive(a, b, c);
  }

  // ---------- The others keep what they know ----------

  ghost predicate Pending(tx: Tx) {
    tx.pc.Ready? && tx.pc.write.Insert?
  }

  lemma StableReserve(db: Db, db': Db, tx: Tx, locks: set<Lock>)
    requires tx.call.ReserveFunds? && ReserveOk(db, tx) && Guarantee(db, db', locks) && tx.locks !! locks
    requires Pending(tx) ==> Unused(db', tx.pc.write.row.id)
    ensures ReserveOk(db', tx)
  {
  }

  lemma StableAgain(db: Db, db': Db, id: Id, ids: seq<Id>)
    requires Inv(db) && Inv(db') && Later(db, db') && AgainOk(db, id, ids)
    ensures AgainOk(db', id, ids)
  {
    assert RowOk(db, id) && RowOk(db', id);
    EntriesOfGrow(db.ledger, db'.ledger, id);
  }

  lemma StableCommit(db: Db, db': Db, tx: Tx, locks: set<Lock>)
    requires Inv(db) && Inv(db')
    requires tx.call.CommitFunds? && CommitOk(db, tx) && Guarantee(db, db', locks) && tx.locks !! locks
    ensures CommitOk(db', tx)
  {
    hide Inv, LedgerBalance, EntriesOf;
    var CommitFunds(id, payee, key) := tx.call;
    if ReservationLock(id) in tx.locks {
      assert ReservationLock(id) !in locks;
    }
    if tx.pc.Finished? && tx.pc.answer.Posted? {
      var ids := tx.pc.answer.entryIds;
      if AgainOk(db, id, ids) {
        StableAgain(db, db', id, ids);
      } else {
        StableAgain(db, db', db.journal[(key, CommitKind)].reservationId, ids);
      }
    }
  }

  lemma StableRelease(db: Db, db': Db, tx: Tx, locks: set<Lock>)
    requires tx.call.ReleaseFunds? && ReleaseOk(db, tx) && Guarantee(db, db', locks) && tx.locks !! locks
    ensures ReleaseOk(db', tx)
  {
  }

  // ---------- One step of one transaction ----------

  /** Identifiers nobody mentions stay unmentioned, except the one this transaction inserts. */
  ghost predicate KeepsUnused(db: Db, db': Db, tx: Tx) {
    forall id :: Unused(db, id) && !(Pending(tx) && tx.pc.write.row.id == id) ==> Unused(db', id)
  }

  ghost predicate Moves(db: Db, db': Db, tx: Tx) {
    && Inv(db') && Guarantee(db, db', tx.locks) && KeepsUnused(db, db', tx)
    && SameTotals(db, db') && NoOverdraft(db, db')
  }

  lemma MovesNothing(db: Db, tx: Tx)
    requires Inv(db)
    ensures Moves(db, db, tx)
  {
  }

  lemma MovesDraw(db: Db, n: nat, tx: Tx)
    requires Inv(db)
    ensures Moves(db, Draw(db, n), tx)
  {
    hide Inv;
    Drawn(db, n);
    GuaranteeDraw(db, n, tx.locks);
    forall a
      ensures Available(Draw(db, n), a) == Available(db, a)
    {
      DrawnAmounts(db, n, a);
    }
  }

  /** The inserted reservation leaves its account able to pay. */
  lemma MovesInsert(db: Db, tx: Tx)
    requires Inv(db) && tx.call.ReserveFunds? && ReserveOk(db, tx) && tx.pc.Ready?
    ensures Moves(db, AddReservation(db, tx.pc.write.row), tx)
    ensures 0 <= tx.pc.write.row.availableAfter <= Available(AddReservation(db, tx.pc.write.row), tx.call.account)
    ensures ReservedAs(AddReservation(db, tx.pc.write.row), tx.call.key, tx.pc.write.row.id, tx.pc.write.row.availableAfter)
  {
    hide Inv;
    var row := tx.pc.write.row;
    ReservationAdded(db, row);
    GuaranteeInsert(db, row, tx.locks);
    forall a
      ensures Available(AddReservation(db, row), a) == Available(db, a) - if a == row.accountId then row.amount else 0
    {
      ReservationAddedAmounts(db, row, a);
    }
  }

  lemma MovesRecord(db: Db, tx: Tx, key: string, kind: Kind, op: Operation)
    requires Inv(db) && OperationOk(db, kind, op)
    ensures Moves(db, Record(db, key, kind, op), tx)
  {
    hide Inv, OperationOk;
    Recorded(db, key, kind, op);
    GuaranteeRecord(db, key, kind, op, tx.locks);
    RecordedKeeps(db, key, kind, op);
  }

  lemma PairAmounts(db: Db, id: Id, payee: int, operation: Id, debit: Id, credit: Id, key: string)
    requires Inv(db) && HasStatus(db, id, Active)
    ensures NobodyLoses(db, Confirm(db, id, payee, operation, debit, credit, key))
    ensures NoOverdraft(db, Confirm(db, id, payee, operation, debit, credit, key))
  {
    assert RowOk(db, id);
    forall a
      ensures Available(db, a) <= Available(Confirm(db, id, payee, operation, debit, credit, key), a)
    {
      PostedAmounts(db, id, payee, operation, debit, credit, a);
    }
  }

  lemma PairUnused(db: Db, tx: Tx, id: Id, payee: int, operation: Id, debit: Id, credit: Id, key: string)
    requires Inv(db) && id in db.reservations
    ensures KeepsUnused(db, Confirm(db, id, payee, operation, debit, credit, key), tx)
  {
  }

  lemma MovesPair(db: Db, tx: Tx, operation: Id, debit: Id, credit: Id)
    requires Inv(db) && tx.call.CommitFunds? && CommitOk(db, tx)
    requires tx.pc.Ready? && tx.pc.write == PostPair(operation, debit, credit)
    ensures Moves(db, Confirm(db, tx.call.id, tx.call.payee, operation, debit, credit, tx.call.key), tx)
  {
    hide Inv, Guarantee, Later, SameTotals, NoOverdraft, KeepsUnused, Confirm;
    var CommitFunds(id, payee, key) := tx.call;
    Confirmed(db, id, payee, operation, debit, credit, key);
    ConfirmedKeeps(db, id, payee, operation, debit, credit, key);
    GuaranteeConfirm(db, id, payee, operation, debit, credit, key, tx.locks);
    PairAmounts(db, id, payee, operation, debit, credit, key);
    PairUnused(db, tx, id, payee, operation, debit, credit, key);
  }

  lemma PairIsPosted(db: Db, tx: Tx)
    requires Inv(db) && tx.call.CommitFunds? && CommitOk(db, tx) && tx.pc.Ready? && tx.pc.write.PostPair?
    ensures var PostPair(operation, debit, credit) := tx.pc.write;
            AgainOk(Confirm(db, tx.call.id, tx.call.payee, operation, debit, credit, tx.call.key), tx.call.id, [debit, credit])
  {
    hide Inv;
    var PostPair(operation, debit, credit) := tx.pc.write;
    ConfirmedKeeps(db, tx.call.id, tx.call.payee, operation, debit, credit, tx.call.key);
  }

  lemma FreeAmounts(db: Db, id: Id, key: string, wasActive: bool, available: int)
    requires Inv(db) && FreeOk(db, id, wasActive)
    ensures NobodyLoses(db, ApplyFree(db, id, key, wasActive, available))
    ensures NoOverdraft(db, ApplyFree(db, id, key, wasActive, available))
    ensures SameTotals(db, ApplyFree(db, id, key, wasActive, available))
  {
    assert RowOk(db, id);
    if wasActive {
      forall a
        ensures Available(db, a) <= Available(SetStatus(db, id, Released), a)
      {
        ReleasedAmounts(db, id, a);
      }
    }
  }

  lemma FreeInv(db: Db, id: Id, key: string, wasActive: bool, available: int)
    requires Inv(db) && FreeOk(db, id, wasActive)
    ensures Inv(ApplyFree(db, id, key, wasActive, available))
  {
    hide Inv;
    var op := Operation(id, ReleaseResult(available, db.reservations[id].currency));
    if wasActive {
      ReleasedRow(db, id);
      Recorded(SetStatus(db, id, Released), key, ReleaseKind, op);
    } else {
      Recorded(db, key, ReleaseKind, op);
    }
  }

  lemma FreeUnused(db: Db, tx: Tx, id: Id, key: string, wasActive: bool, available: int)
    requires id in db.reservations
    ensures KeepsUnused(db, ApplyFree(db, id, key, wasActive, available), tx)
  {
  }

  lemma MovesFree(db: Db, tx: Tx)
    requires Inv(db) && tx.call.ReleaseFunds? && ReleaseOk(db, tx) && tx.pc.Ready?
    ensures Moves(db, ApplyFree(db, tx.call.id, tx.call.key, tx.pc.write.wasActive, tx.pc.write.available), tx)
  {
    hide Inv, Guarantee, SameTotals, NoOverdraft, KeepsUnused, ApplyFree;
    var ReleaseFunds(id, key) := tx.call;
    var Free(wasActive, available) := tx.pc.write;
    FreeInv(db, id, key, wasActive, available);
    FreeAmounts(db, id, key, wasActive, available);
    FreeUnused(db, tx, id, key, wasActive, available);
    GuaranteeFree(db, id, key, wasActive, available, tx.locks);
  }

  lemma ReserveMoves(db: Db, tx: Tx)
    requires Inv(db) && tx.call.ReserveFunds? && ReserveOk(db, tx)
    ensures Moves(db, AdvanceReserve(db, tx).0, tx)
    ensures var tx' := AdvanceReserve(db, tx).1; Pending(tx') && !Pending(tx) ==> tx'.pc.write.row.id == db.nextId
  {
    hide Moves, Inv;
    MovesNothing(db, tx);
    match tx.pc
    case ReserveInsert(_) => MovesDraw(db, 1, tx);
    case Ready(_, _) => MovesInsert(db, tx);
    case _ =>
  }

  lemma ReserveStaysOk(db: Db, tx: Tx)
    requires Inv(db) && tx.call.ReserveFunds? && ReserveOk(db, tx)
    ensures var (db', tx') := AdvanceReserve(db, tx); ReserveOk(db', tx')
  {
    hide Inv, Available, Unused;
    match tx.pc
    case ReserveReserved(_) => AvailableIsRead(db, tx.call.account);
    case ReserveInsert(_) =>
      DrawnAmounts(db, 1, tx.call.account);
      NextIsUnused(db);
    case Ready(_, _) => MovesInsert(db, tx);
    case ReserveWinner => KeysAreStored(db, tx.call.key);
    case _ =>
  }

  lemma KeysAreStored(db: Db, key: string)
    requires Inv(db)
    ensures key in db.keys ==> db.keys[key] in db.reservations && db.reservations[db.keys[key]].id == db.keys[key]
  {
    assert key in db.keys ==> RowOk(db, db.keys[key]);
  }

  lemma AvailableIsRead(db: Db, account: int)
    ensures Available(db, account) == LedgerBalance(db.ledger, account) - ActiveReserved(db.reservations, db.nextId, account)
  {
  }

  lemma NextIsUnused(db: Db)
    requires Inv(db)
    ensures Unused(Draw(db, 1), db.nextId)
  {
  }

  lemma CommitMoves(db: Db, tx: Tx)
    requires Inv(db) && tx.call.CommitFunds? && CommitOk(db, tx)
    ensures Moves(db, AdvanceCommit(db, tx).0, tx)
  {
    hide Moves, Inv;
    var CommitFunds(id, payee, key) := tx.call;
    MovesNothing(db, tx);
    match tx.pc
    case CommitCheck => MovesDraw(db, 3, tx);
    case Ready(PostPair(operation, debit, credit), _) => MovesPair(db, tx, operation, debit, credit);
    case Ready(RecordAgain(ids), _) => MovesRecord(db, tx, key, CommitKind, Operation(id, CommitResult(ids)));
    case _ =>
  }

  lemma BuyerIsSolvent(db: Db, id: Id)
    requires Inv(db) && id in db.reservations
    ensures Solvent(db, db.reservations[id].accountId, db.reservations[id].currency)
  {
    assert RowOk(db, id);
  }

  lemma CommitStaysOk(db: Db, tx: Tx)
    requires Inv(db) && tx.call.CommitFunds? && CommitOk(db, tx)
    ensures var (db', tx') := AdvanceCommit(db, tx); CommitOk(db', tx')
  {
    hide RowsOk, KeysOk, ReferencesKnown;
    var CommitFunds(id, payee, key) := tx.call;
    match tx.pc
    case Start =>
      if (key, CommitKind) in db.journal {
        assert OperationOk(db, CommitKind, db.journal[(key, CommitKind)]);
      }
    case Ready(PostPair(_, _, _), _) => PairIsPosted(db, tx);
    case _ =>
  }

  // ---------- Refusals ----------

  lemma ReserveGrounded(db: Db, tx: Tx)
    requires Inv(db) && tx.call.ReserveFunds? && ReserveOk(db, tx) && Grounded(db, tx)
    ensures var (db', tx') := AdvanceReserve(db, tx); Grounded(db', tx')
  {
    KeysAreStored(db, tx.call.key);
    hide Inv, Available, LedgerBalance, ActiveReserved;
  }

  lemma CommitGrounded(db: Db, tx: Tx)
    requires Inv(db) && tx.call.CommitFunds? && CommitOk(db, tx) && Grounded(db, tx)
    ensures var (db', tx') := AdvanceCommit(db, tx); Grounded(db', tx')
  {
    if tx.pc.Ready? {
      CommitReadyIsPosted(db, tx);
      hide CommitOk, Grounds;
    } else {
      if tx.call.id in db.reservations {
        BuyerIsSolvent(db, tx.call.id);
      }
      hide Inv, EntriesOf, AgainOk, PairReady;
    }
  }

  lemma CommitReadyIsPosted(db: Db, tx: Tx)
    requires tx.call.CommitFunds? && CommitOk(db, tx) && tx.pc.Ready?
    ensures tx.pc.answer.Posted? && AdvanceCommit(db, tx).1 == Finish(tx, tx.pc.answer)
  {
  }

  lemma ReleaseGrounded(db: Db, tx: Tx)
    requires tx.call.ReleaseFunds? && ReleaseOk(db, tx) && Grounded(db, tx)
    ensures var (db', tx') := AdvanceRelease(db, tx); Grounded(db', tx')
  {
    hide ApplyFree, LedgerBalance, ActiveReserved;
  }

  lemma StaysGrounded(db: Db, db': Db, tx: Tx)
    requires Later(db, db') && Grounded(db, tx)
    ensures Grounded(db', tx)
  {
  }

  lemma ReleaseMoves(db: Db, tx: Tx)
    requires Inv(db) && tx.call.ReleaseFunds? && ReleaseOk(db, tx)
    ensures var (db', tx') := AdvanceRelease(db, tx);
            Moves(db, db', tx) && ReleaseOk(db', tx')
  {
    hide Moves, Inv;
    MovesNothing(db, tx);
    if tx.pc.Ready? {
      MovesFree(db, tx);
    }
  }

  lemma DrawLosesNothing(db: Db, n: nat)
    requires Inv(db)
    ensures NobodyLoses(db, Draw(db, n))
  {
    forall a ensures Available(Draw(db, n), a) == Available(db, a) {
      DrawnAmounts(db, n, a);
    }
  }

  /** No step of a Commit lowers any account's available amount, and no step of a Release. */
  lemma CommitLosesNothing(db: Db, tx: Tx)
    requires Inv(db) && tx.call.CommitFunds? && CommitOk(db, tx)
    ensures NobodyLoses(db, AdvanceCommit(db, tx).0)
  {
    hide Inv, Confirm;
    match tx.pc
    case CommitCheck => DrawLosesNothing(db, 3);
    case Ready(PostPair(operation, debit, credit), _) =>
      PairAmounts(db, tx.call.id, tx.call.payee, operation, debit, credit, tx.call.key);
    case _ =>
  }

  lemma ReleaseLosesNothing(db: Db, tx: Tx)
    requires Inv(db) && tx.call.ReleaseFunds? && ReleaseOk(db, tx)
    ensures NobodyLoses(db, AdvanceRelease(db, tx).0)
  {
    hide Inv, ApplyFree;
    if tx.pc.Ready? {
      FreeAmounts(db, tx.call.id, tx.call.key, tx.pc.write.wasActive, tx.pc.write.available);
    }
  }

  // ---------- Every interleaving ----------

  ghost predicate Exclusive(txs: seq<Tx>) {
    forall i, j :: 0 <= i < j < |txs| ==> txs[i].locks !! txs[j].locks
  }

  ghost predicate DistinctRows(txs: seq<Tx>) {
    forall i, j :: 0 <= i < j < |txs| && Pending(txs[i]) && Pending(txs[j]) ==>
      txs[i].pc.write.row.id != txs[j].pc.write.row.id
  }

  ghost predicate AllOk(db: Db, txs: seq<Tx>) {
    forall i :: 0 <= i < |txs| ==> TxOk(db, txs[i])
  }

  ghost predicate SysOk(s: Sys) {
    Inv(s.db) && AllOk(s.db, s.txs) && Exclusive(s.txs) && DistinctRows(s.txs)
  }

  lemma TxMoves(db: Db, tx: Tx)
    requires Inv(db) && TxOk(db, tx)
    ensures var (db', tx') := AdvanceTx(db, tx);
            && Moves(db, db', tx) && TxOk(db', tx')
            && (Pending(tx') && !Pending(tx) ==> tx'.pc.write.row.id == db.nextId)
  {
    hide Moves, Inv, ReserveOk, CommitOk, ReleaseOk, Grounds, Grounded;
    match tx.call
    case ReserveFunds(_, _, _, _) =>
      ReserveMoves(db, tx);
      ReserveStaysOk(db, tx);
      ReserveGrounded(db, tx);
    case CommitFunds(_, _, _) =>
      CommitMoves(db, tx);
      CommitStaysOk(db, tx);
      CommitGrounded(db, tx);
      CommitNeverInserts(db, tx);
    case ReleaseFunds(_, _) =>
      ReleaseMoves(db, tx);
      ReleaseGrounded(db, tx);
      ReleaseNeverInserts(db, tx);
  }

  lemma CommitNeverInserts(db: Db, tx: Tx)
    requires tx.call.CommitFunds? && CommitOk(db, tx)
    ensures !Pending(tx) && !Pending(AdvanceCommit(db, tx).1)
  {
  }

  lemma ReleaseNeverInserts(db: Db, tx: Tx)
    requires tx.call.ReleaseFunds? && ReleaseOk(db, tx)
    ensures !Pending(tx) && !Pending(AdvanceRelease(db, tx).1)
  {
  }

  lemma TxStays(db: Db, db': Db, tx: Tx, mover: Tx)
    requires Inv(db) && TxOk(db, tx) && Moves(db, db', mover) && tx.locks !! mover.locks
    requires Pending(tx) && Pending(mover) ==> tx.pc.write.row.id != mover.pc.write.row.id
    ensures TxOk(db', tx)
  {
    assert Later(db, db');
    StaysGrounded(db, db', tx);
    hide Inv, Guarantee, CommitOk, ReleaseOk, Unused, Grounded, Later;
    match tx.call
    case ReserveFunds(_, _, _, _) =>
      StableReserve(db, db', tx, mover.locks);
    case CommitFunds(_, _, _) => StableCommit(db, db', tx, mover.locks);
    case ReleaseFunds(_, _) => StableRelease(db, db', tx, mover.locks);
  }

  lemma LostIsOk(db: Db, tx: Tx)
    ensures TxOk(db, Lost(tx))
  {
  }

  /** A step takes no lock but the one it asked for. */
  lemma TakesWanted(db: Db, tx: Tx)
    ensures forall l :: l in AdvanceTx(db, tx).1.locks ==> l in tx.locks || Wants(db, tx) == Some(l)
  {
  }

  lemma NextKeepsLocks(s: Sys, a: Action)
    requires Exclusive(s.txs)
    ensures Exclusive(Next(s, a).txs)
  {
    hide AdvanceTx, Wants;
    var t := Next(s, a);
    if a.tx < |s.txs| {
      TakesWanted(s.db, s.txs[a.tx]);
      forall j | 0 <= j < |s.txs| && j != a.tx ensures t.txs[a.tx].locks !! t.txs[j].locks {
        assert s.txs[a.tx].locks !! s.txs[j].locks;
      }
    }
  }

  lemma AdvanceKeeps(s: Sys, i: nat)
    requires SysOk(s) && i < |s.txs| && Enabled(s, i)
    ensures var s' := Next(s, Advance(i)); AllOk(s'.db, s'.txs) && DistinctRows(s'.txs)
  {
    hide Inv, Moves, TxOk, AdvanceTx, Enabled;
    var tx := s.txs[i];
    var (db', tx') := AdvanceTx(s.db, tx);
    TxMoves(s.db, tx);
    var txs' := s.txs[i := tx'];
    forall j | 0 <= j < |s.txs|
      ensures TxOk(db', txs'[j])
    {
      if j != i {
        TxStays(s.db, db', s.txs[j], tx);
      }
    }
    forall j | 0 <= j < |s.txs| && j != i && Pending(s.txs[j]) && Pending(tx')
      ensures s.txs[j].pc.write.row.id != tx'.pc.write.row.id
    {
      PendingIsOld(s.db, s.txs[j]);
      PendingStays(s.db, tx);
    }
  }

  lemma UnseenKeeps(s: Sys, i: nat)
    requires SysOk(s) && i < |s.txs| && s.txs[i].pc.Ready?
    ensures var s' := Next(s, Unseen(i)); AllOk(s'.db, s'.txs) && DistinctRows(s'.txs)
  {
    hide Inv, TxOk, AdvanceTx;
    ReadyIsFree(s.db, s.txs[i]);
    AdvanceKeeps(s, i);
    var t := Next(s, Advance(i));
    LostIsOk(t.db, s.txs[i]);
    assert Next(s, Unseen(i)).txs == t.txs[i := Lost(s.txs[i])];
  }

  lemma ReadyIsFree(db: Db, tx: Tx)
    ensures tx.pc.Ready? ==> Wants(db, tx) == None
  {
  }

  lemma PendingIsOld(db: Db, tx: Tx)
    requires TxOk(db, tx) && Pending(tx)
    ensures tx.pc.write.row.id < db.nextId
  {
  }

  lemma PendingStays(db: Db, tx: Tx)
    requires TxOk(db, tx)
    ensures Pending(tx) ==> !Pending(AdvanceTx(db, tx).1)
  {
  }

  lemma NextKeeps(s: Sys, a: Action)
    requires SysOk(s)
    ensures var s' := Next(s, a);
            SysOk(s') && Later(s.db, s'.db) && SameTotals(s.db, s'.db) && NoOverdraft(s.db, s'.db)
  {
    hide Inv, TxOk, AdvanceTx, Later, Available, CurrencySum;
    LaterIsReflexive(s.db);
    NextKeepsLocks(s, a);
    if a.tx < |s.txs| {
      if a.Advance? && Enabled(s, a.tx) {
        AdvanceKeeps(s, a.tx);
        TxMoves(s.db, s.txs[a.tx]);
      } else if a.Abort? {
        LostIsOk(s.db, s.txs[a.tx]);
      } else if a.Unseen? && s.txs[a.tx].pc.Ready? {
        UnseenKeeps(s, a.tx);
        TxMoves(s.db, s.txs[a.tx]);
      }
    }
  }

  /** In every interleaving, with aborts anywhere and answers of commits lost: the ledger only grows, currency totals stay, no
      account that could spend is overdrawn, and every transaction's knowledge stays true. */
  lemma {:induction false} ExecuteKeeps(s: Sys, schedule: seq<Action>)
    requires SysOk(s)
    ensures var s' := Execute(s, schedule);
            SysOk(s') && Later(s.db, s'.db) && SameTotals(s.db, s'.db) && NoOverdraft(s.db, s'.db)
    decreases |schedule|
  {
    if schedule != [] {
      var s1 := Next(s, schedule[0]);
      NextKeeps(s, schedule[0]);
      ExecuteKeeps(s1, schedule[1..]);
      LaterIsTransitive(s.db, s1.db, Execute(s1, schedule[1..]).db);
    }
  }

  lemma InitialIsOk(s: Sys)
    requires Initial(s)
    ensures SysOk(s)
  {
  }

  /** No step of its own ends a call in a failure of the store: only a rollback, or a lost answer, does. */
  lemma OnlyFaultsFail(db: Db, tx: Tx)
    requires TxOk(db, tx) && !tx.pc.Finished?
    ensures AdvanceTx(db, tx).1.pc != Finished(Failed(StoreFailure))
  {
    hide Inv, Available, LedgerBalance, EntriesOf, Confirm, Record, ApplyFree;
  }

  /** A rollback can hit any unfinished transaction: it leaves the stored data and the others alone, and
      gives its locks back. */
  lemma AbortUndoes(s: Sys, i: nat)
    requires i < |s.txs| && !s.txs[i].pc.Finished?
    ensures var t := Next(s, Abort(i));
            && t.db == s.db && |t.txs| == |s.txs| && t.txs[i].pc == Finished(Failed(StoreFailure)) && t.txs[i].locks == {}
            && forall j :: 0 <= j < |s.txs| && j != i ==> t.txs[j] == s.txs[j]
  {
  }

  /** A Reserve whose key has been taken since it looked it up gets the reservation that took it, in two
      steps, and leaves the stored data alone but for a drawn identifier. */
  lemma LoserGetsWinner(s: Sys, i: nat)
    requires SysOk(s) && i < |s.txs| && s.txs[i].pc.ReserveInsert? && Enabled(s, i) && s.txs[i].call.key in s.db.keys
    ensures var t := Next(Next(s, Advance(i)), Advance(i)); var id := s.db.keys[s.txs[i].call.key];
            && id in s.db.reservations && i < |t.txs|
            && t.txs[i].pc == Finished(Reserved(id, s.db.reservations[id].availableAfter)) && t.db == Draw(s.db, 1)
  {
    assert TxOk(s.db, s.txs[i]);
    KeysAreStored(s.db, s.txs[i].call.key);
    hide Inv;
  }

  /** In every interleaving a refusal is true: AlreadyCommitted of a committed reservation, AlreadyReleased
      of a released one, an unknown account, another currency, and so on; and no Reserve that lost the race
      for its key is left without the winner. */
  lemma RefusalsAreTrue(s: Sys, schedule: seq<Action>, i: nat)
    requires Initial(s) && i < |Execute(s, schedule).txs|
    ensures var t := Execute(s, schedule);
            t.txs[i].pc.Finished? && t.txs[i].pc.answer.Failed? ==> Grounds(t.db, t.txs[i].call, t.txs[i].pc.answer.error)
  {
    InitialIsOk(s);
    ExecuteKeeps(s, schedule);
    assert TxOk(Execute(s, schedule).db, Execute(s, schedule).txs[i]);
    hide Inv, Execute, Grounds;
  }

  /** Only a Reserve takes: whatever a Commit or a Release does next, wherever it stands among the others,
      no account has less to spend afterwards. */
  lemma OnlyReserveTakes(s: Sys, a: Action)
    requires SysOk(s) && a.tx < |s.txs| && !s.txs[a.tx].call.ReserveFunds?
    ensures NobodyLoses(s.db, Next(s, a).db)
  {
    hide Inv, AdvanceCommit, AdvanceRelease, CommitOk, ReleaseOk, Available;
    assert TxOk(s.db, s.txs[a.tx]);
    if s.txs[a.tx].call.CommitFunds? {
      CommitLosesNothing(s.db, s.txs[a.tx]);
    } else {
      ReleaseLosesNothing(s.db, s.txs[a.tx]);
    }
  }

  // ---------- What the answers promise ----------

  /** The commit of a new reservation leaves its account able to pay for all it holds back, and at
      least as much as the answer says. */
  lemma ReserveLeavesFunds(s: Sys, i: nat)
    requires SysOk(s) && i < |s.txs| && Pending(s.txs[i])
    ensures var s' := Next(s, Advance(i)); var tx := s.txs[i];
            && tx.call.ReserveFunds?
            && s'.txs[i].pc == Finished(Reserved(tx.pc.write.row.id, tx.pc.write.row.availableAfter))
            && 0 <= tx.pc.write.row.availableAfter <= Available(s'.db, tx.call.account)
  {
    assert TxOk(s.db, s.txs[i]);
    CommitNeverInsertsAt(s.db, s.txs[i]);
    MovesInsert(s.db, s.txs[i]);
  }

  lemma CommitNeverInsertsAt(db: Db, tx: Tx)
    requires TxOk(db, tx) && Pending(tx)
    ensures tx.call.ReserveFunds?
  {
  }

  /** Two Reserve calls under one key never both succeed with different reservations. */
  lemma OneReservationPerKey(s: Sys, i: nat, j: nat)
    requires SysOk(s) && i < |s.txs| && j < |s.txs|
    requires s.txs[i].call.ReserveFunds? && s.txs[j].call.ReserveFunds? && s.txs[i].call.key == s.txs[j].call.key
    requires s.txs[i].pc.Finished? && s.txs[j].pc.Finished? && !s.txs[i].pc.answer.Failed? && !s.txs[j].pc.answer.Failed?
    ensures s.txs[i].pc.answer == s.txs[j].pc.answer
  {
  }

  /** A successful Commit answers with the one debit and the one credit, of equal amount and under
      one operation, of a committed reservation: the one it names, unless its key is on record for
      another reservation. */
  lemma CommitAnswersWithThePair(s: Sys, i: nat)
    requires SysOk(s) && i < |s.txs| && s.txs[i].call.CommitFunds?
    requires s.txs[i].pc.Finished? && !s.txs[i].pc.answer.Failed?
    ensures var CommitFunds(id, _, key) := s.txs[i].call;
            exists r :: HasStatus(s.db, r, Committed)
                        && (r == id || ((key, CommitKind) in s.db.journal && s.db.journal[(key, CommitKind)].reservationId == r))
                        && var pair := EntriesOf(s.db.ledger, r);
                           |pair| == 2 && Paired(s.db.reservations[r], pair[0], pair[1])
                           && s.txs[i].pc.answer == Posted([pair[0].id, pair[1].id])
  {
    var CommitFunds(id, _, key) := s.txs[i].call;
    var ids := s.txs[i].pc.answer.entryIds;
    assert CommitOk(s.db, s.txs[i]) && PostedAs(s.db, id, key, ids);
    var r := if AgainOk(s.db, id, ids) then id else s.db.journal[(key, CommitKind)].reservationId;
    PairOf(s.db, r, ids);
  }

  /** The entries of a committed reservation are its pair. */
  lemma PairOf(db: Db, id: Id, ids: seq<Id>)
    requires Inv(db) && AgainOk(db, id, ids)
    ensures HasStatus(db, id, Committed)
    ensures var pair := EntriesOf(db.ledger, id);
            |pair| == 2 && Paired(db.reservations[id], pair[0], pair[1]) && ids == [pair[0].id, pair[1].id]
  {
    assert RowOk(db, id);
  }

  /** Commits of one reservation, by any number of concurrent calls under keys not on record for
      another reservation, all answer with the same two entries. */
  lemma OnePairPerReservation(s: Sys, i: nat, j: nat)
    requires SysOk(s) && i < |s.txs| && j < |s.txs|
    requires s.txs[i].call.CommitFunds? && s.txs[j].call.CommitFunds? && s.txs[i].call.id == s.txs[j].call.id
    requires s.txs[i].pc.Finished? && s.txs[j].pc.Finished? && !s.txs[i].pc.answer.Failed? && !s.txs[j].pc.answer.Failed?
    requires forall k :: k == i || k == j ==>
               var key := s.txs[k].call.key;
               (key, CommitKind) in s.db.journal ==> s.db.journal[(key, CommitKind)].reservationId == s.txs[k].call.id
    ensures s.txs[i].pc.answer == s.txs[j].pc.answer
  {
    assert CommitOk(s.db, s.txs[i]) && CommitOk(s.db, s.txs[j]);
    hide Inv;
  }

  /** The answer that is lost with an unseen commit. */
  ghost predicate WritesItsAnswer(db: Db, tx: Tx) {
    && tx.pc.Ready?
    && (tx.call.CommitFunds? ==> (tx.call.key, CommitKind) !in db.journal)
    && (tx.call.ReleaseFunds? ==> (tx.call.key, ReleaseKind) !in db.journal)
  }

  lemma LostAnswerIsStored(db: Db, tx: Tx)
    requires Inv(db) && TxOk(db, tx) && WritesItsAnswer(db, tx)
    ensures AnswerStored(AdvanceTx(db, tx).0, tx.call, tx.pc.answer)
  {
    hide Inv;
    if tx.call.ReserveFunds? {
      MovesInsert(db, tx);
    }
  }

  /** The data hold this answer under the call's key. */
  ghost predicate AnswerStored(db: Db, call: Call, answer: Answer) {
    match call
    case ReserveFunds(_, amount, _, key) => 0 < amount && answer.Reserved? && ReservedAs(db, key, answer.id, answer.availableAfter)
    case CommitFunds(_, _, key) => answer.Posted? && (key, CommitKind) in db.journal && db.journal[(key, CommitKind)].result == CommitResult(answer.entryIds)
    case ReleaseFunds(_, key) =>
      answer.Freed? && (key, ReleaseKind) in db.journal && db.journal[(key, ReleaseKind)].result == ReleaseResult(answer.available, answer.currency)
  }

  /** When the commit of a call takes effect unseen, then, after any further steps of anybody, a repeat of
      the call that has not started yet gets the lost answer in its first step. */
  lemma LostAnswerIsFound(s: Sys, i: nat, schedule: seq<Action>, j: nat)
    requires SysOk(s) && i < |s.txs| && WritesItsAnswer(s.db, s.txs[i])
    requires var t := Execute(Next(s, Unseen(i)), schedule); j < |t.txs| && t.txs[j].call == s.txs[i].call && t.txs[j].pc == Start
    ensures var t := Execute(Next(s, Unseen(i)), schedule);
            Next(t, Advance(j)).txs[j].pc == Finished(s.txs[i].pc.answer) && Next(t, Advance(j)).db == t.db
  {
    hide Inv, Execute, AdvanceTx;
    var s1 := Next(s, Unseen(i));
    LostAnswerIsStored(s.db, s.txs[i]);
    NextKeeps(s, Unseen(i));
    ExecuteKeeps(s1, schedule);
    var t := Execute(s1, schedule);
    assert AnswerStored(t.db, s.txs[i].call, s.txs[i].pc.answer);
    assert TxOk(s.db, s.txs[i]);
    FirstStepFinds(t.db, t.txs[j], s.txs[i].pc.answer);
  }

  lemma FirstStepFinds(db: Db, tx: Tx, answer: Answer)
    requires tx.pc == Start && tx.call.key != "" && AnswerStored(db, tx.call, answer)
    ensures Wants(db, tx) == None && AdvanceTx(db, tx) == (db, Finish(tx, answer))
  {
  }

  // ---------- No deadlock ----------

  function Rank(l: Lock): (int, int) {
    match l
    case ReservationLock(_) => (0, 0)
    case AccountLock(a) => (1, a)
    case KeyLock(_) => (2, 0)
    case OperationLock(_, _) => (2, 0)
  }

  predicate RankBelow(a: (int, int), b: (int, int)) {
    a.0 < b.0 || (a.0 == b.0 && a.1 < b.1)
  }

  /** Every transaction asks for locks in rising order. */
  lemma WantsAbove(db: Db, tx: Tx)
    requires TxOk(db, tx) && Wants(db, tx).Some?
    ensures forall l :: l in tx.locks ==> Before(l, Wants(db, tx).value) && RankBelow(Rank(l), Rank(Wants(db, tx).value))
  {
  }

  ghost predicate Blocked(s: Sys, i: nat)
    requires i < |s.txs|
  {
    !s.txs[i].pc.Finished? && !Enabled(s, i)
  }

  lemma BlockedWants(s: Sys)
    ensures forall k: nat :: k < |s.txs| && Blocked(s, k) ==> Wants(s.db, s.txs[k]).Some?
  {
  }

  /** Among the first n transactions, a blocked one whose wanted lock no other blocked one outranks. */
  lemma {:induction false} HighestBlocked(s: Sys, n: nat, some: nat) returns (m: nat)
    requires some < n <= |s.txs| && Blocked(s, some)
    ensures m < n && Blocked(s, m)
    ensures forall k :: 0 <= k < n && Blocked(s, k) ==>
              !RankBelow(Rank(Wants(s.db, s.txs[m]).value), Rank(Wants(s.db, s.txs[k]).value))
    decreases n
  {
    BlockedWants(s);
    hide Wants, Enabled, Blocked, Rank;
    var last := n - 1;
    if exists k :: 0 <= k < last && Blocked(s, k) {
      var k :| 0 <= k < last && Blocked(s, k);
      m := HighestBlocked(s, last, k);
      if Blocked(s, last) && RankBelow(Rank(Wants(s.db, s.txs[m]).value), Rank(Wants(s.db, s.txs[last]).value)) {
        m := last;
      }
    } else {
      m := some;
    }
  }

  /** While some transaction is unfinished, at least one can take its next step. */
  lemma NoDeadlock(s: Sys)
    requires SysOk(s) && exists i :: 0 <= i < |s.txs| && !s.txs[i].pc.Finished?
    ensures exists i :: 0 <= i < |s.txs| && Enabled(s, i)
  {
    var i :| 0 <= i < |s.txs| && !s.txs[i].pc.Finished?;
    if !Enabled(s, i) {
      var m := HighestBlocked(s, |s.txs|, i);
      var wanted := Wants(s.db, s.txs[m]).value;
      var holder :| 0 <= holder < |s.txs| && holder != m && wanted in s.txs[holder].locks;
      HoldersAreUnfinished(s.db, s.txs[holder]);
      if Blocked(s, holder) {
        WantsAbove(s.db, s.txs[holder]);
      }
      assert Enabled(s, holder);
    }
  }

  lemma HoldersAreUnfinished(db: Db, tx: Tx)
    requires TxOk(db, tx) && tx.locks != {}
    ensures !tx.pc.Finished?
  {
  }

  /** An upper bound on the steps a transaction still needs. */
  function StepsLeft(pc: Pc): nat {
    match pc
    case Start => 8
    case ReserveLock => 7
    case ReserveBalance => 6
    case ReserveReserved(_) => 5
    case ReserveInsert(_) => 4
    case ReserveWinner => 1
    case CommitLock => 7
    case CommitEntries => 3
    case CommitAgain(_) => 2
    case CommitFirst => 6
    case CommitSecond => 5
    case CommitCheck => 4
    case CommitRecord(_, _, _) => 3
    case ReleaseLock => 7
    case ReleaseBalance(_) => 6
    case ReleaseReserved(_, _) => 5
    case ReleaseRecord(_, _) => 4
    case Ready(_, _) => 1
    case Finished(_) => 0
  }

  function TotalLeft(txs: seq<Tx>): nat {
    if txs == [] then 0 else TotalLeft(txs[..|txs| - 1]) + StepsLeft(txs[|txs| - 1].pc)
  }

  lemma {:induction false} TotalUpdate(txs: seq<Tx>, i: nat, tx: Tx)
    requires i < |txs|
    ensures TotalLeft(txs[i := tx]) == TotalLeft(txs) - StepsLeft(txs[i].pc) + StepsLeft(tx.pc)
  {
    var n := |txs| - 1;
    if i == n {
      assert txs[i := tx][..n] == txs[..n];
    } else {
      assert txs[i := tx][..n] == txs[..n][i := tx];
      TotalUpdate(txs[..n], i, tx);
    }
  }

  lemma ReserveDescends(db: Db, tx: Tx)
    requires tx.call.ReserveFunds? && ReserveOk(db, tx) && !tx.pc.Finished?
    ensures StepsLeft(AdvanceReserve(db, tx).1.pc) < StepsLeft(tx.pc)
  {
  }

  lemma CommitDescends(db: Db, tx: Tx)
    requires tx.call.CommitFunds? && CommitOk(db, tx) && !tx.pc.Finished?
    ensures StepsLeft(AdvanceCommit(db, tx).1.pc) < StepsLeft(tx.pc)
  {
  }

  lemma ReleaseDescends(db: Db, tx: Tx)
    requires tx.call.ReleaseFunds? && ReleaseOk(db, tx) && !tx.pc.Finished?
    ensures StepsLeft(AdvanceRelease(db, tx).1.pc) < StepsLeft(tx.pc)
  {
  }

  lemma StepsDescend(db: Db, tx: Tx)
    requires TxOk(db, tx) && !tx.pc.Finished?
    ensures StepsLeft(AdvanceTx(db, tx).1.pc) < StepsLeft(tx.pc)
  {
    hide AdvanceReserve, AdvanceCommit, AdvanceRelease, ReserveOk, CommitOk, ReleaseOk, StepsLeft;
    match tx.call
    case ReserveFunds(_, _, _, _) => ReserveDescends(db, tx);
    case CommitFunds(_, _, _) => CommitDescends(db, tx);
    case ReleaseFunds(_, _) => ReleaseDescends(db, tx);
  }

  ghost predicate Done(s: Sys) {
    forall i :: 0 <= i < |s.txs| ==> s.txs[i].pc.Finished?
  }

  /** From every reachable state the transactions can all be brought to an end, in at most as many
      steps as they have left. */
  lemma {:induction false} Completes(s: Sys) returns (schedule: seq<Action>)
    requires SysOk(s)
    ensures |schedule| <= TotalLeft(s.txs) && Done(Execute(s, schedule))
    decreases TotalLeft(s.txs)
  {
    if Done(s) {
      schedule := [];
    } else {
      NoDeadlock(s);
      var i :| 0 <= i < |s.txs| && Enabled(s, i);
      var s' := Next(s, Advance(i));
      StepsDescend(s.db, s.txs[i]);
      TotalUpdate(s.txs, i, s'.txs[i]);
      NextKeeps(s, Advance(i));
      var rest := Completes(s');
      schedule := [Advance(i)] + rest;
      assert schedule[1..] == rest;
    }
  }
}
