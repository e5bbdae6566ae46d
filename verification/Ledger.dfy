/** The wallet's stored data (accounts, append-only ledger, reservations, journal of
    finished operations, outbox) and what every transaction must keep about it. */
module Ledger {
  type Id = nat

  datatype Account = Account(id: int, currency: string)

  datatype Direction = Debit | Credit

  datatype Entry = Entry(id: Id, accountId: int, amount: int, dir: Direction,
                         operationId: Id, reason: string, referenceId: Id)

  datatype Status = Active | Committed | Released

  datatype Reservation = Reservation(id: Id, accountId: int, amount: int, currency: string,
                                     status: Status, key: string, availableAfter: int)

  datatype Debited = Debited(accountId: int, amount: int, currency: string,
                             reason: string, referenceId: Id)

  datatype Kind = CommitKind | ReleaseKind

  datatype OpResult = CommitResult(entryIds: seq<Id>) | ReleaseResult(available: int, currency: string)

  datatype Operation = Operation(reservationId: Id, result: OpResult)

  // keys is the unique index on idempotency_key. nextId stands for the UUID v7 source:
  // only identifiers below it may be in use.
  datatype Db = Db(accounts: map<int, Account>, ledger: seq<Entry>,
                   reservations: map<Id, Reservation>, keys: map<string, Id>,
                   journal: map<(string, Kind), Operation>, outbox: seq<Debited>, nextId: Id)

  const ORDER_PAYMENT := "order_payment"

  // ---------- Reads ----------

  function Signed(e: Entry): int {
    if e.dir == Credit then e.amount else -e.amount
  }

  function LedgerBalance(ledger: seq<Entry>, account: int): int {
    if ledger == [] then 0
    else
      var last := ledger[|ledger| - 1];
      LedgerBalance(ledger[..|ledger| - 1], account) + if last.accountId == account then Signed(last) else 0
  }

  /** What row id holds back from the account. */
  function Held(rows: map<Id, Reservation>, id: Id, account: int): int {
    if id in rows && rows[id].accountId == account && rows[id].status == Active then rows[id].amount else 0
  }

  /** The sum over all rows with an identifier below the bound. */
  function ActiveReserved(rows: map<Id, Reservation>, bound: Id, account: int): int {
    if bound == 0 then 0 else ActiveReserved(rows, bound - 1, account) + Held(rows, bound - 1, account)
  }

  function Available(db: Db, account: int): int {
    LedgerBalance(db.ledger, account) - ActiveReserved(db.reservations, db.nextId, account)
  }

  /** The signed sum of every entry on an account of one currency. */
  function CurrencySum(accounts: map<int, Account>, ledger: seq<Entry>, currency: string): int {
    if ledger == [] then 0
    else
      var last := ledger[|ledger| - 1];
      CurrencySum(accounts, ledger[..|ledger| - 1], currency) +
      if last.accountId in accounts && accounts[last.accountId].currency == currency then Signed(last) else 0
  }

  function EntriesOf(ledger: seq<Entry>, reference: Id): seq<Entry> {
    if ledger == [] then []
    else
      var last := ledger[|ledger| - 1];
      EntriesOf(ledger[..|ledger| - 1], reference) + if last.referenceId == reference then [last] else []
  }

  function EventsOf(outbox: seq<Debited>, reference: Id): seq<Debited> {
    if outbox == [] then []
    else
      var last := outbox[|outbox| - 1];
      EventsOf(outbox[..|outbox| - 1], reference) + if last.referenceId == reference then [last] else []
  }

  function EntryIds(entries: seq<Entry>): (ids: seq<Id>)
    ensures |ids| == |entries| && forall i :: 0 <= i < |ids| ==> ids[i] == entries[i].id
  {
    seq(|entries|, i requires 0 <= i < |entries| => entries[i].id)
  }

  // ---------- Writes ----------

  function AddReservation(db: Db, row: Reservation): Db {
    db.(reservations := db.reservations[row.id := row], keys := db.keys[row.key := row.id])
  }

  function SetStatus(db: Db, id: Id, status: Status): Db
    requires id in db.reservations
  {
    db.(reservations := db.reservations[id := db.reservations[id].(status := status)])
  }

  function DebitOf(r: Reservation, operation: Id, id: Id): Entry {
    Entry(id, r.accountId, r.amount, Debit, operation, ORDER_PAYMENT, r.id)
  }

  function CreditOf(r: Reservation, payee: int, operation: Id, id: Id): Entry {
    Entry(id, payee, r.amount, Credit, operation, ORDER_PAYMENT, r.id)
  }

  function DebitedOf(r: Reservation): Debited {
    Debited(r.accountId, r.amount, r.currency, ORDER_PAYMENT, r.id)
  }

  /** The whole effect of confirming a reservation: both entries, the status, the event. */
  function Post(db: Db, id: Id, payee: int, operation: Id, debit: Id, credit: Id): Db
    requires id in db.reservations
  {
    var r := db.reservations[id];
    SetStatus(db, id, Committed)
    .(ledger := db.ledger + [DebitOf(r, operation, debit), CreditOf(r, payee, operation, credit)],
      outbox := db.outbox + [DebitedOf(r)])
  }

  /** INSERT ... ON CONFLICT DO NOTHING on (key, kind). */
  function Record(db: Db, key: string, kind: Kind, op: Operation): Db {
    if (key, kind) in db.journal then db else db.(journal := db.journal[(key, kind) := op])
  }

  function Draw(db: Db, n: nat): Db {
    db.(nextId := db.nextId + n)
  }

  // ---------- The invariant ----------

  ghost predicate Paired(r: Reservation, debit: Entry, credit: Entry) {
    && debit == DebitOf(r, debit.operationId, debit.id)
    && credit == CreditOf(r, credit.accountId, debit.operationId, credit.id)
    && debit.id < credit.id
  }

  /** A committed reservation has exactly one debit and one credit of its own amount under one
      operation, and one event; any other reservation has none. */
  ghost predicate Balanced(db: Db, r: Reservation) {
    var entries := EntriesOf(db.ledger, r.id);
    if r.status == Committed then
      && |entries| == 2
      && Paired(r, entries[0], entries[1])
      && entries[1].accountId in db.accounts
      && db.accounts[entries[1].accountId].currency == r.currency
      && EventsOf(db.outbox, r.id) == [DebitedOf(r)]
    else
      entries == [] && EventsOf(db.outbox, r.id) == []
  }

  ghost predicate RowOk(db: Db, id: Id)
    requires id in db.reservations
  {
    var r := db.reservations[id];
    && r.id == id < db.nextId
    && 0 < r.amount
    && r.accountId in db.accounts && db.accounts[r.accountId].currency == r.currency
    && r.key in db.keys && db.keys[r.key] == id
    && Balanced(db, r)
  }

  ghost predicate OperationOk(db: Db, kind: Kind, op: Operation) {
    && op.reservationId in db.reservations
    && match kind
       case CommitKind =>
         && db.reservations[op.reservationId].status == Committed
         && op.result == CommitResult(EntryIds(EntriesOf(db.ledger, op.reservationId)))
       case ReleaseKind =>
         && db.reservations[op.reservationId].status == Released
         && op.result.ReleaseResult?
  }

  ghost predicate ReferencesKnown(db: Db) {
    && (forall k :: 0 <= k < |db.ledger| ==> db.ledger[k].referenceId < db.nextId)
    && (forall k :: 0 <= k < |db.outbox| ==> db.outbox[k].referenceId < db.nextId)
  }

  ghost predicate RowsOk(db: Db) {
    forall id :: id in db.reservations ==> RowOk(db, id)
  }

  ghost predicate KeysOk(db: Db) {
    forall key :: key in db.keys ==> db.keys[key] in db.reservations && db.reservations[db.keys[key]].key == key
  }

  ghost predicate JournalOk(db: Db) {
    forall k :: k in db.journal ==> OperationOk(db, k.1, db.journal[k])
  }

  ghost predicate Inv(db: Db) {
    ReferencesKnown(db) && RowsOk(db) && KeysOk(db) && JournalOk(db)
  }

  /** No row, entry or event mentions this identifier. */
  ghost predicate Unused(db: Db, id: Id) {
    && id < db.nextId
    && id !in db.reservations
    && (forall k :: 0 <= k < |db.ledger| ==> db.ledger[k].referenceId != id)
    && (forall k :: 0 <= k < |db.outbox| ==> db.outbox[k].referenceId != id)
  }

  // ---------- History ----------

  /** What a reservation row may become: only its status changes, and only out of Active. */
  ghost predicate RowLater(r: Reservation, r': Reservation) {
    r' == r.(status := r'.status) && (r.status == Active || r'.status == r.status)
  }

  /** The later database only adds to the earlier one. */
  ghost predicate Later(db: Db, db': Db) {
    && db'.accounts == db.accounts
    && db.ledger <= db'.ledger
    && db.outbox <= db'.outbox
    && db.nextId <= db'.nextId
    && (forall id :: id in db.reservations ==> id in db'.reservations && RowLater(db.reservations[id], db'.reservations[id]))
    && (forall key :: key in db.keys ==> key in db'.keys && db'.keys[key] == db.keys[key])
    && (forall k :: k in db.journal ==> k in db'.journal && db'.journal[k] == db.journal[k])
  }

  lemma LaterIsReflexive(db: Db)
    ensures Later(db, db)
  {
  }

  lemma LaterIsTransitive(a: Db, b: Db, c: Db)
    requires Later(a, b) && Later(b, c)
    ensures Later(a, c)
  {
  }

  ghost predicate SameTotals(db: Db, db': Db) {
    forall currency :: CurrencySum(db'.accounts, db'.ledger, currency) == CurrencySum(db.accounts, db.ledger, currency)
  }

  /** No account that can spend now is overdrawn later. */
  ghost predicate NoOverdraft(db: Db, db': Db) {
    forall a :: 0 <= Available(db, a) ==> 0 <= Available(db', a)
  }

  /** No account has less to spend later. */
  ghost predicate NobodyLoses(db: Db, db': Db) {
    forall a :: Available(db, a) <= Available(db', a)
  }

  // ---------- Sums over appended and updated tables ----------

  lemma BalanceAppend(ledger: seq<Entry>, e: Entry, account: int)
    ensures LedgerBalance(ledger + [e], account) == LedgerBalance(ledger, account) + if e.accountId == account then Signed(e) else 0
  {
  }

  lemma CurrencyAppend(accounts: map<int, Account>, ledger: seq<Entry>, e: Entry, currency: string)
    ensures CurrencySum(accounts, ledger + [e], currency) == CurrencySum(accounts, ledger, currency) +
            if e.accountId in accounts && accounts[e.accountId].currency == currency then Signed(e) else 0
  {
  }

  lemma {:induction false} ReservedUpdate(rows: map<Id, Reservation>, id: Id, r: Reservation, bound: Id, account: int)
    ensures ActiveReserved(rows[id := r], bound, account) == ActiveReserved(rows, bound, account) +
            if id < bound then Held(rows[id := r], id, account) - Held(rows, id, account) else 0
  {
    if bound != 0 {
      ReservedUpdate(rows, id, r, bound - 1, account);
    }
  }

  lemma {:induction false} ReservedBeyond(rows: map<Id, Reservation>, bound: Id, bound': Id, account: int)
    requires bound <= bound' && forall id :: bound <= id < bound' ==> id !in rows
    ensures ActiveReserved(rows, bound', account) == ActiveReserved(rows, bound, account)
  {
    if bound < bound' {
      ReservedBeyond(rows, bound, bound' - 1, account);
    }
  }

  lemma EntriesAppend(ledger: seq<Entry>, e: Entry, reference: Id)
    ensures EntriesOf(ledger + [e], reference) == EntriesOf(ledger, reference) + if e.referenceId == reference then [e] else []
  {
  }

  lemma EventsAppend(outbox: seq<Debited>, e: Debited, reference: Id)
    ensures EventsOf(outbox + [e], reference) == EventsOf(outbox, reference) + if e.referenceId == reference then [e] else []
  {
  }

  lemma {:induction false} NoEntries(ledger: seq<Entry>, reference: Id)
    requires forall k :: 0 <= k < |ledger| ==> ledger[k].referenceId != reference
    ensures EntriesOf(ledger, reference) == []
  {
    if ledger != [] {
      NoEntries(ledger[..|ledger| - 1], reference);
    }
  }

  lemma {:induction false} NoEvents(outbox: seq<Debited>, reference: Id)
    requires forall k :: 0 <= k < |outbox| ==> outbox[k].referenceId != reference
    ensures EventsOf(outbox, reference) == []
  {
    if outbox != [] {
      NoEvents(outbox[..|outbox| - 1], reference);
    }
  }

  lemma {:induction false} EntriesOfGrow(a: seq<Entry>, b: seq<Entry>, reference: Id)
    requires a <= b
    ensures EntriesOf(a, reference) <= EntriesOf(b, reference)
    decreases |b|
  {
    if |a| < |b| {
      EntriesOfGrow(a, b[..|b| - 1], reference);
    } else {
      assert a == b;
    }
  }

  // ---------- What each write keeps ----------

  lemma ReservationAddedRows(db: Db, row: Reservation)
    requires Inv(db) && Unused(db, row.id)
    requires row.status == Active && 0 < row.amount
    requires row.accountId in db.accounts && db.accounts[row.accountId].currency == row.currency
    requires row.key !in db.keys
    ensures RowsOk(AddReservation(db, row))
  {
    var db' := AddReservation(db, row);
    forall id | id in db'.reservations
      ensures RowOk(db', id)
    {
      if id == row.id {
        NoEntries(db.ledger, row.id);
        NoEvents(db.outbox, row.id);
      } else {
        assert RowOk(db, id);
      }
    }
  }

  lemma ReservationAdded(db: Db, row: Reservation)
    requires Inv(db) && Unused(db, row.id)
    requires row.status == Active && 0 < row.amount
    requires row.accountId in db.accounts && db.accounts[row.accountId].currency == row.currency
    requires row.key !in db.keys
    ensures Inv(AddReservation(db, row))
  {
    var db' := AddReservation(db, row);
    ReservationAddedRows(db, row);
    forall k | k in db'.journal
      ensures OperationOk(db', k.1, db'.journal[k])
    {
      assert OperationOk(db, k.1, db.journal[k]);
    }
  }

  lemma ReservationAddedLater(db: Db, row: Reservation)
    requires row.id !in db.reservations && row.key !in db.keys
    ensures Later(db, AddReservation(db, row))
  {
  }

  lemma ReservationAddedAmounts(db: Db, row: Reservation, a: int)
    requires Unused(db, row.id) && row.status == Active
    ensures Available(AddReservation(db, row), a) == Available(db, a) - if a == row.accountId then row.amount else 0
  {
    ReservedUpdate(db.reservations, row.id, row, db.nextId, a);
  }

  lemma ReleasedRow(db: Db, id: Id)
    requires Inv(db) && id in db.reservations && db.reservations[id].status == Active
    ensures Inv(SetStatus(db, id, Released))
  {
    var db' := SetStatus(db, id, Released);
    forall j | j in db'.reservations
      ensures RowOk(db', j)
    {
      assert RowOk(db, j);
    }
    forall k | k in db'.journal
      ensures OperationOk(db', k.1, db'.journal[k])
    {
      assert OperationOk(db, k.1, db.journal[k]);
    }
    hide RowOk, OperationOk;
  }

  lemma ReleasedLater(db: Db, id: Id)
    requires id in db.reservations && db.reservations[id].status == Active
    ensures Later(db, SetStatus(db, id, Released))
  {
  }

  lemma ReleasedAmounts(db: Db, id: Id, a: int)
    requires id in db.reservations && id < db.nextId && db.reservations[id].status == Active
    ensures Available(SetStatus(db, id, Released), a) ==
            Available(db, a) + if a == db.reservations[id].accountId then db.reservations[id].amount else 0
  {
    ReservedUpdate(db.reservations, id, db.reservations[id].(status := Released), db.nextId, a);
  }

  lemma PostedAmounts(db: Db, id: Id, payee: int, operation: Id, debit: Id, credit: Id, a: int)
    requires id in db.reservations && id < db.nextId && db.reservations[id].status == Active
    ensures Available(Post(db, id, payee, operation, debit, credit), a)
            == Available(db, a) + if a == payee then db.reservations[id].amount else 0
  {
    var r := db.reservations[id];
    var d, c := DebitOf(r, operation, debit), CreditOf(r, payee, operation, credit);
    assert db.ledger + [d, c] == (db.ledger + [d]) + [c];
    BalanceAppend(db.ledger, d, a);
    BalanceAppend(db.ledger + [d], c, a);
    ReservedUpdate(db.reservations, id, r.(status := Committed), db.nextId, a);
  }

  lemma PostedTotals(db: Db, id: Id, payee: int, operation: Id, debit: Id, credit: Id)
    requires id in db.reservations
    requires db.reservations[id].accountId in db.accounts && payee in db.accounts
    requires db.accounts[payee].currency == db.accounts[db.reservations[id].accountId].currency
    ensures SameTotals(db, Post(db, id, payee, operation, debit, credit))
  {
    var r := db.reservations[id];
    var d, c := DebitOf(r, operation, debit), CreditOf(r, payee, operation, credit);
    assert db.ledger + [d, c] == (db.ledger + [d]) + [c];
    forall currency
      ensures CurrencySum(db.accounts, db.ledger + [d, c], currency) == CurrencySum(db.accounts, db.ledger, currency)
    {
      CurrencyAppend(db.accounts, db.ledger, d, currency);
      CurrencyAppend(db.accounts, db.ledger + [d], c, currency);
    }
  }

  lemma PostedTables(db: Db, id: Id, payee: int, operation: Id, debit: Id, credit: Id, reference: Id)
    requires id in db.reservations
    ensures var db' := Post(db, id, payee, operation, debit, credit); var r := db.reservations[id];
            && EntriesOf(db'.ledger, reference) == EntriesOf(db.ledger, reference) +
               (if reference == r.id then [DebitOf(r, operation, debit), CreditOf(r, payee, operation, credit)] else [])
            && EventsOf(db'.outbox, reference) == EventsOf(db.outbox, reference) +
               (if reference == r.id then [DebitedOf(r)] else [])
  {
    var r := db.reservations[id];
    var d, c := DebitOf(r, operation, debit), CreditOf(r, payee, operation, credit);
    assert db.ledger + [d, c] == (db.ledger + [d]) + [c];
    EntriesAppend(db.ledger, d, reference);
    EntriesAppend(db.ledger + [d], c, reference);
    EventsAppend(db.outbox, DebitedOf(r), reference);
  }

  lemma PostedRows(db: Db, id: Id, payee: int, operation: Id, debit: Id, credit: Id)
    requires Inv(db) && id in db.reservations && db.reservations[id].status == Active
    requires payee in db.accounts && db.accounts[payee].currency == db.reservations[id].currency
    requires debit < credit
    ensures var db' := Post(db, id, payee, operation, debit, credit); RowsOk(db')
  {
    var db' := Post(db, id, payee, operation, debit, credit);
    forall j | j in db'.reservations
      ensures RowOk(db', j)
    {
      assert RowOk(db, j);
      PostedTables(db, id, payee, operation, debit, credit, j);
    }
  }

  lemma PostedJournal(db: Db, id: Id, payee: int, operation: Id, debit: Id, credit: Id)
    requires Inv(db) && id in db.reservations && db.reservations[id].status == Active
    ensures var db' := Post(db, id, payee, operation, debit, credit); JournalOk(db')
  {
    var db' := Post(db, id, payee, operation, debit, credit);
    assert RowOk(db, id);
    hide RowsOk, RowOk, KeysOk, ReferencesKnown;
    forall k | k in db'.journal
      ensures OperationOk(db', k.1, db'.journal[k])
    {
      assert OperationOk(db, k.1, db.journal[k]);
      PostedTables(db, id, payee, operation, debit, credit, db.journal[k].reservationId);
    }
  }

  lemma PostedRow(db: Db, id: Id, payee: int, operation: Id, debit: Id, credit: Id)
    requires Inv(db) && id in db.reservations && db.reservations[id].status == Active
    requires payee in db.accounts && db.accounts[payee].currency == db.reservations[id].currency
    requires debit < credit
    ensures Inv(Post(db, id, payee, operation, debit, credit))
  {
    PostedRows(db, id, payee, operation, debit, credit);
    PostedJournal(db, id, payee, operation, debit, credit);
    assert RowOk(db, id);
  }

  lemma PostedEntries(db: Db, id: Id, payee: int, operation: Id, debit: Id, credit: Id)
    requires Inv(db) && id in db.reservations && db.reservations[id].status == Active
    ensures EntryIds(EntriesOf(Post(db, id, payee, operation, debit, credit).ledger, id)) == [debit, credit]
  {
    PostedTables(db, id, payee, operation, debit, credit, id);
    assert RowOk(db, id);
  }

  lemma PostedLater(db: Db, id: Id, payee: int, operation: Id, debit: Id, credit: Id)
    requires id in db.reservations && db.reservations[id].status == Active
    ensures Later(db, Post(db, id, payee, operation, debit, credit))
  {
  }

  lemma RecordedKeeps(db: Db, key: string, kind: Kind, op: Operation)
    ensures Later(db, Record(db, key, kind, op))
    ensures SameTotals(db, Record(db, key, kind, op))
    ensures forall a :: Available(Record(db, key, kind, op), a) == Available(db, a)
  {
  }

  lemma Recorded(db: Db, key: string, kind: Kind, op: Operation)
    requires Inv(db) && OperationOk(db, kind, op)
    ensures Inv(Record(db, key, kind, op))
  {
  }

  lemma Drawn(db: Db, n: nat)
    requires Inv(db)
    ensures Inv(Draw(db, n)) && Later(db, Draw(db, n))
    ensures forall id: Id :: db.nextId <= id < db.nextId + n ==> Unused(Draw(db, n), id)
  {
  }

  lemma DrawnAmounts(db: Db, n: nat, a: int)
    requires Inv(db)
    ensures Available(Draw(db, n), a) == Available(db, a)
  {
    forall id: Id | db.nextId <= id
      ensures id !in db.reservations
    {
      assert id in db.reservations ==> RowOk(db, id);
    }
    ReservedBeyond(db.reservations, db.nextId, db.nextId + n, a);
  }
}
