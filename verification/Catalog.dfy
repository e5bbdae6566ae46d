/** The catalog's indexer: claim an event, change the listing, write the outbox row, all in one
    transaction; first as a meaning for each event, then with any number of such transactions
    interleaved, then as the code of the two handlers. */
module Catalog {
  import opened Wrappers
  import opened Decimal
  import opened Errors

  /** A listing row. thumbs maps sizes to storage keys. */
  datatype Row = Row(author: int, title: string, price: int, thumbs: map<string, string>, published: bool, at: int)

  /** An outbox row: the catalog.listing.published event of a listing as it was when published. */
  datatype Out = Out(photo: string, row: Row, authorName: string)

  /** Everything one transaction can change. marks are the processed_events. */
  datatype Db = Db(listings: map<string, Row>, authors: map<int, string>, outbox: seq<Out>, marks: set<string>)

  /** A delivered event. An upload's row is what media answers for the photo. */
  datatype Event =
    | Uploaded(id: string, photo: string, fetched: Row)
    | ThumbsReady(id: string, photo: string, thumbs: map<string, string>, at: int)

  const EMPTY := Db(map[], map[], [], {})

  /** The name an author gets at first sight. */
  function Placeholder(author: int): string { "author-" + FormatInt(author) }

  // ---------- What an event means ----------

  function Draft(fetched: Row): Row {
    fetched.(published := false, at := 0)
  }

  function WithThumbs(row: Row, thumbs: map<string, string>, at: int): Row {
    row.(thumbs := row.thumbs + thumbs, published := true, at := at)
  }

  function AuthorName(db: Db, author: int): string {
    if author in db.authors then db.authors[author] else ""
  }

  /** The new row of the event's photo, if it writes one: an upload only makes a row where there is
      none; thumbnails are merged into the row there is. */
  function NewRow(db: Db, e: Event): Option<Row> {
    match e
    case Uploaded(_, photo, fetched) => if photo in db.listings then None else Some(Draft(fetched))
    case ThumbsReady(_, photo, thumbs, at) => if photo in db.listings then Some(WithThumbs(db.listings[photo], thumbs, at)) else None
  }

  function NewOut(db: Db, e: Event): seq<Out> {
    if e.ThumbsReady? && e.photo in db.listings then
      var row := WithThumbs(db.listings[e.photo], e.thumbs, e.at);
      [Out(e.photo, row, AuthorName(db, row.author))]
    else []
  }

  function NewAuthors(db: Db, e: Event): map<int, string> {
    if e.Uploaded? && e.fetched.author !in db.authors then db.authors[e.fetched.author := Placeholder(e.fetched.author)] else db.authors
  }

  /** A thumbnail event cannot be applied before its listing exists. */
  predicate Applicable(db: Db, e: Event) {
    e.id != "" && (e.ThumbsReady? ==> e.photo in db.listings)
  }

  function Apply(db: Db, e: Event): Db {
    Db(if NewRow(db, e).Some? then db.listings[e.photo := NewRow(db, e).value] else db.listings,
       NewAuthors(db, e), db.outbox + NewOut(db, e), db.marks + {e.id})
  }

  function Replay(events: seq<Event>): Db {
    if events == [] then EMPTY else Apply(Replay(events[..|events| - 1]), events[|events| - 1])
  }

  // ---------- Transactions running at once ----------

  /** Claimed: the mark is inserted but not committed. Changed: so are the row and the outbox row. */
  datatype Phase = Begun | Claimed | Changed(row: Option<Row>, out: seq<Out>) | Ended

  datatype Tx = Tx(event: Event, phase: Phase)

  /** applied is bookkeeping: the events whose transactions have committed, in that order. */
  datatype Sys = Sys(db: Db, txs: seq<Tx>, applied: seq<Event>)

  /** Deliver covers first and repeated deliveries, from the main topic and from the retry topic; Abort,
      every failure and crash before the commit. */
  datatype Step = Deliver(e: Event) | Claim(i: nat) | Work(i: nat) | Commit(i: nat) | Abort(i: nat)

  /** Another transaction has an uncommitted mark of this event: the insert waits for it to end. */
  predicate MarkHeld(s: Sys, i: nat, id: string) {
    exists j :: 0 <= j < |s.txs| && j != i && s.txs[j].event.id == id && Uncommitted(s.txs[j])
  }

  /** Another transaction has written the photo's row, or holds its lock, and has not ended. */
  predicate RowHeld(s: Sys, i: nat, photo: string) {
    exists j :: 0 <= j < |s.txs| && j != i && s.txs[j].event.photo == photo && HoldsRow(s.txs[j])
  }

  predicate Enabled(s: Sys, step: Step) {
    match step
    case Deliver(_) => true
    case Claim(i) => i < |s.txs| && s.txs[i].phase.Begun? && !MarkHeld(s, i, s.txs[i].event.id)
    case Work(i) =>
      && i < |s.txs| && s.txs[i].phase.Claimed?
      && (!RowHeld(s, i, s.txs[i].event.photo) || (s.txs[i].event.Uploaded? && s.txs[i].event.photo in s.db.listings))
    case Commit(i) => i < |s.txs| && s.txs[i].phase.Changed?
    case Abort(i) => i < |s.txs| && !s.txs[i].phase.Ended?
  }

  function Goto(s: Sys, i: nat, phase: Phase): Sys
    requires i < |s.txs|
  {
    s.(txs := s.txs[i := s.txs[i].(phase := phase)])
  }

  function Do(s: Sys, step: Step): Sys
    requires Enabled(s, step)
  {
    match step
    case Deliver(e) => s.(txs := s.txs + [Tx(e, Begun)])
    case Claim(i) =>
      var id := s.txs[i].event.id;
      Goto(s, i, if id == "" || id in s.db.marks then Ended else Claimed)
    case Work(i) =>
      var e := s.txs[i].event;
      Goto(s, i, if Applicable(s.db, e) then Changed(NewRow(s.db, e), NewOut(s.db, e)) else Ended)
    case Commit(i) =>
      var e, w := s.txs[i].event, s.txs[i].phase;
      var db := Db(if w.row.Some? then s.db.listings[e.photo := w.row.value] else s.db.listings,
                   NewAuthors(s.db, e), s.db.outbox + w.out, s.db.marks + {e.id});
      Goto(s, i, Ended).(db := db, applied := s.applied + [e])
    case Abort(i) => Goto(s, i, Ended)
  }

  function Execute(s: Sys, steps: seq<Step>): Sys
    decreases |steps|
  {
    if steps == [] then s
    else Execute(if Enabled(s, steps[0]) then Do(s, steps[0]) else s, steps[1..])
  }

  const START := Sys(EMPTY, [], [])

  // ---------- What every step keeps ----------

  /** What a transaction has written is what its event means for the database as it is committed now. */
  ghost predicate WrittenOk(s: Sys, i: nat)
    requires i < |s.txs|
  {
    var x := s.txs[i];
    && (x.phase.Claimed? ==> x.event.id != "" && x.event.id !in s.db.marks)
    && (x.phase.Changed? ==>
          && x.event.id !in s.db.marks && Applicable(s.db, x.event)
          && x.phase.row == NewRow(s.db, x.event) && x.phase.out == NewOut(s.db, x.event))
  }

  ghost predicate TxsOk(s: Sys) {
    forall i :: 0 <= i < |s.txs| ==> WrittenOk(s, i)
  }

  predicate Uncommitted(x: Tx) {
    x.phase.Claimed? || x.phase.Changed?
  }

  predicate HoldsRow(x: Tx) {
    x.phase.Changed? && x.phase.row.Some?
  }

  /** No two transactions hold the same mark, or have written the same row. */
  ghost predicate LocksOk(s: Sys) {
    MarksHeldOnce(s) && RowsHeldOnce(s)
  }

  ghost predicate MarksHeldOnce(s: Sys) {
    forall i, j :: 0 <= i < j < |s.txs| && Uncommitted(s.txs[i]) && Uncommitted(s.txs[j]) ==> s.txs[i].event.id != s.txs[j].event.id
  }

  ghost predicate RowsHeldOnce(s: Sys) {
    forall i, j :: 0 <= i < j < |s.txs| && HoldsRow(s.txs[i]) && HoldsRow(s.txs[j]) ==> s.txs[i].event.photo != s.txs[j].event.photo
  }

  /** Every listing's author is known. */
  ghost predicate AuthorsOk(db: Db) {
    forall photo :: photo in db.listings ==> db.listings[photo].author in db.authors
  }

  /** Every event was applicable when its turn came. */
  ghost predicate AllApplicable(events: seq<Event>) {
    forall k :: 0 <= k < |events| ==> Applicable(Replay(events[..k]), events[k])
  }

  ghost predicate AppliedOk(s: Sys) {
    && s.db == Replay(s.applied) && AllApplicable(s.applied)
    && (forall id :: id in s.db.marks <==> HasId(s.applied, id))
    && Distinct(s.applied)
  }

  predicate HasId(events: seq<Event>, id: string) {
    exists k :: 0 <= k < |events| && events[k].id == id
  }

  predicate Distinct(events: seq<Event>) {
    forall k, l :: 0 <= k < l < |events| ==> events[k].id != events[l].id
  }

  ghost predicate SysOk(s: Sys) {
    TxsOk(s) && LocksOk(s) && AuthorsOk(s.db) && AppliedOk(s)
  }

  // ---------- Step by step ----------

  /** A commit does exactly what its event means for the database as it is at that moment. */
  lemma CommitApplies(s: Sys, i: nat)
    requires i < |s.txs| && s.txs[i].phase.Changed? && WrittenOk(s, i)
    ensures Do(s, Commit(i)).db == Apply(s.db, s.txs[i].event)
  {
  }

  /** And leaves what every other open transaction has read and written as it was. */
  lemma CommitSparesOthers(s: Sys, i: nat, j: nat)
    requires TxsOk(s) && LocksOk(s) && AuthorsOk(s.db)
    requires i < |s.txs| && j < |s.txs| && i != j && s.txs[i].phase.Changed?
    ensures WrittenOk(Do(s, Commit(i)), j)
  {
    var t := Do(s, Commit(i));
    assert WrittenOk(s, i) && WrittenOk(s, j);
    if s.txs[j].phase.Changed? {
      var x, y := s.txs[i], s.txs[j];
      if x.phase.row.Some? && y.phase.row.Some? {
        assert HoldsRow(x) && HoldsRow(y) && x.event.photo != y.event.photo;
      }
      assert NewRow(t.db, y.event) == NewRow(s.db, y.event);
      assert NewOut(t.db, y.event) == NewOut(s.db, y.event);
    }
  }

  lemma TxsKept(s: Sys, step: Step)
    requires Enabled(s, step) && SysOk(s)
    ensures TxsOk(Do(s, step))
  {
    var t := Do(s, step);
    forall j: nat | j < |t.txs| ensures WrittenOk(t, j) {
      if step.Commit? {
        if j != step.i {
          CommitSparesOthers(s, step.i, j);
        }
      } else if j < |s.txs| {
        assert WrittenOk(s, j);
      }
    }
  }

  lemma LocksKept(s: Sys, step: Step)
    requires Enabled(s, step) && SysOk(s)
    ensures LocksOk(Do(s, step))
  {
    hide MarksHeldOnce, RowsHeldOnce, TxsOk, AppliedOk, AuthorsOk;
    MarksKept(s, step);
    RowsKept(s, step);
  }

  lemma MarksKept(s: Sys, step: Step)
    requires Enabled(s, step) && MarksHeldOnce(s)
    ensures MarksHeldOnce(Do(s, step))
  {
    hide Applicable, NewRow, NewOut, NewAuthors, RowHeld;
  }

  lemma RowsKept(s: Sys, step: Step)
    requires Enabled(s, step) && RowsHeldOnce(s)
    ensures RowsHeldOnce(Do(s, step))
  {
    hide Applicable, NewOut, NewAuthors, MarkHeld;
  }

  lemma DbKept(s: Sys, step: Step)
    requires Enabled(s, step) && SysOk(s)
    ensures AuthorsOk(Do(s, step).db) && AppliedOk(Do(s, step))
  {
    if step.Commit? {
      var e := s.txs[step.i].event;
      assert WrittenOk(s, step.i);
      CommitApplies(s, step.i);
      ApplyKeepsAuthors(s.db, e);
      OneMoreApplied(s, Do(s, step), e);
    }
  }

  lemma ApplyKeepsAuthors(db: Db, e: Event)
    requires AuthorsOk(db)
    ensures AuthorsOk(Apply(db, e))
  {
  }

  lemma HasIdMore(events: seq<Event>, e: Event, id: string)
    ensures HasId(events + [e], id) <==> HasId(events, id) || id == e.id
  {
    var more := events + [e];
    assert more[|events|] == e && forall k :: 0 <= k < |events| ==> more[k] == events[k];
  }

  lemma DistinctMore(events: seq<Event>, e: Event)
    requires Distinct(events) && !HasId(events, e.id)
    ensures Distinct(events + [e])
  {
  }

  lemma ApplicableMore(events: seq<Event>, e: Event)
    requires AllApplicable(events) && Applicable(Replay(events), e)
    ensures AllApplicable(events + [e]) && Replay(events + [e]) == Apply(Replay(events), e)
  {
    hide Applicable, Apply;
    var more := events + [e];
    assert more[..|events|] == events;
    forall k | 0 <= k < |more| ensures Applicable(Replay(more[..k]), more[k]) {
      assert k < |events| ==> more[..k] == events[..k];
    }
  }

  lemma OneMoreApplied(s: Sys, t: Sys, e: Event)
    requires AppliedOk(s) && Applicable(s.db, e) && e.id !in s.db.marks
    requires t.db == Apply(s.db, e) && t.applied == s.applied + [e]
    ensures AppliedOk(t)
  {
    assert t.db.marks == s.db.marks + {e.id};
    hide Apply, Applicable, HasId, Distinct, AllApplicable;
    ApplicableMore(s.applied, e);
    DistinctMore(s.applied, e);
    forall id ensures id in t.db.marks <==> HasId(t.applied, id) {
      HasIdMore(s.applied, e, id);
    }
  }

  lemma DoKeeps(s: Sys, step: Step)
    requires Enabled(s, step) && SysOk(s)
    ensures SysOk(Do(s, step))
  {
    hide Do, Enabled, TxsOk, LocksOk, AuthorsOk, AppliedOk;
    TxsKept(s, step);
    LocksKept(s, step);
    DbKept(s, step);
  }

  lemma {:induction false} ExecuteKeeps(s: Sys, steps: seq<Step>)
    requires SysOk(s)
    ensures SysOk(Execute(s, steps))
    decreases |steps|
  {
    hide SysOk;
    if steps != [] {
      if Enabled(s, steps[0]) {
        DoKeeps(s, steps[0]);
        ExecuteKeeps(Do(s, steps[0]), steps[1..]);
      } else {
        ExecuteKeeps(s, steps[1..]);
      }
    }
  }

  lemma StartIsOk()
    ensures SysOk(START)
  {
  }

  // ---------- Every run ----------

  /** In every interleaving of deliveries, repeats, failures and crashes, the committed database is what
      the committed events, one after the other in commit order, make of an empty one; each event is
      committed at most once, and exactly when its mark is. */
  lemma Serializable(steps: seq<Step>)
    ensures var t := Execute(START, steps);
            && t.db == Replay(t.applied)
            && Distinct(t.applied) && (forall id :: id in t.db.marks <==> HasId(t.applied, id))
  {
    StartIsOk();
    ExecuteKeeps(START, steps);
  }

  /** How many of the events publish the photo's listing. */
  function Publications(events: seq<Event>, photo: string): nat {
    if events == [] then 0
    else Publications(events[..|events| - 1], photo) +
         if events[|events| - 1].ThumbsReady? && events[|events| - 1].photo == photo then 1 else 0
  }

  function OutboxRows(outbox: seq<Out>, photo: string): nat {
    if outbox == [] then 0
    else OutboxRows(outbox[..|outbox| - 1], photo) + if outbox[|outbox| - 1].photo == photo then 1 else 0
  }

  lemma ApplyCounts(db: Db, e: Event, photo: string)
    requires Applicable(db, e)
    ensures var t := Apply(db, e);
            var one := if e.ThumbsReady? && e.photo == photo then 1 else 0;
            && OutboxRows(t.outbox, photo) == OutboxRows(db.outbox, photo) + one
            && (IsPublished(t, photo) <==> IsPublished(db, photo) || one == 1)
  {
    var rows := NewOut(db, e);
    if rows == [] {
      assert db.outbox + rows == db.outbox;
    } else {
      assert (db.outbox + rows)[..|db.outbox|] == db.outbox;
    }
  }

  predicate IsPublished(db: Db, photo: string) {
    photo in db.listings && db.listings[photo].published
  }

  lemma {:induction false} ReplayCounts(events: seq<Event>, photo: string)
    requires AllApplicable(events)
    ensures OutboxRows(Replay(events).outbox, photo) == Publications(events, photo)
    ensures IsPublished(Replay(events), photo) <==> 0 < Publications(events, photo)
    decreases |events|
  {
    if events != [] {
      var init, e := events[..|events| - 1], events[|events| - 1];
      forall k | 0 <= k < |init| ensures Applicable(Replay(init[..k]), init[k]) {
        assert init[..k] == events[..k];
      }
      ReplayCounts(init, photo);
      ApplyCounts(Replay(init), e, photo);
    }
  }

  /** In every run a listing has exactly one outbox row for each thumbnail event of its photo that was
      committed, and it is published if and only if there is one. */
  lemma OneOutboxRowEach(steps: seq<Step>, photo: string)
    ensures var t := Execute(START, steps);
            && OutboxRows(t.db.outbox, photo) == Publications(t.applied, photo)
            && (IsPublished(t.db, photo) <==> 0 < Publications(t.applied, photo))
  {
    StartIsOk();
    ExecuteKeeps(START, steps);
    ReplayCounts(Execute(START, steps).applied, photo);
  }

  /** A listing never goes away or back to draft, keeps its author, title and price, and loses no
      thumbnail size; authors keep their names; outbox rows and marks stay. */
  ghost predicate Grows(db: Db, t: Db) {
    && (forall photo :: photo in db.listings ==> photo in t.listings && RowGrows(db.listings[photo], t.listings[photo]))
    && (forall author :: author in db.authors ==> author in t.authors && t.authors[author] == db.authors[author])
    && db.outbox <= t.outbox && db.marks <= t.marks
  }

  predicate RowGrows(r: Row, t: Row) {
    && t.author == r.author && t.title == r.title && t.price == r.price
    && (r.published ==> t.published) && r.thumbs.Keys <= t.thumbs.Keys
  }

  lemma DoGrows(s: Sys, step: Step)
    requires Enabled(s, step) && SysOk(s)
    ensures Grows(s.db, Do(s, step).db)
  {
    if step.Commit? {
      assert WrittenOk(s, step.i);
      CommitApplies(s, step.i);
      ApplyGrows(s.db, s.txs[step.i].event);
    }
    hide SysOk, WrittenOk, RowGrows, Apply;
  }

  lemma ApplyGrows(db: Db, e: Event)
    ensures Grows(db, Apply(db, e))
  {
  }

  lemma {:induction false} NeverBackToDraft(s: Sys, steps: seq<Step>)
    requires SysOk(s)
    ensures Grows(s.db, Execute(s, steps).db)
    decreases |steps|
  {
    if steps != [] {
      hide SysOk, Do, Enabled, RowGrows;
      if Enabled(s, steps[0]) {
        DoKeeps(s, steps[0]);
        DoGrows(s, steps[0]);
        NeverBackToDraft(Do(s, steps[0]), steps[1..]);
        GrowsOn(s.db, Do(s, steps[0]).db, Execute(s, steps).db);
      } else {
        NeverBackToDraft(s, steps[1..]);
      }
    }
  }

  lemma GrowsOn(a: Db, b: Db, c: Db)
    requires Grows(a, b) && Grows(b, c)
    ensures Grows(a, c)
  {
  }

  // ---------- What is written ----------

  /** Field by field: every size of the event has its new key, every other size the old one; the listing is
      published, at the event's time, and otherwise as it was; the outbox row shows it with the name stored
      for its author. */
  ghost predicate ThumbsWritten(db: Db, t: Db, e: Event)
    requires e.ThumbsReady?
  {
    && e.photo in db.listings && e.photo in t.listings && t.listings.Keys == db.listings.Keys
    && (forall photo :: photo in db.listings && photo != e.photo ==> t.listings[photo] == db.listings[photo])
    && (var r, r' := db.listings[e.photo], t.listings[e.photo];
        && r'.author == r.author && r'.title == r.title && r'.price == r.price && r'.published && r'.at == e.at
        && (forall size :: size in r'.thumbs <==> size in e.thumbs || size in r.thumbs)
        && (forall size :: size in r'.thumbs ==> r'.thumbs[size] == if size in e.thumbs then e.thumbs[size] else r.thumbs[size])
        && t.outbox == db.outbox + [Out(e.photo, r', if r.author in db.authors then db.authors[r.author] else "")])
    && t.authors == db.authors && t.marks == db.marks + {e.id}
  }

  /** A listing that is there stays as it is; a new one is a draft with what was fetched. An author who is
      known keeps the name; a new one gets the placeholder. */
  ghost predicate UploadWritten(db: Db, t: Db, e: Event)
    requires e.Uploaded?
  {
    && e.photo in t.listings && (forall photo :: photo in t.listings <==> photo in db.listings || photo == e.photo)
    && (forall photo :: photo in db.listings ==> t.listings[photo] == db.listings[photo])
    && (e.photo !in db.listings ==>
          var r := t.listings[e.photo];
          && r.author == e.fetched.author && r.title == e.fetched.title && r.price == e.fetched.price
          && r.thumbs == e.fetched.thumbs && !r.published && r.at == 0)
    && (forall author :: author in t.authors <==> author in db.authors || author == e.fetched.author)
    && (forall author :: author in t.authors ==>
          t.authors[author] == if author in db.authors then db.authors[author] else "author-" + FormatInt(author))
    && t.outbox == db.outbox && t.marks == db.marks + {e.id}
  }

  ghost predicate Written(db: Db, t: Db, e: Event) {
    match e
    case Uploaded(_, _, _) => UploadWritten(db, t, e)
    case ThumbsReady(_, _, _, _) => ThumbsWritten(db, t, e)
  }

  lemma ApplyWrites(db: Db, e: Event)
    requires Applicable(db, e)
    ensures Written(db, Apply(db, e), e)
  {
    if e.Uploaded? {
      assert db.outbox + [] == db.outbox;
    }
  }

  /** So does every commit, in every interleaving. */
  lemma CommitWrites(s: Sys, i: nat)
    requires SysOk(s) && i < |s.txs| && s.txs[i].phase.Changed?
    ensures Written(s.db, Do(s, Commit(i)).db, s.txs[i].event)
  {
    assert WrittenOk(s, i);
    CommitApplies(s, i);
    ApplyWrites(s.db, s.txs[i].event);
    hide Written, Apply, SysOk, Do;
  }

  /** What the photo's first upload fetched. */
  function FirstFetched(events: seq<Event>, photo: string): Option<Row> {
    if events == [] then None
    else
      var before, last := FirstFetched(events[..|events| - 1], photo), events[|events| - 1];
      if before == None && last.Uploaded? && last.photo == photo then Some(last.fetched) else before
  }

  /** The key that the youngest thumbnail event of the photo gives a size, or else its first upload. */
  function LastKey(events: seq<Event>, photo: string, size: string): Option<string> {
    if events == [] then None
    else
      var init, last := events[..|events| - 1], events[|events| - 1];
      if last.photo != photo then LastKey(init, photo, size)
      else if last.ThumbsReady? then (if size in last.thumbs then Some(last.thumbs[size]) else LastKey(init, photo, size))
      else if FirstFetched(init, photo) == None && size in last.fetched.thumbs then Some(last.fetched.thumbs[size])
      else LastKey(init, photo, size)
  }

  ghost predicate ListingIs(db: Db, events: seq<Event>, photo: string) {
    var fetched := FirstFetched(events, photo);
    && (photo in db.listings <==> fetched.Some?)
    && (photo in db.listings ==>
          var r := db.listings[photo];
          && r.author == fetched.value.author && r.title == fetched.value.title && r.price == fetched.value.price
          && forall size :: LastKey(events, photo, size) == if size in r.thumbs then Some(r.thumbs[size]) else None)
    && (photo !in db.listings ==> forall size :: LastKey(events, photo, size) == None)
  }

  lemma {:induction false} ReplayLists(events: seq<Event>, photo: string)
    requires AllApplicable(events)
    ensures ListingIs(Replay(events), events, photo)
    decreases |events|
  {
    if events != [] {
      var init, e := events[..|events| - 1], events[|events| - 1];
      forall k | 0 <= k < |init| ensures Applicable(Replay(init[..k]), init[k]) {
        assert init[..k] == events[..k];
      }
      ReplayLists(init, photo);
      assert Applicable(Replay(events[..|init|]), events[|init|]);
      ApplyWrites(Replay(init), e);
      hide Apply, Applicable, AllApplicable;
      OneMoreListed(Replay(init), Replay(events), events, photo);
    }
  }

  lemma OneMoreListed(db: Db, t: Db, events: seq<Event>, photo: string)
    requires events != [] && Written(db, t, events[|events| - 1]) && ListingIs(db, events[..|events| - 1], photo)
    ensures ListingIs(t, events, photo)
  {
  }

  /** In every run, whatever the interleaving: a photo has a listing if and only if an upload of it was
      committed, with the author, title and price of the first; and of every size it shows the key of the
      last committed thumbnail event that has the size. */
  lemma ListingsAre(steps: seq<Step>, photo: string)
    ensures ListingIs(Execute(START, steps).db, Execute(START, steps).applied, photo)
  {
    StartIsOk();
    ExecuteKeeps(START, steps);
    ReplayLists(Execute(START, steps).applied, photo);
    hide ListingIs, Execute;
  }

  // ---------- Nobody is held up ----------

  /** A delivered event that meets nobody else is applied, unless it has been, or cannot be. */
  lemma AloneIsApplied(s: Sys, e: Event)
    requires SysOk(s) && forall j :: 0 <= j < |s.txs| ==> !Uncommitted(s.txs[j])
    ensures var n := |s.txs|;
            var t := Execute(s, [Deliver(e), Claim(n), Work(n), Commit(n)]);
            if e.id != "" && e.id !in s.db.marks && (e.ThumbsReady? ==> e.photo in s.db.listings) then t.db == Apply(s.db, e) && t.applied == s.applied + [e]
            else t.db == s.db && t.applied == s.applied
  {
    var n := |s.txs|;
    var run := [Deliver(e), Claim(n), Work(n), Commit(n)];
    var s1 := Do(s, Deliver(e));
    assert Enabled(s1, Claim(n));
    var s2 := Do(s1, Claim(n));
    assert !RowHeld(s2, n, e.photo);
    hide SysOk, Applicable, NewRow, NewOut, NewAuthors, MarkHeld, RowHeld;
    var s3 := if Enabled(s2, Work(n)) then Do(s2, Work(n)) else s2;
    var s4 := if Enabled(s3, Commit(n)) then Do(s3, Commit(n)) else s3;
    OneStep(s, run);
    OneStep(s1, run[1..]);
    OneStep(s2, run[1..][1..]);
    OneStep(s3, run[1..][1..][1..]);
    assert run[1..][1..][1..][1..] == [];
    assert Execute(s4, []) == s4;
  }

  lemma OneStep(s: Sys, steps: seq<Step>)
    requires steps != []
    ensures Execute(s, steps) == Execute(if Enabled(s, steps[0]) then Do(s, steps[0]) else s, steps[1..])
  {
  }

  /** A transaction that fails leaves no trace: the database, and what the others have read and written, are
      as they were, its mark and its row free again. */
  lemma AbortUndoes(s: Sys, i: nat)
    requires SysOk(s) && i < |s.txs| && !s.txs[i].phase.Ended?
    ensures Enabled(s, Abort(i))
    ensures var t := Do(s, Abort(i));
            && t.db == s.db && t.applied == s.applied && |t.txs| == |s.txs| && t.txs[i].phase.Ended?
            && (forall j :: 0 <= j < |s.txs| && j != i ==> t.txs[j] == s.txs[j])
            && (s.txs[i].phase.Claimed? || s.txs[i].phase.Changed? ==>
                  forall j :: 0 <= j < |s.txs| && s.txs[j].phase.Begun? && s.txs[j].event.id == s.txs[i].event.id ==> Enabled(t, Claim(j)))
  {
    var t := Do(s, Abort(i));
    if s.txs[i].phase.Claimed? || s.txs[i].phase.Changed? {
      forall j | 0 <= j < |s.txs| && s.txs[j].phase.Begun? && s.txs[j].event.id == s.txs[i].event.id ensures Enabled(t, Claim(j)) {
        assert forall k :: 0 <= k < |s.txs| && k != i && Uncommitted(s.txs[k]) ==> s.txs[k].event.id != s.txs[i].event.id;
      }
    }
    hide SysOk;
  }

  /** While a transaction is open, some open one can take its next step: whoever waits for a mark or a row,
      waits for one that can. */
  lemma NobodyIsStuck(s: Sys, i: nat)
    requires i < |s.txs| && !s.txs[i].phase.Ended?
    ensures exists j :: 0 <= j < |s.txs| && (Enabled(s, Claim(j)) || Enabled(s, Work(j)) || Enabled(s, Commit(j)))
  {
    if s.txs[i].phase.Begun? && MarkHeld(s, i, s.txs[i].event.id) {
      var j :| 0 <= j < |s.txs| && j != i && s.txs[j].event.id == s.txs[i].event.id && Uncommitted(s.txs[j]);
      if s.txs[j].phase.Claimed? {
        ClaimedGoesOn(s, j);
      } else {
        assert Enabled(s, Commit(j));
      }
    } else if s.txs[i].phase.Claimed? {
      ClaimedGoesOn(s, i);
    } else {
      assert Enabled(s, Claim(i)) || Enabled(s, Commit(i));
    }
  }

  lemma ClaimedGoesOn(s: Sys, j: nat)
    requires j < |s.txs| && s.txs[j].phase.Claimed?
    ensures Enabled(s, Work(j)) || exists k :: 0 <= k < |s.txs| && Enabled(s, Commit(k))
  {
    if RowHeld(s, j, s.txs[j].event.photo) {
      var k :| 0 <= k < |s.txs| && k != j && s.txs[k].event.photo == s.txs[j].event.photo && HoldsRow(s.txs[k]);
      assert Enabled(s, Commit(k));
    }
  }

  // ---------- The handlers' own code ----------

  datatype MediaError = PhotoNotFound | MediaDown

  /** How one run of a handler's calls turn out. */
  datatype Luck = Luck(parses: bool, claim: bool, fetch: Result<Row, MediaError>, author: bool, listing: bool, outbox: bool,
                       commit: Fault)

  predicate CommitsAnyway(luck: Luck) {
    !luck.commit.Fails?
  }

  class Indexer {
    var db: Db
    /** The transaction's own view of the tables, while it runs. */
    var tx: Db
    /** Photos whose cache entry was dropped and whose watchers were told, with the change. */
    var told: seq<(string, string)>

    constructor ()
      ensures db == EMPTY && told == []
    {
      db, tx, told := EMPTY, EMPTY, [];
    }

    /** Inserts the mark if it is absent, and says whether it was; without an id there is nothing to
        tell repeats by, which is an error. */
    method Claim(id: string, works: bool) returns (r: Result<bool, string>)
      modifies this`tx
      ensures id == "" || !works ==> r.Failure? && tx == old(tx)
      ensures id != "" && works ==> r == Success(id !in old(tx).marks) && tx == old(tx).(marks := old(tx).marks + {id})
    {
      if id == "" || !works {
        return Failure("claim");
      }
      var isNew := id !in tx.marks;
      tx := tx.(marks := tx.marks + {id});
      return Success(isNew);
    }

    method UpsertAuthorSnapshot(author: int, name: string)
      modifies this`tx
      ensures tx == old(tx).(authors := if author in old(tx).authors then old(tx).authors else old(tx).authors[author := name])
    {
      if author !in tx.authors {
        tx := tx.(authors := tx.authors[author := name]);
      }
    }

    /** Only ever inserts; a row that is there, in whatever status, is not touched. */
    method UpsertListing(photo: string, fetched: Row)
      modifies this`tx
      ensures tx == old(tx).(listings := if photo in old(tx).listings then old(tx).listings else old(tx).listings[photo := Draft(fetched)])
    {
      if photo !in tx.listings {
        tx := tx.(listings := tx.listings[photo := fetched.(published := false, at := 0)]);
      }
    }

    method ApplyThumbnails(photo: string, thumbs: map<string, string>, at: int) returns (r: Option<Out>)
      modifies this`tx
      ensures photo !in old(tx).listings ==> r.None? && tx == old(tx)
      ensures photo in old(tx).listings ==>
                var row := WithThumbs(old(tx).listings[photo], thumbs, at);
                r == Some(Out(photo, row, AuthorName(old(tx), row.author))) && tx == old(tx).(listings := old(tx).listings[photo := row])
      ensures r.Some? ==>
                && r.value.row.published && r.value.row.at == at && tx.listings[photo] == r.value.row
                && forall size :: size in thumbs ==> size in r.value.row.thumbs && r.value.row.thumbs[size] == thumbs[size]
    {
      if photo !in tx.listings {
        return None;
      }
      var row := tx.listings[photo];
      row := row.(thumbs := row.thumbs + thumbs, published := true, at := at);
      tx := tx.(listings := tx.listings[photo := row]);
      var name := if row.author in tx.authors then tx.authors[row.author] else "";
      return Some(Out(photo, row, name));
    }

    method Commit(fault: Fault) returns (ok: bool)
      modifies this`db
      ensures ok <==> fault.Works?
      ensures db == if fault.Fails? then old(db) else tx
    {
      if !fault.Fails? {
        db := tx;
      }
      return fault.Works?;
    }

    /** Either nothing is committed, or all that the event means, and never a second time. What the
        handler reports as done is done; whoever watches is told exactly when this run did it. */
    method HandlePhotoUploaded(e: Event, luck: Luck) returns (answer: Verdict)
      requires e.Uploaded? && (luck.fetch.Success? ==> luck.fetch.value == e.fetched)
      modifies this
      ensures var runs := luck.parses && e.id != "" && luck.claim;
              var works := runs && luck.fetch.Success? && luck.author && luck.listing;
              var repeat := e.id in old(db).marks;
              && db == (if works && !repeat && CommitsAnyway(luck) then Apply(old(db), e) else old(db))
              && (answer.Done? <==> runs && (repeat || works) && luck.commit.Works?)
              && (answer.Fatal? <==> !luck.parses || (runs && !repeat && luck.fetch == Failure(PhotoNotFound)))
              && told == old(told) + (if answer.Done? && !repeat then [(e.photo, "updated")] else [])
      ensures db != old(db) ==> UploadWritten(old(db), db, e)
    {
      assert e.id != "" ==> UploadWritten(db, Apply(db, e), e) by {
        if e.id != "" {
          ApplyWrites(db, e);
        }
      }
      hide UploadWritten;
      if !luck.parses {
        return Fatal("payload");
      }
      tx := db;
      var claimed := Claim(e.id, luck.claim);
      if claimed.Failure? {
        return Transient(claimed.error);
      }
      if !claimed.value {
        var done := Commit(luck.commit);
        assert tx.marks == old(db).marks;
        return if done then Done else Transient("commit");
      }
      match luck.fetch
      case Failure(PhotoNotFound) => return Fatal("photo not found");
      case Failure(MediaDown) => return Transient("media");
      case Success(fetched) =>
        if !luck.author {
          return Transient("author");
        }
        UpsertAuthorSnapshot(fetched.author, Placeholder(fetched.author));
        if !luck.listing {
          return Transient("listing");
        }
        UpsertListing(e.photo, fetched);
        assert tx == Apply(old(db), e) by {
          assert old(db).outbox + [] == old(db).outbox;
        }
        var done := Commit(luck.commit);
        if !done {
          return Transient("commit");
        }
        told := told + [(e.photo, "updated")];
        return Done;
    }

    /** The same for thumbnails; a listing that does not exist yet is a reason to try again. */
    method HandlePhotoThumbnailReady(e: Event, luck: Luck) returns (answer: Verdict)
      requires e.ThumbsReady?
      modifies this
      ensures var runs := luck.parses && e.id != "" && luck.claim;
              var works := runs && luck.listing && e.photo in old(db).listings && luck.outbox;
              var repeat := e.id in old(db).marks;
              && db == (if works && !repeat && CommitsAnyway(luck) then Apply(old(db), e) else old(db))
              && (answer.Done? <==> runs && (repeat || works) && luck.commit.Works?)
              && (answer.Fatal? <==> !luck.parses)
              && told == old(told) + (if answer.Done? && !repeat then [(e.photo, "published")] else [])
      ensures db != old(db) ==> ThumbsWritten(old(db), db, e)
    {
      assert Applicable(db, e) ==> ThumbsWritten(db, Apply(db, e), e) by {
        if Applicable(db, e) {
          ApplyWrites(db, e);
        }
      }
      hide ThumbsWritten;
      if !luck.parses {
        return Fatal("payload");
      }
      tx := db;
      var claimed := Claim(e.id, luck.claim);
      if claimed.Failure? {
        return Transient(claimed.error);
      }
      if !claimed.value {
        var done := Commit(luck.commit);
        assert tx.marks == old(db).marks;
        return if done then Done else Transient("commit");
      }
      if !luck.listing {
        return Transient("listing");
      }
      var out := ApplyThumbnails(e.photo, e.thumbs, e.at);
      if out.None? || !luck.outbox {
        return Transient("thumbnails");
      }
      tx := tx.(outbox := tx.outbox + [out.value]);
      var done := Commit(luck.commit);
      if !done {
        return Transient("commit");
      }
      told := told + [(e.photo, "published")];
      return Done;
    }
  }
}
