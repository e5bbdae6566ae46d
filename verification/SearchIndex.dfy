/** The search index: every write and every delete carries the version of its event, and the store
    takes it only if it holds nothing younger. */
module SearchIndex {
  import opened Wrappers
  import opened Errors

  datatype Doc = Doc(title: string, author: string, tags: seq<string>, price: int, currency: string, status: string, publishedAt: int)

  /** A listing's event; its version is the moment it occurred. */
  datatype Event = Event(listing: string, version: int, doc: Doc)

  const REMOVED := "removed"

  /** What the store keeps for a listing; a deleted document leaves its version behind. */
  datatype Entry = Entry(version: int, doc: Option<Doc>)

  /** What an event asks for: its document, or none. */
  function Wanted(e: Event): Option<Doc> {
    if e.doc.status == REMOVED then None else Some(e.doc.(publishedAt := e.version))
  }

  predicate Accepts(store: map<string, Entry>, listing: string, version: int) {
    listing in store ==> store[listing].version <= version
  }

  function Put(store: map<string, Entry>, e: Event): map<string, Entry> {
    if Accepts(store, e.listing, e.version) then store[e.listing := Entry(e.version, Wanted(e))] else store
  }

  /** The store after these deliveries, on top of what it held. */
  function Deliver(store: map<string, Entry>, events: seq<Event>): map<string, Entry> {
    if events == [] then store else Put(Deliver(store, events[..|events| - 1]), events[|events| - 1])
  }

  // ---------- Order and repetition do not matter ----------

  /** No delivered event of the listing is younger. */
  predicate Youngest(events: seq<Event>, e: Event) {
    e in events && forall f :: f in events && f.listing == e.listing ==> f.version <= e.version
  }

  /** Events of a listing that share the greatest version ask for the same. */
  predicate Agreed(events: seq<Event>) {
    forall e, f :: e in events && f in events && e.listing == f.listing && Youngest(events, e) && Youngest(events, f) ==> Wanted(e) == Wanted(f)
  }

  /** The same events, in any order, each any number of times. */
  predicate SameEvents(a: seq<Event>, b: seq<Event>) {
    (forall e :: e in a ==> e in b) && (forall e :: e in b ==> e in a)
  }

  /** Whatever the order, what the store holds for a listing was asked for by a youngest event of it. */
  lemma {:induction false} HoldsAYoungest(events: seq<Event>, listing: string)
    ensures var store := Deliver(map[], events);
            && (listing in store <==> exists e :: e in events && e.listing == listing)
            && (listing in store ==> exists e :: Youngest(events, e) && e.listing == listing && store[listing] == Entry(e.version, Wanted(e)))
    decreases |events|
  {
    if events != [] {
      var init, last := events[..|events| - 1], events[|events| - 1];
      assert events == init + [last];
      HoldsAYoungest(init, listing);
      var before, after := Deliver(map[], init), Deliver(map[], events);
      if last.listing == listing {
        if Accepts(before, listing, last.version) {
          assert Youngest(events, last);
        } else {
          var e :| Youngest(init, e) && e.listing == listing && before[listing] == Entry(e.version, Wanted(e));
          assert Youngest(events, e);
        }
      } else if listing in before {
        var e :| Youngest(init, e) && e.listing == listing && before[listing] == Entry(e.version, Wanted(e));
        assert Youngest(events, e);
      }
    }
  }

  /** Both schedules end in what the youngest events ask for. */
  lemma Converges(a: seq<Event>, b: seq<Event>)
    requires Agreed(a) && SameEvents(a, b)
    ensures Deliver(map[], a) == Deliver(map[], b)
  {
    var s, t := Deliver(map[], a), Deliver(map[], b);
    forall listing ensures (listing in s <==> listing in t) && (listing in s ==> s[listing] == t[listing]) {
      HoldsAYoungest(a, listing);
      HoldsAYoungest(b, listing);
      if listing in s {
        var e :| Youngest(a, e) && e.listing == listing && s[listing] == Entry(e.version, Wanted(e));
        var f :| Youngest(b, f) && f.listing == listing && t[listing] == Entry(f.version, Wanted(f));
        assert Youngest(a, f);
      }
    }
    assert s.Keys == t.Keys;
  }

  lemma {:induction false} OneMore(events: seq<Event>, e: Event)
    ensures Deliver(map[], events + [e]) == Put(Deliver(map[], events), e)
  {
  }

  /** All reorderings and repetitions of these events end in the same state if and only if no listing
      has two youngest events that ask for different things. */
  lemma ConvergesIff(a: seq<Event>)
    ensures Agreed(a) <==> forall b :: SameEvents(a, b) ==> Deliver(map[], a) == Deliver(map[], b)
  {
    if Agreed(a) {
      forall b | SameEvents(a, b) ensures Deliver(map[], a) == Deliver(map[], b) {
        Converges(a, b);
      }
    } else {
      Diverges(a);
    }
  }

  lemma Diverges(a: seq<Event>)
    requires !Agreed(a)
    ensures exists b :: SameEvents(a, b) && Deliver(map[], a) != Deliver(map[], b)
  {
    hide Deliver, Youngest;
    var e, f :| e in a && f in a && e.listing == f.listing && Youngest(a, e) && Youngest(a, f) && Wanted(e) != Wanted(f);
    LastYoungestWins(a, e);
    LastYoungestWins(a, f);
    assert SameEvents(a, a + [e]) && SameEvents(a, a + [f]);
    assert Deliver(map[], a + [e]) != Deliver(map[], a + [f]);
  }

  lemma LastYoungestWins(a: seq<Event>, e: Event)
    requires Youngest(a, e)
    ensures var store := Deliver(map[], a + [e]); e.listing in store && store[e.listing].doc == Wanted(e)
  {
    OneMore(a, e);
    HoldsAYoungest(a, e.listing);
  }

  /** Field by field what a search finds once the event has been taken: nothing, if the listing was removed;
      else the event's own document, published when it occurred. */
  ghost predicate Shows(entry: Entry, e: Event) {
    && entry.version == e.version
    && (entry.doc.None? <==> e.doc.status == "removed")
    && (entry.doc.Some? ==>
          var d := entry.doc.value;
          && d.title == e.doc.title && d.author == e.doc.author && d.tags == e.doc.tags && d.price == e.doc.price
          && d.currency == e.doc.currency && d.status == e.doc.status && d.publishedAt == e.version)
  }

  lemma TakenShows(store: map<string, Entry>, e: Event)
    requires Accepts(store, e.listing, e.version)
    ensures e.listing in Put(store, e) && Shows(Put(store, e)[e.listing], e)
    ensures forall listing :: listing != e.listing ==> (listing in Put(store, e) <==> listing in store) && (listing in store ==> Put(store, e)[listing] == store[listing])
  {
  }

  /** However its events were ordered and repeated, a listing whose youngest event removed it is not found,
      and any other is found as its youngest event shows it. */
  lemma EndShows(events: seq<Event>, e: Event)
    requires Agreed(events) && Youngest(events, e)
    ensures e.listing in Deliver(map[], events) && Shows(Deliver(map[], events)[e.listing], e)
  {
    HoldsAYoungest(events, e.listing);
    var f :| Youngest(events, f) && f.listing == e.listing && Deliver(map[], events)[e.listing] == Entry(f.version, Wanted(f));
    assert Wanted(e) == Wanted(f) && e.version == f.version;
  }

  /** With one version for each event of a listing, the end is what its one youngest event asks for. */
  lemma YoungestWins(events: seq<Event>, e: Event)
    requires Youngest(events, e)
    requires forall f, g :: f in events && g in events && f.listing == g.listing && f.version == g.version ==> f == g
    ensures e.listing in Deliver(map[], events) && Deliver(map[], events)[e.listing] == Entry(e.version, Wanted(e))
  {
    HoldsAYoungest(events, e.listing);
  }

  /** An event that was already taken can be delivered again at any later time without effect. */
  lemma RepeatIsHarmless(events: seq<Event>, e: Event)
    requires e in events && Agreed(events)
    ensures Deliver(map[], events + [e]) == Deliver(map[], events)
  {
    Converges(events, events + [e]);
  }

  // ---------- As it runs ----------

  /** How one request to Elasticsearch turns out, apart from the version check: it may also be carried
      out although its answer is lost. */
  datatype Reply = Carried | InvalidDocument | Unavailable | CarriedUnseen

  datatype WriteError = Invalid | Down

  class Index {
    var store: map<string, Entry>

    constructor ()
      ensures store == map[]
    {
      store := map[];
    }

    /** A conflict means that the index holds something younger, which is as good as written. */
    method IndexListing(listing: string, doc: Doc, version: int, reply: Reply) returns (r: Result<(), WriteError>)
      modifies this
      ensures r == (if reply.InvalidDocument? then Failure(Invalid) else if reply.Carried? then Success(()) else Failure(Down))
      ensures store == if (reply.Carried? || reply.CarriedUnseen?) && Accepts(old(store), listing, version)
                       then old(store)[listing := Entry(version, Some(doc))] else old(store)
    {
      if (reply.Carried? || reply.CarriedUnseen?) && Accepts(store, listing, version) {
        store := store[listing := Entry(version, Some(doc))];
      }
      match reply
      case Carried => return Success(());
      case InvalidDocument => return Failure(Invalid);
      case _ => return Failure(Down);
    }

    method DeleteListing(listing: string, version: int, reply: Reply) returns (r: Result<(), WriteError>)
      modifies this
      ensures r == (if reply.InvalidDocument? then Failure(Invalid) else if reply.Carried? then Success(()) else Failure(Down))
      ensures store == if (reply.Carried? || reply.CarriedUnseen?) && Accepts(old(store), listing, version)
                       then old(store)[listing := Entry(version, None)] else old(store)
    {
      if (reply.Carried? || reply.CarriedUnseen?) && Accepts(store, listing, version) {
        store := store[listing := Entry(version, None)];
      }
      match reply
      case Carried => return Success(());
      case InvalidDocument => return Failure(Invalid);
      case _ => return Failure(Down);
    }
  }

  function ClassifyESErr(e: WriteError): Verdict {
    match e
    case Invalid => Fatal("invalid document")
    case Down => Transient("index unavailable")
  }

  class Indexer {
    const index: Index

    constructor (index: Index)
      ensures this.index == index
    {
      this.index := index;
    }

    /** Either the index is as after the event, or as before; what is reported as done is done; only a
        broken payload and a document the index refuses are not to be tried again. */
    method HandleListingPublished(e: Event, parses: bool, reply: Reply) returns (verdict: Verdict)
      modifies index
      ensures index.store == if parses && (reply.Carried? || reply.CarriedUnseen?) then Put(old(index.store), e) else old(index.store)
      ensures index.store != old(index.store) || verdict.Done? ==>
                && e.listing in index.store
                && if Accepts(old(index.store), e.listing, e.version) then Shows(index.store[e.listing], e)
                   else index.store == old(index.store) && e.version < index.store[e.listing].version
      ensures verdict.Done? <==> parses && reply.Carried?
      ensures verdict.Fatal? <==> !parses || reply.InvalidDocument?
    {
      if !parses {
        return Fatal("payload");
      }
      if e.doc.status == REMOVED {
        var r := index.DeleteListing(e.listing, e.version, reply);
        return if r.Failure? then ClassifyESErr(r.error) else Done;
      }
      var doc := e.doc.(publishedAt := e.version);
      var r := index.IndexListing(e.listing, doc, e.version, reply);
      return if r.Failure? then ClassifyESErr(r.error) else Done;
    }
  }
}
