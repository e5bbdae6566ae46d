/** Rebuilding the search index behind its alias: a new index is made and filled from the catalog, the
    alias is switched in one request, and only then may the old index go. Any request can fail. */
module Reindex {
  import opened Wrappers
  import opened Decimal
  import opened SearchIndex

  /** A listing as the catalog hands it out; publishedAt is the version it is indexed with. */
  datatype Listing = Listing(id: string, doc: Doc)

  type Contents = map<string, Entry>

  /** Which indices there are, with what they hold, and where each alias points. */
  datatype State = State(indices: map<string, Contents>, aliases: map<string, set<string>>)

  /** The alias points to exactly one index, and that index exists. */
  predicate Serves(s: State, alias: string, index: string) {
    alias in s.aliases && s.aliases[alias] == {index} && index in s.indices
  }

  /** No alias points to an index that does not exist. */
  ghost predicate Sound(s: State) {
    forall alias, index :: alias in s.aliases && index in s.aliases[alias] ==> index in s.indices
  }

  // ---------- What a fill amounts to ----------

  function Indexed(c: Contents, l: Listing): Contents {
    if Accepts(c, l.id, l.doc.publishedAt) then c[l.id := Entry(l.doc.publishedAt, Some(l.doc))] else c
  }

  function IndexedAll(c: Contents, ls: seq<Listing>): Contents {
    if ls == [] then c else Indexed(IndexedAll(c, ls[..|ls| - 1]), ls[|ls| - 1])
  }

  /** All pages of the catalog, one after the other. */
  function Flat(pages: seq<seq<Listing>>): seq<Listing> {
    if pages == [] then [] else Flat(pages[..|pages| - 1]) + pages[|pages| - 1]
  }

  lemma {:induction false} IndexedTwice(c: Contents, a: seq<Listing>, b: seq<Listing>)
    ensures IndexedAll(IndexedAll(c, a), b) == IndexedAll(c, a + b)
    decreases |b|
  {
    if b == [] {
      assert a + b == a;
    } else {
      IndexedTwice(c, a, b[..|b| - 1]);
      assert (a + b)[..|a + b| - 1] == a + b[..|b| - 1];
    }
  }

  /** The filled index holds exactly the listings of all pages; of a listing that came more than once,
      a youngest copy. */
  lemma {:induction false} HoldsExactly(ls: seq<Listing>, id: string)
    ensures var c := IndexedAll(map[], ls);
            && (id in c <==> exists l :: l in ls && l.id == id)
            && (id in c ==> exists l :: l in ls && l.id == id && c[id] == Entry(l.doc.publishedAt, Some(l.doc))
                                        && forall m :: m in ls && m.id == id ==> m.doc.publishedAt <= l.doc.publishedAt)
    decreases |ls|
  {
    if ls != [] {
      var init, last := ls[..|ls| - 1], ls[|ls| - 1];
      assert ls == init + [last];
      HoldsExactly(init, id);
      var before := IndexedAll(map[], init);
      if id in before && !(last.id == id && before[id].version <= last.doc.publishedAt) {
        var l :| l in init && l.id == id && before[id] == Entry(l.doc.publishedAt, Some(l.doc))
                 && forall m :: m in init && m.id == id ==> m.doc.publishedAt <= l.doc.publishedAt;
        assert l in ls;
      } else {
        assert last in ls;
      }
    }
  }

  // ---------- The cluster ----------

  class Cluster {
    var indices: map<string, Contents>
    var aliases: map<string, set<string>>
    /** The state after every request so far. */
    ghost var trace: seq<State>

    constructor (indices: map<string, Contents>, aliases: map<string, set<string>>)
      ensures Seen() == State(indices, aliases) && trace == []
    {
      this.indices, this.aliases, trace := indices, aliases, [];
    }

    function Seen(): State
      reads this
    {
      State(indices, aliases)
    }

    /** A name that is taken is refused. */
    method CreateIndex(name: string, fault: Fault) returns (ok: bool)
      modifies this
      ensures ok <==> fault.Works? && name !in old(indices)
      ensures Seen() == if fault.Fails? || name in old(indices) then old(Seen()) else old(Seen()).(indices := old(indices)[name := map[]])
      ensures trace == old(trace) + [Seen()]
    {
      if !fault.Fails? && name !in indices {
        indices, ok := indices[name := map[]], fault.Works?;
      } else {
        ok := false;
      }
      trace := trace + [Seen()];
    }

    /** One request for many documents; if it is not carried out whole, some of them may be written. */
    method BulkIndex(name: string, docs: seq<Listing>, fault: Fault, some: Contents) returns (ok: bool)
      requires name in indices
      modifies this
      ensures ok <==> docs == [] || fault.Works?
      ensures docs == [] ==> Seen() == old(Seen()) && trace == old(trace)
      ensures docs != [] ==> trace == old(trace) + [Seen()] && aliases == old(aliases)
                             && indices == old(indices)[name := if fault.Fails? then some else IndexedAll(old(indices)[name], docs)]
    {
      if |docs| == 0 {
        return true;
      }
      var c := indices[name];
      var i := 0;
      while i < |docs|
        invariant i <= |docs| && c == IndexedAll(old(indices)[name], docs[..i])
      {
        assert docs[..i + 1][..i] == docs[..i];
        c := if Accepts(c, docs[i].id, docs[i].doc.publishedAt)
             then c[docs[i].id := Entry(docs[i].doc.publishedAt, Some(docs[i].doc))] else c;
        i := i + 1;
      }
      assert docs[..i] == docs;
      indices := indices[name := if fault.Fails? then some else c];
      trace := trace + [Seen()];
      return fault.Works?;
    }

    method CurrentIndex(alias: string, fault: Fault) returns (r: Result<Option<string>, string>)
      ensures r.Success? <==> fault.Works?
      ensures r.Success? ==> r.value.Some? == (alias in aliases && aliases[alias] != {})
      ensures r.Success? && r.value.Some? ==> r.value.value in aliases[alias]
    {
      if !fault.Works? {
        return Failure("alias");
      }
      if alias !in aliases || aliases[alias] == {} {
        return Success(None);
      }
      var index :| index in aliases[alias];
      return Success(Some(index));
    }

    /** Add and remove in one atomic request. */
    method SwitchAlias(alias: string, newIndex: string, oldIndex: Option<string>, fault: Fault) returns (ok: bool)
      requires newIndex in indices
      modifies this
      ensures ok <==> fault.Works?
      ensures indices == old(indices)
      ensures aliases == if fault.Fails? then old(aliases)
                         else old(aliases)[alias := PointedTo(old(Seen()), alias) + {newIndex} - (if oldIndex.Some? then {oldIndex.value} else {})]
      ensures trace == old(trace) + [Seen()]
    {
      if !fault.Fails? {
        var to := PointedTo(Seen(), alias) + {newIndex};
        assert to - {} == to;
        aliases := aliases[alias := if oldIndex.Some? then to - {oldIndex.value} else to];
      }
      trace := trace + [Seen()];
      return fault.Works?;
    }

    method DeleteIndex(name: string, fault: Fault) returns (ok: bool)
      modifies this
      ensures ok <==> fault.Works?
      ensures Seen() == if fault.Fails? then old(Seen()) else old(Seen()).(indices := old(indices) - {name}, aliases := Unpointed(old(aliases), name))
      ensures trace == old(trace) + [Seen()]
    {
      if !fault.Fails? {
        indices, aliases := indices - {name}, Unpointed(aliases, name);
      }
      trace := trace + [Seen()];
      return fault.Works?;
    }
  }

  function PointedTo(s: State, alias: string): set<string> {
    if alias in s.aliases then s.aliases[alias] else {}
  }

  /** An index takes with it whatever aliases point to it. */
  function Unpointed(aliases: map<string, set<string>>, name: string): map<string, set<string>> {
    map alias | alias in aliases :: aliases[alias] - {name}
  }

  // ---------- The run ----------

  datatype Options = Options(alias: string, keepOld: bool, dryRun: bool)

  datatype Report = Report(oldIndex: Option<string>, newIndex: string, docs: nat, oldDeleted: bool)

  /** How a run's requests turn out; pages and bulk are by page. */
  datatype Luck = Luck(current: Fault, create: Fault, page: nat -> bool, bulk: nat -> Fault, some: Contents, switch: Fault, delete: Fault)

  function NewName(alias: string, now: int): string { alias + "_" + FormatInt(now) }

  /** Runs at different moments make different indices, none of them named like the alias. */
  lemma NamesDiffer(alias: string, a: int, b: int)
    ensures NewName(alias, a) == NewName(alias, b) ==> a == b
    ensures NewName(alias, a) != alias
  {
    hide FormatInt;
    assert NewName(alias, a)[|alias| + 1..] == FormatInt(a) && NewName(alias, b)[|alias| + 1..] == FormatInt(b);
    if NewName(alias, a) == NewName(alias, b) {
      FormatIsOneToOne(a, b);
    }
  }

  /** In t, compared with s: an alias that pointed to one existing index does so still, to the same one
      or to the new one, and to the new one only with everything in it; the index it pointed to is
      missing only if the alias has left it; no other index has changed; and no alias is left hanging. */
  ghost predicate Safe(s: State, t: State, alias: string, name: string, all: seq<Listing>) {
    && (forall before :: Serves(s, alias, before) ==>
          && (Serves(t, alias, before) || (Serves(t, alias, name) && t.indices[name] == IndexedAll(map[], all)))
          && (before !in t.indices ==> Serves(t, alias, name)))
    && (forall index :: index in s.indices && index !in PointedTo(s, alias) ==> index in t.indices && t.indices[index] == s.indices[index])
    && Sound(t)
  }

  /** Only an index that was not there before is new. */
  ghost predicate Building(s: State, t: State, name: string) {
    && t.aliases == s.aliases && name !in s.indices
    && forall index :: index in s.indices ==> index in t.indices && t.indices[index] == s.indices[index]
  }

  lemma BuildingIsSafe(s: State, t: State, alias: string, name: string, all: seq<Listing>)
    requires Sound(s) && (t == s || Building(s, t, name))
    ensures Safe(s, t, alias, name, all)
  {
  }

  /** The alias before the switch, as CurrentIndex found it. */
  ghost predicate Found(s: State, alias: string, current: Option<string>) {
    && (current.Some? == (PointedTo(s, alias) != {}))
    && (current.Some? ==> current.value in PointedTo(s, alias))
  }

  /** The state the switch request aims at. */
  function SwitchedFrom(t: State, alias: string, name: string, current: Option<string>): State {
    t.(aliases := t.aliases[alias := PointedTo(t, alias) + {name} - (if current.Some? then {current.value} else {})])
  }

  lemma SwitchIsSafe(s: State, t: State, alias: string, name: string, current: Option<string>, all: seq<Listing>)
    requires Sound(s) && Building(s, t, name) && name in t.indices && t.indices[name] == IndexedAll(map[], all) && Found(s, alias, current)
    ensures Safe(s, SwitchedFrom(t, alias, name, current), alias, name, all)
    ensures current == None || Serves(s, alias, current.value) ==> Serves(SwitchedFrom(t, alias, name, current), alias, name)
  {
  }

  function Without(t: State, index: string): State {
    t.(indices := t.indices - {index}, aliases := Unpointed(t.aliases, index))
  }

  lemma DeleteIsSafe(s: State, t: State, alias: string, name: string, index: string, all: seq<Listing>)
    requires Safe(s, t, alias, name, all) && name !in s.indices && index in PointedTo(s, alias)
    requires Serves(s, alias, index) ==> Serves(t, alias, name) && t.indices[name] == IndexedAll(map[], all)
    ensures Safe(s, Without(t, index), alias, name, all)
    ensures Serves(s, alias, index) ==> Serves(Without(t, index), alias, name) && Without(t, index).indices[name] == IndexedAll(map[], all)
  {
  }

  class Reindexer {
    const cluster: Cluster
    /** The catalog's pages; the cursor of a page is its number, and the last has no next one. */
    const pages: seq<seq<Listing>>

    constructor (cluster: Cluster, pages: seq<seq<Listing>>)
      requires pages != []
      ensures this.cluster == cluster && this.pages == pages
    {
      this.cluster, this.pages := cluster, pages;
    }

    method ListListings(cursor: nat, works: bool) returns (r: Result<(seq<Listing>, Option<nat>), string>)
      requires cursor < |pages|
      ensures r == if works then Success((pages[cursor], if cursor + 1 < |pages| then Some(cursor + 1) else None)) else Failure("catalog")
    {
      if !works {
        return Failure("catalog");
      }
      return Success((pages[cursor], if cursor + 1 < |pages| then Some(cursor + 1) else None));
    }

    /** The page is handed out, and its listings, if it has any, are written. */
    ghost predicate PageWorks(luck: Luck, k: nat) {
      luck.page(k) && (k < |pages| && pages[k] != [] ==> luck.bulk(k).Works?)
    }

    lemma PageWorksIff(luck: Luck, k: nat)
      requires k < |pages|
      ensures PageWorks(luck, k) <==> luck.page(k) && (|pages[k]| == 0 || luck.bulk(k).Works?)
    {
    }

    /** Every request that the run has to make works, and the new index's name is free. */
    ghost predicate AllWorks(s: State, options: Options, name: string, luck: Luck) {
      && luck.current.Works?
      && if options.dryRun then forall k :: 0 <= k < |pages| ==> luck.page(k) else RebuildWorks(s, options, name, luck)
    }

    ghost predicate RebuildWorks(s: State, options: Options, name: string, luck: Luck) {
      && luck.create.Works? && name !in s.indices && (forall k :: 0 <= k < |pages| ==> PageWorks(luck, k))
      && luck.switch.Works? && (PointedTo(s, options.alias) != {} && !options.keepOld ==> luck.delete.Works?)
    }

    /** Page after page into the new index, which nobody reads yet. */
    method Fill(name: string, luck: Luck) returns (total: nat, ok: bool)
      requires pages != [] && name in cluster.indices && cluster.indices[name] == map[]
      modifies cluster
      ensures Elsewhere(old(cluster.Seen()), cluster.Seen(), name)
      ensures ok ==> total == |Flat(pages)| && cluster.indices[name] == IndexedAll(map[], Flat(pages))
      ensures ok <==> forall k :: 0 <= k < |pages| ==> PageWorks(luck, k)
      ensures StaysElsewhere(old(cluster.Seen()), old(cluster.trace), cluster.trace, name)
    {
      total := 0;
      var cursor := 0;
      ghost var s := cluster.Seen();
      assert Elsewhere(s, s, name) && Flat(pages[..0]) == [] && IndexedAll(map[], []) == map[];
      hide Elsewhere, StaysElsewhere, IndexedAll, Flat, PageWorks;
      while true
        invariant cursor < |pages| && total == |Flat(pages[..cursor])|
        invariant Elsewhere(s, cluster.Seen(), name) && name in cluster.indices
        invariant cluster.indices[name] == IndexedAll(map[], Flat(pages[..cursor])) && forall k :: 0 <= k < cursor ==> PageWorks(luck, k)
        invariant StaysElsewhere(s, old(cluster.trace), cluster.trace, name)
        decreases |pages| - cursor
      {
        PageWorksIff(luck, cursor);
        var page := ListListings(cursor, luck.page(cursor));
        if page.Failure? {
          return total, false;
        }
        NextPage(pages, cursor);
        var (listings, next) := page.value;
        if |listings| > 0 {
          ghost var t, trace := cluster.Seen(), cluster.trace;
          var written := cluster.BulkIndex(name, listings, luck.bulk(cursor), luck.some);
          OneMoreElsewhere(s, t, cluster.Seen(), name, old(cluster.trace), trace);
          if !written {
            return total, false;
          }
          total := total + |listings|;
        }
        assert total == |Flat(pages[..cursor + 1])| && cluster.indices[name] == IndexedAll(map[], Flat(pages[..cursor + 1]));
        if next.None? {
          assert pages[..cursor + 1] == pages;
          return total, true;
        }
        cursor := next.value;
      }
    }

    /** One page more. */
    lemma NextPage(pages: seq<seq<Listing>>, k: nat)
      requires k < |pages|
      ensures Flat(pages[..k + 1]) == Flat(pages[..k]) + pages[k]
      ensures IndexedAll(IndexedAll(map[], Flat(pages[..k])), pages[k]) == IndexedAll(map[], Flat(pages[..k + 1]))
      ensures pages[k] == [] ==> Flat(pages[..k + 1]) == Flat(pages[..k])
    {
      assert pages[..k + 1][..k] == pages[..k];
      IndexedTwice(map[], Flat(pages[..k]), pages[k]);
    }

    lemma OneMoreElsewhere(s: State, t: State, u: State, name: string, before: seq<State>, trace: seq<State>)
      requires Elsewhere(s, t, name) && StaysElsewhere(s, before, trace, name)
      requires u.aliases == t.aliases && name in u.indices && u.indices == t.indices[name := u.indices[name]]
      ensures Elsewhere(s, u, name) && StaysElsewhere(s, before, trace + [u], name)
    {
    }

    /** The same walk without a write. */
    method CountAll(luck: Luck) returns (total: nat, ok: bool)
      requires pages != []
      ensures ok ==> total == |Flat(pages)|
      ensures ok <==> forall k :: 0 <= k < |pages| ==> luck.page(k)
    {
      total := 0;
      var cursor := 0;
      while true
        invariant cursor < |pages| && total == |Flat(pages[..cursor])|
        invariant forall k :: 0 <= k < cursor ==> luck.page(k)
        decreases |pages| - cursor
      {
        var page := ListListings(cursor, luck.page(cursor));
        if page.Failure? {
          return total, false;
        }
        assert pages[..cursor + 1][..cursor] == pages[..cursor];
        var (listings, next) := page.value;
        total := total + |listings|;
        if next.None? {
          assert pages[..cursor + 1] == pages;
          return total, true;
        }
        cursor := next.value;
      }
    }

    /** The whole run, which succeeds exactly when every request does that it needs, and is safe after each
        of them, whichever fail; a dry run changes nothing and
        counts what a fill would write. */
    method Run(options: Options, now: int, luck: Luck) returns (report: Report, ok: bool)
      requires pages != [] && Sound(cluster.Seen())
      modifies cluster
      ensures old(cluster.trace) <= cluster.trace
      ensures forall k :: |old(cluster.trace)| <= k < |cluster.trace| ==>
                Safe(old(cluster.Seen()), cluster.trace[k], options.alias, NewName(options.alias, now), Flat(pages))
      ensures Safe(old(cluster.Seen()), cluster.Seen(), options.alias, NewName(options.alias, now), Flat(pages))
      ensures ok <==> AllWorks(old(cluster.Seen()), options, NewName(options.alias, now), luck)
      ensures options.dryRun ==> cluster.Seen() == old(cluster.Seen()) && cluster.trace == old(cluster.trace)
      ensures ok ==> report.docs == |Flat(pages)| && report.newIndex == NewName(options.alias, now)
      ensures ok && !options.dryRun ==>
                Switched(old(cluster.Seen()), cluster.Seen(), options, NewName(options.alias, now), Flat(pages),
                         report.oldIndex, report.oldDeleted)
    {
      var name := NewName(options.alias, now);
      ghost var s, all := cluster.Seen(), Flat(pages);
      report, ok := Report(None, name, 0, false), false;
      BuildingIsSafe(s, s, options.alias, name, all);
      var current := cluster.CurrentIndex(options.alias, luck.current);
      if current.Failure? {
        return;
      }
      report := report.(oldIndex := current.value);
      if options.dryRun {
        var total: nat;
        total, ok := CountAll(luck);
        return report.(docs := total), ok;
      }
      hide Safe, Switched, NewName, RebuildWorks;
      var total, done := Rebuild(options, name, current.value, luck);
      return report.(docs := total, oldDeleted := done && current.value.Some? && !options.keepOld), done;
    }

    /** Run past its dry-run branch: every request that writes. */
    method Rebuild(options: Options, name: string, current: Option<string>, luck: Luck) returns (total: nat, ok: bool)
      requires pages != [] && Sound(cluster.Seen()) && Found(cluster.Seen(), options.alias, current)
      modifies cluster
      ensures old(cluster.trace) <= cluster.trace
      ensures forall k :: |old(cluster.trace)| <= k < |cluster.trace| ==>
                Safe(old(cluster.Seen()), cluster.trace[k], options.alias, name, Flat(pages))
      ensures Safe(old(cluster.Seen()), cluster.Seen(), options.alias, name, Flat(pages))
      ensures ok <==> RebuildWorks(old(cluster.Seen()), options, name, luck)
      ensures ok ==> total == |Flat(pages)|
                     && Switched(old(cluster.Seen()), cluster.Seen(), options, name, Flat(pages), current, current.Some? && !options.keepOld)
    {
      ghost var s, all := cluster.Seen(), Flat(pages);
      total, ok := 0, false;
      BuildingIsSafe(s, s, options.alias, name, all);
      hide Safe, Switched;
      var created := cluster.CreateIndex(name, luck.create);
      assert cluster.Seen() == s || Building(s, cluster.Seen(), name);
      BuildingIsSafe(s, cluster.Seen(), options.alias, name, all);
      if !created {
        return;
      }
      FillIsBuilding(s, cluster.Seen(), options.alias, name, all);
      var filled: bool;
      total, filled := Fill(name, luck);
      if !filled {
        return;
      }
      ok := SwitchOver(options, name, current, luck, s);
    }

    /** The last two requests of Run: the switch, and only after it the delete. */
    method SwitchOver(options: Options, name: string, current: Option<string>, luck: Luck, ghost s: State) returns (ok: bool)
      requires Sound(s) && Building(s, cluster.Seen(), name) && name in cluster.indices && cluster.indices[name] == IndexedAll(map[], Flat(pages))
      requires Found(s, options.alias, current)
      modifies cluster
      ensures old(cluster.trace) <= cluster.trace
      ensures forall k :: |old(cluster.trace)| <= k < |cluster.trace| ==>
                Safe(s, cluster.trace[k], options.alias, name, Flat(pages))
      ensures Safe(s, cluster.Seen(), options.alias, name, Flat(pages))
      ensures ok <==> luck.switch.Works? && (current.Some? && !options.keepOld ==> luck.delete.Works?)
      ensures ok ==> Switched(s, cluster.Seen(), options, name, Flat(pages), current, current.Some? && !options.keepOld)
    {
      ghost var t := cluster.Seen();
      BuildingIsSafe(s, t, options.alias, name, Flat(pages));
      SwitchIsSafe(s, t, options.alias, name, current, Flat(pages));
      ok := cluster.SwitchAlias(options.alias, name, current, luck.switch);
      if !ok {
        return;
      }
      assert cluster.Seen() == SwitchedFrom(t, options.alias, name, current);
      if current.Some? && !options.keepOld {
        DeleteIsSafe(s, cluster.Seen(), options.alias, name, current.value, Flat(pages));
        ok := cluster.DeleteIndex(current.value, luck.delete);
      }
    }
  }

  lemma FillIsBuilding(s: State, empty: State, alias: string, name: string, all: seq<Listing>)
    requires Sound(s) && name !in s.indices && empty == s.(indices := s.indices[name := map[]])
    ensures forall t {:trigger Elsewhere(empty, t, name)} :: Elsewhere(empty, t, name) ==> Building(s, t, name) && Safe(s, t, alias, name, all)
  {
  }

  /** Only the contents of the named index may differ. */
  ghost predicate Elsewhere(s: State, t: State, name: string) {
    && t.aliases == s.aliases && name in t.indices && t.indices.Keys == s.indices.Keys
    && forall index :: index in s.indices && index != name ==> t.indices[index] == s.indices[index]
  }

  /** So it is after every request since. */
  ghost predicate StaysElsewhere(s: State, before: seq<State>, trace: seq<State>, name: string) {
    before <= trace && forall k :: |before| <= k < |trace| ==> Elsewhere(s, trace[k], name)
  }

  /** A finished run: the new index was not there before, holds everything, and has the alias to itself;
      the index it replaces is reported, and is gone unless it is to be kept. */
  ghost predicate Switched(s: State, t: State, options: Options, name: string, all: seq<Listing>, oldIndex: Option<string>, oldDeleted: bool) {
    && name !in s.indices && name in t.indices && t.indices[name] == IndexedAll(map[], all)
    && (PointedTo(s, options.alias) == {} ==> Serves(t, options.alias, name) && oldIndex == None && !oldDeleted)
    && (forall before :: Serves(s, options.alias, before) ==>
          && Serves(t, options.alias, name) && oldIndex == Some(before)
          && (before in t.indices <==> options.keepOld) && (oldDeleted <==> !options.keepOld))
  }
}
