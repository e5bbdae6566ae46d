/** The in-memory hub behind WatchListing: a channel of eight for every subscriber, and a notifier that
    never waits for one. */
module WatchHub {
  import opened Wrappers

  datatype Event = Event(change: string, at: int)

  const BUFFER := 8

  /** A subscriber's channel. received is what it has read; since is how many events its listing had
      seen when it subscribed; closes counts close calls, of which a second would panic. */
  datatype Channel = Channel(listing: string, buffer: seq<Event>, received: seq<Event>, since: nat, closes: nat)

  /** subs as in the hub; channels are named by their order of creation. history is bookkeeping: every
      event a listing was notified of. */
  datatype State = State(subs: map<string, set<nat>>, channels: seq<Channel>, history: map<string, seq<Event>>)

  datatype Step = Subscribe(listing: string) | Cancel(c: nat) | Notify(listing: string, e: Event) | Receive(c: nat)

  const START := State(map[], [], map[])

  function Members(s: State, listing: string): set<nat> {
    if listing in s.subs then s.subs[listing] else {}
  }

  function Past(s: State, listing: string): seq<Event> {
    if listing in s.history then s.history[listing] else []
  }

  // ---------- The four operations ----------

  function Subscribed(s: State, listing: string): State {
    s.(subs := s.subs[listing := Members(s, listing) + {|s.channels|}],
       channels := s.channels + [Channel(listing, [], [], |Past(s, listing)|, 0)])
  }

  /** Takes the channel out; it is not closed, its owner has stopped reading. */
  function Cancelled(s: State, c: nat): State
    requires c < |s.channels|
  {
    var listing := s.channels[c].listing;
    if listing !in s.subs then s
    else if s.subs[listing] - {c} == {} then s.(subs := s.subs - {listing})
    else s.(subs := s.subs[listing := s.subs[listing] - {c}])
  }

  /** A send that does not wait: into the buffer if there is room, else the channel is closed. */
  function Offered(ch: Channel, e: Event): Channel {
    if |ch.buffer| < BUFFER then ch.(buffer := ch.buffer + [e]) else ch.(closes := ch.closes + 1)
  }

  function Overflowing(s: State, members: set<nat>): set<nat> {
    set c | c in members && c < |s.channels| && |s.channels[c].buffer| >= BUFFER
  }

  function Notified(s: State, listing: string, e: Event): State {
    var members := Members(s, listing);
    State(if listing in s.subs then s.subs[listing := members - Overflowing(s, members)] else s.subs,
          seq(|s.channels|, c requires 0 <= c < |s.channels| => if c in members then Offered(s.channels[c], e) else s.channels[c]),
          s.history[listing := Past(s, listing) + [e]])
  }

  /** Reads one event; a closed channel still gives out what is in its buffer. */
  function Received(s: State, c: nat): State
    requires c < |s.channels|
  {
    var ch := s.channels[c];
    if ch.buffer == [] then s
    else s.(channels := s.channels[c := ch.(buffer := ch.buffer[1..], received := ch.received + [ch.buffer[0]])])
  }

  function Do(s: State, step: Step): State {
    match step
    case Subscribe(listing) => Subscribed(s, listing)
    case Cancel(c) => if c < |s.channels| then Cancelled(s, c) else s
    case Notify(listing, e) => Notified(s, listing, e)
    case Receive(c) => if c < |s.channels| then Received(s, c) else s
  }

  function Execute(s: State, steps: seq<Step>): State {
    if steps == [] then s else Do(Execute(s, steps[..|steps| - 1]), steps[|steps| - 1])
  }

  // ---------- What every step keeps ----------

  /** What a channel has carried, read or not. */
  function Carried(ch: Channel): seq<Event> {
    ch.received + ch.buffer
  }

  /** A gap-free run of the listing's events from the subscription on; up to now as long as the channel
      is subscribed; and short of at least one event if it was closed. */
  ghost predicate RunOk(ch: Channel, past: seq<Event>, subscribed: bool) {
    && |ch.buffer| <= BUFFER && ch.closes <= 1
    && ch.since + |Carried(ch)| <= |past|
    && Carried(ch) == past[ch.since..ch.since + |Carried(ch)|]
    && (subscribed ==> ch.closes == 0 && ch.since + |Carried(ch)| == |past|)
    && (ch.closes == 1 ==> ch.since + |Carried(ch)| < |past|)
  }

  ghost predicate ChannelOk(s: State, c: nat)
    requires c < |s.channels|
  {
    RunOk(s.channels[c], Past(s, s.channels[c].listing), c in Members(s, s.channels[c].listing))
  }

  /** A listing's subscribers are channels of that listing. */
  ghost predicate SubsOk(s: State) {
    forall listing, c {:trigger c in Members(s, listing)} :: c in Members(s, listing) ==> c < |s.channels| && s.channels[c].listing == listing
  }

  ghost predicate HubOk(s: State) {
    SubsOk(s) && forall c :: 0 <= c < |s.channels| ==> ChannelOk(s, c)
  }

  /** Offered one more event, a subscribed channel carries it, or is closed and no longer subscribed. */
  lemma OfferKeeps(ch: Channel, past: seq<Event>, e: Event)
    requires RunOk(ch, past, true)
    ensures RunOk(Offered(ch, e), past + [e], |ch.buffer| < BUFFER)
  {
    if |ch.buffer| < BUFFER {
      assert Carried(Offered(ch, e)) == Carried(ch) + [e];
      assert (past + [e])[ch.since..|past| + 1] == past[ch.since..] + [e];
    } else {
      MissedKeeps(ch, past, e);
    }
  }

  lemma MissedKeeps(ch: Channel, past: seq<Event>, e: Event)
    requires RunOk(ch, past, false)
    ensures RunOk(ch, past + [e], false)
  {
  }

  lemma NotifyKeeps(s: State, listing: string, e: Event, c: nat)
    requires HubOk(s) && c < |s.channels|
    ensures ChannelOk(Notified(s, listing, e), c)
  {
    var ch := s.channels[c];
    var past := Past(s, ch.listing);
    assert ChannelOk(s, c);
    hide RunOk;
    if ch.listing != listing {
      assert c !in Members(s, listing);
    } else if c in Members(s, listing) {
      OfferKeeps(ch, past, e);
    } else {
      MissedKeeps(ch, past, e);
    }
  }

  lemma SubsKept(s: State, step: Step)
    requires SubsOk(s)
    ensures SubsOk(Do(s, step))
  {
    var t := Do(s, step);
    forall listing, c {:trigger c in Members(t, listing)} | c in Members(t, listing) ensures c < |t.channels| && t.channels[c].listing == listing {
      assert c in Members(s, listing) || (step == Subscribe(listing) && c == |s.channels|);
    }
  }

  lemma ReceiveKeeps(s: State, d: nat, c: nat)
    requires d < |s.channels| && c < |s.channels| && ChannelOk(s, c)
    ensures ChannelOk(Received(s, d), c)
  {
  }

  lemma SubscribeKeeps(s: State, listing: string, c: nat)
    requires HubOk(s) && c <= |s.channels|
    ensures ChannelOk(Subscribed(s, listing), c)
  {
    assert c < |s.channels| ==> ChannelOk(s, c);
  }

  lemma CancelKeeps(s: State, d: nat, c: nat)
    requires d < |s.channels| && c < |s.channels| && ChannelOk(s, c)
    ensures ChannelOk(Cancelled(s, d), c)
  {
  }

  lemma DoKeeps(s: State, step: Step)
    requires HubOk(s)
    ensures HubOk(Do(s, step))
  {
    var t := Do(s, step);
    SubsKept(s, step);
    hide SubsOk, ChannelOk;
    forall c | 0 <= c < |t.channels| ensures ChannelOk(t, c) {
      match step
      case Notify(listing, e) => NotifyKeeps(s, listing, e, c);
      case Receive(d) =>
        assert ChannelOk(s, c);
        if d < |s.channels| {
          ReceiveKeeps(s, d, c);
        }
      case Subscribe(listing) => SubscribeKeeps(s, listing, c);
      case Cancel(d) =>
        assert ChannelOk(s, c);
        if d < |s.channels| {
          CancelKeeps(s, d, c);
        }
    }
  }

  lemma StartIsOk()
    ensures HubOk(START)
  {
  }

  lemma {:induction false} ExecuteKeeps(s: State, steps: seq<Step>)
    requires HubOk(s)
    ensures HubOk(Execute(s, steps))
    decreases |steps|
  {
    if steps != [] {
      ExecuteKeeps(s, steps[..|steps| - 1]);
      DoKeeps(Execute(s, steps[..|steps| - 1]), steps[|steps| - 1]);
    }
  }

  // ---------- Every run ----------

  /** What a subscriber has received, with what waits for it, is a gap-free run of its listing's events
      starting at its subscription: all of them while it is subscribed; at least one short once it was
      closed, which happens at most once. */
  lemma GapFree(steps: seq<Step>, c: nat)
    requires c < |Execute(START, steps).channels|
    ensures var t := Execute(START, steps);
            var ch := t.channels[c];
            && ch.since + |ch.received + ch.buffer| <= |Past(t, ch.listing)|
            && ch.received + ch.buffer == Past(t, ch.listing)[ch.since..ch.since + |ch.received + ch.buffer|]
            && (c in Members(t, ch.listing) ==> ch.received + ch.buffer == Past(t, ch.listing)[ch.since..])
            && ch.closes <= 1 && (ch.closes == 1 ==> c !in Members(t, ch.listing) && ch.received + ch.buffer < Past(t, ch.listing)[ch.since..])
  {
    StartIsOk();
    ExecuteKeeps(START, steps);
    var t := Execute(START, steps);
    assert ChannelOk(t, c);
    var ch := t.channels[c];
    assert Past(t, ch.listing)[ch.since..][..|Carried(ch)|] == Past(t, ch.listing)[ch.since..ch.since + |Carried(ch)|];
  }

  /** No closed channel is ever sent to or closed again: whoever a notification reaches is open. */
  lemma OnlyOpenOnesAreOffered(steps: seq<Step>, listing: string, c: nat)
    requires c in Members(Execute(START, steps), listing)
    ensures var t := Execute(START, steps); c < |t.channels| && t.channels[c].closes == 0 && t.channels[c].listing == listing
  {
    StartIsOk();
    ExecuteKeeps(START, steps);
    assert ChannelOk(Execute(START, steps), c);
  }

  /** The events a listing is notified of by these steps. */
  function Told(steps: seq<Step>, listing: string): seq<Event> {
    if steps == [] then []
    else
      var last := steps[|steps| - 1];
      Told(steps[..|steps| - 1], listing) + if last.Notify? && last.listing == listing then [last.e] else []
  }

  lemma {:induction false} PastGrows(s: State, steps: seq<Step>, listing: string)
    ensures Past(Execute(s, steps), listing) == Past(s, listing) + Told(steps, listing)
    decreases |steps|
  {
    if steps != [] {
      PastGrows(s, steps[..|steps| - 1], listing);
    }
  }

  /** A channel of this listing that nobody has cancelled is subscribed exactly as long as it is not closed. */
  ghost predicate OpenIsSubscribed(s: State, c: nat, listing: string, since: nat) {
    && c < |s.channels| && s.channels[c].listing == listing && s.channels[c].since == since
    && (c in Members(s, listing) <==> s.channels[c].closes == 0)
  }

  lemma StepsKeepSubscribed(s: State, step: Step, c: nat, listing: string, since: nat)
    requires HubOk(s) && OpenIsSubscribed(s, c, listing, since) && step != Cancel(c)
    ensures OpenIsSubscribed(Do(s, step), c, listing, since)
  {
    assert ChannelOk(s, c);
    MemberIff(s, step, listing, c);
    hide RunOk;
  }

  lemma {:induction false} StaysSubscribed(s: State, steps: seq<Step>, c: nat, listing: string, since: nat)
    requires HubOk(s) && OpenIsSubscribed(s, c, listing, since) && Cancel(c) !in steps
    ensures OpenIsSubscribed(Execute(s, steps), c, listing, since)
    decreases |steps|
  {
    hide HubOk, OpenIsSubscribed, Do;
    if steps != [] {
      var init, last := steps[..|steps| - 1], steps[|steps| - 1];
      assert last in steps && forall step :: step in init ==> step in steps;
      StaysSubscribed(s, init, c, listing, since);
      ExecuteKeeps(s, init);
      StepsKeepSubscribed(Execute(s, init), last, c, listing, since);
    }
  }

  /** In every run: whoever subscribes and does not cancel carries exactly what the listing is notified of
      from then on, in order, as long as its channel is not closed; and a proper prefix of it if it is. */
  lemma SubscriberGetsAll(past: seq<Step>, listing: string, steps: seq<Step>)
    requires Cancel(|Execute(START, past).channels|) !in steps
    ensures var s := Execute(START, past);
            var t, c := Execute(Do(s, Subscribe(listing)), steps), |s.channels|;
            && c < |t.channels| && t.channels[c].listing == listing && t.channels[c].closes <= 1
            && (t.channels[c].closes == 0 ==> Carried(t.channels[c]) == Told(steps, listing))
            && (t.channels[c].closes == 1 ==> Carried(t.channels[c]) < Told(steps, listing))
  {
    StartIsOk();
    ExecuteKeeps(START, past);
    var s := Execute(START, past);
    var s1, c := Do(s, Subscribe(listing)), |s.channels|;
    DoKeeps(s, Subscribe(listing));
    ExecuteKeeps(s1, steps);
    StaysSubscribed(s1, steps, c, listing, |Past(s, listing)|);
    PastGrows(s1, steps, listing);
    var t := Execute(s1, steps);
    assert ChannelOk(t, c);
    hide HubOk, Execute, Do;
    var told := Told(steps, listing);
    assert Past(t, listing)[|Past(s, listing)|..] == told;
    assert Carried(t.channels[c]) == told[..|Carried(t.channels[c])|];
  }

  /** What is in the buffer is read in its order, and reading touches no one else. */
  lemma ReadsInOrder(s: State, c: nat)
    requires c < |s.channels| && s.channels[c].buffer != []
    ensures var t := Do(s, Receive(c));
            && |t.channels| == |s.channels| && t.subs == s.subs && t.history == s.history
            && t.channels[c] == s.channels[c].(received := s.channels[c].received + [s.channels[c].buffer[0]], buffer := s.channels[c].buffer[1..])
            && forall d :: 0 <= d < |s.channels| && d != c ==> t.channels[d] == s.channels[d]
  {
  }

  /** Neither subscribed nor, therefore, offered anything again. */
  ghost predicate Done(s: State, c: nat, carried: seq<Event>, closes: nat) {
    && c < |s.channels| && c !in Members(s, s.channels[c].listing)
    && Carried(s.channels[c]) == carried && s.channels[c].closes == closes
  }

  lemma DoneStep(s: State, step: Step, c: nat, carried: seq<Event>, closes: nat)
    requires SubsOk(s) && Done(s, c, carried, closes)
    ensures Done(Do(s, step), c, carried, closes)
  {
  }

  /** So it is with a channel once its owner cancels it, and once a notification closes it. */
  lemma LeavingIsDone(s: State, step: Step, c: nat)
    requires HubOk(s) && c < |s.channels|
    requires step == Cancel(c) || (step.Notify? && Do(s, step).channels[c].closes != s.channels[c].closes)
    ensures Done(Do(s, step), c, Carried(s.channels[c]), Do(s, step).channels[c].closes)
    ensures Do(s, step).channels[c].closes <= 1
  {
    assert ChannelOk(s, c);
    DoKeeps(s, step);
    assert ChannelOk(Do(s, step), c);
    MemberIff(s, step, s.channels[c].listing, c);
  }

  /** A channel that was cancelled or closed carries nothing more and is not closed again, whatever the
      hub goes on to do. */
  lemma {:induction false} DoneIsDone(s: State, more: seq<Step>, c: nat, carried: seq<Event>, closes: nat)
    requires SubsOk(s) && Done(s, c, carried, closes)
    ensures SubsOk(Execute(s, more)) && Done(Execute(s, more), c, carried, closes)
    decreases |more|
  {
    if more != [] {
      hide SubsOk, Done, Do;
      DoneIsDone(s, more[..|more| - 1], c, carried, closes);
      SubsKept(Execute(s, more[..|more| - 1]), more[|more| - 1]);
      DoneStep(Execute(s, more[..|more| - 1]), more[|more| - 1], c, carried, closes);
    }
  }

  /** A notification closes a channel if and only if it is subscribed and its buffer is full. */
  lemma ClosedIff(steps: seq<Step>, listing: string, e: Event, c: nat)
    requires c < |Execute(START, steps).channels|
    ensures var s := Execute(START, steps);
            var t := Notified(s, listing, e);
            t.channels[c].closes != s.channels[c].closes <==> c in Members(s, listing) && |s.channels[c].buffer| == BUFFER
  {
    StartIsOk();
    ExecuteKeeps(START, steps);
    assert ChannelOk(Execute(START, steps), c);
    hide Execute, HubOk, Members, Past;
  }

  // ---------- One slow subscriber ----------

  /** The same hub, except perhaps for what becomes of channel c. */
  ghost predicate Alike(s: State, t: State, c: nat) {
    && |t.channels| == |s.channels| && t.history == s.history
    && (forall d :: 0 <= d < |s.channels| && d != c ==> t.channels[d] == s.channels[d])
    && (c < |s.channels| ==> t.channels[c].listing == s.channels[c].listing)
    && (forall listing, d :: d != c ==> (d in Members(t, listing) <==> d in Members(s, listing)))
  }

  lemma DoAlike(s: State, t: State, c: nat, step: Step)
    requires Alike(s, t, c)
    ensures Alike(Do(s, step), Do(t, step), c)
  {
    ChannelsAlike(s, t, c, step);
    var u, v := Do(s, step), Do(t, step);
    hide Do;
    forall listing, d: nat | d != c ensures d in Members(v, listing) <==> d in Members(u, listing) {
      assert d in Members(t, listing) <==> d in Members(s, listing);
      MemberIff(s, step, listing, d);
      MemberIff(t, step, listing, d);
    }
  }

  lemma ChannelsAlike(s: State, t: State, c: nat, step: Step)
    requires Alike(s, t, c)
    ensures var u, v := Do(s, step), Do(t, step);
            && |v.channels| == |u.channels| && v.history == u.history
            && (forall d :: 0 <= d < |u.channels| && d != c ==> v.channels[d] == u.channels[d])
            && (c < |u.channels| ==> v.channels[c].listing == u.channels[c].listing)
  {
    hide Members;
    if step.Notify? {
      forall d: nat | d != c ensures d in Members(t, step.listing) <==> d in Members(s, step.listing) {
      }
    }
  }

  lemma MemberIff(s: State, step: Step, listing: string, d: nat)
    ensures d in Members(Do(s, step), listing) <==> StaysMember(s, step, listing, d)
  {
  }

  predicate StaysMember(s: State, step: Step, listing: string, d: nat) {
    match step
    case Subscribe(l) => d in Members(s, listing) || (l == listing && d == |s.channels|)
    case Cancel(c) => d in Members(s, listing) && !(c == d && c < |s.channels| && s.channels[c].listing == listing)
    case Notify(l, _) => d in Members(s, listing) && !(l == listing && d < |s.channels| && |s.channels[d].buffer| >= BUFFER)
    case Receive(_) => d in Members(s, listing)
  }

  /** The steps without one subscriber's reads: it has stopped reading altogether. */
  function Unread(steps: seq<Step>, c: nat): seq<Step> {
    if steps == [] then []
    else Unread(steps[..|steps| - 1], c) + if steps[|steps| - 1] == Receive(c) then [] else [steps[|steps| - 1]]
  }

  /** Whether a subscriber reads at once or never makes no difference to anybody else: not to what they
      get, nor to when they are closed. */
  lemma {:induction false} SlowOnesHarmNobody(steps: seq<Step>, c: nat)
    ensures Alike(Execute(START, steps), Execute(START, Unread(steps, c)), c)
    decreases |steps|
  {
    if steps != [] {
      var init, step := steps[..|steps| - 1], steps[|steps| - 1];
      SlowOnesHarmNobody(init, c);
      var s, t := Execute(START, init), Execute(START, Unread(init, c));
      if step == Receive(c) {
        assert Unread(steps, c) == Unread(init, c);
        ReadAlike(s, t, c);
      } else {
        assert Unread(steps, c) == Unread(init, c) + [step];
        assert (Unread(init, c) + [step])[..|Unread(init, c)|] == Unread(init, c);
        DoAlike(s, t, c, step);
      }
    }
  }

  lemma ReadAlike(s: State, t: State, c: nat)
    requires Alike(s, t, c)
    ensures Alike(Do(s, Receive(c)), t, c)
  {
  }

  // ---------- The hub's own code ----------

  /** Every member but the rest has been offered the event, and the rest is as it was. */
  ghost predicate Halfway(s: State, listing: string, e: Event, rest: set<nat>, t: State) {
    var members := Members(s, listing);
    && rest <= members && |t.channels| == |s.channels| && t.history == s.history
    && (forall c :: c in members ==> c < |s.channels| && s.channels[c].closes == 0)
    && (forall c :: 0 <= c < |s.channels| ==> t.channels[c] == if c in members && c !in rest then Offered(s.channels[c], e) else s.channels[c])
    && (forall l :: l in t.subs <==> l in s.subs)
    && (forall l :: l in t.subs && l != listing ==> t.subs[l] == s.subs[l])
    && (listing in t.subs ==> forall c :: c in t.subs[listing] <==> c in members && (c in rest || |s.channels[c].buffer| < BUFFER))
  }

  lemma MayBeOffered(s: State, listing: string, e: Event, rest: set<nat>, t: State, c: nat)
    requires Halfway(s, listing, e, rest, t) && c in rest
    ensures c < |t.channels| && t.channels[c].closes == 0 && listing in t.subs && c in t.subs[listing]
  {
  }

  lemma OneMoreOffered(s: State, listing: string, e: Event, rest: set<nat>, t: State, c: nat, u: State)
    requires Halfway(s, listing, e, rest, t) && c in rest && listing in t.subs && c < |t.channels|
    requires u.channels == t.channels[c := Offered(t.channels[c], e)] && u.history == t.history
    requires u.subs == if |t.channels[c].buffer| < BUFFER then t.subs else t.subs[listing := t.subs[listing] - {c}]
    ensures Halfway(s, listing, e, rest - {c}, u)
  {
  }

  lemma AllOffered(s: State, listing: string, e: Event, t: State)
    requires Halfway(s, listing, e, {}, t)
    ensures t.(history := t.history[listing := Past(t, listing) + [e]]) == Notified(s, listing, e)
  {
    var members := Members(s, listing);
    assert listing in t.subs ==> t.subs[listing] == members - Overflowing(s, members);
    assert t.subs == Notified(s, listing, e).subs;
  }

  /** channels and history stand for the channels themselves and for what was ever notified. */
  class Hub {
    var subs: map<string, set<nat>>
    var channels: seq<Channel>
    var history: map<string, seq<Event>>

    constructor ()
      ensures Seen() == START
    {
      subs, channels, history := map[], [], map[];
    }

    function Seen(): State
      reads this
    {
      State(subs, channels, history)
    }

    method Subscribe(listing: string) returns (c: nat)
      modifies this
      ensures Seen() == Subscribed(old(Seen()), listing) && c == |old(channels)|
    {
      c := |channels|;
      channels := channels + [Channel(listing, [], [], |Past(Seen(), listing)|, 0)];
      if listing !in subs {
        subs := subs[listing := {}];
      }
      subs := subs[listing := subs[listing] + {c}];
    }

    method Cancel(c: nat)
      requires c < |channels|
      modifies this`subs
      ensures Seen() == Cancelled(old(Seen()), c)
    {
      var listing := channels[c].listing;
      if listing in subs {
        subs := subs[listing := subs[listing] - {c}];
        if |subs[listing]| == 0 {
          subs := subs - {listing};
        }
      }
    }

    /** A send into a closed channel would panic, so the sender must know that it is open. */
    method TrySend(c: nat, e: Event) returns (sent: bool)
      requires c < |channels| && channels[c].closes == 0
      modifies this`channels
      ensures sent <==> |old(channels)[c].buffer| < BUFFER
      ensures channels == if sent then old(channels)[c := old(channels)[c].(buffer := old(channels)[c].buffer + [e])] else old(channels)
    {
      sent := |channels[c].buffer| < BUFFER;
      if sent {
        channels := channels[c := channels[c].(buffer := channels[c].buffer + [e])];
      }
    }

    method Close(c: nat)
      requires c < |channels| && channels[c].closes == 0
      modifies this`channels
      ensures channels == old(channels)[c := old(channels)[c].(closes := 1)]
    {
      channels := channels[c := channels[c].(closes := channels[c].closes + 1)];
    }

    /** One turn of the loop: the event goes into the channel, or the channel is closed and taken out. */
    method Offer(listing: string, c: nat, e: Event)
      requires c < |channels| && channels[c].closes == 0 && listing in subs && c in subs[listing]
      modifies this`channels, this`subs
      ensures channels == old(channels)[c := Offered(old(channels)[c], e)]
      ensures subs == if |old(channels)[c].buffer| < BUFFER then old(subs) else old(subs)[listing := old(subs)[listing] - {c}]
    {
      var sent := TrySend(c, e);
      if !sent {
        Close(c);
        subs := subs[listing := subs[listing] - {c}];
      }
    }

    /** Offers the event to every subscriber of the listing, in no particular order, and takes out the
        ones it has to close. */
    method Notify(listing: string, e: Event)
      requires HubOk(Seen())
      modifies this
      ensures Seen() == Notified(old(Seen()), listing, e)
    {
      var rest: set<nat> := Members(Seen(), listing);
      ghost var before := Seen();
      assert forall c :: c in rest ==> c < |channels| && ChannelOk(Seen(), c);
      assert Halfway(before, listing, e, rest, Seen());
      hide Halfway, HubOk, Offered, Notified;
      while rest != {}
        invariant Halfway(before, listing, e, rest, Seen())
        decreases |rest|
      {
        var c: nat :| c in rest;
        ghost var now := Seen();
        MayBeOffered(before, listing, e, rest, now, c);
        Offer(listing, c, e);
        OneMoreOffered(before, listing, e, rest, now, c, Seen());
        rest := rest - {c};
      }
      AllOffered(before, listing, e, Seen());
      history := history[listing := Past(Seen(), listing) + [e]];
    }

    /** Reads the next event; nothing if there is none. */
    method Receive(c: nat) returns (e: Option<Event>)
      requires c < |channels|
      modifies this`channels
      ensures Seen() == Received(old(Seen()), c)
      ensures e == if old(channels)[c].buffer == [] then None else Some(old(channels)[c].buffer[0])
    {
      var ch := channels[c];
      if ch.buffer == [] {
        return None;
      }
      channels := channels[c := ch.(buffer := ch.buffer[1..], received := ch.received + [ch.buffer[0]])];
      return Some(ch.buffer[0]);
    }
  }
}
