/** What whole runs of the room manager decide: which tokens can still be answered, when a text channel closes itself, and
    runs that lose a token. */
module MucHistory {
  import opened Collections
  import opened MucRequests

  // ----- where a token waits -----

  /** What decides where tokens wait: live channels, the channel of each tube, and what is waited for. */
  datatype Homes = Homes(chans: set<ChanId>, owner: map<TubeId, ChanId>, queued: map<Object, seq<Token>>,
                         next: nat)

  function Of(m: Manager): Homes { Homes(m.chans.Keys, m.owner, m.queued, m.next) }

  /** The text channel an object belongs to. */
  function Home(owner: map<TubeId, ChanId>, o: Object): Option<ChanId> {
    match o
    case Text(c) => Some(c)
    case Tube(t) => Get(owner, t)
  }

  predicate HasHome(h: Homes, o: Object) { Home(h.owner, o).Some? && Home(h.owner, o).value in h.chans }

  /** Every waiting token waits on a live text channel that is not ready, or on a tube of one. */
  ghost predicate AllHomed(m: Manager) {
    forall o :: o in m.queued ==> HasHome(Of(m), o) && !m.chans[Home(m.owner, o).value].ready
  }

  ghost predicate AllLive(h: Homes) { forall o :: o in h.queued ==> HasHome(h, o) }

  /** The text channel an event destroys, if it destroys a single one. */
  ghost function Destroys(m: Manager, e: Event): Option<ChanId>
    requires Possible(m, e)
  {
    match e
    case Lost(c) => Some(c)
    case Leave(c) => if m.chans[c].ready then None else Some(c)
    case Close(c) => if m.chans[c].tubes == {} then Some(c) else None
    case TubeClosed(t) =>
      var c := m.owner[t];
      if m.chans[c].autoclose && m.chans[c].tubes == {t} then Some(c) else None
    case _ => None
  }

  /** A text channel is closed or left while a token waits on it or on a tube of it. */
  ghost predicate Abandons(m: Manager, e: Event)
    requires Possible(m, e)
  {
    !e.Lost? && Destroys(m, e).Some? && exists o :: o in m.queued && Home(m.owner, o) == Destroys(m, e)
  }

  /** What waits has a channel made before, which is not ready if it lives. */
  ghost predicate Known(m: Manager) {
    forall o :: o in m.queued ==> Home(m.owner, o).Some? && Home(m.owner, o).value < m.next
                                  && (HasHome(Of(m), o) ==> !m.chans[Home(m.owner, o).value].ready)
  }

  lemma HomesKnown(m: Manager)
    requires Inv(m)
    ensures Known(m) && forall t :: t in m.owner ==> t < m.next
    ensures AllHomed(m) <==> AllLive(Of(m))
  {
    hide RoomsMatch, ChannelsOk;
  }

  // ----- adding -----

  /** The text channel of `o` is gone. */
  predicate Homeless(h: Homes, o: Object) {
    Home(h.owner, o).Some? && Home(h.owner, o).value < h.next && Home(h.owner, o).value !in h.chans
  }

  /** Channels, tubes and queues are only added, queues on live channels, and the others stay as they are. */
  ghost predicate Grows(h: Homes, k: Homes) {
    && h.next <= k.next && h.chans <= k.chans && (forall c :: c in k.chans ==> c in h.chans || c >= h.next)
    && (forall t :: t in h.owner ==> t in k.owner && k.owner[t] == h.owner[t])
    && h.queued.Keys <= k.queued.Keys && (forall o :: o in k.queued ==> o in h.queued || HasHome(k, o))
    && (forall o :: o in h.queued && Homeless(h, o) ==> k.queued[o] == h.queued[o])
  }

  lemma GrowsOn(h: Homes, k: Homes, l: Homes)
    requires Grows(h, k) && Grows(k, l)
    ensures Grows(h, l)
  {
  }

  function PlusChannel(h: Homes): Homes { h.(chans := h.chans + {h.next}, next := h.next + 1) }

  function PlusTube(h: Homes, c: ChanId): Homes { h.(owner := h.owner[h.next := c], next := h.next + 1) }

  function Waits(h: Homes, o: Object, t: Token): Homes { h.(queued := Enqueue(h.queued, o, t)) }

  lemma PlusGrows(h: Homes, c: ChanId)
    requires forall t :: t in h.owner ==> t < h.next
    ensures Grows(h, h) && Grows(h, PlusChannel(h)) && Grows(h, PlusTube(h, c))
  {
  }

  lemma WaitsGrows(h: Homes, o: Object, t: Token)
    requires HasHome(h, o)
    ensures Grows(h, Waits(h, o, t))
  {
  }

  lemma KeysPlus<K, V>(m: map<K, V>, k: K, v: V)
    ensures m[k := v].Keys == m.Keys + {k}
  {
  }

  lemma MadeHomes(m: Manager, room: Room, registered: bool, readyNow: bool)
    requires Inv(m) && room !in m.textChannels
    ensures Of(NewMucChannel(m, room, registered, readyNow)) == PlusChannel(Of(m))
    ensures NewMucChannel(m, room, registered, readyNow).queued == m.queued
  {
    NewMucChannelKeeps(m, room, registered, readyNow);
    KeysPlus(m.chans, m.next, Channel(room, registered, readyNow, false, {}));
    hide NewMucChannel, Inv;
  }

  lemma NewChannelHomes(m: Manager, room: Room, token: Option<Token>, announce: bool, readyNow: bool)
    requires Inv(m) && room !in m.textChannels
    ensures var r, p := RequestNew(m, room, token, announce, readyNow), PlusChannel(Of(m));
      Of(r) == if announce && !readyNow && token.Some? then Waits(p, Text(m.next), token.value) else p
  {
    MadeHomes(m, room, announce, readyNow);
    hide NewMucChannel, Inv;
  }

  lemma TubeHomes(m: Manager, c: ChanId, token: Token)
    requires c in m.chans
    ensures var p := PlusTube(Of(m), c);
      Of(TubeOn(m, c, token)) == if m.chans[c].ready then p else Waits(p, Tube(m.next), token)
  {
    assert AddTube(m, c).chans.Keys == m.chans.Keys;
  }

  lemma TubeGrows(m: Manager, c: ChanId, token: Token)
    requires c in m.chans && forall t :: t in m.owner ==> t < m.next
    ensures Grows(Of(m), Of(TubeOn(m, c, token)))
  {
    var h := Of(m);
    var p := PlusTube(h, c);
    TubeHomes(m, c, token);
    PlusGrows(h, c);
    assert HasHome(p, Tube(m.next));
    hide TubeOn, Grows, HasHome;
    if !m.chans[c].ready {
      WaitsGrows(p, Tube(m.next), token);
      GrowsOn(h, p, Waits(p, Tube(m.next), token));
    }
  }

  lemma {:induction false} AnnouncedGrows(m: Manager, c: ChanId, n: nat)
    requires c in m.chans && forall t :: t in m.owner ==> t < m.next
    ensures var r := AnnouncedTubes(m, c, n); Grows(Of(m), Of(r)) && c in r.chans && forall t :: t in r.owner ==> t < r.next
  {
    PlusGrows(Of(m), c);
    if n > 0 {
      var p := AnnouncedTubes(m, c, n - 1);
      AnnouncedGrows(m, c, n - 1);
      PlusGrows(Of(p), c);
      assert AddTube(p, c).chans.Keys == p.chans.Keys;
      assert Of(AnnouncedTubes(m, c, n)) == PlusTube(Of(p), c);
      hide Grows;
      GrowsOn(Of(m), Of(p), PlusTube(Of(p), c));
    }
  }

  lemma KnownTextHomes(m: Manager, token: Token, c: ChanId, requireNew: bool)
    requires c in m.chans
    ensures var k := Of(HandleKnownText(m, token, c, requireNew)); k == Of(m) || k == Waits(Of(m), Text(c), token)
  {
    if !m.chans[c].registered {
      KeysPlus(m.chans, c, m.chans[c].(registered := true));
      hide Queue;
    }
  }

  lemma KnownTextGrows(m: Manager, token: Token, c: ChanId, requireNew: bool)
    requires c in m.chans && forall t :: t in m.owner ==> t < m.next
    ensures Grows(Of(m), Of(HandleKnownText(m, token, c, requireNew)))
  {
    KnownTextHomes(m, token, c, requireNew);
    PlusGrows(Of(m), 0);
    WaitsGrows(Of(m), Text(c), token);
    hide Grows, HandleKnownText, Of;
  }

  lemma NewTextGrows(m: Manager, token: Token, room: Room, readyNow: bool)
    requires Inv(m) && room !in m.textChannels
    ensures Grows(Of(m), Of(RequestNew(m, room, Some(token), true, readyNow)))
  {
    var h := Of(m);
    HomesKnown(m);
    NewChannelHomes(m, room, Some(token), true, readyNow);
    hide Inv, AllHomed, Known, RequestNew;
    PlusGrows(h, 0);
    WaitsGrows(PlusChannel(h), Text(m.next), token);
    hide Grows;
    if !readyNow {
      GrowsOn(h, PlusChannel(h), Waits(PlusChannel(h), Text(m.next), token));
    }
  }

  lemma TextGrows(m: Manager, token: Token, room: Room, requireNew: bool, ok: bool, net: Network)
    requires Inv(m)
    ensures Grows(Of(m), Of(HandleText(m, token, room, requireNew, ok, net)))
  {
    HomesKnown(m);
    PlusGrows(Of(m), 0);
    hide AllHomed, Known, RequestNew, HandleKnownText, Grows;
    if room in m.textChannels {
      KnownTextGrows(m, token, m.textChannels[room], requireNew);
    } else {
      NewTextGrows(m, token, room, net.readyNow);
    }
  }

  lemma TubeRequestGrows(m: Manager, token: Token, room: Room, ok: bool, net: Network)
    requires Inv(m)
    ensures Grows(Of(m), Of(HandleTube(m, token, room, ok, net)))
  {
    HomesKnown(m);
    var h := Of(m);
    PlusGrows(h, 0);
    if room in m.textChannels {
      TubeGrows(m, m.textChannels[room], token);
    } else if net.connects {
      var r := RequestNew(m, room, None, false, net.readyNow);
      NewChannelHomes(m, room, None, false, net.readyNow);
      ChannelStays(m, room, net.readyNow);
      assert Of(r) == PlusChannel(h);
      TubeGrows(r, m.next, token);
      hide Grows, RequestNew, TubeOn, Inv;
      GrowsOn(h, Of(r), Of(TubeOn(r, m.next, token)));
    }
    hide Inv, AllHomed, Known, RequestNew, TubeOn, Grows;
  }

  lemma InviteGrows(m: Manager, room: Room, net: Network)
    requires Inv(m)
    ensures Grows(Of(m), Of(HandleInvite(m, room, net)))
  {
    HomesKnown(m);
    PlusGrows(Of(m), 0);
    if room !in m.textChannels {
      MadeHomes(m, room, true, net.readyNow);
    }
    hide Grows, AllHomed, Known, NewMucChannel, Inv;
  }

  lemma StanzaGrows(m: Manager, c: ChanId, n: nat)
    requires Inv(m) && c in m.chans
    ensures Grows(Of(m), Of(AnnouncedTubes(Reappear(m, c), c, n)))
  {
    HomesKnown(m);
    var p := Reappear(m, c);
    assert p.chans.Keys == m.chans.Keys && Of(p) == Of(m);
    hide Inv, AllHomed, Known, Grows;
    AnnouncedGrows(p, c, n);
  }

  // ----- taking away -----

  lemma GrowsLive(h: Homes, k: Homes)
    requires Grows(h, k) && forall o :: o in h.queued ==> Home(h.owner, o).Some? && Home(h.owner, o).value < h.next
    ensures AllLive(k) <==> AllLive(h)
  {
  }

  lemma ServedLive(h: Homes, gone: set<Object>)
    requires forall o :: o in gone && o in h.queued ==> HasHome(h, o)
    ensures AllLive(h.(queued := h.queued - gone)) <==> AllLive(h)
  {
    var k := h.(queued := h.queued - gone);
    forall o ensures HasHome(k, o) <==> HasHome(h, o) {
    }
    assert forall o :: o in h.queued && o !in gone ==> o in k.queued;
  }

  lemma DestroyedLive(h: Homes, c: ChanId)
    ensures AllLive(h.(chans := h.chans - {c})) <==> AllLive(h) && forall o :: o in h.queued ==> Home(h.owner, o) != Some(c)
  {
    var k := h.(chans := h.chans - {c});
    forall o | o in h.queued ensures HasHome(k, o) <==> HasHome(h, o) && Home(h.owner, o) != Some(c) {
    }
  }

  /** The waiters of a live channel are those whose home it is. */
  lemma WaitersAtHome(m: Manager, c: ChanId)
    requires Inv(m) && c in m.chans
    ensures forall o :: o in m.queued ==> (Home(m.owner, o) == Some(c) <==> o in Waiters(m, c))
  {
    hide RoomsMatch, ChannelsOk, ReadyIdle, IdsFresh;
    forall o | o in m.queued ensures Home(m.owner, o) == Some(c) <==> o in Waiters(m, c) {
      match o
      case Text(_) =>
      case Tube(t) => assert t in m.owner && t in Queue(m.textNeeded, m.owner[t]);
    }
  }

  lemma ReadyLive(m: Manager, c: ChanId)
    requires Inv(m) && c in m.chans
    ensures AllLive(Of(ReadyStep(m, c))) <==> AllLive(Of(m))
  {
    var m1 := m.(chans := m.chans[c := m.chans[c].(ready := true)]);
    ReadyCallbackFrame(m1, c);
    WaitersAtHome(m, c);
    hide Inv, ReadyCallback;
    assert Waiters(m1, c) == Waiters(m, c) && m1.chans.Keys == m.chans.Keys;
    ServedLive(Of(m), Waiters(m, c));
    assert Of(ReadyStep(m, c)) == Of(m).(queued := Of(m).queued - Waiters(m, c));
    hide AllLive, Waiters;
  }

  lemma LostLive(m: Manager, c: ChanId)
    requires Inv(m) && c in m.chans
    ensures AllLive(Of(LostStep(m, c))) <==> AllLive(Of(m))
  {
    var h := Of(m);
    HomesKnown(m);
    WaitersAtHome(m, c);
    var left := if m.chans[c].ready then h else h.(queued := h.queued - Waiters(m, c));
    if !m.chans[c].ready {
      JoinErrorFrame(m, c, NetworkError);
    }
    hide Inv, JoinError;
    assert Of(LostStep(m, c)) == left.(chans := left.chans - {c});
    ServedLive(h, Waiters(m, c));
    assert forall o :: o in left.queued ==> Home(left.owner, o) != Some(c);
    DestroyedLive(left, c);
  }

  /** One step leaves every waiting token a live channel to wait on if and only if there was one for each before, and the
      step abandons none. */
  lemma StepLive(m: Manager, e: Event)
    requires Inv(m) && Possible(m, e) && !e.CloseAll?
    ensures AllLive(Of(Step(m, e))) <==> AllLive(Of(m)) && !Abandons(m, e)
  {
    HomesKnown(m);
    var h, k := Of(m), Of(Step(m, e));
    match e
    case RequestText(token, room, requireNew, ok, net) =>
      TextGrows(m, token, room, requireNew, ok, net);
      hide Inv, HandleText, AllLive, Grows;
      GrowsLive(h, k);
    case RequestTube(token, room, ok, net) =>
      TubeRequestGrows(m, token, room, ok, net);
      hide Inv, HandleTube, AllLive, Grows;
      GrowsLive(h, k);
    case Invited(room, net) =>
      InviteGrows(m, room, net);
      hide Inv, HandleInvite, AllLive, Grows;
      GrowsLive(h, k);
    case Stanza(c, n) =>
      StanzaGrows(m, c, n);
      hide Inv, Reappear, AnnouncedTubes, AllLive, Grows;
      GrowsLive(h, k);
    case Ready(c) => ReadyLive(m, c);
    case Lost(c) => LostLive(m, c);
    case Leave(c) => GoneLive(m, e);
    case Close(c) => GoneLive(m, e);
    case TubeClosed(t) => GoneLive(m, e);
  }

  lemma GoneLive(m: Manager, e: Event)
    requires Inv(m) && Possible(m, e) && (e.Leave? || e.Close? || e.TubeClosed?)
    ensures AllLive(Of(Step(m, e))) <==> AllLive(Of(m)) && !Abandons(m, e)
  {
    hide Inv;
    var h, d, r := Of(m), Destroys(m, e), Step(m, e);
    if d.Some? {
      DestroyedLive(h, d.value);
      assert r.chans.Keys == m.chans.Keys - {d.value};
      assert Of(r) == h.(chans := h.chans - {d.value});
    } else {
      assert r.chans.Keys == m.chans.Keys;
      assert Of(r) == h;
    }
    hide AllLive, Step;
  }

  ghost predicate AbandonedIn(m: Manager, es: seq<Event>)
    requires Inv(m) && IsRun(m, es)
    decreases |es|
  {
    es != [] && (Abandons(m, es[0]) || (StepKeeps(m, es[0]); AbandonedIn(Step(m, es[0]), es[1..])))
  }

  lemma {:induction false} OpenBefore(m: Manager, es: seq<Event>)
    requires Inv(m) && IsRun(m, es) && After(m, es).open
    ensures m.open
  {
    if es != [] {
      assert Possible(m, es[0]);
    }
  }

  lemma ClosesForGood(m: Manager, es: seq<Event>)
    requires Inv(m) && es != [] && IsRun(m, es) && After(m, es).open
    ensures !es[0].CloseAll?
  {
    StepKeeps(m, es[0]);
    OpenBefore(Step(m, es[0]), es[1..]);
  }

  lemma {:induction false} RunLive(m: Manager, es: seq<Event>)
    requires Inv(m) && IsRun(m, es) && After(m, es).open
    ensures AllLive(Of(After(m, es))) <==> AllLive(Of(m)) && !AbandonedIn(m, es)
    decreases |es|
  {
    if es != [] {
      StepKeeps(m, es[0]);
      hide Inv, AllLive, Abandons;
      ClosesForGood(m, es);
      hide Step;
      StepLive(m, es[0]);
      RunLive(Step(m, es[0]), es[1..]);
    }
  }

  /** Before `close_all`, every waiting token waits on a live text channel that is not ready yet, or on a tube of one, if and
      only if no text channel was closed, left, or closed with its last tube while a token waited on it or on a tube of
      it. */
  lemma WaitingHasHome(es: seq<Event>)
    requires IsRun(Init, es) && After(Init, es).open
    ensures AllHomed(After(Init, es)) <==> !AbandonedIn(Init, es)
  {
    RunKeeps(Init, es);
    HomesKnown(After(Init, es));
    hide AllHomed, AbandonedIn, Abandons, IsRun, After;
    RunLive(Init, es);
  }

  // ----- what an abandoned token waits for -----

  /** Tokens wait on `o`, whose text channel is gone. */
  ghost predicate Stranded(m: Manager, o: Object) { o in m.queued && Homeless(Of(m), o) }

  /** And the same tokens still do. */
  ghost predicate StillStranded(m: Manager, r: Manager, o: Object) { Stranded(r, o) && r.queued[o] == Queue(m.queued, o) }

  lemma GrowsStrands(m: Manager, r: Manager, o: Object)
    requires Grows(Of(m), Of(r)) && Stranded(m, o)
    ensures StillStranded(m, r, o)
  {
  }

  lemma GoneQueues(m: Manager, e: Event, o: Object)
    requires Inv(m) && Possible(m, e) && (e.Leave? || e.Close? || e.TubeClosed?) && Stranded(m, o)
    ensures StillStranded(m, Step(m, e), o)
  {
    hide Inv;
  }

  lemma ServedQueues(m: Manager, e: Event, o: Object)
    requires Inv(m) && Possible(m, e) && (e.Ready? || e.Lost?) && Stranded(m, o)
    ensures StillStranded(m, Step(m, e), o)
  {
    var c := e.chan;
    WaitersAtHome(m, c);
    assert o !in Waiters(m, c);
    if e.Ready? {
      var m1 := m.(chans := m.chans[c := m.chans[c].(ready := true)]);
      ReadyCallbackFrame(m1, c);
      assert Waiters(m1, c) == Waiters(m, c);
    } else {
      JoinErrorFrame(m, c, NetworkError);
    }
    hide Inv, ReadyCallback, JoinError, Waiters;
  }

  lemma StepStrands(m: Manager, e: Event, o: Object)
    requires Inv(m) && Possible(m, e) && !e.CloseAll? && Stranded(m, o)
    ensures StillStranded(m, Step(m, e), o)
  {
    hide Inv, Stranded, StillStranded, Grows;
    match e
    case RequestText(token, room, requireNew, ok, net) =>
      TextGrows(m, token, room, requireNew, ok, net);
      GrowsStrands(m, Step(m, e), o);
    case RequestTube(token, room, ok, net) =>
      TubeRequestGrows(m, token, room, ok, net);
      GrowsStrands(m, Step(m, e), o);
    case Invited(room, net) =>
      InviteGrows(m, room, net);
      GrowsStrands(m, Step(m, e), o);
    case Stanza(c, n) =>
      StanzaGrows(m, c, n);
      GrowsStrands(m, Step(m, e), o);
    case Ready(_) => ServedQueues(m, e, o);
    case Lost(_) => ServedQueues(m, e, o);
    case Leave(_) => GoneQueues(m, e, o);
    case Close(_) => GoneQueues(m, e, o);
    case TubeClosed(_) => GoneQueues(m, e, o);
  }

  lemma {:induction false} RunStrands(m: Manager, es: seq<Event>, o: Object)
    requires Inv(m) && IsRun(m, es) && After(m, es).open && Stranded(m, o)
    ensures StillStranded(m, After(m, es), o)
    decreases |es|
  {
    if es != [] {
      StepKeeps(m, es[0]);
      hide Inv, Step;
      ClosesForGood(m, es);
      StepStrands(m, es[0], o);
      RunStrands(Step(m, es[0]), es[1..], o);
    }
  }

  /** Tokens that wait on a text channel that is gone, or on a tube of one, wait until `close_all`, whatever happens; a token
      used for one request is not answered before. */
  lemma StrandedUntilClosed(es: seq<Event>, more: seq<Event>, o: Object, t: Token)
    requires IsRun(Init, es) && Stranded(After(Init, es), o) && t in After(Init, es).queued[o]
    requires (RunKeeps(Init, es); IsRun(After(Init, es), more) && After(After(Init, es), more).open)
    ensures (RunKeeps(Init, es);
      var m, r := After(Init, es), After(After(Init, es), more);
      && StillStranded(m, r, o)
      && (AcceptedIn(es, t) + AcceptedIn(more, t) <= 1 ==> Answers(r.log, t) == 0))
  {
    RunKeeps(Init, es);
    var m := After(Init, es);
    hide Inv, IsRun, After;
    RunStrands(m, more, o);
    RunAccounts(Init, es, t);
    RunAccounts(m, more, t);
    HeldInQueue(After(m, more), o, t);
    hide Held, Stranded, AcceptedIn, LeakedIn;
  }

  lemma HeldInQueue(m: Manager, o: Object, t: Token)
    requires o in m.queued && t in m.queued[o]
    ensures Held(m, t) >= Answers(m.log, t) + 1
  {
    WaitingRemove(m.queued, o, t);
    TimesIn(m.queued[o], t);
    hide Waiting, Times;
  }

  // ----- closing by itself -----

  /** Whether channel `c` is set to close itself after an event, if it was `hidden` before. */
  function Hides(hidden: bool, e: Event, c: ChanId): bool {
    match e
    case Close(d) => d == c || hidden
    case Stanza(d, _) => d != c && hidden
    case _ => hidden
  }

  function SelfClosing(hidden: bool, es: seq<Event>, c: ChanId): bool
    decreases |es|
  {
    if es == [] then hidden else SelfClosing(Hides(hidden, es[0], c), es[1..], c)
  }

  /** Whether an event takes channel `c` away, if it is `hidden` or not. */
  predicate Goes(m: Manager, e: Event, c: ChanId, hidden: bool)
    requires c in m.chans
  {
    match e
    case CloseAll(_) => true
    case Lost(d) => d == c
    case Leave(d) => d == c && !m.chans[c].ready
    case Close(d) => d == c && m.chans[c].tubes == {}
    case TubeClosed(t) => t in m.owner && m.owner[t] == c && hidden && m.chans[c].tubes == {t}
    case _ => false
  }

  /** What an event makes of a text channel that stays: only requests for its room and events that name it or a tube of it
      change it. Identities are given out from `next` on. */
  function Becomes(k: Channel, e: Event, c: ChanId, next: nat): Channel {
    match e
    case RequestText(_, room, _, ok, _) => if ok && room == k.room then k.(registered := true) else k
    case RequestTube(_, room, ok, _) => if ok && room == k.room then k.(tubes := k.tubes + {next}) else k
    case Ready(d) => if d == c then k.(ready := true) else k
    case Close(d) => if d == c then k.(registered := false, autoclose := true) else k
    case TubeClosed(t) => k.(tubes := k.tubes - {t})
    case Stanza(d, n) =>
      if d == c then k.(registered := true, autoclose := false, tubes := k.tubes + Identities(next, n)) else k
    case _ => k
  }

  /** The `n` identities from `next` on. */
  function Identities(next: nat, n: nat): set<nat> { if n == 0 then {} else Identities(next, n - 1) + {next + n - 1} }

  predicate RoomFree(m: Manager, room: Room) { forall c :: c in m.chans ==> m.chans[c].room != room }

  /** The text channel an event makes: for a room that has none, if the room connection can be made, on the bus unless it was
      only needed for a tube, which it then has. */
  function Makes(m: Manager, e: Event): Option<Channel> {
    match e
    case RequestText(_, room, _, ok, net) =>
      if ok && RoomFree(m, room) && net.connects then Some(Channel(room, true, net.readyNow, false, {})) else None
    case RequestTube(_, room, ok, net) =>
      if ok && RoomFree(m, room) && net.connects then Some(Channel(room, false, net.readyNow, false, {m.next + 1})) else None
    case Invited(room, net) =>
      if RoomFree(m, room) && net.connects then Some(Channel(room, true, net.readyNow, false, {})) else None
    case _ => None
  }

  /** What an event does to any text channel, from `m` to `r`. */
  predicate Life(m: Manager, e: Event, r: Manager, c: ChanId) {
    && m.next <= r.next
    && (c in m.chans ==> (c !in r.chans <==> Goes(m, e, c, m.chans[c].autoclose)))
    && (c in m.chans && c in r.chans ==> r.chans[c] == Becomes(m.chans[c], e, c, m.next))
    && (c !in m.chans ==> Get(r.chans, c) == if c == m.next then Makes(m, e) else None)
  }

  lemma FreeRoom(m: Manager, room: Room)
    requires Inv(m)
    ensures RoomFree(m, room) <==> room !in m.textChannels
  {
    hide ChannelsOk, ReadyIdle, WaitingListed, IdsFresh;
  }

  lemma KnownTextLife(m: Manager, token: Token, d: ChanId, requireNew: bool, net: Network, c: ChanId)
    requires Inv(m) && d in m.chans
    ensures var e := RequestText(token, m.chans[d].room, requireNew, true, net);
      Life(m, e, HandleKnownText(m, token, d, requireNew), c)
  {
    hide ChannelsOk, ReadyIdle, WaitingListed;
  }

  lemma NewTextLife(m: Manager, token: Token, room: Room, requireNew: bool, net: Network, c: ChanId)
    requires Inv(m) && room !in m.textChannels && RoomFree(m, room) && net.connects
    ensures Life(m, RequestText(token, room, requireNew, true, net), RequestNew(m, room, Some(token), true, net.readyNow), c)
  {
    NewMucChannelKeeps(m, room, true, net.readyNow);
    hide RoomsMatch, ChannelsOk, ReadyIdle, WaitingListed, NewMucChannel, RoomFree;
  }

  lemma TextLife(m: Manager, token: Token, room: Room, requireNew: bool, ok: bool, net: Network, c: ChanId)
    requires Inv(m)
    ensures Life(m, RequestText(token, room, requireNew, ok, net), HandleText(m, token, room, requireNew, ok, net), c)
  {
    FreeRoom(m, room);
    if room in m.textChannels {
      KnownTextLife(m, token, m.textChannels[room], requireNew, net, c);
    } else if ok && net.connects {
      NewTextLife(m, token, room, requireNew, net, c);
    }
    hide ChannelsOk, ReadyIdle, WaitingListed, RequestNew, HandleKnownText, RoomFree, Goes;
  }

  lemma TubeOnLife(m: Manager, d: ChanId, token: Token, net: Network, c: ChanId)
    requires Inv(m) && d in m.chans
    ensures Life(m, RequestTube(token, m.chans[d].room, true, net), TubeOn(m, d, token), c)
  {
    hide ChannelsOk, ReadyIdle, WaitingListed;
  }

  lemma NewTubeIs(m: Manager, token: Token, room: Room, net: Network)
    requires Inv(m) && room !in m.textChannels && net.connects
    ensures var r := HandleTube(m, token, room, true, net);
      r.chans == m.chans[m.next := Channel(room, false, net.readyNow, false, {m.next + 1})] && r.next == m.next + 2
  {
    NewMucChannelKeeps(m, room, false, net.readyNow);
    ChannelStays(m, room, net.readyNow);
    hide Inv, NewMucChannel;
    var p, made := NewMucChannel(m, room, false, net.readyNow), Channel(room, false, net.readyNow, false, {});
    assert p.chans[m.next] == made && {} + {m.next + 1} == {m.next + 1};
    assert m.chans[m.next := made][m.next := made.(tubes := {m.next + 1})] == m.chans[m.next := made.(tubes := {m.next + 1})];
  }

  lemma NewTubeLife(m: Manager, token: Token, room: Room, net: Network, c: ChanId)
    requires Inv(m) && room !in m.textChannels && RoomFree(m, room) && net.connects
    ensures Life(m, RequestTube(token, room, true, net), HandleTube(m, token, room, true, net), c)
  {
    NewTubeIs(m, token, room, net);
    assert forall d :: d in m.chans ==> d < m.next;
    assert c in m.chans ==> m.chans[c].room != room;
    hide Inv, HandleTube, RoomFree;
  }

  lemma TubeRequestLife(m: Manager, token: Token, room: Room, ok: bool, net: Network, c: ChanId)
    requires Inv(m)
    ensures Life(m, RequestTube(token, room, ok, net), HandleTube(m, token, room, ok, net), c)
  {
    FreeRoom(m, room);
    if room in m.textChannels {
      TubeOnLife(m, m.textChannels[room], token, net, c);
    } else if ok && net.connects {
      NewTubeLife(m, token, room, net, c);
    }
    hide ChannelsOk, ReadyIdle, WaitingListed, TubeOn, RequestNew, RoomFree, Goes;
  }

  lemma InviteLife(m: Manager, room: Room, net: Network, c: ChanId)
    requires Inv(m)
    ensures Life(m, Invited(room, net), HandleInvite(m, room, net), c)
  {
    FreeRoom(m, room);
    if room !in m.textChannels {
      NewMucChannelKeeps(m, room, true, net.readyNow);
    }
    hide ChannelsOk, ReadyIdle, WaitingListed, NewMucChannel, RoomFree;
  }

  lemma ReadyLife(m: Manager, d: ChanId, c: ChanId)
    requires d in m.chans
    ensures Life(m, Ready(d), ReadyStep(m, d), c)
  {
    ReadyCallbackFrame(m.(chans := m.chans[d := m.chans[d].(ready := true)]), d);
    hide ReadyCallback;
  }

  lemma {:induction false} AnnouncedLife(m: Manager, d: ChanId, n: nat)
    requires d in m.chans
    ensures var r := AnnouncedTubes(m, d, n);
      && r.next == m.next + n
      && r.chans == m.chans[d := m.chans[d].(tubes := m.chans[d].tubes + Identities(m.next, n))]
  {
    if n == 0 {
      assert m.chans[d].tubes + Identities(m.next, 0) == m.chans[d].tubes;
    } else {
      AnnouncedLife(m, d, n - 1);
      var q := AnnouncedTubes(m, d, n - 1);
      assert AnnouncedTubes(m, d, n).chans == q.chans[d := q.chans[d].(tubes := q.chans[d].tubes + {q.next})];
      assert m.chans[d].tubes + Identities(m.next, n - 1) + {q.next} == m.chans[d].tubes + Identities(m.next, n);
    }
  }

  lemma StanzaLife(m: Manager, d: ChanId, n: nat, c: ChanId)
    requires d in m.chans
    ensures Life(m, Stanza(d, n), AnnouncedTubes(Reappear(m, d), d, n), c)
  {
    AnnouncedLife(Reappear(m, d), d, n);
    hide AnnouncedTubes;
  }

  lemma LostLife(m: Manager, d: ChanId, c: ChanId)
    requires d in m.chans
    ensures Life(m, Lost(d), LostStep(m, d), c)
  {
    JoinErrorFrame(m, d, NetworkError);
    hide JoinError;
  }

  lemma CloseLife(m: Manager, d: ChanId, c: ChanId)
    requires d in m.chans
    ensures Life(m, Close(d), CloseText(m, d), c)
  {
  }

  lemma TubeLife(m: Manager, t: TubeId, c: ChanId)
    requires Inv(m) && Possible(m, TubeClosed(t))
    ensures Life(m, TubeClosed(t), DropTube(m, t), c)
  {
    hide RoomsMatch, ReadyIdle, WaitingListed, IdsFresh;
    assert c in m.chans ==> ChannelOk(c, m.chans[c], m.owner);
  }

  /** The life of a text channel: whatever happens, a channel comes, changes and goes exactly as the event alone says. */
  lemma StepLife(m: Manager, e: Event, c: ChanId)
    requires Inv(m) && Possible(m, e)
    ensures Life(m, e, Step(m, e), c)
  {
    match e {
      case RequestText(token, room, requireNew, ok, net) => TextLife(m, token, room, requireNew, ok, net, c);
      case RequestTube(token, room, ok, net) => TubeRequestLife(m, token, room, ok, net, c);
      case Invited(room, net) => InviteLife(m, room, net, c);
      case Ready(d) => ReadyLife(m, d, c);
      case Lost(d) => LostLife(m, d, c);
      case Leave(_) =>
      case Close(d) => CloseLife(m, d, c);
      case TubeClosed(t) => TubeLife(m, t, c);
      case Stanza(d, n) => StanzaLife(m, d, n, c);
      case CloseAll(order) => FailAllFrame(m, order, Disconnected);
    }
    hide Inv, HandleText, HandleTube, HandleInvite, ReadyStep, LostStep, CloseText, DropTube, AnnouncedTubes, Reappear, FailAll;
    hide Becomes, Makes;
  }

  /** One step: the flag of a channel follows the event, new channels start without it, and dead ones stay dead. */
  lemma StepFlags(m: Manager, e: Event, c: ChanId)
    requires Inv(m) && Possible(m, e)
    ensures c in m.chans ==> c < m.next
    ensures var r := Step(m, e);
      && m.next <= r.next && (c >= m.next ==> !Hides(false, e, c))
      && (c in r.chans ==> c in m.chans || c >= m.next)
      && (c in r.chans ==> r.chans[c].autoclose == (c in m.chans && Hides(m.chans[c].autoclose, e, c)))
  {
    assert forall d :: d in m.chans ==> d < m.next;
    StepLife(m, e, c);
    hide Inv, Step, RoomFree;
  }

  lemma {:induction false} RunFlags(m: Manager, hidden: bool, es: seq<Event>, c: ChanId)
    requires Inv(m) && IsRun(m, es) && c in After(m, es).chans
    requires if c in m.chans then hidden == m.chans[c].autoclose else c >= m.next ==> !hidden
    ensures After(m, es).chans[c].autoclose == SelfClosing(hidden, es, c)
    ensures c in m.chans || c >= m.next
    decreases |es|
  {
    hide Inv, Step, Possible, Hides;
    if es != [] {
      var e, r := es[0], Step(m, es[0]);
      StepKeeps(m, e);
      StepFlags(m, e, c);
      if c !in r.chans && c < r.next {
        StaysDead(r, es[1..], c);
      }
      RunFlags(r, Hides(hidden, e, c), es[1..], c);
    }
  }

  /** A channel that is gone never comes back. */
  lemma {:induction false} StaysDead(m: Manager, es: seq<Event>, c: ChanId)
    requires Inv(m) && IsRun(m, es) && c !in m.chans && c < m.next
    ensures c !in After(m, es).chans
    decreases |es|
  {
    hide Inv, Step, Possible, Hides;
    if es != [] {
      StepKeeps(m, es[0]);
      StepFlags(m, es[0], c);
      StaysDead(Step(m, es[0]), es[1..], c);
    }
  }

  /** In every reachable state a live text channel is set to close itself exactly if a Close of it came after the last stanza
      from its room, and then it has a tube. */
  lemma SelfClosingIsHistory(es: seq<Event>, c: ChanId)
    requires IsRun(Init, es) && c in After(Init, es).chans
    ensures var chan := After(Init, es).chans[c];
      chan.autoclose == SelfClosing(false, es, c) && (chan.autoclose ==> chan.tubes != {})
  {
    RunFlags(Init, false, es, c);
    AutocloseWaitsForTubes(es, c);
  }

  /** When a live text channel goes, after any run: with everything, with its connection, when it is left or closed before
      it has tubes, and with its last tube if a Close of it came after the last stanza. Otherwise it stays, in its room, and
      off the bus after a Close. */
  lemma ChannelGoesIff(es: seq<Event>, e: Event, c: ChanId)
    requires IsRun(Init, es) && c in After(Init, es).chans && Possible(After(Init, es), e)
    ensures (RunKeeps(Init, es);
      var m := After(Init, es);
      var r := Step(m, e);
      && (c !in r.chans <==> Goes(m, e, c, SelfClosing(false, es, c)))
      && (c in r.chans ==> r.chans[c].room == m.chans[c].room && (e == Close(c) ==> !r.chans[c].registered)))
  {
    RunKeeps(Init, es);
    RunFlags(Init, false, es, c);
    StepGoes(After(Init, es), e, c);
  }

  lemma StepGoes(m: Manager, e: Event, c: ChanId)
    requires Inv(m) && c in m.chans && Possible(m, e)
    ensures var r := Step(m, e);
      && (c !in r.chans <==> Goes(m, e, c, m.chans[c].autoclose))
      && (c in r.chans ==> r.chans[c].room == m.chans[c].room && (e == Close(c) ==> !r.chans[c].registered))
  {
    StepLife(m, e, c);
    hide Inv, Step, Goes;
  }

  // ----- runs that lose a token or leave it waiting -----

  lemma RunCons(m: Manager, e: Event, es: seq<Event>, t: Token)
    requires Inv(m) && Possible(m, e) && Inv(Step(m, e)) && IsRun(Step(m, e), es)
    ensures IsRun(m, [e] + es) && After(m, [e] + es) == After(Step(m, e), es)
    ensures LeakedIn(m, [e] + es, t) == Leaked(m, e, t) + LeakedIn(Step(m, e), es, t)
  {
    assert ([e] + es)[1..] == es;
    hide Inv, Step, Possible, Leaked;
  }

  const UP := Network(true, false)

  const ASKED := RequestText(1, 7, false, true, UP)
  const TUBE_ASKED := RequestTube(2, 7, true, UP)

  /** Channel 0 of room 7 is coming up with the given tube, token 1 waits on it if `text`, and token 2 on the tube. */
  ghost predicate ComingUp(m: Manager, text: bool, tubes: set<TubeId>) {
    && m.open && 7 in m.textChannels && m.textChannels[7] == 0 && 0 in m.chans
    && m.chans[0] == Channel(7, text, false, false, tubes) && Queue(m.queued, Text(0)) == (if text then [1] else [])
  }

  ghost predicate TubeWaits(m: Manager) {
    m.next == 2 && Queue(m.textNeeded, 0) == [1] && Queue(m.queued, Tube(1)) == [2] && 1 in m.owner && m.owner[1] == 0
  }

  lemma TextAsked()
    ensures Inv(Init) && Possible(Init, ASKED)
    ensures var m := Step(Init, ASKED);
      ComingUp(m, true, {}) && m.next == 1 && Queue(m.textNeeded, 0) == [] && Leaked(Init, ASKED, 1) == 0
  {
    hide Inv;
    InitInv();
  }

  lemma TubeAsked(m: Manager)
    requires Inv(m) && ComingUp(m, true, {}) && m.next == 1 && Queue(m.textNeeded, 0) == [] && Queue(m.queued, Tube(1)) == []
    ensures var r := Step(m, TUBE_ASKED); ComingUp(r, true, {1}) && TubeWaits(r) && Leaked(m, TUBE_ASKED, 1) == 0
  {
    hide Inv;
  }

  lemma TubeAskedFirst()
    ensures Inv(Init) && Possible(Init, TUBE_ASKED)
    ensures var r := Step(Init, TUBE_ASKED);
      ComingUp(r, false, {1}) && TubeWaits(r) && Leaked(Init, TUBE_ASKED, 2) == 0
  {
    hide Inv;
    InitInv();
  }

  lemma HiddenDrops(m: Manager)
    requires Inv(m) && ComingUp(m, true, {1}) && TubeWaits(m)
    ensures Leaked(m, Close(0), 1) == 0
    ensures var r := Step(m, Close(0)); Possible(r, Ready(0)) && Leaked(r, Ready(0), 1) == 1
  {
    hide Inv;
    var r := Step(m, Close(0));
    assert TubeObjects([1]) == [Tube(1)] && [1][..0] == [];
    DroppedInIff(r, [Tube(1)], 1);
    assert !Closed(r, Tube(1));
    hide DroppedIn;
  }

  lemma GoneDrops(m: Manager)
    requires Inv(m) && ComingUp(m, false, {1}) && TubeWaits(m)
    ensures Possible(m, TubeClosed(1)) && Leaked(m, TubeClosed(1), 2) == 0
    ensures var r := Step(m, TubeClosed(1)); Possible(r, Ready(0)) && Leaked(r, Ready(0), 2) == 1
  {
    hide Inv;
    var r := Step(m, TubeClosed(1));
    assert TubeObjects([1]) == [Tube(1)] && [Tube(1)][..0] == [] && [2][..0] == [];
    assert Closed(r, Tube(1)) && DroppedIn(r, [], 2) == 0;
  }

  /** A text request, a tube request and a Close before the room is up: when it comes up, the token of the text request is
      lost. */
  lemma TokenLost()
    ensures var es := [ASKED] + ([TUBE_ASKED] + ([Close(0)] + ([Ready(0)] + [])));
      IsRun(Init, es) && LeakedIn(Init, es, 1) == 1
  {
    TextAsked();
    StepKeeps(Init, ASKED);
    var m1 := Step(Init, ASKED);
    TubeAsked(m1);
    StepKeeps(m1, TUBE_ASKED);
    var m2 := Step(m1, TUBE_ASKED);
    HiddenDrops(m2);
    StepKeeps(m2, Close(0));
    var m3 := Step(m2, Close(0));
    StepKeeps(m3, Ready(0));
    hide Inv, Step, Leaked;
    RunCons(m3, Ready(0), [], 1);
    RunCons(m2, Close(0), [Ready(0)] + [], 1);
    RunCons(m1, TUBE_ASKED, [Close(0)] + ([Ready(0)] + []), 1);
    RunCons(Init, ASKED, [TUBE_ASKED] + ([Close(0)] + ([Ready(0)] + [])), 1);
  }

  /** A tube request whose tube closes before the room is up: its token is lost as well. */
  lemma TubeTokenLost()
    ensures var es := [TUBE_ASKED] + ([TubeClosed(1)] + ([Ready(0)] + [])); IsRun(Init, es) && LeakedIn(Init, es, 2) == 1
  {
    TubeAskedFirst();
    StepKeeps(Init, TUBE_ASKED);
    var m1 := Step(Init, TUBE_ASKED);
    GoneDrops(m1);
    StepKeeps(m1, TubeClosed(1));
    var m2 := Step(m1, TubeClosed(1));
    StepKeeps(m2, Ready(0));
    hide Inv, Step, Leaked;
    RunCons(m2, Ready(0), [], 2);
    RunCons(m1, TubeClosed(1), [Ready(0)] + [], 2);
    RunCons(Init, TUBE_ASKED, [TubeClosed(1)] + ([Ready(0)] + []), 2);
  }

  lemma LeftStrands(m: Manager)
    requires Inv(m) && ComingUp(m, true, {}) && m.next == 1
    ensures Possible(m, Leave(0))
    ensures var r := Step(m, Leave(0)); Stranded(r, Text(0)) && r.queued[Text(0)] == [1]
  {
    hide Inv;
  }

  /** A text request, and the room is left before it is up: the token is stranded. */
  lemma TokenStranded()
    ensures var es := [ASKED] + ([Leave(0)] + []);
      IsRun(Init, es) && Stranded(After(Init, es), Text(0)) && After(Init, es).queued[Text(0)] == [1]
  {
    TextAsked();
    StepKeeps(Init, ASKED);
    var m1 := Step(Init, ASKED);
    LeftStrands(m1);
    StepKeeps(m1, Leave(0));
    hide Inv, Step, Leaked, ComingUp, Stranded;
    RunCons(m1, Leave(0), [], 1);
    RunCons(Init, ASKED, [Leave(0)] + [], 1);
  }

  const ASKED_UP := RequestText(1, 7, false, true, Network(true, true))
  const ASKED_AGAIN := RequestText(3, 7, false, true, UP)

  /** Channel 0 of room 7 is up. */
  ghost predicate IsUp(m: Manager, registered: bool, autoclose: bool, tubes: set<TubeId>) {
    && m.open && 7 in m.textChannels && m.textChannels[7] == 0 && 0 in m.chans
    && m.chans[0] == Channel(7, registered, true, autoclose, tubes)
  }

  lemma AskedUp()
    ensures Inv(Init) && Possible(Init, ASKED_UP) && IsUp(Step(Init, ASKED_UP), true, false, {}) && Step(Init, ASKED_UP).next == 1
  {
    InitInv();
    NewMucChannelKeeps(Init, 7, true, true);
    hide Inv, NewMucChannel;
  }

  lemma TubeThenHidden(m: Manager)
    requires Inv(m) && IsUp(m, true, false, {}) && m.next == 1
    ensures Possible(m, TUBE_ASKED)
    ensures var r := Step(m, TUBE_ASKED); IsUp(r, true, false, {1}) && 1 in r.owner && r.owner[1] == 0
    ensures Inv(Step(m, TUBE_ASKED)) && Possible(Step(m, TUBE_ASKED), Close(0))
    ensures var r := Step(Step(m, TUBE_ASKED), Close(0)); IsUp(r, false, true, {1}) && 1 in r.owner && r.owner[1] == 0
  {
    StepKeeps(m, TUBE_ASKED);
    hide Inv;
  }

  /** A room is up, with a tube, and its text channel is closed and requested again: the requester has it until the tube
      closes, and then it goes. */
  lemma TakenFromRequester()
    ensures var es := [ASKED_UP] + ([TUBE_ASKED] + ([Close(0)] + ([ASKED_AGAIN] + [])));
      IsRun(Init, es) && (RunKeeps(Init, es);
      var m := After(Init, es);
      && IsUp(m, true, true, {1}) && m.log != [] && m.log[|m.log| - 1] == NewChannel(Text(0), [3])
      && Possible(m, TubeClosed(1)) && 0 !in Step(m, TubeClosed(1)).chans)
  {
    AskedUp();
    StepKeeps(Init, ASKED_UP);
    var m1 := Step(Init, ASKED_UP);
    TubeThenHidden(m1);
    var m2 := Step(m1, TUBE_ASKED);
    StepKeeps(m2, Close(0));
    var m3 := Step(m2, Close(0));
    ShownAgain(m3);
    hide Inv, Step, Leaked, IsUp, Possible;
    RunCons(m3, ASKED_AGAIN, [], 1);
    RunCons(m2, Close(0), [ASKED_AGAIN] + [], 1);
    RunCons(m1, TUBE_ASKED, [Close(0)] + ([ASKED_AGAIN] + []), 1);
    RunCons(Init, ASKED_UP, [TUBE_ASKED] + ([Close(0)] + ([ASKED_AGAIN] + [])), 1);
  }

  lemma ShownAgain(m: Manager)
    requires Inv(m) && IsUp(m, false, true, {1}) && 1 in m.owner && m.owner[1] == 0
    ensures var r := Step(m, ASKED_AGAIN);
      && Possible(m, ASKED_AGAIN) && Inv(r) && IsUp(r, true, true, {1}) && r.log == m.log + [NewChannel(Text(0), [3])]
      && Possible(r, TubeClosed(1)) && 0 !in Step(r, TubeClosed(1)).chans
  {
    StepKeeps(m, ASKED_AGAIN);
    RerequestedStillAutocloses(m, 3, 1, UP);
    hide Inv;
  }
}
