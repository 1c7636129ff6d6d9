/** Which answer the request with a given token gets, and what the manager announces that nobody asked for. */
module MucAnswers {
  import opened Collections
  import opened MucRequests
  import MucHistory

  /** An answer: a channel announced for the request, one that was there already, or an error. */
  datatype Answer = New(obj: Object) | Already(obj: Object) | Refused(error: Error)

  /** How often a signal gives the request with token `t` the answer `a`. */
  function AnswersAs(s: Signal, t: Token, a: Answer): nat {
    match s
    case NewChannel(o, ts) => if a == New(o) then Times(ts, t) else 0
    case AlreadySatisfied(u, o) => if u == t && a == Already(o) then 1 else 0
    case Dangling(_, _) => 0
    case RequestFailed(u, error) => if u == t && a == Refused(error) then 1 else 0
  }

  function CountAs(log: seq<Signal>, t: Token, a: Answer): nat {
    if log == [] then 0 else CountAs(log[..|log| - 1], t, a) + AnswersAs(log[|log| - 1], t, a)
  }

  lemma CountSnoc(log: seq<Signal>, s: Signal, t: Token, a: Answer)
    ensures CountAs(log + [s], t, a) == CountAs(log, t, a) + AnswersAs(s, t, a)
  {
    assert (log + [s])[..|log|] == log;
  }

  // ----- the fate of a token -----

  /** What became of the request with a token; `Dropped` when it was lost. */
  datatype Fate = Unasked | Waits(obj: Object) | Answered(answer: Answer) | Dropped

  /** What an event makes of the request with token `t`: a malformed one is refused; so is one for a new text channel while
      that of the room is on the bus, which satisfies any other one; a tube request is refused if the room cannot be
      joined, and a text request then dropped; with the room up, the channel or tube is given at once, and else waits for
      it. What waits on a room is given what it waits for when the room comes up, unless that has been taken off the bus
      meanwhile, and refused if the room is lost before or everything is closed. */
  function NextFate(m: Manager, f: Fate, e: Event, t: Token): Fate
    requires forall r :: r in m.textChannels ==> m.textChannels[r] in m.chans
  {
    match e
    case RequestText(u, room, requireNew, ok, net) =>
      if u != t then f
      else if !ok then Answered(Refused(InvalidRequest))
      else if room in m.textChannels then
        var o, chan := Text(m.textChannels[room]), m.chans[m.textChannels[room]];
        if chan.registered then (if requireNew then Answered(Refused(NotAvailable)) else Answered(Already(o)))
        else if chan.ready then Answered(New(o))
        else Waits(o)
      else if !net.connects then Dropped
      else if net.readyNow then Answered(New(Text(m.next)))
      else Waits(Text(m.next))
    case RequestTube(u, room, ok, net) =>
      if u != t then f
      else if !ok then Answered(Refused(InvalidRequest))
      else if room in m.textChannels then
        (if m.chans[m.textChannels[room]].ready then Answered(New(Tube(m.next))) else Waits(Tube(m.next)))
      else if !net.connects then Answered(Refused(NetworkError))
      else if net.readyNow then Answered(New(Tube(m.next + 1)))
      else Waits(Tube(m.next + 1))
    case Ready(c) =>
      if f.Waits? && MucHistory.Home(m.owner, f.obj) == Some(c) then (if OnBus(m, f.obj) then Answered(New(f.obj)) else Dropped) else f
    case Lost(c) => if f.Waits? && MucHistory.Home(m.owner, f.obj) == Some(c) then Answered(Refused(NetworkError)) else f
    case CloseAll(_) => if f.Waits? then Answered(Refused(Error.Disconnected)) else f
    case _ => f
  }

  /** The object is there for others to use: a text channel while it is not hidden, a tube until it closes. */
  predicate OnBus(m: Manager, o: Object) {
    match o
    case Text(c) => c in m.chans && m.chans[c].registered
    case Tube(t) => t in m.owner && m.owner[t] in m.chans && t in m.chans[m.owner[t]].tubes
  }

  /** The log and the queues agree with the fate of a token. */
  ghost predicate Agrees(m: Manager, f: Fate, t: Token) {
    && (forall a: Answer :: CountAs(m.log, t, a) == if f == Answered(a) then 1 else 0)
    && (forall o: Object :: Times(Queue(m.queued, o), t) == if f == Waits(o) then 1 else 0)
  }

  // ----- what the list functions answer -----

  lemma {:induction false} AnnounceAllAs(m: Manager, objs: seq<Object>, t: Token, a: Answer)
    ensures CountAs(AnnounceAll(m, objs).log, t, a) == CountAs(m.log, t, a) +
      if a.New? && a.obj in objs && !Closed(m, a.obj) then Times(Queue(m.queued, a.obj), t) else 0
  {
    if objs != [] {
      var before, o := objs[..|objs| - 1], objs[|objs| - 1];
      assert objs == before + [o];
      var p := AnnounceAll(m, before);
      AnnounceAllFrame(m, before);
      AnnounceAllAs(m, before, t, a);
      AnnounceSnoc(m, objs);
      hide AnnounceAll, CountAs, Times;
      CountSnoc(p.log, Announcement(p, o), t, a);
      assert Closed(p, o) == Closed(m, o) && Queue(p.queued, o) == if o in before then [] else Queue(m.queued, o);
      assert Times<Token>([], t) == 0 by { TimesNone(t); }
    }
  }

  lemma TimesNone(t: Token)
    ensures Times([], t) == 0
  {
  }

  lemma {:induction false} FailTokensAs(log: seq<Signal>, ts: seq<Token>, error: Error, t: Token, a: Answer)
    ensures CountAs(FailTokens(log, ts, error), t, a) == CountAs(log, t, a) + if a == Refused(error) then Times(ts, t) else 0
  {
    if ts != [] {
      var n := |ts| - 1;
      FailTokensAs(log, ts[..n], error, t, a);
      CountSnoc(FailTokens(log, ts[..n], error), RequestFailed(ts[n], error), t, a);
    }
  }

  lemma {:induction false} FailAllAs(m: Manager, objs: seq<Object>, error: Error, t: Token, a: Answer)
    ensures CountAs(FailAll(m, objs, error).log, t, a) + (if a == Refused(error) then Waiting(FailAll(m, objs, error).queued, t) else 0)
      == CountAs(m.log, t, a) + (if a == Refused(error) then Waiting(m.queued, t) else 0)
  {
    if objs != [] {
      var before, o := objs[..|objs| - 1], objs[|objs| - 1];
      var p := FailAll(m, before, error);
      FailAllAs(m, before, error, t, a);
      FailSnoc(m, objs, error);
      hide FailAll, CountAs, Times, Waiting, FailTokens;
      FailTokensAs(p.log, Queue(p.queued, o), error, t, a);
      WaitingRemove(p.queued, o, t);
    }
  }

  /** All that waits, waits where the fate says. */
  lemma WaitingOf(m: Manager, f: Fate, t: Token)
    requires Agrees(m, f, t)
    ensures Waiting(m.queued, t) == if f.Waits? then 1 else 0
  {
    hide CountAs, Times, Waiting;
    QueuesWait(m, f, t);
  }

  // ----- every handler does what the fate says -----

  /** What a room that comes up answers on one object. */
  function DueOnReady(m: Manager, c: ChanId, t: Token, a: Answer): nat
    requires c in m.chans
  {
    if !a.New? || !OnBus(m, a.obj) then 0
    else if a.obj == Text(c) || (a.obj.Tube? && a.obj.tube in Queue(m.textNeeded, c)) then Times(Queue(m.queued, a.obj), t)
    else 0
  }

  lemma AnnounceTextAs(m: Manager, c: ChanId, t: Token, a: Answer)
    requires c in m.chans
    ensures CountAs(AnnounceText(m, c).log, t, a) ==
      CountAs(m.log, t, a) + if a == New(Text(c)) && m.chans[c].registered then Times(Queue(m.queued, Text(c)), t) else 0
  {
    AnnounceAllAs(m, [Text(c)], t, a);
    hide AnnounceAll, CountAs, Times;
  }

  lemma ReadyCallbackAs(m: Manager, c: ChanId, t: Token, a: Answer)
    requires c in m.chans
    ensures CountAs(ReadyCallback(m, c).log, t, a) == CountAs(m.log, t, a) + DueOnReady(m, c, t, a)
  {
    var m1, objs := AnnounceText(m, c), TubeObjects(Queue(m.textNeeded, c));
    AnnounceTextAs(m, c, t, a);
    AnnounceAllAs(m1, objs, t, a);
    AnnounceTextHolds(m, c, t);
    InTubeObjects(Queue(m.textNeeded, c));
    hide AnnounceAll, AnnounceText, CountAs, Times;
    if a.New? {
      assert a.obj in objs <==> a.obj in Elems(objs);
      assert Closed(m1, a.obj) == Closed(m, a.obj);
    }
  }

  lemma ReadyAgrees(m: Manager, c: ChanId, f: Fate, t: Token)
    requires Inv(m) && c in m.chans && Agrees(m, f, t)
    ensures Agrees(ReadyStep(m, c), NextFate(m, f, Ready(c), t), t)
  {
    var m1 := m.(chans := m.chans[c := m.chans[c].(ready := true)]);
    var g := NextFate(m, f, Ready(c), t);
    ReadyCallbackFrame(m1, c);
    MucHistory.WaitersAtHome(m, c);
    WaitsQueued(m, f, t);
    TimesNone(t);
    assert Waiters(m1, c) == Waiters(m, c);
    hide Inv, ReadyCallback, CountAs, Times, DueOnReady;
    forall a: Answer ensures CountAs(ReadyStep(m, c).log, t, a) == if g == Answered(a) then 1 else 0 {
      ReadyCallbackAs(m1, c, t, a);
      DueIs(m, c, f, t, a);
      assert DueOnReady(m1, c, t, a) == DueOnReady(m, c, t, a) by { DueSame(m, m1, c, t, a); }
    }
  }

  lemma DueSame(m: Manager, m1: Manager, c: ChanId, t: Token, a: Answer)
    requires c in m.chans && m1 == m.(chans := m.chans[c := m.chans[c].(ready := true)])
    ensures DueOnReady(m1, c, t, a) == DueOnReady(m, c, t, a)
  {
    hide Times;
  }

  lemma DueIs(m: Manager, c: ChanId, f: Fate, t: Token, a: Answer)
    requires c in m.chans && Agrees(m, f, t)
    ensures DueOnReady(m, c, t, a) == if a.New? && f == Waits(a.obj) && a.obj in Waiters(m, c) && OnBus(m, a.obj) then 1 else 0
  {
    hide CountAs, Times, OnBus;
  }

  /** What waits where the fate says is queued there. */
  lemma WaitsQueued(m: Manager, f: Fate, t: Token)
    requires Agrees(m, f, t)
    ensures f.Waits? ==> f.obj in m.queued
  {
    TimesNone(t);
    hide CountAs;
  }

  lemma LostAgrees(m: Manager, c: ChanId, f: Fate, t: Token)
    requires Inv(m) && c in m.chans && Agrees(m, f, t)
    ensures Agrees(LostStep(m, c), NextFate(m, f, Lost(c), t), t)
  {
    MucHistory.WaitersAtHome(m, c);
    MucHistory.HomesKnown(m);
    WaitsQueued(m, f, t);
    hide Inv, JoinError, Agrees, MucHistory.AllHomed;
    if m.chans[c].ready {
      assert NextFate(m, f, Lost(c), t) == f;
      QueuesSame(m, LostStep(m, c), f, t);
    } else {
      JoinErrorFrame(m, c, NetworkError);
      JoinErrorAgrees(m, c, f, t);
      QueuesSame(JoinError(m, c, NetworkError), LostStep(m, c), NextFate(m, f, Lost(c), t), t);
    }
  }

  lemma JoinErrorAgrees(m: Manager, c: ChanId, f: Fate, t: Token)
    requires Agrees(m, f, t)
    ensures Agrees(JoinError(m, c, NetworkError), if f.Waits? && f.obj in Waiters(m, c) then Answered(Refused(NetworkError)) else f, t)
  {
    JoinErrorFrame(m, c, NetworkError);
    JoinErrorAs(m, c, f, t);
    TimesNone(t);
    hide JoinError, CountAs, Times, Waiters;
  }

  /** A join error refuses what waits on the room. */
  lemma JoinErrorAs(m: Manager, c: ChanId, f: Fate, t: Token)
    requires Agrees(m, f, t)
    ensures var r := JoinError(m, c, NetworkError);
      forall a: Answer :: CountAs(r.log, t, a) == CountAs(m.log, t, a) +
        if a == Refused(NetworkError) && f.Waits? && f.obj in Waiters(m, c) then 1 else 0
  {
    var objs := TubeObjects(Queue(m.textNeeded, c));
    var m1 := FailAll(m, [Text(c)], NetworkError);
    var r := JoinError(m, c, NetworkError);
    JoinErrorFrame(m, c, NetworkError);
    WaitingOf(m, f, t);
    WaitingLeft(m, r, Waiters(m, c), f, t);
    hide FailAll, CountAs, Times, Waiting, Waiters, Agrees;
    forall a: Answer ensures CountAs(r.log, t, a) == CountAs(m.log, t, a) +
      if a == Refused(NetworkError) && f.Waits? && f.obj in Waiters(m, c) then 1 else 0
    {
      FailAllAs(m, [Text(c)], NetworkError, t, a);
      FailAllAs(m1, objs, NetworkError, t, a);
    }
  }

  lemma WaitingLeft(m: Manager, r: Manager, gone: set<Object>, f: Fate, t: Token)
    requires Agrees(m, f, t) && r.queued == m.queued - gone
    ensures Waiting(r.queued, t) == if f.Waits? && f.obj !in gone then 1 else 0
  {
    TimesNone(t);
    var g := if f.Waits? && f.obj !in gone then f else Dropped;
    hide CountAs, Times, Waiting;
    assert forall o :: Times(Queue(r.queued, o), t) == if g == Waits(o) then 1 else 0;
    QueuesWait(r, g, t);
  }

  lemma QueuesWait(m: Manager, f: Fate, t: Token)
    requires forall o: Object :: Times(Queue(m.queued, o), t) == if f == Waits(o) then 1 else 0
    ensures Waiting(m.queued, t) == if f.Waits? then 1 else 0
  {
    hide Times;
    forall o | o in m.queued && f != Waits(o) ensures t !in m.queued[o] {
      TimesIn(Queue(m.queued, o), t);
    }
    if f.Waits? {
      WaitingRemove(m.queued, f.obj, t);
      WaitingZero(m.queued - {f.obj}, t);
    } else {
      WaitingZero(m.queued, t);
    }
  }

  lemma CloseAllAgrees(m: Manager, order: seq<Object>, f: Fate, t: Token)
    requires Inv(m) && Possible(m, CloseAll(order)) && Agrees(m, f, t)
    ensures Agrees(CloseAllStep(m, order), NextFate(m, f, CloseAll(order), t), t)
  {
    FailAllFrame(m, order, Error.Disconnected);
    WaitingOf(m, f, t);
    TimesNone(t);
    var r := FailAll(m, order, Error.Disconnected);
    assert r.queued == map[];
    WaitingZero(r.queued, t);
    hide FailAll, CountAs, Times, Waiting, Inv;
    forall a: Answer ensures CountAs(r.log, t, a) == if NextFate(m, f, CloseAll(order), t) == Answered(a) then 1 else 0 {
      FailAllAs(m, order, Error.Disconnected, t, a);
    }
  }

  /** One signal more, and at most one token more waits, on `o`. */
  lemma SignalAgrees(m: Manager, r: Manager, s: Signal, f: Fate, t: Token)
    requires Agrees(m, f, t) && r.log == m.log + [s] && r.queued == m.queued
    requires forall a: Answer :: AnswersAs(s, t, a) == 0
    ensures Agrees(r, f, t)
  {
    hide CountAs, Times;
    forall a: Answer ensures CountAs(r.log, t, a) == CountAs(m.log, t, a) {
      CountSnoc(m.log, s, t, a);
    }
  }

  lemma AnswerAgrees(m: Manager, r: Manager, s: Signal, answer: Answer, u: Token, f: Fate, t: Token)
    requires Agrees(m, f, t) && (u == t ==> f == Unasked) && r.log == m.log + [s] && r.queued == m.queued
    requires s == (match answer case New(o) => NewChannel(o, [u]) case Already(o) => AlreadySatisfied(u, o) case Refused(x) => RequestFailed(u, x))
    ensures Agrees(r, if u == t then Answered(answer) else f, t)
  {
    TimesAppend([], u, t);
    assert [] + [u] == [u];
    hide CountAs;
    forall a: Answer ensures CountAs(r.log, t, a) == CountAs(m.log, t, a) + if u == t && a == answer then 1 else 0 {
      CountSnoc(m.log, s, t, a);
    }
  }

  lemma QueueAgrees(m: Manager, r: Manager, o: Object, u: Token, f: Fate, t: Token)
    requires Agrees(m, f, t) && (u == t ==> f == Unasked) && r.log == m.log && r.queued == Enqueue(m.queued, o, u)
    ensures Agrees(r, if u == t then Waits(o) else f, t)
  {
    TimesAppend(Queue(m.queued, o), u, t);
    hide CountAs, Times;
  }

  /** A fresh room answers nothing and lets nothing wait. */
  lemma NewRoomAgrees(m: Manager, room: Room, registered: bool, readyNow: bool, f: Fate, t: Token)
    requires Inv(m) && room !in m.textChannels && Agrees(m, f, t)
    ensures Agrees(NewMucChannel(m, room, registered, readyNow), f, t)
  {
    var r := NewMucChannel(m, room, registered, readyNow);
    NewMucChannelKeeps(m, room, registered, readyNow);
    if readyNow {
      var m1 := m.(chans := m.chans[m.next := Channel(room, registered, true, false, {})],
                   textChannels := m.textChannels[room := m.next], next := m.next + 1);
      FreshIdle(m);
      TimesNone(t);
      hide Inv, ReadyCallback, CountAs, Times;
      forall a: Answer ensures CountAs(r.log, t, a) == CountAs(m.log, t, a) {
        ReadyCallbackAs(m1, m.next, t, a);
      }
    }
    hide Inv, ReadyCallback, CountAs, Times;
  }

  lemma FreshIdle(m: Manager)
    requires Inv(m)
    ensures Queue(m.queued, Text(m.next)) == [] && Queue(m.textNeeded, m.next) == []
  {
    hide RoomsMatch, ChannelsOk, ReadyIdle, WaitingListed;
  }

  lemma KnownTextAgrees(m: Manager, u: Token, room: Room, requireNew: bool, net: Network, f: Fate, t: Token)
    requires Inv(m) && room in m.textChannels && Agrees(m, f, t) && (u == t ==> f == Unasked)
    ensures Agrees(HandleKnownText(m, u, m.textChannels[room], requireNew),
                   NextFate(m, f, RequestText(u, room, requireNew, true, net), t), t)
  {
    hide Agrees, ChannelsOk, ReadyIdle, WaitingListed, IdsFresh;
    var c := m.textChannels[room];
    var r := HandleKnownText(m, u, c, requireNew);
    var chan := m.chans[c];
    if chan.registered {
      var a := if requireNew then Refused(NotAvailable) else Already(Text(c));
      AnswerAgrees(m, r, r.log[|m.log|], a, u, f, t);
    } else if chan.ready {
      AnswerAgrees(m, r, NewChannel(Text(c), [u]), New(Text(c)), u, f, t);
    } else {
      QueueAgrees(m, r, Text(c), u, f, t);
    }
  }

  lemma TextAgrees(m: Manager, u: Token, room: Room, requireNew: bool, ok: bool, net: Network, f: Fate, t: Token)
    requires Inv(m) && Agrees(m, f, t) && (u == t ==> f == Unasked)
    ensures Agrees(HandleText(m, u, room, requireNew, ok, net), NextFate(m, f, RequestText(u, room, requireNew, ok, net), t), t)
  {
    hide ChannelsOk, ReadyIdle, WaitingListed, IdsFresh;
    var r := HandleText(m, u, room, requireNew, ok, net);
    if !ok {
      AnswerAgrees(m, r, RequestFailed(u, InvalidRequest), Refused(InvalidRequest), u, f, t);
    } else if room in m.textChannels {
      KnownTextAgrees(m, u, room, requireNew, net, f, t);
    } else if net.connects {
      var p := NewMucChannel(m, room, true, net.readyNow);
      NewRoomAgrees(m, room, true, net.readyNow, f, t);
      hide NewMucChannel, Agrees;
      if net.readyNow {
        AnswerAgrees(p, r, NewChannel(Text(m.next), [u]), New(Text(m.next)), u, f, t);
      } else {
        QueueAgrees(p, r, Text(m.next), u, f, t);
      }
    } else {
      DropAgrees(m, u, f, t);
    }
    hide Agrees, HandleKnownText, NewMucChannel, Inv;
  }

  lemma DropAgrees(m: Manager, u: Token, f: Fate, t: Token)
    requires Agrees(m, f, t) && (u == t ==> f == Unasked)
    ensures Agrees(m, if u == t then Dropped else f, t)
  {
  }

  lemma TubeOnAgrees(m: Manager, c: ChanId, u: Token, f: Fate, t: Token)
    requires c in m.chans && Agrees(m, f, t) && (u == t ==> f == Unasked)
    ensures var o := Tube(m.next);
      Agrees(TubeOn(m, c, u), if u != t then f else if m.chans[c].ready then Answered(New(o)) else Waits(o), t)
  {
    hide Agrees;
    var r, o := TubeOn(m, c, u), Tube(m.next);
    if m.chans[c].ready {
      AnswerAgrees(m, r, NewChannel(o, [u]), New(o), u, f, t);
    } else {
      QueueAgrees(m, r, o, u, f, t);
    }
  }

  lemma TubeAgrees(m: Manager, u: Token, room: Room, ok: bool, net: Network, f: Fate, t: Token)
    requires Inv(m) && Agrees(m, f, t) && (u == t ==> f == Unasked)
    ensures Agrees(HandleTube(m, u, room, ok, net), NextFate(m, f, RequestTube(u, room, ok, net), t), t)
  {
    var r := HandleTube(m, u, room, ok, net);
    hide ChannelsOk, ReadyIdle, WaitingListed, IdsFresh;
    if !ok {
      AnswerAgrees(m, r, RequestFailed(u, InvalidRequest), Refused(InvalidRequest), u, f, t);
    } else if room in m.textChannels {
      TubeOnAgrees(m, m.textChannels[room], u, f, t);
    } else if net.connects {
      NewTubeAgrees(m, u, room, net, f, t);
    } else {
      AnswerAgrees(m, r, RequestFailed(u, NetworkError), Refused(NetworkError), u, f, t);
    }
    hide Agrees, TubeOn, RequestNew, Inv;
  }

  lemma NewTubeAgrees(m: Manager, u: Token, room: Room, net: Network, f: Fate, t: Token)
    requires Inv(m) && room !in m.textChannels && net.connects && Agrees(m, f, t) && (u == t ==> f == Unasked)
    ensures Agrees(HandleTube(m, u, room, true, net), NextFate(m, f, RequestTube(u, room, true, net), t), t)
  {
    hide ChannelsOk, ReadyIdle, WaitingListed, IdsFresh, RoomsMatch, Agrees;
    var p := NewMucChannel(m, room, false, net.readyNow);
    NewRoomAgrees(m, room, false, net.readyNow, f, t);
    NewMucChannelKeeps(m, room, false, net.readyNow);
    ChannelStays(m, room, net.readyNow);
    hide NewMucChannel;
    TubeOnAgrees(p, m.next, u, f, t);
    hide TubeOn;
  }

  lemma InviteAgrees(m: Manager, room: Room, net: Network, f: Fate, t: Token)
    requires Inv(m) && Agrees(m, f, t)
    ensures Agrees(HandleInvite(m, room, net), f, t)
  {
    if room !in m.textChannels && net.connects {
      NewRoomAgrees(m, room, true, net.readyNow, f, t);
      var p := NewMucChannel(m, room, true, net.readyNow);
      TimesNone(t);
      SignalAgrees(p, HandleInvite(m, room, net), NewChannel(Text(m.next), []), f, t);
    }
    hide Inv, NewMucChannel, Agrees;
  }

  lemma {:induction false} AnnouncedAgrees(m: Manager, c: ChanId, n: nat, f: Fate, t: Token)
    requires c in m.chans && Agrees(m, f, t)
    ensures Agrees(AnnouncedTubes(m, c, n), f, t)
  {
    if n > 0 {
      var p := AnnouncedTubes(m, c, n - 1);
      AnnouncedAgrees(m, c, n - 1, f, t);
      TimesNone(t);
      hide Agrees;
      SignalAgrees(p, AnnouncedTubes(m, c, n), NewChannel(Tube(p.next), []), f, t);
    }
  }

  lemma StanzaAgrees(m: Manager, c: ChanId, n: nat, f: Fate, t: Token)
    requires c in m.chans && Agrees(m, f, t)
    ensures Agrees(AnnouncedTubes(Reappear(m, c), c, n), f, t)
  {
    TimesNone(t);
    if !m.chans[c].registered {
      SignalAgrees(m, Reappear(m, c), NewChannel(Text(c), []), f, t);
    }
    AnnouncedAgrees(Reappear(m, c), c, n, f, t);
    hide AnnouncedTubes;
  }

  lemma StepAgrees(m: Manager, f: Fate, e: Event, t: Token)
    requires Inv(m) && Possible(m, e) && Agrees(m, f, t) && (Accepted(e, t) > 0 ==> f == Unasked)
    ensures Agrees(Step(m, e), NextFate(m, f, e, t), t)
  {
    match e {
      case RequestText(u, room, requireNew, ok, net) => TextAgrees(m, u, room, requireNew, ok, net, f, t);
      case RequestTube(u, room, ok, net) => TubeAgrees(m, u, room, ok, net, f, t);
      case Invited(room, net) => InviteAgrees(m, room, net, f, t);
      case Ready(c) => ReadyAgrees(m, c, f, t);
      case Lost(c) => LostAgrees(m, c, f, t);
      case Leave(_) => GoneAgrees(m, e, f, t);
      case Close(_) => GoneAgrees(m, e, f, t);
      case TubeClosed(_) => GoneAgrees(m, e, f, t);
      case Stanza(c, n) => StanzaAgrees(m, c, n, f, t);
      case CloseAll(order) => CloseAllAgrees(m, order, f, t);
    }
    hide Inv, Agrees, HandleText, HandleTube, HandleInvite, ReadyStep, LostStep, AnnouncedTubes, Reappear, CloseAllStep, OnBus,
         CloseText, DropTube;
  }

  lemma GoneAgrees(m: Manager, e: Event, f: Fate, t: Token)
    requires Inv(m) && Possible(m, e) && (e.Leave? || e.Close? || e.TubeClosed?) && Agrees(m, f, t)
    ensures Agrees(Step(m, e), f, t)
  {
    hide Inv, Agrees;
    QueuesSame(m, Step(m, e), f, t);
  }

  lemma QueuesSame(m: Manager, r: Manager, f: Fate, t: Token)
    requires Agrees(m, f, t) && r.log == m.log && r.queued == m.queued
    ensures Agrees(r, f, t)
  {
  }

  // ----- whole runs -----

  ghost function FateAfter(m: Manager, f: Fate, es: seq<Event>, t: Token): Fate
    requires Inv(m) && IsRun(m, es)
    decreases |es|
  {
    if es == [] then f else StepKeeps(m, es[0]); FateAfter(Step(m, es[0]), NextFate(m, f, es[0], t), es[1..], t)
  }

  lemma FateMoves(m: Manager, f: Fate, e: Event, t: Token)
    requires Inv(m)
    ensures NextFate(m, f, e, t) != Unasked ==> f != Unasked || Accepted(e, t) == 1
  {
    hide Inv;
  }

  lemma {:induction false} RunAgrees(m: Manager, f: Fate, es: seq<Event>, t: Token)
    requires Inv(m) && IsRun(m, es) && Agrees(m, f, t) && AcceptedIn(es, t) + (if f == Unasked then 0 else 1) <= 1
    ensures Agrees(After(m, es), FateAfter(m, f, es, t), t)
    decreases |es|
  {
    if es != [] {
      StepKeeps(m, es[0]);
      hide Inv, Step, Possible, NextFate, Agrees, Accepted;
      StepAgrees(m, f, es[0], t);
      FateMoves(m, f, es[0], t);
      RunAgrees(Step(m, es[0]), NextFate(m, f, es[0], t), es[1..], t);
    }
  }

  /** Which answer a token gets. Over any run a token used for one request has been given exactly the one answer its fate
      says, in these very words, or waits for exactly the object its fate says. */
  lemma AnswerIsFate(es: seq<Event>, t: Token)
    requires IsRun(Init, es) && AcceptedIn(es, t) <= 1
    ensures var m, f := After(Init, es), FateAfter(Init, Unasked, es, t);
      && (forall a: Answer :: CountAs(m.log, t, a) == if f == Answered(a) then 1 else 0)
      && (forall o: Object :: Times(Queue(m.queued, o), t) == if f == Waits(o) then 1 else 0)
  {
    assert Agrees(Init, Unasked, t);
    RunAgrees(Init, Unasked, es, t);
  }

  function ObjectOf(f: Fate): Option<Object> {
    match f
    case Waits(o) => Some(o)
    case Answered(New(o)) => Some(o)
    case Answered(Already(o)) => Some(o)
    case _ => None
  }

  /** `o` is the live text channel of the room, or a tube of it. */
  predicate OfRoom(m: Manager, o: Object, room: Room) {
    var c := MucHistory.Home(m.owner, o);
    c.Some? && c.value in m.chans && m.chans[c.value].room == room
  }

  lemma TextObject(m: Manager, e: Event, t: Token)
    requires Inv(m) && Possible(m, e) && e.RequestText? && e.token == t
    ensures var o := ObjectOf(NextFate(m, Unasked, e, t)); o.Some? ==> OfRoom(Step(m, e), o.value, e.room) && o.value.Text?
  {
    hide ChannelsOk, ReadyIdle, WaitingListed;
    MucHistory.FreeRoom(m, e.room);
    MucHistory.StepLife(m, e, if e.room in m.textChannels then m.textChannels[e.room] else m.next);
    hide Step, MucHistory.RoomFree;
  }

  lemma TubeObject(m: Manager, e: Event, t: Token)
    requires Inv(m) && Possible(m, e) && e.RequestTube? && e.token == t
    ensures var o := ObjectOf(NextFate(m, Unasked, e, t)); o.Some? ==> OfRoom(Step(m, e), o.value, e.room) && o.value.Tube?
  {
    if e.wellFormed && e.room in m.textChannels {
      KnownOwner(m, e);
      RoomStays(m, e, m.textChannels[e.room]);
    } else if e.wellFormed && e.net.connects {
      NewOwner(m, e);
      RoomStays(m, e, m.next);
    }
    hide Inv, Step;
  }

  lemma RoomStays(m: Manager, e: Event, c: ChanId)
    requires Inv(m) && Possible(m, e) && e.RequestTube? && e.wellFormed
    requires if e.room in m.textChannels then c == m.textChannels[e.room] else e.net.connects && c == m.next
    ensures var r := Step(m, e); c in r.chans && r.chans[c].room == e.room
  {
    MucHistory.FreeRoom(m, e.room);
    MucHistory.StepLife(m, e, c);
    hide Step, MucHistory.RoomFree, ChannelsOk, ReadyIdle, WaitingListed;
  }

  lemma KnownOwner(m: Manager, e: Event)
    requires Inv(m) && Possible(m, e) && e.RequestTube? && e.wellFormed && e.room in m.textChannels
    ensures Step(m, e).owner == m.owner[m.next := m.textChannels[e.room]]
  {
    hide ChannelsOk, ReadyIdle, WaitingListed;
  }

  lemma NewOwner(m: Manager, e: Event)
    requires Inv(m) && Possible(m, e) && e.RequestTube? && e.wellFormed && e.room !in m.textChannels && e.net.connects
    ensures Step(m, e).owner == m.owner[m.next + 1 := m.next]
  {
    NewMucChannelKeeps(m, e.room, false, e.net.readyNow);
    ChannelStays(m, e.room, e.net.readyNow);
    hide Inv, NewMucChannel;
  }

  lemma {:induction false} ObjectStays(m: Manager, f: Fate, es: seq<Event>, t: Token)
    requires Inv(m) && IsRun(m, es) && AcceptedIn(es, t) == 0
    ensures var g := FateAfter(m, f, es, t); ObjectOf(g) == None || ObjectOf(g) == ObjectOf(f)
    decreases |es|
  {
    if es != [] {
      StepKeeps(m, es[0]);
      hide Inv, Step, Possible;
      ObjectStays(Step(m, es[0]), NextFate(m, f, es[0], t), es[1..], t);
    }
  }

  /** What a request is given, or waits for, is of the room it asked for: the text channel for a text request, and a tube of it
      for a tube request, whatever happens between. */
  lemma GivenWhatWasAskedFor(past: seq<Event>, e: Event, more: seq<Event>, t: Token)
    requires IsRun(Init, past) && Accepted(e, t) == 1 && AcceptedIn(more, t) == 0
    requires (RunKeeps(Init, past); Possible(After(Init, past), e))
    requires (RunKeeps(Init, past); StepKeeps(After(Init, past), e); IsRun(Step(After(Init, past), e), more))
    ensures (RunKeeps(Init, past); StepKeeps(After(Init, past), e);
      var m := After(Init, past);
      var r := Step(m, e);
      var o := ObjectOf(FateAfter(r, NextFate(m, Unasked, e, t), more, t));
      o.Some? ==> OfRoom(r, o.value, e.room) && (o.value.Text? <==> e.RequestText?))
  {
    RunKeeps(Init, past);
    var m := After(Init, past);
    StepKeeps(m, e);
    if e.RequestText? {
      TextObject(m, e, t);
    } else {
      TubeObject(m, e, t);
    }
    ObjectStays(Step(m, e), NextFate(m, Unasked, e, t), more, t);
    hide Inv, Step, Possible, NextFate, OfRoom;
  }

  // ----- what is announced although nobody asked -----

  /** A stanza announces a hidden text channel again, and each new tube. */
  lemma StanzaAnnounces(m: Manager, c: ChanId, n: nat)
    requires Inv(m) && m.open && c in m.chans
    ensures Step(m, Stanza(c, n)).log == m.log + (if m.chans[c].registered then [] else [NewChannel(Text(c), [])])
              + seq(n, i requires 0 <= i < n => NewChannel(Tube(m.next + i), []))
  {
    AnnouncedLog(Reappear(m, c), c, n);
    hide AnnouncedTubes, Inv;
  }

  /** An invitation announces the text channel it makes. */
  lemma InvitationAnnounces(m: Manager, room: Room, net: Network)
    requires Inv(m) && m.open && MucHistory.Makes(m, Invited(room, net)).Some?
    ensures var r := Step(m, Invited(room, net)); r.log != [] && r.log[|r.log| - 1] == NewChannel(Text(m.next), [])
  {
    MucHistory.FreeRoom(m, room);
    hide Inv, NewMucChannel, MucHistory.RoomFree;
  }

  lemma {:induction false} AnnouncedLog(m: Manager, c: ChanId, n: nat)
    requires c in m.chans
    ensures var r := AnnouncedTubes(m, c, n);
      r.next == m.next + n && r.log == m.log + seq(n, i requires 0 <= i < n => NewChannel(Tube(m.next + i), []))
  {
    if n > 0 {
      AnnouncedLog(m, c, n - 1);
    }
  }

  /** A room that comes up announces its text channel, if that is on the bus, and then each tube listed under it, in order, once;
      of those that closed meanwhile there is nothing to announce. */
  lemma ReadyAnnounces(m: Manager, c: ChanId)
    requires Inv(m) && m.open && c in m.chans
    ensures var r, ts := Step(m, Ready(c)), Queue(m.textNeeded, c);
      var at := |m.log| + if m.chans[c].registered then 1 else 0;
      && |r.log| == at + |ts| && m.log <= r.log
      && (m.chans[c].registered ==> r.log[|m.log|] == NewChannel(Text(c), Queue(m.queued, Text(c))))
      && forall k :: 0 <= k < |ts| ==> Announces(r.log[at + k], Tube(ts[k]), OnBus(m, Tube(ts[k])))
  {
    hide Inv;
    var ts := Queue(m.textNeeded, c);
    var m1 := m.(chans := m.chans[c := m.chans[c].(ready := true)]);
    var p := AnnounceText(m1, c);
    TextAnnounced(m1, c);
    AnnouncedInOrder(p, TubeObjects(ts));
    hide AnnounceAll, AnnounceText;
    assert forall k :: 0 <= k < |ts| ==> Closed(p, Tube(ts[k])) == !OnBus(m, Tube(ts[k]));
  }

  lemma TextAnnounced(m: Manager, c: ChanId)
    requires c in m.chans
    ensures var p := AnnounceText(m, c);
      && p.owner == m.owner && p.chans == m.chans && p.textNeeded == m.textNeeded
      && p.log == m.log + if m.chans[c].registered then [NewChannel(Text(c), Queue(m.queued, Text(c)))] else []
  {
    AnnounceAllFrame(m, [Text(c)]);
    AnnounceSnoc(m, [Text(c)]);
    assert [Text(c)][..0] == [];
    assert AnnounceAll(m, []) == m;
  }

  /** The signal announces `o`, or would if it were there. */
  predicate Announces(s: Signal, o: Object, there: bool) {
    if there then s.NewChannel? && s.obj == o else s.Dangling? && s.obj == o
  }

  lemma {:induction false} AnnouncedInOrder(m: Manager, objs: seq<Object>)
    ensures var r := AnnounceAll(m, objs);
      && m.log <= r.log && |r.log| == |m.log| + |objs|
      && (objs != [] ==> r.log[|m.log|] == Announcement(m, objs[0]))
      && forall k :: 0 <= k < |objs| ==>
           Announces(r.log[|m.log| + k], objs[k], !Closed(m, objs[k]))
  {
    if objs != [] {
      AnnouncedInOrder(m, objs[..|objs| - 1]);
      AnnounceAllFrame(m, objs[..|objs| - 1]);
      AnnounceSnoc(m, objs);
    }
  }
}
