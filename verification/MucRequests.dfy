/** What the room manager's tables mean: every handler as a step on a value, the invariant
    all steps keep, and where every accepted request token is at any time.
    Text channels and tubes have identities that are never reused. */
module MucRequests {
  import opened Collections

  type Token = nat
  type Room = nat
  type ChanId = nat
  type TubeId = nat

  datatype Object = Text(chan: ChanId) | Tube(tube: TubeId)

  datatype Error = NotAvailable | InvalidRequest | NetworkError | Disconnected

  /** `Dangling` stands for announcing a tube that closed while it waited: the source still has it in its list, but the
      object is gone, so it answers nobody. */
  datatype Signal =
    | NewChannel(obj: Object, satisfied: seq<Token>)
    | AlreadySatisfied(token: Token, obj: Object)
    | Dangling(obj: Object, waiting: seq<Token>)
    | RequestFailed(token: Token, error: Error)

  /** A live text channel. */
  datatype Channel = Channel(room: Room, registered: bool, ready: bool, autoclose: bool, tubes: set<TubeId>)

  datatype Manager = Manager(
    chans: map<ChanId, Channel>,
    textChannels: map<Room, ChanId>,
    queued: map<Object, seq<Token>>,
    textNeeded: map<ChanId, seq<TubeId>>,
    owner: map<TubeId, ChanId>,
    log: seq<Signal>,
    next: nat,
    open: bool)

  const Init := Manager(map[], map[], map[], map[], map[], [], 0, true)

  datatype Event =
    | RequestText(token: Token, room: Room, requireNew: bool, wellFormed: bool, net: Network)
    | RequestTube(token: Token, room: Room, wellFormed: bool, net: Network)
    | Invited(room: Room, net: Network)
    | Ready(chan: ChanId)
    | Lost(chan: ChanId)
    | Leave(chan: ChanId)
    | Close(chan: ChanId)
    | TubeClosed(tube: TubeId)
    | Stanza(chan: ChanId, newTubes: nat)
    | CloseAll(order: seq<Object>)

  /** How creating and connecting a room connection turns out, and whether the new channel is ready at once. */
  datatype Network = Network(connects: bool, readyNow: bool)

  // ----- the answers in a log -----

  /** How many times a signal answers the request with token `t`. */
  function AnswersTo(s: Signal, t: Token): nat {
    match s
    case NewChannel(_, ts) => Times(ts, t)
    case AlreadySatisfied(u, _) => if u == t then 1 else 0
    case Dangling(_, _) => 0
    case RequestFailed(u, _) => if u == t then 1 else 0
  }

  function Answers(log: seq<Signal>, t: Token): nat {
    if log == [] then 0 else Answers(log[..|log| - 1], t) + AnswersTo(log[|log| - 1], t)
  }

  lemma AnswersSnoc(log: seq<Signal>, s: Signal, t: Token)
    ensures Answers(log + [s], t) == Answers(log, t) + AnswersTo(s, t)
  {
    assert (log + [s])[..|log|] == log;
  }

  // ----- emitting for a list of objects -----

  /** `FAIL_REQUESTS`: one failure per waiting token, in order. */
  function FailTokens(log: seq<Signal>, ts: seq<Token>, error: Error): seq<Signal> {
    if ts == [] then log
    else FailTokens(log, ts[..|ts| - 1], error) + [RequestFailed(ts[|ts| - 1], error)]
  }

  lemma {:induction false} AnswersFailed(log: seq<Signal>, ts: seq<Token>, error: Error, t: Token)
    ensures Answers(FailTokens(log, ts, error), t) == Answers(log, t) + Times(ts, t)
  {
    if ts != [] {
      var n := |ts| - 1;
      AnswersSnoc(FailTokens(log, ts[..n], error), RequestFailed(ts[n], error), t);
      AnswersFailed(log, ts[..n], error, t);
    }
  }

  /** A tube that is no longer one of its text channel. */
  predicate Closed(m: Manager, o: Object) {
    o.Tube? && !(o.tube in m.owner && m.owner[o.tube] in m.chans && o.tube in m.chans[m.owner[o.tube]].tubes)
  }

  function Announcement(m: Manager, o: Object): Signal {
    if Closed(m, o) then Dangling(o, Queue(m.queued, o)) else NewChannel(o, Queue(m.queued, o))
  }

  /** Announce each object with the tokens waiting on it, in order. */
  function AnnounceAll(m: Manager, objs: seq<Object>): Manager {
    if objs == [] then m else
      var p := AnnounceAll(m, objs[..|objs| - 1]);
      var o := objs[|objs| - 1];
      p.(log := p.log + [Announcement(p, o)], queued := p.queued - {o})
  }

  /** Fail every token waiting on each object, in order. */
  function FailAll(m: Manager, objs: seq<Object>, error: Error): Manager {
    if objs == [] then m else
      var p := FailAll(m, objs[..|objs| - 1], error);
      var o := objs[|objs| - 1];
      p.(log := FailTokens(p.log, Queue(p.queued, o), error), queued := p.queued - {o})
  }

  function TubeObjects(ts: seq<TubeId>): (r: seq<Object>)
    ensures |r| == |ts| && forall i :: 0 <= i < |r| ==> r[i] == Tube(ts[i])
  {
    seq(|ts|, i requires 0 <= i < |ts| => Tube(ts[i]))
  }

  // ----- the handlers -----

  /** The first half of `muc_channel_ready_cb`: the text channel itself. */
  function AnnounceText(m: Manager, c: ChanId): Manager
    requires c in m.chans
  {
    if m.chans[c].registered then AnnounceAll(m, [Text(c)]) else m.(queued := m.queued - {Text(c)})
  }

  /** `muc_channel_ready_cb`. */
  function ReadyCallback(m: Manager, c: ChanId): Manager
    requires c in m.chans
  {
    var m1 := AnnounceText(m, c);
    var m2 := AnnounceAll(m1, TubeObjects(Queue(m.textNeeded, c)));
    m2.(textNeeded := m2.textNeeded - {c})
  }

  /** `muc_channel_join_error_cb`. */
  function JoinError(m: Manager, c: ChanId, error: Error): Manager {
    var m1 := FailAll(m, [Text(c)], error);
    var m2 := FailAll(m1, TubeObjects(Queue(m.textNeeded, c)), error);
    m2.(textNeeded := m2.textNeeded - {c})
  }

  /** `salut_muc_manager_new_muc_channel`: the channel made is `m.next`. */
  function NewMucChannel(m: Manager, room: Room, registered: bool, readyNow: bool): Manager {
    var c := m.next;
    var m1 := m.(chans := m.chans[c := Channel(room, registered, readyNow, false, {})],
                 textChannels := m.textChannels[room := c], next := c + 1);
    if readyNow then ReadyCallback(m1, c) else m1
  }

  /** The successful rest of `salut_muc_manager_request_new_muc_channel`. */
  function RequestNew(m: Manager, room: Room, token: Option<Token>, announce: bool, readyNow: bool): Manager {
    var c := m.next;
    var m1 := NewMucChannel(m, room, announce, readyNow);
    if !announce then m1
    else if readyNow then
      m1.(log := m1.log + [NewChannel(Text(c), if token.Some? then [token.value] else [])])
    else if token.Some? then m1.(queued := Enqueue(m1.queued, Text(c), token.value))
    else m1
  }

  /** A text channel request for a room whose text channel is `c`. */
  function HandleKnownText(m: Manager, token: Token, c: ChanId, requireNew: bool): Manager
    requires c in m.chans
  {
    var chan := m.chans[c];
    if requireNew && chan.registered then m.(log := m.log + [RequestFailed(token, NotAvailable)])
    else if chan.registered then m.(log := m.log + [AlreadySatisfied(token, Text(c))])
    else
      var m1 := m.(chans := m.chans[c := chan.(registered := true)]);
      if chan.ready then m1.(log := m1.log + [NewChannel(Text(c), [token])])
      else m1.(queued := Enqueue(m1.queued, Text(c), token))
  }

  function HandleText(m: Manager, token: Token, room: Room, requireNew: bool, wellFormed: bool, net: Network): Manager
    requires room in m.textChannels ==> m.textChannels[room] in m.chans
  {
    if !wellFormed then m.(log := m.log + [RequestFailed(token, InvalidRequest)])
    else if room in m.textChannels then HandleKnownText(m, token, m.textChannels[room], requireNew)
    else if net.connects then RequestNew(m, room, Some(token), true, net.readyNow)
    else m
  }

  /** `create_new_tube`: the tube made is `m.next`. */
  function AddTube(m: Manager, c: ChanId): Manager
    requires c in m.chans
  {
    var t := m.next;
    m.(chans := m.chans[c := m.chans[c].(tubes := m.chans[c].tubes + {t})],
       owner := m.owner[t := c], next := t + 1)
  }

  /** `handle_tube_channel_request` once the text channel `c` is there. */
  function TubeOn(m: Manager, c: ChanId, token: Token): Manager
    requires c in m.chans
  {
    var t := m.next;
    var m1 := AddTube(m, c);
    if m.chans[c].ready then m1.(log := m1.log + [NewChannel(Tube(t), [token])])
    else m1.(textNeeded := Enqueue(m1.textNeeded, c, t), queued := Enqueue(m1.queued, Tube(t), token))
  }

  function HandleTube(m: Manager, token: Token, room: Room, wellFormed: bool, net: Network): Manager
    requires room in m.textChannels ==> m.textChannels[room] in m.chans
  {
    if !wellFormed then m.(log := m.log + [RequestFailed(token, InvalidRequest)])
    else if room in m.textChannels then TubeOn(m, m.textChannels[room], token)
    else if net.connects then
      var m1 := RequestNew(m, room, None, false, net.readyNow);
      ChannelStays(m, room, net.readyNow);
      TubeOn(m1, m.next, token)
    else m.(log := m.log + [RequestFailed(token, NetworkError)])
  }

  function HandleInvite(m: Manager, room: Room, net: Network): Manager {
    if room in m.textChannels || !net.connects then m
    else
      var c := m.next;
      var m1 := NewMucChannel(m, room, true, net.readyNow);
      m1.(log := m1.log + [NewChannel(Text(c), [])])
  }

  /** The closed callback of a destroyed text channel, and its release. */
  function Destroy(m: Manager, c: ChanId): Manager
    requires c in m.chans
  {
    m.(textChannels := m.textChannels - {m.chans[c].room}, chans := m.chans - {c})
  }

  /** `salut_muc_channel_close`: hide behind the tubes, or go. */
  function CloseText(m: Manager, c: ChanId): Manager
    requires c in m.chans
  {
    if m.chans[c].tubes != {} then
      m.(chans := m.chans[c := m.chans[c].(autoclose := true, registered := false)])
    else Destroy(m, c)
  }

  /** `tube_closed_cb`, then `muc_channel_tube_closed_cb`. */
  function DropTube(m: Manager, t: TubeId): Manager
    requires t in m.owner && m.owner[t] in m.chans
  {
    var c := m.owner[t];
    var m1 := m.(chans := m.chans[c := m.chans[c].(tubes := m.chans[c].tubes - {t})]);
    if m1.chans[c].tubes == {} && m1.chans[c].autoclose then CloseText(m1, c) else m1
  }

  function Reappear(m: Manager, c: ChanId): Manager
    requires c in m.chans
  {
    var log := if m.chans[c].registered then m.log else m.log + [NewChannel(Text(c), [])];
    m.(chans := m.chans[c := m.chans[c].(registered := true, autoclose := false)], log := log)
  }

  function AnnouncedTubes(m: Manager, c: ChanId, n: nat): (r: Manager)
    requires c in m.chans
    ensures c in r.chans
  {
    if n == 0 then m else
      var p := AnnouncedTubes(m, c, n - 1);
      var t := p.next;
      var p1 := AddTube(p, c);
      p1.(log := p1.log + [NewChannel(Tube(t), [])])
  }

  function ReadyStep(m: Manager, c: ChanId): Manager
    requires c in m.chans
  {
    ReadyCallback(m.(chans := m.chans[c := m.chans[c].(ready := true)]), c)
  }

  /** The room connection goes away: a join error first if it was never up. */
  function LostStep(m: Manager, c: ChanId): Manager
    requires c in m.chans
  {
    var m1 := if m.chans[c].ready then m else JoinError(m, c, NetworkError);
    if !m.chans[c].ready then JoinErrorFrame(m, c, NetworkError); Destroy(m1, c) else Destroy(m1, c)
  }

  function CloseAllStep(m: Manager, order: seq<Object>): Manager {
    FailAll(m, order, Disconnected).(chans := map[], textChannels := map[], queued := map[], textNeeded := map[], open := false)
  }

  /** The events that can happen in a state: handlers run on live channels and tubes, before the manager closed. */
  ghost predicate Possible(m: Manager, e: Event) {
    && m.open
    && match e
       case Ready(c) => c in m.chans
       case Lost(c) => c in m.chans
       case Leave(c) => c in m.chans
       case Close(c) => c in m.chans
       case Stanza(c, _) => c in m.chans
       case TubeClosed(t) => t in m.owner && m.owner[t] in m.chans && t in m.chans[m.owner[t]].tubes
       case CloseAll(order) => forall o :: o in order <==> o in m.queued
       case _ => true
  }

  ghost function Step(m: Manager, e: Event): Manager
    requires Inv(m) && Possible(m, e)
  {
    match e
    case RequestText(token, room, requireNew, ok, net) => HandleText(m, token, room, requireNew, ok, net)
    case RequestTube(token, room, ok, net) => HandleTube(m, token, room, ok, net)
    case Invited(room, net) => HandleInvite(m, room, net)
    case Ready(c) => ReadyStep(m, c)
    case Lost(c) => LostStep(m, c)
    case Leave(c) => if m.chans[c].ready then m else Destroy(m, c)
    case Close(c) => CloseText(m, c)
    case TubeClosed(t) => DropTube(m, t)
    case Stanza(c, n) => AnnouncedTubes(Reappear(m, c), c, n)
    case CloseAll(order) => CloseAllStep(m, order)
  }

  // ----- the invariant -----

  /** Rooms and live channels name each other. */
  ghost predicate RoomsMatch(chans: map<ChanId, Channel>, textChannels: map<Room, ChanId>) {
    && (forall r :: r in textChannels ==> textChannels[r] in chans && chans[textChannels[r]].room == r)
    && (forall c :: c in chans ==> chans[c].room in textChannels && textChannels[chans[c].room] == c)
  }

  /** A text channel set to close itself has tubes to wait for, and its tubes know it. */
  ghost predicate ChannelOk(c: ChanId, chan: Channel, owner: map<TubeId, ChanId>) {
    && (chan.autoclose ==> chan.tubes != {})
    && (forall t :: t in chan.tubes ==> t in owner && owner[t] == c)
  }

  ghost predicate ChannelsOk(chans: map<ChanId, Channel>, owner: map<TubeId, ChanId>) {
    forall c :: c in chans ==> ChannelOk(c, chans[c], owner)
  }

  /** Nothing waits on a ready channel. */
  ghost predicate ReadyIdle(chans: map<ChanId, Channel>, textNeeded: map<ChanId, seq<TubeId>>, queued: map<Object, seq<Token>>) {
    forall c :: c in chans && chans[c].ready ==> c !in textNeeded && Text(c) !in queued
  }

  /** Every waiting tube is listed under its own text channel. */
  ghost predicate WaitingListed(queued: map<Object, seq<Token>>, textNeeded: map<ChanId, seq<TubeId>>, owner: map<TubeId, ChanId>) {
    && (forall t: TubeId :: Tube(t) in queued ==> t in owner && t in Queue(textNeeded, owner[t]))
    && (forall c :: c in textNeeded ==> forall t :: t in textNeeded[c] ==> t in owner && owner[t] == c)
  }

  ghost predicate IdsFresh(m: Manager) {
    && (forall c :: c in m.chans ==> c < m.next)
    && (forall c :: c in m.textNeeded ==> c < m.next)
    && (forall t :: t in m.owner ==> t < m.next)
    && (forall c: ChanId :: Text(c) in m.queued ==> c < m.next)
  }

  ghost predicate Inv(m: Manager) {
    && RoomsMatch(m.chans, m.textChannels)
    && ChannelsOk(m.chans, m.owner)
    && ReadyIdle(m.chans, m.textNeeded, m.queued)
    && WaitingListed(m.queued, m.textNeeded, m.owner)
    && IdsFresh(m)
  }

  // ----- what the list functions change -----

  /** The answers and the waiting tokens together: what a handler must not lose. */
  ghost function Held(m: Manager, t: Token): nat { Answers(m.log, t) + Waiting(m.queued, t) }

  /** Only the log grew, and only the queues of `gone` went. */
  ghost predicate Emptied(m: Manager, r: Manager, gone: set<Object>) {
    r == m.(log := r.log, queued := m.queued - gone)
  }

  lemma RemoveSnoc(queued: map<Object, seq<Token>>, objs: seq<Object>)
    requires objs != []
    ensures queued - Elems(objs) == queued - Elems(objs[..|objs| - 1]) - {objs[|objs| - 1]}
  {
    assert objs == objs[..|objs| - 1] + [objs[|objs| - 1]];
  }

  lemma {:induction false} AnnounceAllFrame(m: Manager, objs: seq<Object>)
    ensures Emptied(m, AnnounceAll(m, objs), Elems(objs))
  {
    if objs == [] {
      assert m.queued - {} == m.queued;
    } else {
      AnnounceSnoc(m, objs);
      RemoveSnoc(m.queued, objs);
      hide AnnounceAll;
      AnnounceAllFrame(m, objs[..|objs| - 1]);
    }
  }

  /** How often `t` waits on closed tubes among the objects. */
  ghost function DroppedIn(m: Manager, objs: seq<Object>, t: Token): nat {
    if objs == [] then 0
    else
      var o, before := objs[|objs| - 1], objs[..|objs| - 1];
      DroppedIn(m, before, t) + if Closed(m, o) && o !in before then Times(Queue(m.queued, o), t) else 0
  }

  lemma {:induction false} AnnounceAllHolds(m: Manager, objs: seq<Object>, t: Token)
    ensures Held(AnnounceAll(m, objs), t) + DroppedIn(m, objs, t) == Held(m, t)
  {
    if objs != [] {
      var n := |objs| - 1;
      var p := AnnounceAll(m, objs[..n]);
      AnnounceAllFrame(m, objs[..n]);
      AnnounceAllHolds(m, objs[..n], t);
      hide AnnounceAll, Answers, Waiting;
      AnswersSnoc(p.log, Announcement(p, objs[n]), t);
      WaitingRemove(p.queued, objs[n], t);
      assert AnnounceAll(m, objs) == p.(log := p.log + [Announcement(p, objs[n])], queued := p.queued - {objs[n]}) by {
        AnnounceSnoc(m, objs);
      }
    }
  }

  lemma AnnounceSnoc(m: Manager, objs: seq<Object>)
    requires objs != []
    ensures var p, o := AnnounceAll(m, objs[..|objs| - 1]), objs[|objs| - 1];
      AnnounceAll(m, objs) == p.(log := p.log + [Announcement(p, o)], queued := p.queued - {o})
  {
  }

  /** Something is dropped exactly when a token waits on a closed tube. */
  lemma {:induction false} DroppedInIff(m: Manager, objs: seq<Object>, t: Token)
    ensures DroppedIn(m, objs, t) > 0 <==> exists o :: o in objs && Closed(m, o) && t in Queue(m.queued, o)
  {
    if objs != [] {
      var o, before := objs[|objs| - 1], objs[..|objs| - 1];
      assert objs == before + [o];
      TimesIn(Queue(m.queued, o), t);
      DroppedInIff(m, before, t);
    }
  }

  lemma {:induction false} DroppedInSame(m: Manager, n: Manager, objs: seq<Object>, t: Token)
    requires forall o :: o in objs ==> Closed(n, o) == Closed(m, o) && Queue(n.queued, o) == Queue(m.queued, o)
    ensures DroppedIn(n, objs, t) == DroppedIn(m, objs, t)
  {
    if objs != [] {
      assert objs == objs[..|objs| - 1] + [objs[|objs| - 1]];
      DroppedInSame(m, n, objs[..|objs| - 1], t);
    }
  }

  lemma {:induction false} FailAllFrame(m: Manager, objs: seq<Object>, error: Error)
    ensures Emptied(m, FailAll(m, objs, error), Elems(objs))
  {
    if objs == [] {
      assert m.queued - {} == m.queued;
    } else {
      FailSnoc(m, objs, error);
      RemoveSnoc(m.queued, objs);
      hide FailAll, FailTokens;
      FailAllFrame(m, objs[..|objs| - 1], error);
    }
  }

  lemma FailSnoc(m: Manager, objs: seq<Object>, error: Error)
    requires objs != []
    ensures var p, o := FailAll(m, objs[..|objs| - 1], error), objs[|objs| - 1];
      FailAll(m, objs, error) == p.(log := FailTokens(p.log, Queue(p.queued, o), error), queued := p.queued - {o})
  {
  }

  lemma {:induction false} FailAllHolds(m: Manager, objs: seq<Object>, error: Error, t: Token)
    ensures Held(FailAll(m, objs, error), t) == Held(m, t)
  {
    if objs != [] {
      var n := |objs| - 1;
      var p := FailAll(m, objs[..n], error);
      AnswersFailed(p.log, Queue(p.queued, objs[n]), error, t);
      WaitingRemove(p.queued, objs[n], t);
      FailAllHolds(m, objs[..n], error, t);
    }
  }

  /** The objects that wait for text channel `c`: itself and the tubes listed under it. */
  ghost function Waiters(m: Manager, c: ChanId): set<Object> {
    {Text(c)} + set t | t in Queue(m.textNeeded, c) :: Tube(t)
  }

  lemma InTubeObjects(ts: seq<TubeId>)
    ensures Elems(TubeObjects(ts)) == set t | t in ts :: Tube(t)
  {
    forall o | o in (set t | t in ts :: Tube(t)) ensures o in TubeObjects(ts) {
      var i :| 0 <= i < |ts| && ts[i] == o.tube;
      assert TubeObjects(ts)[i] == o;
    }
  }

  /** How often `muc_channel_ready_cb` drops `t`: when it waits on a text channel that is not on the bus, or on a tube that
      closed meanwhile. */
  ghost function DroppedOnReady(m: Manager, c: ChanId, t: Token): nat
    requires c in m.chans
  {
    (if m.chans[c].registered then 0 else Times(Queue(m.queued, Text(c)), t))
    + DroppedIn(m, TubeObjects(Queue(m.textNeeded, c)), t)
  }

  lemma ReadyCallbackFrame(m: Manager, c: ChanId)
    requires c in m.chans
    ensures var r := ReadyCallback(m, c);
      r == m.(log := r.log, queued := m.queued - Waiters(m, c), textNeeded := m.textNeeded - {c})
  {
    AnnounceAllFrame(m, [Text(c)]);
    var m1 := AnnounceText(m, c);
    assert Elems([Text(c)]) == {Text(c)};
    assert m1 == m.(log := m1.log, queued := m.queued - {Text(c)});
    var ts := Queue(m.textNeeded, c);
    AnnounceAllFrame(m1, TubeObjects(ts));
    InTubeObjects(ts);
    assert m.queued - {Text(c)} - (set t | t in ts :: Tube(t)) == m.queued - Waiters(m, c);
  }

  lemma AnnounceTextHolds(m: Manager, c: ChanId, t: Token)
    requires c in m.chans
    ensures var m1 := AnnounceText(m, c);
      && m1 == m.(log := m1.log, queued := m.queued - {Text(c)})
      && Held(m1, t) + (if m.chans[c].registered then 0 else Times(Queue(m.queued, Text(c)), t)) == Held(m, t)
  {
    WaitingRemove(m.queued, Text(c), t);
    AnnounceAllHolds(m, [Text(c)], t);
    assert DroppedIn(m, [Text(c)], t) == 0 by { DroppedInIff(m, [Text(c)], t); }
    AnnounceAllFrame(m, [Text(c)]);
    assert Elems([Text(c)]) == {Text(c)};
    hide AnnounceAll, DroppedIn, Answers, Waiting, Times;
  }

  lemma ReadyCallbackHolds(m: Manager, c: ChanId, t: Token)
    requires c in m.chans
    ensures Held(ReadyCallback(m, c), t) + DroppedOnReady(m, c, t) == Held(m, t)
  {
    hide AnnounceAll, DroppedIn, Answers, Waiting, Times;
    var m1, objs := AnnounceText(m, c), TubeObjects(Queue(m.textNeeded, c));
    AnnounceTextHolds(m, c, t);
    AnnounceAllHolds(m1, objs, t);
    hide AnnounceText;
    DroppedInSame(m, m1, objs, t);
  }

  /** Which tokens a room that becomes ready leaves without an answer. */
  lemma ReadyDropsIff(m: Manager, c: ChanId, t: Token)
    requires c in m.chans
    ensures DroppedOnReady(m, c, t) > 0 <==>
      || (!m.chans[c].registered && t in Queue(m.queued, Text(c)))
      || exists u :: u in Queue(m.textNeeded, c) && Closed(m, Tube(u)) && t in Queue(m.queued, Tube(u))
  {
    var ts := Queue(m.textNeeded, c);
    TimesIn(Queue(m.queued, Text(c)), t);
    DroppedInIff(m, TubeObjects(ts), t);
    InTubeObjects(ts);
    forall u | u in ts ensures Tube(u) in TubeObjects(ts) {
      assert Tube(u) in Elems(TubeObjects(ts));
    }
    hide DroppedIn, Times, Closed;
  }

  lemma JoinErrorFrame(m: Manager, c: ChanId, error: Error)
    ensures var r := JoinError(m, c, error);
      r == m.(log := r.log, queued := m.queued - Waiters(m, c), textNeeded := m.textNeeded - {c})
  {
    FailAllFrame(m, [Text(c)], error);
    assert Elems([Text(c)]) == {Text(c)};
    var m1 := FailAll(m, [Text(c)], error);
    var ts := Queue(m.textNeeded, c);
    FailAllFrame(m1, TubeObjects(ts), error);
    InTubeObjects(ts);
    assert m.queued - {Text(c)} - (set t | t in ts :: Tube(t)) == m.queued - Waiters(m, c);
  }

  lemma JoinErrorHolds(m: Manager, c: ChanId, error: Error, t: Token)
    ensures Held(JoinError(m, c, error), t) == Held(m, t)
  {
    FailAllHolds(m, [Text(c)], error, t);
    FailAllHolds(FailAll(m, [Text(c)], error), TubeObjects(Queue(m.textNeeded, c)), error, t);
  }

  lemma ChannelStays(m: Manager, room: Room, readyNow: bool)
    ensures m.next in RequestNew(m, room, None, false, readyNow).chans
  {
    var c := m.next;
    var m1 := m.(chans := m.chans[c := Channel(room, false, readyNow, false, {})],
                 textChannels := m.textChannels[room := c], next := c + 1);
    ReadyCallbackFrame(m1, c);
  }

  // ----- every step keeps the invariant -----

  lemma ReadyStepKeeps(m: Manager, c: ChanId)
    requires Inv(m) && c in m.chans
    ensures Inv(ReadyStep(m, c))
  {
    var chan := m.chans[c].(ready := true);
    ReadyCallbackFrame(m.(chans := m.chans[c := chan]), c);
    WithoutWaiters(m, c);
    ReadyChannel(m, c, chan);
    hide ReadyCallback, RoomsMatch, ChannelsOk, ReadyIdle, WaitingListed, Waiters;
  }

  /** With the queues of a channel and its tubes gone, and its list, everything waiting is still listed. */
  lemma WithoutWaiters(m: Manager, c: ChanId)
    requires WaitingListed(m.queued, m.textNeeded, m.owner)
    ensures WaitingListed(m.queued - Waiters(m, c), m.textNeeded - {c}, m.owner)
  {
  }

  lemma ReadyChannel(m: Manager, c: ChanId, chan: Channel)
    requires Inv(m) && c in m.chans && chan == m.chans[c].(ready := true)
    ensures RoomsMatch(m.chans[c := chan], m.textChannels) && ChannelsOk(m.chans[c := chan], m.owner)
    ensures ReadyIdle(m.chans[c := chan], m.textNeeded - {c}, m.queued - Waiters(m, c))
  {
    hide WaitingListed, IdsFresh;
    assert ChannelOk(c, m.chans[c], m.owner);
    hide ChannelOk;
    assert ChannelOk(c, chan, m.owner);
  }

  lemma FreshChannelKeeps(m: Manager, room: Room, chan: Channel)
    requires Inv(m) && room !in m.textChannels && chan.room == room && !chan.autoclose && chan.tubes == {}
    ensures Inv(m.(chans := m.chans[m.next := chan], textChannels := m.textChannels[room := m.next], next := m.next + 1))
  {
  }

  /** A fresh channel has nothing waiting on it, so its ready callback changes no queue. */
  lemma NewMucChannelKeeps(m: Manager, room: Room, registered: bool, readyNow: bool)
    requires Inv(m) && room !in m.textChannels
    ensures var r := NewMucChannel(m, room, registered, readyNow);
      && Inv(r)
      && r == m.(chans := m.chans[m.next := Channel(room, registered, readyNow, false, {})],
                 textChannels := m.textChannels[room := m.next], next := m.next + 1, log := r.log)
  {
    hide ReadyCallback;
    var m1 := m.(chans := m.chans[m.next := Channel(room, registered, readyNow, false, {})],
                 textChannels := m.textChannels[room := m.next], next := m.next + 1);
    FreshChannelKeeps(m, room, Channel(room, registered, readyNow, false, {}));
    if readyNow {
      hide RoomsMatch, ChannelsOk, ReadyIdle, WaitingListed;
      assert Waiters(m1, m.next) == {Text(m.next)};
      ReadyCallbackFrame(m1, m.next);
      assert m.queued - {Text(m.next)} == m.queued;
      assert m.textNeeded - {m.next} == m.textNeeded;
    }
  }

  lemma NewMucChannelHolds(m: Manager, room: Room, registered: bool, readyNow: bool, t: Token)
    requires Inv(m)
    ensures Held(NewMucChannel(m, room, registered, readyNow), t) == Held(m, t)
  {
    hide RoomsMatch, ChannelsOk, ReadyIdle, WaitingListed, ReadyCallback, Waiting, Answers, DroppedOnReady;
    var m1 := m.(chans := m.chans[m.next := Channel(room, registered, readyNow, false, {})],
                 textChannels := m.textChannels[room := m.next], next := m.next + 1);
    NothingWaitsOnFresh(m, m1, t);
    ReadyCallbackHolds(m1, m.next, t);
  }

  lemma NothingWaitsOnFresh(m: Manager, m1: Manager, t: Token)
    requires IdsFresh(m) && m.next in m1.chans && m1.queued == m.queued && m1.textNeeded == m.textNeeded
    ensures DroppedOnReady(m1, m.next, t) == 0
  {
    assert Queue(m.queued, Text(m.next)) == [] && TubeObjects(Queue(m.textNeeded, m.next)) == [];
  }

  lemma AddTubeKeeps(m: Manager, c: ChanId)
    requires Inv(m) && c in m.chans
    ensures Inv(AddTube(m, c))
  {
    var t := m.next;
    var m1 := AddTube(m, c);
    forall d | d in m1.chans ensures ChannelOk(d, m1.chans[d], m1.owner) {
      assert ChannelOk(d, m.chans[d], m.owner);
    }
  }

  lemma ListedEnqueue(queued: map<Object, seq<Token>>, textNeeded: map<ChanId, seq<TubeId>>, owner: map<TubeId, ChanId>,
                      c: ChanId, t: TubeId, token: Token)
    requires WaitingListed(queued, textNeeded, owner) && t in owner && owner[t] == c
    ensures WaitingListed(Enqueue(queued, Tube(t), token), Enqueue(textNeeded, c, t), owner)
  {
    var n := Enqueue(textNeeded, c, t);
    assert n[c] == Queue(textNeeded, c) + [t];
  }

  lemma TubeOnKeeps(m: Manager, c: ChanId, token: Token)
    requires Inv(m) && c in m.chans
    ensures Inv(TubeOn(m, c, token))
  {
    hide RoomsMatch, ChannelOk;
    var t := m.next;
    AddTubeKeeps(m, c);
    var a := AddTube(m, c);
    var r := TubeOn(m, c, token);
    if !m.chans[c].ready {
      assert r == a.(textNeeded := Enqueue(m.textNeeded, c, t), queued := Enqueue(m.queued, Tube(t), token));
      ListedEnqueue(m.queued, m.textNeeded, a.owner, c, t, token);
    }
  }

  lemma AnnouncedTubesKeeps(m: Manager, c: ChanId, n: nat)
    requires Inv(m) && c in m.chans
    ensures Inv(AnnouncedTubes(m, c, n))
  {
    if n > 0 {
      AnnouncedTubesKeeps(m, c, n - 1);
      AddTubeKeeps(AnnouncedTubes(m, c, n - 1), c);
    }
  }

  lemma DestroyKeeps(m: Manager, c: ChanId)
    requires Inv(m) && c in m.chans
    ensures Inv(Destroy(m, c))
  {
  }

  lemma LostStepKeeps(m: Manager, c: ChanId)
    requires Inv(m) && c in m.chans
    ensures Inv(LostStep(m, c))
  {
    hide JoinError;
    JoinErrorFrame(m, c, NetworkError);
    var m1 := if m.chans[c].ready then m else JoinError(m, c, NetworkError);
    assert Inv(m1);
    DestroyKeeps(m1, c);
  }

  lemma DropTubeKeeps(m: Manager, t: TubeId)
    requires Inv(m) && Possible(m, TubeClosed(t))
    ensures Inv(DropTube(m, t))
  {
  }

  /** Putting a hidden channel back on the bus changes nothing the invariant looks at. */
  lemma RegisterKeeps(m: Manager, c: ChanId, chan: Channel)
    requires Inv(m) && c in m.chans
    requires chan.(registered := m.chans[c].registered, autoclose := m.chans[c].autoclose) == m.chans[c]
    requires chan.autoclose ==> chan.tubes != {}
    ensures Inv(m.(chans := m.chans[c := chan]))
  {
    assert ChannelOk(c, m.chans[c], m.owner);
  }

  lemma QueueTextKeeps(m: Manager, c: ChanId, token: Token)
    requires Inv(m) && c in m.chans && !m.chans[c].ready
    ensures Inv(m.(queued := Enqueue(m.queued, Text(c), token)))
  {
  }

  lemma HandleKnownTextKeeps(m: Manager, token: Token, c: ChanId, requireNew: bool)
    requires Inv(m) && c in m.chans
    ensures Inv(HandleKnownText(m, token, c, requireNew))
  {
    var m1 := m.(chans := m.chans[c := m.chans[c].(registered := true)]);
    RegisterKeeps(m, c, m.chans[c].(registered := true));
    hide RoomsMatch, ChannelsOk, ReadyIdle, WaitingListed, IdsFresh;
    if !m.chans[c].ready {
      QueueTextKeeps(m1, c, token);
    }
    LogKeeps(m);
    LogKeeps(m1);
  }

  /** The invariant does not look at the log. */
  lemma LogKeeps(m: Manager)
    requires Inv(m)
    ensures forall log :: Inv(m.(log := log))
  {
    hide RoomsMatch, ChannelsOk, ReadyIdle, WaitingListed;
  }

  lemma RequestNewKeeps(m: Manager, room: Room, token: Option<Token>, announce: bool, readyNow: bool)
    requires Inv(m) && room !in m.textChannels
    ensures Inv(RequestNew(m, room, token, announce, readyNow))
  {
    hide NewMucChannel, RoomsMatch, ChannelOk, WaitingListed;
    NewMucChannelKeeps(m, room, announce, readyNow);
    if !readyNow && token.Some? {
      QueueTextKeeps(NewMucChannel(m, room, announce, readyNow), m.next, token.value);
    }
  }

  lemma HandleTextKeeps(m: Manager, token: Token, room: Room, requireNew: bool, ok: bool, net: Network)
    requires Inv(m)
    ensures Inv(HandleText(m, token, room, requireNew, ok, net))
  {
    hide HandleKnownText, RequestNew, ChannelOk, WaitingListed;
    if room in m.textChannels {
      HandleKnownTextKeeps(m, token, m.textChannels[room], requireNew);
    } else {
      RequestNewKeeps(m, room, Some(token), true, net.readyNow);
    }
  }

  lemma HandleTubeKeeps(m: Manager, token: Token, room: Room, ok: bool, net: Network)
    requires Inv(m)
    ensures Inv(HandleTube(m, token, room, ok, net))
  {
    hide TubeOn, RequestNew, ChannelOk, WaitingListed;
    if room !in m.textChannels {
      RequestNewKeeps(m, room, None, false, net.readyNow);
      if net.connects {
        ChannelStays(m, room, net.readyNow);
        TubeOnKeeps(RequestNew(m, room, None, false, net.readyNow), m.next, token);
      }
    } else {
      TubeOnKeeps(m, m.textChannels[room], token);
    }
  }

  lemma HandleInviteKeeps(m: Manager, room: Room, net: Network)
    requires Inv(m)
    ensures Inv(HandleInvite(m, room, net))
  {
    hide NewMucChannel, ChannelOk, WaitingListed;
    if room !in m.textChannels {
      NewMucChannelKeeps(m, room, true, net.readyNow);
    }
  }

  lemma CloseTextKeeps(m: Manager, c: ChanId)
    requires Inv(m) && c in m.chans
    ensures Inv(CloseText(m, c))
  {
    if m.chans[c].tubes != {} {
      RegisterKeeps(m, c, m.chans[c].(autoclose := true, registered := false));
    } else {
      DestroyKeeps(m, c);
    }
  }

  lemma ReappearKeeps(m: Manager, c: ChanId)
    requires Inv(m) && c in m.chans
    ensures Inv(Reappear(m, c))
  {
    RegisterKeeps(m, c, m.chans[c].(registered := true, autoclose := false));
  }

  lemma CloseAllKeeps(m: Manager, order: seq<Object>)
    requires Inv(m)
    ensures Inv(CloseAllStep(m, order))
  {
    FailAllFrame(m, order, Disconnected);
  }

  lemma StepKeeps(m: Manager, e: Event)
    requires Inv(m) && Possible(m, e)
    ensures Inv(Step(m, e))
  {
    hide HandleText, HandleTube, HandleInvite, ReadyStep, LostStep, Destroy, CloseText, DropTube, Reappear,
         AnnouncedTubes, CloseAllStep, RoomsMatch, ChannelsOk, ReadyIdle, WaitingListed, IdsFresh;
    match e
    case RequestText(token, room, requireNew, ok, net) => HandleTextKeeps(m, token, room, requireNew, ok, net);
    case RequestTube(token, room, ok, net) => HandleTubeKeeps(m, token, room, ok, net);
    case Invited(room, net) => HandleInviteKeeps(m, room, net);
    case Ready(c) => ReadyStepKeeps(m, c);
    case Lost(c) => LostStepKeeps(m, c);
    case Leave(c) => DestroyKeeps(m, c);
    case Close(c) => CloseTextKeeps(m, c);
    case TubeClosed(t) => DropTubeKeeps(m, t);
    case Stanza(c, n) => ReappearKeeps(m, c); ReappearHas(m, c); AnnouncedTubesKeeps(Reappear(m, c), c, n);
    case CloseAll(order) => CloseAllKeeps(m, order);
  }

  lemma ReappearHas(m: Manager, c: ChanId)
    requires c in m.chans
    ensures c in Reappear(m, c).chans
  {
  }

  // ----- request conservation -----

  function Accepted(e: Event, t: Token): nat {
    match e
    case RequestText(u, _, _, _, _) => if u == t then 1 else 0
    case RequestTube(u, _, _, _) => if u == t then 1 else 0
    case _ => 0
  }

  /** The three ways a token gets lost: the error of a room connection that cannot be made is dropped when a text channel
      was asked for; a text channel that becomes ready while hidden discards the tokens waiting on it; and a tube that closed
      while it waited is gone when its room becomes ready. */
  ghost function Leaked(m: Manager, e: Event, t: Token): nat
    requires Possible(m, e)
  {
    match e
    case RequestText(u, room, _, ok, net) =>
      if u == t && ok && room !in m.textChannels && !net.connects then 1 else 0
    case Ready(c) => DroppedOnReady(m, c, t)
    case _ => 0
  }

  lemma TubeOnHolds(m: Manager, c: ChanId, token: Token, t: Token)
    requires c in m.chans
    ensures Held(TubeOn(m, c, token), t) == Held(m, t) + if token == t then 1 else 0
  {
    hide Waiting, Answers, Times;
    AnswersOne(m.log, Tube(m.next), token, t);
    WaitingEnqueue(m.queued, Tube(m.next), token, t);
  }

  lemma AnswersOne(log: seq<Signal>, o: Object, token: Token, t: Token)
    ensures Answers(log + [NewChannel(o, [token])], t) == Answers(log, t) + if token == t then 1 else 0
  {
    AnswersSnoc(log, NewChannel(o, [token]), t);
    TimesAppend([], token, t);
    assert [] + [token] == [token];
  }

  lemma AnnouncedTubesHolds(m: Manager, c: ChanId, n: nat, t: Token)
    requires c in m.chans
    ensures Held(AnnouncedTubes(m, c, n), t) == Held(m, t)
  {
    if n > 0 {
      AnnouncedTubesHolds(m, c, n - 1, t);
      var p := AnnouncedTubes(m, c, n - 1);
      AnswersSnoc(p.log, NewChannel(Tube(p.next), []), t);
    }
  }

  lemma HandleKnownTextHolds(m: Manager, token: Token, c: ChanId, requireNew: bool, t: Token)
    requires c in m.chans
    ensures Held(HandleKnownText(m, token, c, requireNew), t) == Held(m, t) + if token == t then 1 else 0
  {
    hide Answers, Waiting;
    TimesAppend([], token, t);
    if m.chans[c].registered {
      AnswersSnoc(m.log, RequestFailed(token, NotAvailable), t);
      AnswersSnoc(m.log, AlreadySatisfied(token, Text(c)), t);
    } else {
      AnswersSnoc(m.log, NewChannel(Text(c), [token]), t);
      WaitingEnqueue(m.queued, Text(c), token, t);
    }
  }

  lemma RequestNewHolds(m: Manager, room: Room, token: Option<Token>, announce: bool, readyNow: bool, t: Token)
    requires Inv(m)
    ensures Held(RequestNew(m, room, token, announce, readyNow), t) ==
            Held(m, t) + if announce && token == Some(t) then 1 else 0
  {
    hide NewMucChannel, Answers, Waiting;
    NewMucChannelHolds(m, room, announce, readyNow, t);
    var m1 := NewMucChannel(m, room, announce, readyNow);
    if readyNow {
      AnswersSnoc(m1.log, NewChannel(Text(m.next), if token.Some? then [token.value] else []), t);
      if token.Some? { TimesAppend([], token.value, t); }
    } else if token.Some? {
      WaitingEnqueue(m1.queued, Text(m.next), token.value, t);
    }
  }

  lemma HandleTextHolds(m: Manager, token: Token, room: Room, requireNew: bool, ok: bool, net: Network, t: Token)
    requires Inv(m)
    ensures Held(HandleText(m, token, room, requireNew, ok, net), t) == Held(m, t) +
            if token == t && !(ok && room !in m.textChannels && !net.connects) then 1 else 0
  {
    hide HandleKnownText, RequestNew;
    AnswersSnoc(m.log, RequestFailed(token, InvalidRequest), t);
    if room in m.textChannels {
      HandleKnownTextHolds(m, token, m.textChannels[room], requireNew, t);
    } else {
      RequestNewHolds(m, room, Some(token), true, net.readyNow, t);
    }
  }

  lemma HandleTubeHolds(m: Manager, token: Token, room: Room, ok: bool, net: Network, t: Token)
    requires Inv(m)
    ensures Held(HandleTube(m, token, room, ok, net), t) == Held(m, t) + if token == t then 1 else 0
  {
    hide RequestNew, TubeOn;
    AnswersSnoc(m.log, RequestFailed(token, InvalidRequest), t);
    AnswersSnoc(m.log, RequestFailed(token, NetworkError), t);
    if room in m.textChannels {
      TubeOnHolds(m, m.textChannels[room], token, t);
    } else if net.connects {
      RequestNewHolds(m, room, None, false, net.readyNow, t);
      ChannelStays(m, room, net.readyNow);
      TubeOnHolds(RequestNew(m, room, None, false, net.readyNow), m.next, token, t);
    }
  }

  lemma HandleInviteHolds(m: Manager, room: Room, net: Network, t: Token)
    requires Inv(m)
    ensures Held(HandleInvite(m, room, net), t) == Held(m, t)
  {
    hide NewMucChannel;
    NewMucChannelHolds(m, room, true, net.readyNow, t);
    AnswersSnoc(NewMucChannel(m, room, true, net.readyNow).log, NewChannel(Text(m.next), []), t);
  }

  lemma ReappearHolds(m: Manager, c: ChanId, t: Token)
    requires c in m.chans
    ensures Held(Reappear(m, c), t) == Held(m, t)
  {
    AnswersSnoc(m.log, NewChannel(Text(c), []), t);
  }

  lemma CloseAllHolds(m: Manager, order: seq<Object>, t: Token)
    requires forall o :: o in order <==> o in m.queued
    ensures Held(CloseAllStep(m, order), t) == Held(m, t)
  {
    FailAllHolds(m, order, Disconnected, t);
    FailAllFrame(m, order, Disconnected);
    assert FailAll(m, order, Disconnected).queued == map[];
  }

  lemma ReadyStepHolds(m: Manager, c: ChanId, t: Token)
    requires c in m.chans
    ensures Held(ReadyStep(m, c), t) + DroppedOnReady(m, c, t) == Held(m, t)
  {
    hide ReadyCallback, Times, Waiting, Answers;
    var m1 := m.(chans := m.chans[c := m.chans[c].(ready := true)]);
    ReadyCallbackHolds(m1, c, t);
    DroppedInSame(m, m1, TubeObjects(Queue(m.textNeeded, c)), t);
  }

  /** One step accounts for every token: what it accepts is answered once, queued once, or leaked. */
  lemma StepConserves(m: Manager, e: Event, t: Token)
    requires Inv(m) && Possible(m, e)
    ensures Held(Step(m, e), t) + Leaked(m, e, t) == Held(m, t) + Accepted(e, t)
  {
    hide HandleText, HandleTube, HandleInvite, ReadyCallback, JoinError, Reappear, AnnouncedTubes, CloseAllStep, Inv;
    match e
    case RequestText(token, room, requireNew, ok, net) => HandleTextHolds(m, token, room, requireNew, ok, net, t);
    case RequestTube(token, room, ok, net) => HandleTubeHolds(m, token, room, ok, net, t);
    case Invited(room, net) => HandleInviteHolds(m, room, net, t);
    case Ready(c) => ReadyStepHolds(m, c, t);
    case Lost(c) => JoinErrorHolds(m, c, NetworkError, t); JoinErrorFrame(m, c, NetworkError);
    case Leave(c) =>
    case Close(c) =>
    case TubeClosed(_) =>
    case Stanza(c, n) => ReappearHolds(m, c, t); ReappearHas(m, c); AnnouncedTubesHolds(Reappear(m, c), c, n, t);
    case CloseAll(order) => CloseAllHolds(m, order, t);
  }

  // ----- whole runs -----

  /** A run: every event is possible where it happens. */
  ghost predicate IsRun(m: Manager, es: seq<Event>)
    requires Inv(m)
    decreases |es|
  {
    es == [] || (Possible(m, es[0]) && (StepKeeps(m, es[0]); IsRun(Step(m, es[0]), es[1..])))
  }

  ghost function After(m: Manager, es: seq<Event>): Manager
    requires Inv(m) && IsRun(m, es)
    decreases |es|
  {
    if es == [] then m else StepKeeps(m, es[0]); After(Step(m, es[0]), es[1..])
  }

  lemma {:induction false} RunKeeps(m: Manager, es: seq<Event>)
    requires Inv(m) && IsRun(m, es)
    ensures Inv(After(m, es))
    decreases |es|
  {
    hide Step, Inv, Possible;
    if es != [] {
      StepKeeps(m, es[0]);
      RunKeeps(Step(m, es[0]), es[1..]);
    }
  }

  function AcceptedIn(es: seq<Event>, t: Token): nat {
    if es == [] then 0 else Accepted(es[0], t) + AcceptedIn(es[1..], t)
  }

  ghost function LeakedIn(m: Manager, es: seq<Event>, t: Token): nat
    requires Inv(m) && IsRun(m, es)
    decreases |es|
  {
    if es == [] then 0 else StepKeeps(m, es[0]); Leaked(m, es[0], t) + LeakedIn(Step(m, es[0]), es[1..], t)
  }

  lemma {:induction false} RunAccounts(m: Manager, es: seq<Event>, t: Token)
    requires Inv(m) && IsRun(m, es)
    ensures Held(After(m, es), t) + LeakedIn(m, es, t) == Held(m, t) + AcceptedIn(es, t)
    decreases |es|
  {
    hide Step, Inv, Possible, Leaked, Accepted, Held;
    if es != [] {
      StepKeeps(m, es[0]);
      StepConserves(m, es[0], t);
      RunAccounts(Step(m, es[0]), es[1..], t);
    }
  }

  /** Request conservation. In every reachable state each token is answered and queued together exactly as often as it
      was accepted, if and only if it leaked nowhere on the way; and every waiting tube is listed under its text channel. */
  lemma RequestsConserved(es: seq<Event>, t: Token)
    requires IsRun(Init, es)
    ensures var m := After(Init, es);
      && WaitingListed(m.queued, m.textNeeded, m.owner)
      && (Answers(m.log, t) + Waiting(m.queued, t) == AcceptedIn(es, t) <==> LeakedIn(Init, es, t) == 0)
  {
    RunKeeps(Init, es);
    RunAccounts(Init, es, t);
  }

  /** A token used for one request is answered at most once, and not while it still waits. */
  lemma AnsweredOnce(es: seq<Event>, t: Token)
    requires IsRun(Init, es) && AcceptedIn(es, t) <= 1
    ensures var m := After(Init, es); Answers(m.log, t) + Waiting(m.queued, t) <= 1
  {
    RunAccounts(Init, es, t);
  }

  /** After `close_all` nothing is outstanding: whatever did not leak has been answered. */
  lemma ClosedAnswersAll(es: seq<Event>, order: seq<Object>, t: Token)
    requires IsRun(Init, es) && Possible(After(Init, es), CloseAll(order))
    ensures (RunKeeps(Init, es); var r := Step(After(Init, es), CloseAll(order));
      Waiting(r.queued, t) == 0 && Answers(r.log, t) + LeakedIn(Init, es, t) == AcceptedIn(es, t))
  {
    RunKeeps(Init, es);
    RunAccounts(Init, es, t);
    StepConserves(After(Init, es), CloseAll(order), t);
  }

  // ----- hiding and closing by itself -----

  /** No reachable state has a live text channel set to close itself without a tube to wait for. */
  lemma AutocloseWaitsForTubes(es: seq<Event>, c: ChanId)
    requires IsRun(Init, es) && c in After(Init, es).chans
    ensures After(Init, es).chans[c].autoclose ==> After(Init, es).chans[c].tubes != {}
  {
    var m := After(Init, es);
    RunKeeps(Init, es);
    assert ChannelOk(c, m.chans[c], m.owner);
  }

  /** Re-requesting a hidden text channel shows it to the requester but leaves it set to close itself:
      it is then destroyed under the requester when its last tube closes. */
  lemma RerequestedStillAutocloses(m: Manager, token: Token, t: TubeId, net: Network)
    requires Inv(m) && Possible(m, TubeClosed(t))
    requires var chan := m.chans[m.owner[t]]; chan.autoclose && chan.tubes == {t} && chan.ready && !chan.registered
    ensures var c := m.owner[t];
      var e := RequestText(token, m.chans[c].room, false, true, net);
      var shown := Step(m, e);
      && shown.log == m.log + [NewChannel(Text(c), [token])]
      && shown.chans[c].registered
      && (StepKeeps(m, e); Possible(shown, TubeClosed(t)) && c !in Step(shown, TubeClosed(t)).chans)
  {
    StepKeeps(m, RequestText(token, m.chans[m.owner[t]].room, false, true, net));
  }

  /** Hiding a text channel before its room is ready loses the tokens that wait on it, besides those of closed tubes. */
  lemma HidingLosesWaiting(m: Manager, c: ChanId, t: Token)
    requires Inv(m) && m.open && c in m.chans && m.chans[c].tubes != {}
    ensures var hidden := Step(m, Close(c));
      (StepKeeps(m, Close(c));
       Held(Step(hidden, Ready(c)), t) + Times(Queue(m.queued, Text(c)), t)
         + DroppedIn(m, TubeObjects(Queue(m.textNeeded, c)), t) == Held(m, t))
  {
    hide ReadyCallback;
    StepKeeps(m, Close(c));
    StepConserves(m, Close(c), t);
    StepConserves(Step(m, Close(c)), Ready(c), t);
    DroppedInSame(m, Step(m, Close(c)), TubeObjects(Queue(m.textNeeded, c)), t);
  }

  lemma InitInv()
    ensures Inv(Init)
  {
  }
}
