/** The room manager as the source runs it: tables reassigned by handlers, lists walked in loops.
    Each handler is proved to be the step of `MucRequests` with its name. */
module MucManager {
  import opened Collections
  import opened MucRequests

  class MucManager {
    // the state of each live text channel, by identity
    var chans: map<ChanId, Channel>
    var textChannels: map<Room, ChanId>
    var queuedRequests: map<Object, seq<Token>>
    var textNeededForTube: map<ChanId, seq<TubeId>>
    // the text channel a tube carries as object data
    var owner: map<TubeId, ChanId>
    // the signals emitted so far
    var log: seq<Signal>
    var next: nat
    var open: bool

    ghost function State(): Manager
      reads this
    {
      Manager(chans, textChannels, queuedRequests, textNeededForTube, owner, log, next, open)
    }

    ghost predicate Valid()
      reads this
    {
      Inv(State())
    }

    constructor ()
      ensures Valid() && State() == Init
    {
      chans, textChannels, queuedRequests, textNeededForTube, owner := map[], map[], map[], map[], map[];
      log, next, open := [], 0, true;
    }

    method Emit(s: Signal)
      modifies this`log
      ensures log == old(log) + [s]
    {
      log := log + [s];
    }

    /** `associate_channel_to_data` on `queued_requests`. */
    method AssociateRequest(obj: Object, token: Token)
      modifies this`queuedRequests
      ensures queuedRequests == Enqueue(old(queuedRequests), obj, token)
    {
      var list := Queue(queuedRequests, obj);
      list := list + [token];
      queuedRequests := queuedRequests - {obj};
      queuedRequests := queuedRequests[obj := list];
      assert queuedRequests == Enqueue(old(queuedRequests), obj, token);
    }

    /** `associate_channel_to_data` on `text_needed_for_tube`. */
    method AssociateTube(c: ChanId, t: TubeId)
      modifies this`textNeededForTube
      ensures textNeededForTube == Enqueue(old(textNeededForTube), c, t)
    {
      var list := Queue(textNeededForTube, c);
      list := list + [t];
      textNeededForTube := textNeededForTube - {c};
      textNeededForTube := textNeededForTube[c := list];
      assert textNeededForTube == Enqueue(old(textNeededForTube), c, t);
    }

    /** Announce one waiting tube with the requests it satisfies. */
    method AnnounceTube(tube: TubeId)
      modifies this`log, this`queuedRequests
      ensures var m, o := old(State()), Tube(tube);
        State() == m.(log := m.log + [Announcement(m, o)], queued := m.queued - {o})
    {
      if tube in owner && owner[tube] in chans && tube in chans[owner[tube]].tubes {
        Emit(NewChannel(Tube(tube), Queue(queuedRequests, Tube(tube))));
      } else {
        // what the list points at is gone
        Emit(Dangling(Tube(tube), Queue(queuedRequests, Tube(tube))));
      }
      queuedRequests := queuedRequests - {Tube(tube)};
    }

    /** Announce tubes with the requests they satisfy, in order. */
    method AnnounceTubes(tubes: seq<TubeId>)
      modifies this`log, this`queuedRequests
      ensures State() == AnnounceAll(old(State()), TubeObjects(tubes))
    {
      ghost var m := State();
      ghost var objs := TubeObjects(tubes);
      assert objs[..0] == [];
      assert AnnounceAll(m, []) == m;
      hide AnnounceAll, Announcement;
      for i := 0 to |tubes|
        invariant State() == AnnounceAll(m, objs[..i])
      {
        assert objs[..i + 1][..i] == objs[..i];
        AnnounceSnoc(m, objs[..i + 1]);
        AnnounceTube(tubes[i]);
      }
      assert objs[..|tubes|] == objs;
    }

    /** Announce the text channel if it is on the bus. */
    method AnnounceChannel(c: ChanId)
      requires c in chans
      modifies this`log, this`queuedRequests
      ensures State() == AnnounceText(old(State()), c)
    {
      ghost var m := State();
      if chans[c].registered {
        Emit(NewChannel(Text(c), Queue(queuedRequests, Text(c))));
      }
      queuedRequests := queuedRequests - {Text(c)};
      AnnounceSnoc(m, [Text(c)]);
      assert [Text(c)][..0] == [] && AnnounceAll(m, []) == m;
    }

    method ReadyCb(c: ChanId)
      requires c in chans
      modifies this`log, this`queuedRequests, this`textNeededForTube
      ensures State() == ReadyCallback(old(State()), c)
    {
      hide AnnounceText, AnnounceAll;
      AnnounceChannel(c);
      AnnounceTubes(Queue(textNeededForTube, c));
      textNeededForTube := textNeededForTube - {c};
    }

    /** `FAIL_REQUESTS`. */
    method FailRequests(tokens: seq<Token>, error: Error)
      modifies this`log
      ensures log == FailTokens(old(log), tokens, error)
    {
      for i := 0 to |tokens|
        invariant log == FailTokens(old(log), tokens[..i], error)
      {
        assert tokens[..i + 1][..i] == tokens[..i];
        Emit(RequestFailed(tokens[i], error));
      }
      assert tokens[..|tokens|] == tokens;
    }

    method FailTube(tube: TubeId, error: Error)
      modifies this`log, this`queuedRequests
      ensures var m, o := old(State()), Tube(tube);
        State() == m.(log := FailTokens(m.log, Queue(m.queued, o), error), queued := m.queued - {o})
    {
      FailRequests(Queue(queuedRequests, Tube(tube)), error);
      queuedRequests := queuedRequests - {Tube(tube)};
    }

    /** Fail the requests waiting on tubes, in order. */
    method FailTubes(tubes: seq<TubeId>, error: Error)
      modifies this`log, this`queuedRequests
      ensures State() == FailAll(old(State()), TubeObjects(tubes), error)
    {
      ghost var m := State();
      ghost var objs := TubeObjects(tubes);
      assert objs[..0] == [];
      assert FailAll(m, [], error) == m;
      hide FailAll, FailTokens;
      for i := 0 to |tubes|
        invariant State() == FailAll(m, objs[..i], error)
      {
        assert objs[..i + 1][..i] == objs[..i];
        FailSnoc(m, objs[..i + 1], error);
        FailTube(tubes[i], error);
      }
      assert objs[..|tubes|] == objs;
    }

    method JoinErrorCb(c: ChanId, error: Error)
      modifies this`log, this`queuedRequests, this`textNeededForTube
      ensures State() == JoinError(old(State()), c, error)
    {
      ghost var m := State();
      FailRequests(Queue(queuedRequests, Text(c)), error);
      queuedRequests := queuedRequests - {Text(c)};
      ghost var m1 := State();
      assert m1 == FailAll(m, [Text(c)], error) by {
        assert [Text(c)][..0] == [];
      }
      FailTubes(Queue(textNeededForTube, c), error);
      textNeededForTube := textNeededForTube - {c};
    }

    method NewChannelFor(room: Room, registered: bool, readyNow: bool) returns (c: ChanId)
      modifies this
      ensures State() == NewMucChannel(old(State()), room, registered, readyNow)
      ensures c == old(next)
    {
      c := next;
      next := next + 1;
      chans := chans[c := Channel(room, registered, readyNow, false, {})];
      textChannels := textChannels[room := c];
      if chans[c].ready {
        ReadyCb(c);
      }
    }

    /** `salut_muc_manager_request_new_muc_channel`; `None` when the room connection cannot be made. */
    method RequestNewMucChannel(room: Room, token: Option<Token>, announce: bool, net: Network) returns (r: Option<ChanId>)
      modifies this
      ensures !net.connects ==> r == None && State() == old(State())
      ensures net.connects ==>
        r == Some(old(next)) && State() == RequestNew(old(State()), room, token, announce, net.readyNow)
    {
      if !net.connects {
        return None;
      }
      var c := NewChannelFor(room, announce, net.readyNow);
      if announce {
        if net.readyNow {
          Emit(NewChannel(Text(c), if token.Some? then [token.value] else []));
        } else if token.Some? {
          AssociateRequest(Text(c), token.value);
        }
      }
      r := Some(c);
    }

    method CreateNewTube(c: ChanId) returns (t: TubeId)
      requires c in chans
      modifies this
      ensures State() == AddTube(old(State()), c) && t == old(next)
    {
      t := next;
      next := next + 1;
      chans := chans[c := chans[c].(tubes := chans[c].tubes + {t})];
      owner := owner[t := c];
    }

    method TextRequest(token: Token, room: Room, requireNew: bool, wellFormed: bool, net: Network)
      requires Valid() && open
      modifies this
      ensures Valid() && State() == Step(old(State()), RequestText(token, room, requireNew, wellFormed, net))
    {
      ghost var m := State();
      assert room in textChannels ==> textChannels[room] in chans;
      hide Inv;
      if !wellFormed {
        Emit(RequestFailed(token, InvalidRequest));
      } else if room in textChannels {
        var c := textChannels[room];
        if requireNew && chans[c].registered {
          Emit(RequestFailed(token, NotAvailable));
        } else if chans[c].registered {
          Emit(AlreadySatisfied(token, Text(c)));
        } else {
          chans := chans[c := chans[c].(registered := true)];
          if chans[c].ready {
            Emit(NewChannel(Text(c), [token]));
          } else {
            AssociateRequest(Text(c), token);
          }
        }
        assert State() == HandleKnownText(m, token, c, requireNew);
      } else {
        // the error is dropped here, and the token with it
        var _ := RequestNewMucChannel(room, Some(token), true, net);
      }
      assert State() == HandleText(m, token, room, requireNew, wellFormed, net);
      StepKeeps(m, RequestText(token, room, requireNew, wellFormed, net));
    }

    method TubeForRequest(c: ChanId, token: Token)
      requires c in chans
      modifies this
      ensures State() == TubeOn(old(State()), c, token)
    {
      var t := CreateNewTube(c);
      if chans[c].ready {
        Emit(NewChannel(Tube(t), [token]));
      } else {
        AssociateTube(c, t);
        AssociateRequest(Tube(t), token);
      }
    }

    method TubeRequest(token: Token, room: Room, wellFormed: bool, net: Network)
      requires Valid() && open
      modifies this
      ensures Valid() && State() == Step(old(State()), RequestTube(token, room, wellFormed, net))
    {
      ghost var m := State();
      StepKeeps(m, RequestTube(token, room, wellFormed, net));
      assert room in textChannels ==> textChannels[room] in chans;
      hide Inv, HandleText;
      if !wellFormed {
        Emit(RequestFailed(token, InvalidRequest));
        return;
      }
      var c;
      if room in textChannels {
        c := textChannels[room];
      } else {
        var made := RequestNewMucChannel(room, None, false, net);
        if made == None {
          Emit(RequestFailed(token, NetworkError));
          return;
        }
        c := made.value;
        ChannelStays(m, room, net.readyNow);
      }
      TubeForRequest(c, token);
    }

    method InviteStanza(room: Room, net: Network)
      requires Valid() && open
      modifies this
      ensures Valid() && State() == Step(old(State()), Invited(room, net))
    {
      StepKeeps(State(), Invited(room, net));
      hide Inv;
      if room !in textChannels {
        if !net.connects {
          return;
        }
        var c := NewChannelFor(room, true, net.readyNow);
        Emit(NewChannel(Text(c), []));
      }
    }

    /** `salut_muc_channel_add_self_to_members`. */
    method AddSelfToMembers(c: ChanId)
      requires Valid() && open && c in chans
      modifies this
      ensures Valid() && State() == Step(old(State()), Ready(c))
    {
      StepKeeps(State(), Ready(c));
      hide Inv;
      chans := chans[c := chans[c].(ready := true)];
      ReadyCb(c);
    }

    method Destroyed(c: ChanId)
      requires c in chans
      modifies this
      ensures State() == Destroy(old(State()), c)
    {
      textChannels := textChannels - {chans[c].room};
      chans := chans - {c};
    }

    /** `salut_muc_channel_disconnected`. */
    method Disconnected(c: ChanId)
      requires Valid() && open && c in chans
      modifies this
      ensures Valid() && State() == Step(old(State()), Lost(c))
    {
      hide Inv;
      if !chans[c].ready {
        JoinErrorCb(c, NetworkError);
      }
      Destroyed(c);
      StepKeeps(old(State()), Lost(c));
    }

    /** `salut_muc_channel_leave`; a connected room goes when its connection reports it. */
    method LeaveRoom(c: ChanId)
      requires Valid() && open && c in chans
      modifies this
      ensures Valid() && State() == Step(old(State()), Leave(c))
    {
      hide Inv;
      if !chans[c].ready {
        Destroyed(c);
      }
      StepKeeps(old(State()), Leave(c));
    }

    method CloseTextChannel(c: ChanId)
      requires c in chans
      modifies this
      ensures State() == CloseText(old(State()), c)
    {
      if chans[c].tubes != {} {
        chans := chans[c := chans[c].(autoclose := true)];
        chans := chans[c := chans[c].(registered := false)];
      } else {
        Destroyed(c);
      }
    }

    method CloseChannel(c: ChanId)
      requires Valid() && open && c in chans
      modifies this
      ensures Valid() && State() == Step(old(State()), Close(c))
    {
      hide Inv;
      CloseTextChannel(c);
      StepKeeps(old(State()), Close(c));
    }

    method TubeClosedCb(t: TubeId)
      requires Valid() && Possible(State(), TubeClosed(t))
      modifies this
      ensures Valid() && State() == Step(old(State()), TubeClosed(t))
    {
      StepKeeps(State(), TubeClosed(t));
      var c := owner[t];
      chans := chans[c := chans[c].(tubes := chans[c].tubes - {t})];
      if chans[c].tubes == {} && chans[c].autoclose {
        CloseTextChannel(c);
      }
    }

    method AddAnnouncedTubes(c: ChanId, n: nat)
      requires c in chans
      modifies this
      ensures State() == AnnouncedTubes(old(State()), c, n)
    {
      ghost var m := State();
      for i := 0 to n
        invariant State() == AnnouncedTubes(m, c, i)
      {
        var t := CreateNewTube(c);
        Emit(NewChannel(Tube(t), []));
      }
    }

    /** `salut_muc_channel_received_stanza` for a stanza announcing `newTubes` unknown tubes. */
    method ReceivedStanza(c: ChanId, newTubes: nat)
      requires Valid() && open && c in chans
      modifies this
      ensures Valid() && State() == Step(old(State()), Stanza(c, newTubes))
    {
      hide Inv;
      Reappears(c);
      AddAnnouncedTubes(c, newTubes);
      StepKeeps(old(State()), Stanza(c, newTubes));
    }

    method Reappears(c: ChanId)
      requires c in chans
      modifies this
      ensures State() == Reappear(old(State()), c) && c in chans
    {
      if !chans[c].registered {
        chans := chans[c := chans[c].(registered := true)];
        Emit(NewChannel(Text(c), []));
      }
      chans := chans[c := chans[c].(autoclose := false)];
    }

    /** `cancel_queued_requests` over the hash table, walked in an order of its own. */
    method CancelQueuedRequests() returns (ghost order: seq<Object>)
      modifies this`log
      ensures forall o :: o in order <==> o in queuedRequests
      ensures log == FailAll(old(State()), order, MucRequests.Disconnected).log
    {
      ghost var m := State();
      order := [];
      var remaining := queuedRequests.Keys;
      while remaining != {}
        invariant remaining <= queuedRequests.Keys
        invariant forall o :: o in order <==> o in queuedRequests && o !in remaining
        invariant log == FailAll(m, order, MucRequests.Disconnected).log
      {
        var o :| o in remaining;
        FailAllFrame(m, order, MucRequests.Disconnected);
        assert (order + [o])[..|order|] == order;
        FailRequests(queuedRequests[o], MucRequests.Disconnected);
        order := order + [o];
        remaining := remaining - {o};
      }
    }

    /** `salut_muc_manager_close_all`. */
    method CloseEverything() returns (ghost order: seq<Object>)
      requires Valid() && open
      modifies this
      ensures forall o :: o in order <==> o in old(queuedRequests)
      ensures Valid() && State() == Step(old(State()), CloseAll(order))
    {
      ghost var m := State();
      hide FailAll;
      order := CancelQueuedRequests();
      FailAllFrame(m, order, MucRequests.Disconnected);
      queuedRequests := map[];
      textNeededForTube := map[];
      chans, textChannels, open := map[], map[], false;
      assert State() == CloseAllStep(m, order);
      hide Inv;
      CloseAllKeeps(m, order);
    }
  }
}
