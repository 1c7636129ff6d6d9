/** The rooms seen on the link: an array of service resolvers for each room, from which the browser removes by moving the
    last resolver into the gap, and the signals about rooms coming and going. */
module RoomResolvers {
  import opened Collections

  /** A service, named after its room. */
  datatype Service = Service(interface: int, protocol: int, name: string, kind: string, domain: string)

  datatype Rooms = Rooms(resolvers: map<string, seq<Service>>, log: seq<Notice>)

  const Init := Rooms(map[], [])

  datatype Event = Found(service: Service, attaches: bool) | Lost(service: Service)

  /** `g_array_remove_index_fast`. */
  function RemoveFast(q: seq<Service>, i: nat): seq<Service>
    requires i < |q|
  {
    q[i := q[|q| - 1]][..|q| - 1]
  }

  /** The first place `s` is at, or the length. */
  function Place(q: seq<Service>, s: Service): (i: nat)
    ensures i <= |q| && s !in q[..i] && (i < |q| ==> q[i] == s)
  {
    if q == [] || q[0] == s then 0
    else
      var i := Place(q[1..], s);
      assert q[..i + 1] == [q[0]] + q[1..][..i];
      i + 1
  }

  // ----- the handlers -----

  /** `browser_found`. */
  function FoundStep(t: Rooms, s: Service, attaches: bool): Rooms {
    if !attaches then t
    else Rooms(Enqueue(t.resolvers, s.name, s), if s.name in t.resolvers then t.log else t.log + [Appeared(s.name)])
  }

  /** `browser_removed`. */
  function LostStep(t: Rooms, s: Service): Rooms {
    if s.name !in t.resolvers then t
    else
      var q := t.resolvers[s.name];
      var i := Place(q, s);
      var left := if i < |q| then RemoveFast(q, i) else q;
      if left != [] then t.(resolvers := t.resolvers[s.name := left])
      else Rooms(t.resolvers - {s.name}, t.log + [Gone(s.name)])
  }

  function Step(t: Rooms, e: Event): Rooms {
    match e
    case Found(s, attaches) => FoundStep(t, s, attaches)
    case Lost(s) => LostStep(t, s)
  }

  function After(es: seq<Event>): Rooms {
    if es == [] then Init else Step(After(es[..|es| - 1]), es[|es| - 1])
  }

  // ----- what the events alone say -----

  /** How often `s` was found and attached, less the removals that met one. */
  function Present(es: seq<Event>, s: Service): nat {
    if es == [] then 0
    else
      var n := Present(es[..|es| - 1], s);
      match es[|es| - 1]
      case Found(x, attaches) => if x == s && attaches then n + 1 else n
      case Lost(x) => if x == s && n > 0 then n - 1 else n
  }

  // ----- swapping removal -----

  lemma {:induction false} TimesUpdate(q: seq<Service>, i: nat, x: Service, s: Service)
    requires i < |q|
    ensures Times(q[i := x], s) + (if q[i] == s then 1 else 0) == Times(q, s) + if x == s then 1 else 0
  {
    var p := q[..|q| - 1];
    if i == |q| - 1 {
      assert q[i := x] == p + [x] && q == p + [q[i]];
      TimesAppend(p, x, s);
      TimesAppend(p, q[i], s);
    } else {
      assert q[i := x][..|q| - 1] == p[i := x];
      TimesUpdate(p, i, x, s);
    }
  }

  /** Moving the last element into the gap loses exactly the removed one. */
  lemma RemoveFastTimes(q: seq<Service>, i: nat, s: Service)
    requires i < |q|
    ensures Times(q, s) == Times(RemoveFast(q, i), s) + if q[i] == s then 1 else 0
  {
    var last := q[|q| - 1];
    TimesUpdate(q, i, last, s);
    assert q[i := last] == RemoveFast(q, i) + [last];
    TimesAppend(RemoveFast(q, i), last, s);
  }

  // ----- whole runs -----

  ghost predicate Inv(t: Rooms) {
    && (forall r :: r in t.resolvers ==> t.resolvers[r] != [] && forall s :: s in t.resolvers[r] ==> s.name == r)
    && forall r :: Alternates(t.log, r) && (Known(t.log, r) <==> r in t.resolvers)
  }

  lemma StepKeeps(t: Rooms, e: Event)
    requires Inv(t)
    ensures Inv(Step(t, e))
  {
    var u, name := Step(t, e), e.service.name;
    forall r ensures Alternates(u.log, r) && (Known(u.log, r) <==> r in u.resolvers) {
      assert Alternates(t.log, r) && (Known(t.log, r) <==> r in t.resolvers);
      if u.log != t.log {
        NoticeKeeps(t.log, u.log[|t.log|], r);
      }
    }
    hide Alternates, Known;
  }

  lemma StepCounts(t: Rooms, e: Event, s: Service)
    requires Inv(t)
    ensures var n, m := Times(Queue(t.resolvers, s.name), s), Times(Queue(Step(t, e).resolvers, s.name), s);
      match e
      case Found(x, attaches) => m == if x == s && attaches then n + 1 else n
      case Lost(x) => m == if x == s && n > 0 then n - 1 else n
  {
    hide Inv;
    var q := Queue(t.resolvers, s.name);
    match e
    case Found(x, _) => TimesAppend(q, x, s);
    case Lost(x) =>
      if x.name == s.name && s.name in t.resolvers {
        var i := Place(q, x);
        TimesIn(q, x);
        if i < |q| {
          RemoveFastTimes(q, i, s);
          assert q[i] == x;
        } else {
          assert q[..i] == q;
        }
      }
  }

  /** For every sequence of services found and lost: a room's array holds each service as often as it was found and not
      lost again; no array is empty; and the listed rooms are those last announced, announcements and removals of a room
      alternating. */
  lemma {:induction false} RoomsTracked(es: seq<Event>)
    ensures var t := After(es);
      && (forall s: Service :: Times(Queue(t.resolvers, s.name), s) == Present(es, s))
      && (forall r :: r in t.resolvers ==> t.resolvers[r] != [])
      && (forall r :: Alternates(t.log, r) && (Known(t.log, r) <==> r in t.resolvers))
      && Inv(t)
  {
    if es != [] {
      var before, e := es[..|es| - 1], es[|es| - 1];
      RoomsTracked(before);
      StepKeeps(After(before), e);
      hide Inv, Times, Step, Alternates, Known;
      forall s: Service ensures Times(Queue(After(es).resolvers, s.name), s) == Present(es, s) {
        StepCounts(After(before), e, s);
      }
    }
  }

  /** A room is listed exactly while one of its services is present. */
  lemma ListedWhilePresent(es: seq<Event>, name: string)
    ensures name in After(es).resolvers <==> exists s: Service :: s.name == name && Present(es, s) > 0
  {
    var t := After(es);
    RoomsTracked(es);
    hide Alternates, Known, After, Present;
    if name in t.resolvers {
      var s := t.resolvers[name][0];
      TimesIn(t.resolvers[name], s);
      assert s.name == name && Present(es, s) > 0;
    }
  }

  // ----- as the source runs it -----

  class RoomlistManager {
    var roomResolvers: map<string, seq<Service>>
    var log: seq<Notice>

    ghost function State(): Rooms
      reads this
    {
      Rooms(roomResolvers, log)
    }

    constructor ()
      ensures State() == Init
    {
      roomResolvers, log := map[], [];
    }

    method BrowserFound(service: Service, attaches: bool)
      modifies this
      ensures State() == Step(old(State()), Found(service, attaches))
    {
      if !attaches {
        return;
      }
      if service.name !in roomResolvers {
        roomResolvers := roomResolvers[service.name := []];
        log := log + [Appeared(service.name)];
      }
      roomResolvers := roomResolvers[service.name := roomResolvers[service.name] + [service]];
      assert roomResolvers == Enqueue(old(roomResolvers), service.name, service);
    }

    method BrowserRemoved(service: Service)
      modifies this
      ensures State() == Step(old(State()), Lost(service))
    {
      if service.name !in roomResolvers {
        return;
      }
      var arr := roomResolvers[service.name];
      var i := 0;
      while i < |arr| && arr[i] != service
        invariant 0 <= i <= |arr| && service !in arr[..i]
      {
        i := i + 1;
      }
      FirstPlace(arr, service, i);
      if i < |arr| {
        // g_array_remove_index_fast
        arr := arr[i := arr[|arr| - 1]];
        arr := arr[..|arr| - 1];
        roomResolvers := roomResolvers[service.name := arr];
      }
      if |arr| > 0 {
        assert roomResolvers == old(roomResolvers)[service.name := arr];
        return;
      }
      roomResolvers := roomResolvers - {service.name};
      assert roomResolvers == old(roomResolvers) - {service.name};
      log := log + [Gone(service.name)];
    }

    /** The loop that collects the rooms, in whatever order the table is walked. */
    method GetRooms() returns (rooms: seq<string>)
      ensures forall r :: r in rooms <==> r in roomResolvers
      ensures |rooms| == |roomResolvers|
    {
      rooms := [];
      var remaining := roomResolvers.Keys;
      while remaining != {}
        invariant remaining <= roomResolvers.Keys && |rooms| + |remaining| == |roomResolvers|
        invariant forall r :: r in rooms <==> r in roomResolvers && r !in remaining
      {
        var r :| r in remaining;
        rooms := [r] + rooms;
        remaining := remaining - {r};
      }
    }
  }

  lemma {:induction false} FirstPlace(q: seq<Service>, s: Service, i: nat)
    requires i <= |q| && s !in q[..i] && (i < |q| ==> q[i] == s)
    ensures Place(q, s) == i
  {
    if i > 0 {
      assert q[0] == q[..i][0] && q[1..][..i - 1] == q[..i][1..];
      FirstPlace(q[1..], s, i - 1);
    }
  }
}
