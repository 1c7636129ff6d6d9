/** Tubes in a room: how they are announced, and how the tubes a contact is in follow its announcements. */
module MucTubes {
  import opened Collections
  import opened CStrings

  datatype Kind = Stream | DBus

  /** `names` is the D-Bus name table of a D-Bus tube, by contact; `busName` is our own name on it. */
  datatype Tube = Tube(kind: Kind, initiator: string, service: Option<string>,
                       names: map<string, string>, open: bool, busName: Option<string>)

  /** The attributes of one child of a `tubes` node. */
  type Node = map<string, string>

  /** Who we are, the unique D-Bus name of a contact (its encoding is not part of this model), and LONG_MAX. */
  datatype Env = Env(self: string, uniqueName: string -> string, longMax: nat)

  datatype Info = Info(kind: Kind, initiator: Option<string>, service: Option<string>, id: nat)

  // ----- parsing one node -----

  function ExtractId(n: Node, env: Env): Option<nat> {
    if "id" !in n then None
    else
      var p := Strtol(n["id"], env.longMax);
      if p.rest != "" then None else Some(ToUint32(p.value))
  }

  function ExtractKind(n: Node): Option<Kind> {
    match Get(n, "type")
    case Some(t) => if t == "stream" then Some(Stream) else if t == "dbus" then Some(DBus) else None
    case None => None
  }

  /** `extract_tube_information` with every result asked for. */
  function Extract(n: Node, env: Env): Option<Info> {
    var kind := ExtractKind(n);
    var initiator := Get(n, "initiator");
    var id := ExtractId(n, env);
    if kind == None || initiator == Some("") || id == None then None
    else Some(Info(kind.value, initiator, Get(n, "service"), id.value))
  }

  /** The tube a node about an unknown id makes, if the node is good enough. */
  function NewTube(n: Node, contact: string, env: Env): Option<Tube> {
    match Extract(n, env)
    case None => None
    case Some(Info(Stream, _, service, _)) => Some(Tube(Stream, contact, service, map[], false, None))
    case Some(Info(DBus, None, _, _)) => None
    case Some(Info(DBus, Some(i), service, _)) =>
      Some(Tube(DBus, i, service, map[], false, Some(env.uniqueName(env.self))))
  }

  /** `salut_tube_dbus_add_name` refuses a name of the unique form that is not the contact's. */
  predicate Accepts(contact: string, name: string, env: Env) {
    ":2." <= name ==> name == env.uniqueName(contact)
  }

  predicate Joins(n: Node, contact: string, env: Env) {
    "dbus-name" in n && Accepts(contact, n["dbus-name"], env)
  }

  // ----- what an announcement does to the tube with one id -----

  /** One node about this id: make the tube if it is unknown, then let the contact in if it gives its name. */
  function Visit(t: Option<Tube>, n: Node, contact: string, env: Env): Option<Tube> {
    var t1 := if t.Some? then t else NewTube(n, contact, env);
    if t1.Some? && t1.value.kind.DBus? && contact !in t1.value.names && Joins(n, contact, env)
    then Some(t1.value.(names := t1.value.names[contact := n["dbus-name"]]))
    else t1
  }

  function VisitAll(t: Option<Tube>, nodes: seq<Node>, id: nat, contact: string, env: Env): Option<Tube> {
    if nodes == [] then t
    else
      var p := VisitAll(t, nodes[..|nodes| - 1], id, contact, env);
      var n := nodes[|nodes| - 1];
      if ExtractId(n, env) == Some(id) then Visit(p, n, contact, env) else p
  }

  ghost predicate Announced(nodes: seq<Node>, id: nat, env: Env) {
    exists i :: 0 <= i < |nodes| && ExtractId(nodes[i], env) == Some(id)
  }

  /** `salut_tube_dbus_remove_name`. */
  function Left(t: Tube, contact: string): Tube { t.(names := t.names - {contact}) }

  function WithoutIf(b: bool, t: Tube, contact: string): Tube { if b then Left(t, contact) else t }

  /** The whole announcement: a contact that no longer announces a tube it was in leaves it. */
  ghost function Reconciled(t: Option<Tube>, nodes: seq<Node>, id: nat, contact: string, env: Env): Option<Tube> {
    if t.Some? && contact in t.value.names && !Announced(nodes, id, env)
    then Some(Left(t.value, contact))
    else VisitAll(t, nodes, id, contact, env)
  }

  // ----- the room -----

  ghost predicate AllDBus(tubes: map<nat, Tube>) { forall id :: id in tubes ==> tubes[id].kind.DBus? }

  class MucChannel {
    const env: Env
    var tubes: map<nat, Tube>

    constructor (env: Env)
      ensures this.env == env && tubes == map[]
    {
      this.env := env;
      tubes := map[];
    }

    /** The D-Bus tubes the contact was in before, unless some tube is not a D-Bus tube. */
    method OldDBusTubes(contact: string) returns (allDBus: bool, found: set<nat>)
      ensures allDBus <==> AllDBus(tubes)
      ensures allDBus ==> forall id :: id in found <==> id in tubes && contact in tubes[id].names
    {
      found := {};
      var ids := tubes.Keys;
      while ids != {}
        invariant ids <= tubes.Keys
        invariant forall id :: id in tubes && id !in ids ==> tubes[id].kind.DBus?
        invariant forall id :: id in found <==> id in tubes && id !in ids && contact in tubes[id].names
      {
        var id :| id in ids;
        ids := ids - {id};
        if tubes[id].kind != DBus {
          return false, {};
        }
        if contact in tubes[id].names {
          found := found + {id};
        }
      }
      allDBus := true;
    }

    /** One node of the announcement whose id is `id`: make the tube, then let the contact in. */
    method HandleNode(n: Node, id: nat, contact: string) returns (created: bool)
      modifies this
      ensures Get(tubes, id) == Visit(Get(old(tubes), id), n, contact, env)
      ensures forall i: nat :: i != id ==> Get(tubes, i) == Get(old(tubes), i)
      ensures tubes.Keys == old(tubes.Keys) + if created then {id} else {}
      ensures created ==> id !in old(tubes)
    {
      var tube := Get(tubes, id);
      if tube == None {
        tube := NewTube(n, contact, env);
      }
      created := tube.Some? && id !in tubes;
      if tube.Some? {
        if tube.value.kind == DBus && contact !in tube.value.names && Joins(n, contact, env) {
          tube := Some(tube.value.(names := tube.value.names[contact := n["dbus-name"]]));
        }
        tubes := tubes[id := tube.value];
      }
    }

    /** `muc_channel_handle_tubes`; `created` are the ids NEW_TUBE was emitted for. */
    method HandleTubes(contact: string, groupchat: bool, nodes: seq<Node>) returns (created: seq<nat>)
      modifies this
      ensures contact == env.self || !groupchat || !AllDBus(old(tubes)) ==> tubes == old(tubes) && created == []
      ensures contact != env.self && groupchat && AllDBus(old(tubes)) ==>
        forall id: nat :: Get(tubes, id) == Reconciled(Get(old(tubes), id), nodes, id, contact, env)
      ensures Distinct(created) && forall id :: id in created <==> id in tubes && id !in old(tubes)
    {
      hide Visit, NewTube, Joins, ExtractId;
      created := [];
      if contact == env.self || !groupchat {
        return;
      }
      var allDBus, oldDBusTubes := OldDBusTubes(contact);
      if !allDBus {
        return;
      }
      ghost var before := tubes;
      for i := 0 to |nodes|
        invariant AllDBus(before) && before == old(tubes)
        invariant forall id: nat :: Get(tubes, id) == VisitAll(Get(before, id), nodes[..i], id, contact, env)
        invariant forall id :: id in before ==> id in tubes
        invariant forall id :: id in oldDBusTubes <==>
          id in before && contact in before[id].names && !Announced(nodes[..i], id, env)
        invariant Distinct(created) && forall id :: id in created <==> id in tubes && id !in before
      {
        var n := nodes[i];
        assert nodes[..i + 1][..i] == nodes[..i] && nodes[..i + 1][i] == n;
        AnnouncedSnoc(nodes, i, env);
        var id := ExtractId(n, env);
        if id.Some? {
          oldDBusTubes := oldDBusTubes - {id.value};
          var isNew := HandleNode(n, id.value, contact);
          if isNew {
            created := created + [id.value];
          }
        }
      }
      assert nodes[..|nodes|] == nodes;
      RemoveNames(oldDBusTubes, contact);
      forall id: nat ensures Get(tubes, id) == Reconciled(Get(before, id), nodes, id, contact, env) {
        if id in oldDBusTubes {
          UnannouncedUntouched(Get(before, id), nodes, id, contact, env);
        }
      }
    }

    method RemoveNames(ids: set<nat>, contact: string)
      requires ids <= tubes.Keys
      modifies this
      ensures tubes.Keys == old(tubes.Keys)
      ensures forall id :: id in tubes ==> tubes[id] == WithoutIf(id in ids, old(tubes)[id], contact)
    {
      var left := ids;
      while left != {}
        invariant left <= ids <= tubes.Keys == old(tubes.Keys)
        invariant forall id :: id in tubes ==> tubes[id] == WithoutIf(id in ids - left, old(tubes)[id], contact)
      {
        var id :| id in left;
        tubes := tubes[id := Left(tubes[id], contact)];
        left := left - {id};
      }
    }

    /** `update_tube_info`: the message sent, if one is; the hash table is walked in an order of its own. */
    method UpdateTubeInfo() returns (message: Option<seq<Node>>, ghost order: seq<nat>)
      ensures message.None? <==> exists id :: id in tubes && ForeignOpenStream(tubes[id], env)
      ensures message.Some? ==> IsAnnouncement(tubes, order, message.value)
    {
      var nodes := [];
      order := [];
      var left := tubes.Keys;
      while left != {}
        invariant left <= tubes.Keys
        invariant forall id :: id in tubes && id !in left ==> !ForeignOpenStream(tubes[id], env)
        invariant forall id :: id in order <==> id in tubes && id !in left && tubes[id].open
        invariant Distinct(order) && |nodes| == |order|
        invariant forall i :: 0 <= i < |nodes| ==> order[i] in tubes && nodes[i] == PublishNode(order[i], tubes[order[i]])
      {
        var id :| id in left;
        left := left - {id};
        if tubes[id].open {
          if tubes[id].kind == Stream && tubes[id].initiator != env.self {
            return None, [];
          }
          nodes := nodes + [PublishNode(id, tubes[id])];
          order := order + [id];
        }
      }
      message := Some(nodes);
    }

    /** `tube_closed_cb`: what is announced while the tube closes, and then it goes. */
    method TubeClosed(id: nat) returns (message: Option<seq<Node>>, ghost order: seq<nat>)
      requires id in tubes
      modifies this
      ensures tubes == old(tubes) - {id}
      ensures message.None? <==> exists i :: i in old(tubes) && ForeignOpenStream(old(tubes)[i], env)
      ensures message.Some? ==> IsAnnouncement(WhileClosing(old(tubes), id), order, message.value)
    {
      ghost var was := tubes;
      tubes := tubes[id := Closing(tubes[id])];
      message, order := UpdateTubeInfo();
      assert forall i :: i in was ==> (ForeignOpenStream(was[i], env) <==> ForeignOpenStream(tubes[i], env));
      tubes := tubes - {id};
    }

    /** `generate_tube_id` with the numbers the random source yields; `None` if it is asked for more. */
    method GenerateTubeId(draws: seq<nat>) returns (id: Option<nat>)
      requires forall i :: 0 <= i < |draws| ==> 1 <= draws[i] < 0x7fff_ffff
      ensures id.Some? ==> 1 <= id.value < 0x7fff_ffff && id.value !in tubes && id.value in draws
      ensures id.None? ==> forall d :: d in draws ==> d in tubes
    {
      for i := 0 to |draws|
        invariant forall j :: 0 <= j < i ==> draws[j] in tubes
      {
        if draws[i] !in tubes {
          return Some(draws[i]);
        }
      }
      id := None;
    }
  }

  // ----- publishing -----

  /** `publish_tube_in_node`. */
  function PublishNode(id: nat, t: Tube): Node {
    var n: Node := map["id" := PrintNat(id)];
    var n := if t.service.Some? then n["service" := t.service.value] else n;
    match t.kind
    case Stream => n["type" := "stream"]
    case DBus =>
      var n := n["type" := "dbus"]["initiator" := t.initiator];
      if t.busName.Some? then n["dbus-name" := t.busName.value] else n
  }

  predicate ForeignOpenStream(t: Tube, env: Env) { t.open && t.kind.Stream? && t.initiator != env.self }

  /** A tube while it closes: a D-Bus tube has lost its bytestream and is not open any more, a stream tube keeps the state
      it was in. */
  function Closing(t: Tube): Tube { if t.kind.DBus? then t.(open := false) else t }

  function WhileClosing(tubes: map<nat, Tube>, id: nat): map<nat, Tube>
    requires id in tubes
  {
    tubes[id := Closing(tubes[id])]
  }

  /** A message that names each open tube once. */
  ghost predicate IsAnnouncement(tubes: map<nat, Tube>, order: seq<nat>, nodes: seq<Node>) {
    && Distinct(order) && |nodes| == |order|
    && (forall id :: id in order <==> id in tubes && tubes[id].open)
    && (forall i :: 0 <= i < |nodes| ==> order[i] in tubes && nodes[i] == PublishNode(order[i], tubes[order[i]]))
  }

  // ----- lemmas -----

  lemma AnnouncedSnoc(nodes: seq<Node>, i: nat, env: Env)
    requires i < |nodes|
    ensures forall id: nat ::
      Announced(nodes[..i + 1], id, env) <==> Announced(nodes[..i], id, env) || ExtractId(nodes[i], env) == Some(id)
  {
    hide ExtractId;
    forall id: nat
      ensures Announced(nodes[..i + 1], id, env) <==> Announced(nodes[..i], id, env) || ExtractId(nodes[i], env) == Some(id)
    {
      if Announced(nodes[..i], id, env) {
        var k :| 0 <= k < i && ExtractId(nodes[..i][k], env) == Some(id);
        assert nodes[..i + 1][k] == nodes[..i][k];
      }
      if ExtractId(nodes[i], env) == Some(id) {
        assert nodes[..i + 1][i] == nodes[i];
      }
      if Announced(nodes[..i + 1], id, env) {
        var k :| 0 <= k < i + 1 && ExtractId(nodes[..i + 1][k], env) == Some(id);
        assert k < i ==> nodes[..i][k] == nodes[..i + 1][k];
      }
    }
  }

  lemma {:induction false} UnannouncedUntouched(t: Option<Tube>, nodes: seq<Node>, id: nat, contact: string, env: Env)
    requires !Announced(nodes, id, env)
    ensures VisitAll(t, nodes, id, contact, env) == t
  {
    if nodes != [] {
      var i := |nodes| - 1;
      AnnouncedSnoc(nodes, i, env);
      assert nodes[..i + 1] == nodes;
      UnannouncedUntouched(t, nodes[..i], id, contact, env);
    }
  }

  /** Node `k` can make the tube `id`, and the contact gives an acceptable name for it from node `k` on. */
  ghost predicate Creates(nodes: seq<Node>, k: nat, id: nat, contact: string, env: Env) {
    k < |nodes| && ExtractId(nodes[k], env) == Some(id) && NewTube(nodes[k], contact, env).Some?
  }

  ghost predicate JoinsFrom(nodes: seq<Node>, k: nat, id: nat, contact: string, env: Env) {
    exists j :: k <= j < |nodes| && ExtractId(nodes[j], env) == Some(id) && Joins(nodes[j], contact, env)
  }

  ghost predicate CreatesThenJoins(nodes: seq<Node>, id: nat, contact: string, env: Env) {
    exists k: nat :: Creates(nodes, k, id, contact, env) && JoinsFrom(nodes, k, id, contact, env)
  }

  ghost predicate SomeCreates(nodes: seq<Node>, id: nat, contact: string, env: Env) {
    exists k: nat :: Creates(nodes, k, id, contact, env)
  }

  lemma SomeCreatesSnoc(nodes: seq<Node>, id: nat, contact: string, env: Env)
    requires nodes != []
    ensures var n := nodes[|nodes| - 1]; var p := nodes[..|nodes| - 1];
      SomeCreates(nodes, id, contact, env) <==>
        SomeCreates(p, id, contact, env) || (ExtractId(n, env) == Some(id) && NewTube(n, contact, env).Some?)
  {
    hide NewTube, ExtractId;
    var i: nat := |nodes| - 1;
    var p := nodes[..i];
    if k: nat :| Creates(nodes, k, id, contact, env) {
      assert k < i ==> Creates(p, k, id, contact, env);
    }
    if k: nat :| Creates(p, k, id, contact, env) {
      assert Creates(nodes, k, id, contact, env);
    }
    assert ExtractId(nodes[i], env) == Some(id) && NewTube(nodes[i], contact, env).Some? ==> Creates(nodes, i, id, contact, env);
  }

  lemma JoinsFromSnoc(nodes: seq<Node>, k: nat, id: nat, contact: string, env: Env)
    requires nodes != []
    ensures var n := nodes[|nodes| - 1]; var p := nodes[..|nodes| - 1];
      JoinsFrom(nodes, k, id, contact, env) <==>
        JoinsFrom(p, k, id, contact, env) || (k < |nodes| && ExtractId(n, env) == Some(id) && Joins(n, contact, env))
  {
    hide Joins, ExtractId;
    var i := |nodes| - 1;
    var p := nodes[..i];
    if j :| k <= j < |nodes| && ExtractId(nodes[j], env) == Some(id) && Joins(nodes[j], contact, env) {
      assert j < i ==> p[j] == nodes[j];
    }
    if j :| k <= j < |p| && ExtractId(p[j], env) == Some(id) && Joins(p[j], contact, env) {
      assert nodes[j] == p[j];
    }
  }

  lemma CreatesThenJoinsSnoc(nodes: seq<Node>, id: nat, contact: string, env: Env)
    requires nodes != []
    ensures var n := nodes[|nodes| - 1]; var p := nodes[..|nodes| - 1];
      CreatesThenJoins(nodes, id, contact, env) <==>
        CreatesThenJoins(p, id, contact, env) ||
        (ExtractId(n, env) == Some(id) && Joins(n, contact, env) && SomeCreates(nodes, id, contact, env))
    ensures CreatesThenJoins(nodes[..|nodes| - 1], id, contact, env) ==> SomeCreates(nodes[..|nodes| - 1], id, contact, env)
  {
    hide NewTube, ExtractId, JoinsFrom, Joins;
    var i := |nodes| - 1;
    var n, p := nodes[i], nodes[..i];
    if k: nat :| Creates(nodes, k, id, contact, env) && JoinsFrom(nodes, k, id, contact, env) {
      JoinsFromSnoc(nodes, k, id, contact, env);
      if JoinsFrom(p, k, id, contact, env) {
        JoinsWithin(p, k, id, contact, env);
        assert Creates(p, k, id, contact, env);
      }
    }
    if k: nat :| Creates(p, k, id, contact, env) && JoinsFrom(p, k, id, contact, env) {
      JoinsFromSnoc(nodes, k, id, contact, env);
      assert Creates(nodes, k, id, contact, env);
    }
    if ExtractId(n, env) == Some(id) && Joins(n, contact, env) && SomeCreates(nodes, id, contact, env) {
      var k: nat :| Creates(nodes, k, id, contact, env);
      JoinsFromSnoc(nodes, k, id, contact, env);
    }
  }

  lemma JoinsWithin(nodes: seq<Node>, k: nat, id: nat, contact: string, env: Env)
    requires JoinsFrom(nodes, k, id, contact, env)
    ensures k < |nodes|
  {
  }

  /** What one node does to a tube that was D-Bus or unknown. */
  lemma VisitMembership(t: Option<Tube>, n: Node, contact: string, env: Env)
    ensures var r := Visit(t, n, contact, env);
      && (r.Some? <==> t.Some? || NewTube(n, contact, env).Some?)
      && (t.Some? ==> r.value == t.value.(names := r.value.names) && r.value.names - {contact} == t.value.names - {contact})
      && (t.None? && r.Some? ==> r.value.names - {contact} == map[])
      && (r.Some? && r.value.kind.DBus? ==>
          (contact in r.value.names <==> (t.Some? && contact in t.value.names) || Joins(n, contact, env)))
  {
    if t.None? && NewTube(n, contact, env).Some? {
      assert NewTube(n, contact, env).value.names == map[];
    }
  }

  lemma NothingFromNothing(id: nat, contact: string, env: Env)
    ensures !SomeCreates([], id, contact, env) && !JoinsFrom([], 0, id, contact, env) && !CreatesThenJoins([], id, contact, env)
  {
  }

  /** What visiting all nodes does to a tube that was D-Bus or unknown. */
  lemma {:induction false} VisitedMembership(t: Option<Tube>, nodes: seq<Node>, id: nat, contact: string, env: Env)
    requires t.Some? ==> t.value.kind.DBus?
    ensures var r := VisitAll(t, nodes, id, contact, env);
      && (r.Some? <==> t.Some? || SomeCreates(nodes, id, contact, env))
      && (t.Some? ==> r.value == t.value.(names := r.value.names) && r.value.names - {contact} == t.value.names - {contact})
      && (t.None? && r.Some? ==> r.value.names - {contact} == map[])
      && (r.Some? && r.value.kind.DBus? ==>
          (contact in r.value.names <==>
            if t.Some? then contact in t.value.names || JoinsFrom(nodes, 0, id, contact, env)
            else CreatesThenJoins(nodes, id, contact, env)))
  {
    hide Visit, NewTube, ExtractId, Joins, SomeCreates, JoinsFrom, CreatesThenJoins;
    if nodes == [] {
      NothingFromNothing(id, contact, env);
    } else {
      var n, p := nodes[|nodes| - 1], nodes[..|nodes| - 1];
      SomeCreatesSnoc(nodes, id, contact, env);
      JoinsFromSnoc(nodes, 0, id, contact, env);
      CreatesThenJoinsSnoc(nodes, id, contact, env);
      VisitedMembership(t, p, id, contact, env);
      VisitMembership(VisitAll(t, p, id, contact, env), n, contact, env);
    }
  }

  /** Tube reconciliation. After an announcement the contact is in exactly the D-Bus tubes whose id it announced and in
      which it already was or gave an acceptable name (for a new tube: from the node that made it on); a tube exists if it
      did or if a well-formed node announced it; nothing else about a known tube and nobody else's membership changes. */
  lemma ReconciledMembership(t: Option<Tube>, nodes: seq<Node>, id: nat, contact: string, env: Env)
    requires t.Some? ==> t.value.kind.DBus?
    ensures var r := Reconciled(t, nodes, id, contact, env);
      && (r.Some? <==> t.Some? || SomeCreates(nodes, id, contact, env))
      && (t.Some? ==> r.value == t.value.(names := r.value.names) && r.value.names - {contact} == t.value.names - {contact})
      && (t.None? && r.Some? ==> r.value.names - {contact} == map[])
      && (r.Some? && r.value.kind.DBus? ==>
          (contact in r.value.names <==>
            if t.Some? then
              Announced(nodes, id, env) && (contact in t.value.names || JoinsFrom(nodes, 0, id, contact, env))
            else CreatesThenJoins(nodes, id, contact, env)))
  {
    VisitedMembership(t, nodes, id, contact, env);
  }

  /** Handling the same announcement again changes nothing in the tubes that were known before it. */
  lemma AnnouncementSettles(t: Tube, nodes: seq<Node>, id: nat, contact: string, env: Env)
    requires t.kind.DBus?
    ensures var r := Reconciled(Some(t), nodes, id, contact, env); Reconciled(r, nodes, id, contact, env) == r
  {
    var r := Reconciled(Some(t), nodes, id, contact, env);
    ReconciledMembership(Some(t), nodes, id, contact, env);
    if contact in r.value.names {
      NamedUntouched(r.value, nodes, id, contact, env);
    } else if Announced(nodes, id, env) {
      NotJoiningUntouched(r.value, nodes, id, contact, env);
    } else {
      UnannouncedUntouched(r, nodes, id, contact, env);
    }
  }

  lemma {:induction false} NamedUntouched(t: Tube, nodes: seq<Node>, id: nat, contact: string, env: Env)
    requires contact in t.names
    ensures VisitAll(Some(t), nodes, id, contact, env) == Some(t)
  {
    if nodes != [] {
      NamedUntouched(t, nodes[..|nodes| - 1], id, contact, env);
    }
  }

  lemma {:induction false} NotJoiningUntouched(t: Tube, nodes: seq<Node>, id: nat, contact: string, env: Env)
    requires !JoinsFrom(nodes, 0, id, contact, env)
    ensures VisitAll(Some(t), nodes, id, contact, env) == Some(t)
  {
    if nodes != [] {
      JoinsFromSnoc(nodes, 0, id, contact, env);
      NotJoiningUntouched(t, nodes[..|nodes| - 1], id, contact, env);
    }
  }

  /** Parsing a published node gives back type, id, service and, for D-Bus, the initiator, exactly when the id fits
      a long and a D-Bus tube has an initiator. */
  lemma AnnouncementRoundTrip(id: nat, t: Tube, env: Env)
    requires id < UINT32
    ensures Extract(PublishNode(id, t), env) ==
              Some(Info(t.kind, if t.kind.DBus? then Some(t.initiator) else None, t.service, id))
            <==> id <= env.longMax && (t.kind.DBus? ==> t.initiator != "")
    ensures id <= env.longMax ==> ExtractId(PublishNode(id, t), env) == Some(id)
  {
    ParsePrinted(id, env.longMax);
    hide PrintNat, Strtol;
    var n := PublishNode(id, t);
    assert n["id"] == PrintNat(id);
    assert Get(n, "service") == t.service;
  }

  /** The ids `generate_tube_id` makes always survive, whatever the width of a long. */
  lemma GeneratedIdsRoundTrip(id: nat, t: Tube, env: Env)
    requires 1 <= id < 0x7fff_ffff <= env.longMax
    requires t.kind.DBus? ==> t.initiator != ""
    ensures Extract(PublishNode(id, t), env) ==
            Some(Info(t.kind, if t.kind.DBus? then Some(t.initiator) else None, t.service, id))
  {
    AnnouncementRoundTrip(id, t, env);
  }

  /** A sender that holds only D-Bus tubes and names itself acceptably on its open ones. */
  ghost predicate NamesItself(sent: map<nat, Tube>, sender: string, env: Env) {
    AllDBus(sent) && forall i :: i in sent && sent[i].open ==>
      && i <= env.longMax && i < UINT32 && sent[i].initiator != ""
      && sent[i].busName.Some? && Accepts(sender, sent[i].busName.value, env)
  }

  /** Convergence. When both sides hold only D-Bus tubes and the sender names itself acceptably on its open ones, one
      publish-then-handle leaves the sender in exactly its open tubes in the receiver's view. */
  lemma PublishThenHandleConverges(sent: map<nat, Tube>, order: seq<nat>, nodes: seq<Node>, sender: string,
                                   received: Option<Tube>, id: nat, env: Env)
    requires NamesItself(sent, sender, env) && (received.Some? ==> received.value.kind.DBus?)
    requires IsAnnouncement(sent, order, nodes)
    ensures var r := Reconciled(received, nodes, id, sender, env);
      && (r.Some? ==> r.value.kind.DBus?)
      && (r.Some? && sender in r.value.names <==> id in sent && sent[id].open)
  {
    ReconciledMembership(received, nodes, id, sender, env);
    forall k: nat | k < |nodes|
      ensures ExtractId(nodes[k], env) == Some(order[k])
      ensures Joins(nodes[k], sender, env)
      ensures NewTube(nodes[k], sender, env).Some? && NewTube(nodes[k], sender, env).value.kind.DBus?
    {
      assert order[k] in order;
      AnnouncementRoundTrip(order[k], sent[order[k]], env);
    }
    if id in sent && sent[id].open {
      var k: nat :| k < |order| && order[k] == id;
      assert Creates(nodes, k, id, sender, env);
      assert JoinsFrom(nodes, k, id, sender, env) && JoinsFrom(nodes, 0, id, sender, env);
    } else {
      forall k: nat | k < |nodes| ensures ExtractId(nodes[k], env) != Some(id) {
        assert order[k] in order;
      }
    }
    KindVisited(received, nodes, id, sender, DBus, env);
  }

  lemma {:induction false} KindVisited(t: Option<Tube>, nodes: seq<Node>, id: nat, contact: string, kind: Kind, env: Env)
    requires t.Some? ==> t.value.kind == kind
    requires forall k :: 0 <= k < |nodes| && ExtractId(nodes[k], env) == Some(id) && NewTube(nodes[k], contact, env).Some? ==>
      NewTube(nodes[k], contact, env).value.kind == kind
    ensures var r := VisitAll(t, nodes, id, contact, env); r.Some? ==> r.value.kind == kind
  {
    if nodes != [] {
      KindVisited(t, nodes[..|nodes| - 1], id, contact, kind, env);
    }
  }

  /** One announcement: the tubes of the sender then, in the order they were walked, and what was sent. */
  datatype Announcement = Announcement(sent: map<nat, Tube>, order: seq<nat>, nodes: seq<Node>)

  ghost function HandledAll(t: Option<Tube>, ms: seq<Announcement>, id: nat, sender: string, env: Env): Option<Tube> {
    if ms == [] then t
    else Reconciled(HandledAll(t, ms[..|ms| - 1], id, sender, env), ms[|ms| - 1].nodes, id, sender, env)
  }

  /** Over any sequence of announcements the view of the receiver is that of the last one: the sender is in exactly the
      tubes that were open then, whatever it had opened and closed before. */
  lemma {:induction false} LastAnnouncementDecides(t: Option<Tube>, ms: seq<Announcement>, id: nat, sender: string, env: Env)
    requires t.Some? ==> t.value.kind.DBus?
    requires forall m :: m in ms ==> NamesItself(m.sent, sender, env) && IsAnnouncement(m.sent, m.order, m.nodes)
    ensures var r := HandledAll(t, ms, id, sender, env);
      && (r.Some? ==> r.value.kind.DBus?)
      && (ms != [] ==> (r.Some? && sender in r.value.names <==> var last := ms[|ms| - 1].sent; id in last && last[id].open))
  {
    if ms != [] {
      var before, m := ms[..|ms| - 1], ms[|ms| - 1];
      hide NamesItself, IsAnnouncement, Reconciled;
      LastAnnouncementDecides(t, before, id, sender, env);
      PublishThenHandleConverges(m.sent, m.order, m.nodes, sender, HandledAll(t, before, id, sender, env), id, env);
    }
  }

  /** A D-Bus tube that closes: the announcement made then takes the sender out of it in the receiver's view, and leaves it
      in its other open tubes. */
  lemma ClosingLeaves(sent: map<nat, Tube>, closed: nat, order: seq<nat>, nodes: seq<Node>, sender: string,
                      received: Option<Tube>, id: nat, env: Env)
    requires closed in sent && NamesItself(sent, sender, env) && (received.Some? ==> received.value.kind.DBus?)
    requires IsAnnouncement(WhileClosing(sent, closed), order, nodes)
    ensures var r := Reconciled(received, nodes, id, sender, env);
      r.Some? && sender in r.value.names <==> id != closed && id in sent && sent[id].open
  {
    var atClose := WhileClosing(sent, closed);
    assert forall i :: i in atClose ==> atClose[i] == if i == closed then Closing(sent[i]) else sent[i];
    assert NamesItself(atClose, sender, env);
    hide NamesItself, Reconciled, IsAnnouncement;
    PublishThenHandleConverges(atClose, order, nodes, sender, received, id, env);
  }

  /** A stream tube keeps its state while it closes: the announcement made then still names it, and a contact that does not
      know it makes it anew, if and only if it was an open stream tube. */
  lemma ClosedStreamReappears(sent: map<nat, Tube>, closed: nat, order: seq<nat>, nodes: seq<Node>, sender: string, env: Env)
    requires closed in sent && IsAnnouncement(WhileClosing(sent, closed), order, nodes)
    requires forall i :: i in sent && sent[i].open ==> i <= env.longMax && i < UINT32
    ensures var r := Reconciled(None, nodes, closed, sender, env);
      && (closed in order <==> sent[closed].kind.Stream? && sent[closed].open)
      && (r.Some? <==> sent[closed].kind.Stream? && sent[closed].open)
      && (r.Some? ==> r.value.kind.Stream? && r.value.initiator == sender && r.value.service == sent[closed].service)
  {
    var atClose := WhileClosing(sent, closed);
    assert forall k :: 0 <= k < |order| ==> order[k] in order;
    forall k: nat | k < |nodes| ensures ExtractId(nodes[k], env) == Some(order[k]) {
      AnnouncementRoundTrip(order[k], atClose[order[k]], env);
    }
    if closed in order {
      var k: nat :| k < |order| && order[k] == closed;
      OnceVisited(nodes, k, closed, sender, env);
      AnnouncementRoundTrip(closed, atClose[closed], env);
    } else {
      UnannouncedUntouched(None, nodes, closed, sender, env);
    }
  }

  /** One node alone about an unknown id. */
  lemma {:induction false} OnceVisited(nodes: seq<Node>, k: nat, id: nat, contact: string, env: Env)
    requires k < |nodes| && forall j :: 0 <= j < |nodes| ==> (ExtractId(nodes[j], env) == Some(id) <==> j == k)
    ensures VisitAll(None, nodes, id, contact, env) == Visit(None, nodes[k], contact, env)
  {
    hide Visit, ExtractId;
    var n := |nodes| - 1;
    if k == n {
      assert !Announced(nodes[..n], id, env);
      UnannouncedUntouched(None, nodes[..n], id, contact, env);
    } else {
      OnceVisited(nodes[..n], k, id, contact, env);
    }
  }

  // ----- what a tube is made of -----

  /** A node good enough to make the tube `id`: it has that id, a known type, and an initiator if that is needed. */
  predicate Makes(n: Node, id: nat, env: Env) {
    && ExtractId(n, env) == Some(id) && "type" in n && ("initiator" in n ==> n["initiator"] != "")
    && (n["type"] == "stream" || (n["type"] == "dbus" && "initiator" in n))
  }

  /** A node by which the contact joins the tube `id`: it gives a name, which is its own if it is of the unique form. */
  predicate Enters(n: Node, id: nat, contact: string, env: Env) {
    && ExtractId(n, env) == Some(id) && "dbus-name" in n
    && (":2." <= n["dbus-name"] ==> n["dbus-name"] == env.uniqueName(contact))
  }

  ghost predicate FirstMakes(nodes: seq<Node>, k: nat, id: nat, env: Env) {
    k < |nodes| && Makes(nodes[k], id, env) && forall i :: 0 <= i < k ==> !Makes(nodes[i], id, env)
  }

  ghost predicate FirstEnters(nodes: seq<Node>, k: nat, id: nat, contact: string, env: Env) {
    k < |nodes| && Enters(nodes[k], id, contact, env) && forall i :: 0 <= i < k ==> !Enters(nodes[i], id, contact, env)
  }

  /** The tube the contact's node describes: its initiator is the one named for D-Bus and the contact for a stream. */
  predicate Described(t: Tube, n: Node, contact: string, env: Env) {
    && "type" in n && t.service == Get(n, "service") && !t.open
    && (n["type"] == "stream" ==> t.kind.Stream? && t.initiator == contact && t.busName == None && t.names == map[])
    && (n["type"] == "dbus" ==> t.kind.DBus? && Some(t.initiator) == Get(n, "initiator") && t.busName == Some(env.uniqueName(env.self)))
  }

  lemma MakesIff(n: Node, id: nat, contact: string, env: Env)
    ensures ExtractId(n, env) == Some(id) ==> (NewTube(n, contact, env).Some? <==> Makes(n, id, env))
    ensures Makes(n, id, env) ==> var t := NewTube(n, contact, env).value; Described(t, n, contact, env) && t.names == map[]
  {
  }

  lemma {:induction false} VisitAllConcat(t: Option<Tube>, a: seq<Node>, b: seq<Node>, id: nat, contact: string, env: Env)
    ensures VisitAll(t, a + b, id, contact, env) == VisitAll(VisitAll(t, a, id, contact, env), b, id, contact, env)
  {
    if b == [] {
      assert a + b == a;
    } else {
      var c := b[..|b| - 1];
      assert (a + b)[..|a + b| - 1] == a + c;
      VisitAllConcat(t, a, c, id, contact, env);
    }
  }

  lemma {:induction false} NotMade(nodes: seq<Node>, id: nat, contact: string, env: Env)
    requires forall i :: 0 <= i < |nodes| ==> !Makes(nodes[i], id, env)
    ensures VisitAll(None, nodes, id, contact, env) == None
  {
    hide Visit, Makes, NewTube, ExtractId;
    if nodes != [] {
      var n := nodes[|nodes| - 1];
      NotMade(nodes[..|nodes| - 1], id, contact, env);
      MakesIff(n, id, contact, env);
      VisitMembership(None, n, contact, env);
    }
  }

  /** What visiting does to a D-Bus tube the contact is not in: it enters by the first node that gives its name, under that
      name, and by no other. */
  lemma {:induction false} KnownEntered(t: Tube, nodes: seq<Node>, id: nat, contact: string, env: Env)
    requires t.kind.DBus? && contact !in t.names
    ensures var r := VisitAll(Some(t), nodes, id, contact, env);
      && (forall j: nat :: FirstEnters(nodes, j, id, contact, env) ==>
            r == Some(t.(names := t.names[contact := nodes[j]["dbus-name"]])))
      && ((forall i :: 0 <= i < |nodes| ==> !Enters(nodes[i], id, contact, env)) ==> r == Some(t))
  {
    if nodes != [] {
      var m, n := |nodes| - 1, nodes[|nodes| - 1];
      var p := nodes[..m];
      KnownEntered(t, p, id, contact, env);
      var r := VisitAll(Some(t), nodes, id, contact, env);
      forall j: nat | FirstEnters(nodes, j, id, contact, env)
        ensures r == Some(t.(names := t.names[contact := nodes[j]["dbus-name"]]))
      {
        if j < m {
          assert FirstEnters(p, j, id, contact, env);
        }
      }
      hide ExtractId;
    }
  }

  /** The tube made for an unknown id is what the first node able to make it describes; a D-Bus tube the contact is in from
      its first node, at that one or later, that gives its name, under that name; and without such a node there is none. */
  lemma TubeMade(nodes: seq<Node>, id: nat, contact: string, env: Env)
    ensures var r := Reconciled(None, nodes, id, contact, env);
      && (r.Some? <==> exists k: nat :: FirstMakes(nodes, k, id, env))
      && forall k: nat :: FirstMakes(nodes, k, id, env) ==>
        && Described(r.value, nodes[k], contact, env)
        && (forall j: nat :: r.value.kind.DBus? && FirstEnters(nodes[k..], j, id, contact, env) ==>
              r.value.names == map[contact := nodes[k + j]["dbus-name"]])
        && ((forall i :: k <= i < |nodes| ==> !Enters(nodes[i], id, contact, env)) ==> r.value.names == map[])
  {
    hide Makes, Enters, Described, VisitAll;
    var r := Reconciled(None, nodes, id, contact, env);
    forall k: nat | FirstMakes(nodes, k, id, env)
      ensures r.Some? && MadeBy(r.value, nodes, k, id, contact, env)
    {
      MadeFirst(nodes, k, id, contact, env);
    }
    if !exists k: nat :: FirstMakes(nodes, k, id, env) {
      NoFirst(nodes, |nodes|, id, env);
      NotMade(nodes, id, contact, env);
    }
  }

  ghost predicate MadeBy(t: Tube, nodes: seq<Node>, k: nat, id: nat, contact: string, env: Env)
    requires k < |nodes|
  {
    && Described(t, nodes[k], contact, env)
    && (forall j: nat :: t.kind.DBus? && FirstEnters(nodes[k..], j, id, contact, env) ==>
          t.names == map[contact := nodes[k + j]["dbus-name"]])
    && ((forall i :: k <= i < |nodes| ==> !Enters(nodes[i], id, contact, env)) ==> t.names == map[])
  }

  lemma {:induction false} NoFirst(nodes: seq<Node>, m: nat, id: nat, env: Env)
    requires m <= |nodes| && forall k: nat :: !FirstMakes(nodes, k, id, env)
    ensures forall i :: 0 <= i < m ==> !Makes(nodes[i], id, env)
  {
    if m > 0 {
      NoFirst(nodes, m - 1, id, env);
      assert !FirstMakes(nodes, m - 1, id, env);
    }
  }

  lemma MadeFirst(nodes: seq<Node>, k: nat, id: nat, contact: string, env: Env)
    requires FirstMakes(nodes, k, id, env)
    ensures var r := VisitAll(None, nodes, id, contact, env); r.Some? && MadeBy(r.value, nodes, k, id, contact, env)
  {
    var before, rest := nodes[..k], nodes[k..];
    assert nodes == before + rest && rest[0] == nodes[k];
    VisitAllConcat(None, before, rest, id, contact, env);
    NotMade(before, id, contact, env);
    MakesIff(nodes[k], id, contact, env);
    var made := NewTube(nodes[k], contact, env).value;
    MadeNow(rest, made, id, contact, env);
    hide VisitAll, Makes, Enters, NewTube, ExtractId;
    if made.kind.DBus? {
      MadeEntered(nodes, k, made, id, contact, env);
    } else {
      StreamUntouched(made, rest, id, contact, env);
    }
  }

  lemma MadeEntered(nodes: seq<Node>, k: nat, made: Tube, id: nat, contact: string, env: Env)
    requires k < |nodes| && Described(made, nodes[k], contact, env) && made.kind.DBus? && made.names == map[]
    ensures var r := VisitAll(Some(made), nodes[k..], id, contact, env); r.Some? && MadeBy(r.value, nodes, k, id, contact, env)
  {
    var rest := nodes[k..];
    hide VisitAll, Enters;
    KnownEntered(made, rest, id, contact, env);
    assert forall j: nat :: j < |rest| ==> rest[j] == nodes[k + j];
    if i :| k <= i < |nodes| && Enters(nodes[i], id, contact, env) {
      var j := FirstOf(rest, i - k, id, contact, env);
      OneFirst(rest, j, id, contact, env);
    } else {
      assert forall j: nat :: !FirstEnters(rest, j, id, contact, env);
    }
  }

  lemma OneFirst(nodes: seq<Node>, j: nat, id: nat, contact: string, env: Env)
    requires FirstEnters(nodes, j, id, contact, env)
    ensures forall i: nat :: FirstEnters(nodes, i, id, contact, env) ==> i == j
  {
    hide Enters;
  }

  lemma {:induction false} FirstOf(nodes: seq<Node>, i: nat, id: nat, contact: string, env: Env) returns (j: nat)
    requires i < |nodes| && Enters(nodes[i], id, contact, env)
    ensures FirstEnters(nodes, j, id, contact, env)
  {
    if k: nat :| k < i && Enters(nodes[k], id, contact, env) {
      j := FirstOf(nodes, k, id, contact, env);
    } else {
      j := i;
    }
  }

  /** Making a tube and visiting it goes on as if it had been there. */
  lemma {:induction false} MadeNow(nodes: seq<Node>, made: Tube, id: nat, contact: string, env: Env)
    requires nodes != [] && ExtractId(nodes[0], env) == Some(id) && NewTube(nodes[0], contact, env) == Some(made)
    ensures VisitAll(None, nodes, id, contact, env) == VisitAll(Some(made), nodes, id, contact, env)
  {
    hide NewTube, ExtractId;
    if |nodes| > 1 {
      MadeNow(nodes[..|nodes| - 1], made, id, contact, env);
    } else {
      assert nodes[..0] == [];
    }
  }

  lemma {:induction false} StreamUntouched(t: Tube, nodes: seq<Node>, id: nat, contact: string, env: Env)
    requires t.kind.Stream?
    ensures VisitAll(Some(t), nodes, id, contact, env) == Some(t)
  {
    if nodes != [] {
      StreamUntouched(t, nodes[..|nodes| - 1], id, contact, env);
    }
  }

  /** A published D-Bus tube arrives as it was sent: a receiver that does not know it has it with the initiator and service of
      the sender, and alone in it the sender under its own bus name; one that knows it without the sender enters that name. */
  lemma PublishedArrives(sent: map<nat, Tube>, order: seq<nat>, nodes: seq<Node>, sender: string, id: nat, received: Tube, env: Env)
    requires NamesItself(sent, sender, env) && IsAnnouncement(sent, order, nodes) && id in sent && sent[id].open
    requires received.kind.DBus? && sender !in received.names
    ensures var name := sent[id].busName.value;
      && Reconciled(None, nodes, id, sender, env) == Some(Tube(DBus, sent[id].initiator, sent[id].service,
           map[sender := name], false, Some(env.uniqueName(env.self))))
      && Reconciled(Some(received), nodes, id, sender, env) == Some(received.(names := received.names[sender := name]))
  {
    var k: nat :| k < |order| && order[k] == id;
    forall j: nat | j < |nodes| ensures ExtractId(nodes[j], env) == Some(order[j]) {
      assert order[j] in order;
      AnnouncementRoundTrip(order[j], sent[order[j]], env);
    }
    var n := nodes[k];
    AnnouncementRoundTrip(id, sent[id], env);
    hide ExtractId;
    assert n == PublishNode(id, sent[id]) && Makes(n, id, env) && Enters(n, id, sender, env);
    assert FirstMakes(nodes, k, id, env) && FirstEnters(nodes, k, id, sender, env);
    assert nodes[k..][0] == n && FirstEnters(nodes[k..], 0, id, sender, env);
    hide Makes, Enters, FirstMakes, FirstEnters;
    MadeFirst(nodes, k, id, sender, env);
    KnownEntered(received, nodes, id, sender, env);
    hide VisitAll;
    var r := VisitAll(None, nodes, id, sender, env);
    assert Described(r.value, n, sender, env) && r.value.names == map[sender := nodes[k + 0]["dbus-name"]];
  }

  /** An id attribute that is not a number to its end is none. */
  lemma GarbageIsNoId(n: Node, id: nat, garbage: string, env: Env)
    requires garbage != [] && !IsDigit(garbage[0]) && "id" in n && n["id"] == PrintNat(id) + garbage
    ensures ExtractId(n, env) == None
  {
    ParseGarbage(id, garbage, env.longMax);
    hide Strtol, PrintNat;
  }
}
