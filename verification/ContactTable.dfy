/** The weak table of contacts, the one reference a contact has while it has services, and the published
    contact list, as steps on a value. Contacts have identities that are never reused. */
module ContactTable {
  import opened Collections

  type Id = nat

  datatype Service = Service(interface: int, protocol: int, name: string, kind: string, domain: string)

  /** A live contact object: its reference count, its resolvers (one a service), its found flag, its failure timer. */
  datatype Contact = Contact(name: string, refs: nat, services: seq<Service>, found: bool, timer: bool)

  /** `held` counts the references outside code took and has not released. */
  datatype Table = Table(contacts: map<string, Id>, heap: map<Id, Contact>, handles: set<string>,
                         log: seq<Notice>, held: map<Id, nat>, open: bool, next: Id)

  const Init := Table(map[], map[], {}, [], map[], true, 0)

  datatype Event =
    | FoundService(name: string, service: Service, own: bool, attaches: bool)
    | LostService(name: string, service: Service)
    | Ensure(name: string)
    | Lookup(name: string)
    | Release(id: Id)
    | Resolved(id: Id, service: Service)
    | ResolveFailed(id: Id, service: Service)
    | TimerFires(id: Id)
    | CloseAll

  function Holders(held: map<Id, nat>, id: Id): nat { if id in held then held[id] else 0 }

  // ----- references -----

  function Put(t: Table, id: Id, c: Contact): Table { t.(heap := t.heap[id := c]) }

  function AddRef(t: Table, id: Id): Table
    requires id in t.heap
  {
    Put(t, id, t.heap[id].(refs := t.heap[id].refs + 1))
  }

  /** Dropping the last reference finalizes the contact, and the weak notification takes its entry out of the table. */
  function Unref(t: Table, id: Id): Table
    requires id in t.heap
  {
    var c := t.heap[id];
    if c.refs > 1 then Put(t, id, c.(refs := c.refs - 1))
    else t.(heap := t.heap - {id}, contacts := t.contacts - (set n | n in t.contacts && t.contacts[n] == id))
  }

  /** A new contact, with the reference its creator gets; it is `t.next`. */
  function Create(t: Table, name: string): Table {
    t.(contacts := t.contacts[name := t.next], heap := t.heap[t.next := Contact(name, 1, [], false, false)], next := t.next + 1)
  }

  function Hold(t: Table, id: Id): Table { t.(held := t.held[id := Holders(t.held, id) + 1]) }

  // ----- found and lost -----

  function MarkFound(t: Table, id: Id): Table
    requires id in t.heap
  {
    var c := t.heap[id];
    if c.found then t
    else
      var t1 := Put(t, id, c.(found := true));
      if t.open then t1.(handles := t1.handles + {c.name}, log := t1.log + [Appeared(c.name)]) else t1
  }

  function MarkLost(t: Table, id: Id): Table
    requires id in t.heap
  {
    var c := t.heap[id];
    if !c.found then t
    else
      var t1 := Put(t, id, c.(found := false));
      if t.open then t1.(handles := t1.handles - {c.name}, log := t1.log + [Gone(c.name)]) else t1
  }

  // ----- the handlers -----

  /** `browser_found` once the contact is there and holds the reference it needs. */
  function AddService(t: Table, id: Id, s: Service, attaches: bool): Table
    requires id in t.heap
  {
    var c := t.heap[id];
    if s in c.services then t
    else if attaches then Put(t, id, c.(services := [s] + c.services))
    else if c.services == [] then Unref(t, id)
    else t
  }

  function HandleFound(t: Table, name: string, s: Service, own: bool, attaches: bool): Table
    requires name in t.contacts ==> t.contacts[name] in t.heap
  {
    if own then t
    else if name !in t.contacts then AddService(Create(t, name), t.next, s, attaches)
    else
      var id := t.contacts[name];
      AddService(if t.heap[id].services == [] then AddRef(t, id) else t, id, s, attaches)
  }

  /** `contact_drop_resolver`. */
  function DropService(t: Table, id: Id, s: Service): (r: Table)
    requires id in t.heap
    ensures id in r.heap
  {
    var c := t.heap[id];
    if s !in c.services then t
    else
      var t1 := Put(t, id, c.(services := Without(c.services, s)));
      if t1.heap[id].services == [] then MarkLost(t1, id) else t1
  }

  function HandleLost(t: Table, name: string, s: Service): Table
    requires name in t.contacts ==> t.contacts[name] in t.heap
  {
    if name !in t.contacts then t
    else
      var id := t.contacts[name];
      var t1 := DropService(t, id, s);
      if t1.heap[id].services == [] then Unref(t1, id) else t1
  }

  function HandleEnsure(t: Table, name: string): Table
    requires name in t.contacts ==> t.contacts[name] in t.heap
  {
    if name !in t.contacts then Hold(Create(t, name), t.next)
    else Hold(AddRef(t, t.contacts[name]), t.contacts[name])
  }

  function HandleLookup(t: Table, name: string): Table
    requires name in t.contacts ==> t.contacts[name] in t.heap
  {
    if t.open && name in t.contacts then Hold(AddRef(t, t.contacts[name]), t.contacts[name]) else t
  }

  function HandleRelease(t: Table, id: Id): Table
    requires id in t.heap && Holders(t.held, id) > 0
  {
    Unref(t.(held := t.held[id := Holders(t.held, id) - 1]), id)
  }

  function HandleResolved(t: Table, id: Id): Table
    requires id in t.heap
  {
    MarkFound(Put(t, id, t.heap[id].(timer := false)), id)
  }

  function HandleTimer(t: Table, id: Id): Table
    requires id in t.heap
  {
    MarkLost(Put(t, id, t.heap[id].(timer := false)), id)
  }

  /** The count of a contact once `close_all` dropped the reference for its services. */
  function RefsAfterClose(c: Contact): int { c.refs - if c.services != [] then 1 else 0 }

  function HandleClose(t: Table): Table {
    if !t.open then t
    else
      var heap := map id | id in t.heap && (id in t.contacts.Values ==> RefsAfterClose(t.heap[id]) > 0) ::
        if id in t.contacts.Values then t.heap[id].(refs := RefsAfterClose(t.heap[id])) else t.heap[id];
      t.(heap := heap, contacts := map[], handles := {}, open := false)
  }

  // ----- the invariants -----

  function ServiceRefs(open: bool, c: Contact): nat { if open && c.services != [] then 1 else 0 }

  /** Each live contact's count is its outside holders plus one iff it has services (and the table is open). */
  ghost predicate Counted(heap: map<Id, Contact>, held: map<Id, nat>, open: bool) {
    && (forall id :: id in heap ==> heap[id].refs == Holders(held, id) + ServiceRefs(open, heap[id]) && heap[id].refs > 0)
    && (forall id :: id in held && held[id] > 0 ==> id in heap)
  }

  /** While open, the table lists exactly the live contacts, under their names. */
  ghost predicate Listing(contacts: map<string, Id>, heap: map<Id, Contact>, open: bool) {
    && (forall n :: n in contacts ==> contacts[n] in heap && heap[contacts[n]].name == n)
    && (open ==> forall id :: id in heap ==> heap[id].name in contacts && contacts[heap[id].name] == id)
    && (!open ==> contacts == map[])
  }

  ghost predicate IdsFresh(heap: map<Id, Contact>, held: map<Id, nat>, next: Id) {
    && (forall id :: id in heap ==> id < next)
    && (forall id :: id in held ==> id < next)
  }

  ghost predicate Balanced(t: Table) {
    Counted(t.heap, t.held, t.open) && Listing(t.contacts, t.heap, t.open) && IdsFresh(t.heap, t.held, t.next)
  }

  ghost predicate ServicesOk(c: Contact) { (c.found ==> c.services != []) && Distinct(c.services) }

  /** The published handles are exactly those of the live contacts found, which all have a resolver. */
  ghost predicate Published(heap: map<Id, Contact>, handles: set<string>, open: bool) {
    && (forall id :: id in heap ==> ServicesOk(heap[id]))
    && (open ==> forall id :: id in heap && heap[id].found ==> heap[id].name in handles)
    && (open ==> forall n :: n in handles ==> exists id :: id in heap && heap[id].name == n && heap[id].found)
  }

  ghost predicate Signalled(log: seq<Notice>, handles: set<string>, open: bool) {
    && (forall n :: Alternates(log, n))
    && (open ==> forall n :: Known(log, n) <==> n in handles)
  }

  ghost predicate Inv(t: Table) {
    Balanced(t) && Published(t.heap, t.handles, t.open) && Signalled(t.log, t.handles, t.open)
  }

  /** Which events happen. A removal names a contact that has a service, a resolver reports only while it is listed,
      outside code releases what it holds, and the browser and `ensure_contact` are not used after `close_all`. */
  ghost predicate Possible(t: Table, e: Event)
    requires Listing(t.contacts, t.heap, t.open)
  {
    match e
    case FoundService(_, _, _, _) => t.open
    case LostService(n, _) => t.open && RemovalFits(t, n)
    case Ensure(_) => t.open
    case Lookup(_) => true
    case Release(id) => id in t.heap && Holders(t.held, id) > 0
    case Resolved(id, s) => id in t.heap && s in t.heap[id].services
    case ResolveFailed(id, s) => id in t.heap && s in t.heap[id].services
    case TimerFires(id) => id in t.heap && t.heap[id].timer
    case CloseAll => true
  }

  /** What a removal has to meet: no listed contact of that name is without services. */
  ghost predicate RemovalFits(t: Table, n: string)
    requires Listing(t.contacts, t.heap, t.open)
  {
    n in t.contacts ==> t.heap[t.contacts[n]].services != []
  }

  ghost function Step(t: Table, e: Event): Table
    requires Inv(t) && Possible(t, e)
  {
    match e
    case FoundService(n, s, own, attaches) => HandleFound(t, n, s, own, attaches)
    case LostService(n, s) => HandleLost(t, n, s)
    case Ensure(n) => HandleEnsure(t, n)
    case Lookup(n) => HandleLookup(t, n)
    case Release(id) => HandleRelease(t, id)
    case Resolved(id, _) => HandleResolved(t, id)
    case ResolveFailed(id, _) => Put(t, id, t.heap[id].(timer := true))
    case TimerFires(id) => HandleTimer(t, id)
    case CloseAll => HandleClose(t)
  }

  // ----- lemmas -----

  lemma SignalKeeps(log: seq<Notice>, handles: set<string>, s: Notice)
    requires Signalled(log, handles, true)
    requires s.Appeared? <==> s.name !in handles
    ensures Signalled(log + [s], if s.Appeared? then handles + {s.name} else handles - {s.name}, true)
  {
    forall n ensures Alternates(log + [s], n) && (Known(log + [s], n) <==> if n == s.name then s.Appeared? else n in handles) {
      assert Alternates(log, n) && (Known(log, n) <==> n in handles);
      NoticeKeeps(log, s, n);
    }
  }

  // What each part of the invariant needs of a contact written back.

  lemma PutListing(contacts: map<string, Id>, heap: map<Id, Contact>, open: bool, held: map<Id, nat>, next: Id, id: Id, c: Contact)
    requires Listing(contacts, heap, open) && IdsFresh(heap, held, next) && id in heap && c.name == heap[id].name
    ensures Listing(contacts, heap[id := c], open) && IdsFresh(heap[id := c], held, next)
  {
  }

  lemma PutCounted(heap: map<Id, Contact>, held: map<Id, nat>, open: bool, id: Id, c: Contact, holders: nat)
    requires Counted(heap, held, open) && id in heap && c.refs == holders + ServiceRefs(open, c) && c.refs > 0
    ensures Counted(heap[id := c], held[id := holders], open)
    ensures holders == Holders(held, id) ==> Counted(heap[id := c], held, open)
  {
  }

  lemma PutPublished(heap: map<Id, Contact>, handles: set<string>, open: bool, id: Id, c: Contact)
    requires Published(heap, handles, open) && id in heap && ServicesOk(c)
    requires c.found == heap[id].found && c.name == heap[id].name
    ensures Published(heap[id := c], handles, open)
  {
    hide ServicesOk;
    if open {
      var h := heap[id := c];
      forall n | n in handles ensures exists i :: i in h && h[i].name == n && h[i].found {
        var i :| i in heap && heap[i].name == n && heap[i].found;
        assert i in h;
      }
    }
  }

  /** Names are unique while open, so one contact decides about its handle. */
  lemma FoundPublished(contacts: map<string, Id>, heap: map<Id, Contact>, handles: set<string>, id: Id, c: Contact)
    requires Published(heap, handles, true) && Listing(contacts, heap, true) && id in heap && ServicesOk(c) && c.name == heap[id].name
    ensures Published(heap[id := c], if c.found then handles + {c.name} else handles - {c.name}, true)
  {
    hide ServicesOk;
    var h := heap[id := c];
    var r := if c.found then handles + {c.name} else handles - {c.name};
    forall n | n in r ensures exists i :: i in h && h[i].name == n && h[i].found {
      if n == c.name {
        assert id in h;
      } else {
        var i :| i in heap && heap[i].name == n && heap[i].found;
        assert i in h;
      }
    }
  }

  lemma HandleOfFound(t: Table, id: Id)
    requires Inv(t) && t.open && id in t.heap
    ensures t.heap[id].name in t.handles <==> t.heap[id].found
  {
  }

  /** Marking a contact with resolvers as found, whatever else about it but its count and services is written. */
  lemma MarkFoundKeeps(t: Table, id: Id)
    requires Inv(t) && id in t.heap && t.heap[id].services != []
    ensures Inv(MarkFound(t, id))
  {
    var c := t.heap[id].(found := true);
    if !t.heap[id].found {
      assert ServicesOk(t.heap[id]);
      assert Counted(t.heap[id := c], t.held, t.open) by { PutCounted(t.heap, t.held, t.open, id, c, Holders(t.held, id)); }
      if t.open {
        HandleOfFound(t, id);
        FoundPublished(t.contacts, t.heap, t.handles, id, c);
        SignalKeeps(t.log, t.handles, Appeared(c.name));
      }
      hide Counted, Signalled;
      PutListing(t.contacts, t.heap, t.open, t.held, t.next, id, c);
    }
  }

  /** Taking resolvers away and, with the last one, marking the contact lost. The count is left alone. */
  lemma LoseKeeps(t: Table, id: Id, c: Contact)
    requires Inv(t) && id in t.heap && c.name == t.heap[id].name && Distinct(c.services) && c.found == t.heap[id].found
    ensures var r := MarkLost(Put(t, id, c), id);
      && r == t.(heap := t.heap[id := c.(found := false)], handles := r.handles, log := r.log)
      && Listing(r.contacts, r.heap, r.open) && IdsFresh(r.heap, r.held, r.next)
      && Published(r.heap, r.handles, r.open) && Signalled(r.log, r.handles, r.open)
  {
    var d := c.(found := false);
    var r := MarkLost(Put(t, id, c), id);
    assert r == t.(heap := t.heap[id := d], handles := r.handles, log := r.log) by {
      hide Inv, Listing;
      assert t.heap[id := c][id := d] == t.heap[id := d];
      assert c.found || c == d;
    }
    assert ServicesOk(d);
    if c.found && t.open {
      HandleOfFound(t, id);
      FoundPublished(t.contacts, t.heap, t.handles, id, d);
      SignalKeeps(t.log, t.handles, Gone(d.name));
    } else if !c.found {
      PutPublished(t.heap, t.handles, t.open, id, d);
    }
    hide Signalled;
    PutListing(t.contacts, t.heap, t.open, t.held, t.next, id, d);
  }

  /** A new contact with the references it needs, from `holders` outside references and its services. */
  lemma CreateKeeps(t: Table, c: Contact, holders: nat)
    requires Inv(t) && t.open && c.name !in t.contacts && !c.found && Distinct(c.services)
    requires c.refs == holders + ServiceRefs(true, c) && c.refs > 0
    ensures Inv(t.(contacts := t.contacts[c.name := t.next], heap := t.heap[t.next := c], next := t.next + 1,
                   held := if holders > 0 then t.held[t.next := holders] else t.held))
  {
    hide Signalled;
    assert ServicesOk(c);
    var h := t.heap[t.next := c];
    assert Holders(t.held, t.next) == 0;
    assert Published(h, t.handles, true) by {
      hide ServicesOk, Counted, Listing;
      forall n | n in t.handles ensures exists i :: i in h && h[i].name == n && h[i].found {
        var i :| i in t.heap && t.heap[i].name == n && t.heap[i].found;
        assert i in h;
      }
    }
  }

  /** Writing back a contact whose count fits its services and holders keeps everything. */
  lemma PutKeeps(t: Table, id: Id, c: Contact, holders: nat)
    requires Inv(t) && id in t.heap && ServicesOk(c)
    requires c.name == t.heap[id].name && c.found == t.heap[id].found
    requires c.refs == holders + ServiceRefs(t.open, c) && c.refs > 0
    ensures Inv(Put(t, id, c).(held := t.held[id := holders]))
    ensures holders == Holders(t.held, id) ==> Inv(Put(t, id, c))
  {
    hide Signalled;
    PutCounted(t.heap, t.held, t.open, id, c, holders);
    PutPublished(t.heap, t.handles, t.open, id, c);
    PutListing(t.contacts, t.heap, t.open, t.held, t.next, id, c);
    assert IdsFresh(t.heap[id := c], t.held[id := holders], t.next);
  }

  lemma FoundKeeps(t: Table, name: string, s: Service, own: bool, attaches: bool)
    requires Inv(t) && t.open
    ensures Inv(HandleFound(t, name, s, own, attaches))
  {
    hide Counted, Signalled, Published;
    if own {
    } else if name !in t.contacts {
      if attaches {
        var c := Contact(name, 1, [s], false, false);
        CreateKeeps(t, c, 0);
        assert [s] + [] == [s];
        assert t.heap[t.next := Contact(name, 1, [], false, false)][t.next := c] == t.heap[t.next := c];
        assert HandleFound(t, name, s, own, attaches) == t.(contacts := t.contacts[name := t.next],
          heap := t.heap[t.next := c], next := t.next + 1);
      } else {
        FailedCreateKeeps(t, name, s);
      }
    } else {
      AttachKeeps(t, t.contacts[name], s, attaches);
    }
  }

  lemma FailedCreateKeeps(t: Table, name: string, s: Service)
    requires Inv(t) && t.open && name !in t.contacts
    ensures Inv(HandleFound(t, name, s, false, false))
  {
    hide Counted, Signalled, Published;
    var t1 := Create(t, name);
    assert t1.heap - {t.next} == t.heap;
    assert (set n | n in t1.contacts && t1.contacts[n] == t.next) == {name};
    assert t1.contacts - {name} == t.contacts;
    assert HandleFound(t, name, s, false, false) == t.(next := t.next + 1);
  }

  function Attached(c: Contact, s: Service): Contact {
    c.(services := [s] + c.services, refs := c.refs + if c.services == [] then 1 else 0)
  }

  /** A service that cannot attach leaves everything as it was. */
  lemma AttachIs(t: Table, id: Id, s: Service, attaches: bool)
    requires Inv(t) && id in t.heap
    ensures AddService(if t.heap[id].services == [] then AddRef(t, id) else t, id, s, attaches) ==
      if attaches && s !in t.heap[id].services then Put(t, id, Attached(t.heap[id], s)) else t
  {
    var c := t.heap[id];
    assert c.refs > 0 by { hide Listing, Published, Signalled, IdsFresh; }
    hide Inv;
    assert t.heap[id := c.(refs := c.refs + 1)][id := Attached(c, s)] == t.heap[id := Attached(c, s)];
    assert t.heap[id := c.(refs := c.refs + 1)][id := c] == t.heap;
  }

  lemma AttachKeeps(t: Table, id: Id, s: Service, attaches: bool)
    requires Inv(t) && t.open && id in t.heap
    ensures Inv(AddService(if t.heap[id].services == [] then AddRef(t, id) else t, id, s, attaches))
  {
    AttachIs(t, id, s, attaches);
    ServicesKnown(t, id);
    hide Inv, AddService, AddRef;
    var c := t.heap[id];
    if attaches && s !in c.services {
      assert Distinct(Attached(c, s).services);
      PutKeeps(t, id, Attached(c, s), Holders(t.held, id));
    }
  }

  lemma ServicesKnown(t: Table, id: Id)
    requires Inv(t) && id in t.heap
    ensures ServicesOk(t.heap[id])
  {
  }

  lemma LostKeeps(t: Table, name: string, s: Service)
    requires Inv(t) && t.open && RemovalFits(t, name)
    ensures Inv(HandleLost(t, name, s))
  {
    if name in t.contacts {
      var id := t.contacts[name];
      var c := t.heap[id];
      ServicesKnown(t, id);
      hide Published, Signalled;
      if s in c.services {
        WithoutKeeps(c.services, s);
        var d := c.(services := Without(c.services, s));
        if d.services != [] {
          PutKeeps(t, id, d, Holders(t.held, id));
        } else {
          LastServiceKeeps(t, id, d);
        }
      }
    }
  }

  /** The last service of a contact goes, and the reference it had for its services with it. */
  lemma LastServiceKeeps(t: Table, id: Id, d: Contact)
    requires Inv(t) && t.open && id in t.heap && t.heap[id].services != []
    requires d == t.heap[id].(services := [])
    ensures var m := MarkLost(Put(t, id, d), id); id in m.heap && Inv(Unref(m, id))
  {
    LoseKeeps(t, id, d);
    var m := MarkLost(Put(t, id, d), id);
    var lost := d.(found := false);
    assert lost.refs == Holders(t.held, id) + 1 && lost.name == t.heap[id].name;
    hide Signalled, Published, MarkLost, Inv, Counted, Listing;
    if lost.refs > 1 {
      UnrefMore(t, id, lost, m);
    } else {
      UnrefLast(t, id, lost, m);
    }
  }

  lemma UnrefMore(t: Table, id: Id, lost: Contact, m: Table)
    requires Balanced(t) && t.open && id in t.heap
    requires m == t.(heap := t.heap[id := lost], handles := m.handles, log := m.log)
    requires lost.refs == Holders(t.held, id) + 1 > 1 && !lost.found && lost.services == [] && lost.name == t.heap[id].name
    requires Published(m.heap, m.handles, true) && Signalled(m.log, m.handles, true)
    ensures Inv(Unref(m, id))
  {
    hide Signalled, Published, Counted, Listing, IdsFresh;
    var e := lost.(refs := lost.refs - 1);
    var h := t.heap[id := e];
    assert m.heap[id := e] == h;
    assert Counted(h, t.held, t.open) by { PutCounted(t.heap, t.held, t.open, id, e, Holders(t.held, id)); }
    assert Listing(t.contacts, h, t.open) && IdsFresh(h, t.held, t.next) by {
      PutListing(t.contacts, t.heap, t.open, t.held, t.next, id, e);
    }
    assert Published(h, m.handles, true) by { PutPublished(m.heap, m.handles, true, id, e); }
    assert Unref(m, id) == t.(heap := h, handles := m.handles, log := m.log);
  }

  lemma UnrefLast(t: Table, id: Id, lost: Contact, m: Table)
    requires Balanced(t) && t.open && id in t.heap && Holders(t.held, id) == 0
    requires m == t.(heap := t.heap[id := lost], handles := m.handles, log := m.log)
    requires lost.refs == 1 && !lost.found && lost.name == t.heap[id].name
    requires Published(m.heap, m.handles, true) && Signalled(m.log, m.handles, true)
    ensures Inv(Unref(m, id))
  {
    hide Signalled, Published;
    assert m.heap - {id} == t.heap - {id};
    PublishedWithout(m.heap, m.handles, id);
  }

  lemma PublishedWithout(heap: map<Id, Contact>, handles: set<string>, id: Id)
    requires Published(heap, handles, true) && id in heap && !heap[id].found
    ensures Published(heap - {id}, handles, true)
  {
    hide ServicesOk;
    var h := heap - {id};
    forall n | n in handles ensures exists i :: i in h && h[i].name == n && h[i].found {
      var i :| i in heap && heap[i].name == n && heap[i].found;
      assert i in h;
    }
  }

  lemma ReleaseKeeps(t: Table, id: Id)
    requires Inv(t) && id in t.heap && Holders(t.held, id) > 0
    ensures Inv(HandleRelease(t, id))
  {
    var c := t.heap[id];
    ServicesKnown(t, id);
    if c.refs > 1 {
      ReleaseOne(t, id);
    } else {
      hide Published, Signalled, Listing, IdsFresh;
      assert t.open ==> c.services == [];
      ReleaseLast(t, id);
    }
    hide Inv, HandleRelease;
  }

  lemma ReleaseOne(t: Table, id: Id)
    requires Inv(t) && id in t.heap && Holders(t.held, id) > 0 && t.heap[id].refs > 1 && ServicesOk(t.heap[id])
    requires t.heap[id].refs == Holders(t.held, id) + ServiceRefs(t.open, t.heap[id])
    ensures Inv(HandleRelease(t, id))
  {
    hide Published, Signalled, Listing, Counted, IdsFresh, Inv;
    var c := t.heap[id];
    PutKeeps(t, id, c.(refs := c.refs - 1), Holders(t.held, id) - 1);
  }

  lemma ReleaseLast(t: Table, id: Id)
    requires Inv(t) && id in t.heap && Holders(t.held, id) == 1 && t.heap[id].refs == 1 && ServicesOk(t.heap[id])
    requires t.open ==> !t.heap[id].found
    ensures Inv(HandleRelease(t, id))
  {
    hide Signalled, Listing, Counted, IdsFresh, ServicesOk;
    var contacts := t.contacts - (set n | n in t.contacts && t.contacts[n] == id);
    assert HandleRelease(t, id) == t.(held := t.held[id := 0], heap := t.heap - {id}, contacts := contacts);
    if t.open {
      PublishedWithout(t.heap, t.handles, id);
    } else {
      PublishedClosed(t, id);
    }
    hide Published;
    ListingWithout(t.contacts, t.heap, t.open, id);
    CountedWithout(t.heap, t.held, t.open, id);
    FreshWithout(t.heap, t.held, t.next, id);
  }

  lemma ListingWithout(contacts: map<string, Id>, heap: map<Id, Contact>, open: bool, id: Id)
    requires Listing(contacts, heap, open)
    ensures Listing(contacts - (set n | n in contacts && contacts[n] == id), heap - {id}, open)
  {
  }

  lemma CountedWithout(heap: map<Id, Contact>, held: map<Id, nat>, open: bool, id: Id)
    requires Counted(heap, held, open)
    ensures Counted(heap - {id}, held[id := 0], open)
  {
  }

  lemma FreshWithout(heap: map<Id, Contact>, held: map<Id, nat>, next: Id, id: Id)
    requires IdsFresh(heap, held, next) && id in heap
    ensures IdsFresh(heap - {id}, held[id := 0], next)
  {
  }

  lemma PublishedClosed(t: Table, id: Id)
    requires Published(t.heap, t.handles, t.open)
    ensures Published(t.heap - {id}, t.handles, false)
  {
  }

  /** `close_all` drops the reference of every contact with services and empties table and list. */
  lemma CloseKeeps(t: Table)
    requires Inv(t)
    ensures Inv(HandleClose(t))
  {
    hide Alternates, Known, Distinct;
    if t.open {
      forall id | id in t.heap ensures id in t.contacts.Values && RefsAfterClose(t.heap[id]) == Holders(t.held, id) {
        assert t.contacts[t.heap[id].name] == id;
      }
    }
  }

  lemma EnsureKeeps(t: Table, name: string)
    requires Inv(t) && t.open
    ensures Inv(HandleEnsure(t, name))
  {
    hide Signalled, Published;
    if name !in t.contacts {
      assert Holders(t.held, t.next) == 0;
      CreateKeeps(t, Contact(name, 1, [], false, false), 1);
    } else {
      HoldKeeps(t, t.contacts[name]);
    }
  }

  lemma HoldKeeps(t: Table, id: Id)
    requires Inv(t) && id in t.heap
    ensures Inv(Hold(AddRef(t, id), id))
  {
    ServicesKnown(t, id);
    hide Signalled, Published;
    PutKeeps(t, id, t.heap[id].(refs := t.heap[id].refs + 1), Holders(t.held, id) + 1);
  }

  lemma TimerSetKeeps(t: Table, id: Id, timer: bool)
    requires Inv(t) && id in t.heap
    ensures Inv(Put(t, id, t.heap[id].(timer := timer)))
  {
    ServicesKnown(t, id);
    hide Signalled, Published;
    PutKeeps(t, id, t.heap[id].(timer := timer), Holders(t.held, id));
  }

  lemma TimerKeeps(t: Table, id: Id)
    requires Inv(t) && id in t.heap
    ensures Inv(HandleTimer(t, id))
  {
    var d := t.heap[id].(timer := false);
    ServicesKnown(t, id);
    LoseKeeps(t, id, d);
    PutCounted(t.heap, t.held, t.open, id, d.(found := false), Holders(t.held, id));
  }

  lemma StepKeeps(t: Table, e: Event)
    requires Inv(t) && Possible(t, e)
    ensures Inv(Step(t, e))
  {
    hide Counted, Published, Signalled, HandleFound, HandleLost, HandleEnsure, HandleRelease, HandleTimer, HandleClose;
    match e
    case FoundService(n, s, own, attaches) => FoundKeeps(t, n, s, own, attaches);
    case LostService(n, s) => LostKeeps(t, n, s);
    case Ensure(n) => EnsureKeeps(t, n);
    case Lookup(n) => if n in t.contacts { HoldKeeps(t, t.contacts[n]); }
    case Release(id) => ReleaseKeeps(t, id);
    case Resolved(id, _) =>
      TimerSetKeeps(t, id, false);
      MarkFoundKeeps(Put(t, id, t.heap[id].(timer := false)), id);
    case ResolveFailed(id, _) => TimerSetKeeps(t, id, true);
    case TimerFires(id) => TimerKeeps(t, id);
    case CloseAll => CloseKeeps(t);
  }

  // ----- whole runs -----

  ghost predicate IsRun(t: Table, es: seq<Event>)
    requires Inv(t)
    decreases |es|
  {
    es == [] || (Possible(t, es[0]) && (StepKeeps(t, es[0]); IsRun(Step(t, es[0]), es[1..])))
  }

  ghost function After(t: Table, es: seq<Event>): Table
    requires Inv(t) && IsRun(t, es)
    decreases |es|
  {
    if es == [] then t else StepKeeps(t, es[0]); After(Step(t, es[0]), es[1..])
  }

  lemma {:induction false} RunKeeps(t: Table, es: seq<Event>)
    requires Inv(t) && IsRun(t, es)
    ensures Inv(After(t, es))
    decreases |es|
  {
    hide Step, Inv, Possible;
    if es != [] {
      StepKeeps(t, es[0]);
      RunKeeps(Step(t, es[0]), es[1..]);
    }
  }

  lemma InitInv()
    ensures Inv(Init)
  {
  }

  /** Reference balance. In every reachable state a contact's count is its outside holders plus one iff it has services
      while the table is open; and then an entry is in the table exactly as long as that count is not zero. */
  lemma ReferencesBalance(es: seq<Event>, id: Id)
    requires IsRun(Init, es)
    ensures var t := After(Init, es);
      && (id in t.heap ==> t.heap[id].refs == Holders(t.held, id) + (if t.open && t.heap[id].services != [] then 1 else 0))
      && (t.open ==> (id in t.contacts.Values <==> id in t.heap && t.heap[id].refs > 0))
      && (id !in t.heap ==> Holders(t.held, id) == 0)
  {
    var t := After(Init, es);
    RunKeeps(Init, es);
    hide Published, Signalled;
    if t.open && id in t.heap {
      assert t.contacts[t.heap[id].name] == id;
    }
  }

  /** Contact list agreement. In every reachable state before `close_all` a name is on the published list exactly when a
      live contact of that name is found; a found contact has a resolver, resolvers are distinct, and the signals about
      each name alternate and end with what the list says. */
  lemma ListAgrees(es: seq<Event>, name: string)
    requires IsRun(Init, es)
    ensures var t := After(Init, es);
      && (t.open ==> (name in t.handles <==> name in t.contacts && t.contacts[name] in t.heap && t.heap[t.contacts[name]].found))
      && (forall id :: id in t.heap ==> (t.heap[id].found ==> t.heap[id].services != []) && Distinct(t.heap[id].services))
      && Alternates(t.log, name) && (t.open ==> (Known(t.log, name) <==> name in t.handles))
  {
    var t := After(Init, es);
    RunKeeps(Init, es);
    assert forall id :: id in t.heap ==> ServicesOk(t.heap[id]);
  }

  // ----- what events alone decide -----

  /** The services of a name: found, not our own and attached, and not removed since. */
  function NextServices(sv: set<Service>, e: Event, name: string): set<Service> {
    match e
    case FoundService(n, s, own, attaches) => if n == name && !own && attaches then sv + {s} else sv
    case LostService(n, s) => if n == name then sv - {s} else sv
    case _ => sv
  }

  /** Whether a contact is found: some service of it was resolved after the last time its timer fired and the last time
      its services ran out; `left` are the services its name has now. */
  function NextFound(found: bool, e: Event, id: Id, name: string, left: set<Service>): bool {
    match e
    case Resolved(i, _) => found || i == id
    case TimerFires(i) => found && i != id
    case LostService(n, _) => found && (n != name || left != {})
    case _ => found
  }

  /** Whether its failure timer runs: a resolver failed after the last success and the last time it fired. */
  function NextTimer(timer: bool, e: Event, id: Id): bool {
    match e
    case ResolveFailed(i, _) => timer || i == id
    case Resolved(i, _) => timer && i != id
    case TimerFires(i) => timer && i != id
    case _ => timer
  }

  datatype Story = Story(services: set<Service>, found: bool, timer: bool)

  function NextStory(h: Story, e: Event, id: Id, name: string): Story {
    var left := NextServices(h.services, e, name);
    Story(left, NextFound(h.found, e, id, name, left), NextTimer(h.timer, e, id))
  }

  function StoryAfter(h: Story, es: seq<Event>, id: Id, name: string): Story
    decreases |es|
  {
    if es == [] then h else StoryAfter(NextStory(h, es[0], id, name), es[1..], id, name)
  }

  /** What the table says about the services of a name. */
  ghost predicate NameFits(t: Table, name: string, services: set<Service>) {
    && (forall id :: id in t.heap && t.heap[id].name == name ==> Elems(t.heap[id].services) == services)
    && (t.open && name !in t.contacts ==> services == {})
  }

  /** And about one contact; one that is not made yet has no story. */
  predicate IdFits(t: Table, id: Id, name: string, h: Story) {
    && (id in t.heap && t.heap[id].name == name ==> t.heap[id].found == h.found && t.heap[id].timer == h.timer)
    && (id >= t.next ==> !h.found && !h.timer)
  }

  ghost predicate Fits(t: Table, id: Id, name: string, h: Story) { NameFits(t, name, h.services) && IdFits(t, id, name, h) }

  lemma NewFits(t: Table, n: string, s: Service, attaches: bool, id: Id, name: string, h: Story)
    requires Inv(t) && t.open && n !in t.contacts && Fits(t, id, name, h)
    ensures Fits(HandleFound(t, n, s, false, attaches), id, name, NextStory(h, FoundService(n, s, false, attaches), id, name))
  {
    hide Counted, Published, Signalled;
    var c := Contact(n, 1, [], false, false);
    assert t.heap[t.next := c] - {t.next} == t.heap;
    assert [s] + [] == [s] && Elems([s]) == {s};
  }

  lemma FoundFits(t: Table, n: string, s: Service, own: bool, attaches: bool, id: Id, name: string, h: Story)
    requires Inv(t) && t.open && Fits(t, id, name, h)
    ensures Fits(HandleFound(t, n, s, own, attaches), id, name, NextStory(h, FoundService(n, s, own, attaches), id, name))
  {
    hide Counted, Published, Signalled, IdsFresh;
    if !own && n !in t.contacts {
      NewFits(t, n, s, attaches, id, name, h);
      hide HandleFound;
    } else if !own {
      var at := t.contacts[n];
      AttachIs(t, at, s, attaches);
      hide AddService, AddRef;
      assert Elems([s] + t.heap[at].services) == Elems(t.heap[at].services) + {s};
    }
  }

  /** What a removal does to the contact it names. */
  ghost predicate Removed(t: Table, r: Table, at: Id, left: seq<Service>)
    requires at in t.heap
  {
    var c := t.heap[at];
    && r.next == t.next && r.open == t.open && r.held == t.held
    && (left != [] ==> r.heap == t.heap[at := c.(services := left)] && r.contacts == t.contacts)
    && (left == [] ==>
        && (forall i :: i != at ==> (i in r.heap <==> i in t.heap) && (i in r.heap ==> r.heap[i] == t.heap[i]))
        && (at in r.heap ==> r.contacts == t.contacts && r.heap[at] == c.(services := [], found := false, refs := r.heap[at].refs))
        && (at !in r.heap ==> forall m :: m in r.contacts <==> m in t.contacts && t.contacts[m] != at))
  }

  lemma LostIs(t: Table, n: string, s: Service)
    requires Inv(t) && n in t.contacts && t.heap[t.contacts[n]].services != []
    ensures var at := t.contacts[n]; Removed(t, HandleLost(t, n, s), at, Without(t.heap[at].services, s))
  {
    var at := t.contacts[n];
    var c := t.heap[at];
    hide Inv;
    if s !in c.services {
      WithoutSame(c.services, s);
      assert t.heap[at := c] == t.heap;
    } else if Without(c.services, s) == [] {
      LastIs(t, at, s);
      hide Without, Removed, MarkLost, Unref;
    } else {
      hide Without;
    }
  }

  lemma LastIs(t: Table, at: Id, s: Service)
    requires at in t.heap && s in t.heap[at].services && Without(t.heap[at].services, s) == []
    ensures var t1 := DropService(t, at, s); t1.heap[at].services == [] && Removed(t, Unref(t1, at), at, [])
  {
    hide Without;
  }

  lemma {:induction false} WithoutSame<T>(q: seq<T>, x: T)
    requires x !in q
    ensures Without(q, x) == q
  {
    if q != [] {
      WithoutSame(q[1..], x);
    }
  }

  lemma LeftOver(services: seq<Service>, s: Service)
    requires Distinct(services)
    ensures var left := Without(services, s); Elems(left) == Elems(services) - {s} && (left == [] <==> Elems(left) == {})
  {
    WithoutKeeps(services, s);
    var left := Without(services, s);
    hide Without, Distinct;
    if left != [] {
      assert left[0] in Elems(left);
    }
  }

  lemma LostFits(t: Table, n: string, s: Service, id: Id, name: string, h: Story)
    requires Inv(t) && t.open && RemovalFits(t, n) && Fits(t, id, name, h)
    ensures Fits(HandleLost(t, n, s), id, name, NextStory(h, LostService(n, s), id, name))
  {
    hide Counted, Published, Signalled, IdsFresh;
    if n in t.contacts {
      var services := t.heap[t.contacts[n]].services;
      LostIs(t, n, s);
      assert Distinct(services) by { ServicesKnown(t, t.contacts[n]); }
      LeftOver(services, s);
      hide Without, HandleLost, Distinct, Elems;
    }
  }

  lemma TakeFits(t: Table, n: string, id: Id, name: string, h: Story)
    requires Inv(t) && Fits(t, id, name, h)
    ensures t.open ==> Fits(HandleEnsure(t, n), id, name, h)
    ensures Fits(HandleLookup(t, n), id, name, h)
  {
    hide Counted, Published, Signalled;
  }

  lemma ReleaseFits(t: Table, at: Id, id: Id, name: string, h: Story)
    requires Inv(t) && at in t.heap && Holders(t.held, at) > 0 && Fits(t, id, name, h)
    ensures Fits(HandleRelease(t, at), id, name, h)
  {
    hide Published, Signalled;
  }

  lemma ResolvedFits(t: Table, at: Id, s: Service, id: Id, name: string, h: Story)
    requires Inv(t) && at in t.heap && Fits(t, id, name, h)
    ensures Fits(HandleResolved(t, at), id, name, NextStory(h, Resolved(at, s), id, name))
  {
    hide Counted, Published, Signalled, Elems;
  }

  lemma FailedFits(t: Table, at: Id, s: Service, id: Id, name: string, h: Story)
    requires Inv(t) && at in t.heap && Fits(t, id, name, h)
    ensures Fits(Put(t, at, t.heap[at].(timer := true)), id, name, NextStory(h, ResolveFailed(at, s), id, name))
  {
    hide Counted, Published, Signalled, Elems;
  }

  lemma TimerFits(t: Table, at: Id, id: Id, name: string, h: Story)
    requires Inv(t) && at in t.heap && Fits(t, id, name, h)
    ensures Fits(HandleTimer(t, at), id, name, NextStory(h, TimerFires(at), id, name))
  {
    hide Counted, Published, Signalled, Elems;
  }

  lemma CloseFits(t: Table, id: Id, name: string, h: Story)
    requires Inv(t) && Fits(t, id, name, h)
    ensures Fits(HandleClose(t), id, name, h)
  {
    hide Counted, Published, Signalled;
  }

  lemma StepFits(t: Table, e: Event, id: Id, name: string, h: Story)
    requires Inv(t) && Possible(t, e) && Fits(t, id, name, h)
    ensures Fits(Step(t, e), id, name, NextStory(h, e, id, name))
  {
    match e {
      case FoundService(n, s, own, attaches) => FoundFits(t, n, s, own, attaches, id, name, h);
      case LostService(n, s) => LostFits(t, n, s, id, name, h);
      case Ensure(n) => TakeFits(t, n, id, name, h);
      case Lookup(n) => TakeFits(t, n, id, name, h);
      case Release(at) => ReleaseFits(t, at, id, name, h);
      case Resolved(at, s) => ResolvedFits(t, at, s, id, name, h);
      case ResolveFailed(at, s) => FailedFits(t, at, s, id, name, h);
      case TimerFires(at) => TimerFits(t, at, id, name, h);
      case CloseAll => CloseFits(t, id, name, h);
    }
    hide Inv, Fits, HandleFound, HandleLost, HandleEnsure, HandleLookup, HandleRelease, HandleResolved, HandleTimer, HandleClose;
  }

  lemma {:induction false} RunFits(t: Table, es: seq<Event>, id: Id, name: string, h: Story)
    requires Inv(t) && IsRun(t, es) && Fits(t, id, name, h)
    ensures Fits(After(t, es), id, name, StoryAfter(h, es, id, name))
    decreases |es|
  {
    hide Inv, Step, Possible, Fits, NextStory;
    if es != [] {
      StepKeeps(t, es[0]);
      StepFits(t, es[0], id, name, h);
      RunFits(Step(t, es[0]), es[1..], id, name, NextStory(h, es[0], id, name));
    }
  }

  const Untold := Story({}, false, false)

  /** Events alone decide, in every reachable state: a live contact has exactly the services of its name found with a
      resolver and not removed since, it is found if and only if one of them was resolved after its timer last fired and its
      services last ran out, and its timer runs if and only if a resolver failed since then; and while the table is open a
      name with services has a contact. */
  lemma ContactsAreHistory(es: seq<Event>, id: Id)
    requires IsRun(Init, es)
    ensures var t := After(Init, es);
      && (id in t.heap ==> var c := t.heap[id]; StoryAfter(Untold, es, id, c.name) == Story(Elems(c.services), c.found, c.timer))
      && (t.open ==> forall n :: StoryAfter(Untold, es, id, n).services != {} ==> n in t.contacts)
  {
    InitInv();
    var t := After(Init, es);
    forall n ensures Fits(t, id, n, StoryAfter(Untold, es, id, n)) {
      RunFits(Init, es, id, n, Untold);
    }
    hide After, IsRun, Inv;
  }

  /** And so they decide the published list: before `close_all` a name is on it, and the last signal says so, if and only if its
      contact is found by these events. */
  lemma ListIsHistory(es: seq<Event>, name: string)
    requires IsRun(Init, es) && After(Init, es).open
    ensures var t := After(Init, es);
      && (name in t.handles <==> name in t.contacts && StoryAfter(Untold, es, t.contacts[name], name).found)
      && (Known(t.log, name) <==> name in t.handles)
  {
    var t := After(Init, es);
    ListAgrees(es, name);
    RunKeeps(Init, es);
    if name in t.contacts {
      ContactsAreHistory(es, t.contacts[name]);
    }
    hide Counted, Published, Signalled, After, IsRun;
  }

  /** How many references an event gives to a caller of `ensure_contact` or of a lookup, on one contact; `r` is what it left. */
  function Takes(r: Table, e: Event, id: Id): nat {
    if (e.Ensure? || e.Lookup?) && e.name in r.contacts && r.contacts[e.name] == id then 1 else 0
  }

  function Releases(e: Event, id: Id): nat { if e == Release(id) then 1 else 0 }

  /** Callers hold what they took, on the contact of the name they gave, which is there after `ensure_contact`; nobody else's
      references change. */
  lemma CallersHold(t: Table, e: Event, id: Id)
    requires Inv(t) && Possible(t, e)
    ensures var r := Step(t, e);
      && Holders(r.held, id) + Releases(e, id) == Holders(t.held, id) + Takes(r, e, id)
      && (e.Ensure? ==> e.name in r.contacts)
      && (id in t.heap && id in r.heap ==> r.heap[id].name == t.heap[id].name)
  {
    hide Published, Signalled, Counted;
    match e {
      case FoundService(n, s, own, attaches) => FoundHolds(t, n, s, own, attaches);
      case LostService(n, s) => LostHolds(t, n, s);
      case Ensure(n) =>
      case Lookup(n) =>
      case Release(at) => ReleaseHolds(t, at, id);
      case Resolved(_, _) =>
      case ResolveFailed(_, _) =>
      case TimerFires(_) =>
      case CloseAll =>
    }
    hide HandleFound, HandleLost, HandleRelease, Without;
  }

  ghost predicate SameHolders(t: Table, r: Table) {
    r.held == t.held && forall i :: i in t.heap && i in r.heap ==> r.heap[i].name == t.heap[i].name
  }

  lemma FoundHolds(t: Table, n: string, s: Service, own: bool, attaches: bool)
    requires Inv(t)
    ensures SameHolders(t, HandleFound(t, n, s, own, attaches))
  {
    hide Published, Signalled, Counted;
    if !own && n in t.contacts {
      AttachIs(t, t.contacts[n], s, attaches);
      hide AddService, AddRef;
    }
  }

  lemma LostHolds(t: Table, n: string, s: Service)
    requires Inv(t) && RemovalFits(t, n)
    ensures SameHolders(t, HandleLost(t, n, s))
  {
    hide Published, Signalled, Counted, IdsFresh;
    if n in t.contacts {
      LostIs(t, n, s);
    }
    hide HandleLost, Without;
  }

  lemma ReleaseHolds(t: Table, at: Id, id: Id)
    requires Inv(t) && at in t.heap && Holders(t.held, at) > 0
    ensures var r := HandleRelease(t, at);
      && Holders(r.held, id) + (if at == id then 1 else 0) == Holders(t.held, id)
      && (id in t.heap && id in r.heap ==> r.heap[id].name == t.heap[id].name)
  {
    hide Inv;
  }

  /** The premise on removals is exact: a removal keeps the balance if and only if it meets it. */
  lemma RemovalBalancesIff(t: Table, name: string, s: Service)
    requires Inv(t) && t.open
    ensures Balanced(HandleLost(t, name, s)) <==> RemovalFits(t, name)
    ensures Inv(HandleLost(t, name, s)) <==> RemovalFits(t, name)
  {
    if RemovalFits(t, name) {
      LostKeeps(t, name, s);
    } else {
      hide Published, Signalled;
      var id := t.contacts[name];
      var r := HandleLost(t, name, s);
      assert t.heap[id].refs == Holders(t.held, id);
      assert r.held == t.held;
    }
  }

  /** One contact, held by one outside holder. */
  function Asked(name: string): Table {
    Table(map[name := 0], map[0 := Contact(name, 1, [], false, false)], {}, [], map[0 := 1], true, 1)
  }

  lemma AskedKeeps(name: string)
    ensures Inv(Init) && Possible(Init, Ensure(name)) && Step(Init, Ensure(name)) == Asked(name) && Inv(Asked(name))
  {
    InitInv();
    hide Published, Signalled, Counted;
    StepKeeps(Init, Ensure(name));
  }

  /** And it can be missed: a service that was found but whose resolver could not attach is removed all the same, and a
      contact that somebody holds loses a reference it does not have for that service. */
  lemma FailedAttachUnbalances(s: Service)
    ensures var es := [Ensure("bob"), FoundService("bob", s, false, false)];
      IsRun(Init, es) && (RunKeeps(Init, es); After(Init, es).open && !Balanced(HandleLost(After(Init, es), "bob", s)))
  {
    var e0, e1, t := Ensure("bob"), FoundService("bob", s, false, false), Asked("bob");
    AskedKeeps("bob");
    RemovalBalancesIff(t, "bob", s);
    hide Published, Signalled, Counted, Step, HandleLost;
    assert [e0, e1][1..] == [e1] && [e1][1..] == [];
    assert IsRun(t, []) && After(t, []) == t;
    assert IsRun(t, [e1]) && After(t, [e1]) == t;
  }
}
