/** The contact manager as the source runs it: references taken and dropped by browser callbacks, a table that
    loses an entry when a contact is finalized. Each handler is proved to be its step in `ContactTable`. */
module ContactManager {
  import opened Collections
  import opened ContactTable

  class ContactManager {
    var contacts: map<string, Id>
    // the live contact objects, by identity
    var heap: map<Id, Contact>
    var handles: set<string>
    var log: seq<Notice>
    ghost var held: map<Id, nat>
    var open: bool
    var next: Id

    ghost function State(): Table
      reads this
    {
      Table(contacts, heap, handles, log, held, open, next)
    }

    ghost predicate Valid()
      reads this
    {
      Inv(State())
    }

    constructor ()
      ensures Valid() && State() == Init
    {
      contacts, heap, handles, log, held, open, next := map[], map[], {}, [], map[], true, 0;
    }

    method Ref(id: Id)
      requires id in heap
      modifies this`heap
      ensures State() == AddRef(old(State()), id)
    {
      heap := heap[id := heap[id].(refs := heap[id].refs + 1)];
    }

    /** `g_object_unref`, and the weak notification if it was the last reference. */
    method DropRef(id: Id)
      requires id in heap
      modifies this`heap, this`contacts
      ensures State() == Unref(old(State()), id)
    {
      if heap[id].refs > 1 {
        heap := heap[id := heap[id].(refs := heap[id].refs - 1)];
      } else {
        heap := heap - {id};
        // _contact_finalized_cb
        var names := set n | n in contacts && contacts[n] == id;
        contacts := contacts - names;
      }
    }

    method CreateContact(name: string) returns (id: Id)
      modifies this
      ensures State() == Create(old(State()), name) && id == old(next)
    {
      id := next;
      next := next + 1;
      heap := heap[id := Contact(name, 1, [], false, false)];
      contacts := contacts[name := id];
    }

    /** `salut_contact_found` and `contact_found_cb`. */
    method Found(id: Id)
      requires id in heap
      modifies this
      ensures State() == MarkFound(old(State()), id)
    {
      if heap[id].found {
        return;
      }
      heap := heap[id := heap[id].(found := true)];
      if open {
        handles := handles + {heap[id].name};
        log := log + [Appeared(heap[id].name)];
      }
    }

    /** `salut_contact_lost` and `contact_lost_cb`. */
    method Lost(id: Id)
      requires id in heap
      modifies this
      ensures State() == MarkLost(old(State()), id)
    {
      if !heap[id].found {
        return;
      }
      heap := heap[id := heap[id].(found := false)];
      if open {
        handles := handles - {heap[id].name};
        log := log + [Gone(heap[id].name)];
      }
    }

    method FindResolver(id: Id, s: Service) returns (found: bool)
      requires id in heap
      ensures found <==> s in heap[id].services
    {
      var q := heap[id].services;
      for i := 0 to |q|
        invariant s !in q[..i]
      {
        if q[i] == s {
          return true;
        }
      }
      assert q[..|q|] == q;
      found := false;
    }

    method DropResolver(id: Id, s: Service)
      requires id in heap && s in heap[id].services
      modifies this
      ensures State() == DropService(old(State()), id, s)
    {
      heap := heap[id := heap[id].(services := Without(heap[id].services, s))];
      if heap[id].services == [] {
        Lost(id);
      }
    }

    method AddServiceTo(id: Id, s: Service, attaches: bool) returns (ok: bool)
      requires id in heap
      modifies this`heap
      ensures ok <==> s in old(heap[id].services) || attaches
      ensures heap == if s !in old(heap[id].services) && attaches
        then old(heap)[id := old(heap[id]).(services := [s] + old(heap[id].services))] else old(heap)
    {
      var known := FindResolver(id, s);
      if known {
        return true;
      }
      if !attaches {
        return false;
      }
      heap := heap[id := heap[id].(services := [s] + heap[id].services)];
      ok := true;
    }

    method BrowserFound(name: string, s: Service, own: bool, attaches: bool)
      requires Valid() && open
      modifies this
      ensures Valid() && State() == Step(old(State()), FoundService(name, s, own, attaches))
    {
      StepKeeps(State(), FoundService(name, s, own, attaches));
      hide Inv;
      assert name in contacts ==> contacts[name] in heap by { ContactsLive(); }
      if own {
        return;
      }
      var id;
      if name !in contacts {
        id := CreateContact(name);
      } else {
        id := contacts[name];
        if heap[id].services == [] {
          Ref(id);
        }
      }
      var ok := AddServiceTo(id, s, attaches);
      if !ok && heap[id].services == [] {
        DropRef(id);
      }
    }

    lemma ContactsLive()
      requires Valid()
      ensures forall n :: n in contacts ==> contacts[n] in heap
    {
    }

    method BrowserRemoved(name: string, s: Service)
      requires Valid() && open
      modifies this
      ensures State() == HandleLost(old(State()), name, s)
      ensures Valid() <==> old(RemovalFits(State(), name))
    {
      RemovalBalancesIff(State(), name, s);
      assert name in contacts ==> contacts[name] in heap by { ContactsLive(); }
      hide Inv, MarkLost;
      if name in contacts {
        var id := contacts[name];
        var known := FindResolver(id, s);
        if known {
          DropResolver(id, s);
        }
        if heap[id].services == [] {
          DropRef(id);
        }
      }
    }

    /** A reference for the caller. */
    method RefForCaller(id: Id)
      requires id in heap
      modifies this`heap, this`held
      ensures State() == Hold(AddRef(old(State()), id), id)
    {
      Ref(id);
      held := held[id := Holders(held, id) + 1];
    }

    method EnsureContact(name: string) returns (id: Id)
      requires Valid() && open
      modifies this
      ensures Valid() && State() == Step(old(State()), Ensure(name))
      ensures name in contacts && contacts[name] == id
    {
      StepKeeps(State(), Ensure(name));
      assert name in contacts ==> contacts[name] in heap by { ContactsLive(); }
      hide Inv;
      if name !in contacts {
        id := CreateContact(name);
        held := held[id := Holders(held, id) + 1];
        assert State() == Hold(Create(old(State()), name), id);
      } else {
        id := contacts[name];
        RefForCaller(id);
        assert State() == Hold(AddRef(old(State()), id), id);
      }
      assert State() == HandleEnsure(old(State()), name);
    }

    method GetContact(name: string) returns (id: Option<Id>)
      requires Valid()
      modifies this
      ensures Valid() && State() == Step(old(State()), Lookup(name))
      ensures id == if open then Get(contacts, name) else None
    {
      StepKeeps(State(), Lookup(name));
      assert name in contacts ==> contacts[name] in heap by { ContactsLive(); }
      hide Inv;
      if !open || name !in contacts {
        return None;
      }
      RefForCaller(contacts[name]);
      id := Some(contacts[name]);
    }

    /** Outside code releases a reference it holds. */
    method ReleaseContact(id: Id)
      requires Valid() && id in heap && Holders(held, id) > 0
      modifies this
      ensures Valid() && State() == Step(old(State()), Release(id))
    {
      StepKeeps(State(), Release(id));
      hide Inv;
      held := held[id := Holders(held, id) - 1];
      DropRef(id);
    }

    /** `contact_resolved_cb`, as far as the list goes. */
    method ContactResolved(id: Id, s: Service)
      requires Valid() && id in heap && s in heap[id].services
      modifies this
      ensures Valid() && State() == Step(old(State()), Resolved(id, s))
    {
      StepKeeps(State(), Resolved(id, s));
      hide Inv;
      if heap[id].timer {
        heap := heap[id := heap[id].(timer := false)];
      }
      assert heap == old(heap)[id := old(heap[id]).(timer := false)];
      Found(id);
    }

    method ContactFailed(id: Id, s: Service)
      requires Valid() && id in heap && s in heap[id].services
      modifies this
      ensures Valid() && State() == Step(old(State()), ResolveFailed(id, s))
    {
      StepKeeps(State(), ResolveFailed(id, s));
      hide Inv;
      if !heap[id].timer {
        heap := heap[id := heap[id].(timer := true)];
      }
      assert heap == old(heap)[id := old(heap[id]).(timer := true)];
    }

    method PresenceResolverFailedTimeout(id: Id)
      requires Valid() && id in heap && heap[id].timer
      modifies this
      ensures Valid() && State() == Step(old(State()), TimerFires(id))
    {
      StepKeeps(State(), TimerFires(id));
      hide Inv;
      heap := heap[id := heap[id].(timer := false)];
      Lost(id);
    }

    /** `dispose_contact`: the reference for services goes. */
    method DisposeContact(id: Id)
      requires id in heap
      modifies this`heap
      ensures heap == WithoutServiceRef(old(heap), id)
    {
      if heap[id].services != [] {
        if heap[id].refs > 1 {
          heap := heap[id := heap[id].(refs := heap[id].refs - 1)];
        } else {
          heap := heap - {id};
        }
      }
    }

    /** `dispose_contact` on every entry, in the table's own order. */
    method DisposeContacts()
      requires Listing(contacts, heap, true) && forall id :: id in heap ==> heap[id].refs > 0
      modifies this`heap
      ensures heap == HandleClose(old(State()).(open := true)).heap
    {
      ghost var t := State().(open := true);
      assert forall i :: i in t.heap ==> t.heap[i].name in contacts && contacts[t.heap[i].name] == i;
      assert forall n :: n in contacts ==> contacts[n] in t.heap && t.heap[contacts[n]].name == n;
      hide Listing, HandleClose, WithoutServiceRef, ServicesOk;
      var left := contacts.Keys;
      while left != {}
        invariant left <= contacts.Keys
        invariant PartlyClosed(t.heap, heap, left)
      {
        var n :| n in left;
        DisposedNext(t.heap, heap, left, n, contacts[n]);
        DisposeContact(contacts[n]);
        left := left - {n};
      }
      AllClosed(t, heap);
    }

    /** `salut_contact_manager_close_all`. */
    method CloseManager()
      requires Valid()
      modifies this
      ensures Valid() && State() == Step(old(State()), CloseAll)
    {
      StepKeeps(State(), CloseAll);
      assert open ==> Listing(contacts, heap, true) && forall id :: id in heap ==> heap[id].refs > 0;
      hide Inv;
      if !open {
        return;
      }
      handles := {};
      DisposeContacts();
      contacts := map[];
      open := false;
    }
  }

  function WithoutServiceRef(heap: map<Id, Contact>, id: Id): map<Id, Contact>
    requires id in heap
  {
    var c := heap[id];
    if c.services == [] then heap else if c.refs > 1 then heap[id := c.(refs := c.refs - 1)] else heap - {id}
  }

  /** Of the contacts before, those whose names are not left have given up the reference for their services. */
  ghost predicate PartlyClosed(before: map<Id, Contact>, heap: map<Id, Contact>, left: set<string>) {
    && (forall i :: i in heap ==> i in before)
    && forall i :: i in before ==> ClosedOne(before[i], Get(heap, i), before[i].name in left)
  }

  predicate ClosedOne(was: Contact, now: Option<Contact>, untouched: bool) {
    if untouched then now == Some(was)
    else if RefsAfterClose(was) > 0 then now == Some(was.(refs := RefsAfterClose(was)))
    else now == None
  }

  lemma DisposedNext(before: map<Id, Contact>, heap: map<Id, Contact>, left: set<string>, n: string, id: Id)
    requires PartlyClosed(before, heap, left) && n in left && id in before && before[id].name == n && before[id].refs > 0
    requires forall i :: i in before && before[i].name == n ==> i == id
    ensures id in heap && PartlyClosed(before, WithoutServiceRef(heap, id), left - {n})
  {
    assert ClosedOne(before[id], Get(heap, id), true);
    var next := WithoutServiceRef(heap, id);
    forall i | i in before ensures ClosedOne(before[i], Get(next, i), before[i].name in left - {n}) {
      assert ClosedOne(before[i], Get(heap, i), before[i].name in left);
    }
  }

  lemma AllClosed(t: Table, heap: map<Id, Contact>)
    requires t.open && PartlyClosed(t.heap, heap, {}) && forall i :: i in t.heap ==> i in t.contacts.Values
    ensures heap == HandleClose(t).heap
  {
    forall i | i in t.heap ensures ClosedOne(t.heap[i], Get(heap, i), false) {
      assert ClosedOne(t.heap[i], Get(heap, i), t.heap[i].name in {});
    }
    var closed := HandleClose(t).heap;
    assert forall i :: i in heap <==> i in closed;
    assert forall i :: i in heap ==> heap[i] == closed[i];
  }
}
