/** Outstanding service discovery requests: who frees a request record, and when its callback may run. Callbacks may
    make, cancel and drop requests themselves, or dispose of the disco object. */
module DiscoRequests {
  import opened Collections

  type Id = nat
  type Obj = nat

  /** A request record: `attached` while its disco pointer is set, `owner` the object it was bound to, `bound` while the
      weak reference to it is held, `outstanding` until the porter comes back. */
  datatype Record = Record(attached: bool, owner: Option<Obj>, bound: bool, cancelled: bool, outstanding: bool)

  datatype Disco = Disco(requests: seq<Id>, live: map<Id, Record>, dead: set<Obj>, disposed: bool, next: Id,
                         called: seq<Id>, freed: seq<Id>)

  const Init := Disco([], map[], {}, false, 0, [], [])

  /** What outside code may do, at any time or from within a callback. `sync` are the requests whose cancelling makes the
      porter come back at once; `order` is the order in which weak references are notified. */
  datatype Action =
    | Ask(owner: Option<Obj>)
    | Cancel(id: Id, sync: set<Id>)
    | Die(obj: Obj, order: seq<Id>, sync: set<Id>)
    | Dispose(sync: set<Id>)

  datatype Event = Act(action: Action) | Reply(id: Id, during: seq<Action>)

  // ----- the handlers -----

  lemma ElemsTail(q: seq<Id>)
    requires q != [] && Distinct(q)
    ensures Elems(q) - {q[0]} == Elems(q[1..])
  {
    DistinctTail(q);
    assert q == [q[0]] + q[1..];
  }

  /** `delete_request`. */
  function Delete(s: Disco, id: Id): Disco
    requires id in s.live
  {
    s.(requests := if s.live[id].attached then Without(s.requests, id) else s.requests,
       live := s.live - {id}, freed := s.freed + [id])
  }

  function Put(s: Disco, id: Id, r: Record): Disco { s.(live := s.live[id := r]) }

  /** A record whose pointers have become those of `r` is cancelled, after which the porter may come back at once: a
      cancelled request has no callback to run. */
  function Settle(s: Disco, id: Id, r: Record, sync: set<Id>): Disco {
    if r.cancelled then Put(s, id, r)
    else if id in sync && r.outstanding then Delete(Put(s, id, r.(cancelled := true, outstanding := false)), id)
    else Put(s, id, r.(cancelled := true))
  }

  lemma SettlePut(s: Disco, id: Id, r: Record, sync: set<Id>)
    ensures Settle(Put(s, id, r), id, r, sync) == Settle(s, id, r, sync)
  {
    assert forall x: Record {:trigger s.live[id := x]} :: s.live[id := r][id := x] == s.live[id := x];
  }

  /** `notify_delete_request`, for each weak reference to an object. */
  function NotifyAll(s: Disco, ids: seq<Id>, sync: set<Id>): Disco
    requires Distinct(ids) && forall i :: i in ids ==> i in s.live
    decreases |ids|
  {
    if ids == [] then s else DistinctTail(ids); NotifyAll(Settle(s, ids[0], s.live[ids[0]].(bound := false), sync), ids[1..], sync)
  }

  /** The disposal loop: the records in the list are still there when it reaches them. */
  function OrphanAll(s: Disco, ids: seq<Id>, sync: set<Id>): Disco
    requires Distinct(ids) && forall i :: i in ids ==> i in s.live
    decreases |ids|
  {
    if ids == [] then s else DistinctTail(ids); OrphanAll(Settle(s, ids[0], s.live[ids[0]].(attached := false), sync), ids[1..], sync)
  }

  function AskFor(s: Disco, owner: Option<Obj>): Disco {
    s.(live := s.live[s.next := Record(true, owner, owner.Some?, false, true)], requests := s.requests + [s.next], next := s.next + 1)
  }

  /** The disco object is there to be called, and a request to be cancelled is one of its requests. */
  ghost predicate MayAct(s: Disco, a: Action) {
    match a
    case Ask(o) => !s.disposed && (o.Some? ==> o.value !in s.dead)
    case Cancel(id, _) => !s.disposed && id in s.requests
    case Die(obj, order, _) =>
      obj !in s.dead && Distinct(order) && forall i :: i in order <==> i in s.live && s.live[i].bound && s.live[i].owner == Some(obj)
    case Dispose(_) => !s.disposed
  }

  function Perform(s: Disco, a: Action): Disco
    requires Inv(s) && MayAct(s, a)
  {
    match a
    case Ask(o) => AskFor(s, o)
    case Cancel(id, sync) => Settle(s, id, s.live[id], sync)
    case Die(obj, order, sync) => var t := NotifyAll(s, order, sync); t.(dead := t.dead + {obj})
    case Dispose(sync) => OrphanAll(s, s.requests, sync).(requests := [], disposed := true)
  }

  ghost predicate MayPerform(s: Disco, as_: seq<Action>)
    requires Inv(s)
    decreases |as_|
  {
    as_ == [] || (MayAct(s, as_[0]) && (PerformKeeps(s, as_[0]); MayPerform(Perform(s, as_[0]), as_[1..])))
  }

  function PerformAll(s: Disco, as_: seq<Action>): (r: Disco)
    requires Inv(s) && MayPerform(s, as_)
    ensures Inv(r)
    decreases |as_|
  {
    if as_ == [] then s else PerformKeeps(s, as_[0]); PerformAll(Perform(s, as_[0]), as_[1..])
  }

  /** `disco_request_sent_cb` up to its callback. */
  function Arrive(s: Disco, id: Id): Disco
    requires id in s.live
  {
    var s1 := Put(s, id, s.live[id].(outstanding := false));
    if s.live[id].cancelled then s1 else s1.(called := s.called + [id])
  }

  // ----- the protocol -----

  /** Freed is what was made and is no longer live, once. Callbacks ran once at most, and not for outstanding requests. */
  ghost predicate Accounted(live: map<Id, Record>, next: Id, called: seq<Id>, freed: seq<Id>) {
    forall i: Id ::
      && Times(freed, i) == (if i < next && i !in live then 1 else 0)
      && Times(called, i) <= (if i < next && (i in live ==> !live[i].outstanding) then 1 else 0)
  }

  /** A detached request, and one whose object is dead, is cancelled. */
  predicate RecordOk(r: Record, dead: set<Obj>) {
    && (r.bound ==> r.owner.Some? && r.owner.value !in dead)
    && (r.owner.Some? && !r.bound ==> r.cancelled)
    && (!r.attached ==> r.cancelled)
  }

  ghost predicate RecordsOk(live: map<Id, Record>, next: Id, dead: set<Obj>, attached: set<Id>) {
    forall i :: i in live ==> i < next && RecordOk(live[i], dead) && (live[i].attached <==> i in attached)
  }

  ghost predicate Core(s: Disco, attached: set<Id>) {
    RecordsOk(s.live, s.next, s.dead, attached) && Accounted(s.live, s.next, s.called, s.freed)
  }

  ghost predicate Listed(requests: seq<Id>, live: map<Id, Record>, disposed: bool) {
    Distinct(requests) && forall i :: i in requests <==> i in live && !disposed
  }

  /** Until disposal the list is exactly the live requests; afterwards those left are detached. */
  ghost predicate Inv(s: Disco) {
    Core(s, Attached(s)) && Listed(s.requests, s.live, s.disposed)
  }

  function Attached(s: Disco): set<Id> { if s.disposed then {} else s.live.Keys }

  predicate Follows(was: Record, r: Record) {
    r.owner == was.owner && (was.cancelled ==> r.cancelled) && (r.outstanding <==> was.outstanding)
  }

  /** From `s` to `t` no callback ran, nothing cancelled was revived, and requests being answered stayed. */
  ghost predicate Quiet(s: Disco, t: Disco) {
    && t.called == s.called && s.next <= t.next
    && (forall i :: i in t.live && i < s.next ==> i in s.live && Follows(s.live[i], t.live[i]))
    && (forall i :: i in t.live && i >= s.next ==> t.live[i].outstanding)
    && (forall i :: i in s.live && i < s.next && !s.live[i].outstanding ==> i in t.live)
  }

  lemma CoreQuiet(s: Disco, attached: set<Id>)
    requires Core(s, attached)
    ensures Quiet(s, s)
  {
    hide Accounted, RecordOk;
  }

  lemma QuietSelf(s: Disco)
    requires Inv(s)
    ensures Quiet(s, s)
  {
    CoreQuiet(s, Attached(s));
  }

  lemma QuietChain(s: Disco, m: Disco, t: Disco)
    requires Quiet(s, m) && Quiet(m, t)
    ensures Quiet(s, t)
  {
  }

  lemma PutAccounted(s: Disco, id: Id, r: Record)
    requires Accounted(s.live, s.next, s.called, s.freed) && id in s.live && (r.outstanding ==> s.live[id].outstanding)
    ensures Accounted(s.live[id := r], s.next, s.called, s.freed)
  {
  }

  lemma DeleteAccounted(s: Disco, id: Id)
    requires Accounted(s.live, s.next, s.called, s.freed) && id in s.live && id < s.next && !s.live[id].outstanding
    ensures Accounted(s.live - {id}, s.next, s.called, s.freed + [id])
  {
    hide Times;
    forall i ensures Times(s.freed + [id], i) == Times(s.freed, i) + if i == id then 1 else 0 {
      TimesAppend(s.freed, id, i);
    }
  }

  ghost predicate Settles(s: Disco, r: Record, id: Id) {
    && id in s.live && RecordOk(r.(cancelled := true), s.dead) && (r.attached ==> s.live[id].attached)
    && Follows(s.live[id], r)
  }

  /** A request is settled: its pointers are those of `r`, it is cancelled, and it may be freed if it was outstanding. */
  lemma SettleFrame(s: Disco, id: Id, r: Record, sync: set<Id>)
    requires Settles(s, r, id)
    ensures var t := Settle(s, id, r, sync);
      && t == s.(live := t.live, requests := t.requests, freed := t.freed)
      && (forall i :: i != id ==> (i in t.live <==> i in s.live) && (i in t.live ==> t.live[i] == s.live[i]))
      && (if id in t.live then t.live[id] == r.(cancelled := true) else s.live[id].outstanding)
      && t.requests == (if id !in t.live && r.attached then Without(s.requests, id) else s.requests)
      && (id !in t.live <==> !r.cancelled && id in sync && r.outstanding)
  {
    hide RecordOk;
  }

  lemma SettleQuiet(s: Disco, id: Id, r: Record, sync: set<Id>)
    requires Settles(s, r, id) && id < s.next && forall i :: i in s.live ==> i < s.next
    ensures Quiet(s, Settle(s, id, r, sync))
  {
    SettleFrame(s, id, r, sync);
    hide Settle, RecordOk;
  }

  lemma SettleKeeps(s: Disco, id: Id, r: Record, sync: set<Id>, attached: set<Id>)
    requires Core(s, attached) && Settles(s, r, id)
    ensures var t := Settle(s, id, r, sync);
      Core(t, if r.attached then attached else attached - {id}) && Quiet(s, t)
  {
    SettleAccounts(s, id, r, sync, attached);
    SettleQuiet(s, id, r, sync);
    SettleFrame(s, id, r, sync);
    hide Settle, Accounted, Quiet;
    assert RecordOk(r.(cancelled := true), s.dead);
    hide RecordOk;
  }

  lemma SettleAccounts(s: Disco, id: Id, r: Record, sync: set<Id>, attached: set<Id>)
    requires Core(s, attached) && Settles(s, r, id)
    ensures var t := Settle(s, id, r, sync); Accounted(t.live, t.next, t.called, t.freed)
  {
    var c, d := r.(cancelled := true), r.(cancelled := true, outstanding := false);
    PutAccounted(s, id, c);
    PutAccounted(s, id, d);
    DeleteAccounted(Put(s, id, d), id);
    hide RecordOk, Accounted;
  }

  /** While its list is kept in step, a settled request leaves the invariant standing. */
  lemma SettledInv(s: Disco, id: Id, r: Record, sync: set<Id>)
    requires Inv(s) && Settles(s, r, id) && r.attached == s.live[id].attached
    ensures Inv(Settle(s, id, r, sync))
  {
    SettleFrame(s, id, r, sync);
    SettleKeeps(s, id, r, sync, Attached(s));
    SettledListed(s, id, r, sync);
    hide Settle, Accounted, RecordOk, Quiet, Listed;
  }

  lemma SettledListed(s: Disco, id: Id, r: Record, sync: set<Id>)
    requires Inv(s) && Settles(s, r, id) && r.attached == s.live[id].attached
    ensures var t := Settle(s, id, r, sync); Listed(t.requests, t.live, t.disposed)
  {
    assert r.attached <==> !s.disposed by { hide Accounted, Listed, RecordOk; }
    SettleFrame(s, id, r, sync);
    hide Core, Settle, RecordOk;
    WithoutKeeps(s.requests, id);
    hide Distinct, Without;
  }

  lemma NotifyOne(s: Disco, id: Id, sync: set<Id>)
    requires Inv(s) && id in s.live && s.live[id].owner.Some?
    ensures var m := Settle(s, id, s.live[id].(bound := false), sync);
      && Inv(m) && Quiet(s, m) && m == s.(live := m.live, requests := m.requests, freed := m.freed)
      && (forall i :: i in s.live && i != id ==> i in m.live)
      && (forall i :: i in m.live ==> i in s.live && m.live[i].owner == s.live[i].owner)
      && (forall i :: i in m.live ==> m.live[i].bound == (s.live[i].bound && i != id))
  {
    var r := s.live[id].(bound := false);
    assert Settles(s, r, id);
    SettledInv(s, id, r, sync);
    SettleKeeps(s, id, r, sync, Attached(s));
    SettleFrame(s, id, r, sync);
    hide Settle, Inv, Quiet, RecordOk;
  }

  lemma {:induction false} NotifyAllKeeps(s: Disco, ids: seq<Id>, sync: set<Id>)
    requires Inv(s) && Distinct(ids) && forall i :: i in ids ==> i in s.live && s.live[i].owner.Some?
    ensures var t := NotifyAll(s, ids, sync);
      && Inv(t) && Quiet(s, t) && t == s.(live := t.live, requests := t.requests, freed := t.freed)
      && (forall i :: i in t.live ==> i in s.live && t.live[i].bound == (s.live[i].bound && i !in ids))
    decreases |ids|
  {
    QuietSelf(s);
    hide Inv, Quiet, Settle;
    if ids != [] {
      assert ids == [ids[0]] + ids[1..];
      var m := Settle(s, ids[0], s.live[ids[0]].(bound := false), sync);
      NotifyOne(s, ids[0], sync);
      NotifyAllKeeps(m, ids[1..], sync);
      QuietChain(s, m, NotifyAll(m, ids[1..], sync));
    }
  }

  lemma OrphanOne(s: Disco, id: Id, sync: set<Id>, attached: set<Id>)
    requires Core(s, attached) && id in s.live
    ensures var m := Settle(s, id, s.live[id].(attached := false), sync);
      && Core(m, attached - {id}) && Quiet(s, m) && m == s.(live := m.live, freed := m.freed)
      && (forall i :: i in s.live && i != id ==> i in m.live)
  {
    var r := s.live[id].(attached := false);
    assert Settles(s, r, id);
    SettleKeeps(s, id, r, sync, attached);
    SettleFrame(s, id, r, sync);
    hide Settle, Core, Quiet, RecordOk;
  }

  lemma {:induction false} OrphanAllKeeps(s: Disco, ids: seq<Id>, sync: set<Id>)
    requires Core(s, Elems(ids)) && Distinct(ids) && forall i :: i in ids ==> i in s.live
    ensures var t := OrphanAll(s, ids, sync);
      Core(t, {}) && Quiet(s, t) && t == s.(live := t.live, freed := t.freed)
    decreases |ids|
  {
    CoreQuiet(s, Elems(ids));
    hide Core, Quiet, Settle;
    if ids == [] {
      assert Elems(ids) == {};
    } else {
      var m := Settle(s, ids[0], s.live[ids[0]].(attached := false), sync);
      OrphanOne(s, ids[0], sync, Elems(ids));
      ElemsTail(ids);
      OrphanAllKeeps(m, ids[1..], sync);
      QuietChain(s, m, OrphanAll(m, ids[1..], sync));
    }
  }

  lemma DieKeeps(s: Disco, obj: Obj, order: seq<Id>, sync: set<Id>)
    requires Inv(s) && MayAct(s, Die(obj, order, sync))
    ensures var t := Perform(s, Die(obj, order, sync)); Inv(t) && Quiet(s, t)
  {
    assert forall i :: i in s.live ==> RecordOk(s.live[i], s.dead);
    NotifyAllKeeps(s, order, sync);
    var t := NotifyAll(s, order, sync);
    hide NotifyAll, Accounted, Distinct;
    forall i | i in t.live ensures RecordOk(t.live[i], t.dead + {obj}) {
      assert RecordOk(t.live[i], t.dead);
    }
    hide RecordOk;
  }

  lemma DisposeKeeps(s: Disco, sync: set<Id>)
    requires Inv(s) && !s.disposed
    ensures var t := Perform(s, Dispose(sync)); Inv(t) && Quiet(s, t)
  {
    assert Elems(s.requests) == s.live.Keys;
    OrphanAllKeeps(s, s.requests, sync);
    hide OrphanAll, Core;
  }

  lemma AskKeeps(s: Disco, owner: Option<Obj>)
    requires Inv(s) && MayAct(s, Ask(owner))
    ensures Inv(AskFor(s, owner)) && Quiet(s, AskFor(s, owner))
  {
    assert s.next !in s.live by { hide Accounted, Listed; }
    assert Distinct(s.requests + [s.next]);
    assert RecordOk(Record(true, owner, owner.Some?, false, true), s.dead);
    hide Distinct, RecordOk, Accounted;
  }

  /** Whatever outside code does keeps the invariant and runs no callback. */
  lemma PerformKeeps(s: Disco, a: Action)
    requires Inv(s) && MayAct(s, a)
    ensures Inv(Perform(s, a)) && Quiet(s, Perform(s, a))
  {
    match a
    case Ask(o) => AskKeeps(s, o);
    case Cancel(id, sync) =>
      SettledInv(s, id, s.live[id], sync);
      SettleKeeps(s, id, s.live[id], sync, s.live.Keys);
    case Die(obj, order, sync) => DieKeeps(s, obj, order, sync);
    case Dispose(sync) => DisposeKeeps(s, sync);
  }

  lemma {:induction false} PerformAllQuiet(s: Disco, as_: seq<Action>)
    requires Inv(s) && MayPerform(s, as_)
    ensures Quiet(s, PerformAll(s, as_))
    decreases |as_|
  {
    QuietSelf(s);
    hide Inv, Quiet;
    if as_ != [] {
      PerformKeeps(s, as_[0]);
      PerformAllQuiet(Perform(s, as_[0]), as_[1..]);
      QuietChain(s, Perform(s, as_[0]), PerformAll(Perform(s, as_[0]), as_[1..]));
    }
  }

  lemma ArriveKeeps(s: Disco, id: Id)
    requires Inv(s) && id in s.live && s.live[id].outstanding
    ensures Inv(Arrive(s, id))
  {
    ArriveAccounts(s, id);
    assert RecordOk(s.live[id].(outstanding := false), s.dead);
    hide Accounted, Distinct, RecordOk;
  }

  lemma ArriveAccounts(s: Disco, id: Id)
    requires Accounted(s.live, s.next, s.called, s.freed) && id in s.live && s.live[id].outstanding && id < s.next
    ensures var t := Arrive(s, id); Accounted(t.live, t.next, t.called, t.freed)
  {
    hide Times;
    PutAccounted(s, id, s.live[id].(outstanding := false));
    forall i ensures Times(s.called + [id], i) == Times(s.called, i) + if i == id then 1 else 0 {
      TimesAppend(s.called, id, i);
    }
  }

  lemma DeleteKeeps(s: Disco, id: Id)
    requires Inv(s) && id in s.live && !s.live[id].outstanding
    ensures Inv(Delete(s, id))
  {
    DeleteAccounted(s, id);
    WithoutKeeps(s.requests, id);
    hide Accounted, Distinct, RecordOk;
  }

  // ----- whole runs -----

  ghost predicate Possible(s: Disco, e: Event)
    requires Inv(s)
  {
    match e
    case Act(a) => MayAct(s, a)
    case Reply(id, during) =>
      && id in s.live && s.live[id].outstanding
      && (ArriveKeeps(s, id); MayPerform(Arrive(s, id), if s.live[id].cancelled then [] else during))
  }

  /** The reply of `id` has arrived and its callback, if it runs at all, has done `during`. */
  function Answering(s: Disco, id: Id, during: seq<Action>): Disco
    requires Inv(s) && Possible(s, Reply(id, during))
  {
    ArriveKeeps(s, id);
    PerformAll(Arrive(s, id), if s.live[id].cancelled then [] else during)
  }

  lemma AnsweringKeeps(s: Disco, id: Id, during: seq<Action>)
    requires Inv(s) && Possible(s, Reply(id, during))
    ensures var t := Answering(s, id, during);
      Inv(t) && Quiet(Arrive(s, id), t) && id < s.next && id in t.live && !t.live[id].outstanding
  {
    assert id < s.next by { hide Accounted, Listed; }
    ArriveKeeps(s, id);
    hide Inv;
    PerformAllQuiet(Arrive(s, id), if s.live[id].cancelled then [] else during);
  }

  function Step(s: Disco, e: Event): (t: Disco)
    requires Inv(s) && Possible(s, e)
    ensures Inv(t)
  {
    match e
    case Act(a) => PerformKeeps(s, a); Perform(s, a)
    case Reply(id, during) =>
      AnsweringKeeps(s, id, during);
      DeleteKeeps(Answering(s, id, during), id);
      Delete(Answering(s, id, during), id)
  }

  ghost predicate IsRun(s: Disco, es: seq<Event>)
    requires Inv(s)
    decreases |es|
  {
    es == [] || (Possible(s, es[0]) && IsRun(Step(s, es[0]), es[1..]))
  }

  function After(s: Disco, es: seq<Event>): (t: Disco)
    requires Inv(s) && IsRun(s, es)
    ensures Inv(t)
    decreases |es|
  {
    if es == [] then s else After(Step(s, es[0]), es[1..])
  }

  /** Between events nothing is being answered. */
  ghost predicate Idle(s: Disco) { forall i :: i in s.live ==> s.live[i].outstanding }

  lemma StepIdle(s: Disco, e: Event)
    requires Inv(s) && Possible(s, e) && Idle(s)
    ensures Idle(Step(s, e))
  {
    hide Inv;
    match e
    case Act(a) => PerformKeeps(s, a);
    case Reply(id, during) =>
      AnsweringKeeps(s, id, during);
  }

  lemma {:induction false} RunIdle(s: Disco, es: seq<Event>)
    requires Inv(s) && IsRun(s, es) && Idle(s)
    ensures Idle(After(s, es))
    decreases |es|
  {
    hide Inv, Idle;
    if es != [] {
      StepIdle(s, es[0]);
      RunIdle(Step(s, es[0]), es[1..]);
    }
  }

  /** In every reachable state, until disposal, the list is exactly the outstanding requests; each request made is either
      still there or was freed, once; and its callback ran at most once, never before the reply. */
  lemma RequestsTracked(es: seq<Event>, id: Id)
    requires IsRun(Init, es)
    ensures var s := After(Init, es);
      && (!s.disposed ==> (id in s.requests <==> id in s.live && s.live[id].outstanding))
      && Times(s.freed, id) == (if id < s.next && id !in s.live then 1 else 0)
      && Times(s.called, id) <= (if id < s.next && id !in s.live then 1 else 0)
  {
    RunIdle(Init, es);
    assert Accounted(After(Init, es).live, After(Init, es).next, After(Init, es).called, After(Init, es).freed);
  }

  /** When a reply arrives the callback runs if and only if the request was not cancelled, whatever the callback does;
      the record is then freed, and no other callback runs. */
  lemma ReplyAnswersIff(s: Disco, id: Id, during: seq<Action>)
    requires Inv(s) && Possible(s, Reply(id, during))
    ensures var t := Step(s, Reply(id, during));
      && t.called == (if s.live[id].cancelled then s.called else s.called + [id])
      && id !in t.live && Times(t.freed, id) == 1
  {
    AnsweringKeeps(s, id, during);
    hide Core, Listed, Times, Answering;
  }

  /** A request that is cancelled or gone. */
  predicate Silenced(s: Disco, id: Id) {
    id < s.next && (id in s.live ==> s.live[id].cancelled)
  }

  lemma StepSilenced(s: Disco, e: Event, id: Id)
    requires Inv(s) && Possible(s, e) && Silenced(s, id)
    ensures Silenced(Step(s, e), id) && Times(Step(s, e).called, id) == Times(s.called, id)
  {
    hide Inv;
    match e
    case Act(a) => PerformKeeps(s, a);
    case Reply(other, during) =>
      TimesAppend(s.called, other, id);
      AnsweringKeeps(s, other, during);
  }

  /** The callback of a request once cancelled never runs again, in any continuation. */
  lemma {:induction false} SilencedForever(s: Disco, es: seq<Event>, id: Id)
    requires Inv(s) && IsRun(s, es) && Silenced(s, id)
    ensures Times(After(s, es).called, id) == Times(s.called, id)
    decreases |es|
  {
    hide Inv;
    if es != [] {
      StepSilenced(s, es[0], id);
      SilencedForever(Step(s, es[0]), es[1..], id);
    }
  }

  /** Cancelling a request, the death of the object it is bound to, and disposal all silence it. */
  lemma Silences(s: Disco, a: Action, id: Id)
    requires Inv(s) && MayAct(s, a) && id in s.live
    requires a.Dispose? || (a.Cancel? && a.id == id) || (a.Die? && s.live[id].owner == Some(a.obj))
    ensures Silenced(Perform(s, a), id)
  {
    PerformKeeps(s, a);
    var t := Perform(s, a);
    if id in t.live {
      assert RecordOk(t.live[id], t.dead);
      match a
      case Cancel(_, sync) => SettleKeeps(s, id, s.live[id], sync, s.live.Keys);
      case Die(_, _, _) =>
      case Dispose(_) =>
    }
  }

  // ----- what events alone decide -----

  /** What the events so far say: the object each request was bound to, which requests were told to stop, which are gone,
      and whose callbacks ran. */
  datatype History = History(owners: seq<Option<Obj>>, stopped: set<Id>, gone: set<Id>, answered: set<Id>,
                             dead: set<Obj>, disposed: bool)

  const Nothing := History([], {}, {}, {}, {}, false)

  /** Requests are told to stop; those of them in `sync` the porter lets go at once, unless they were told before or it is
      just answering them (`busy`). */
  function Stop(h: History, ids: set<Id>, sync: set<Id>, busy: set<Id>): History {
    h.(stopped := h.stopped + ids, gone := h.gone + (ids * sync - h.stopped - busy))
  }

  predicate IsMade(h: History, i: Id) { i < |h.owners| }

  function Made(h: History): set<Id> { set i: Id | i < |h.owners| && IsMade(h, i) }

  function BoundTo(h: History, obj: Obj): set<Id> { set i: Id | i < |h.owners| && h.owners[i] == Some(obj) }

  function NextAction(h: History, a: Action, busy: set<Id>): History {
    match a
    case Ask(o) => h.(owners := h.owners + [o])
    case Cancel(id, sync) => Stop(h, {id}, sync, busy)
    case Die(obj, _, sync) =>
      Stop(h.(dead := h.dead + {obj}), BoundTo(h, obj), sync, busy)
    case Dispose(sync) => Stop(h.(disposed := true), Made(h), sync, busy)
  }

  function ActionsAfter(h: History, as_: seq<Action>, busy: set<Id>): History
    decreases |as_|
  {
    if as_ == [] then h else ActionsAfter(NextAction(h, as_[0], busy), as_[1..], busy)
  }

  /** A reply to a request that was told to stop runs no callback; any other one does, and then what it does. */
  function NextEvent(h: History, e: Event): History {
    match e
    case Act(a) => NextAction(h, a, {})
    case Reply(id, during) =>
      var t := if id in h.stopped then h else ActionsAfter(h.(answered := h.answered + {id}), during, {id});
      t.(gone := t.gone + {id})
  }

  function HistoryAfter(h: History, es: seq<Event>): History
    decreases |es|
  {
    if es == [] then h else HistoryAfter(NextEvent(h, es[0]), es[1..])
  }

  /** The state is what the history says, while the requests in `busy` are being answered. */
  ghost predicate Agrees(s: Disco, h: History, busy: set<Id>) {
    && s.next == |h.owners| && s.dead == h.dead && s.disposed == h.disposed
    && (forall i: Id :: i in s.live <==> i < s.next && i !in h.gone)
    && (forall i :: i in s.live ==> RecordAgrees(s.live[i], i, h, busy))
    && (forall i: Id :: i in s.called <==> i in h.answered)
  }

  predicate RecordAgrees(r: Record, i: Id, h: History, busy: set<Id>) {
    && i < |h.owners| && r.owner == h.owners[i]
    && (r.cancelled <==> i in h.stopped) && (r.outstanding <==> i !in busy)
  }

  predicate Goes(s: Disco, i: Id, ids: set<Id>, sync: set<Id>)
    requires i in s.live
  {
    i in ids && i in sync && !s.live[i].cancelled && s.live[i].outstanding
  }

  /** Exactly the requests `ids` were told to stop. */
  ghost predicate Stopped(s: Disco, t: Disco, ids: set<Id>, sync: set<Id>) {
    && t.called == s.called && t.next == s.next
    && (forall i :: i in t.live <==> i in s.live && !Goes(s, i, ids, sync))
    && (forall i :: i in t.live ==> Follows(s.live[i], t.live[i]) && (t.live[i].cancelled <==> s.live[i].cancelled || i in ids))
  }

  lemma SettleStops(s: Disco, id: Id, r: Record, sync: set<Id>)
    requires Settles(s, r, id) && r.cancelled == s.live[id].cancelled
    ensures Stopped(s, Settle(s, id, r, sync), {id}, sync)
  {
    SettleFrame(s, id, r, sync);
    hide Settle, RecordOk;
  }

  lemma StoppedChain(s: Disco, m: Disco, t: Disco, id: Id, rest: set<Id>, sync: set<Id>)
    requires Stopped(s, m, {id}, sync) && Stopped(m, t, rest, sync) && id !in rest
    ensures Stopped(s, t, {id} + rest, sync)
  {
  }

  lemma {:induction false} NotifyAllStops(s: Disco, ids: seq<Id>, sync: set<Id>)
    requires Inv(s) && Distinct(ids) && forall i :: i in ids ==> i in s.live && s.live[i].owner.Some?
    ensures Stopped(s, NotifyAll(s, ids, sync), Elems(ids), sync)
    decreases |ids|
  {
    hide Inv, Settle, Quiet, Stopped;
    if ids == [] {
      StoppedNone(s, sync);
    } else {
      assert ids == [ids[0]] + ids[1..];
      var r := s.live[ids[0]].(bound := false);
      var m := Settle(s, ids[0], r, sync);
      NotifyOne(s, ids[0], sync);
      assert Settles(s, r, ids[0]) by { OwnedSettles(s, ids[0]); }
      SettleStops(s, ids[0], r, sync);
      NotifyAllStops(m, ids[1..], sync);
      DistinctTail(ids);
      StoppedChain(s, m, NotifyAll(m, ids[1..], sync), ids[0], Elems(ids[1..]), sync);
      assert {ids[0]} + Elems(ids[1..]) == Elems(ids);
    }
  }

  lemma OwnedSettles(s: Disco, id: Id)
    requires Inv(s) && id in s.live && s.live[id].owner.Some?
    ensures Settles(s, s.live[id].(bound := false), id)
  {
    hide Accounted, Listed;
  }

  lemma StoppedNone(s: Disco, sync: set<Id>)
    ensures Elems<Id>([]) == {} && Stopped(s, s, {}, sync)
  {
  }

  lemma {:induction false} OrphanAllStops(s: Disco, ids: seq<Id>, sync: set<Id>)
    requires Core(s, Elems(ids)) && Distinct(ids) && forall i :: i in ids ==> i in s.live
    ensures Stopped(s, OrphanAll(s, ids, sync), Elems(ids), sync)
    decreases |ids|
  {
    hide Core, Settle, Quiet, Stopped;
    if ids == [] {
      StoppedNone(s, sync);
    } else {
      assert ids == [ids[0]] + ids[1..];
      var r := s.live[ids[0]].(attached := false);
      var m := Settle(s, ids[0], r, sync);
      OrphanOne(s, ids[0], sync, Elems(ids));
      ElemsTail(ids);
      assert Settles(s, r, ids[0]) by { ListedSettles(s, ids[0], Elems(ids)); }
      SettleStops(s, ids[0], r, sync);
      OrphanAllStops(m, ids[1..], sync);
      DistinctTail(ids);
      StoppedChain(s, m, OrphanAll(m, ids[1..], sync), ids[0], Elems(ids[1..]), sync);
      assert {ids[0]} + Elems(ids[1..]) == Elems(ids);
    }
  }

  lemma ListedSettles(s: Disco, id: Id, attached: set<Id>)
    requires Core(s, attached) && id in s.live
    ensures Settles(s, s.live[id].(attached := false), id)
  {
    hide Accounted;
  }

  /** Telling requests to stop, in state and history; those already cancelled may be told or not. */
  lemma StopAgrees(s: Disco, t: Disco, h: History, told: set<Id>, ids: set<Id>, sync: set<Id>, busy: set<Id>)
    requires Agrees(s, h, busy) && Stopped(s, t, told, sync)
    requires forall i :: i in s.live && (i in told) != (i in ids) ==> s.live[i].cancelled
    ensures Agrees(t.(dead := s.dead, disposed := s.disposed), Stop(h, ids, sync, busy), busy)
  {
  }

  /** Histories speak of requests that were made. */
  ghost predicate Past(h: History, busy: set<Id>) {
    && (forall i :: i in busy ==> i < |h.owners|) && (forall i :: i in h.stopped ==> i < |h.owners|)
    && (forall i :: i in h.gone ==> i < |h.owners|)
  }

  lemma AskAgrees(s: Disco, o: Option<Obj>, h: History, busy: set<Id>)
    requires Inv(s) && MayAct(s, Ask(o)) && Agrees(s, h, busy) && Past(h, busy)
    ensures Agrees(AskFor(s, o), NextAction(h, Ask(o), busy), busy)
  {
    hide Inv;
  }

  lemma CancelAgrees(s: Disco, id: Id, sync: set<Id>, h: History, busy: set<Id>)
    requires Inv(s) && MayAct(s, Cancel(id, sync)) && Agrees(s, h, busy)
    ensures Agrees(Perform(s, Cancel(id, sync)), NextAction(h, Cancel(id, sync), busy), busy)
  {
    var t := Perform(s, Cancel(id, sync));
    assert Settles(s, s.live[id], id) by { hide Accounted; }
    SettleFrame(s, id, s.live[id], sync);
    SettleStops(s, id, s.live[id], sync);
    hide Inv, Settle, Settles, Stopped, Agrees, Stop;
    StopAgrees(s, t, h, {id}, {id}, sync, busy);
    assert t.(dead := s.dead, disposed := s.disposed) == t;
  }

  /** The weak references to an object are those of the requests bound to it that are not cancelled yet, at least. */
  lemma DieTells(s: Disco, obj: Obj, order: seq<Id>, sync: set<Id>, h: History, busy: set<Id>, i: Id)
    requires Inv(s) && MayAct(s, Die(obj, order, sync)) && Agrees(s, h, busy)
    requires i in s.live && (i in Elems(order)) != (i in BoundTo(h, obj))
    ensures s.live[i].cancelled
  {
    assert RecordOk(s.live[i], s.dead) by { hide Accounted, Listed; }
    assert RecordAgrees(s.live[i], i, h, busy);
    hide Inv, Agrees;
  }

  lemma DeadAgrees(s: Disco, h: History, obj: Obj, busy: set<Id>)
    requires Agrees(s, h, busy)
    ensures Agrees(s.(dead := s.dead + {obj}), h.(dead := h.dead + {obj}), busy)
  {
  }

  lemma DeadKnown(s: Disco, h: History, busy: set<Id>)
    requires Agrees(s, h, busy)
    ensures s.dead == h.dead
  {
  }

  lemma DieAgrees(s: Disco, obj: Obj, order: seq<Id>, sync: set<Id>, h: History, busy: set<Id>)
    requires Inv(s) && MayAct(s, Die(obj, order, sync)) && Agrees(s, h, busy)
    ensures Agrees(Perform(s, Die(obj, order, sync)), NextAction(h, Die(obj, order, sync), busy), busy)
  {
    hide Inv, NotifyAll, Stopped, Quiet, RecordOk, RecordAgrees, Agrees, Distinct;
    NotifyAllKeeps(s, order, sync);
    NotifyAllStops(s, order, sync);
    forall i | i in s.live && (i in Elems(order)) != (i in BoundTo(h, obj)) ensures s.live[i].cancelled {
      DieTells(s, obj, order, sync, h, busy, i);
    }
    var t := NotifyAll(s, order, sync);
    StopAgrees(s, t, h, Elems(order), BoundTo(h, obj), sync, busy);
    assert t.(dead := s.dead, disposed := s.disposed) == t;
    DeadAgrees(t, Stop(h, BoundTo(h, obj), sync, busy), obj, busy);
    assert h.dead == s.dead by { DeadKnown(s, h, busy); }
  }

  lemma LiveMade(s: Disco, h: History, busy: set<Id>)
    requires Agrees(s, h, busy)
    ensures s.live.Keys <= Made(h)
  {
    hide RecordAgrees;
  }

  lemma DisposeAgrees(s: Disco, sync: set<Id>, h: History, busy: set<Id>)
    requires Inv(s) && !s.disposed && Agrees(s, h, busy)
    ensures Agrees(Perform(s, Dispose(sync)), NextAction(h, Dispose(sync), busy), busy)
  {
    assert Elems(s.requests) == s.live.Keys;
    OrphanAllStops(s, s.requests, sync);
    OrphanAllKeeps(s, s.requests, sync);
    assert s.live.Keys <= Made(h) by { LiveMade(s, h, busy); }
    hide OrphanAll, Stopped, Quiet, Core, Listed, Made, RecordAgrees;
    StopAgrees(s, OrphanAll(s, s.requests, sync), h, Elems(s.requests), Made(h), sync, busy);
  }

  lemma ActionAgrees(s: Disco, a: Action, h: History, busy: set<Id>)
    requires Inv(s) && MayAct(s, a) && Agrees(s, h, busy) && Past(h, busy)
    ensures Agrees(Perform(s, a), NextAction(h, a, busy), busy) && Past(NextAction(h, a, busy), busy)
  {
    ActionPast(s, a, h, busy);
    match a {
      case Ask(o) => AskAgrees(s, o, h, busy);
      case Cancel(id, sync) => CancelAgrees(s, id, sync, h, busy);
      case Die(obj, order, sync) => DieAgrees(s, obj, order, sync, h, busy);
      case Dispose(sync) => DisposeAgrees(s, sync, h, busy);
    }
    hide Inv, Perform, MayAct, Agrees, Past, NextAction;
  }

  lemma ActionPast(s: Disco, a: Action, h: History, busy: set<Id>)
    requires Inv(s) && MayAct(s, a) && Agrees(s, h, busy) && Past(h, busy)
    ensures Past(NextAction(h, a, busy), busy)
  {
    hide Core, Distinct, RecordAgrees;
  }

  lemma {:induction false} ActionsAgree(s: Disco, as_: seq<Action>, h: History, busy: set<Id>)
    requires Inv(s) && MayPerform(s, as_) && Agrees(s, h, busy) && Past(h, busy)
    ensures Agrees(PerformAll(s, as_), ActionsAfter(h, as_, busy), busy) && Past(ActionsAfter(h, as_, busy), busy)
    decreases |as_|
  {
    hide Inv, Agrees, Past, NextAction, Quiet;
    if as_ != [] {
      PerformKeeps(s, as_[0]);
      ActionAgrees(s, as_[0], h, busy);
      ActionsAgree(Perform(s, as_[0]), as_[1..], NextAction(h, as_[0], busy), busy);
    }
  }

  lemma ArriveAgrees(s: Disco, id: Id, h: History)
    requires Agrees(s, h, {}) && Past(h, {}) && id in s.live
    ensures var g := if id in h.stopped then h else h.(answered := h.answered + {id}); Agrees(Arrive(s, id), g, {id}) && Past(g, {id})
  {
  }

  lemma DeleteAgrees(s: Disco, id: Id, h: History)
    requires Agrees(s, h, {id}) && Past(h, {id}) && id in s.live
    ensures var g := h.(gone := h.gone + {id}); Agrees(Delete(s, id), g, {}) && Past(g, {})
  {
  }

  lemma EventAgrees(s: Disco, e: Event, h: History)
    requires Inv(s) && Possible(s, e) && Agrees(s, h, {}) && Past(h, {})
    ensures Agrees(Step(s, e), NextEvent(h, e), {}) && Past(NextEvent(h, e), {})
  {
    match e
    case Act(a) => hide Inv; ActionAgrees(s, a, h, {});
    case Reply(id, during) =>
      assert s.live[id].cancelled <==> id in h.stopped;
      hide Inv, Agrees, Past, Quiet;
      ArriveKeeps(s, id);
      ArriveAgrees(s, id, h);
      AnsweringKeeps(s, id, during);
      var g := if id in h.stopped then h else h.(answered := h.answered + {id});
      var acts := if s.live[id].cancelled then [] else during;
      ActionsAgree(Arrive(s, id), acts, g, {id});
      DeleteAgrees(Answering(s, id, during), id, ActionsAfter(g, acts, {id}));
  }

  lemma {:induction false} RunAgrees(s: Disco, es: seq<Event>, h: History)
    requires Inv(s) && IsRun(s, es) && Agrees(s, h, {}) && Past(h, {})
    ensures Agrees(After(s, es), HistoryAfter(h, es), {})
    decreases |es|
  {
    hide Inv, Agrees, Past, NextEvent;
    if es != [] {
      EventAgrees(s, es[0], h);
      RunAgrees(Step(s, es[0]), es[1..], NextEvent(h, es[0]));
    }
  }

  /** Events alone decide, in every reachable state: a live request is cancelled if and only if, since it was made, it was
      cancelled itself, the object it is bound to died or the disco object was disposed of, in whatever callback that
      was; its callback has run if and only if the reply came before any of these; and it is gone if and only if the reply
      came or the porter let it go when it was told to stop. */
  lemma RequestsAreHistory(es: seq<Event>)
    requires IsRun(Init, es)
    ensures var s, h := After(Init, es), HistoryAfter(Nothing, es);
      && s.next == |h.owners| && s.dead == h.dead && s.disposed == h.disposed
      && (forall i: Id :: i in s.live <==> i < s.next && i !in h.gone)
      && (forall i :: i in s.live ==> i < |h.owners| && s.live[i].owner == h.owners[i] && (s.live[i].cancelled <==> i in h.stopped))
      && (forall i: Id :: i in s.called <==> i in h.answered)
  {
    assert Agrees(Init, Nothing, {}) && Past(Nothing, {});
    RunAgrees(Init, es, Nothing);
    assert forall i :: i in After(Init, es).live ==> RecordAgrees(After(Init, es).live[i], i, HistoryAfter(Nothing, es), {});
  }

  // ----- as the source runs it -----

  class DiscoTable {
    var requests: seq<Id>
    var live: map<Id, Record>
    var dead: set<Obj>
    var disposeHasRun: bool
    var next: Id
    var called: seq<Id>
    var freed: seq<Id>

    ghost function State(): Disco
      reads this
    {
      Disco(requests, live, dead, disposeHasRun, next, called, freed)
    }

    constructor ()
      ensures State() == Init
    {
      requests, live, dead, disposeHasRun, next, called, freed := [], map[], {}, false, 0, [], [];
    }

    /** `delete_request`; an attached request is in the list. */
    method DeleteRequest(id: Id)
      requires id in live && (live[id].attached ==> id in requests)
      modifies this
      ensures State() == Delete(old(State()), id)
    {
      if live[id].attached {
        requests := Without(requests, id);
      }
      live := live - {id};
      freed := freed + [id];
    }

    /** `g_cancellable_cancel`. */
    method CancelCancellable(id: Id, sync: set<Id>)
      requires id in live && (live[id].attached ==> id in requests)
      modifies this
      ensures State() == Settle(old(State()), id, old(live)[id], sync)
    {
      if live[id].cancelled {
        assert live[id := live[id]] == live;
        return;
      }
      live := live[id := live[id].(cancelled := true)];
      if id in sync && live[id].outstanding {
        live := live[id := live[id].(outstanding := false)];
        DeleteRequest(id);
      }
    }

    method NotifyDeleteRequest(id: Id, sync: set<Id>)
      requires id in live && (live[id].attached ==> id in requests)
      modifies this
      ensures State() == Settle(old(State()), id, old(live)[id].(bound := false), sync)
    {
      live := live[id := live[id].(bound := false)];
      SettlePut(old(State()), id, live[id], sync);
      hide Settle;
      CancelCancellable(id, sync);
    }

    /** One weak reference to a dying object is notified. */
    method NotifyOwned(id: Id, sync: set<Id>)
      requires Inv(State()) && id in live && live[id].owner.Some?
      modifies this
      ensures Inv(State()) && State() == Settle(old(State()), id, old(live)[id].(bound := false), sync)
    {
      NotifyOne(State(), id, sync);
      if live[id].attached {
        AttachedListed(id);
      }
      hide Inv, Settle, Quiet;
      NotifyDeleteRequest(id, sync);
    }

    /** An object dies, and the weak references to it are notified. */
    method ObjectDies(obj: Obj, order: seq<Id>, sync: set<Id>)
      requires Inv(State()) && MayAct(State(), Die(obj, order, sync))
      modifies this
      ensures Inv(State()) && State() == Perform(old(State()), Die(obj, order, sync))
    {
      ghost var s := State();
      BoundHasOwner();
      hide Settle, Inv, Quiet;
      for i := 0 to |order|
        invariant Inv(State()) && Distinct(order[i..]) && forall j :: j in order[i..] ==> j in live && live[j].owner.Some?
        invariant NotifyAll(State(), order[i..], sync) == NotifyAll(s, order, sync)
      {
        assert order[i..][0] == order[i] && order[i..][1..] == order[i + 1..];
        DistinctTail(order[i..]);
        hide Distinct;
        NotifyOne(State(), order[i], sync);
        NotifyOwned(order[i], sync);
      }
      assert State() == NotifyAll(s, order, sync);
      dead := dead + {obj};
      PerformKeeps(s, Die(obj, order, sync));
    }

    lemma AttachedListed(id: Id)
      requires Inv(State()) && id in live && live[id].attached
      ensures id in requests
    {
      hide Accounted, Distinct;
    }

    lemma BoundHasOwner()
      requires Inv(State())
      ensures forall i :: i in live && live[i].bound ==> live[i].owner.Some?
    {
      hide Accounted, Listed;
      assert forall i :: i in live ==> RecordOk(live[i], dead);
    }

    /** `salut_disco_request`. */
    method Request(owner: Option<Obj>) returns (id: Id)
      requires Inv(State()) && MayAct(State(), Ask(owner))
      modifies this
      ensures Inv(State()) && State() == Perform(old(State()), Ask(owner)) && id in requests
    {
      PerformKeeps(State(), Ask(owner));
      id := next;
      next := next + 1;
      live := live[id := Record(true, owner, owner.Some?, false, true)];
      requests := requests + [id];
    }

    /** `salut_disco_cancel_request`. */
    method CancelRequest(id: Id, sync: set<Id>)
      requires Inv(State()) && MayAct(State(), Cancel(id, sync))
      modifies this
      ensures Inv(State()) && State() == Perform(old(State()), Cancel(id, sync))
    {
      PerformKeeps(State(), Cancel(id, sync));
      hide Settle;
      CancelCancellable(id, sync);
    }

    method Orphan(id: Id, sync: set<Id>)
      requires id in live
      modifies this
      ensures State() == Settle(old(State()), id, old(live)[id].(attached := false), sync)
    {
      live := live[id := live[id].(attached := false)];
      SettlePut(old(State()), id, live[id], sync);
      hide Settle;
      CancelCancellable(id, sync);
    }

    /** The disposal loop. */
    method OrphanRequests(l: seq<Id>, sync: set<Id>)
      requires Core(State(), Elems(l)) && Distinct(l) && forall j :: j in l ==> j in live
      modifies this
      ensures State() == OrphanAll(old(State()), l, sync)
    {
      ghost var s := State();
      hide Settle, Core, Quiet;
      assert l[0..] == l;
      for i := 0 to |l|
        invariant Core(State(), Elems(l[i..])) && Distinct(l[i..]) && forall j :: j in l[i..] ==> j in live
        invariant OrphanAll(State(), l[i..], sync) == OrphanAll(s, l, sync)
      {
        assert l[i..][0] == l[i] && l[i..][1..] == l[i + 1..];
        DistinctTail(l[i..]);
        OrphanOne(State(), l[i], sync, Elems(l[i..]));
        ElemsTail(l[i..]);
        hide Distinct, Elems;
        Orphan(l[i], sync);
      }
    }

    /** `salut_disco_dispose`. */
    method DisposeDisco(sync: set<Id>)
      requires Inv(State()) && MayAct(State(), Dispose(sync))
      modifies this
      ensures Inv(State()) && State() == Perform(old(State()), Dispose(sync))
    {
      assert Elems(requests) == live.Keys;
      OrphanRequests(requests, sync);
      requests := [];
      disposeHasRun := true;
      PerformKeeps(old(State()), Dispose(sync));
    }

    /** Code outside, called back or not, doing one thing after the other. */
    method Outside(actions: seq<Action>)
      requires Inv(State()) && MayPerform(State(), actions)
      modifies this
      ensures Inv(State()) && State() == PerformAll(old(State()), actions)
    {
      ghost var s := State();
      hide Inv, MayAct;
      for i := 0 to |actions|
        invariant Inv(State()) && MayPerform(State(), actions[i..])
        invariant PerformAll(State(), actions[i..]) == PerformAll(s, actions)
      {
        assert actions[i..][0] == actions[i] && actions[i..][1..] == actions[i + 1..];
        PerformKeeps(State(), actions[i]);
        match actions[i]
        case Ask(o) => var _ := Request(o);
        case Cancel(id, sync) => CancelRequest(id, sync);
        case Die(obj, order, sync) => ObjectDies(obj, order, sync);
        case Dispose(sync) => DisposeDisco(sync);
      }
    }

    /** The reply arrives, and its callback, if it runs, does `during`. */
    method Arrives(id: Id, during: seq<Action>)
      requires Inv(State()) && Possible(State(), Reply(id, during))
      modifies this
      ensures State() == Answering(old(State()), id, during)
    {
      ArriveKeeps(State(), id);
      hide Inv, Quiet, Settle;
      live := live[id := live[id].(outstanding := false)];
      if !live[id].cancelled {
        called := called + [id];
        assert State() == Arrive(old(State()), id);
        Outside(during);
      }
    }

    /** `disco_request_sent_cb`: the porter comes back. */
    method RequestSentCb(id: Id, during: seq<Action>)
      requires Inv(State()) && Possible(State(), Reply(id, during))
      modifies this
      ensures Inv(State()) && State() == Step(old(State()), Reply(id, during))
    {
      AnsweringKeeps(State(), id, during);
      Arrives(id, during);
      if live[id].attached {
        AttachedListed(id);
      }
      DeleteKeeps(State(), id);
      hide Inv, Quiet, Answering;
      DeleteRequest(id);
    }
  }
}
