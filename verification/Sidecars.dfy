/** The sidecars of a connection: calls to EnsureSidecar queue for each interface while a plugin creates it. */
module Sidecars {
  import opened Collections

  type Call = nat

  datatype Status = NotYet | Connected | Disconnected

  datatype Sidecar = Sidecar(id: nat, iface: string)

  /** What the plugin loader comes back with; `Silent` is a failure that sets no error. */
  datatype Outcome = Created(sidecar: Sidecar) | Failed(message: string) | Silent

  datatype Error = ClosedError | InvalidArgument | NotImplemented | PluginError(message: string) | Cancelled

  datatype Reply = Path(call: Call, path: string, id: nat) | Failure(call: Call, error: Error)

  /** `inflight` counts the creations the loader has not come back with; `asked` records every call. */
  datatype Conn = Conn(status: Status, sidecars: map<string, Sidecar>, pending: map<string, seq<Call>>,
                       inflight: multiset<string>, asked: seq<Call>, log: seq<Reply>)

  const Init := Conn(NotYet, map[], map[], multiset{}, [], [])

  datatype Event =
    | Ensure(call: Call, iface: string, valid: bool)
    | Complete(iface: string, outcome: Outcome)
    | Connect
    | Disconnect(order: seq<string>)

  const CONN_PATH := "/org/freedesktop/Telepathy/Connection/salut/local_xmpp/self"

  function Slashes(s: string): string {
    seq(|s|, i requires 0 <= i < |s| => if s[i] == '.' then '/' else s[i])
  }

  /** `make_sidecar_path`. */
  function SidecarPath(iface: string): string { Slashes(CONN_PATH + "/Sidecar/" + iface) }

  function Calls(log: seq<Reply>): seq<Call> { seq(|log|, i requires 0 <= i < |log| => log[i].call) }

  function Paths(calls: seq<Call>, iface: string, id: nat): seq<Reply> {
    seq(|calls|, i requires 0 <= i < |calls| => Path(calls[i], SidecarPath(iface), id))
  }

  function Failures(calls: seq<Call>, e: Error): seq<Reply> {
    seq(|calls|, i requires 0 <= i < |calls| => Failure(calls[i], e))
  }

  // ----- the handlers -----

  /** `salut_connection_ensure_sidecar`. */
  function EnsureSidecar(s: Conn, call: Call, iface: string, valid: bool): Conn {
    var s1 := s.(asked := s.asked + [call]);
    if s.status.Disconnected? then s1.(log := s.log + [Failure(call, ClosedError)])
    else if !valid then s1.(log := s.log + [Failure(call, InvalidArgument)])
    else if iface in s.sidecars then s1.(log := s.log + [Path(call, SidecarPath(iface), s.sidecars[iface].id)])
    else if iface in s.pending then s1.(pending := s.pending[iface := [call] + s.pending[iface]])
    else s1.(pending := s.pending[iface := [call]],
             inflight := if s.status.Connected? then s.inflight + multiset{iface} else s.inflight)
  }

  /** `create_sidecar_cb`. */
  function CreateSidecar(s: Conn, iface: string, o: Outcome): Conn {
    var s1 := s.(inflight := s.inflight - multiset{iface});
    if iface !in s.pending || o.Silent? then s1
    else
      var calls := s.pending[iface];
      var s2 := s1.(pending := s.pending - {iface});
      if o.Failed? then s2.(log := s.log + Failures(calls, PluginError(o.message)))
      else if o.sidecar.iface != iface then s2.(log := s.log + Failures(calls, NotImplemented))
      else s2.(sidecars := s.sidecars[iface := o.sidecar], log := s.log + Paths(calls, iface, o.sidecar.id))
  }

  /** The connection comes up: one creation for each interface waited for. */
  function ConnectStep(s: Conn): Conn {
    s.(status := Connected, inflight := s.inflight + multiset(s.pending.Keys))
  }

  function CancelOne(s: Conn, iface: string): Conn {
    s.(pending := s.pending - {iface}, log := s.log + Failures(Queue(s.pending, iface), Cancelled))
  }

  function CancelAll(s: Conn, order: seq<string>): Conn {
    if order == [] then s else CancelOne(CancelAll(s, order[..|order| - 1]), order[|order| - 1])
  }

  /** The connection goes down: every waiting call fails, in the order the table is walked. */
  function DisconnectStep(s: Conn, order: seq<string>): Conn {
    CancelAll(s, order).(status := Disconnected, sidecars := map[], pending := map[])
  }

  function Step(s: Conn, e: Event): Conn {
    match e
    case Ensure(c, i, v) => EnsureSidecar(s, c, i, v)
    case Complete(i, o) => CreateSidecar(s, i, o)
    case Connect => ConnectStep(s)
    case Disconnect(order) => DisconnectStep(s, order)
  }

  // ----- the protocol -----

  /** The loader comes back from what it was asked, and never fails without saying so; accepted interface names have no
      slash; a connection connects once and disconnects once. */
  ghost predicate Possible(s: Conn, e: Event) {
    match e
    case Ensure(_, i, v) => v ==> '/' !in i
    case Complete(i, o) => i in s.inflight && !o.Silent?
    case Connect => s.status.NotYet?
    case Disconnect(order) => !s.status.Disconnected? && forall i :: i in order <==> i in s.pending
  }

  ghost predicate Inv(s: Conn) {
    && (forall i :: i in s.pending ==> s.pending[i] != [] && i !in s.sidecars && '/' !in i)
    && (forall i :: i in s.sidecars ==> s.sidecars[i].iface == i && '/' !in i)
    && (s.status.NotYet? ==> s.inflight == multiset{} && s.sidecars == map[])
    && (s.status.Connected? ==> forall i :: s.inflight[i] == if i in s.pending then 1 else 0)
    && (s.status.Disconnected? ==> s.pending == map[] && s.sidecars == map[])
  }

  lemma CancelAllFrame(s: Conn, order: seq<string>)
    ensures var t := CancelAll(s, order);
      t == s.(pending := t.pending, log := t.log) && t.pending.Keys == s.pending.Keys - (set i | i in order)
  {
    if order != [] {
      CancelAllFrame(s, order[..|order| - 1]);
      assert order == order[..|order| - 1] + [order[|order| - 1]];
    }
  }

  lemma EnsureKeeps(s: Conn, call: Call, iface: string, valid: bool)
    requires Inv(s) && (valid ==> '/' !in iface)
    ensures Inv(EnsureSidecar(s, call, iface, valid))
  {
  }

  lemma CreateKeeps(s: Conn, iface: string, o: Outcome)
    requires Inv(s) && iface in s.inflight && !o.Silent?
    ensures Inv(CreateSidecar(s, iface, o))
  {
    hide SidecarPath, Paths, Failures;
  }

  /** Every step keeps the protocol's invariant. */
  lemma StepKeeps(s: Conn, e: Event)
    requires Inv(s) && Possible(s, e)
    ensures Inv(Step(s, e))
  {
    hide EnsureSidecar, CreateSidecar;
    match e
    case Ensure(c, i, v) => EnsureKeeps(s, c, i, v);
    case Complete(i, o) => CreateKeeps(s, i, o);
    case Connect =>
    case Disconnect(order) => CancelAllFrame(s, order);
  }

  /** A creation that fails without an error breaks the invariant exactly when somebody waits for it: its callers are
      stranded with nothing in flight. */
  lemma SilentFailureStrands(s: Conn, iface: string)
    requires Inv(s) && iface in s.inflight
    ensures Inv(CreateSidecar(s, iface, Silent)) <==> iface !in s.pending
  {
    var t := CreateSidecar(s, iface, Silent);
    if iface in s.pending {
      assert t.inflight[iface] == 0 && iface in t.pending;
    }
  }

  // ----- accounting -----

  ghost predicate Accounted(s: Conn, c: Call) {
    Times(s.asked, c) == Times(Calls(s.log), c) + Waiting(s.pending, c)
  }

  lemma LogGrows(log: seq<Reply>, more: seq<Reply>, calls: seq<Call>, c: Call)
    requires Calls(more) == calls
    ensures Times(Calls(log + more), c) == Times(Calls(log), c) + Times(calls, c)
  {
    assert Calls(log + more) == Calls(log) + calls;
    TimesConcat(Calls(log), calls, c);
  }

  lemma EnsureAccounts(s: Conn, call: Call, iface: string, valid: bool, c: Call)
    requires Accounted(s, c)
    ensures Accounted(EnsureSidecar(s, call, iface, valid), c)
  {
    hide SidecarPath, Waiting, Times, Calls, Slashes;
    var t := EnsureSidecar(s, call, iface, valid);
    TimesConcat(s.asked, [call], c);
    if s.status.Disconnected? || !valid || iface in s.sidecars {
      var r := t.log[|s.log|];
      assert Calls([r]) == [call] by { AnswersOne(r); }
      LogGrows(s.log, [r], [call], c);
    } else {
      QueueAccounts(s, call, iface, c);
      assert [call] + [] == [call];
    }
  }

  lemma AnswersOne(r: Reply)
    ensures Calls([r]) == [r.call]
  {
  }

  lemma QueueAccounts(s: Conn, call: Call, iface: string, c: Call)
    ensures Waiting(s.pending[iface := [call] + Queue(s.pending, iface)], c) == Waiting(s.pending, c) + Times([call], c)
  {
    var t := s.pending[iface := [call] + Queue(s.pending, iface)];
    WaitingRemove(s.pending, iface, c);
    WaitingRemove(t, iface, c);
    assert t - {iface} == s.pending - {iface};
    TimesConcat([call], Queue(s.pending, iface), c);
  }

  lemma CreateAccounts(s: Conn, iface: string, o: Outcome, c: Call)
    requires Accounted(s, c)
    ensures Accounted(CreateSidecar(s, iface, o), c)
  {
    var t := CreateSidecar(s, iface, o);
    WaitingRemove(s.pending, iface, c);
    if iface in s.pending && !o.Silent? {
      LogGrows(s.log, t.log[|s.log|..], s.pending[iface], c);
      assert t.log == s.log + t.log[|s.log|..];
    }
  }

  lemma {:induction false} CancelAccounts(s: Conn, order: seq<string>, c: Call)
    requires Accounted(s, c)
    ensures Accounted(CancelAll(s, order), c)
  {
    if order != [] {
      var m, iface := CancelAll(s, order[..|order| - 1]), order[|order| - 1];
      CancelAccounts(s, order[..|order| - 1], c);
      WaitingRemove(m.pending, iface, c);
      LogGrows(m.log, Failures(Queue(m.pending, iface), Cancelled), Queue(m.pending, iface), c);
    }
  }

  lemma StepAccounts(s: Conn, e: Event, c: Call)
    requires Possible(s, e) && Accounted(s, c)
    ensures Accounted(Step(s, e), c)
  {
    match e
    case Ensure(call, i, v) => EnsureAccounts(s, call, i, v, c);
    case Complete(i, o) => CreateAccounts(s, i, o, c);
    case Connect =>
    case Disconnect(order) =>
      CancelAccounts(s, order, c);
      CancelAllFrame(s, order);
      assert CancelAll(s, order).pending == map[];
  }

  // ----- whole runs -----

  function After(s: Conn, es: seq<Event>): Conn
    decreases |es|
  {
    if es == [] then s else After(Step(s, es[0]), es[1..])
  }

  ghost predicate IsRun(s: Conn, es: seq<Event>)
    decreases |es|
  {
    es == [] || (Possible(s, es[0]) && IsRun(Step(s, es[0]), es[1..]))
  }

  lemma {:induction false} RunKeeps(s: Conn, es: seq<Event>, c: Call)
    requires Inv(s) && Accounted(s, c) && IsRun(s, es)
    ensures Inv(After(s, es)) && Accounted(After(s, es), c)
    decreases |es|
  {
    hide Inv, Accounted, Step;
    if es != [] {
      StepKeeps(s, es[0]);
      StepAccounts(s, es[0], c);
      RunKeeps(Step(s, es[0]), es[1..], c);
    }
  }

  /** In every reachable state each call was answered once for each time it was made, or waits; queues are not empty; no
      interface is both installed and waited for; and while connected each one waited for has one creation in flight. */
  lemma CallsConserved(es: seq<Event>, c: Call)
    requires IsRun(Init, es)
    ensures var s := After(Init, es);
      && Times(s.asked, c) == Times(Calls(s.log), c) + Waiting(s.pending, c)
      && s.pending.Keys !! s.sidecars.Keys
      && (forall i :: i in s.pending ==> s.pending[i] != [] && (s.status.Connected? ==> s.inflight[i] == 1))
      && (forall i :: s.status.Connected? && i !in s.pending ==> s.inflight[i] == 0)
  {
    RunKeeps(Init, es, c);
  }

  /** Nothing waits once a connected connection has nothing in flight, or once it is disconnected. */
  lemma QuietMeansAnswered(es: seq<Event>, c: Call)
    requires IsRun(Init, es)
    ensures var s := After(Init, es);
      (s.status.Connected? && s.inflight == multiset{}) || s.status.Disconnected? ==> Times(s.asked, c) == Times(Calls(s.log), c)
  {
    var s := After(Init, es);
    RunKeeps(Init, es, c);
    if (s.status.Connected? && s.inflight == multiset{}) || s.status.Disconnected? {
      assert s.pending == map[];
    }
  }

  /** Creations that finish after the connection is gone answer nobody and install nothing. */
  lemma LateCreationIsDropped(es: seq<Event>, iface: string, o: Outcome)
    requires IsRun(Init, es) && After(Init, es).status.Disconnected?
    ensures var s := After(Init, es); CreateSidecar(s, iface, o) == s.(inflight := s.inflight - multiset{iface})
  {
    RunKeeps(Init, es, 0);
  }

  /** A reply with a path names a sidecar that is installed for its interface. */
  ghost predicate Installed(sidecars: map<string, Sidecar>, r: Reply) {
    r.Path? ==> exists i :: i in sidecars && sidecars[i].iface == i && sidecars[i].id == r.id && r.path == SidecarPath(i)
  }

  lemma EnsureInstalled(s: Conn, call: Call, iface: string, valid: bool, k: nat)
    requires Inv(s) && |s.log| <= k < |EnsureSidecar(s, call, iface, valid).log|
    ensures var t := EnsureSidecar(s, call, iface, valid); Installed(t.sidecars, t.log[k])
  {
    hide SidecarPath;
  }

  lemma CreateInstalled(s: Conn, iface: string, o: Outcome, k: nat)
    requires |s.log| <= k < |CreateSidecar(s, iface, o).log|
    ensures var t := CreateSidecar(s, iface, o); Installed(t.sidecars, t.log[k])
  {
    hide SidecarPath;
  }

  /** Whoever is given a path is given that of a sidecar which is installed then, and is for its interface. */
  lemma PathsAreInstalled(s: Conn, e: Event, k: nat)
    requires Inv(s) && Possible(s, e) && |s.log| <= k < |Step(s, e).log|
    ensures Installed(Step(s, e).sidecars, Step(s, e).log[k])
  {
    match e {
      case Ensure(call, i, valid) => EnsureInstalled(s, call, i, valid, k);
      case Complete(i, o) => CreateInstalled(s, i, o, k);
      case Connect =>
      case Disconnect(order) => CancelsOnly(s, order, k);
    }
    hide Inv, EnsureSidecar, CreateSidecar, CancelAll;
  }

  lemma {:induction false} CancelsOnly(s: Conn, order: seq<string>, k: nat)
    requires |s.log| <= k < |CancelAll(s, order).log|
    ensures CancelAll(s, order).log[k].Failure?
  {
    var m := CancelAll(s, order[..|order| - 1]);
    if k < |m.log| {
      CancelsOnly(s, order[..|order| - 1], k);
    }
  }

  /** No two installed sidecars share a path. */
  lemma PathsDistinct(i: string, j: string)
    requires '/' !in i && '/' !in j && SidecarPath(i) == SidecarPath(j)
    ensures i == j
  {
    var prefix := CONN_PATH + "/Sidecar/";
    assert |prefix + i| == |prefix + j|;
    forall k | 0 <= k < |i| ensures i[k] == j[k] {
      assert SidecarPath(i)[|prefix| + k] == SidecarPath(j)[|prefix| + k];
      assert (prefix + i)[|prefix| + k] == i[k] && (prefix + j)[|prefix| + k] == j[k];
      assert i[k] != '/' && j[k] != '/';
    }
  }

  // ----- what events alone decide -----

  /** What the events so far say about one interface: the status, the sidecar installed, and the calls waiting, latest
      first. */
  datatype Iface = Iface(status: Status, sidecar: Option<Sidecar>, waiting: seq<Call>)

  function NextIface(h: Iface, e: Event, i: string): Iface {
    match e
    case Ensure(c, j, valid) =>
      if j == i && valid && !h.status.Disconnected? && h.sidecar.None? then h.(waiting := [c] + h.waiting) else h
    case Complete(j, o) =>
      if j != i || h.waiting == [] then h
      else if o.Created? && o.sidecar.iface == i then h.(sidecar := Some(o.sidecar), waiting := [])
      else h.(waiting := [])
    case Connect => h.(status := Connected)
    case Disconnect(_) => Iface(Disconnected, None, [])
  }

  function IfaceAfter(h: Iface, es: seq<Event>, i: string): Iface
    decreases |es|
  {
    if es == [] then h else IfaceAfter(NextIface(h, es[0], i), es[1..], i)
  }

  const Unknown := Iface(NotYet, None, [])

  function View(s: Conn, i: string): Iface { Iface(s.status, Get(s.sidecars, i), Queue(s.pending, i)) }

  lemma StepView(s: Conn, e: Event, i: string)
    requires Inv(s) && Possible(s, e)
    ensures View(Step(s, e), i) == NextIface(View(s, i), e, i)
  {
    hide SidecarPath, Paths, Failures;
    match e {
      case Ensure(c, j, valid) => EnsureView(s, c, j, valid, i);
      case Complete(j, o) => CreateView(s, j, o, i);
      case Connect =>
      case Disconnect(order) => CancelAllFrame(s, order);
    }
    hide EnsureSidecar, CreateSidecar, CancelAll, Inv;
  }

  lemma EnsureView(s: Conn, c: Call, j: string, valid: bool, i: string)
    requires Inv(s)
    ensures View(EnsureSidecar(s, c, j, valid), i) == NextIface(View(s, i), Ensure(c, j, valid), i)
  {
    hide SidecarPath;
    assert [c] + [] == [c];
  }

  /** A creation that comes back is answered to those who wait, in the order in which they are listed. */
  lemma WaitingAnsweredInOrder(s: Conn, j: string, o: Outcome)
    requires !o.Silent?
    ensures Calls(CreateSidecar(s, j, o).log) == Calls(s.log) + Queue(s.pending, j)
  {
    hide SidecarPath;
  }

  lemma CreateView(s: Conn, j: string, o: Outcome, i: string)
    requires Inv(s) && !o.Silent?
    ensures View(CreateSidecar(s, j, o), i) == NextIface(View(s, i), Complete(j, o), i)
  {
    hide SidecarPath, Paths, Failures;
  }

  lemma {:induction false} RunView(s: Conn, es: seq<Event>, i: string)
    requires Inv(s) && IsRun(s, es)
    ensures View(After(s, es), i) == IfaceAfter(View(s, i), es, i)
    decreases |es|
  {
    hide Inv, Step, Possible, NextIface, View;
    if es != [] {
      StepKeeps(s, es[0]);
      StepView(s, es[0], i);
      RunView(Step(s, es[0]), es[1..], i);
    }
  }

  /** Interfaces do not meddle with each other: after any run the events that name one, and those of the connection, decide
      alone which sidecar it has installed and which calls wait for it, in which order. */
  lemma InterfaceIsHistory(es: seq<Event>, i: string)
    requires IsRun(Init, es)
    ensures var s := After(Init, es); IfaceAfter(Unknown, es, i) == Iface(s.status, Get(s.sidecars, i), Queue(s.pending, i))
  {
    RunView(Init, es, i);
  }

  /** A creation that came back with a sidecar for the very interface asked for. */
  predicate Succeeds(e: Event, i: string, sidecar: Sidecar) {
    e == Complete(i, Created(sidecar)) && sidecar.iface == i
  }

  /** While connected, an interface is installed if and only if a creation has come back with a sidecar for it. */
  lemma InstalledIffCreated(es: seq<Event>, i: string, sidecar: Sidecar)
    requires IsRun(Init, es) && After(Init, es).status.Connected?
    ensures Get(After(Init, es).sidecars, i) == Some(sidecar) <==> exists k :: 0 <= k < |es| && Succeeds(es[k], i, sidecar)
  {
    RunInstalls(Init, es, i, sidecar);
  }

  lemma {:induction false} RunInstalls(s: Conn, es: seq<Event>, i: string, sidecar: Sidecar)
    requires Inv(s) && IsRun(s, es) && After(s, es).status.Connected?
    ensures !s.status.Disconnected?
    ensures Get(After(s, es).sidecars, i) == Some(sidecar) <==>
      Get(s.sidecars, i) == Some(sidecar) || exists k :: 0 <= k < |es| && Succeeds(es[k], i, sidecar)
    decreases |es|
  {
    hide Inv, Step, Possible;
    if es != [] {
      var e, m := es[0], Step(s, es[0]);
      StepKeeps(s, e);
      RunInstalls(m, es[1..], i, sidecar);
      StepInstalls(s, e, i, sidecar);
      if k :| 0 <= k < |es| && Succeeds(es[k], i, sidecar) {
        assert k > 0 ==> es[1..][k - 1] == es[k];
      }
      if k :| 0 <= k < |es[1..]| && Succeeds(es[1..][k], i, sidecar) {
        assert es[k + 1] == es[1..][k];
      }
    }
  }

  lemma StepInstalls(s: Conn, e: Event, i: string, sidecar: Sidecar)
    requires Inv(s) && Possible(s, e)
    ensures Step(s, e).status.Disconnected? <==> s.status.Disconnected? || e.Disconnect?
    ensures !Step(s, e).status.Disconnected? ==>
      (Get(Step(s, e).sidecars, i) == Some(sidecar) <==> Get(s.sidecars, i) == Some(sidecar) || Succeeds(e, i, sidecar))
  {
    StepView(s, e, i);
    if e.Complete? && !s.status.Disconnected? {
      assert e.iface in s.pending;
    }
    hide Step;
  }

  /** What became of a call. */
  datatype Fate = Unasked | Waits(iface: string) | Answered(reply: Reply)

  /** What an event makes of call `c`, given what the events before say about the interface the event names. */
  function NextFate(f: Fate, e: Event, c: Call, h: Iface): Fate {
    match e
    case Ensure(d, i, valid) =>
      if d != c then f
      else if h.status.Disconnected? then Answered(Failure(c, ClosedError))
      else if !valid then Answered(Failure(c, InvalidArgument))
      else if h.sidecar.Some? then Answered(Path(c, SidecarPath(i), h.sidecar.value.id))
      else Waits(i)
    case Complete(i, o) =>
      if f != Waits(i) || o.Silent? then f
      else if o.Failed? then Answered(Failure(c, PluginError(o.message)))
      else if o.sidecar.iface == i then Answered(Path(c, SidecarPath(i), o.sidecar.id))
      else Answered(Failure(c, NotImplemented))
    case Connect => f
    case Disconnect(_) => if f.Waits? then Answered(Failure(c, Cancelled)) else f
  }

  function Names(e: Event): string {
    match e
    case Ensure(_, i, _) => i
    case Complete(i, _) => i
    case _ => ""
  }

  /** The fate of a call after events, those before them being `past`. */
  function FateAfter(past: seq<Event>, f: Fate, es: seq<Event>, c: Call): Fate
    decreases |es|
  {
    if es == [] then f
    else FateAfter(past + [es[0]], NextFate(f, es[0], c, IfaceAfter(Unknown, past, Names(es[0]))), es[1..], c)
  }

  /** Log and tables agree with what became of a call made at most once. */
  ghost predicate Agrees(s: Conn, f: Fate, c: Call) {
    && (forall r: Reply :: r.call == c ==> Times(s.log, r) == if f == Answered(r) then 1 else 0)
    && (forall i: string :: Times(Queue(s.pending, i), c) == if f == Waits(i) then 1 else 0)
  }

  function Asks(e: Event, c: Call): nat { if e.Ensure? && e.call == c then 1 else 0 }

  function AsksIn(es: seq<Event>, c: Call): nat
    decreases |es|
  {
    if es == [] then 0 else Asks(es[0], c) + AsksIn(es[1..], c)
  }

  lemma {:induction false} TimesPaths(calls: seq<Call>, iface: string, id: nat, r: Reply)
    ensures Times(Paths(calls, iface, id), r) == if r == Path(r.call, SidecarPath(iface), id) then Times(calls, r.call) else 0
  {
    hide SidecarPath;
    if calls != [] {
      var n := |calls| - 1;
      TimesPaths(calls[..n], iface, id, r);
      assert Paths(calls, iface, id)[..n] == Paths(calls[..n], iface, id);
    }
  }

  lemma {:induction false} TimesFailures(calls: seq<Call>, e: Error, r: Reply)
    ensures Times(Failures(calls, e), r) == if r == Failure(r.call, e) then Times(calls, r.call) else 0
  {
    if calls != [] {
      var n := |calls| - 1;
      TimesFailures(calls[..n], e, r);
      assert Failures(calls, e)[..n] == Failures(calls[..n], e);
    }
  }

  lemma AnsweredOnce(s: Conn, t: Conn, a: Reply)
    requires t.log == s.log + [a]
    ensures forall r: Reply :: Times(t.log, r) == Times(s.log, r) + if r == a then 1 else 0
  {
    forall r: Reply ensures Times(t.log, r) == Times(s.log, r) + if r == a then 1 else 0 {
      TimesAppend(s.log, a, r);
    }
  }

  lemma EnsureAgrees(s: Conn, f: Fate, call: Call, i: string, valid: bool, c: Call)
    requires Inv(s) && Agrees(s, f, c) && (call == c ==> f == Unasked)
    ensures Agrees(EnsureSidecar(s, call, i, valid), NextFate(f, Ensure(call, i, valid), c, View(s, i)), c)
  {
    hide SidecarPath, Inv;
    var t := EnsureSidecar(s, call, i, valid);
    if s.status.Disconnected? || !valid || i in s.sidecars {
      AnsweredOnce(s, t, t.log[|s.log|]);
    } else {
      assert [call] + [] == [call];
      assert t.pending == s.pending[i := [call] + Queue(s.pending, i)];
      TimesConcat([call], Queue(s.pending, i), c);
    }
  }

  lemma CreateAgrees(s: Conn, f: Fate, i: string, o: Outcome, c: Call)
    requires Inv(s) && Agrees(s, f, c) && !o.Silent?
    ensures Agrees(CreateSidecar(s, i, o), NextFate(f, Complete(i, o), c, View(s, i)), c)
  {
    hide Paths, Failures, SidecarPath, Inv;
    var t, calls := CreateSidecar(s, i, o), Queue(s.pending, i);
    if i in s.pending {
      forall r: Reply | r.call == c ensures Times(t.log, r) == if NextFate(f, Complete(i, o), c, View(s, i)) == Answered(r) then 1 else 0 {
        match o {
          case Created(sc) => TimesPaths(calls, i, sc.id, r); TimesFailures(calls, NotImplemented, r);
            TimesConcat(s.log, Paths(calls, i, sc.id), r); TimesConcat(s.log, Failures(calls, NotImplemented), r);
          case Failed(message) => TimesFailures(calls, PluginError(message), r);
            TimesConcat(s.log, Failures(calls, PluginError(message)), r);
        }
      }
    }
  }

  lemma CancelOneAgrees(s: Conn, f: Fate, i: string, c: Call)
    requires Agrees(s, f, c)
    ensures Agrees(CancelOne(s, i), if f == Waits(i) then Answered(Failure(c, Cancelled)) else f, c)
  {
    var calls := Queue(s.pending, i);
    hide Failures;
    forall r: Reply ensures Times(CancelOne(s, i).log, r) ==
      Times(s.log, r) + if r == Failure(r.call, Cancelled) then Times(calls, r.call) else 0
    {
      TimesConcat(s.log, Failures(calls, Cancelled), r);
      TimesFailures(calls, Cancelled, r);
    }
  }

  lemma {:induction false} CancelAgrees(s: Conn, f: Fate, order: seq<string>, c: Call)
    requires Agrees(s, f, c)
    ensures Agrees(CancelAll(s, order), if f.Waits? && f.iface in order then Answered(Failure(c, Cancelled)) else f, c)
  {
    if order != [] {
      var before, i := order[..|order| - 1], order[|order| - 1];
      CancelAgrees(s, f, before, c);
      assert order == before + [i];
      CancelSnoc(s, order);
      assert f.Waits? ==> (f.iface in order <==> f.iface in before || f.iface == i);
      hide CancelAll, CancelOne, Agrees;
      CancelOneAgrees(CancelAll(s, before), if f.Waits? && f.iface in before then Answered(Failure(c, Cancelled)) else f, i, c);
    }
  }

  lemma CancelSnoc(s: Conn, order: seq<string>)
    requires order != []
    ensures CancelAll(s, order) == CancelOne(CancelAll(s, order[..|order| - 1]), order[|order| - 1])
  {
  }

  lemma StepAgrees(s: Conn, f: Fate, e: Event, c: Call)
    requires Inv(s) && Possible(s, e) && Agrees(s, f, c) && (Asks(e, c) > 0 ==> f == Unasked)
    ensures Agrees(Step(s, e), NextFate(f, e, c, View(s, Names(e))), c)
  {
    match e {
      case Ensure(call, i, valid) => EnsureAgrees(s, f, call, i, valid, c);
      case Complete(i, o) => CreateAgrees(s, f, i, o, c);
      case Connect =>
      case Disconnect(order) =>
        CancelAgrees(s, f, order, c);
        CancelAllFrame(s, order);
        assert CancelAll(s, order).pending == map[];
        assert f.Waits? ==> f.iface in s.pending;
        hide CancelAll;
    }
    hide EnsureSidecar, CreateSidecar, NextFate, Inv, View;
  }

  lemma {:induction false} RunAgrees(past: seq<Event>, s: Conn, f: Fate, es: seq<Event>, c: Call)
    requires IsRun(Init, past) && s == After(Init, past) && Inv(s) && IsRun(s, es) && Agrees(s, f, c)
    requires AsksIn(es, c) + (if f == Unasked then 0 else 1) <= 1
    ensures Agrees(After(s, es), FateAfter(past, f, es, c), c)
    decreases |es|
  {
    hide Inv, Step, Possible, NextFate, Agrees, View;
    if es != [] {
      var e := es[0];
      StepKeeps(s, e);
      StepAgrees(s, f, e, c);
      ViewOfInit(Names(e));
      RunView(Init, past, Names(e));
      RunSnoc(Init, past, e);
      FateMoves(f, e, c, View(s, Names(e)));
      RunAgrees(past + [e], Step(s, e), NextFate(f, e, c, View(s, Names(e))), es[1..], c);
    }
  }

  lemma ViewOfInit(i: string)
    ensures Inv(Init) && View(Init, i) == Unknown
  {
  }

  lemma FateMoves(f: Fate, e: Event, c: Call, h: Iface)
    ensures NextFate(f, e, c, h) != Unasked ==> f != Unasked || Asks(e, c) == 1
  {
  }

  lemma {:induction false} RunSnoc(s: Conn, es: seq<Event>, e: Event)
    requires IsRun(s, es) && Possible(After(s, es), e)
    ensures IsRun(s, es + [e]) && After(s, es + [e]) == Step(After(s, es), e)
    decreases |es|
  {
    hide Step, Possible;
    if es == [] {
      assert [e][1..] == [];
    } else {
      assert (es + [e])[1..] == es[1..] + [e];
      RunSnoc(Step(s, es[0]), es[1..], e);
    }
  }

  /** Which answer a call gets, by events alone: over any run a call made once has been given exactly the one reply that
      these say, or waits for the interface they say. */
  lemma AnswerIsHistory(es: seq<Event>, c: Call)
    requires IsRun(Init, es) && AsksIn(es, c) <= 1
    ensures var s, f := After(Init, es), FateAfter([], Unasked, es, c);
      && (forall r: Reply :: r.call == c ==> Times(s.log, r) == if f == Answered(r) then 1 else 0)
      && (forall i: string :: Times(Queue(s.pending, i), c) == if f == Waits(i) then 1 else 0)
  {
    RunAgrees([], Init, Unasked, es, c);
  }

  /** The path of a sidecar: below that of the connection, the interface with its dots as slashes. */
  lemma PathSpells(iface: string)
    ensures var prefix := CONN_PATH + "/Sidecar/";
      && |SidecarPath(iface)| == |prefix| + |iface| && SidecarPath(iface)[..|prefix|] == Slashes(prefix)
      && forall k :: 0 <= k < |iface| ==> SidecarPath(iface)[|prefix| + k] == if iface[k] == '.' then '/' else iface[k]
  {
    var prefix := CONN_PATH + "/Sidecar/";
    assert forall k :: 0 <= k < |iface| ==> (prefix + iface)[|prefix| + k] == iface[k];
  }

  // ----- as the source runs it -----

  class SidecarTable {
    var status: Status
    var sidecars: map<string, Sidecar>
    var pendingSidecars: map<string, seq<Call>>
    var inflight: multiset<string>
    ghost var asked: seq<Call>
    var log: seq<Reply>

    ghost function State(): Conn
      reads this
    {
      Conn(status, sidecars, pendingSidecars, inflight, asked, log)
    }

    constructor ()
      ensures State() == Init
    {
      status, sidecars, pendingSidecars, inflight, asked, log := NotYet, map[], map[], multiset{}, [], [];
    }

    method ReturnError(contexts: seq<Call>, error: Error)
      modifies this`log
      ensures log == old(log) + Failures(contexts, error)
    {
      for i := 0 to |contexts|
        invariant log == old(log) + Failures(contexts[..i], error)
      {
        log := log + [Failure(contexts[i], error)];
        assert Failures(contexts[..i + 1], error) == Failures(contexts[..i], error) + [Failure(contexts[i], error)];
      }
      assert contexts[..|contexts|] == contexts;
    }

    method ReturnPaths(contexts: seq<Call>, iface: string, id: nat)
      modifies this`log
      ensures log == old(log) + Paths(contexts, iface, id)
    {
      for i := 0 to |contexts|
        invariant log == old(log) + Paths(contexts[..i], iface, id)
      {
        log := log + [Path(contexts[i], SidecarPath(iface), id)];
        assert Paths(contexts[..i + 1], iface, id) == Paths(contexts[..i], iface, id) + [Path(contexts[i], SidecarPath(iface), id)];
      }
      assert contexts[..|contexts|] == contexts;
    }

    method Ensure(iface: string, context: Call, valid: bool)
      modifies this
      ensures State() == EnsureSidecar(old(State()), context, iface, valid)
    {
      asked := asked + [context];
      if status.Disconnected? {
        log := log + [Failure(context, ClosedError)];
        return;
      }
      if !valid {
        log := log + [Failure(context, InvalidArgument)];
        return;
      }
      if iface in sidecars {
        log := log + [Path(context, SidecarPath(iface), sidecars[iface].id)];
        return;
      }
      if iface in pendingSidecars {
        var contexts := [context] + pendingSidecars[iface];
        pendingSidecars := pendingSidecars - {iface};
        pendingSidecars := pendingSidecars[iface := contexts];
        assert pendingSidecars == old(pendingSidecars)[iface := contexts];
        return;
      }
      pendingSidecars := pendingSidecars[iface := [context]];
      if status.Connected? {
        inflight := inflight + multiset{iface};
      }
    }

    method CreateSidecarCb(iface: string, outcome: Outcome)
      modifies this
      ensures State() == CreateSidecar(old(State()), iface, outcome)
    {
      hide SidecarPath, Paths, Failures;
      inflight := inflight - multiset{iface};
      if iface !in pendingSidecars {
        return;
      }
      var contexts := pendingSidecars[iface];
      if outcome.Silent? {
        return;
      }
      if outcome.Created? && outcome.sidecar.iface == iface {
        sidecars := sidecars[iface := outcome.sidecar];
        ReturnPaths(contexts, iface, outcome.sidecar.id);
      } else {
        ReturnError(contexts, if outcome.Created? then NotImplemented else PluginError(outcome.message));
      }
      pendingSidecars := pendingSidecars - {iface};
    }

    method RequestPending()
      modifies this`inflight
      ensures inflight == old(inflight) + multiset(pendingSidecars.Keys)
    {
      var remaining := pendingSidecars.Keys;
      while remaining != {}
        invariant remaining <= pendingSidecars.Keys
        invariant inflight == old(inflight) + multiset(pendingSidecars.Keys - remaining)
      {
        var iface :| iface in remaining;
        inflight := inflight + multiset{iface};
        remaining := remaining - {iface};
      }
    }

    method Connected()
      modifies this
      ensures State() == ConnectStep(old(State()))
    {
      status := Status.Connected;
      RequestPending();
    }

    method FailPending() returns (ghost order: seq<string>)
      modifies this`log
      ensures forall i :: i in order <==> i in pendingSidecars
      ensures log == CancelAll(old(State()), order).log
    {
      ghost var s := State();
      order := [];
      var remaining := pendingSidecars.Keys;
      while remaining != {}
        invariant remaining <= pendingSidecars.Keys
        invariant forall i :: i in order <==> i in pendingSidecars && i !in remaining
        invariant log == CancelAll(s, order).log
      {
        var iface :| iface in remaining;
        QueueLeft(s, order, iface);
        assert (order + [iface])[..|order|] == order;
        ReturnError(pendingSidecars[iface], Cancelled);
        order := order + [iface];
        remaining := remaining - {iface};
      }
    }

    method Disconnected() returns (ghost order: seq<string>)
      modifies this
      ensures forall i :: i in order <==> i in old(pendingSidecars)
      ensures State() == DisconnectStep(old(State()), order)
    {
      order := FailPending();
      CancelAllFrame(old(State()), order);
      status := Status.Disconnected;
      sidecars := map[];
      pendingSidecars := map[];
    }
  }

  lemma {:induction false} QueueLeft(s: Conn, order: seq<string>, iface: string)
    requires iface !in order
    ensures Queue(CancelAll(s, order).pending, iface) == Queue(s.pending, iface)
  {
    if order != [] {
      QueueLeft(s, order[..|order| - 1], iface);
    }
  }
}
