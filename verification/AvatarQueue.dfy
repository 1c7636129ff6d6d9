/** Requests for a contact's avatar: the queue of callbacks, the record browser that serves it, and the flush that runs
    the callbacks, which may request again while it runs. */
module AvatarQueue {
  import opened Collections

  // NULL is the empty sequence
  type Bytes = seq<bv8>

  /** A request, and the requests its callback makes when it runs. */
  datatype Req = Req(id: nat, again: seq<Req>)

  datatype Answer = Answer(id: nat, data: Bytes)

  /** The discovery client of the contact; with `NullClient` the source has used it after disposal cleared it, and nothing
      runs any more. */
  datatype Client = Held | Released | NullClient

  /** `asked` and `log` record the requests made and the callbacks run; `tries` counts attached browsers, and the
      environment says of each whether attaching works. */
  datatype Avatars = Avatars(token: Option<string>, queue: seq<Req>, browsing: bool, client: Client, tries: nat,
                             asked: seq<nat>, log: seq<Answer>)

  type Attach = nat -> bool

  const Init := Avatars(None, [], false, Held, 0, [], [])

  datatype Event =
    | Ask(r: Req)
    | Token(token: Option<string>)
    | Result(data: Bytes)

  function SizeAll(rs: seq<Req>): nat {
    if rs == [] then 0 else 1 + SizeAll(rs[0].again) + SizeAll(rs[1..])
  }

  function Size(r: Req): nat { 1 + SizeAll(r.again) }

  lemma SizeOne(r: Req)
    ensures SizeAll([r]) == Size(r)
  {
    assert [r][1..] == [];
  }

  // ----- the handlers -----

  /** `salut_contact_get_avatar`. */
  function Request(env: Attach, s: Avatars, r: Req): Avatars
    decreases Size(r), 5
  {
    SizeOne(r);
    var s1 := s.(asked := s.asked + [r.id]);
    if s.token.None? then RunAll(env, s1, [r], [])
    else if s.queue == [] then Retrieve(env, s1.(queue := [r]))
    else s1.(queue := s.queue + [r])
  }

  function RequestAll(env: Attach, s: Avatars, rs: seq<Req>): Avatars
    decreases SizeAll(rs), 6
  {
    if rs == [] || s.client.NullClient? then s else RequestAll(env, Request(env, s, rs[0]), rs[1..])
  }

  /** `salut_avahi_contact_retrieve_avatar`. */
  function Retrieve(env: Attach, s: Avatars): Avatars
    decreases SizeAll(s.queue), 4
  {
    if s.token.None? then Flush(env, s, [])
    else if !s.client.Held? then s.(browsing := false, client := NullClient)
    else if env(s.tries) then s.(browsing := true, tries := s.tries + 1)
    else Flush(env, s.(tries := s.tries + 1), [])
  }

  /** `salut_avahi_contact_avatar_request_flush`. */
  function Flush(env: Attach, s: Avatars, data: Bytes): Avatars
    decreases SizeAll(s.queue), 3
  {
    RunAll(env, s.(browsing := false, queue := []), s.queue, data)
  }

  /** The loop over a detached list of requests. */
  function RunAll(env: Attach, s: Avatars, rs: seq<Req>, data: Bytes): Avatars
    decreases SizeAll(rs), 2
  {
    if rs == [] || s.client.NullClient? then s
    else
      var s1 := s.(log := s.log + [Answer(rs[0].id, data)]);
      RunAll(env, RequestAll(env, s1, rs[0].again), rs[1..], data)
  }

  /** `salut_contact_change_avatar_token`. */
  function ChangeToken(env: Attach, s: Avatars, token: Option<string>): Avatars {
    if s.token == token then s
    else if s.queue != [] then Retrieve(env, s.(token := token))
    else s.(token := token)
  }

  function Step(env: Attach, s: Avatars, e: Event): Avatars {
    match e
    case Ask(r) => Request(env, s, r)
    case Token(t) => ChangeToken(env, s, t)
    case Result(d) => Flush(env, s, d)
  }

  /** Disposal clears the client, then runs the loop; it leaves the browser alone. */
  function Dispose(env: Attach, s: Avatars): Avatars {
    RunAll(env, s.(client := Released, queue := []), s.queue, [])
  }

  lemma RunOne(env: Attach, s: Avatars, r: Req, data: Bytes)
    requires !s.client.NullClient?
    ensures RunAll(env, s, [r], data) == RequestAll(env, s.(log := s.log + [Answer(r.id, data)]), r.again)
  {
    assert [r][1..] == [];
  }

  /** A first request whose retrieval fails at once is answered at once. */
  lemma RequestFails(env: Attach, s: Avatars, r: Req)
    requires s.token.Some? && s.client.Held? && s.queue == [] && !env(s.tries)
    ensures Request(env, s, r) == RunAll(env, s.(asked := s.asked + [r.id], tries := s.tries + 1, browsing := false), [r], [])
  {
    var s1 := s.(asked := s.asked + [r.id], queue := [r]);
    assert Request(env, s, r) == Retrieve(env, s1);
    assert Retrieve(env, s1) == Flush(env, s1.(tries := s.tries + 1), []);
    assert s1.(tries := s.tries + 1, browsing := false, queue := [])
        == s.(asked := s.asked + [r.id], tries := s.tries + 1, browsing := false);
  }

  // ----- accounting -----

  function Ids(rs: seq<Req>): seq<nat> { seq(|rs|, i requires 0 <= i < |rs| => rs[i].id) }

  function Answered(log: seq<Answer>): seq<nat> { seq(|log|, i requires 0 <= i < |log| => log[i].id) }

  function Owed(rs: seq<Req>, id: nat): nat {
    if rs == [] then 0 else (if rs[0].id == id then 1 else 0) + Owed(rs[1..], id)
  }

  lemma {:induction false} OwedAppend(rs: seq<Req>, r: Req, id: nat)
    ensures Owed(rs + [r], id) == Owed(rs, id) + if r.id == id then 1 else 0
  {
    if rs != [] {
      assert (rs + [r])[1..] == rs[1..] + [r];
      OwedAppend(rs[1..], r, id);
    }
  }

  /** How often `id` was asked and neither answered nor is queued. */
  function Missing(s: Avatars, id: nat): int {
    Times(s.asked, id) - Times(Answered(s.log), id) - Owed(s.queue, id)
  }

  ghost predicate Inv(s: Avatars) {
    (s.queue != [] <==> s.browsing) && (s.token.None? ==> s.queue == [])
  }

  lemma AnsweredAppend(log: seq<Answer>, a: Answer, id: nat)
    ensures Times(Answered(log + [a]), id) == Times(Answered(log), id) + if a.id == id then 1 else 0
  {
    assert Answered(log + [a]) == Answered(log) + [a.id];
    TimesAppend(Answered(log), a.id, id);
  }

  lemma {:induction false} RequestKeeps(env: Attach, s: Avatars, r: Req, id: nat)
    requires s.client.Held?
    ensures var t := Request(env, s, r);
      Missing(t, id) == Missing(s, id) && t.client.Held? && t.token == s.token && (Inv(s) ==> Inv(t))
    decreases Size(r), 5
  {
    SizeOne(r);
    hide Missing;
    var s1 := s.(asked := s.asked + [r.id]);
    AskedOnce(s, r, id);
    if s.token.None? {
      RunKeeps(env, s1, [r], [], id);
      assert Owed([r], id) == if r.id == id then 1 else 0;
    } else if s.queue == [] {
      assert Owed([r], id) == if r.id == id then 1 else 0;
      RetrieveKeeps(env, s1.(queue := [r]), id);
    } else {
      OwedAppend(s.queue, r, id);
    }
  }

  lemma AskedOnce(s: Avatars, r: Req, id: nat)
    ensures var s1 := s.(asked := s.asked + [r.id]); forall q ::
      Missing(s1.(queue := q), id) == Missing(s, id) + (if r.id == id then 1 else 0) + Owed(s.queue, id) - Owed(q, id)
  {
    TimesAppend(s.asked, r.id, id);
  }

  lemma {:induction false} RequestAllKeeps(env: Attach, s: Avatars, rs: seq<Req>, id: nat)
    requires s.client.Held?
    ensures var t := RequestAll(env, s, rs);
      Missing(t, id) == Missing(s, id) && t.client.Held? && t.token == s.token && (Inv(s) ==> Inv(t))
    decreases SizeAll(rs), 6
  {
    hide Missing, Inv;
    if rs != [] {
      RequestKeeps(env, s, rs[0], id);
      RequestAllKeeps(env, Request(env, s, rs[0]), rs[1..], id);
    }
  }

  lemma {:induction false} RetrieveKeeps(env: Attach, s: Avatars, id: nat)
    requires s.client.Held? && s.queue != []
    ensures var t := Retrieve(env, s); t.client.Held? && t.token == s.token && Missing(t, id) == Missing(s, id) && Inv(t)
    decreases SizeAll(s.queue), 4
  {
    if s.token.None? {
      FlushKeeps(env, s, [], id);
    } else if !env(s.tries) {
      FlushKeeps(env, s.(tries := s.tries + 1), [], id);
    }
  }

  lemma {:induction false} FlushKeeps(env: Attach, s: Avatars, data: Bytes, id: nat)
    requires s.client.Held?
    ensures var t := Flush(env, s, data); t.client.Held? && t.token == s.token && Missing(t, id) == Missing(s, id) && Inv(t)
    decreases SizeAll(s.queue), 3
  {
    RunKeeps(env, s.(browsing := false, queue := []), s.queue, data, id);
  }

  lemma {:induction false} RunKeeps(env: Attach, s: Avatars, rs: seq<Req>, data: Bytes, id: nat)
    requires s.client.Held?
    ensures var t := RunAll(env, s, rs, data);
      t.client.Held? && t.token == s.token && Missing(t, id) == Missing(s, id) - Owed(rs, id) && (Inv(s) ==> Inv(t))
    decreases SizeAll(rs), 2
  {
    if rs != [] {
      var a := Answer(rs[0].id, data);
      var s1 := s.(log := s.log + [a]);
      AnsweredAppend(s.log, a, id);
      assert Missing(s1, id) == Missing(s, id) - if rs[0].id == id then 1 else 0;
      assert Inv(s) ==> Inv(s1);
      hide Missing, Inv;
      RequestAllKeeps(env, s1, rs[0].again, id);
      RunKeeps(env, RequestAll(env, s1, rs[0].again), rs[1..], data, id);
    }
  }

  // ----- order -----

  /** `a` can be had from `b` by leaving elements out. */
  predicate IsSub(a: seq<Answer>, b: seq<Answer>)
    decreases |b|
  {
    a == [] || (b != [] && ((a[0] == b[0] && IsSub(a[1..], b[1..])) || IsSub(a, b[1..])))
  }

  function Answers(rs: seq<Req>, data: Bytes): seq<Answer> {
    seq(|rs|, i requires 0 <= i < |rs| => Answer(rs[i].id, data))
  }

  lemma {:induction false} SubAfter(a: seq<Answer>, x: seq<Answer>, b: seq<Answer>)
    requires IsSub(a, b)
    ensures IsSub(a, x + b)
    decreases |x|
  {
    if x == [] {
      assert x + b == b;
    } else {
      assert (x + b)[1..] == x[1..] + b;
      SubAfter(a, x[1..], b);
    }
  }

  lemma {:induction false} RequestGrows(env: Attach, s: Avatars, r: Req)
    requires s.client.Held?
    ensures s.log <= Request(env, s, r).log && s.asked <= Request(env, s, r).asked
    decreases Size(r), 5
  {
    SizeOne(r);
    var s1 := s.(asked := s.asked + [r.id]);
    if s.token.None? {
      RunInOrder(env, s1, [r], []);
    } else if s.queue == [] && !env(s.tries) {
      RequestFails(env, s, r);
      RunInOrder(env, s1.(tries := s.tries + 1, browsing := false), [r], []);
    }
  }

  lemma {:induction false} RequestAllGrows(env: Attach, s: Avatars, rs: seq<Req>)
    requires s.client.Held?
    ensures s.log <= RequestAll(env, s, rs).log && s.asked <= RequestAll(env, s, rs).asked
    decreases SizeAll(rs), 6
  {
    if rs != [] {
      RequestGrows(env, s, rs[0]);
      RequestKeeps(env, s, rs[0], 0);
      RequestAllGrows(env, Request(env, s, rs[0]), rs[1..]);
    }
  }

  /** A flush answers its own requests in the order they were made, whatever its callbacks ask for meanwhile. */
  lemma {:induction false} RunInOrder(env: Attach, s: Avatars, rs: seq<Req>, data: Bytes)
    requires s.client.Held?
    ensures var t := RunAll(env, s, rs, data);
      s.log <= t.log && s.asked <= t.asked && IsSub(Answers(rs, data), t.log[|s.log|..])
    decreases SizeAll(rs), 2
  {
    if rs != [] {
      var a := Answer(rs[0].id, data);
      var s1 := s.(log := s.log + [a]);
      var s2 := RequestAll(env, s1, rs[0].again);
      RequestAllGrows(env, s1, rs[0].again);
      RequestAllKeeps(env, s1, rs[0].again, 0);
      hide IsSub, Answers, RequestAll;
      RunInOrder(env, s2, rs[1..], data);
      FirstThenRest(s.log, s2.log, RunAll(env, s2, rs[1..], data).log, rs, data);
    }
  }

  lemma FirstThenRest(before: seq<Answer>, mid: seq<Answer>, log: seq<Answer>, rs: seq<Req>, data: Bytes)
    requires rs != [] && before + [Answer(rs[0].id, data)] <= mid <= log && IsSub(Answers(rs[1..], data), log[|mid|..])
    ensures before <= log && IsSub(Answers(rs, data), log[|before|..])
  {
    var own, n := log[|before|..], |before| + 1;
    SubAfter(Answers(rs[1..], data), log[n..|mid|], log[|mid|..]);
    assert own[1..] == log[n..|mid|] + log[|mid|..];
    assert own[0] == mid[|before|] == Answer(rs[0].id, data) && Answers(rs, data)[1..] == Answers(rs[1..], data);
  }

  /** What the browser reports goes to all that wait, in their order. */
  lemma ResultAnswersWaiting(env: Attach, s: Avatars, data: Bytes)
    requires s.client.Held?
    ensures var t := Step(env, s, Result(data)); s.log <= t.log && IsSub(Answers(s.queue, data), t.log[|s.log|..])
  {
    RunInOrder(env, s.(browsing := false, queue := []), s.queue, data);
  }

  /** Nothing waits that was asked before something answered. */
  ghost predicate Fifo(s: Avatars, rest: seq<Req>) {
    s.asked == Answered(s.log) + Ids(rest) + Ids(s.queue)
  }

  /** Some callback before the last one asks again. */
  predicate AsksEarly(rs: seq<Req>) { exists i :: 0 <= i < |rs| - 1 && rs[i].again != [] }

  /** A request made now is answered at once instead of queued. */
  predicate AnswersNow(env: Attach, s: Avatars) { s.token.None? || (s.queue == [] && !env(s.tries)) }

  lemma AsksEarlyTail(rs: seq<Req>)
    requires rs != []
    ensures AsksEarly(rs) <==> AsksEarly(rs[1..]) || (|rs| > 1 && rs[0].again != [])
  {
    if i :| 0 <= i < |rs[1..]| - 1 && rs[1..][i].again != [] {
      assert rs[i + 1].again != [];
    }
    if i :| 0 <= i < |rs| - 1 && rs[i].again != [] {
      assert i > 0 ==> rs[1..][i - 1].again != [];
    }
  }

  /** A request that is not answered at once is appended. */
  lemma RequestQueued(env: Attach, s: Avatars, r: Req)
    requires s.client.Held? && !AnswersNow(env, s)
    ensures var t := Request(env, s, r);
      && t == s.(asked := s.asked + [r.id], queue := s.queue + [r], browsing := s.queue == [] || s.browsing,
                 tries := if s.queue == [] then s.tries + 1 else s.tries)
      && !AnswersNow(env, t)
  {
    if s.queue == [] {
      assert [] + [r] == [r];
    }
  }

  /** A request that is answered at once: its callback runs next. */
  lemma RequestAnswered(env: Attach, s: Avatars, r: Req)
    requires s.client.Held? && AnswersNow(env, s)
    ensures var s1 := s.(asked := s.asked + [r.id]);
      Request(env, s, r) == RunAll(env, if s.token.None? then s1 else s1.(tries := s.tries + 1, browsing := false), [r], [])
  {
    if s.token.Some? {
      RequestFails(env, s, r);
    }
  }

  lemma {:induction false} AllQueued(env: Attach, s: Avatars, rs: seq<Req>)
    requires s.client.Held? && !AnswersNow(env, s)
    ensures var t := RequestAll(env, s, rs);
      && t == s.(asked := s.asked + Ids(rs), queue := s.queue + rs, browsing := t.browsing, tries := t.tries)
      && !AnswersNow(env, t)
    decreases |rs|
  {
    if rs == [] {
      assert s.asked + Ids(rs) == s.asked && s.queue + rs == s.queue;
    } else {
      hide Request;
      RequestQueued(env, s, rs[0]);
      var m := Request(env, s, rs[0]);
      AllQueued(env, m, rs[1..]);
      assert s.queue + [rs[0]] + rs[1..] == s.queue + rs;
      assert s.asked + [rs[0].id] + Ids(rs[1..]) == s.asked + Ids(rs);
    }
  }

  /** A request made while nothing else is due keeps the order, whatever its callback asks for. */
  lemma {:induction false} RequestFifo(env: Attach, s: Avatars, r: Req)
    requires s.client.Held? && Fifo(s, []) && (s.token.None? ==> s.queue == [])
    ensures var t := Request(env, s, r); t.client.Held? && Fifo(t, []) && t.token == s.token && (t.token.None? ==> t.queue == [])
    decreases Size(r), 5
  {
    hide Request, RunAll;
    SizeOne(r);
    assert Ids([r]) == [r.id] && Ids(s.queue + [r]) == Ids(s.queue) + [r.id] && Ids([]) == [];
    if AnswersNow(env, s) {
      RequestAnswered(env, s, r);
      var s1 := s.(asked := s.asked + [r.id]);
      RunFifo(env, if s.token.None? then s1 else s1.(tries := s.tries + 1, browsing := false), [r], []);
    } else {
      RequestQueued(env, s, r);
    }
  }

  lemma {:induction false} RequestAllFifo(env: Attach, s: Avatars, rs: seq<Req>)
    requires s.client.Held? && Fifo(s, []) && (s.token.None? ==> s.queue == [])
    ensures var t := RequestAll(env, s, rs);
      t.client.Held? && Fifo(t, []) && t.token == s.token && (t.token.None? ==> t.queue == [])
    decreases SizeAll(rs), 6
  {
    hide Fifo;
    if rs != [] {
      RequestFifo(env, s, rs[0]);
      RequestAllFifo(env, Request(env, s, rs[0]), rs[1..]);
    }
  }

  /** The next of those due is answered. */
  lemma FifoNext(s: Avatars, rs: seq<Req>, data: Bytes)
    requires rs != [] && Fifo(s, rs)
    ensures Fifo(s.(log := s.log + [Answer(rs[0].id, data)]), rs[1..])
  {
    var a := Answer(rs[0].id, data);
    assert Answered(s.log + [a]) == Answered(s.log) + [a.id];
    assert Ids(rs) == [a.id] + Ids(rs[1..]);
  }

  lemma FifoQueued(s: Avatars, t: Avatars, rest: seq<Req>, rs: seq<Req>)
    requires Fifo(s, rest) && t.log == s.log && t.asked == s.asked + Ids(rs) && t.queue == s.queue + rs
    ensures Fifo(t, rest)
  {
    assert Ids(s.queue + rs) == Ids(s.queue) + Ids(rs);
  }

  /** A flush keeps the order unless a callback before the last one is answered at once. */
  lemma {:induction false} RunFifo(env: Attach, s: Avatars, rs: seq<Req>, data: Bytes)
    requires s.client.Held? && Fifo(s, rs) && (s.token.None? ==> s.queue == []) && !(AsksEarly(rs) && AnswersNow(env, s))
    ensures var t := RunAll(env, s, rs, data);
      t.client.Held? && Fifo(t, []) && t.token == s.token && (t.token.None? ==> t.queue == [])
    decreases SizeAll(rs), 2
  {
    if rs != [] {
      var a, rest, again := Answer(rs[0].id, data), rs[1..], rs[0].again;
      var s1 := s.(log := s.log + [a]);
      FifoNext(s, rs, data);
      AsksEarlyTail(rs);
      hide AsksEarly, Fifo;
      if rest == [] {
        RequestAllFifo(env, s1, again);
      } else if again != [] {
        AllQueued(env, s1, again);
        FifoQueued(s1, RequestAll(env, s1, again), rest, again);
      }
      hide AnswersNow, RequestAll;
      RunFifo(env, RequestAll(env, s1, again), rest, data);
    }
  }

  /** Some answer was given before the one whose turn it was. */
  ghost predicate OutOfTurn(s: Avatars) {
    exists k: nat :: k < |s.log| && k < |s.asked| && s.log[k].id != s.asked[k]
  }

  /** What came out of turn stays so. */
  lemma OutOfTurnStays(s: Avatars, t: Avatars)
    requires s.log <= t.log && s.asked <= t.asked && (Distinct(s.asked) ==> OutOfTurn(s))
    ensures Distinct(t.asked) ==> OutOfTurn(t)
  {
    if Distinct(t.asked) {
      assert forall i :: 0 <= i < |s.asked| ==> s.asked[i] == t.asked[i];
      var k: nat :| k < |s.log| && k < |s.asked| && s.log[k].id != s.asked[k];
      assert t.log[k] == s.log[k] && t.asked[k] == s.asked[k];
    }
  }

  /** And then the order is lost, if requests can be told apart. */
  lemma {:induction false} RunOvertakes(env: Attach, s: Avatars, rs: seq<Req>, data: Bytes)
    requires s.client.Held? && Fifo(s, rs) && s.queue == [] && AsksEarly(rs) && AnswersNow(env, s)
    ensures var t := RunAll(env, s, rs, data); Distinct(t.asked) ==> OutOfTurn(t)
    decreases |rs|
  {
    var a, rest, again := Answer(rs[0].id, data), rs[1..], rs[0].again;
    var s1 := s.(log := s.log + [a]);
    FifoNext(s, rs, data);
    AsksEarlyTail(rs);
    if again == [] {
      RunOvertakes(env, s1, rest, data);
    } else {
      var t := RunAll(env, s, rs, data);
      RequestOvertakes(env, s1, again[0], rest);
      var s2 := Request(env, s1, again[0]);
      RequestKeeps(env, s1, again[0], 0);
      RequestAllGrows(env, s2, again[1..]);
      RequestAllKeeps(env, s2, again[1..], 0);
      RunInOrder(env, RequestAll(env, s2, again[1..]), rest, data);
      assert RequestAll(env, s1, again) == RequestAll(env, s2, again[1..]);
      hide OutOfTurn, Distinct, Fifo, AnswersNow, AsksEarly, RequestAll, RunAll, Request;
      OutOfTurnStays(s2, t);
    }
  }

  lemma RequestOvertakes(env: Attach, s: Avatars, r: Req, rest: seq<Req>)
    requires s.client.Held? && Fifo(s, rest) && s.queue == [] && rest != [] && AnswersNow(env, s)
    ensures var t := Request(env, s, r); Distinct(t.asked) ==> OutOfTurn(t)
  {
    var t := Request(env, s, r);
    var s1 := s.(asked := s.asked + [r.id]);
    var s2 := if s.token.None? then s1 else s1.(tries := s.tries + 1, browsing := false);
    RequestAnswered(env, s, r);
    RunOne(env, s2, r, []);
    var s3 := s2.(log := s.log + [Answer(r.id, [])]);
    RequestAllGrows(env, s3, r.again);
    assert t == RequestAll(env, s3, r.again);
    var k := |s.log|;
    assert s.asked[k] == Ids(rest)[0] by { assert |Answered(s.log)| == k && Ids(s.queue) == []; }
    assert s3.log[k].id == r.id && s1.asked[|s.asked|] == r.id && s1.asked[k] == s.asked[k];
    hide Request, RequestAll, RunAll;
    if Distinct(t.asked) {
      assert t.asked[|s.asked|] == r.id && t.asked[k] == s.asked[k] && t.log[k] == s3.log[k];
    }
  }

  // ----- which retrievals leave a request waiting -----

  ghost predicate AllFail(env: Attach, from: nat, n: nat) {
    forall k: nat :: from <= k < from + n ==> !env(k)
  }

  lemma {:induction false} RequestTries(env: Attach, s: Avatars, r: Req)
    requires s.token.Some? && s.client.Held?
    ensures var t := Request(env, s, r); t.client.Held? && t.token == s.token && TriesLeft(env, s, t, Size(r))
    decreases Size(r), 5
  {
    SizeOne(r);
    RequestKeeps(env, s, r, 0);
    if s.queue == [] && !env(s.tries) {
      var s1 := s.(asked := s.asked + [r.id], tries := s.tries + 1, browsing := false);
      RunTries(env, s1, [r], []);
      RequestFails(env, s, r);
      assert AllFail(env, s.tries, Size(r)) <==> AllFail(env, s1.tries, Size(r) - 1);
    }
  }

  /** From an empty queue the next `n` retrievals must all fail for the queue to be empty again; once a request waits, some do. */
  ghost predicate TriesLeft(env: Attach, s: Avatars, t: Avatars, n: nat) {
    if s.queue != [] then t.queue != []
    else (t.queue == [] <==> AllFail(env, s.tries, n)) && (t.queue == [] ==> t.tries == s.tries + n)
  }

  lemma TriesChain(env: Attach, s: Avatars, m: Avatars, t: Avatars, n: nat, k: nat)
    requires TriesLeft(env, s, m, n) && TriesLeft(env, m, t, k)
    ensures TriesLeft(env, s, t, n + k)
  {
    if s.queue == [] && m.queue != [] {
      var i: nat :| s.tries <= i < s.tries + n && env(i);
      assert !AllFail(env, s.tries, n + k);
    } else if s.queue == [] {
      assert AllFail(env, s.tries, n + k) <==> AllFail(env, s.tries, n) && AllFail(env, m.tries, k);
    }
  }

  lemma {:induction false} RequestAllTries(env: Attach, s: Avatars, rs: seq<Req>)
    requires s.token.Some? && s.client.Held?
    ensures var t := RequestAll(env, s, rs); t.client.Held? && t.token == s.token && TriesLeft(env, s, t, SizeAll(rs))
    decreases SizeAll(rs), 6
  {
    if rs != [] {
      var m := Request(env, s, rs[0]);
      RequestTries(env, s, rs[0]);
      RequestAllTries(env, m, rs[1..]);
      TriesChain(env, s, m, RequestAll(env, m, rs[1..]), Size(rs[0]), SizeAll(rs[1..]));
    }
  }

  lemma {:induction false} SizeAtLeast(rs: seq<Req>)
    ensures SizeAll(rs) >= |rs|
  {
    if rs != [] {
      SizeAtLeast(rs[1..]);
    }
  }

  /** How many requests the callbacks of `rs` make, and theirs, and so on. */
  function Again(rs: seq<Req>): nat {
    SizeAtLeast(rs);
    SizeAll(rs) - |rs|
  }

  lemma {:induction false} RunTries(env: Attach, s: Avatars, rs: seq<Req>, data: Bytes)
    requires s.token.Some? && s.client.Held?
    ensures var t := RunAll(env, s, rs, data); t.client.Held? && t.token == s.token && TriesLeft(env, s, t, Again(rs))
    decreases SizeAll(rs), 2
  {
    if rs != [] {
      var s1 := s.(log := s.log + [Answer(rs[0].id, data)]);
      var m := RequestAll(env, s1, rs[0].again);
      RequestAllTries(env, s1, rs[0].again);
      assert TriesLeft(env, s, m, SizeAll(rs[0].again));
      RunTries(env, m, rs[1..], data);
      TriesChain(env, s, m, RunAll(env, m, rs[1..], data), SizeAll(rs[0].again), Again(rs[1..]));
    }
  }

  // ----- whole runs -----

  /** The browser that could report has been attached. */
  predicate Possible(s: Avatars, e: Event) { e.Result? ==> s.browsing }

  lemma StepKeeps(env: Attach, s: Avatars, e: Event, id: nat)
    requires Inv(s) && s.client.Held?
    ensures Inv(Step(env, s, e)) && Step(env, s, e).client.Held? && Missing(Step(env, s, e), id) == Missing(s, id)
  {
    match e
    case Ask(r) => RequestKeeps(env, s, r, id);
    case Token(t) => if s.token != t && s.queue != [] { RetrieveKeeps(env, s.(token := t), id); }
    case Result(d) => FlushKeeps(env, s, d, id);
  }

  function After(env: Attach, s: Avatars, es: seq<Event>): Avatars
    decreases |es|
  {
    if es == [] then s else After(env, Step(env, s, es[0]), es[1..])
  }

  predicate IsRun(env: Attach, s: Avatars, es: seq<Event>)
    decreases |es|
  {
    es == [] || (Possible(s, es[0]) && IsRun(env, Step(env, s, es[0]), es[1..]))
  }

  lemma {:induction false} RunAccounts(env: Attach, s: Avatars, es: seq<Event>, id: nat)
    requires Inv(s) && s.client.Held? && IsRun(env, s, es)
    ensures Inv(After(env, s, es)) && After(env, s, es).client.Held? && Missing(After(env, s, es), id) == Missing(s, id)
    decreases |es|
  {
    hide Inv, Missing;
    if es != [] {
      StepKeeps(env, s, es[0], id);
      RunAccounts(env, Step(env, s, es[0]), es[1..], id);
    }
  }

  /** In every reachable state each request made was answered or is queued, never both, as often as it was made; and
      requests wait exactly while one browser runs. */
  lemma RequestsConserved(env: Attach, es: seq<Event>, id: nat)
    requires IsRun(env, Init, es)
    ensures var s := After(env, Init, es);
      && Times(s.asked, id) == Times(Answered(s.log), id) + Owed(s.queue, id)
      && (s.queue != [] <==> s.browsing)
  {
    RunAccounts(env, Init, es, id);
  }

  /** Disposal runs to its end, and then has answered everything ever asked, if and only if no waiting callback asks again;
      otherwise the request made meanwhile uses the client that disposal has cleared. (Without an avatar announced nothing
      waits.) */
  lemma DisposalAnswersAll(env: Attach, es: seq<Event>)
    requires IsRun(env, Init, es)
    ensures var s := After(env, Init, es);
      var t := Dispose(env, s);
      && (t.client != NullClient <==> Again(s.queue) == 0)
      && (t.client != NullClient ==> t.queue == [] && forall id :: Times(t.asked, id) == Times(Answered(t.log), id))
  {
    var s := After(env, Init, es);
    var d := s.(client := Released, queue := []);
    RunAccounts(env, Init, es, 0);
    if Again(s.queue) == 0 {
      RunPlain(env, d, s.queue, []);
      RunPlain(env, s.(queue := []), s.queue, []);
      forall id ensures Times(s.asked, id) == Times(Answered(s.log + Answers(s.queue, [])), id) {
        RunAccounts(env, Init, es, id);
        RunKeeps(env, s.(queue := []), s.queue, [], id);
      }
    } else {
      RunCrashes(env, d, s.queue, []);
    }
  }

  /** Callbacks that do not ask again are run, and nothing else happens. */
  lemma {:induction false} RunPlain(env: Attach, s: Avatars, rs: seq<Req>, data: Bytes)
    requires Again(rs) == 0 && s.client != NullClient
    ensures RunAll(env, s, rs, data) == s.(log := s.log + Answers(rs, data))
    decreases |rs|
  {
    if rs == [] {
      assert s.log + Answers(rs, data) == s.log;
    } else {
      var a := Answer(rs[0].id, data);
      SizeAtLeast(rs[0].again);
      SizeAtLeast(rs[1..]);
      RunPlain(env, s.(log := s.log + [a]), rs[1..], data);
      assert s.log + [a] + Answers(rs[1..], data) == s.log + Answers(rs, data);
    }
  }

  /** The first callback that asks again brings about a retrieval without a client. */
  lemma {:induction false} RunCrashes(env: Attach, s: Avatars, rs: seq<Req>, data: Bytes)
    requires s.token.Some? && s.client == Released && s.queue == [] && Again(rs) > 0
    ensures RunAll(env, s, rs, data).client == NullClient
    decreases |rs|
  {
    var s1 := s.(log := s.log + [Answer(rs[0].id, data)]);
    var again := rs[0].again;
    if again == [] {
      assert SizeAll(again) == 0 && Again(rs) == Again(rs[1..]);
      RunCrashes(env, s1, rs[1..], data);
    } else {
      RequestCrashes(env, s1, again[0]);
      var c := Request(env, s1, again[0]);
      assert RequestAll(env, c, again[1..]) == c && RunAll(env, c, rs[1..], data) == c;
    }
  }

  lemma RequestCrashes(env: Attach, s: Avatars, r: Req)
    requires s.token.Some? && s.client == Released && s.queue == []
    ensures Request(env, s, r).client == NullClient
  {
    var s1 := s.(asked := s.asked + [r.id], queue := [r]);
    assert Request(env, s, r) == Retrieve(env, s1);
  }

  /** It takes one avatar announced, and one request waiting whose callback asks again, whatever attaching would do then. */
  lemma DisposalCrashes(env: Attach)
    requires env(0)
    ensures var es := [Token(Some("t")), Ask(Req(0, [Req(1, [])]))];
      IsRun(env, Init, es) && Dispose(env, After(env, Init, es)).client == NullClient
  {
    var r := Req(0, [Req(1, [])]);
    var es := [Token(Some("t")), Ask(r)];
    var s1 := Step(env, Init, es[0]);
    assert es[1..] == [Ask(r)] && [Ask(r)][1..] == [];
    RequestQueued(env, s1, r);
    var s2 := Step(env, s1, Ask(r));
    assert s2.queue == [r];
    assert After(env, s1, [Ask(r)]) == s2 && IsRun(env, s1, [Ask(r)]);
    assert [r][1..] == [] && r.again[1..] == [];
    RunCrashes(env, s2.(client := Released, queue := []), [r], []);
  }

  /** An event flushes the queue while a callback before the last one asks again and is answered at once: the avatar is no
      longer announced, or the next retrieval does not attach either. */
  predicate Overtakes(env: Attach, s: Avatars, e: Event) {
    match e
    case Ask(_) => false
    case Token(t) => t != s.token && AsksEarly(s.queue) && (t.None? || (!env(s.tries) && !env(s.tries + 1)))
    case Result(_) => AsksEarly(s.queue) && !env(s.tries)
  }

  predicate OvertakenIn(env: Attach, s: Avatars, es: seq<Event>)
    decreases |es|
  {
    es != [] && (Overtakes(env, s, es[0]) || OvertakenIn(env, Step(env, s, es[0]), es[1..]))
  }

  lemma FlushOrder(env: Attach, s: Avatars, data: Bytes)
    requires s.client.Held? && Fifo(s, []) && (s.token.None? || s.queue != [])
    ensures var t := Flush(env, s, data);
      if AsksEarly(s.queue) && (s.token.None? || !env(s.tries)) then Distinct(t.asked) ==> OutOfTurn(t) else Fifo(t, [])
  {
    var d := s.(browsing := false, queue := []);
    assert Ids([]) == [];
    assert Fifo(d, s.queue);
    if AsksEarly(s.queue) && AnswersNow(env, d) {
      RunOvertakes(env, d, s.queue, data);
    } else {
      RunFifo(env, d, s.queue, data);
    }
    hide RunAll, OutOfTurn, Fifo, AsksEarly, Distinct;
  }

  lemma StepOrder(env: Attach, s: Avatars, e: Event)
    requires Inv(s) && s.client.Held? && Fifo(s, []) && Possible(s, e)
    ensures var t := Step(env, s, e); if Overtakes(env, s, e) then Distinct(t.asked) ==> OutOfTurn(t) else Fifo(t, [])
  {
    match e
    case Ask(r) => RequestFifo(env, s, r);
    case Token(t) =>
      var s1 := s.(token := t);
      if s.token != t && s.queue != [] {
        if t.None? {
          FlushOrder(env, s1, []);
        } else if !env(s.tries) {
          FlushOrder(env, s1.(tries := s.tries + 1), []);
        }
      }
    case Result(d) => FlushOrder(env, s, d);
  }

  lemma StepGrows(env: Attach, s: Avatars, e: Event)
    requires s.client.Held?
    ensures s.log <= Step(env, s, e).log && s.asked <= Step(env, s, e).asked
  {
    match e
    case Ask(r) => RequestGrows(env, s, r);
    case Token(t) =>
      var s1 := s.(token := t);
      FlushGrows(env, s1, []);
      FlushGrows(env, s1.(tries := s.tries + 1), []);
      hide Flush;
    case Result(d) => FlushGrows(env, s, d);
  }

  lemma FlushGrows(env: Attach, s: Avatars, data: Bytes)
    requires s.client.Held?
    ensures s.log <= Flush(env, s, data).log && s.asked <= Flush(env, s, data).asked
  {
    RunInOrder(env, s.(browsing := false, queue := []), s.queue, data);
  }

  lemma {:induction false} AfterGrows(env: Attach, s: Avatars, es: seq<Event>)
    requires Inv(s) && s.client.Held?
    ensures s.log <= After(env, s, es).log && s.asked <= After(env, s, es).asked
    decreases |es|
  {
    hide Step;
    if es != [] {
      StepKeeps(env, s, es[0], 0);
      StepGrows(env, s, es[0]);
      AfterGrows(env, Step(env, s, es[0]), es[1..]);
    }
  }

  lemma {:induction false} RunOrder(env: Attach, s: Avatars, es: seq<Event>)
    requires Inv(s) && s.client.Held? && Fifo(s, []) && IsRun(env, s, es)
    ensures var t := After(env, s, es);
      if OvertakenIn(env, s, es) then Distinct(t.asked) ==> OutOfTurn(t) else Fifo(t, [])
    decreases |es|
  {
    hide Inv, Fifo, OutOfTurn, Overtakes, Step, Distinct;
    if es != [] {
      var m, t := Step(env, s, es[0]), After(env, s, es);
      StepKeeps(env, s, es[0], 0);
      StepOrder(env, s, es[0]);
      if Overtakes(env, s, es[0]) {
        AfterGrows(env, m, es[1..]);
        OutOfTurnStays(m, t);
      } else {
        RunOrder(env, m, es[1..]);
      }
    }
  }

  /** Over any run, callbacks have run strictly in the order of all requests, those that wait being the latest, if no flush
      on the way was overtaken; and, when requests can be told apart, only if none was. */
  lemma AnswersInOrder(env: Attach, es: seq<Event>)
    requires IsRun(env, Init, es)
    ensures var t := After(env, Init, es);
      && (!OvertakenIn(env, Init, es) ==> Fifo(t, []))
      && (Distinct(t.asked) ==> (Fifo(t, []) <==> !OvertakenIn(env, Init, es)))
  {
    var t := After(env, Init, es);
    assert Fifo(Init, []);
    RunOrder(env, Init, es);
    if Fifo(t, []) {
    }
  }

  function TokenAfter(token: Option<string>, es: seq<Event>): Option<string>
    decreases |es|
  {
    if es == [] then token else TokenAfter(if es[0].Token? then es[0].token else token, es[1..])
  }

  lemma StepToken(env: Attach, s: Avatars, e: Event)
    requires s.client.Held?
    ensures Step(env, s, e).token == if e.Token? then e.token else s.token
  {
    match e
    case Ask(r) => RequestKeeps(env, s, r, 0);
    case Token(t) => if s.token != t && s.queue != [] { RetrieveKeeps(env, s.(token := t), 0); }
    case Result(d) => FlushKeeps(env, s, d, 0);
  }

  /** The token is always the last one announced. */
  lemma {:induction false} TokenIsLast(env: Attach, s: Avatars, es: seq<Event>)
    requires Inv(s) && s.client.Held? && IsRun(env, s, es)
    ensures After(env, s, es).token == TokenAfter(s.token, es)
    decreases |es|
  {
    hide Step;
    if es != [] {
      StepKeeps(env, s, es[0], 0);
      StepToken(env, s, es[0]);
      TokenIsLast(env, Step(env, s, es[0]), es[1..]);
    }
  }

  /** A changed token restarts what is going on: with requests waiting another browser is tried, and if that attaches they wait
      on, in their order, for the new avatar. The same token again, or nobody waiting, changes nothing else. */
  lemma ChangedTokenRestarts(env: Attach, s: Avatars, t: string)
    requires Inv(s) && s.client.Held?
    ensures var r := Step(env, s, Token(Some(t)));
      && (s.token == Some(t) || s.queue == [] ==> r == s.(token := Some(t)))
      && (s.token != Some(t) && s.queue != [] ==> r.tries > s.tries)
      && (s.token != Some(t) && s.queue != [] && env(s.tries) ==> r == s.(token := Some(t), tries := s.tries + 1))
  {
    var s1 := s.(token := Some(t));
    if s.token != Some(t) && s.queue != [] && !env(s.tries) {
      FlushTries(env, s1.(tries := s.tries + 1), []);
    }
  }

  lemma FlushTries(env: Attach, s: Avatars, data: Bytes)
    requires s.client.Held?
    ensures s.tries <= Flush(env, s, data).tries
  {
    RunTriesGrow(env, s.(browsing := false, queue := []), s.queue, data);
  }

  lemma {:induction false} RequestTriesGrow(env: Attach, s: Avatars, r: Req)
    requires s.client.Held?
    ensures s.tries <= Request(env, s, r).tries
    decreases Size(r), 5
  {
    SizeOne(r);
    var s1 := s.(asked := s.asked + [r.id]);
    if s.token.None? {
      RunTriesGrow(env, s1, [r], []);
    } else if s.queue == [] && !env(s.tries) {
      RequestFails(env, s, r);
      RunTriesGrow(env, s1.(tries := s.tries + 1, browsing := false), [r], []);
    }
  }

  lemma {:induction false} RequestAllTriesGrow(env: Attach, s: Avatars, rs: seq<Req>)
    requires s.client.Held?
    ensures s.tries <= RequestAll(env, s, rs).tries
    decreases SizeAll(rs), 6
  {
    if rs != [] {
      RequestTriesGrow(env, s, rs[0]);
      RequestKeeps(env, s, rs[0], 0);
      RequestAllTriesGrow(env, Request(env, s, rs[0]), rs[1..]);
    }
  }

  lemma {:induction false} RunTriesGrow(env: Attach, s: Avatars, rs: seq<Req>, data: Bytes)
    requires s.client.Held?
    ensures s.tries <= RunAll(env, s, rs, data).tries
    decreases SizeAll(rs), 2
  {
    if rs != [] {
      var s1 := s.(log := s.log + [Answer(rs[0].id, data)]);
      RequestAllTriesGrow(env, s1, rs[0].again);
      RequestAllKeeps(env, s1, rs[0].again, 0);
      RunTriesGrow(env, RequestAll(env, s1, rs[0].again), rs[1..], data);
    }
  }

  /** How many callbacks were given an avatar. */
  function Given(log: seq<Answer>): nat { if log == [] then 0 else Given(log[..|log| - 1]) + if log[|log| - 1].data != [] then 1 else 0 }

  lemma GivenSnoc(log: seq<Answer>, a: Answer)
    ensures Given(log + [a]) == Given(log) + if a.data != [] then 1 else 0
  {
    assert (log + [a])[..|log|] == log;
  }

  lemma {:induction false} RequestGives(env: Attach, s: Avatars, r: Req)
    requires s.client.Held?
    ensures Given(Request(env, s, r).log) == Given(s.log)
    decreases Size(r), 5
  {
    SizeOne(r);
    var s1 := s.(asked := s.asked + [r.id]);
    if s.token.None? {
      RunGives(env, s1, [r], []);
    } else if s.queue == [] && !env(s.tries) {
      RequestFails(env, s, r);
      RunGives(env, s1.(tries := s.tries + 1, browsing := false), [r], []);
    }
  }

  lemma {:induction false} RequestAllGives(env: Attach, s: Avatars, rs: seq<Req>)
    requires s.client.Held?
    ensures Given(RequestAll(env, s, rs).log) == Given(s.log)
    decreases SizeAll(rs), 6
  {
    if rs != [] {
      RequestGives(env, s, rs[0]);
      RequestKeeps(env, s, rs[0], 0);
      RequestAllGives(env, Request(env, s, rs[0]), rs[1..]);
    }
  }

  lemma {:induction false} RunGives(env: Attach, s: Avatars, rs: seq<Req>, data: Bytes)
    requires s.client.Held?
    ensures Given(RunAll(env, s, rs, data).log) == Given(s.log) + if data != [] then |rs| else 0
    decreases SizeAll(rs), 2
  {
    if rs != [] {
      var s1 := s.(log := s.log + [Answer(rs[0].id, data)]);
      GivenSnoc(s.log, Answer(rs[0].id, data));
      hide Given;
      RequestAllGives(env, s1, rs[0].again);
      RequestAllKeeps(env, s1, rs[0].again, 0);
      RunGives(env, RequestAll(env, s1, rs[0].again), rs[1..], data);
    }
  }

  /** Avatars are given out only when the browser comes back with one, and then once to each request that waits. */
  lemma OnlyResultsGive(env: Attach, s: Avatars, e: Event)
    requires s.client.Held?
    ensures Given(Step(env, s, e).log) == Given(s.log) + if e.Result? && e.data != [] then |s.queue| else 0
  {
    match e
    case Ask(r) => RequestGives(env, s, r);
    case Token(t) =>
      var s1 := s.(token := t);
      FlushGives(env, s1, []);
      FlushGives(env, s1.(tries := s.tries + 1), []);
      hide Flush;
    case Result(d) => FlushGives(env, s, d);
  }

  lemma FlushGives(env: Attach, s: Avatars, data: Bytes)
    requires s.client.Held?
    ensures Given(Flush(env, s, data).log) == Given(s.log) + if data != [] then |s.queue| else 0
  {
    RunGives(env, s.(browsing := false, queue := []), s.queue, data);
  }

  /** The browser of a contact disposed of with requests waiting keeps running. */
  lemma BrowserOutlivesContact(env: Attach, s: Avatars)
    requires Inv(s) && s.client.Held? && s.queue != [] && Again(s.queue) == 0
    ensures Dispose(env, s).browsing && Dispose(env, s).queue == []
  {
    RunPlain(env, s.(client := Released, queue := []), s.queue, []);
  }

  // ----- as the source runs it -----

  class AvatarRequests {
    const attach: Attach
    var token: Option<string>
    var avatarRequests: seq<Req>
    var recordBrowser: bool
    var discoveryClient: Client
    var tries: nat
    ghost var asked: seq<nat>
    var log: seq<Answer>

    ghost function State(): Avatars
      reads this
    {
      Avatars(token, avatarRequests, recordBrowser, discoveryClient, tries, asked, log)
    }

    constructor (attach: Attach)
      ensures this.attach == attach && State() == Init
    {
      this.attach := attach;
      token, avatarRequests, recordBrowser, discoveryClient := None, [], false, Held;
      tries, asked, log := 0, [], [];
    }

    /** A callback: it runs, and may request again. */
    method Callback(request: Req, data: Bytes)
      modifies this
      ensures State() == RequestAll(attach, old(State()).(log := old(log) + [Answer(request.id, data)]), request.again)
      decreases Size(request), 1
    {
      log := log + [Answer(request.id, data)];
      ghost var s := State();
      var i := 0;
      while i < |request.again| && discoveryClient != NullClient
        invariant 0 <= i <= |request.again|
        invariant RequestAll(attach, State(), request.again[i..]) == RequestAll(attach, s, request.again)
      {
        SizeOfTail(request.again, i);
        GetAvatar(request.again[i]);
        assert request.again[i..][1..] == request.again[i + 1..];
        i := i + 1;
      }
    }

    method GetAvatar(request: Req)
      requires discoveryClient != NullClient
      modifies this
      ensures State() == Request(attach, old(State()), request)
      decreases Size(request), 5
    {
      asked := asked + [request.id];
      if token.None? {
        ghost var s := State();
        Callback(request, []);
        RunOne(attach, s, request, []);
        return;
      }
      var retrieve := avatarRequests == [];
      avatarRequests := avatarRequests + [request];
      if retrieve {
        assert avatarRequests == [request];
        SizeOne(request);
        RetrieveAvatar();
      }
    }

    method RetrieveAvatar()
      modifies this
      ensures State() == Retrieve(attach, old(State()))
      decreases SizeAll(avatarRequests), 4
    {
      recordBrowser := false;
      if token.None? {
        AvatarRequestFlush([]);
        return;
      }
      if discoveryClient != Held {
        // the name of the service is asked of a NULL client
        discoveryClient := NullClient;
        return;
      }
      recordBrowser := true;
      tries := tries + 1;
      if !attach(tries - 1) {
        AvatarRequestFlush([]);
      }
    }

    method AvatarRequestFlush(data: Bytes)
      modifies this
      ensures State() == Flush(attach, old(State()), data)
      decreases SizeAll(avatarRequests), 3
    {
      recordBrowser := false;
      FlushRequests(data);
    }

    method FlushRequests(data: Bytes)
      modifies this
      ensures State() == RunAll(attach, old(State()).(queue := []), old(avatarRequests), data)
      decreases SizeAll(avatarRequests), 2
    {
      var list := avatarRequests;
      avatarRequests := [];
      ghost var s := State();
      var i := 0;
      while i < |list| && discoveryClient != NullClient
        invariant 0 <= i <= |list|
        invariant RunAll(attach, State(), list[i..], data) == RunAll(attach, s, list, data)
      {
        SizeOfTail(list, i);
        Callback(list[i], data);
        assert list[i..][1..] == list[i + 1..];
        i := i + 1;
      }
    }

    method ChangeAvatarToken(newToken: Option<string>)
      modifies this
      ensures State() == ChangeToken(attach, old(State()), newToken)
    {
      if token != newToken {
        // purge_cached_avatar
        token := newToken;
        if avatarRequests != [] {
          RetrieveAvatar();
        }
      }
    }

    /** A record, or the end or failure of the browser (no data). */
    method AvatarResult(rdata: Bytes)
      modifies this
      ensures State() == Flush(attach, old(State()), rdata)
    {
      AvatarRequestFlush(rdata);
    }

    /** `salut_avahi_contact_dispose`, then `salut_contact_dispose`. */
    method DisposeContact()
      modifies this
      ensures State() == Dispose(attach, old(State()))
    {
      discoveryClient := Released;
      FlushRequests([]);
    }
  }

  lemma {:induction false} SizeOfTail(rs: seq<Req>, i: nat)
    requires i < |rs|
    ensures Size(rs[i]) <= SizeAll(rs)
  {
    if i > 0 {
      SizeOfTail(rs[1..], i - 1);
    }
  }
}
