/** The presence record we publish, what updates make of it, and what a contact that resolves it reads. */
module PresenceRecord {
  import opened Collections
  import opened ContactChanges

  /** What we say about ourselves; `nick` is the nickname announced or the alias set since. */
  datatype Mine = Mine(nick: Option<string>, first: Option<string>, last: Option<string>, email: Option<string>,
                       jid: Option<string>, status: nat, message: Option<string>, token: Option<string>)

  datatype Update =
    | SetPresence(status: nat, message: Option<string>)
    | SetAlias(alias: string)
    | SetAvatar(token: string)
    | RemoveAvatar

  function NextMine(m: Mine, u: Update): Mine {
    match u
    case SetPresence(status, message) => m.(status := status, message := message)
    case SetAlias(alias) => m.(nick := Some(alias))
    case SetAvatar(token) => m.(token := Some(token))
    case RemoveAvatar => m.(token := None)
  }

  /** The record says what `m` says. */
  predicate Says(txt: Txt, m: Mine) {
    && Get(txt, "nick") == m.nick && Get(txt, "1st") == m.first && Get(txt, "last") == m.last
    && Get(txt, "email") == m.email && Get(txt, "jid") == m.jid && Get(txt, "msg") == m.message && Get(txt, "phsh") == m.token
    && m.status < NR_PRESENCES && Get(txt, "status") == Some(STATUS_TXT_NAMES[m.status])
  }

  // ----- the handlers -----

  function PutSome(txt: Txt, key: string, value: Option<string>): Txt {
    if value.Some? then txt[key := value.value] else txt
  }

  /** `create_txt_record`, without OLPC attributes. */
  function Announced(m: Mine): Txt
    requires m.status < NR_PRESENCES
  {
    var names := PutSome(PutSome(PutSome(map["txtvers" := "1"], "nick", m.nick), "1st", m.first), "last", m.last);
    PutSome(PutSome(PutSome(names, "email", m.email), "jid", m.jid)["status" := STATUS_TXT_NAMES[m.status]], "msg", m.message)
  }

  function Updated(txt: Txt, u: Update): Txt
    requires u.SetPresence? ==> u.status < NR_PRESENCES
  {
    match u
    case SetPresence(status, message) =>
      var t := txt["status" := STATUS_TXT_NAMES[status]];
      if message.Some? then t["msg" := message.value] else t - {"msg"}
    case SetAlias(alias) => txt["nick" := alias]
    case SetAvatar(token) => txt["phsh" := token]
    case RemoveAvatar => txt - {"phsh"}
  }

  // ----- lemmas -----

  lemma AnnouncedSays(m: Mine)
    requires m.status < NR_PRESENCES && m.token == None
    ensures Says(Announced(m), m)
  {
    KeysDiffer();
  }

  lemma KeysDiffer()
    ensures "nick" != "1st" && "nick" != "last" && "nick" != "email" && "nick" != "jid" && "nick" != "status" && "nick" != "msg"
    ensures "1st" != "last" && "1st" != "email" && "1st" != "jid" && "1st" != "status" && "1st" != "msg"
    ensures "last" != "email" && "last" != "jid" && "last" != "status" && "last" != "msg"
    ensures "email" != "jid" && "email" != "status" && "email" != "msg" && "jid" != "status" && "jid" != "msg" && "status" != "msg"
    ensures "phsh" != "nick" && "phsh" != "1st" && "phsh" != "last" && "phsh" != "email" && "phsh" != "jid" && "phsh" != "status"
    ensures "phsh" != "msg" && "txtvers" != "phsh" && "txtvers" != "nick" && "txtvers" != "1st" && "txtvers" != "last"
    ensures "txtvers" != "email" && "txtvers" != "jid" && "txtvers" != "status" && "txtvers" != "msg"
  {
    assert "jid"[0] == 'j' && "1st"[0] == '1' && "msg"[0] == 'm' && "nick"[0] == 'n' && "last"[0] == 'l' && "phsh"[0] == 'p';
    assert |"email"| == 5 && |"status"| == 6 && |"txtvers"| == 7;
  }

  lemma UpdatedSays(txt: Txt, m: Mine, u: Update)
    requires Says(txt, m) && (u.SetPresence? ==> u.status < NR_PRESENCES)
    ensures Says(Updated(txt, u), NextMine(m, u))
  {
    KeysDiffer();
  }

  function TxtAfter(txt: Txt, us: seq<Update>): Txt
    requires forall u :: u in us && u.SetPresence? ==> u.status < NR_PRESENCES
    decreases |us|
  {
    if us == [] then txt else TxtAfter(Updated(txt, us[0]), us[1..])
  }

  function MineAfter(m: Mine, us: seq<Update>): Mine
    decreases |us|
  {
    if us == [] then m else MineAfter(NextMine(m, us[0]), us[1..])
  }

  lemma {:induction false} RunSays(txt: Txt, m: Mine, us: seq<Update>)
    requires Says(txt, m) && forall u :: u in us && u.SetPresence? ==> u.status < NR_PRESENCES
    ensures Says(TxtAfter(txt, us), MineAfter(m, us))
    decreases |us|
  {
    hide Says, Updated, NextMine;
    if us != [] {
      UpdatedSays(txt, m, us[0]);
      RunSays(Updated(txt, us[0]), NextMine(m, us[0]), us[1..]);
    }
  }

  /** Presence round trip. After any sequence of updates, a contact that resolves our record, whatever it knew of us, has our
      status, message and avatar token, our names, email address and jid, empty ones counting as absent, and as alias our
      nick, or our full name if there is none. */
  lemma PresenceRoundTrip(m: Mine, us: seq<Update>, f: Fields)
    requires m.status < NR_PRESENCES && m.token == None && forall u :: u in us && u.SetPresence? ==> u.status < NR_PRESENCES
    requires f.fullName == FullName(f.first, f.last)
    ensures var r, n := Described(f, TxtAfter(Announced(m), us)), MineAfter(m, us);
      && r.status == n.status && r.message == n.message && r.avatarToken == n.token
      && Reads(r.first, n.first) && Reads(r.last, n.last) && Reads(r.email, n.email) && Reads(r.jid, n.jid)
      && r.fullName == FullName(r.first, r.last)
      && (if n.nick.Some? && n.nick != Some("") then r.alias == n.nick else Reads(r.alias, r.fullName))
  {
    AnnouncedSays(m);
    RunSays(Announced(m), m, us);
    var txt, n := TxtAfter(Announced(m), us), MineAfter(m, us);
    hide TxtAfter, MineAfter, Announced;
    StatusReads(n.status, f.status);
    assert "status" in txt && txt["status"] == STATUS_TXT_NAMES[n.status];
    hide StatusNamed;
  }

  /** What is read of an attribute: what was said, unless that is empty. */
  predicate Reads(read: Option<string>, said: Option<string>) {
    if said == Some("") then read == None else read == said
  }

  lemma StatusReads(status: nat, otherwise: int)
    requires status < NR_PRESENCES
    ensures StatusNamed(STATUS_TXT_NAMES[status], otherwise) == status
  {
    var q := STATUS_TXT_NAMES;
    assert |q[0]| == 5 && |q[1]| == 4 && |q[2]| == 3 && |q[3]| == 7;
    var i := IndexOf(q, q[status]);
    assert q[i] == q[status];
  }

  /** The full name of a contact fits its names after any events, if it did before. */
  lemma {:induction false} NamesFit(c: Contact, es: seq<Event>)
    requires c.fields.fullName == FullName(c.fields.first, c.fields.last)
    ensures var f := Run(c, es).fields; f.fullName == FullName(f.first, f.last)
  {
    FieldsAreHistory(c, es);
    FieldsFit(c.fields, es);
  }

  lemma {:induction false} FieldsFit(f: Fields, es: seq<Event>)
    requires f.fullName == FullName(f.first, f.last)
    ensures var g := FieldsAfter(f, es); g.fullName == FullName(g.first, g.last)
  {
    hide FullName;
    if es != [] {
      FieldsFit(f, es[..|es| - 1]);
    }
  }

  // ----- as the source runs it -----

  class PresenceService {
    var txt: Txt

    /** `create_txt_record`, line by line. */
    constructor (m: Mine)
      requires m.status < NR_PRESENCES
      ensures txt == Announced(m)
    {
      var ret: Txt := map["txtvers" := "1"];
      if m.nick.Some? {
        ret := ret["nick" := m.nick.value];
      }
      if m.first.Some? {
        ret := ret["1st" := m.first.value];
      }
      if m.last.Some? {
        ret := ret["last" := m.last.value];
      }
      if m.email.Some? {
        ret := ret["email" := m.email.value];
      }
      if m.jid.Some? {
        ret := ret["jid" := m.jid.value];
      }
      ret := ret["status" := STATUS_TXT_NAMES[m.status]];
      if m.message.Some? {
        ret := ret["msg" := m.message.value];
      }
      txt := ret;
    }

    method SetOwnPresence(status: nat, message: Option<string>)
      requires status < NR_PRESENCES
      modifies this
      ensures txt == Updated(old(txt), SetPresence(status, message))
    {
      txt := txt["status" := STATUS_TXT_NAMES[status]];
      if message.Some? {
        txt := txt["msg" := message.value];
      } else {
        txt := txt - {"msg"};
      }
    }

    method SetOwnAlias(alias: string)
      modifies this
      ensures txt == Updated(old(txt), SetAlias(alias))
    {
      txt := txt["nick" := alias];
    }

    method SetOwnAvatar(token: string)
      modifies this
      ensures txt == Updated(old(txt), SetAvatar(token))
    {
      txt := txt["phsh" := token];
    }

    method RemoveOwnAvatar()
      modifies this
      ensures txt == Updated(old(txt), RemoveAvatar)
    {
      txt := txt - {"phsh"};
    }
  }
}
