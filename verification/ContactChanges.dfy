/** How changes of a contact reach a listener: change masks, freezing and coalescing, found and lost, and what the
    connection forwards. Attributes outside the four forwarded groups are not part of this model. */
module ContactChanges {
  import opened Collections

  // SALUT_CONTACT_*; OLPC_PROPERTIES goes along with a changed jid
  const ALIAS_CHANGED: bv16 := 0x1
  const STATUS_CHANGED: bv16 := 0x2
  const AVATAR_CHANGED: bv16 := 0x4
  const OLPC_PROPERTIES: bv16 := 0x8
  const JID_CHANGED: bv16 := 0x40
  const EMAIL_CHANGED: bv16 := 0x80
  const REAL_NAME_CHANGED: bv16 := 0x100
  const INFO_CHANGED: bv16 := 0x1c0
  const FOUND_MASK: bv16 := 0xff

  predicate Has(mask: bv16, bits: bv16) { mask & bits != 0 }

  function Union(a: bv16, b: bv16): bv16 { a | b }

  const OFFLINE := 3
  const NR_PRESENCES := 4

  datatype Fields = Fields(alias: Option<string>, status: int, message: Option<string>, avatarToken: Option<string>,
                           first: Option<string>, last: Option<string>, fullName: Option<string>,
                           email: Option<string>, jid: Option<string>)

  datatype ContactInfo = ContactInfo(first: Option<string>, last: Option<string>, fullName: Option<string>,
                                     email: Option<string>, jid: Option<string>)

  /** What a listener knows: one component for each thing the connection forwards. */
  datatype View = View(alias: string, status: int, message: Option<string>, avatarToken: Option<string>, info: ContactInfo)

  datatype Contact = Contact(name: string, fields: Fields, found: bool, frozen: bool, pending: bv16, view: View)

  /** The view an up-to-date listener has. */
  function Shown(name: string, f: Fields): View {
    View(if f.alias.Some? then f.alias.value else name, f.status, f.message, f.avatarToken,
         ContactInfo(f.first, f.last, f.fullName, f.email, f.jid))
  }

  /** `_contact_manager_contact_change_cb`: refresh what the mask says. */
  function Refresh(v: View, s: View, mask: bv16): View {
    View(if Has(mask, ALIAS_CHANGED) then s.alias else v.alias,
         if Has(mask, STATUS_CHANGED) then s.status else v.status,
         if Has(mask, STATUS_CHANGED) then s.message else v.message,
         if Has(mask, AVATAR_CHANGED) then s.avatarToken else v.avatarToken,
         if Has(mask, INFO_CHANGED) then s.info else v.info)
  }

  // ----- signals -----

  function EmitChange(c: Contact, mask: bv16): Contact {
    c.(view := Refresh(c.view, Shown(c.name, c.fields), mask))
  }

  /** `salut_contact_change`. */
  function Change(c: Contact, mask: bv16): Contact {
    var p := Union(c.pending, mask);
    if !c.frozen && p != 0 then EmitChange(c, p).(pending := 0) else c.(pending := p)
  }

  function Found(c: Contact): Contact {
    if c.found then c else EmitChange(c.(found := true), FOUND_MASK).(pending := 0)
  }

  function Lost(c: Contact): Contact {
    var c1 := c.(fields := c.fields.(status := OFFLINE, message := None));
    if !c.found then c1 else EmitChange(c1.(found := false), STATUS_CHANGED)
  }

  function Thaw(c: Contact): Contact {
    if !c.frozen then c else Change(c.(frozen := false), 0)
  }

  // ----- attribute changes -----

  /** Empty strings count as absent. */
  function NonEmpty(s: Option<string>): Option<string> { if s == Some("") then None else s }

  function FullName(first: Option<string>, last: Option<string>): Option<string> {
    match (first, last)
    case (Some(f), Some(l)) => Some(f + " " + l)
    case (Some(f), None) => first
    case (None, _) => last
  }

  function ChangeRealName(c: Contact, first: Option<string>, last: Option<string>): Contact {
    var f, l := NonEmpty(first), NonEmpty(last);
    if c.fields.first == f && c.fields.last == l then c
    else Change(c.(fields := c.fields.(first := f, last := l, fullName := FullName(f, l))), REAL_NAME_CHANGED)
  }

  function ChangeAlias(c: Contact, alias: Option<string>): Contact {
    if c.fields.alias == alias then c else Change(c.(fields := c.fields.(alias := alias)), ALIAS_CHANGED)
  }

  function ChangeStatus(c: Contact, status: int): Contact {
    if status == c.fields.status || status >= NR_PRESENCES then c
    else Change(c.(fields := c.fields.(status := status)), STATUS_CHANGED)
  }

  function ChangeMessage(c: Contact, message: Option<string>): Contact {
    if c.fields.message == message then c else Change(c.(fields := c.fields.(message := message)), STATUS_CHANGED)
  }

  function ChangeAvatarToken(c: Contact, token: Option<string>): Contact {
    if c.fields.avatarToken == token then c else Change(c.(fields := c.fields.(avatarToken := token)), AVATAR_CHANGED)
  }

  function ChangeEmail(c: Contact, email: Option<string>): Contact {
    var e := NonEmpty(email);
    if c.fields.email == e then c else Change(c.(fields := c.fields.(email := e)), EMAIL_CHANGED)
  }

  function ChangeJid(c: Contact, jid: Option<string>): Contact {
    var j := NonEmpty(jid);
    if c.fields.jid == j then c else Change(c.(fields := c.fields.(jid := j)), Union(JID_CHANGED, OLPC_PROPERTIES))
  }

  // ----- a resolved service -----

  type Txt = map<string, string>

  const STATUS_TXT_NAMES := ["avail", "away", "dnd", "offline"]

  /** The alias a record asks for: the nick, else the full name, else none. */
  function AliasOf(nick: Option<string>, fullName: Option<string>): Option<string> {
    if NonEmpty(nick).Some? then nick else NonEmpty(fullName)
  }

  /** The fields a record describes; a missing or unknown status leaves the old one. */
  function Described(f: Fields, txt: Txt): Fields {
    var first, last := NonEmpty(Get(txt, "1st")), NonEmpty(Get(txt, "last"));
    var fullName := if f.first == first && f.last == last then f.fullName else FullName(first, last);
    Fields(AliasOf(Get(txt, "nick"), fullName),
           if "status" in txt then StatusNamed(txt["status"], f.status) else f.status,
           Get(txt, "msg"), Get(txt, "phsh"), first, last, fullName,
           NonEmpty(Get(txt, "email")), NonEmpty(Get(txt, "jid")))
  }

  function StatusNamed(s: string, otherwise: int): int {
    if s in STATUS_TXT_NAMES then IndexOf(STATUS_TXT_NAMES, s) else otherwise
  }

  function IndexOf(q: seq<string>, s: string): (i: nat)
    requires s in q
    ensures i < |q| && q[i] == s && s !in q[..i]
  {
    if q[0] == s then 0 else
      var j := IndexOf(q[1..], s);
      assert q[..j + 1] == [q[0]] + q[1..][..j];
      j + 1
  }

  // ----- the invariant -----

  /** Any disagreement of the listener with a found contact is covered by the pending changes, and only a frozen contact
      has any. */
  ghost predicate Inv(c: Contact) {
    && (c.found ==> Refresh(c.view, Shown(c.name, c.fields), c.pending) == Shown(c.name, c.fields))
    && (!c.frozen ==> c.pending == 0)
  }

  datatype Event =
    | RealName(first: Option<string>, last: Option<string>)
    | Alias(alias: Option<string>)
    | Status(status: int)
    | Message(message: Option<string>)
    | AvatarToken(token: Option<string>)
    | Email(email: Option<string>)
    | Jid(jid: Option<string>)
    | Freeze
    | Thawed
    | IsFound
    | IsLost

  function Step(c: Contact, e: Event): Contact {
    match e
    case RealName(f, l) => ChangeRealName(c, f, l)
    case Alias(a) => ChangeAlias(c, a)
    case Status(s) => ChangeStatus(c, s)
    case Message(m) => ChangeMessage(c, m)
    case AvatarToken(t) => ChangeAvatarToken(c, t)
    case Email(m) => ChangeEmail(c, m)
    case Jid(j) => ChangeJid(c, j)
    case Freeze => c.(frozen := true)
    case Thawed => Thaw(c)
    case IsFound => Found(c)
    case IsLost => Lost(c)
  }

  function Run(c: Contact, es: seq<Event>): Contact {
    if es == [] then c else Step(Run(c, es[..|es| - 1]), es[|es| - 1])
  }

  // ----- lemmas -----

  /** A mask refreshes every listener of every contact completely exactly when it has the alias, status and avatar bits
      and any one of the three contact-info bits. */
  lemma SufficientMasks(mask: bv16)
    ensures (forall v, s :: Refresh(v, s, mask) == s) <==>
            Has(mask, ALIAS_CHANGED) && Has(mask, STATUS_CHANGED) && Has(mask, AVATAR_CHANGED) && Has(mask, INFO_CHANGED)
  {
    if forall v, s :: Refresh(v, s, mask) == s {
      var none := ContactInfo(None, None, None, None, None);
      var v := View("", 0, None, None, none);
      var s := View("a", 1, Some(""), Some(""), none.(jid := Some("j")));
      assert Refresh(v, s, mask) == s;
    }
  }

  /** So the mask of a found contact suffices although it lacks the real-name bit. */
  lemma FoundMaskSuffices(v: View, s: View)
    ensures !Has(FOUND_MASK, REAL_NAME_CHANGED) && Refresh(v, s, FOUND_MASK) == s
  {
    SufficientMasks(FOUND_MASK);
  }

  lemma MaskUnion(a: bv16, b: bv16, bit: bv16)
    ensures Has(Union(a, b), bit) <==> Has(a, bit) || Has(b, bit)
  {
    assert (a | b) & bit == (a & bit) | (b & bit);
  }

  /** If `a` brings `v` to `s` and `b` brings `s` to `t`, both together bring `v` to `t`. */
  lemma RefreshUnion(v: View, s: View, t: View, a: bv16, b: bv16)
    requires Refresh(s, t, b) == t
    ensures Refresh(v, s, a) == s ==> Refresh(v, t, Union(a, b)) == t
    ensures b == 0 ==> s == t
    ensures Union(a, b) == 0 ==> a == 0 && b == 0
  {
    MaskUnion(a, b, ALIAS_CHANGED);
    MaskUnion(a, b, STATUS_CHANGED);
    MaskUnion(a, b, AVATAR_CHANGED);
    MaskUnion(a, b, INFO_CHANGED);
    RefreshNothing(s, t);
  }

  lemma RefreshNothing(v: View, s: View)
    ensures Refresh(v, s, 0) == v
  {
  }

  /** Writing fields that the mask covers, on top of pending changes that cover the rest. */
  lemma ChangeKeeps(c: Contact, f: Fields, mask: bv16)
    requires Inv(c) && Refresh(Shown(c.name, c.fields), Shown(c.name, f), mask) == Shown(c.name, f)
    ensures Inv(Change(c.(fields := f), mask))
  {
    hide Shown, Has, Union, Refresh;
    RefreshUnion(c.view, Shown(c.name, c.fields), Shown(c.name, f), c.pending, mask);
    RefreshNothing(Shown(c.name, f), Shown(c.name, f));
  }

  lemma StepKeeps(c: Contact, e: Event)
    requires Inv(c)
    ensures Inv(Step(c, e))
  {
    hide Change;
    var f := c.fields;
    match e
    case RealName(first, last) =>
      var a, b := NonEmpty(first), NonEmpty(last);
      ChangeKeeps(c, f.(first := a, last := b, fullName := FullName(a, b)), REAL_NAME_CHANGED);
    case Alias(a) => ChangeKeeps(c, f.(alias := a), ALIAS_CHANGED);
    case Status(s) => ChangeKeeps(c, f.(status := s), STATUS_CHANGED);
    case Message(m) => ChangeKeeps(c, f.(message := m), STATUS_CHANGED);
    case AvatarToken(t) => ChangeKeeps(c, f.(avatarToken := t), AVATAR_CHANGED);
    case Email(m) => ChangeKeeps(c, f.(email := NonEmpty(m)), EMAIL_CHANGED);
    case Jid(j) => ChangeKeeps(c, f.(jid := NonEmpty(j)), Union(JID_CHANGED, OLPC_PROPERTIES));
    case Freeze =>
    case Thawed => ThawKeeps(c);
    case IsFound => FoundMaskSuffices(c.view, Shown(c.name, c.fields));
    case IsLost =>
  }

  lemma ThawKeeps(c: Contact)
    requires Inv(c)
    ensures Inv(Thaw(c))
  {
  }

  lemma {:induction false} RunKeeps(c: Contact, es: seq<Event>)
    requires Inv(c)
    ensures Inv(Run(c, es))
  {
    if es != [] {
      RunKeeps(c, es[..|es| - 1]);
      StepKeeps(Run(c, es[..|es| - 1]), es[|es| - 1]);
    }
  }

  /** A contact as constructed: not found, not frozen, nothing pending; the listener knows anything. */
  ghost predicate Fresh(c: Contact) { !c.found && !c.frozen && c.pending == 0 }

  /** No stale observer. After any events on a new contact, if it is found and not frozen, every listener knows its alias,
      or its name if it has none, and everything else forwarded, as it is; while it is frozen, the pending changes would
      bring the listener up to date. */
  lemma {:induction false} NoStaleObserver(c: Contact, es: seq<Event>)
    requires Fresh(c)
    ensures var r := Run(c, es);
      var f, v := r.fields, r.view;
      && (r.found && !r.frozen ==>
          && v.alias == (if f.alias.Some? then f.alias.value else r.name)
          && v.status == f.status && v.message == f.message && v.avatarToken == f.avatarToken
          && v.info.first == f.first && v.info.last == f.last && v.info.fullName == f.fullName
          && v.info.email == f.email && v.info.jid == f.jid)
      && (r.found ==> Refresh(v, Shown(r.name, f), r.pending) == Shown(r.name, f))
  {
    RunKeeps(c, es);
  }

  // ----- what events alone decide -----

  /** What an event writes into the fields: a name set again as it was leaves the full name, a status out of range
      everything. */
  function NextFields(f: Fields, e: Event): Fields {
    match e
    case RealName(first, last) =>
      var g := f.(first := NonEmpty(first), last := NonEmpty(last));
      if g == f then f else g.(fullName := FullName(g.first, g.last))
    case Alias(a) => f.(alias := a)
    case Status(s) => if s < NR_PRESENCES then f.(status := s) else f
    case Message(m) => f.(message := m)
    case AvatarToken(t) => f.(avatarToken := t)
    case Email(m) => f.(email := NonEmpty(m))
    case Jid(j) => f.(jid := NonEmpty(j))
    case IsLost => f.(status := OFFLINE, message := None)
    case _ => f
  }

  function FieldsAfter(f: Fields, es: seq<Event>): Fields {
    if es == [] then f else NextFields(FieldsAfter(f, es[..|es| - 1]), es[|es| - 1])
  }

  function Last(was: bool, es: seq<Event>, on: Event, off: Event): bool {
    if es == [] then was
    else if es[|es| - 1] == on then true
    else if es[|es| - 1] == off then false
    else Last(was, es[..|es| - 1], on, off)
  }

  /** After any events the fields are what the events wrote, the contact is found if it was found after it was last lost, and
      frozen if it was frozen after it last thawed. */
  lemma {:induction false} FieldsAreHistory(c: Contact, es: seq<Event>)
    ensures var r := Run(c, es);
      && r.name == c.name && r.fields == FieldsAfter(c.fields, es)
      && r.found == Last(c.found, es, IsFound, IsLost) && r.frozen == Last(c.frozen, es, Freeze, Thawed)
  {
    if es != [] {
      FieldsAreHistory(c, es[..|es| - 1]);
      StepFields(Run(c, es[..|es| - 1]), es[|es| - 1]);
      hide Step, NextFields;
    }
  }

  lemma StepFields(c: Contact, e: Event)
    ensures var r := Step(c, e);
      && r.name == c.name && r.fields == NextFields(c.fields, e)
      && r.found == (e == IsFound || (e != IsLost && c.found)) && r.frozen == (e == Freeze || (e != Thawed && c.frozen))
  {
    hide Refresh, Shown, Has, Union, FullName, Change, NonEmpty;
    var f := c.fields;
    match e
    case RealName(first, last) =>
      var a, b := NonEmpty(first), NonEmpty(last);
      Writing(c, f.(first := a, last := b, fullName := FullName(a, b)), REAL_NAME_CHANGED);
    case Alias(a) => Writing(c, f.(alias := a), ALIAS_CHANGED);
    case Status(s) => Writing(c, f.(status := s), STATUS_CHANGED);
    case Message(m) => Writing(c, f.(message := m), STATUS_CHANGED);
    case AvatarToken(t) => Writing(c, f.(avatarToken := t), AVATAR_CHANGED);
    case Email(m) => Writing(c, f.(email := NonEmpty(m)), EMAIL_CHANGED);
    case Jid(j) => Writing(c, f.(jid := NonEmpty(j)), Union(JID_CHANGED, OLPC_PROPERTIES));
    case Freeze =>
    case Thawed => Writing(c.(frozen := false), f, 0);
    case IsFound =>
    case IsLost =>
  }

  /** A change writes the fields and signals; it does nothing else. */
  lemma Writing(c: Contact, f: Fields, mask: bv16)
    ensures var r := Change(c.(fields := f), mask);
      r.name == c.name && r.fields == f && r.found == c.found && r.frozen == c.frozen
  {
    hide Refresh, Shown, Has, Union;
  }

  /** The bits that speak of what an event writes. */
  function MaskOf(e: Event): bv16 {
    match e
    case RealName(_, _) => REAL_NAME_CHANGED
    case Alias(_) => ALIAS_CHANGED
    case Status(_) => STATUS_CHANGED
    case Message(_) => STATUS_CHANGED
    case AvatarToken(_) => AVATAR_CHANGED
    case Email(_) => EMAIL_CHANGED
    case Jid(_) => Union(JID_CHANGED, OLPC_PROPERTIES)
    case _ => 0
  }

  predicate Writes(e: Event) { MaskOf(e) != 0 }

  /** Writing what is there already is no change: nothing is signalled or kept for later. A change of a frozen contact adds
      exactly its bits to those pending. */
  lemma WritesOnce(c: Contact, e: Event)
    requires Writes(e)
    ensures NextFields(c.fields, e) == c.fields ==> Step(c, e) == c
    ensures NextFields(c.fields, e) != c.fields && c.frozen ==> Step(c, e).pending == Union(c.pending, MaskOf(e))
    ensures NextFields(c.fields, e) != c.fields && c.frozen ==> Step(c, e).view == c.view
  {
    hide Refresh, Shown, Has;
  }

  /** Who loses a contact is told at once, frozen or not, that it is offline, and nothing else. */
  lemma LostIsTold(c: Contact)
    requires c.found
    ensures Step(c, IsLost).view == c.view.(status := OFFLINE, message := None) && !Step(c, IsLost).found
  {
    assert Has(STATUS_CHANGED, STATUS_CHANGED) && !Has(STATUS_CHANGED, ALIAS_CHANGED) && !Has(STATUS_CHANGED, AVATAR_CHANGED);
    assert !Has(STATUS_CHANGED, INFO_CHANGED);
  }

  /** A full name of two names is both, with a space between; of one, that one; of none, none. */
  lemma FullNameParts(first: Option<string>, last: Option<string>)
    ensures FullName(first, last).Some? <==> first.Some? || last.Some?
    ensures first.Some? && last.Some? ==>
      var n, k := FullName(first, last).value, |first.value|;
      |n| == k + 1 + |last.value| && n[..k] == first.value && n[k] == ' ' && n[k + 1..] == last.value
    ensures first.None? ==> FullName(first, last) == last
    ensures last.None? ==> FullName(first, last) == first
  {
  }

  // ----- the contact as an object -----

  class SalutContact {
    const name: string
    var fields: Fields
    var found: bool
    var frozen: bool
    var pending: bv16
    // a listener behind the connection
    var view: View

    ghost function State(): Contact
      reads this
    {
      Contact(name, fields, found, frozen, pending, view)
    }

    constructor (name: string, view: View)
      ensures Fresh(State()) && this.name == name && this.view == view
    {
      this.name := name;
      fields := Fields(None, 0, None, None, None, None, None, None, None);
      found, frozen, pending, this.view := false, false, 0, view;
    }

    /** The change signal, as the manager passes it on and the connection forwards it. */
    method EmitContactChange(changes: bv16)
      modifies this`view
      ensures State() == EmitChange(old(State()), changes)
    {
      var shown := Shown(name, fields);
      if Has(changes, ALIAS_CHANGED) {
        view := view.(alias := shown.alias);
      }
      if Has(changes, STATUS_CHANGED) {
        view := view.(status := shown.status, message := shown.message);
      }
      if Has(changes, AVATAR_CHANGED) {
        view := view.(avatarToken := shown.avatarToken);
      }
      if Has(changes, Union(Union(REAL_NAME_CHANGED, EMAIL_CHANGED), JID_CHANGED)) {
        view := view.(info := shown.info);
      }
      assert Union(Union(REAL_NAME_CHANGED, EMAIL_CHANGED), JID_CHANGED) == INFO_CHANGED;
    }

    method ChangeSignal(changes: bv16)
      modifies this`view, this`pending
      ensures State() == Change(old(State()), changes)
      ensures frozen == old(frozen) && found == old(found)
    {
      hide Refresh, Shown, Union;
      pending := Union(pending, changes);
      if !frozen && pending != 0 {
        EmitContactChange(pending);
        pending := 0;
      }
    }

    method SetRealName(first: Option<string>, last: Option<string>)
      modifies this
      ensures State() == Step(old(State()), RealName(first, last))
      ensures fields == old(fields).(first := NonEmpty(first), last := NonEmpty(last),
        fullName := if old(fields).first == NonEmpty(first) && old(fields).last == NonEmpty(last) then old(fields).fullName
                    else FullName(NonEmpty(first), NonEmpty(last)))
      ensures frozen == old(frozen) && found == old(found)
    {
      hide Change;
      var f, l := NonEmpty(first), NonEmpty(last);
      if fields.first != f || fields.last != l {
        fields := fields.(first := f);
        fields := fields.(last := l);
        if f.Some? && l.Some? {
          fields := fields.(fullName := Some(f.value + " " + l.value));
        } else if f.Some? {
          fields := fields.(fullName := f);
        } else {
          fields := fields.(fullName := l);
        }
        ChangeSignal(REAL_NAME_CHANGED);
      }
    }

    method SetAlias(alias: Option<string>)
      modifies this
      ensures State() == Step(old(State()), Alias(alias))
      ensures fields == old(fields).(alias := alias)
      ensures frozen == old(frozen) && found == old(found)
    {
      hide Change;
      if fields.alias != alias {
        fields := fields.(alias := alias);
        ChangeSignal(ALIAS_CHANGED);
      }
    }

    method SetStatus(status: int)
      modifies this
      ensures State() == Step(old(State()), Status(status))
      ensures fields == old(fields).(status := if status < NR_PRESENCES then status else old(fields).status)
      ensures frozen == old(frozen) && found == old(found)
    {
      hide Change;
      if status != fields.status && status < NR_PRESENCES {
        fields := fields.(status := status);
        ChangeSignal(STATUS_CHANGED);
      }
    }

    method SetStatusMessage(message: Option<string>)
      modifies this
      ensures State() == Step(old(State()), Message(message))
      ensures fields == old(fields).(message := message)
      ensures frozen == old(frozen) && found == old(found)
    {
      hide Change;
      if fields.message != message {
        fields := fields.(message := message);
        ChangeSignal(STATUS_CHANGED);
      }
    }

    method SetAvatarToken(token: Option<string>)
      modifies this
      ensures State() == Step(old(State()), AvatarToken(token))
      ensures fields == old(fields).(avatarToken := token)
      ensures frozen == old(frozen) && found == old(found)
    {
      hide Change;
      if fields.avatarToken != token {
        fields := fields.(avatarToken := token);
        ChangeSignal(AVATAR_CHANGED);
      }
    }

    method SetEmail(email: Option<string>)
      modifies this
      ensures State() == Step(old(State()), Email(email))
      ensures fields == old(fields).(email := NonEmpty(email))
      ensures frozen == old(frozen) && found == old(found)
    {
      hide Change;
      var e := NonEmpty(email);
      if fields.email != e {
        fields := fields.(email := e);
        ChangeSignal(EMAIL_CHANGED);
      }
    }

    method SetJid(jid: Option<string>)
      modifies this
      ensures State() == Step(old(State()), Jid(jid))
      ensures fields == old(fields).(jid := NonEmpty(jid))
      ensures frozen == old(frozen) && found == old(found)
    {
      hide Change;
      var j := NonEmpty(jid);
      if fields.jid != j {
        fields := fields.(jid := j);
        ChangeSignal(Union(JID_CHANGED, OLPC_PROPERTIES));
      }
    }

    method MarkFound()
      modifies this
      ensures State() == Step(old(State()), IsFound)
      ensures fields == old(fields) && frozen == old(frozen) && found
    {
      if found {
        return;
      }
      found := true;
      EmitContactChange(FOUND_MASK);
      pending := 0;
    }

    method MarkLost()
      modifies this
      ensures State() == Step(old(State()), IsLost)
    {
      fields := fields.(status := OFFLINE);
      fields := fields.(message := None);
      if !found {
        return;
      }
      found := false;
      EmitContactChange(STATUS_CHANGED);
    }

    method FreezeChanges()
      modifies this`frozen
      ensures State() == Step(old(State()), Freeze)
    {
      frozen := true;
    }

    method ThawChanges()
      modifies this
      ensures State() == Step(old(State()), Thawed)
      ensures fields == old(fields) && !frozen && found == old(found)
    {
      if !frozen {
        return;
      }
      frozen := false;
      ChangeSignal(0);
    }

    /** `contact_resolved_cb`: afterwards the contact is found, its fields are those of the record, and every listener
        agrees with them. */
    method Resolved(txt: Txt)
      requires Inv(State())
      modifies this
      ensures Inv(State())
      ensures found && !frozen && fields == Described(old(fields), txt)
      ensures view == Shown(name, fields)
    {
      hide Change, Refresh, Shown, Inv, Thaw, Found, StatusNamed;
      ghost var c := State();
      StepKeeps(State(), Freeze);
      FreezeChanges();
      if "status" in txt {
        StepKeeps(State(), Status(StatusNamed(txt["status"], fields.status)));
        SetStatusNamed(txt["status"]);
      }
      StepKeeps(State(), Message(Get(txt, "msg")));
      SetStatusMessage(Get(txt, "msg"));
      StepKeeps(State(), RealName(Get(txt, "1st"), Get(txt, "last")));
      SetRealName(Get(txt, "1st"), Get(txt, "last"));
      StepKeeps(State(), Alias(AliasOf(Get(txt, "nick"), fields.fullName)));
      UpdateAlias(Get(txt, "nick"));
      StepKeeps(State(), AvatarToken(Get(txt, "phsh")));
      SetAvatarToken(Get(txt, "phsh"));
      StepKeeps(State(), Email(Get(txt, "email")));
      SetEmail(Get(txt, "email"));
      StepKeeps(State(), Jid(Get(txt, "jid")));
      SetJid(Get(txt, "jid"));
      assert fields == Described(c.fields, txt) && frozen;
      StepKeeps(State(), IsFound);
      MarkFound();
      StepKeeps(State(), Thawed);
      ThawChanges();
      NothingPending(State());
    }

    method SetStatusNamed(s: string)
      modifies this
      ensures State() == Step(old(State()), Status(StatusNamed(s, old(fields.status))))
      ensures fields == old(fields).(status := StatusNamed(s, old(fields).status))
      ensures frozen == old(frozen) && found == old(found)
    {
      for i := 0 to NR_PRESENCES
        invariant s !in STATUS_TXT_NAMES[..i] && State() == old(State())
      {
        if s == STATUS_TXT_NAMES[i] {
          assert STATUS_TXT_NAMES[i] in STATUS_TXT_NAMES;
          SetStatus(i);
          return;
        }
      }
    }

    method UpdateAlias(nick: Option<string>)
      modifies this
      ensures State() == Step(old(State()), Alias(AliasOf(nick, old(fields.fullName))))
      ensures fields == old(fields).(alias := AliasOf(nick, old(fields).fullName))
      ensures frozen == old(frozen) && found == old(found)
    {
      if NonEmpty(nick).Some? {
        SetAlias(nick);
      } else if NonEmpty(fields.fullName).Some? {
        SetAlias(fields.fullName);
      } else {
        SetAlias(None);
      }
    }
  }

  lemma NothingPending(c: Contact)
    requires Inv(c) && c.found && !c.frozen
    ensures c.view == Shown(c.name, c.fields)
  {
  }
}
