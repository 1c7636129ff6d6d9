/** Capability sets: sets of handles into one growing pool of strings, and their form as a service discovery reply. */
module Capabilities {
  import opened Collections
  import opened CStrings

  type Handle = nat

  const QUIRK_PREFIX_CHAR: char := '\U{0007}'
  const QUIRK_OMITS_CONTENT_CREATORS: string := [QUIRK_PREFIX_CHAR] + "omits-content-creators"

  predicate IsQuirk(s: string) { s != [] && s[0] == QUIRK_PREFIX_CHAR }

  // ----- the pool -----

  /** The handle of a string, one more than its place; 0 if it was never interned. */
  function Lookup(names: seq<string>, s: string): (h: Handle)
    ensures h <= |names| && (if h == 0 then s !in names else names[h - 1] == s)
  {
    if names == [] then 0
    else if names[|names| - 1] == s then |names|
    else Lookup(names[..|names| - 1], s)
  }

  function Intern(names: seq<string>, s: string): seq<string> {
    if Lookup(names, s) == 0 then names + [s] else names
  }

  ghost predicate InPool(handles: set<Handle>, names: seq<string>) { forall h :: h in handles ==> 1 <= h <= |names| }

  /** The strings a set of handles stands for. */
  ghost function NamesOf(handles: set<Handle>, names: seq<string>): set<string>
    requires InPool(handles, names)
  {
    set h | h in handles :: names[h - 1]
  }

  lemma LookupAt(names: seq<string>, h: Handle)
    requires Distinct(names) && 1 <= h <= |names|
    ensures Lookup(names, names[h - 1]) == h
  {
  }

  /** A string belongs to a set exactly when its handle does. */
  lemma NamesByHandle(handles: set<Handle>, names: seq<string>, s: string)
    requires Distinct(names) && InPool(handles, names)
    ensures s in NamesOf(handles, names) <==> Lookup(names, s) in handles
  {
    if s in NamesOf(handles, names) {
      var h :| h in handles && names[h - 1] == s;
      LookupAt(names, h);
    }
  }

  lemma InternKeeps(names: seq<string>, s: string)
    requires Distinct(names)
    ensures Distinct(Intern(names, s)) && names <= Intern(names, s) && Lookup(Intern(names, s), s) != 0
  {
  }

  /** A growing pool changes no set. */
  lemma PoolGrows(handles: set<Handle>, names: seq<string>, more: seq<string>)
    requires InPool(handles, names) && names <= more
    ensures InPool(handles, more) && NamesOf(handles, more) == NamesOf(handles, names)
  {
  }

  // ----- any number of sets sharing the pool -----

  type Id = nat

  datatype Op =
    | Copy(t: Id, source: Id)
    | Add(t: Id, cap: string)
    | Remove(t: Id, cap: string)
    | Update(t: Id, source: Id)
    | Intersect(t: Id, source: Id)
    | Exclude(t: Id, source: Id)
    | Clear(t: Id)
    | Has(t: Id, cap: string)
    | HasOne(t: Id, source: Id)
    | AtLeast(t: Id, source: Id)
    | Equals(t: Id, source: Id)

  datatype Interned = Interned(names: seq<string>, sets: map<Id, set<Handle>>)

  function At<T>(sets: map<Id, set<T>>, id: Id): set<T> { if id in sets then sets[id] else {} }

  /** An operation on handles: the new state, and the answer of those that give one. */
  function Step(c: Interned, op: Op): (Interned, Option<bool>) {
    var a := At(c.sets, op.t);
    match op
    case Copy(t, s) => (c.(sets := c.sets[t := At(c.sets, s)]), None)
    case Add(t, cap) => var n := Intern(c.names, cap); (Interned(n, c.sets[t := a + {Lookup(n, cap)}]), None)
    case Remove(t, cap) =>
      var h := Lookup(c.names, cap);
      if h == 0 then (c, Some(false)) else (c.(sets := c.sets[t := a - {h}]), Some(h in a))
    case Update(t, s) => (c.(sets := c.sets[t := a + At(c.sets, s)]), None)
    case Intersect(t, s) => (c.(sets := c.sets[t := a * At(c.sets, s)]), None)
    case Exclude(t, s) => (c.(sets := c.sets[t := a - At(c.sets, s)]), None)
    case Clear(t) => (c.(sets := c.sets[t := {}]), None)
    case Has(t, cap) => (c, Some(Lookup(c.names, cap) != 0 && Lookup(c.names, cap) in a))
    case HasOne(t, s) => (c, Some(a * At(c.sets, s) != {}))
    case AtLeast(t, s) => (c, Some(At(c.sets, s) <= a))
    case Equals(t, s) => (c, Some(a == At(c.sets, s)))
  }

  /** The same on plain sets of strings. */
  function PlainStep(c: map<Id, set<string>>, op: Op): (map<Id, set<string>>, Option<bool>) {
    var a := At(c, op.t);
    match op
    case Copy(t, s) => (c[t := At(c, s)], None)
    case Add(t, cap) => (c[t := a + {cap}], None)
    case Remove(t, cap) => (c[t := a - {cap}], Some(cap in a))
    case Update(t, s) => (c[t := a + At(c, s)], None)
    case Intersect(t, s) => (c[t := a * At(c, s)], None)
    case Exclude(t, s) => (c[t := a - At(c, s)], None)
    case Clear(t) => (c[t := {}], None)
    case Has(t, cap) => (c, Some(cap in a))
    case HasOne(t, s) => (c, Some(a * At(c, s) != {}))
    case AtLeast(t, s) => (c, Some(At(c, s) <= a))
    case Equals(t, s) => (c, Some(a == At(c, s)))
  }

  ghost predicate Inv(c: Interned) { Distinct(c.names) && forall id :: InPool(At(c.sets, id), c.names) }

  /** `plain` is what the handle sets stand for, set by set. */
  ghost predicate Stands(c: Interned, plain: map<Id, set<string>>)
    requires Inv(c)
  {
    forall id :: At(plain, id) == NamesOf(At(c.sets, id), c.names)
  }

  /** Set operations on handles are those on strings. */
  lemma SetOps(a: set<Handle>, b: set<Handle>, names: seq<string>)
    requires Distinct(names) && InPool(a, names) && InPool(b, names)
    ensures NamesOf(a + b, names) == NamesOf(a, names) + NamesOf(b, names)
    ensures NamesOf(a * b, names) == NamesOf(a, names) * NamesOf(b, names)
    ensures NamesOf(a - b, names) == NamesOf(a, names) - NamesOf(b, names)
  {
    hide NamesOf, Distinct, Lookup;
    forall s ensures s in NamesOf(a + b, names) <==> s in NamesOf(a, names) + NamesOf(b, names) {
      NamesByHandle(a, names, s);
      NamesByHandle(b, names, s);
      NamesByHandle(a + b, names, s);
    }
    forall s ensures s in NamesOf(a * b, names) <==> s in NamesOf(a, names) * NamesOf(b, names) {
      NamesByHandle(a, names, s);
      NamesByHandle(b, names, s);
      NamesByHandle(a * b, names, s);
    }
    forall s ensures s in NamesOf(a - b, names) <==> s in NamesOf(a, names) - NamesOf(b, names) {
      NamesByHandle(a, names, s);
      NamesByHandle(b, names, s);
      NamesByHandle(a - b, names, s);
    }
  }

  /** And so are comparisons. */
  lemma SetTests(a: set<Handle>, b: set<Handle>, names: seq<string>)
    requires Distinct(names) && InPool(a, names) && InPool(b, names)
    ensures b <= a <==> NamesOf(b, names) <= NamesOf(a, names)
    ensures a == b <==> NamesOf(a, names) == NamesOf(b, names)
    ensures a * b == {} <==> NamesOf(a, names) * NamesOf(b, names) == {}
  {
    Included(a, b, names);
    Included(b, a, names);
    SetOps(a, b, names);
    hide Distinct;
    if a * b != {} {
      var h :| h in a * b;
      assert names[h - 1] in NamesOf(a * b, names);
    }
  }

  lemma Included(a: set<Handle>, b: set<Handle>, names: seq<string>)
    requires Distinct(names) && InPool(a, names) && InPool(b, names)
    ensures b <= a <==> NamesOf(b, names) <= NamesOf(a, names)
  {
    if NamesOf(b, names) <= NamesOf(a, names) {
      forall h | h in b ensures h in a {
        assert names[h - 1] in NamesOf(b, names);
        NamesByHandle(a, names, names[h - 1]);
        LookupAt(names, h);
      }
    }
  }

  lemma NoNames(names: seq<string>)
    ensures NamesOf({}, names) == {}
  {
  }

  lemma OneName(names: seq<string>, s: string)
    requires Distinct(names) && Lookup(names, s) != 0
    ensures NamesOf({Lookup(names, s)}, names) == {s}
  {
  }

  /** Writing a set that stands for `p` where `p` is written keeps the correspondence. */
  lemma PutRefines(c: Interned, plain: map<Id, set<string>>, t: Id, a: set<Handle>, p: set<string>)
    requires Inv(c) && Stands(c, plain) && InPool(a, c.names) && NamesOf(a, c.names) == p
    ensures var d := c.(sets := c.sets[t := a]); Inv(d) && Stands(d, plain[t := p])
  {
    hide Distinct, InPool, NamesOf;
    var d := c.(sets := c.sets[t := a]);
    forall id ensures InPool(At(d.sets, id), d.names) {
      assert InPool(At(c.sets, id), c.names);
    }
    forall id ensures At(plain[t := p], id) == NamesOf(At(d.sets, id), d.names) {
      assert At(plain, id) == NamesOf(At(c.sets, id), c.names);
    }
  }

  /** One operation on interned sets does what it does on sets of strings, and answers the same, whichever sets it is
      given, the same one twice included, and whether or not the string was ever interned. */
  lemma StepRefines(c: Interned, plain: map<Id, set<string>>, op: Op)
    requires Inv(c) && Stands(c, plain)
    ensures var (d, answer), (p, wanted) := Step(c, op), PlainStep(plain, op); Inv(d) && Stands(d, p) && answer == wanted
  {
    var a := At(c.sets, op.t);
    match op
    case Add(t, cap) => AddRefines(c, plain, t, cap);
    case Remove(t, cap) => RemoveRefines(c, plain, t, cap);
    case Has(t, cap) => NamesByHandle(a, c.names, cap);
    case Clear(t) => PutRefines(c, plain, t, {}, {});
    case _ => BinaryRefines(c, plain, op);
  }

  lemma BinaryRefines(c: Interned, plain: map<Id, set<string>>, op: Op)
    requires Inv(c) && Stands(c, plain) && !op.Add? && !op.Remove? && !op.Has? && !op.Clear?
    ensures var (d, answer), (p, wanted) := Step(c, op), PlainStep(plain, op); Inv(d) && Stands(d, p) && answer == wanted
  {
    var a, b := At(c.sets, op.t), At(c.sets, op.source);
    assert InPool(a, c.names) && InPool(b, c.names);
    hide Distinct, NamesOf;
    SetOps(a, b, c.names);
    SetTests(a, b, c.names);
    var p, q := At(plain, op.t), At(plain, op.source);
    assert p == NamesOf(a, c.names) && q == NamesOf(b, c.names);
    if op.Copy? {
      PutRefines(c, plain, op.t, b, q);
    } else if op.Update? {
      PutRefines(c, plain, op.t, a + b, p + q);
    } else if op.Intersect? {
      PutRefines(c, plain, op.t, a * b, p * q);
    } else if op.Exclude? {
      PutRefines(c, plain, op.t, a - b, p - q);
    }
  }

  lemma AddRefines(c: Interned, plain: map<Id, set<string>>, t: Id, cap: string)
    requires Inv(c) && Stands(c, plain)
    ensures var d := Step(c, Add(t, cap)).0; Inv(d) && Stands(d, PlainStep(plain, Add(t, cap)).0)
  {
    var n := Intern(c.names, cap);
    InternKeeps(c.names, cap);
    OneName(n, cap);
    hide Distinct, NamesOf, Lookup, Intern;
    var m := c.(names := n);
    forall id ensures InPool(At(c.sets, id), n) && At(plain, id) == NamesOf(At(c.sets, id), n) {
      assert InPool(At(c.sets, id), c.names) && At(plain, id) == NamesOf(At(c.sets, id), c.names);
      PoolGrows(At(c.sets, id), c.names, n);
    }
    SetOps(At(c.sets, t), {Lookup(n, cap)}, n);
    PutRefines(m, plain, t, At(c.sets, t) + {Lookup(n, cap)}, At(plain, t) + {cap});
  }

  lemma RemoveRefines(c: Interned, plain: map<Id, set<string>>, t: Id, cap: string)
    requires Inv(c) && Stands(c, plain)
    ensures var (d, answer), (p, wanted) := Step(c, Remove(t, cap)), PlainStep(plain, Remove(t, cap));
      Inv(d) && Stands(d, p) && answer == wanted
  {
    var h, a := Lookup(c.names, cap), At(c.sets, t);
    assert InPool(a, c.names) && At(plain, t) == NamesOf(a, c.names);
    NamesByHandle(a, c.names, cap);
    hide Distinct, NamesOf, Lookup;
    if h != 0 {
      OneName(c.names, cap);
      SetOps(a, {h}, c.names);
      PutRefines(c, plain, t, a - {h}, At(plain, t) - {cap});
    } else {
      assert At(plain, t) - {cap} == At(plain, t);
      hide InPool;
    }
  }

  function Run(c: Interned, ops: seq<Op>): (Interned, seq<Option<bool>>)
    decreases |ops|
  {
    if ops == [] then (c, [])
    else
      var (d, answer) := Step(c, ops[0]);
      var (e, answers) := Run(d, ops[1..]);
      (e, [answer] + answers)
  }

  function PlainRun(c: map<Id, set<string>>, ops: seq<Op>): (map<Id, set<string>>, seq<Option<bool>>)
    decreases |ops|
  {
    if ops == [] then (c, [])
    else
      var (d, answer) := PlainStep(c, ops[0]);
      var (e, answers) := PlainRun(d, ops[1..]);
      (e, [answer] + answers)
  }

  /** For every sequence of operations on any number of sets sharing the pool, interned sets refine sets of strings. */
  lemma {:induction false} InternedRefinesPlain(c: Interned, plain: map<Id, set<string>>, ops: seq<Op>)
    requires Inv(c) && Stands(c, plain)
    ensures var (d, answers), (p, wanted) := Run(c, ops), PlainRun(plain, ops); Inv(d) && Stands(d, p) && answers == wanted
    decreases |ops|
  {
    hide Inv, Step, PlainStep;
    if ops != [] {
      StepRefines(c, plain, ops[0]);
      InternedRefinesPlain(Step(c, ops[0]).0, PlainStep(plain, ops[0]).0, ops[1..]);
    }
  }

  // ----- discovery replies -----

  /** A child of the query node. */
  datatype Child = Identity(name: Option<string>) | Feature(ns: Option<string>) | Other(tag: string)

  const GABBLE_PREFIX := "Telepathy Gabble 0.7."

  /** `omits_content_creators`; `max` is LONG_MAX. */
  function OmitsContentCreators(name: Option<string>, max: nat): bool {
    if name.None? || !(GABBLE_PREFIX <= name.value) then false
    else
      var p := Strtol(name.value[|GABBLE_PREFIX|..], max);
      p.rest == "" && 16 <= ToInt32(p.value) < 29
  }

  function DecodeChild(caps: set<string>, c: Child, max: nat): set<string> {
    match c
    case Identity(name) => if OmitsContentCreators(name, max) then caps + {QUIRK_OMITS_CONTENT_CREATORS} else caps
    case Feature(ns) => if ns.None? || IsQuirk(ns.value) then caps else caps + {ns.value}
    case Other(_) => caps
  }

  /** `gabble_capability_set_new_from_stanza`. */
  function Decode(children: seq<Child>, max: nat): set<string> {
    if children == [] then {} else DecodeChild(Decode(children[..|children| - 1], max), children[|children| - 1], max)
  }

  /** `caps_req_stanza_callback`: one identity, the features handed out by the set, then data forms. */
  function Encode(package: string, features: seq<string>, forms: seq<string>): seq<Child> {
    [Identity(Some(package))] + seq(|features|, i requires 0 <= i < |features| => Feature(Some(features[i])))
    + seq(|forms|, i requires 0 <= i < |forms| => Other(forms[i]))
  }

  /** What a reply says, child by child. */
  lemma {:induction false} DecodeHas(children: seq<Child>, max: nat, s: string)
    ensures s in Decode(children, max) <==>
      (!IsQuirk(s) && Feature(Some(s)) in children) || (s == QUIRK_OMITS_CONTENT_CREATORS && SomeOmits(children, max))
  {
    if children != [] {
      var c := children[|children| - 1];
      DecodeHas(children[..|children| - 1], max, s);
      assert children == children[..|children| - 1] + [c];
      assert c.Identity? && OmitsContentCreators(c.name, max) ==> SomeOmits(children, max);
      assert IsQuirk(QUIRK_OMITS_CONTENT_CREATORS);
    }
  }

  ghost predicate SomeOmits(children: seq<Child>, max: nat) {
    exists c :: c in children && c.Identity? && OmitsContentCreators(c.name, max)
  }

  /** No reply whatever brings in a quirk, but for omits-content-creators, there if and only if some identity is that of a
      Gabble which omits them. */
  lemma QuirksFromTheWire(children: seq<Child>, max: nat, s: string)
    requires IsQuirk(s)
    ensures s in Decode(children, max) <==> s == QUIRK_OMITS_CONTENT_CREATORS && SomeOmits(children, max)
  {
    DecodeHas(children, max, s);
  }

  /** Printed version numbers are recognised from 16 to 28, and from there on every 2^32, as far as a long goes. */
  lemma OmitsIff(n: nat, max: nat)
    requires max >= UINT32 / 2 - 1
    ensures OmitsContentCreators(Some(GABBLE_PREFIX + PrintNat(n)), max) <==> 16 <= ToInt32(if n > max then max else n) < 29
    ensures n < UINT32 / 2 ==> (OmitsContentCreators(Some(GABBLE_PREFIX + PrintNat(n)), max) <==> 16 <= n < 29)
  {
    ParsePrinted(n, max);
    OmitsBySuffix(PrintNat(n), max);
    hide PrintNat, Strtol, OmitsContentCreators;
    if n < UINT32 / 2 {
    }
  }

  lemma OmitsBySuffix(suffix: string, max: nat)
    ensures OmitsContentCreators(Some(GABBLE_PREFIX + suffix), max) <==>
      Strtol(suffix, max).rest == "" && 16 <= ToInt32(Strtol(suffix, max).value) < 29
  {
    hide Strtol, ToInt32;
    assert (GABBLE_PREFIX + suffix)[|GABBLE_PREFIX|..] == suffix;
  }

  /** Decoding the reply that a set is sent as gives back the set, less its quirks. */
  lemma DecodeEncode(caps: set<string>, package: string, features: seq<string>, forms: seq<string>, max: nat)
    requires forall s :: s in features <==> s in caps && !IsQuirk(s)
    requires !(GABBLE_PREFIX <= package)
    ensures Decode(Encode(package, features, forms), max) == set s | s in caps && !IsQuirk(s)
  {
    var children := Encode(package, features, forms);
    hide OmitsContentCreators, Encode, Decode;
    forall s ensures s in Decode(children, max) <==> s in features || (s == QUIRK_OMITS_CONTENT_CREATORS && SomeOmits(children, max)) {
      DecodeHas(children, max, s);
      EncodeHas(package, features, forms, s);
    }
    assert !SomeOmits(children, max) by { EncodeOmits(package, features, forms, max); }
  }

  lemma EncodeHas(package: string, features: seq<string>, forms: seq<string>, s: string)
    ensures Feature(Some(s)) in Encode(package, features, forms) <==> s in features
  {
    var children := Encode(package, features, forms);
    if s in features {
      var i :| 0 <= i < |features| && features[i] == s;
      assert children[i + 1] == Feature(Some(s));
    }
  }

  lemma EncodeOmits(package: string, features: seq<string>, forms: seq<string>, max: nat)
    requires !(GABBLE_PREFIX <= package)
    ensures !SomeOmits(Encode(package, features, forms), max)
  {
    hide Strtol;
    forall c | c in Encode(package, features, forms) && c.Identity? ensures c == Identity(Some(package)) {
    }
  }

  // ----- as the source runs it -----

  class StringPool {
    var names: seq<string>

    ghost predicate Valid()
      reads this
    {
      Distinct(names)
    }

    constructor ()
      ensures Valid() && names == []
    {
      names := [];
    }

    method Ensure(s: string) returns (h: Handle)
      requires Valid()
      modifies this`names
      ensures Valid() && names == Intern(old(names), s) && h == Lookup(names, s) && h != 0 && old(names) <= names
    {
      InternKeeps(names, s);
      if Lookup(names, s) == 0 {
        names := names + [s];
      }
      h := Lookup(names, s);
    }
  }

  class CapabilitySet {
    const pool: StringPool
    var handles: set<Handle>

    ghost predicate Valid()
      reads this, pool
    {
      pool.Valid() && InPool(handles, pool.names)
    }

    ghost function Names(): set<string>
      requires Valid()
      reads this, pool
    {
      NamesOf(handles, pool.names)
    }

    constructor (pool: StringPool)
      requires pool.Valid()
      ensures this.pool == pool && Valid() && handles == {} && Names() == {}
    {
      this.pool := pool;
      handles := {};
    }

    method Add(cap: string)
      requires Valid()
      modifies this`handles, pool`names
      ensures Valid() && pool.names == Intern(old(pool.names), cap) && old(pool.names) <= pool.names
      ensures handles == old(handles) + {Lookup(pool.names, cap)} && Names() == old(Names()) + {cap}
    {
      PoolGrows(handles, pool.names, Intern(pool.names, cap));
      var handle := pool.Ensure(cap);
      SetOps(handles, {handle}, pool.names);
      OneName(pool.names, cap);
      handles := handles + {handle};
    }

    method Remove(cap: string) returns (removed: bool)
      requires Valid()
      modifies this`handles
      ensures Valid() && Names() == old(Names()) - {cap} && removed == (cap in old(Names()))
    {
      var handle := Lookup(pool.names, cap);
      NamesByHandle(handles, pool.names, cap);
      if handle == 0 {
        return false;
      }
      SetOps(handles, {handle}, pool.names);
      OneName(pool.names, cap);
      removed := handle in handles;
      handles := handles - {handle};
    }

    method Update(source: CapabilitySet)
      requires Valid() && source.Valid() && source.pool == pool
      modifies this`handles
      ensures Valid() && handles == old(handles) + old(source.handles) && Names() == old(Names()) + old(source.Names())
    {
      SetOps(handles, source.handles, pool.names);
      handles := handles + source.handles;
    }

    /** Collect what is to go, then delete it. */
    method Intersect(source: CapabilitySet)
      requires Valid() && source.Valid() && source.pool == pool
      modifies this`handles
      ensures Valid() && handles == old(handles) * old(source.handles) && Names() == old(Names()) * old(source.Names())
    {
      SetOps(handles, source.handles, pool.names);
      if this == source {
        return;
      }
      var deleted := [];
      var remaining := handles;
      while remaining != {}
        invariant remaining <= handles
        invariant forall h :: h in deleted <==> h in handles && h !in remaining && h !in source.handles
      {
        var handle :| handle in remaining;
        if handle !in source.handles {
          deleted := [handle] + deleted;
        }
        remaining := remaining - {handle};
      }
      ghost var all := deleted;
      while deleted != []
        invariant handles <= old(handles) && forall h :: h in old(handles) && h !in handles ==> h in all
        invariant forall h :: h in all && h in handles ==> h in deleted
        invariant forall h :: h in deleted ==> h in all
        invariant source.handles == old(source.handles)
        decreases |deleted|
      {
        assert deleted == [deleted[0]] + deleted[1..];
        handles := handles - {deleted[0]};
        deleted := deleted[1..];
      }
    }

    method Exclude(removed: CapabilitySet)
      requires Valid() && removed.Valid() && removed.pool == pool
      modifies this`handles
      ensures Valid() && handles == old(handles) - old(removed.handles) && Names() == old(Names()) - old(removed.Names())
    {
      SetOps(handles, removed.handles, pool.names);
      if this == removed {
        Clear();
        return;
      }
      var remaining := removed.handles;
      while remaining != {}
        invariant remaining <= removed.handles && removed.handles == old(removed.handles)
        invariant handles == old(handles) - (removed.handles - remaining)
      {
        var handle :| handle in remaining;
        handles := handles - {handle};
        remaining := remaining - {handle};
      }
    }

    method Clear()
      requires Valid()
      modifies this`handles
      ensures Valid() && handles == {} && Names() == {}
    {
      handles := {};
    }

    method Has(cap: string) returns (has: bool)
      requires Valid()
      ensures has == (cap in Names())
    {
      var handle := Lookup(pool.names, cap);
      NamesByHandle(handles, pool.names, cap);
      if handle == 0 {
        return false;
      }
      has := handle in handles;
    }

    method HasOne(alternatives: CapabilitySet) returns (has: bool)
      requires Valid() && alternatives.Valid() && alternatives.pool == pool
      ensures has == (Names() * alternatives.Names() != {})
    {
      SetTests(handles, alternatives.handles, pool.names);
      var remaining := alternatives.handles;
      while remaining != {}
        invariant remaining <= alternatives.handles && handles !! alternatives.handles - remaining
      {
        var element :| element in remaining;
        if element in handles {
          assert element in handles * alternatives.handles;
          return true;
        }
        remaining := remaining - {element};
      }
      has := false;
    }

    method AtLeast(query: CapabilitySet) returns (all: bool)
      requires Valid() && query.Valid() && query.pool == pool
      ensures all == (query.Names() <= Names())
    {
      SetTests(handles, query.handles, pool.names);
      var remaining := query.handles;
      while remaining != {}
        invariant remaining <= query.handles && query.handles - remaining <= handles
      {
        var element :| element in remaining;
        if element !in handles {
          return false;
        }
        remaining := remaining - {element};
      }
      all := true;
    }

    method Equals(other: CapabilitySet) returns (equal: bool)
      requires Valid() && other.Valid() && other.pool == pool
      ensures equal == (Names() == other.Names())
    {
      SetTests(handles, other.handles, pool.names);
      equal := handles == other.handles;
    }

    /** The features handed out one by one: each of the set once, but no quirks. */
    method Features() returns (features: seq<string>)
      requires Valid()
      ensures forall s :: s in features <==> s in Names() && !IsQuirk(s)
      ensures forall i, j :: 0 <= i < j < |features| ==> features[i] != features[j]
    {
      hide Distinct, NamesOf, Lookup;
      features := [];
      assert handles - handles == {};
      NoNames(pool.names);
      var remaining := handles;
      while remaining != {}
        invariant remaining <= handles
        invariant forall s :: s in features <==> !IsQuirk(s) && s in NamesOf(handles - remaining, pool.names)
        invariant forall i, j :: 0 <= i < j < |features| ==> features[i] != features[j]
      {
        var element :| element in remaining;
        var name := pool.names[element - 1];
        ghost var done := handles - remaining;
        LookupAt(pool.names, element);
        NamesByHandle(done, pool.names, name);
        OneName(pool.names, name);
        SetOps(done, {element}, pool.names);
        remaining := remaining - {element};
        assert handles - remaining == done + {element};
        if !IsQuirk(name) {
          features := features + [name];
        }
      }
      assert handles - remaining == handles;
    }

    /** One child of the stanza. */
    method ReadChild(child: Child, max: nat)
      requires Valid()
      modifies this`handles, pool`names
      ensures Valid() && old(pool.names) <= pool.names && Names() == DecodeChild(old(Names()), child, max)
    {
      hide Distinct, InPool, NamesOf, Lookup, Intern;
      match child
      case Identity(name) =>
        if OmitsContentCreators(name, max) {
          Add(QUIRK_OMITS_CONTENT_CREATORS);
        }
      case Feature(ns) =>
        if ns.Some? && !IsQuirk(ns.value) {
          Add(ns.value);
        }
      case Other(_) =>
    }

    /** `gabble_capability_set_new_from_stanza`, into a new set. */
    method ReadStanza(children: seq<Child>, max: nat)
      requires Valid() && handles == {}
      modifies this`handles, pool`names
      ensures Valid() && old(pool.names) <= pool.names && Names() == Decode(children, max)
    {
      NoNames(pool.names);
      hide Distinct, InPool, NamesOf, DecodeChild;
      for i := 0 to |children|
        invariant Valid() && old(pool.names) <= pool.names && Names() == Decode(children[..i], max)
      {
        assert children[..i + 1][..i] == children[..i];
        ReadChild(children[i], max);
      }
      assert children[..|children|] == children;
    }
  }
}
