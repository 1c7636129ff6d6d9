/** The OLPC key in the TXT record of a presence service: split into parts when announced, changed part by part when it
    is set again, and put together by whoever resolves the service. */
module OlpcKey {
  import opened Collections
  import opened CStrings

  type Bytes = seq<bv8>
  type Txt = map<string, Bytes>

  const KEY_SEGMENT_SIZE: nat := 200

  function PartName(i: nat): string { "olpc-key-part" + PrintNat(i) }

  function Part(txt: Txt, i: nat): Option<Bytes> { Get(txt, PartName(i)) }

  // ----- splitting and joining -----

  function Step(key: Bytes): nat { if |key| < KEY_SEGMENT_SIZE then |key| else KEY_SEGMENT_SIZE }

  /** The loop of `create_txt_record` and of `salut_avahi_self_set_olpc_properties`, from part `i` on. */
  function WriteParts(txt: Txt, key: Bytes, i: nat): Txt
    decreases |key|
  {
    if key == [] then txt else WriteParts(txt[PartName(i) := key[..Step(key)]], key[Step(key)..], i + 1)
  }

  function RemoveParts(txt: Txt, i: nat, end: nat): Txt
    decreases end - i
  {
    if i >= end then txt else RemoveParts(txt - {PartName(i)}, i + 1, end)
  }

  /** How many parts a key takes. */
  function Count(key: Bytes): nat { (|key| + KEY_SEGMENT_SIZE - 1) / KEY_SEGMENT_SIZE }

  /** The same, as computed on a `guint` length. */
  function ToRemove(stored: Bytes): nat { ToUint32(|stored| + KEY_SEGMENT_SIZE - 1) / KEY_SEGMENT_SIZE }

  /** `salut_avahi_self_set_olpc_properties` while `stored` is the key on record; no key is like an empty one. */
  function Publish(txt: Txt, key: Bytes, stored: Bytes): Txt {
    RemoveParts(WriteParts(txt, key, 0), Count(key), ToRemove(stored))
  }

  /** The do-while loop that puts a key together, from part `i` on. */
  function Join(txt: Txt, i: nat): Bytes
    requires forall j: nat :: j < i ==> PartName(j) in txt
    decreases |txt| - i
  {
    PartsFit(txt, i);
    if PartName(i) in txt then PartsFit(txt, i + 1); txt[PartName(i)] + Join(txt, i + 1) else []
  }

  /** The key a resolved record sets; without a first part the contact keeps its key. */
  function KeyIn(txt: Txt): Option<Bytes> {
    if PartName(0) in txt then Some(Join(txt, 0)) else None
  }

  lemma NamesDiffer(i: nat, j: nat)
    requires PartName(i) == PartName(j)
    ensures i == j
  {
    var p := |"olpc-key-part"|;
    assert PartName(i)[p..] == PrintNat(i) && PartName(j)[p..] == PrintNat(j);
    PrintInjective(i, j);
  }

  /** Part names are distinct, so a record has at least as many entries as parts. */
  lemma {:induction false} PartsFit(txt: Txt, i: nat)
    requires forall j: nat :: j < i ==> PartName(j) in txt
    ensures i <= |txt|
    decreases i
  {
    if i > 0 {
      var rest := txt - {PartName(i - 1)};
      forall j: nat | j < i - 1 ensures PartName(j) in rest {
        if PartName(j) == PartName(i - 1) {
          NamesDiffer(j, i - 1);
        }
      }
      PartsFit(rest, i - 1);
      Shrinks(txt, PartName(i - 1));
    }
  }

  // ----- what the parts are -----

  function Segment(key: Bytes, i: nat): Bytes
    requires i < Count(key)
  {
    key[KEY_SEGMENT_SIZE * i..if KEY_SEGMENT_SIZE * (i + 1) < |key| then KEY_SEGMENT_SIZE * (i + 1) else |key|]
  }

  /** The record has exactly the parts of `key`. */
  ghost predicate Holds(txt: Txt, key: Bytes) {
    forall i: nat :: Part(txt, i) == if i < Count(key) then Some(Segment(key, i)) else None
  }

  /** The record has the parts of `key`, and after them those that `left` has more. */
  ghost predicate Mixed(txt: Txt, key: Bytes, left: Bytes) {
    forall i: nat :: Part(txt, i) ==
      if i < Count(key) then Some(Segment(key, i)) else if i < Count(left) then Some(Segment(left, i)) else None
  }

  /** The first segment of a key, and those of the rest. */
  lemma SegmentsStep(key: Bytes)
    requires key != []
    ensures var s := Step(key);
      && Count(key) == Count(key[s..]) + 1 && Segment(key, 0) == key[..s]
      && forall j: nat :: 0 < j < Count(key) ==> Segment(key, j) == Segment(key[s..], j - 1)
  {
    var s := Step(key);
    forall j: nat | 0 < j < Count(key) ensures Segment(key, j) == Segment(key[s..], j - 1) {
      var a := KEY_SEGMENT_SIZE * j;
      var b := if a + KEY_SEGMENT_SIZE < |key| then a + KEY_SEGMENT_SIZE else |key|;
      assert s == KEY_SEGMENT_SIZE && Segment(key, j) == key[a..b];
      assert key[s..][a - s..b - s] == key[a..b];
    }
  }

  lemma {:induction false} WritePartsAt(txt: Txt, key: Bytes, i: nat, j: nat)
    ensures Part(WriteParts(txt, key, i), j) ==
      if i <= j < i + Count(key) then Some(Segment(key, j - i)) else Part(txt, j)
    decreases |key|
  {
    if key == [] {
      assert Count(key) == 0;
    } else {
      SegmentsStep(key);
      assert 0 < Step(key) <= |key|;
      hide Segment, Count, PartName, Step;
      WritePartsAt(txt[PartName(i) := key[..Step(key)]], key[Step(key)..], i + 1, j);
      if PartName(i) == PartName(j) {
        NamesDiffer(i, j);
      }
    }
  }

  lemma {:induction false} RemovePartsAt(txt: Txt, i: nat, end: nat, j: nat)
    ensures Part(RemoveParts(txt, i, end), j) == if i <= j < end then None else Part(txt, j)
    decreases end - i
  {
    if i < end {
      RemovePartsAt(txt - {PartName(i)}, i + 1, end, j);
      if PartName(i) == PartName(j) {
        NamesDiffer(i, j);
      }
    }
  }

  function Drop(key: Bytes, i: nat): Bytes {
    if KEY_SEGMENT_SIZE * i <= |key| then key[KEY_SEGMENT_SIZE * i..] else []
  }

  lemma DropSegment(key: Bytes, i: nat)
    requires i < Count(key)
    ensures Drop(key, i) == Segment(key, i) + Drop(key, i + 1)
  {
  }

  lemma DropNothing(key: Bytes, i: nat)
    requires i >= Count(key)
    ensures Drop(key, i) == []
  {
  }

  lemma {:induction false} JoinMixed(txt: Txt, key: Bytes, left: Bytes, i: nat)
    requires Mixed(txt, key, left) && forall j: nat :: j < i ==> PartName(j) in txt
    ensures Join(txt, i) == Drop(key, i) + Drop(left, if i < Count(key) then Count(key) else i)
    decreases |txt| - i
  {
    hide Drop, Segment, PartName, Count;
    PartsFit(txt, i);
    assert Part(txt, i) == Get(txt, PartName(i));
    if PartName(i) in txt {
      PartsFit(txt, i + 1);
      JoinMixed(txt, key, left, i + 1);
      var n := if i + 1 < Count(key) then Count(key) else i + 1;
      if i < Count(key) {
        DropSegment(key, i);
        assert Segment(key, i) + (Drop(key, i + 1) + Drop(left, n)) == Drop(key, i) + Drop(left, n);
      } else {
        DropSegment(left, i);
        DropNothing(key, i);
        DropNothing(key, i + 1);
        assert Segment(left, i) + ([] + Drop(left, n)) == [] + Drop(left, i);
      }
    } else {
      DropNothing(key, i);
      DropNothing(left, i);
      assert [] + [] == Join(txt, i);
    }
  }

  // ----- one update -----

  /** After an update the record holds exactly the new key if and only if the new key, or the length taken for the old
      one, covers every part there was. */
  lemma PublishIff(txt: Txt, was: Bytes, key: Bytes, stored: Bytes)
    requires Holds(txt, was)
    ensures Holds(Publish(txt, key, stored), key) <==> Count(was) <= Count(key) || Count(was) <= ToRemove(stored)
  {
    PublishAt(txt, was, key, stored);
    var t := Publish(txt, key, stored);
    hide Publish, Segment, Part;
    if Count(key) < Count(was) && ToRemove(stored) < Count(was) {
      assert Part(t, Count(was) - 1).Some?;
    }
  }

  function PartAfter(was: Bytes, key: Bytes, stored: Bytes, i: nat): Option<Bytes> {
    if i < Count(key) then Some(Segment(key, i))
    else if ToRemove(stored) <= i < Count(was) then Some(Segment(was, i)) else None
  }

  lemma PublishAt(txt: Txt, was: Bytes, key: Bytes, stored: Bytes)
    requires Holds(txt, was)
    ensures forall i: nat :: Part(Publish(txt, key, stored), i) == PartAfter(was, key, stored, i)
  {
    hide Segment, Part, ToUint32;
    forall i: nat ensures Part(Publish(txt, key, stored), i) == PartAfter(was, key, stored, i) {
      WritePartsAt(txt, key, 0, i);
      RemovePartsAt(WriteParts(txt, key, 0), Count(key), ToRemove(stored), i);
      assert Part(txt, i) == if i < Count(was) then Some(Segment(was, i)) else None;
    }
  }

  /** A record that holds a key gives it back byte for byte, and sets none if and only if it is empty. */
  lemma HeldKeyIsRead(txt: Txt, key: Bytes)
    requires Holds(txt, key)
    ensures KeyIn(txt) == if key == [] then None else Some(key)
  {
    assert Part(txt, 0) == Get(txt, PartName(0));
    assert Mixed(txt, key, []);
    if key != [] {
      JoinMixed(txt, key, [], 0);
      assert Drop(key, 0) == key && Drop([], Count(key)) == [] && key + [] == key;
    }
  }

  /** The round trip of one update, when the stored key is the one last published. */
  lemma UpdateRoundTrip(txt: Txt, was: Bytes, key: Bytes)
    requires Holds(txt, was) && |was| + KEY_SEGMENT_SIZE <= UINT32
    ensures Holds(Publish(txt, key, was), key)
    ensures KeyIn(Publish(txt, key, was)) == if key == [] then None else Some(key)
  {
    PublishIff(txt, was, key, was);
    HeldKeyIsRead(Publish(txt, key, was), key);
  }

  /** The first announcement. */
  lemma AnnounceRoundTrip(txt: Txt, key: Bytes)
    requires Holds(txt, [])
    ensures Holds(WriteParts(txt, key, 0), key)
    ensures KeyIn(WriteParts(txt, key, 0)) == if key == [] then None else Some(key)
  {
    hide Segment, Part;
    forall i: nat ensures Part(WriteParts(txt, key, 0), i) == if i < Count(key) then Some(Segment(key, i)) else None {
      WritePartsAt(txt, key, 0, i);
      assert Part(txt, i) == None;
    }
    HeldKeyIsRead(WriteParts(txt, key, 0), key);
  }

  /** `salut_self_set_olpc_properties` stores the new key first, so the old length is taken from the new key: the update
      is right if and only if it has no fewer parts than before; otherwise the reader gets the new key followed by what
      is left of the old one. */
  lemma StoredFirstIff(txt: Txt, was: Bytes, key: Bytes)
    requires Holds(txt, was) && |key| + KEY_SEGMENT_SIZE <= UINT32
    ensures Holds(Publish(txt, key, key), key) <==> Count(was) <= Count(key)
    ensures Count(key) < Count(was) ==> KeyIn(Publish(txt, key, key)) == Some(key + was[KEY_SEGMENT_SIZE * Count(key)..])
  {
    PublishIff(txt, was, key, key);
    if Count(key) < Count(was) {
      var t := Publish(txt, key, key);
      PublishAt(txt, was, key, key);
      assert Mixed(t, key, was);
      assert Part(t, 0) == Get(t, PartName(0));
      JoinMixed(t, key, was, 0);
      assert key[0..] == key;
    }
  }

  /** Every `key=value` string of a part fits the 255 bytes that section 6.1 of RFC 6763 allows. */
  lemma PartFits(txt: Txt, key: Bytes, i: nat)
    requires Holds(txt, key) && |key| < UINT32 && Part(txt, i).Some?
    ensures |PartName(i)| + 1 + |Part(txt, i).value| <= 255
  {
    assert Part(txt, i) == if i < Count(key) then Some(Segment(key, i)) else None;
    assert Pow10(8) == 100_000_000;
    PrintLength(i, 8);
  }

  // ----- whole runs -----

  datatype Record = Record(txt: Txt, stored: Bytes)

  /** Updates one after the other, each with the key before as the stored one. */
  function UpdateAll(r: Record, keys: seq<Bytes>): Record
    decreases |keys|
  {
    if keys == [] then r else UpdateAll(Record(Publish(r.txt, keys[0], r.stored), keys[0]), keys[1..])
  }

  /** Updates as they come from `self.c`. */
  function SetAll(r: Record, keys: seq<Bytes>): Record
    decreases |keys|
  {
    if keys == [] then r else SetAll(Record(Publish(r.txt, keys[0], keys[0]), keys[0]), keys[1..])
  }

  function Last(first: Bytes, keys: seq<Bytes>): Bytes { if keys == [] then first else keys[|keys| - 1] }

  predicate Sized(keys: seq<Bytes>) { forall i :: 0 <= i < |keys| ==> |keys[i]| + KEY_SEGMENT_SIZE <= UINT32 }

  /** However keys grow and shrink, the record holds exactly the last one, and it is read back, if the stored key is
      always the one last published. */
  lemma {:induction false} UpdatesRoundTrip(r: Record, keys: seq<Bytes>)
    requires Holds(r.txt, r.stored) && Sized([r.stored] + keys)
    ensures var t, key := UpdateAll(r, keys), Last(r.stored, keys);
      Holds(t.txt, key) && t.stored == key && KeyIn(t.txt) == if key == [] then None else Some(key)
    decreases |keys|
  {
    if keys == [] {
      HeldKeyIsRead(r.txt, r.stored);
    } else {
      assert ([r.stored] + keys)[0] == r.stored && forall i :: 0 <= i < |keys| ==> ([r.stored] + keys)[i + 1] == keys[i];
      UpdateRoundTrip(r.txt, r.stored, keys[0]);
      hide Holds, Publish, KeyIn;
      var m := Record(Publish(r.txt, keys[0], r.stored), keys[0]);
      assert [m.stored] + keys[1..] == keys;
      UpdatesRoundTrip(m, keys[1..]);
    }
  }

  function MostParts(first: Bytes, keys: seq<Bytes>): (n: nat)
    ensures n >= Count(first) && forall i :: 0 <= i < |keys| ==> n >= Count(keys[i])
  {
    if keys == [] then Count(first)
    else var n := MostParts(first, keys[..|keys| - 1]); if Count(keys[|keys| - 1]) > n then Count(keys[|keys| - 1]) else n
  }

  /** The first `n` parts are there and no others; those of `key` first. */
  ghost predicate Prefix(txt: Txt, key: Bytes, n: nat) {
    forall i: nat :: (Part(txt, i).Some? <==> i < n) && (i < Count(key) ==> Part(txt, i) == Some(Segment(key, i)))
  }

  lemma SetKeepsPrefix(txt: Txt, was: Bytes, n: nat, key: Bytes)
    requires Prefix(txt, was, n) && |key| + KEY_SEGMENT_SIZE <= UINT32
    ensures Prefix(Publish(txt, key, key), key, if Count(key) > n then Count(key) else n)
  {
    hide Segment, Part;
    forall i: nat ensures
      var p := Part(Publish(txt, key, key), i);
      (p.Some? <==> i < Count(key) || i < n) && (i < Count(key) ==> p == Some(Segment(key, i)))
    {
      WritePartsAt(txt, key, 0, i);
      RemovePartsAt(WriteParts(txt, key, 0), Count(key), Count(key), i);
      assert Part(txt, i).Some? <==> i < n;
    }
  }

  lemma {:induction false} SetAllPrefix(r: Record, keys: seq<Bytes>)
    requires Holds(r.txt, r.stored) && Sized(keys)
    ensures Prefix(SetAll(r, keys).txt, Last(r.stored, keys), MostParts(r.stored, keys))
    decreases |keys|
  {
    if keys != [] {
      var before, key := keys[..|keys| - 1], keys[|keys| - 1];
      SetAllPrefix(r, before);
      SetAllLast(r, before, key);
      assert before + [key] == keys;
      SetKeepsPrefix(SetAll(r, before).txt, Last(r.stored, before), MostParts(r.stored, before), key);
    }
  }

  lemma {:induction false} SetAllLast(r: Record, keys: seq<Bytes>, key: Bytes)
    ensures SetAll(r, keys + [key]) == Record(Publish(SetAll(r, keys).txt, key, key), key)
    decreases |keys|
  {
    hide Publish;
    if keys == [] {
      assert [key][1..] == [] && [] + [key] == [key];
    } else {
      assert (keys + [key])[1..] == keys[1..] + [key];
      SetAllLast(Record(Publish(r.txt, keys[0], keys[0]), keys[0]), keys[1..], key);
    }
  }

  /** Set through `self.c`, a sequence of keys ends with the record holding exactly the last one if and only if no earlier
      key took more parts. */
  lemma SetsRoundTripIff(r: Record, keys: seq<Bytes>)
    requires Holds(r.txt, r.stored) && Sized(keys)
    ensures Holds(SetAll(r, keys).txt, Last(r.stored, keys)) <==> Count(Last(r.stored, keys)) == MostParts(r.stored, keys)
  {
    SetAllPrefix(r, keys);
    var t, key, n := SetAll(r, keys).txt, Last(r.stored, keys), MostParts(r.stored, keys);
    hide SetAll, MostParts, Segment, Part;
    assert Count(key) <= n by { assert keys != [] ==> key == keys[|keys| - 1]; }
    if Count(key) < n {
      assert Part(t, n - 1).Some?;
    }
  }

  // ----- any stored keys -----

  datatype Update = Update(key: Bytes, stored: Bytes)

  function PublishAll(txt: Txt, us: seq<Update>): Txt {
    if us == [] then txt
    else var u := us[|us| - 1]; Publish(PublishAll(txt, us[..|us| - 1]), u.key, u.stored)
  }

  function LastKey(first: Bytes, us: seq<Update>): Bytes { if us == [] then first else us[|us| - 1].key }

  /** One more than the number of the highest part left, counted from lengths alone: an update leaves the parts of its key,
      and older ones if they reach beyond both its key and the length it takes for the old one. */
  function Top(first: Bytes, us: seq<Update>): nat {
    if us == [] then Count(first)
    else
      var top, u := Top(first, us[..|us| - 1]), us[|us| - 1];
      if top > Count(u.key) && top > ToRemove(u.stored) then top else Count(u.key)
  }

  ghost predicate Topped(txt: Txt, key: Bytes, top: nat) {
    && Count(key) <= top && (top > Count(key) ==> Part(txt, top - 1).Some?)
    && forall i: nat :: (i >= top ==> Part(txt, i) == None) && (i < Count(key) ==> Part(txt, i) == Some(Segment(key, i)))
  }

  lemma PublishTopped(txt: Txt, was: Bytes, top: nat, key: Bytes, stored: Bytes)
    requires Topped(txt, was, top)
    ensures Topped(Publish(txt, key, stored), key, if top > Count(key) && top > ToRemove(stored) then top else Count(key))
  {
    var t := Publish(txt, key, stored);
    hide Segment, Part, Count, ToRemove;
    forall i: nat ensures Part(t, i) ==
      if i < Count(key) then Some(Segment(key, i)) else if i < ToRemove(stored) then None else Part(txt, i)
    {
      WritePartsAt(txt, key, 0, i);
      RemovePartsAt(WriteParts(txt, key, 0), Count(key), ToRemove(stored), i);
    }
    hide Publish;
    if top > 0 && Count(was) == top {
      assert Part(txt, top - 1) == Some(Segment(was, top - 1));
    }
  }

  lemma {:induction false} PublishAllTopped(txt: Txt, first: Bytes, us: seq<Update>)
    requires Holds(txt, first)
    ensures Topped(PublishAll(txt, us), LastKey(first, us), Top(first, us))
  {
    if us != [] {
      var before, u := us[..|us| - 1], us[|us| - 1];
      PublishAllTopped(txt, first, before);
      hide Topped, Publish;
      PublishTopped(PublishAll(txt, before), LastKey(first, before), Top(first, before), u.key, u.stored);
    }
  }

  /** For every sequence of updates, whatever keys are on record when they are made: the record ends with exactly the parts
      of the last key if and only if no older part is left by these counts. */
  lemma PublishesRoundTripIff(txt: Txt, first: Bytes, us: seq<Update>)
    requires Holds(txt, first)
    ensures var t, key := PublishAll(txt, us), LastKey(first, us);
      && (Holds(t, key) <==> Top(first, us) == Count(key))
      && (Holds(t, key) ==> KeyIn(t) == if key == [] then None else Some(key))
  {
    PublishAllTopped(txt, first, us);
    var t, key, top := PublishAll(txt, us), LastKey(first, us), Top(first, us);
    hide PublishAll, Top, LastKey, Segment, Part, KeyIn;
    if Holds(t, key) {
      HeldKeyIsRead(t, key);
    }
  }

  // ----- as the source runs it -----

  class AvahiSelf {
    // the TXT record of the presence service
    var txt: Txt
    // NULL is the empty key: neither has parts
    var olpcKey: Bytes

    constructor (olpcKey: Bytes)
      ensures txt == map[] && this.olpcKey == olpcKey
    {
      txt, this.olpcKey := map[], olpcKey;
    }

    /** The key loop shared by the announcement and the update. */
    method SetParts(data: Bytes) returns (i: nat)
      modifies this`txt
      ensures txt == WriteParts(old(txt), data, 0) && i == Count(data)
    {
      var key := data;
      var keyLen := |data|;
      i := 0;
      while keyLen > 0
        invariant keyLen == |key|
        invariant WriteParts(txt, key, i) == WriteParts(old(txt), data, 0) && i + Count(key) == Count(data)
      {
        var step := if keyLen < KEY_SEGMENT_SIZE then keyLen else KEY_SEGMENT_SIZE;
        assert Count(key) == Count(key[step..]) + 1;
        txt := txt[PartName(i) := key[..step]];
        key := key[step..];
        keyLen := keyLen - step;
        i := i + 1;
      }
    }

    method CreateTxtRecord()
      modifies this`txt
      ensures txt == WriteParts(old(txt), olpcKey, 0)
    {
      var _ := SetParts(olpcKey);
    }

    /** `salut_avahi_self_set_olpc_properties`. */
    method SetOlpcProperties(key: Bytes)
      modifies this`txt
      ensures txt == Publish(old(txt), key, olpcKey)
    {
      var toRemove := ToUint32(|olpcKey| + KEY_SEGMENT_SIZE - 1) / KEY_SEGMENT_SIZE;
      var i := SetParts(key);
      while i < toRemove
        invariant RemoveParts(txt, i, toRemove) == Publish(old(txt), key, olpcKey)
      {
        txt := txt - {PartName(i)};
        i := i + 1;
      }
    }

    /** `salut_self_set_olpc_properties`. */
    method SetFromConnection(key: Bytes)
      modifies this
      ensures Record(txt, olpcKey) == SetAll(old(Record(txt, olpcKey)), [key])
    {
      olpcKey := key;
      SetOlpcProperties(key);
      SetAllLast(old(Record(txt, olpcKey)), [], key);
      assert [] + [key] == [key];
    }
  }

  /** The loop of `contact_resolved_cb`. */
  method ReadKey(txt: Txt) returns (r: Option<Bytes>)
    ensures r == KeyIn(txt)
  {
    if PartName(0) !in txt {
      return None;
    }
    var key, i := txt[PartName(0)], 1;
    PartsFit(txt, 1);
    assert Join(txt, 0) == key + Join(txt, 1);
    while PartName(i) in txt
      invariant i > 0 && forall j: nat :: j < i ==> PartName(j) in txt
      invariant key + Join(txt, i) == Join(txt, 0)
      decreases |txt| - i
    {
      PartsFit(txt, i + 1);
      key := key + txt[PartName(i)];
      i := i + 1;
    }
    assert Join(txt, i) == [] && key + [] == key;
    r := Some(key);
  }
}
