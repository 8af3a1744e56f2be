/**
 * The `optionsKey` fingerprint: the five tracked fields of the options, each
 * passed through `?? null`, serialized together. The key is modelled as its
 * five slots; the JSON text and its parse are the identity on them.
 */
module Fingerprint {
  import opened Js

  /** A value that `?? null` leaves unchanged. */
  type Defined = v: Value | !Nullish(v) witness Bool(false)

  /** One field of the key: JSON `null`, or the field's own value. */
  datatype Slot = NullSlot | ValueSlot(value: Defined)

  datatype Key = Key(sources: Slot, autoplay: Slot, muted: Slot, poster: Slot, preload: Slot)

  const TrackedFields: set<string> := {"sources", "autoplay", "muted", "poster", "preload"}

  /** `v ?? null`. */
  function Coalesced(v: Value): Value {
    if Nullish(v) then Null else v
  }

  /** One field, `?? null`, as it is written into the key. */
  function ToSlot(v: Value): (s: Slot)
    ensures s.NullSlot? <==> Nullish(v)
  {
    if Nullish(v) then NullSlot else ValueSlot(v)
  }

  /** What `JSON.parse` gives back for a slot: `null` for an absent field, never `undefined`. */
  function Decode(s: Slot): (v: Value)
    ensures !v.Undefined?
    ensures ToSlot(v) == s
  {
    match s
    case NullSlot => Null
    case ValueSlot(x) => x
  }

  /** The slot of the key that holds the tracked field `name`. */
  function KeySlot(k: Key, name: string): Slot
    requires name in TrackedFields
  {
    if name == "sources" then k.sources
    else if name == "autoplay" then k.autoplay
    else if name == "muted" then k.muted
    else if name == "poster" then k.poster
    else k.preload
  }

  /** The fingerprint of an options value: decoding any slot gives back that field `?? null`. */
  function OptionsKey(o: Options): (k: Key)
    ensures forall name | name in TrackedFields :: Decode(KeySlot(k, name)) == Coalesced(Get(o, name))
  {
    Key(ToSlot(Get(o, "sources")), ToSlot(Get(o, "autoplay")), ToSlot(Get(o, "muted")),
        ToSlot(Get(o, "poster")), ToSlot(Get(o, "preload")))
  }

  /** Encoding a field and decoding it again yields the field `?? null`. */
  lemma SlotRoundTrip(v: Value)
    ensures Decode(ToSlot(v)) == Coalesced(v)
    ensures Decode(ToSlot(v)) == v <==> !v.Undefined?
  {
  }

  /** Two options have the same key exactly when they agree on every tracked field after `?? null`. */
  lemma KeyEqualIff(o1: Options, o2: Options)
    ensures OptionsKey(o1) == OptionsKey(o2) <==>
      forall name | name in TrackedFields :: Coalesced(Get(o1, name)) == Coalesced(Get(o2, name))
  {
    var k1, k2 := OptionsKey(o1), OptionsKey(o2);
    if forall name | name in TrackedFields :: Coalesced(Get(o1, name)) == Coalesced(Get(o2, name)) {
      forall name | name in TrackedFields
        ensures KeySlot(k1, name) == KeySlot(k2, name)
      {
        assert ToSlot(Decode(KeySlot(k1, name))) == ToSlot(Decode(KeySlot(k2, name)));
      }
      assert KeySlot(k1, "sources") == KeySlot(k2, "sources");
      assert KeySlot(k1, "autoplay") == KeySlot(k2, "autoplay");
      assert KeySlot(k1, "muted") == KeySlot(k2, "muted");
      assert KeySlot(k1, "poster") == KeySlot(k2, "poster");
      assert KeySlot(k1, "preload") == KeySlot(k2, "preload");
    }
  }

  /** Fields outside the tracked five never change the key. */
  lemma KeyIgnoresUntrackedFields(o1: Options, o2: Options)
    requires forall name | name in TrackedFields :: Get(o1, name) == Get(o2, name)
    ensures OptionsKey(o1) == OptionsKey(o2)
  {
    KeyEqualIff(o1, o2);
  }

  /** An absent field, an explicit `undefined` and an explicit `null` give the same key. */
  lemma AbsentUndefinedNullAgree(m: map<string, Value>, name: string)
    requires name in TrackedFields
    ensures OptionsKey(Record(m - {name})) == OptionsKey(Record(m[name := Null]))
    ensures OptionsKey(Record(m[name := Undefined])) == OptionsKey(Record(m[name := Null]))
  {
    var absent, undef, nulled := Record(m - {name}), Record(m[name := Undefined]), Record(m[name := Null]);
    forall f | f in TrackedFields
      ensures Coalesced(Get(absent, f)) == Coalesced(Get(nulled, f))
      ensures Coalesced(Get(undef, f)) == Coalesced(Get(nulled, f))
    {
      if f != name {
        assert Get(absent, f) == Get(nulled, f) == Get(undef, f);
      }
    }
    KeyEqualIff(absent, nulled);
    KeyEqualIff(undef, nulled);
  }

  /** A present value that is not nullish, `false`, `0` and `""` included, keys differently from an absent field. */
  lemma PresentDiffersFromAbsent(m: map<string, Value>, name: string, v: Value)
    requires name in TrackedFields && !Nullish(v)
    ensures OptionsKey(Record(m[name := v])) != OptionsKey(Record(m - {name}))
  {
    KeyEqualIff(Record(m[name := v]), Record(m - {name}));
    assert Coalesced(Get(Record(m[name := v]), name)) != Coalesced(Get(Record(m - {name}), name));
  }

  /** Missing options (`options` null or undefined) key like an empty object: every slot is null. */
  lemma MissingOptionsKey()
    ensures OptionsKey(Missing) == OptionsKey(Record(map[]))
    ensures OptionsKey(Missing) == Key(NullSlot, NullSlot, NullSlot, NullSlot, NullSlot)
  {
  }
}
