/** Lua tables without metatables, as values: piccolo/src/table/raw.rs. An array part and a hash part
    together stand for one finite map from canonical keys to values other than nil. */
module Tables {
  import opened Values

  /** What the key functions need to know of floats: the 64-bit integer that one is equal to. */
  datatype KeyFloats = KeyFloats(asInteger: Float -> Option<int>, isNaN: Float -> bool)

  datatype KeyError = IsNil | IsNaN
  datatype Result<T> = Ok(value: T) | Err(error: KeyError)

  ghost predicate FloatsOk(fl: KeyFloats) {
    forall f :: fl.asInteger(f).Some? ==> IsI64(fl.asInteger(f).value) && !fl.isNaN(f)
  }

  predicate KeyOk(key: Value) {
    key.Integer? ==> IsI64(key.i)
  }

  function Canonical(fl: KeyFloats, key: Value): (r: Result<Value>)
    ensures r.Ok? ==> r.value != Nil && (r.value.Number? ==> r.value == key)
  {
    match key
    case Nil => Err(IsNil)
    case Number(f) =>
      if fl.isNaN(f) then Err(IsNaN)
      else if fl.asInteger(f).Some? then Ok(Integer(fl.asInteger(f).value))
      else Ok(key)
    case _ => Ok(key)
  }

  function ArrayIndex(fl: KeyFloats, key: Value): Option<nat> {
    var i := match key
      case Integer(i) => Some(i)
      case Number(f) => fl.asInteger(f)
      case _ => None;
    if i.Some? && i.value > 0 then Some(i.value - 1) else None
  }

  /** The longest array of 16-byte values that fits into half an address space. */
  const MAX_ENTRIES: nat := 0x0800_0000_0000_0000

  datatype Table = Table(slots: seq<Value>, hash: map<Value, Value>)

  /** The hash part holds canonical keys, none of them in the range of the array part, and no nil. */
  ghost predicate WellFormed(fl: KeyFloats, t: Table) {
    |t.slots| <= MAX_ENTRIES
    && forall k :: k in t.hash ==>
         Canonical(fl, k) == Ok(k) && KeyOk(k) && t.hash[k] != Nil
         && (k.Integer? ==> !(1 <= k.i <= |t.slots|))
  }

  predicate InArray(t: Table, k: Value) {
    k.Integer? && 1 <= k.i <= |t.slots| && t.slots[k.i - 1] != Nil
  }

  ghost function ArrayKeys(t: Table): set<Value> {
    set i | 0 <= i < |t.slots| && t.slots[i] != Nil :: Integer(i + 1)
  }

  /** The map that a table stands for. */
  ghost function View(t: Table): (m: map<Value, Value>)
    ensures forall k :: k in m <==> k in t.hash || InArray(t, k)
    ensures forall k :: k in m ==> m[k] == if InArray(t, k) then t.slots[k.i - 1] else t.hash[k]
  {
    forall k ensures k in ArrayKeys(t) <==> InArray(t, k) {
      if InArray(t, k) {
        var i := k.i - 1;
        assert t.slots[i] != Nil && k == Integer(i + 1);
      }
    }
    map k | k in t.hash.Keys + ArrayKeys(t) :: if k in ArrayKeys(t) then t.slots[k.i - 1] else t.hash[k]
  }

  /** Reading and writing the simple map. */
  ghost function Lookup(fl: KeyFloats, m: map<Value, Value>, key: Value): Value {
    match Canonical(fl, key)
    case Ok(k) => At(m, k)
    case Err(_) => Nil
  }

  ghost function Store(m: map<Value, Value>, k: Value, v: Value): map<Value, Value> {
    if v == Nil then m - {k} else m[k := v]
  }

  lemma ArrayIndexIsKey(fl: KeyFloats, key: Value)
    requires FloatsOk(fl)
    ensures ArrayIndex(fl, key).Some? ==>
              Canonical(fl, key) == Ok(Integer(ArrayIndex(fl, key).value + 1))
  {
  }

  lemma SameMap(m: map<Value, Value>, n: map<Value, Value>)
    requires forall k :: k in m <==> k in n
    requires forall k :: k in m ==> m[k] == n[k]
    ensures m == n
  {
    assert m.Keys == n.Keys;
  }

  lemma StoreInArray(t: Table, i: nat, v: Value)
    requires i < |t.slots| && Integer(i + 1) !in t.hash
    ensures View(t.(slots := t.slots[i := v])) == Store(View(t), Integer(i + 1), v)
  {
    hide View;
    var u, key := t.(slots := t.slots[i := v]), Integer(i + 1);
    forall k ensures InArray(u, k) <==> if k == key then v != Nil else InArray(t, k) {
    }
    var m, n := View(u), Store(View(t), key, v);
    forall k ensures k in m <==> k in n {
    }
    forall k | k in m ensures m[k] == n[k] {
      assert k != key && InArray(u, k) ==> u.slots[k.i - 1] == t.slots[k.i - 1];
    }
    SameMap(m, n);
  }

  lemma StoreInHash(t: Table, k: Value, v: Value)
    requires !InArray(t, k)
    ensures View(t.(hash := Store(t.hash, k, v))) == Store(View(t), k, v)
  {
    hide View;
    var u := t.(hash := Store(t.hash, k, v));
    assert forall x :: InArray(u, x) <==> InArray(t, x);
    SameMap(View(u), Store(View(t), k, v));
  }

  lemma MoveToArray(t: Table, i: nat)
    requires i < |t.slots| && t.slots[i] == Nil && Integer(i + 1) in t.hash && t.hash[Integer(i + 1)] != Nil
    ensures View(Table(t.slots[i := t.hash[Integer(i + 1)]], t.hash - {Integer(i + 1)})) == View(t)
  {
    hide View;
    var key := Integer(i + 1);
    var u := Table(t.slots[i := t.hash[key]], t.hash - {key});
    forall x ensures InArray(u, x) <==> x == key || InArray(t, x) {
    }
    forall k | k in View(u) ensures View(u)[k] == View(t)[k] {
      assert k != key && InArray(u, k) ==> u.slots[k.i - 1] == t.slots[k.i - 1];
    }
    SameMap(View(u), View(t));
  }

  lemma GrowArray(t: Table, n: nat)
    requires n >= |t.slots|
    ensures View(t.(slots := t.slots + seq(n - |t.slots|, _ => Nil))) == View(t)
  {
    var u := t.(slots := t.slots + seq(n - |t.slots|, _ => Nil));
    assert forall x :: InArray(u, x) <==> InArray(t, x);
  }

  lemma CanonicalAgain(fl: KeyFloats, key: Value)
    requires FloatsOk(fl) && KeyOk(key) && Canonical(fl, key).Ok?
    ensures Canonical(fl, Canonical(fl, key).value) == Canonical(fl, key) && KeyOk(Canonical(fl, key).value)
    ensures Canonical(fl, key).value.Integer? && Canonical(fl, key).value.i > 0 ==>
              ArrayIndex(fl, key) == Some(Canonical(fl, key).value.i - 1)
  {
  }

  /** The value that the one map has for a canonical key. */
  ghost function At(m: map<Value, Value>, k: Value): Value {
    if k in m then m[k] else Nil
  }

  /** Writing an element of the array part. */
  lemma PutSlot(fl: KeyFloats, t: Table, i: nat, v: Value)
    requires WellFormed(fl, t) && i < |t.slots|
    ensures var u := t.(slots := t.slots[i := v]);
            WellFormed(fl, u) && View(u) == Store(View(t), Integer(i + 1), v) && t.slots[i] == At(View(t), Integer(i + 1))
  {
    StoreInArray(t, i, v);
  }

  predicate InRange(t: Table, k: Value) {
    k.Integer? && 1 <= k.i <= |t.slots|
  }

  /** Writing or removing an entry of the hash part. */
  lemma PutHash(fl: KeyFloats, t: Table, k: Value, v: Value)
    requires WellFormed(fl, t) && Canonical(fl, k) == Ok(k) && KeyOk(k) && !InRange(t, k)
    ensures var u := t.(hash := Store(t.hash, k, v));
            WellFormed(fl, u) && View(u) == Store(View(t), k, v)
            && (if k in t.hash then t.hash[k] else Nil) == At(View(t), k)
  {
    StoreInHash(t, k, v);
  }

  /** A table whose array part has grown, while the keys in `keys` have not been looked at. */
  ghost predicate Migrating(fl: KeyFloats, t: Table, keys: set<Value>) {
    |t.slots| <= MAX_ENTRIES && keys <= t.hash.Keys
    && (forall k :: k in t.hash ==> Canonical(fl, k) == Ok(k) && KeyOk(k) && t.hash[k] != Nil)
    && forall k :: k in t.hash && InRange(t, k) ==> k in keys && t.slots[k.i - 1] == Nil
  }

  lemma StartMigrating(fl: KeyFloats, t: Table, n: nat)
    requires WellFormed(fl, t) && |t.slots| <= n <= MAX_ENTRIES
    ensures var u := t.(slots := t.slots + seq(n - |t.slots|, _ => Nil)); Migrating(fl, u, u.hash.Keys) && View(u) == View(t)
  {
    GrowArray(t, n);
  }

  lemma MigrateKey(fl: KeyFloats, t: Table, keys: set<Value>, k: Value)
    requires Migrating(fl, t, keys) && k in keys
    ensures var u := if InRange(t, k) then Table(t.slots[k.i - 1 := t.hash[k]], t.hash - {k}) else t;
            Migrating(fl, u, keys - {k}) && View(u) == View(t)
  {
    if InRange(t, k) {
      MoveToArray(t, k.i - 1);
    }
  }

  lemma KeyIndex(fl: KeyFloats, t: Table, keys: set<Value>, k: Value)
    requires FloatsOk(fl) && Migrating(fl, t, keys) && k in keys
    ensures k in t.hash && (ArrayIndex(fl, k).Some? && ArrayIndex(fl, k).value < |t.slots| <==> InRange(t, k))
    ensures ArrayIndex(fl, k).Some? ==> k == Integer(ArrayIndex(fl, k).value + 1)
  {
    ArrayIndexIsKey(fl, k);
  }

  lemma Migrated(fl: KeyFloats, t: Table)
    requires Migrating(fl, t, {})
    ensures WellFormed(fl, t)
  {
  }

  /** No entry above `n`: `n` is a border in the sense of section 3.4.7 of the Lua 5.4 Reference Manual. */
  ghost predicate IsBorder(m: map<Value, Value>, n: int) {
    0 <= n <= MAX_I64 && (n == 0 || Integer(n) in m) && Integer(n + 1) !in m
  }

  // Iteration: the hash part as its sequence of buckets.

  type Bucket = Option<(Value, Value)>

  datatype NextValue = Found(key: Value, value: Value) | Last | NotFound

  /** The buckets hold exactly the entries of the hash part, each once. */
  ghost predicate Holds(buckets: seq<Bucket>, hash: map<Value, Value>) {
    (forall b :: 0 <= b < |buckets| && buckets[b].Some? ==>
       buckets[b].value.0 in hash && buckets[b].value.1 == hash[buckets[b].value.0])
    && (forall b, c :: 0 <= b < c < |buckets| && buckets[b].Some? && buckets[c].Some? ==> buckets[b].value.0 != buckets[c].value.0)
    && forall k :: k in hash ==> exists b :: 0 <= b < |buckets| && buckets[b].Some? && buckets[b].value.0 == k
  }

  /** The entries of the array part and then those of the full buckets, in order. */
  function SlotEntries(slots: seq<Value>, start: nat): seq<(Value, Value)>
    requires start <= |slots|
    decreases |slots| - start
  {
    if start == |slots| then []
    else if slots[start] != Nil then [(Integer(start + 1), slots[start])] + SlotEntries(slots, start + 1)
    else SlotEntries(slots, start + 1)
  }

  function BucketEntries(buckets: seq<Bucket>, start: nat): seq<(Value, Value)>
    requires start <= |buckets|
    decreases |buckets| - start
  {
    if start == |buckets| then []
    else if buckets[start].Some? then [buckets[start].value] + BucketEntries(buckets, start + 1)
    else BucketEntries(buckets, start + 1)
  }

  function Entries(slots: seq<Value>, buckets: seq<Bucket>): seq<(Value, Value)> {
    SlotEntries(slots, 0) + BucketEntries(buckets, 0)
  }

  function FirstOf(entries: seq<(Value, Value)>): NextValue {
    if entries == [] then Last else Found(entries[0].0, entries[0].1)
  }

  // Where the entries come from.

  lemma {:induction false} SlotSuffix(slots: seq<Value>, start: nat, e: nat) returns (i: nat)
    requires start <= |slots| && e < |SlotEntries(slots, start)|
    ensures start <= i < |slots| && slots[i] != Nil && SlotEntries(slots, start)[e] == (Integer(i + 1), slots[i])
    ensures SlotEntries(slots, start)[e + 1..] == SlotEntries(slots, i + 1)
    decreases |slots| - start
  {
    if slots[start] != Nil && e == 0 {
      i := start;
    } else {
      i := SlotSuffix(slots, start + 1, if slots[start] != Nil then e - 1 else e);
    }
  }

  lemma {:induction false} BucketSuffix(buckets: seq<Bucket>, start: nat, e: nat) returns (b: nat)
    requires start <= |buckets| && e < |BucketEntries(buckets, start)|
    ensures start <= b < |buckets| && buckets[b] == Some(BucketEntries(buckets, start)[e])
    ensures BucketEntries(buckets, start)[e + 1..] == BucketEntries(buckets, b + 1)
    decreases |buckets| - start
  {
    if buckets[start].Some? && e == 0 {
      b := start;
    } else {
      b := BucketSuffix(buckets, start + 1, if buckets[start].Some? then e - 1 else e);
    }
  }

  /** What follows the entry number `e`. */
  ghost predicate Follows(t: Table, buckets: seq<Bucket>, e: nat) {
    var all := Entries(t.slots, buckets);
    e < |all|
    && var k := all[e].0;
    && k in View(t) && View(t)[k] == all[e].1
    && if InRange(t, k)
       then t.slots[k.i - 1] != Nil && all[e + 1..] == SlotEntries(t.slots, k.i) + BucketEntries(buckets, 0)
       else k in t.hash && Holds(buckets, t.hash) && all[e + 1..] == BucketEntries(buckets, BucketOf(buckets, t.hash, k) + 1)
  }

  ghost function BucketOf(buckets: seq<Bucket>, hash: map<Value, Value>, k: Value): (b: nat)
    requires Holds(buckets, hash) && k in hash
    ensures b < |buckets| && buckets[b].Some? && buckets[b].value.0 == k
  {
    var b: nat :| b < |buckets| && buckets[b].Some? && buckets[b].value.0 == k;
    b
  }

  lemma BucketIsUnique(buckets: seq<Bucket>, hash: map<Value, Value>, b: nat)
    requires Holds(buckets, hash) && b < |buckets| && buckets[b].Some?
    ensures var k := buckets[b].value.0; k in hash && hash[k] == buckets[b].value.1 && BucketOf(buckets, hash, k) == b
  {
    var c := BucketOf(buckets, hash, buckets[b].value.0);
    assert b <= c || c < b;
  }

  lemma SlotFollows(fl: KeyFloats, t: Table, buckets: seq<Bucket>, e: nat)
    requires WellFormed(fl, t) && e < |SlotEntries(t.slots, 0)|
    ensures Follows(t, buckets, e)
  {
    hide View, WellFormed;
    var all := Entries(t.slots, buckets);
    var i := SlotSuffix(t.slots, 0, e);
    assert all[e] == (Integer(i + 1), t.slots[i]) && InArray(t, all[e].0);
    assert all[e + 1..] == SlotEntries(t.slots, 0)[e + 1..] + BucketEntries(buckets, 0);
  }

  lemma BucketFollows(fl: KeyFloats, t: Table, buckets: seq<Bucket>, e: nat)
    requires WellFormed(fl, t) && Holds(buckets, t.hash) && e < |BucketEntries(buckets, 0)|
    ensures Follows(t, buckets, |SlotEntries(t.slots, 0)| + e)
  {
    hide View, Holds;
    var all, n := Entries(t.slots, buckets), |SlotEntries(t.slots, 0)|;
    var b := BucketSuffix(buckets, 0, e);
    BucketIsUnique(buckets, t.hash, b);
    assert all[n + e] == BucketEntries(buckets, 0)[e];
    assert all[n + e + 1..] == BucketEntries(buckets, 0)[e + 1..];
  }

  lemma EntryFollows(fl: KeyFloats, t: Table, buckets: seq<Bucket>, e: nat)
    requires WellFormed(fl, t) && Holds(buckets, t.hash) && e < |Entries(t.slots, buckets)|
    ensures Follows(t, buckets, e)
  {
    hide WellFormed, Holds, Follows;
    if e < |SlotEntries(t.slots, 0)| {
      SlotFollows(fl, t, buckets, e);
    } else {
      BucketFollows(fl, t, buckets, e - |SlotEntries(t.slots, 0)|);
    }
  }

  /** What `next` finds, its loops replaced by the entries they look at. */
  ghost function NextOf(fl: KeyFloats, t: Table, buckets: seq<Bucket>, key: Value): NextValue
    requires Holds(buckets, t.hash)
  {
    var index, k := ArrayIndex(fl, key), Canonical(fl, key);
    var inArray := index.Some? && index.value < |t.slots|;
    if inArray || key == Nil then
      var rest := SlotEntries(t.slots, if inArray then index.value + 1 else 0);
      if rest != [] then FirstOf(rest)
      else if inArray && t.slots[index.value] == Nil then NotFound
      else FirstOf(BucketEntries(buckets, 0))
    else if k.Ok? && k.value in t.hash then FirstOf(BucketEntries(buckets, BucketOf(buckets, t.hash, k.value) + 1))
    else NotFound
  }

  lemma NextStarts(fl: KeyFloats, t: Table, buckets: seq<Bucket>)
    requires Holds(buckets, t.hash)
    ensures NextOf(fl, t, buckets, Nil) == FirstOf(Entries(t.slots, buckets))
  {
  }

  /** From an entry, by any key that means the same, to the one behind it, and from the last one to `Last`. */
  lemma NextFollows(fl: KeyFloats, t: Table, buckets: seq<Bucket>, key: Value, e: nat)
    requires FloatsOk(fl) && WellFormed(fl, t) && KeyOk(key) && Holds(buckets, t.hash) && e < |Entries(t.slots, buckets)|
    requires Canonical(fl, key) == Ok(Entries(t.slots, buckets)[e].0)
    ensures NextOf(fl, t, buckets, key) == FirstOf(Entries(t.slots, buckets)[e + 1..])
  {
    hide WellFormed, Holds, View;
    EntryFollows(fl, t, buckets, e);
    ArrayIndexIsKey(fl, key);
    CanonicalAgain(fl, key);
  }

  /** A key without an entry is not found, unless it is the index of a nil element of the array part that
      has an element behind it. */
  lemma NextNotFound(fl: KeyFloats, t: Table, buckets: seq<Bucket>, key: Value)
    requires FloatsOk(fl) && WellFormed(fl, t) && KeyOk(key) && Holds(buckets, t.hash) && key != Nil
    requires Canonical(fl, key).Ok? ==> Canonical(fl, key).value !in View(t)
    ensures NextOf(fl, t, buckets, key) == NotFound
            <==> !(ArrayIndex(fl, key).Some? && ArrayIndex(fl, key).value < |t.slots|
                   && SlotEntries(t.slots, ArrayIndex(fl, key).value + 1) != [])
  {
    ArrayIndexIsKey(fl, key);
  }

  // All entries are visited.

  /** Following `next` from nil for `n` steps. */
  ghost function Visit(fl: KeyFloats, t: Table, buckets: seq<Bucket>, n: nat): (key: Option<Value>)
    requires Holds(buckets, t.hash)
  {
    if n == 0 then Some(Nil)
    else
      var before := Visit(fl, t, buckets, n - 1);
      if before.None? then None
      else match NextOf(fl, t, buckets, before.value)
        case Found(k, _) => Some(k)
        case _ => None
  }

  lemma EntriesAreCanonical(fl: KeyFloats, t: Table, buckets: seq<Bucket>, e: nat)
    requires WellFormed(fl, t) && Holds(buckets, t.hash) && e < |Entries(t.slots, buckets)|
    ensures var k := Entries(t.slots, buckets)[e].0;
            Canonical(fl, k) == Ok(k) && KeyOk(k) && k in View(t) && View(t)[k] == Entries(t.slots, buckets)[e].1
  {
    EntryFollows(fl, t, buckets, e);
  }

  /** The steps visit the entries one by one, and then there is no next one. */
  lemma {:induction false} VisitsInOrder(fl: KeyFloats, t: Table, buckets: seq<Bucket>, n: nat)
    requires FloatsOk(fl) && WellFormed(fl, t) && Holds(buckets, t.hash) && n <= |Entries(t.slots, buckets)|
    ensures var all := Entries(t.slots, buckets);
            && Visit(fl, t, buckets, n) == Some(if n == 0 then Nil else all[n - 1].0)
            && NextOf(fl, t, buckets, if n == 0 then Nil else all[n - 1].0)
               == if n < |all| then Found(all[n].0, all[n].1) else Last
  {
    hide WellFormed, Holds, View, NextOf, Entries;
    var all := Entries(t.slots, buckets);
    if n == 0 {
      NextStarts(fl, t, buckets);
    } else {
      VisitsInOrder(fl, t, buckets, n - 1);
      EntriesAreCanonical(fl, t, buckets, n - 1);
      NextFollows(fl, t, buckets, all[n - 1].0, n - 1);
    }
  }

  lemma {:induction false} SlotKeysIncrease(slots: seq<Value>, start: nat, e: nat, f: nat) returns (i: nat, j: nat)
    requires start <= |slots| && e < f < |SlotEntries(slots, start)|
    ensures i < j < |slots| && SlotEntries(slots, start)[e].0 == Integer(i + 1) && SlotEntries(slots, start)[f].0 == Integer(j + 1)
  {
    i := SlotSuffix(slots, start, e);
    assert SlotEntries(slots, start)[f] == SlotEntries(slots, start)[e + 1..][f - e - 1];
    j := SlotSuffix(slots, i + 1, f - e - 1);
  }

  lemma BucketKeysDiffer(buckets: seq<Bucket>, hash: map<Value, Value>, e: nat, f: nat)
    requires Holds(buckets, hash) && e < f < |BucketEntries(buckets, 0)|
    ensures BucketEntries(buckets, 0)[e].0 != BucketEntries(buckets, 0)[f].0
  {
    var b := BucketSuffix(buckets, 0, e);
    assert BucketEntries(buckets, 0)[f] == BucketEntries(buckets, 0)[e + 1..][f - e - 1];
    var c := BucketSuffix(buckets, b + 1, f - e - 1);
  }

  /** No key is visited twice. */
  lemma EntriesDiffer(fl: KeyFloats, t: Table, buckets: seq<Bucket>, e: nat, f: nat)
    requires WellFormed(fl, t) && Holds(buckets, t.hash) && e < f < |Entries(t.slots, buckets)|
    ensures Entries(t.slots, buckets)[e].0 != Entries(t.slots, buckets)[f].0
  {
    var n := |SlotEntries(t.slots, 0)|;
    if f < n {
      var i, j := SlotKeysIncrease(t.slots, 0, e, f);
    } else if e >= n {
      BucketKeysDiffer(buckets, t.hash, e - n, f - n);
    } else {
      var i := SlotSuffix(t.slots, 0, e);
      var b := BucketSuffix(buckets, 0, f - n);
      assert buckets[b].value.0 in t.hash;
    }
  }

  lemma {:induction false} SlotVisited(slots: seq<Value>, start: nat, i: nat)
    requires start <= i < |slots| && slots[i] != Nil
    ensures (Integer(i + 1), slots[i]) in SlotEntries(slots, start)
    decreases |slots| - start
  {
    if start < i {
      SlotVisited(slots, start + 1, i);
    }
  }

  lemma {:induction false} BucketVisited(buckets: seq<Bucket>, start: nat, b: nat)
    requires start <= b < |buckets| && buckets[b].Some?
    ensures buckets[b].value in BucketEntries(buckets, start)
    decreases |buckets| - start
  {
    if start < b {
      BucketVisited(buckets, start + 1, b);
    }
  }

  /** Every entry of the table is visited. */
  lemma EntriesComplete(fl: KeyFloats, t: Table, buckets: seq<Bucket>, k: Value)
    requires WellFormed(fl, t) && Holds(buckets, t.hash) && k in View(t)
    ensures (k, View(t)[k]) in Entries(t.slots, buckets)
  {
    if InArray(t, k) {
      SlotVisited(t.slots, 0, k.i - 1);
    } else {
      BucketVisited(buckets, 0, BucketOf(buckets, t.hash, k));
    }
  }
}
