/** The table object of piccolo/src/table/raw.rs: array and hash part change in place, and agree with the
    one map that `Tables.View` makes of them. */
module RawTables {
  import opened Values
  import opened Tables
  import S = TableSizing

  /** The array indices of a table's integer keys. */
  ghost function Indices(m: map<Value, Value>): (r: set<nat>)
    ensures forall i: nat :: i in r <==> Integer(i + 1) in m
  {
    var r := set k | k in m && k.Integer? && k.i > 0 :: Index(k);
    forall i: nat | Integer(i + 1) in m ensures i in r {
      assert Index(Integer(i + 1)) == i;
    }
    r
  }

  function Index(k: Value): nat
    requires k.Integer? && k.i > 0
  {
    k.i - 1
  }

  /** The array part of a table that grows for a key: as long as it was, or long enough for the size that is
      chosen. */
  ghost predicate Sized(t: Table, index: Option<nat>, length: nat) {
    exists size: nat ::
      S.GrowthSize(Indices(View(t)), index, size) && if size > |t.slots| then length >= size else length == |t.slots|
  }

  class RawTable {
    const floats: KeyFloats
    var slots: seq<Value>
    var hash: map<Value, Value>

    ghost function Value(): Table
      reads this
    {
      Table(slots, hash)
    }

    ghost predicate Valid()
      reads this
    {
      FloatsOk(floats) && WellFormed(floats, Value())
    }

    constructor (fl: KeyFloats)
      requires FloatsOk(fl)
      ensures Valid() && floats == fl && View(Value()) == map[]
    {
      floats, slots, hash := fl, [], map[];
    }

    method Get(key: Values.Value) returns (v: Values.Value)
      requires Valid()
      ensures v == Lookup(floats, View(Value()), key)
    {
      ArrayIndexIsKey(floats, key);
      var index := ArrayIndex(floats, key);
      if index.Some? && index.value < |slots| {
        return slots[index.value];
      }
      var k := Canonical(floats, key);
      if k.Ok? && k.value in hash {
        return hash[k.value];
      }
      return Nil;
    }

    /** Counts the non-nil elements, the integer keys of the hash part, and the key that is set. */
    method GrowthSize(index: Option<nat>) returns (size: nat)
      requires Valid() && (index.Some? ==> index.value < MAX_I64 && index.value >= |slots|)
      ensures S.GrowthSize(Indices(View(Value())), index, size) && size <= 2 * (|slots| + |hash| + 1)
    {
      var counts, total;
      ghost var candidates, s;
      hide View, WellFormed, InArray, S.Chosen, S.Distinct, S.Counts, S.GrowthSize;
      counts, total, candidates, s := CountAll(index);
      size := S.ChooseSize(counts, total, candidates);
      S.ChosenFits(candidates, size);
      CandidatesSize(s, Value(), index, size);
    }

    method CountAll(index: Option<nat>) returns (counts: array<nat>, total: nat, ghost candidates: seq<nat>, ghost s: seq<nat>)
      requires Valid() && (index.Some? ==> index.value < MAX_I64 && index.value >= |slots|)
      ensures fresh(counts) && S.Counts(counts, total, candidates) && S.Distinct(s) && |s| <= |slots| + |hash|
      ensures candidates == if index.Some? then s + [index.value] else s
      ensures forall i: nat :: i in s <==> InArray(Value(), Integer(i + 1)) || Integer(i + 1) in hash
    {
      counts := new nat[S.BITS](_ => 0);
      total, candidates := CountSlots(counts);
      total, candidates := CountKeys(counts, total, candidates);
      s := candidates;
      if index.Some? {
        S.CountIndex(counts, index.value, total, candidates);
        total := total + 1;
        candidates := candidates + [index.value];
      }
    }

    method CountSlots(counts: array<nat>) returns (total: nat, ghost s: seq<nat>)
      requires Valid() && S.Counts(counts, 0, [])
      modifies counts
      ensures S.Counts(counts, total, s) && S.Distinct(s) && |s| <= |slots|
      ensures forall x :: x in s <==> 0 <= x < |slots| && slots[x] != Nil
    {
      total, s := 0, [];
      var i := 0;
      while i < |slots|
        invariant 0 <= i <= |slots| && S.Counts(counts, total, s) && S.Distinct(s) && |s| <= i
        invariant forall x :: x in s <==> 0 <= x < i && slots[x] != Nil
      {
        if slots[i] != Nil {
          S.CountIndex(counts, i, total, s);
          total := total + 1;
          s := s + [i];
        }
        i := i + 1;
      }
    }

    method CountKeys(counts: array<nat>, start: nat, ghost before: seq<nat>) returns (total: nat, ghost s: seq<nat>)
      requires Valid() && S.Counts(counts, start, before) && S.Distinct(before)
      requires forall x :: x in before <==> 0 <= x < |slots| && slots[x] != Nil
      modifies counts
      ensures S.Counts(counts, total, s) && S.Distinct(s) && |s| <= |before| + |hash|
      ensures forall x: nat :: x in s <==> x in before || Integer(x + 1) in hash
    {
      total, s := start, before;
      var keys := hash.Keys;
      while keys != {}
        invariant keys <= hash.Keys && |s| + |keys| <= |before| + |hash|
        invariant S.Counts(counts, total, s) && S.Distinct(s)
        invariant forall x: nat :: x in s <==> x in before || (Integer(x + 1) in hash && Integer(x + 1) !in keys)
        decreases |keys|
      {
        var k :| k in keys;
        keys := keys - {k};
        var i := ArrayIndex(floats, k);
        if i.Some? {
          ArrayIndexIsKey(floats, k);
          S.DistinctAppend(s, i.value);
          S.CountIndex(counts, i.value, total, s);
          total := total + 1;
          s := s + [i.value];
        }
      }
    }

    method Set(key: Values.Value, value: Values.Value) returns (r: Result<Values.Value>)
      requires Valid() && KeyOk(key) && 2 * (|slots| + |hash| + 1) <= MAX_ENTRIES
      modifies this
      ensures Valid()
      ensures match Canonical(floats, key)
              case Err(e) => r == Err(e) && Value() == old(Value())
              case Ok(k) => r == Ok(At(old(View(Value())), k)) && View(Value()) == Store(old(View(Value())), k, value)
      ensures |slots| == old(|slots|) || Sized(old(Value()), ArrayIndex(floats, key), |slots|)
    {
      hide View, WellFormed, Store, At, Sized;
      ArrayIndexIsKey(floats, key);
      var index := ArrayIndex(floats, key);
      if index.Some? && index.value < |slots| {
        r := SetSlot(index.value, value);
        return;
      }
      var canonical := Canonical(floats, key);
      if canonical.Err? {
        return Err(canonical.error);
      }
      var k := canonical.value;
      CanonicalAgain(floats, key);
      if value == Nil {
        r := SetHash(k, Nil);
        return;
      }
      r := Insert(index, k, value);
    }

    /** A key outside of the array part; if the hash part is full, the array part may grow first. */
    method Insert(index: Option<nat>, k: Values.Value, value: Values.Value) returns (r: Result<Values.Value>)
      requires Valid() && Canonical(floats, k) == Ok(k) && KeyOk(k) && 2 * (|slots| + |hash| + 1) <= MAX_ENTRIES
      requires match index
               case Some(i) => k == Integer(i + 1) && |slots| <= i
               case None => k.Integer? ==> k.i <= 0
      modifies this
      ensures Valid() && r == Ok(At(old(View(Value())), k)) && View(Value()) == Store(old(View(Value())), k, value)
      ensures |slots| == old(|slots|) || Sized(old(Value()), index, |slots|)
    {
      hide View, WellFormed, Store, At, Sized;
      var capacity :| capacity >= |hash|;
      if |hash| == capacity {
        Grow(index);
        if index.Some? && index.value < |slots| {
          r := SetSlot(index.value, value);
          return;
        }
      }
      r := SetHash(k, value);
    }

    method SetSlot(i: nat, value: Values.Value) returns (r: Result<Values.Value>)
      requires Valid() && i < |slots|
      modifies this`slots
      ensures Valid() && |slots| == old(|slots|) && r == Ok(At(old(View(Value())), Integer(i + 1)))
      ensures View(Value()) == Store(old(View(Value())), Integer(i + 1), value)
    {
      PutSlot(floats, Value(), i, value);
      hide View, WellFormed, Store, At;
      r := Ok(slots[i]);
      slots := slots[i := value];
    }

    method SetHash(k: Values.Value, value: Values.Value) returns (r: Result<Values.Value>)
      requires Valid() && Canonical(floats, k) == Ok(k) && KeyOk(k) && !InRange(Value(), k)
      modifies this`hash
      ensures Valid() && r == Ok(At(old(View(Value())), k))
      ensures View(Value()) == Store(old(View(Value())), k, value)
    {
      PutHash(floats, Value(), k, value);
      hide View, WellFormed, At;
      r := Ok(if k in hash then hash[k] else Nil);
      hash := if value == Nil then hash - {k} else hash[k := value];
    }

    /** Makes room: the array part grows if more than half of a larger one would be used, and takes over
        the keys that now belong to it. The table stays the same map. */
    method Grow(index: Option<nat>)
      requires Valid() && (index.Some? ==> |slots| <= index.value < MAX_I64) && 2 * (|slots| + |hash| + 1) <= MAX_ENTRIES
      modifies this
      ensures Valid() && View(Value()) == old(View(Value())) && Sized(old(Value()), index, |slots|)
    {
      hide View, WellFormed, Migrating, S.GrowthSize;
      var size := GrowthSize(index);
      if size > |slots| {
        Extend(size);
      }
    }

    method Extend(size: nat)
      requires Valid() && |slots| < size <= MAX_ENTRIES
      modifies this
      ensures Valid() && View(Value()) == old(View(Value())) && |slots| >= size
    {
      hide View, WellFormed, Migrating;
      var capacity :| size <= capacity <= MAX_ENTRIES;
      StartMigrating(floats, Value(), capacity);
      slots := slots + seq(capacity - |slots|, _ => Nil);
      Migrate();
    }

    /** Keys that the array part has room for move there from the hash part. */
    method Migrate()
      requires FloatsOk(floats) && Migrating(floats, Value(), hash.Keys)
      modifies this
      ensures Valid() && View(Value()) == old(View(Value())) && |slots| == old(|slots|)
    {
      hide View, Migrating, WellFormed;
      ghost var view := View(Value());
      var keys := hash.Keys;
      while keys != {}
        invariant |slots| == old(|slots|) && View(Value()) == view && Migrating(floats, Value(), keys)
        decreases |keys|
      {
        var k :| k in keys;
        MigrateOne(keys, k);
        keys := keys - {k};
      }
      Migrated(floats, Value());
    }

    method MigrateOne(ghost keys: set<Values.Value>, k: Values.Value)
      requires FloatsOk(floats) && Migrating(floats, Value(), keys) && k in keys
      modifies this
      ensures |slots| == old(|slots|) && View(Value()) == old(View(Value())) && Migrating(floats, Value(), keys - {k})
    {
      hide View, Migrating, FloatsOk, ArrayIndex;
      MigrateKey(floats, Value(), keys, k);
      KeyIndex(floats, Value(), keys, k);
      var i := ArrayIndex(floats, k);
      if i.Some? && i.value < |slots| {
        slots := slots[i.value := hash[k]];
        hash := hash - {k};
      }
    }

    // Length.

    /** The binary search of `length`: from an entry, or 0, below and no entry above, to a border. */
    method Border(low: nat, high: nat) returns (n: nat)
      requires Valid() && low < high <= MAX_I64 && (low == 0 || Integer(low) in View(Value())) && Integer(high) !in View(Value())
      ensures IsBorder(View(Value()), n)
    {
      var min, max := low, high;
      while max - min > 1
        invariant low <= min < max <= high
        invariant (min == 0 || Integer(min) in View(Value())) && Integer(max) !in View(Value())
      {
        var mid := min + (max - min) / 2;
        var isNil := if mid <= |slots| then slots[mid - 1] == Nil else Integer(mid) !in hash;
        if isNil {
          max := mid;
        } else {
          min := mid;
        }
      }
      n := min;
    }

    method Length() returns (n: nat)
      requires Valid()
      ensures IsBorder(View(Value()), n)
    {
      if slots != [] && slots[|slots| - 1] == Nil {
        n := Border(0, |slots|);
      } else if hash == map[] {
        n := |slots|;
      } else {
        var max := |slots| + 1;
        while Integer(max) in hash
          invariant |slots| < max <= MAX_I64
          decreases MAX_I64 - max
        {
          if max == MAX_I64 {
            return MAX_I64;
          } else if max * 2 <= MAX_I64 {
            max := max * 2;
          } else {
            max := MAX_I64;
          }
        }
        n := Border(|slots|, max);
      }
    }

    // Iteration.

    /** The first entry of the array part from `start` on. */
    method NextSlot(start: nat) returns (r: Option<NextValue>)
      requires start <= |slots|
      ensures r == if SlotEntries(slots, start) == [] then None else Some(FirstOf(SlotEntries(slots, start)))
    {
      var i := start;
      while i < |slots|
        invariant start <= i <= |slots| && SlotEntries(slots, i) == SlotEntries(slots, start)
      {
        if slots[i] != Nil {
          return Some(Found(Integer(i + 1), slots[i]));
        }
        i := i + 1;
      }
      return None;
    }

    method NextBucket(buckets: seq<Bucket>, start: nat) returns (r: NextValue)
      requires start <= |buckets|
      ensures r == FirstOf(BucketEntries(buckets, start))
    {
      var b := start;
      while b < |buckets|
        invariant start <= b <= |buckets| && BucketEntries(buckets, b) == BucketEntries(buckets, start)
      {
        if buckets[b].Some? {
          return Found(buckets[b].value.0, buckets[b].value.1);
        }
        b := b + 1;
      }
      return Last;
    }

    method Next(key: Values.Value, buckets: seq<Bucket>) returns (r: NextValue)
      requires Valid() && Holds(buckets, hash)
      ensures r == NextOf(floats, Value(), buckets, key)
    {
      var index := ArrayIndex(floats, key);
      var inArray := index.Some? && index.value < |slots|;
      if inArray || key == Nil {
        var found := NextSlot(if inArray then index.value + 1 else 0);
        if found.Some? {
          return found.value;
        }
        if inArray && slots[index.value] == Nil {
          return NotFound;
        }
        r := NextBucket(buckets, 0);
        return;
      }
      var k := Canonical(floats, key);
      if k.Ok? && k.value in hash {
        var b := FindBucket(buckets, k.value);
        r := NextBucket(buckets, b + 1);
        return;
      }
      return NotFound;
    }

    method FindBucket(buckets: seq<Bucket>, k: Values.Value) returns (b: nat)
      requires Holds(buckets, hash) && k in hash
      ensures b == BucketOf(buckets, hash, k)
    {
      b :| b < |buckets| && buckets[b].Some? && buckets[b].value.0 == k;
    }

    /** The loop of `Iter`: all entries of an unmodified table, each once. */
    method Iterate(buckets: seq<Bucket>) returns (visited: seq<(Values.Value, Values.Value)>)
      requires Valid() && Holds(buckets, hash)
      ensures visited == Entries(slots, buckets)
    {
      hide NextOf, Entries, WellFormed, Holds;
      ghost var all := Entries(slots, buckets);
      visited := [];
      var prev := Nil;
      VisitsInOrder(floats, Value(), buckets, 0);
      while true
        invariant |visited| <= |all| && visited == all[..|visited|]
        invariant prev == if visited == [] then Nil else all[|visited| - 1].0
        decreases |all| - |visited|
      {
        VisitsInOrder(floats, Value(), buckets, |visited|);
        var next := Next(prev, buckets);
        if next.Found? {
          prev := next.key;
          visited := visited + [(next.key, next.value)];
        } else {
          return;
        }
      }
    }
  }

  /** What is counted is a list of the indices in use, and the key. */
  lemma CandidatesSize(s: seq<nat>, t: Table, index: Option<nat>, size: nat)
    requires S.Distinct(s) && (forall i: nat :: i in s <==> InArray(t, Integer(i + 1)) || Integer(i + 1) in t.hash)
    requires S.Chosen(if index.Some? then s + [index.value] else s, size)
    ensures S.GrowthSize(Indices(View(t)), index, size)
  {
    ListSize(s, Indices(View(t)), index, size);
  }

  lemma ListSize(s: seq<nat>, used: set<nat>, index: Option<nat>, size: nat)
    requires S.Distinct(s) && (forall i :: i in used <==> i in s) && S.Chosen(if index.Some? then s + [index.value] else s, size)
    ensures S.GrowthSize(used, index, size)
  {
    hide S.Chosen, S.Optimal, S.Tips, S.Tipped;
    match index {
      case None => S.ChosenIsOptimal(s, used, size);
      case Some(k) =>
        if k in used {
          assert used + {k} == used;
          S.ChosenTwice(s, used, k, size);
        } else {
          S.DistinctAppend(s, k);
          S.ChosenIsOptimal(s + [k], used + {k}, size);
        }
    }
  }

  /** A hash part with room for three keys that is full. */
  function FullTable(x: Value): Table {
    Table([], map[Integer(1) := x, Integer(3) := x, Boolean(true) := x])
  }

  /** Setting its key 3 again gives it an array part of four slots or more, only two of which are used. No array part
      with more than one slot would be more than half used. */
  lemma GrowsTooFar(fl: KeyFloats, x: Value)
    requires x != Nil
    ensures var t := FullTable(x);
            WellFormed(fl, t) && |t.hash| == 3
            && (forall length :: Sized(t, Some(2), length) ==> length >= 4)
            && S.Optimal(Indices(View(t)), 1)
  {
    var t := FullTable(x);
    FullTableIs(fl, x);
    S.ThirdTips();
    hide View, S.Optimal, Indices, WellFormed, FullTable;
    forall length | Sized(t, Some(2), length) ensures length >= 4 {
      FourSlots(t, length);
    }
  }

  lemma FullTableIs(fl: KeyFloats, x: Value)
    requires x != Nil
    ensures var t := FullTable(x);
            WellFormed(fl, t) && t.slots == [] && |t.hash| == 3 && Indices(View(t)) == {0, 2}
  {
    FullIndices(x);
    FullKeys(fl, x);
    hide Indices, View, WellFormed;
  }

  lemma FullKeys(fl: KeyFloats, x: Value)
    requires x != Nil
    ensures WellFormed(fl, FullTable(x)) && |FullTable(x).hash| == 3
  {
    var hash := FullTable(x).hash;
    assert hash.Keys == {Integer(1), Integer(3), Boolean(true)} && |hash| == |hash.Keys|;
  }

  lemma FullIndices(x: Value)
    ensures Indices(View(FullTable(x))) == {0, 2}
  {
    var used := Indices(View(FullTable(x)));
    forall i ensures i in used <==> i in {0, 2} {
      assert Integer(i + 1) in View(FullTable(x)) <==> i == 0 || i == 2;
    }
  }

  lemma FourSlots(t: Table, length: nat)
    requires Indices(View(t)) == {0, 2} && t.slots == [] && Sized(t, Some(2), length)
    ensures length >= 4
  {
    hide View, S.GrowthSize;
    var size: nat :| S.GrowthSize(Indices(View(t)), Some(2), size) && if size > |t.slots| then length >= size else length == |t.slots|;
    FourChosen();
    S.OneGrowthSize({0, 2}, Some(2), size, 4);
  }

  lemma FourChosen()
    ensures S.GrowthSize({0, 2}, Some(2), 4)
  {
    S.ThirdTips();
  }
}
