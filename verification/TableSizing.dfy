/** The size that a table's array part grows to: piccolo/src/table/raw.rs:122-167 and :463-465. */
module TableSizing {
  import opened Values

  const BITS := 64

  function Pow2(n: nat): (p: nat)
    ensures p > 0
  {
    if n == 0 then 1 else 2 * Pow2(n - 1)
  }

  lemma {:induction false} Pow2Increases(a: nat, b: nat)
    requires a < b
    ensures Pow2(a) < Pow2(b)
  {
    if a + 1 < b {
      Pow2Increases(a, b - 1);
    }
  }

  lemma Pow2Orders(a: nat, b: nat)
    ensures Pow2(a) < Pow2(b) <==> a < b
  {
    if a < b {
      Pow2Increases(a, b);
    } else if b < a {
      Pow2Increases(b, a);
    }
  }

  function HighestBit(i: nat): (b: nat)
    ensures i < Pow2(b) && (b > 0 ==> Pow2(b - 1) <= i)
  {
    if i == 0 then 0 else 1 + HighestBit(i / 2)
  }

  lemma HighestBitBelow(i: nat, b: nat)
    ensures HighestBit(i) <= b <==> i < Pow2(b)
  {
    if HighestBit(i) <= b {
      Pow2Orders(b, HighestBit(i));
    } else {
      Pow2Orders(b, HighestBit(i) - 1);
    }
  }

  // Candidates for the array part are listed by their array index.

  function CountBelow(s: seq<nat>, n: nat): nat {
    if s == [] then 0 else (if s[0] < n then 1 else 0) + CountBelow(s[1..], n)
  }

  function CountBit(s: seq<nat>, b: nat): nat {
    if s == [] then 0 else (if HighestBit(s[0]) == b then 1 else 0) + CountBit(s[1..], b)
  }

  ghost predicate Distinct(s: seq<nat>) {
    forall i, j :: 0 <= i < j < |s| ==> s[i] != s[j]
  }

  lemma DistinctAppend(s: seq<nat>, x: nat)
    requires Distinct(s) && x !in s
    ensures Distinct(s + [x])
  {
    assert forall i :: 0 <= i < |s| ==> s[i] in s;
  }

  lemma {:induction false} CountBelowAppend(s: seq<nat>, t: seq<nat>, n: nat)
    ensures CountBelow(s + t, n) == CountBelow(s, n) + CountBelow(t, n)
  {
    if s == [] {
      assert s + t == t;
    } else {
      assert (s + t)[1..] == s[1..] + t;
      CountBelowAppend(s[1..], t, n);
    }
  }

  lemma {:induction false} CountBitAppend(s: seq<nat>, t: seq<nat>, b: nat)
    ensures CountBit(s + t, b) == CountBit(s, b) + CountBit(t, b)
  {
    if s == [] {
      assert s + t == t;
    } else {
      assert (s + t)[1..] == s[1..] + t;
      CountBitAppend(s[1..], t, b);
    }
  }

  /** The candidates below a power of two are those with a low enough highest bit. */
  lemma {:induction false} CountBelowBits(s: seq<nat>, i: nat)
    ensures CountBelow(s, Pow2(i)) == CountBit(s, i) + if i == 0 then 0 else CountBelow(s, Pow2(i - 1))
  {
    if s != [] {
      HighestBitBelow(s[0], i);
      if i > 0 {
        HighestBitBelow(s[0], i - 1);
      }
      CountBelowBits(s[1..], i);
    }
  }

  lemma {:induction false} CountAtMost(s: seq<nat>, n: nat)
    ensures CountBelow(s, n) <= |s|
  {
    if s != [] {
      CountAtMost(s[1..], n);
    }
  }

  /** No more candidates than slots, when all are different. */
  lemma {:induction false} DistinctFit(s: seq<nat>, n: nat)
    requires Distinct(s)
    ensures CountBelow(s, n) <= n
    decreases n
  {
    if n == 0 {
      NoneBelowZero(s);
    } else {
      DistinctFit(s, n - 1);
      OneMore(s, n - 1);
    }
  }

  lemma {:induction false} NoneBelowZero(s: seq<nat>)
    ensures CountBelow(s, 0) == 0
  {
    if s != [] {
      NoneBelowZero(s[1..]);
    }
  }

  lemma {:induction false} OneMore(s: seq<nat>, n: nat)
    requires Distinct(s)
    ensures CountBelow(s, n + 1) == CountBelow(s, n) + if n in s then 1 else 0
  {
    if s != [] {
      OneMore(s[1..], n);
      assert s == [s[0]] + s[1..];
    }
  }

  /** What the loop computes: the largest power of two that the candidates more than half fill and whose upper
      half has one of them, or zero. */
  ghost predicate Chosen(s: seq<nat>, size: nat) {
    (size == 0 || exists i :: 0 <= i < BITS && size == Pow2(i) && CountBit(s, i) > 0 && Fills(s, i))
    && forall i :: 0 <= i < BITS && CountBit(s, i) > 0 && Fills(s, i) ==> Pow2(i) <= size
  }

  predicate Fills(s: seq<nat>, i: nat) {
    2 * CountBelow(s, Pow2(i)) > Pow2(i)
  }

  // The size that an array for a set of indices should have.

  function Below(used: set<nat>, n: nat): nat {
    |set x | x in used && x < n|
  }

  predicate MoreThanHalf(used: set<nat>, i: nat) {
    2 * Below(used, Pow2(i)) > Pow2(i)
  }

  /** The largest power of two with more than half of its slots in use, or zero. */
  ghost predicate Optimal(used: set<nat>, size: nat) {
    (size == 0 || exists i :: 0 <= i < BITS && size == Pow2(i) && MoreThanHalf(used, i))
    && forall i :: 0 <= i < BITS && MoreThanHalf(used, i) ==> Pow2(i) <= size
  }

  ghost predicate UsesBit(used: set<nat>, i: nat) {
    exists x :: x in used && HighestBit(x) == i
  }

  lemma {:induction false} DistinctBelow(s: seq<nat>, used: set<nat>, n: nat)
    requires Distinct(s) && forall x :: x in used <==> x in s
    ensures CountBelow(s, n) == Below(used, n)
  {
    var below := set x | x in used && x < n;
    if s == [] {
      assert below == {};
    } else {
      var rest := used - {s[0]};
      assert s == [s[0]] + s[1..];
      assert s[0] !in s[1..];
      DistinctBelow(s[1..], rest, n);
      var restBelow := set x | x in rest && x < n;
      assert below == if s[0] < n then restBelow + {s[0]} else restBelow;
    }
  }

  lemma {:induction false} BitUsed(s: seq<nat>, used: set<nat>, i: nat)
    requires forall x :: x in used <==> x in s
    ensures CountBit(s, i) > 0 <==> UsesBit(used, i)
  {
    if CountBit(s, i) > 0 {
      var x := HasCounted(s, i);
    }
    if x :| x in used && HighestBit(x) == i {
      HasBit(s, x);
    }
  }

  lemma {:induction false} HasCounted(s: seq<nat>, i: nat) returns (x: nat)
    requires CountBit(s, i) > 0
    ensures x in s && HighestBit(x) == i
  {
    if HighestBit(s[0]) == i {
      x := s[0];
    } else {
      x := HasCounted(s[1..], i);
    }
  }

  ghost predicate Counts(counts: array<nat>, total: nat, s: seq<nat>)
    reads counts
  {
    counts.Length == BITS && total == |s| && forall b :: 0 <= b < BITS ==> counts[b] == CountBit(s, b)
  }

  lemma Pow2Byte(n: nat)
    ensures Pow2(n + 8) == 256 * Pow2(n) && Pow2(n + 7) == 128 * Pow2(n)
  {
    assert Pow2(n + 2) == 2 * Pow2(n + 1);
    assert Pow2(n + 4) == 2 * Pow2(n + 3) && Pow2(n + 3) == 2 * Pow2(n + 2);
    assert Pow2(n + 6) == 2 * Pow2(n + 5) && Pow2(n + 5) == 2 * Pow2(n + 4);
    assert Pow2(n + 8) == 2 * Pow2(n + 7) && Pow2(n + 7) == 2 * Pow2(n + 6);
  }

  lemma IndexBits(i: nat)
    requires i < 0x8000_0000_0000_0000
    ensures HighestBit(i) < BITS
  {
    var n := 7;
    assert Pow2(n) == 128 by {
      Pow2Byte(0);
    }
    Pow2Byte(n);
    Pow2Byte(n + 8);
    Pow2Byte(n + 16);
    Pow2Byte(n + 24);
    Pow2Byte(n + 32);
    Pow2Byte(n + 40);
    Pow2Byte(n + 48);
    HighestBitBelow(i, n + 56);
  }

  /** One more candidate. */
  method CountIndex(counts: array<nat>, i: nat, ghost total: nat, ghost s: seq<nat>)
    requires Counts(counts, total, s) && i < 0x8000_0000_0000_0000
    modifies counts
    ensures Counts(counts, total + 1, s + [i])
  {
    IndexBits(i);
    var b := HighestBit(i);
    counts[b] := counts[b] + 1;
    forall c | 0 <= c < BITS ensures counts[c] == CountBit(s + [i], c) {
      CountBitAppend(s, [i], c);
    }
  }

  /** The loop over the counts, which stops at the first size that all candidates together do not fill by half. */
  method ChooseSize(counts: array<nat>, total: nat, ghost s: seq<nat>) returns (size: nat)
    requires Counts(counts, total, s)
    ensures Chosen(s, size)
  {
    size := 0;
    var sum, i, power := 0, 0, 1;
    while i < BITS
      invariant 0 <= i <= BITS && power == Pow2(i)
      invariant sum == if i == 0 then 0 else CountBelow(s, Pow2(i - 1))
      invariant size == 0 || exists k :: 0 <= k < i && size == Pow2(k) && CountBit(s, k) > 0 && Fills(s, k)
      invariant forall k :: 0 <= k < i && CountBit(s, k) > 0 && Fills(s, k) ==> Pow2(k) <= size
    {
      if power / 2 >= total {
        forall k | i <= k < BITS ensures !Fills(s, k) {
          CountAtMost(s, Pow2(k));
          Pow2Orders(k, i);
        }
        return;
      }
      CountBelowBits(s, i);
      if counts[i] > 0 {
        sum := sum + counts[i];
        if sum > power / 2 {
          forall k | 0 <= k < i ensures Pow2(k) <= power {
            Pow2Orders(k, i);
          }
          size := power;
        }
      }
      power := 2 * power;
      i := i + 1;
    }
  }

  lemma ChosenFits(s: seq<nat>, size: nat)
    requires Chosen(s, size)
    ensures size <= 2 * |s|
  {
    if size > 0 {
      var i :| 0 <= i < BITS && size == Pow2(i) && CountBit(s, i) > 0 && Fills(s, i);
      CountAtMost(s, Pow2(i));
    }
  }

  /** Skipping empty upper halves loses nothing when the candidates are different: such a size would hold
      more candidates than the next smaller one has slots. */
  lemma UpperHalfUsed(s: seq<nat>, i: nat)
    requires Distinct(s) && Fills(s, i)
    ensures CountBit(s, i) > 0
  {
    CountBelowBits(s, i);
    if i > 0 {
      DistinctFit(s, Pow2(i - 1));
    }
  }

  lemma ChosenIsOptimal(s: seq<nat>, used: set<nat>, size: nat)
    requires Distinct(s) && (forall x :: x in used <==> x in s) && Chosen(s, size)
    ensures Optimal(used, size)
  {
    forall i | 0 <= i < BITS ensures Fills(s, i) <==> MoreThanHalf(used, i)
                             ensures Fills(s, i) ==> CountBit(s, i) > 0
    {
      DistinctBelow(s, used, Pow2(i));
      if Fills(s, i) {
        UpperHalfUsed(s, i);
      }
    }
  }

  // The source also grows the table when the key that is set is already in the hash part. It then
  // counts that key twice.

  /** The size is half used, and the key is one of those that use it. */
  ghost predicate TipsAt(used: set<nat>, key: nat, i: nat) {
    UsesBit(used, i) && key < Pow2(i) && 2 * Below(used, Pow2(i)) == Pow2(i)
  }

  /** Some such size is larger than any that is more than half used. */
  ghost predicate Tips(used: set<nat>, key: nat) {
    exists i :: 0 <= i < BITS && TipsAt(used, key, i) && forall j :: i < j < BITS ==> !MoreThanHalf(used, j)
  }

  /** The largest of them. */
  ghost predicate Tipped(used: set<nat>, key: nat, size: nat) {
    exists i :: 0 <= i < BITS && size == Pow2(i) && TipsAt(used, key, i)
      && forall j :: i < j < BITS ==> !MoreThanHalf(used, j) && !TipsAt(used, key, j)
  }

  lemma CountedTwice(s: seq<nat>, key: nat, i: nat)
    requires key in s
    ensures CountBelow(s + [key], Pow2(i)) == CountBelow(s, Pow2(i)) + (if key < Pow2(i) then 1 else 0)
    ensures CountBit(s + [key], i) > 0 <==> CountBit(s, i) > 0
  {
    CountBelowAppend(s, [key], Pow2(i));
    CountBitAppend(s, [key], i);
    HasBit(s, key);
  }

  lemma {:induction false} HasBit(s: seq<nat>, key: nat)
    requires key in s
    ensures CountBit(s, HighestBit(key)) > 0
  {
    if s[0] != key {
      assert s == [s[0]] + s[1..];
      HasBit(s[1..], key);
    }
  }

  /** With a key counted twice, a size is more than half full when it really is, or when it is half used
      and the key is one of its candidates. */
  lemma FillsTwice(s: seq<nat>, key: nat, i: nat)
    requires key in s && Distinct(s)
    ensures Fills(s + [key], i) <==> Fills(s, i) || (key < Pow2(i) && 2 * CountBelow(s, Pow2(i)) == Pow2(i))
  {
    CountedTwice(s, key, i);
    if i == 0 {
      if key < 1 {
        FirstCounted(s, key);
      }
    } else {
      TwiceAtMost(CountBelow(s, Pow2(i)), Pow2(i - 1), if key < Pow2(i) then 1 else 0);
    }
  }

  lemma FirstCounted(s: seq<nat>, key: nat)
    requires key in s && key < 1 && Distinct(s)
    ensures CountBelow(s, Pow2(0)) == 1
  {
    NoneBelowZero(s);
    OneMore(s, 0);
  }

  lemma TwiceAtMost(c: nat, p: nat, one: nat)
    requires one <= 1
    ensures 2 * (c + one) > 2 * p <==> 2 * c > 2 * p || (one == 1 && c == p)
  {
  }

  /** The size is the largest one that is more than half used or tips over. */
  ghost predicate Largest(used: set<nat>, key: nat, size: nat) {
    (size == 0 || exists i :: 0 <= i < BITS && size == Pow2(i) && (MoreThanHalf(used, i) || TipsAt(used, key, i)))
    && forall i :: 0 <= i < BITS && (MoreThanHalf(used, i) || TipsAt(used, key, i)) ==> Pow2(i) <= size
  }

  lemma ChosenIsLargest(s: seq<nat>, used: set<nat>, key: nat, size: nat)
    requires key in s && Distinct(s) && (forall x :: x in used <==> x in s) && Chosen(s + [key], size)
    ensures Largest(used, key, size)
  {
    forall i | 0 <= i < BITS
      ensures CountBit(s + [key], i) > 0 && Fills(s + [key], i) <==> MoreThanHalf(used, i) || TipsAt(used, key, i)
    {
      FillsTwice(s, key, i);
      CountedTwice(s, key, i);
      DistinctBelow(s, used, Pow2(i));
      BitUsed(s, used, i);
      if Fills(s, i) {
        UpperHalfUsed(s, i);
      }
    }
  }

  /** The size chosen when the key is counted twice is the optimal one except in the case of `Tips`, where it is the
      largest one that tips over. */
  lemma ChosenTwice(s: seq<nat>, used: set<nat>, key: nat, size: nat)
    requires key in s && Distinct(s) && (forall x :: x in used <==> x in s) && Chosen(s + [key], size)
    ensures Optimal(used, size) <==> !Tips(used, key)
    ensures Tips(used, key) <==> Tipped(used, key, size)
  {
    ChosenIsLargest(s, used, key, size);
    hide Largest, Tipped, Optimal;
    if !Tips(used, key) {
      NothingTips(used, key, size);
      if Tipped(used, key, size) {
        NotTipped(used, key, size);
      }
    } else {
      SomethingTips(used, key, size);
    }
  }

  lemma NotTipped(used: set<nat>, key: nat, size: nat)
    requires Tipped(used, key, size)
    ensures Tips(used, key)
  {
    hide MoreThanHalf, TipsAt, Pow2;
  }

  lemma SomethingTips(used: set<nat>, key: nat, size: nat)
    requires Largest(used, key, size) && Tips(used, key)
    ensures Tipped(used, key, size) && !Optimal(used, size)
  {
    hide MoreThanHalf, TipsAt, Pow2;
    var i :| 0 <= i < BITS && TipsAt(used, key, i) && forall j :: i < j < BITS ==> !MoreThanHalf(used, j);
    var k :| 0 <= k < BITS && size == Pow2(k) && (MoreThanHalf(used, k) || TipsAt(used, key, k));
    Pow2Orders(k, i);
    TipsApart(used, key, i);
    TipsApart(used, key, k);
    forall j | k < j < BITS ensures !TipsAt(used, key, j) {
      Pow2Orders(k, j);
    }
    forall m: nat ensures Pow2(m) == Pow2(k) ==> m == k {
      Pow2Orders(m, k);
      Pow2Orders(k, m);
    }
  }

  lemma TipsApart(used: set<nat>, key: nat, i: nat)
    ensures !(TipsAt(used, key, i) && MoreThanHalf(used, i))
  {
  }

  lemma NothingTips(used: set<nat>, key: nat, size: nat)
    requires Largest(used, key, size) && !Tips(used, key)
    ensures Optimal(used, size)
  {
    if size > 0 {
      var k :| 0 <= k < BITS && size == Pow2(k) && (MoreThanHalf(used, k) || TipsAt(used, key, k));
      if TipsAt(used, key, k) {
        var j :| k < j < BITS && MoreThanHalf(used, j);
        Pow2Orders(k, j);
      }
    }
  }

  // The growth size of a table.

  /** The size chosen for the indices in use and the key that is set, if it is an array index. */
  ghost predicate GrowthSize(used: set<nat>, key: Option<nat>, size: nat) {
    match key
    case None => Optimal(used, size)
    case Some(k) => if k in used && Tips(used, k) then Tipped(used, k, size) else Optimal(used + {k}, size)
  }

  /** There is no choice. */
  lemma OneGrowthSize(used: set<nat>, key: Option<nat>, a: nat, b: nat)
    requires GrowthSize(used, key, a) && GrowthSize(used, key, b)
    ensures a == b
  {
    forall i, j ensures Pow2(i) < Pow2(j) <==> i < j {
      Pow2Orders(i, j);
    }
    hide MoreThanHalf, TipsAt, Pow2;
  }

  /** The size is optimal for the indices in use afterwards if and only if nothing tips over. */
  lemma GrowthIsOptimal(used: set<nat>, k: nat, size: nat)
    requires GrowthSize(used, Some(k), size)
    ensures Optimal(used + {k}, size) <==> !(k in used && Tips(used, k))
  {
    if k in used && Tips(used, k) {
      assert used + {k} == used;
      hide MoreThanHalf;
      var i :| 0 <= i < BITS && size == Pow2(i) && TipsAt(used, k, i)
               && forall j :: i < j < BITS ==> !MoreThanHalf(used, j) && !TipsAt(used, k, j);
      TipsApart(used, k, i);
      forall j ensures Pow2(i) == Pow2(j) <==> i == j {
        Pow2Orders(i, j);
        Pow2Orders(j, i);
      }
    }
  }

  lemma BelowTwo(n: nat)
    ensures Below({0, 2}, n) == (if n > 0 then 1 else 0) + (if n > 2 then 1 else 0)
  {
    var used: set<nat> := {0, 2};
    assert (set x | x in used && x < n) == if n > 2 then used else if n > 0 then {0} else {};
  }

  /** The first and the third index are in use, and the third one is set again: two of four slots are used. */
  lemma ThirdTips()
    ensures Tips({0, 2}, 2) && Tipped({0, 2}, 2, 4) && Optimal({0, 2}, 1)
  {
    assert Pow2(0) == 1 && Pow2(1) == 2 && Pow2(2) == 4;
    var two := 2;
    forall i ensures MoreThanHalf({0, 2}, i) <==> i == 0
             ensures TipsAt({0, 2}, 2, i) ==> i <= two
    {
      BelowTwo(Pow2(i));
      Pow2Orders(two, i);
      Pow2Orders(i, two);
    }
    BelowTwo(4);
    assert HighestBit(2) == two && TipsAt({0, 2}, 2, two) by {
      assert 2 in {0, 2};
    }
  }
}
