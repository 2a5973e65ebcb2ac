/** Hexagonal coordinates: src/coords.rs. Hexes of one plane have the same coordinate sum. */
module Hexes {
  datatype Option<+T> = None | Some(value: T)

  datatype Cubic = Cubic(x: int, y: int, z: int)

  function Plus(a: Cubic, b: Cubic): Cubic {
    Cubic(a.x + b.x, a.y + b.y, a.z + b.z)
  }

  function Sum(a: Cubic): int {
    a.x + a.y + a.z
  }

  function Abs(n: int): nat {
    if n < 0 then -n else n
  }

  function Max(a: int, b: int): int {
    if a < b then b else a
  }

  function Distance(a: Cubic, b: Cubic): int {
    Max(Max(Abs(a.x - b.x), Abs(a.y - b.y)), Abs(a.z - b.z))
  }

  const DIRECTIONS: seq<Cubic> :=
    [Cubic(1, 0, -1), Cubic(1, -1, 0), Cubic(0, -1, 1), Cubic(-1, 0, 1), Cubic(-1, 1, 0), Cubic(0, 1, -1)]

  function Neighbor(a: Cubic, i: nat): Option<Cubic> {
    if i < 6 then Some(Plus(DIRECTIONS[i], a)) else None
  }

  // Rings.

  /** The hex `j` steps along the side `i` of a ring: each side begins at a corner. */
  function Along(c: Cubic, radius: int, i: nat, j: int): Cubic {
    match i
    case 0 => Plus(c, Cubic(j - radius, radius, -j))
    case 1 => Plus(c, Cubic(j, radius - j, -radius))
    case 2 => Plus(c, Cubic(radius, -j, j - radius))
    case 3 => Plus(c, Cubic(radius - j, -radius, j))
    case 4 => Plus(c, Cubic(-j, j - radius, radius))
    case _ => Plus(c, Cubic(-radius, j, radius - j))
  }

  function Side(c: Cubic, radius: nat, i: nat, from: nat): (s: seq<Cubic>)
    requires from <= radius
    ensures |s| == radius - from && forall k :: 0 <= k < |s| ==> s[k] == Along(c, radius, i, from + k)
  {
    seq(radius - from, k requires 0 <= k < radius - from => Along(c, radius, i, from + k))
  }

  /** What is left of a ring at step `j` of side `i`. */
  function RingFrom(c: Cubic, radius: nat, i: nat, j: nat): seq<Cubic>
    requires j < radius
    decreases 6 - i
  {
    if i >= 6 then [] else Side(c, radius, i, j) + RingFrom(c, radius, i + 1, 0)
  }

  function Ring(c: Cubic, radius: nat): seq<Cubic> {
    if radius == 0 then [c] else RingFrom(c, radius, 0, 0)
  }

  /** A side goes on to the neighbor in its direction, and ends at the next corner. */
  lemma NextAlong(c: Cubic, radius: nat, i: nat, j: nat)
    requires i < 6
    ensures Neighbor(Along(c, radius, i, j), i) == Some(Along(c, radius, i, j + 1))
    ensures i < 5 ==> Along(c, radius, i, radius) == Along(c, radius, i + 1, 0)
  {
  }

  lemma RingEnds(c: Cubic, radius: nat, i: nat, j: nat)
    requires i >= 6 && j < radius
    ensures RingFrom(c, radius, i, j) == []
  {
  }

  lemma RingStep(c: Cubic, radius: nat, i: nat, j: nat)
    requires i < 6 && j < radius
    ensures RingFrom(c, radius, i, j)
            == [Along(c, radius, i, j)] + if j + 1 < radius then RingFrom(c, radius, i, j + 1) else RingFrom(c, radius, i + 1, 0)
  {
    hide Along;
    assert Side(c, radius, i, j) == [Along(c, radius, i, j)] + if j + 1 < radius then Side(c, radius, i, j + 1) else [];
  }

  /** The iterator that `ring` returns. */
  class RingIterator {
    ghost const center: Cubic
    const radius: nat
    var start: Option<Cubic>
    var i: nat
    var j: nat

    /** The hexes still to come. */
    ghost function Remaining(): seq<Cubic>
      reads this
      requires Valid()
    {
      if radius == 0 then (if i == 0 then [center] else [])
      else RingFrom(center, radius, i, j)
    }

    ghost predicate Valid()
      reads this
    {
      i <= 6 && (if radius == 0 then i == 0 ==> start == Some(center) else j < radius && (i < 6 ==> start == Some(Along(center, radius, i, j))))
    }

    constructor (c: Cubic, r: nat)
      ensures Valid() && center == c && radius == r && Remaining() == Ring(c, r)
    {
      center, radius := c, r;
      start := Some(Plus(c, Cubic(DIRECTIONS[4].x * r, DIRECTIONS[4].y * r, DIRECTIONS[4].z * r)));
      i, j := 0, 0;
    }

    method Next() returns (r: Option<Cubic>)
      requires Valid()
      modifies this
      ensures Valid()
      ensures if old(Remaining()) == [] then r == None && Remaining() == []
              else r == Some(old(Remaining())[0]) && Remaining() == old(Remaining())[1..]
    {
      hide Along, RingFrom, Neighbor;
      if i >= 6 || (i > 0 && radius == 0) {
        if radius > 0 {
          RingEnds(center, radius, i, j);
        }
        return None;
      }
      if radius > 0 {
        RingStep(center, radius, i, j);
        NextAlong(center, radius, i, j);
      }
      r := start;
      start := if start.Some? then Neighbor(start.value, i) else None;
      j := j + 1;
      if j >= radius {
        j := 0;
        i := i + 1;
      }
    }
  }

  /** Collecting a ring. */
  method CollectRing(c: Cubic, radius: nat) returns (hexes: seq<Cubic>)
    ensures hexes == Ring(c, radius)
  {
    hide Ring, RingFrom, Along;
    var it := new RingIterator(c, radius);
    hexes := [];
    while true
      invariant it.Valid() && hexes + it.Remaining() == Ring(c, radius)
      decreases |it.Remaining()|
    {
      var h := it.Next();
      if h.None? {
        return;
      }
      hexes := hexes + [h.value];
    }
  }

  /** Each hex of a side has its place there, which no other place of the ring has. */
  lemma PlacesDiffer(c: Cubic, radius: nat, i: nat, j: nat, i': nat, j': nat)
    requires i < 6 && i' < 6 && j < radius && j' < radius && Along(c, radius, i, j) == Along(c, radius, i', j')
    ensures i == i' && j == j'
  {
  }

  lemma OnRing(c: Cubic, radius: nat, i: nat, j: nat)
    requires i < 6 && j < radius
    ensures Sum(Along(c, radius, i, j)) == Sum(c) && Distance(c, Along(c, radius, i, j)) == radius
  {
  }

  /** The place of a hex at the given distance. */
  lemma PlaceOf(c: Cubic, h: Cubic, radius: nat) returns (i: nat, j: nat)
    requires radius > 0 && Sum(h) == Sum(c) && Distance(c, h) == radius
    ensures i < 6 && j < radius && h == Along(c, radius, i, j)
  {
    var x, y, z, n: int := h.x - c.x, h.y - c.y, h.z - c.z, radius;
    assert 0 - n <= x <= n && 0 - n <= y <= n && 0 - n <= z <= n && x + y + z == 0;
    assert x in {n, -n} || y in {n, -n} || z in {n, -n};
    hide Distance;
    if y == n && x < 0 {
      i, j := 0, -z;
    } else if z == -n && x < n {
      i, j := 1, x;
    } else if x == n && y > -n {
      i, j := 2, -y;
    } else if y == -n && x > 0 {
      i, j := 3, z;
    } else if z == n && x > -n {
      i, j := 4, -x;
    } else {
      i, j := 5, y;
    }
  }

  lemma {:induction false} InRingFrom(c: Cubic, radius: nat, first: nat, h: Cubic)
    requires radius > 0 && first <= 6
    ensures h in RingFrom(c, radius, first, 0)
            <==> exists i, j :: first <= i < 6 && 0 <= j < radius && h == Along(c, radius, i, j)
    decreases 6 - first
  {
    if first < 6 {
      InRingFrom(c, radius, first + 1, h);
      var side, rest := Side(c, radius, first, 0), RingFrom(c, radius, first + 1, 0);
      assert RingFrom(c, radius, first, 0) == side + rest;
      if h in side {
        var k :| 0 <= k < |side| && side[k] == h;
        assert h == Along(c, radius, first, k);
      }
      forall i, j | first <= i < 6 && 0 <= j < radius && h == Along(c, radius, i, j) ensures h in side + rest {
        if i == first {
          assert side[j] == h;
        }
      }
    }
  }

  /** A ring holds exactly the hexes at its distance. */
  lemma RingIsExact(c: Cubic, radius: nat, h: Cubic)
    ensures h in Ring(c, radius) <==> Sum(h) == Sum(c) && Distance(c, h) == radius
  {
    if radius > 0 {
      InRingFrom(c, radius, 0, h);
      if h in Ring(c, radius) {
        var i, j :| 0 <= i < 6 && 0 <= j < radius && h == Along(c, radius, i, j);
        OnRing(c, radius, i, j);
      }
      if Sum(h) == Sum(c) && Distance(c, h) == radius {
        var i, j := PlaceOf(c, h, radius);
      }
    }
  }

  ghost predicate Distinct(s: seq<Cubic>) {
    forall a, b :: 0 <= a < b < |s| ==> s[a] != s[b]
  }

  lemma DistinctConcat(s: seq<Cubic>, t: seq<Cubic>)
    requires Distinct(s) && Distinct(t) && forall h :: h in s ==> h !in t
    ensures Distinct(s + t)
  {
    forall a, b | 0 <= a < b < |s + t| ensures (s + t)[a] != (s + t)[b] {
      if a < |s| && b >= |s| {
        assert s[a] in s && t[b - |s|] in t;
      }
    }
  }

  lemma {:induction false} RingFromDistinct(c: Cubic, radius: nat, first: nat)
    requires radius > 0 && first <= 6
    ensures Distinct(RingFrom(c, radius, first, 0)) && |RingFrom(c, radius, first, 0)| == (6 - first) * radius
    decreases 6 - first
  {
    if first < 6 {
      RingFromDistinct(c, radius, first + 1);
      var side, rest := Side(c, radius, first, 0), RingFrom(c, radius, first + 1, 0);
      SideDistinct(c, radius, first);
      forall h | h in side ensures h !in rest {
        NotOnLaterSides(c, radius, first, h);
      }
      DistinctConcat(side, rest);
      assert (6 - first) * radius == radius + (6 - (first + 1)) * radius;
    }
  }

  lemma SideDistinct(c: Cubic, radius: nat, i: nat)
    requires i < 6
    ensures Distinct(Side(c, radius, i, 0))
  {
    hide Along;
    var side := Side(c, radius, i, 0);
    forall a, b | 0 <= a < b < |side| ensures side[a] != side[b] {
      if side[a] == side[b] {
        PlacesDiffer(c, radius, i, a, i, b);
      }
    }
  }

  lemma NotOnLaterSides(c: Cubic, radius: nat, first: nat, h: Cubic)
    requires radius > 0 && first < 6 && h in Side(c, radius, first, 0)
    ensures h !in RingFrom(c, radius, first + 1, 0)
  {
    hide Along, RingFrom;
    var side := Side(c, radius, first, 0);
    InRingFrom(c, radius, first + 1, h);
    var k :| 0 <= k < |side| && side[k] == h;
    if h in RingFrom(c, radius, first + 1, 0) {
      var i, j :| first + 1 <= i < 6 && 0 <= j < radius && h == Along(c, radius, i, j);
      PlacesDiffer(c, radius, first, k, i, j);
    }
  }

  /** Each hex of a ring comes once: there are six times the radius of them, or one. */
  lemma RingIsDistinct(c: Cubic, radius: nat)
    ensures Distinct(Ring(c, radius)) && |Ring(c, radius)| == if radius == 0 then 1 else 6 * radius
  {
    if radius > 0 {
      RingFromDistinct(c, radius, 0);
    }
  }

  // Spirals.

  function Spiral(c: Cubic, radius: nat): seq<Cubic> {
    if radius == 0 then Ring(c, 0) else Spiral(c, radius - 1) + Ring(c, radius)
  }

  method CollectSpiral(c: Cubic, radius: nat) returns (hexes: seq<Cubic>)
    ensures hexes == Spiral(c, radius)
  {
    hide Ring, RingFrom, Along;
    hexes := CollectRing(c, 0);
    var r := 1;
    while r <= radius
      invariant 1 <= r <= radius + 1 && hexes == Spiral(c, r - 1)
    {
      var ring := CollectRing(c, r);
      hexes := hexes + ring;
      r := r + 1;
    }
  }

  /** A spiral holds exactly the hexes within its radius. */
  lemma {:induction false} SpiralIsExact(c: Cubic, radius: nat, h: Cubic)
    ensures h in Spiral(c, radius) <==> Sum(h) == Sum(c) && Distance(c, h) <= radius
  {
    hide Ring;
    RingIsExact(c, radius, h);
    if radius > 0 {
      SpiralIsExact(c, radius - 1, h);
    }
  }

  /** Each hex of a spiral comes once. */
  lemma {:induction false} SpiralIsDistinct(c: Cubic, radius: nat)
    ensures Distinct(Spiral(c, radius)) && |Spiral(c, radius)| == 1 + 3 * radius * (radius + 1)
  {
    hide Ring, Distance;
    RingIsDistinct(c, radius);
    if radius > 0 {
      SpiralIsDistinct(c, radius - 1);
      forall h | h in Spiral(c, radius - 1) ensures h !in Ring(c, radius) {
        SpiralIsExact(c, radius - 1, h);
        RingIsExact(c, radius, h);
      }
      DistinctConcat(Spiral(c, radius - 1), Ring(c, radius));
    }
  }

  // Rotations about the origin.

  function RotateLeft(a: Cubic): Cubic {
    Cubic(-a.z, -a.x, -a.y)
  }

  function RotateRight(a: Cubic): Cubic {
    Cubic(-a.y, -a.z, -a.x)
  }

  /** `d` sixths of a turn to the right, or to the left if it is negative. */
  function Turned(a: Cubic, d: int): Cubic
    decreases Abs(d)
  {
    if d == 0 then a else if d > 0 then Turned(RotateRight(a), d - 1) else Turned(RotateLeft(a), d + 1)
  }

  /** `d *= -1` on 8 bits: the least number has no negation, and stays what it is. */
  function Negated(d: int): int
    requires -0x80 <= d < 0x80
  {
    if d == -0x80 then d else -d
  }

  method Rotate(a: Cubic, d: int) returns (r: Cubic)
    requires -0x80 <= d < 0x80
    ensures r == if d == -0x80 then a else Turned(a, d)
  {
    r := a;
    var n := if d < 0 then Negated(d) else d;
    var k := 0;
    while k < n
      invariant 0 <= k && (k <= n || k == 0)
      invariant d == -0x80 ==> r == a
      invariant d != -0x80 ==> Turned(r, if d < 0 then d + k else d - k) == Turned(a, d)
    {
      r := if d < 0 then RotateLeft(r) else RotateRight(r);
      k := k + 1;
    }
  }

  /** Turns add up, so that turning back undoes a turn. */
  lemma {:induction false} TurnsAdd(a: Cubic, d: int, e: int)
    ensures Turned(Turned(a, d), e) == Turned(a, d + e)
    decreases Abs(d)
  {
    if d > 0 {
      TurnsAdd(RotateRight(a), d - 1, e);
      TurnRight(a, d + e);
    } else if d < 0 {
      TurnsAdd(RotateLeft(a), d + 1, e);
      TurnLeft(a, d + e);
    }
  }

  function Before(i: nat): nat {
    if i == 0 then 5 else i - 1
  }

  /** A right turn takes each direction to the one before it; a left turn undoes that. */
  lemma DirectionsTurn(i: nat)
    requires i < 6
    ensures RotateRight(DIRECTIONS[i]) == DIRECTIONS[Before(i)] && RotateLeft(DIRECTIONS[Before(i)]) == DIRECTIONS[i]
  {
    var d := DIRECTIONS;
    assert d[0] == Cubic(1, 0, -1) && d[1] == Cubic(1, -1, 0) && d[2] == Cubic(0, -1, 1);
    assert d[3] == Cubic(-1, 0, 1) && d[4] == Cubic(-1, 1, 0) && d[5] == Cubic(0, 1, -1);
  }

  /** The same of the sides of a ring about the origin. */
  lemma SidesTurn(i: nat, radius: nat, j: int)
    requires i < 6
    ensures var o := Cubic(0, 0, 0);
            RotateRight(Along(o, radius, i, j)) == Along(o, radius, Before(i), j)
            && RotateLeft(Along(o, radius, Before(i), j)) == Along(o, radius, i, j)
  {
  }

  lemma TurnRight(a: Cubic, n: int)
    ensures Turned(RotateRight(a), n - 1) == Turned(a, n)
  {
    if n <= 0 {
      assert RotateLeft(RotateRight(a)) == a;
    }
  }

  lemma TurnLeft(a: Cubic, n: int)
    ensures Turned(RotateLeft(a), n + 1) == Turned(a, n)
  {
    if n >= 0 {
      assert RotateRight(RotateLeft(a)) == a;
    }
  }

  /** Six sixths are a full turn, and turning keeps distances. */
  lemma FullTurn(a: Cubic, d: int)
    ensures Turned(a, d + 6) == Turned(a, d)
  {
    var r := RotateRight(RotateRight(RotateRight(a)));
    assert r == Cubic(-a.x, -a.y, -a.z);
    var six := 6;
    assert Turned(a, six) == Turned(RotateRight(RotateRight(RotateRight(r))), six - 6) by {
      assert Turned(a, six) == Turned(r, six - 3);
    }
    TurnsAdd(a, six, d);
  }

  lemma OneTurnKeepsDistance(a: Cubic, b: Cubic)
    ensures Distance(RotateRight(a), RotateRight(b)) == Distance(a, b) == Distance(RotateLeft(a), RotateLeft(b))
  {
  }

  lemma {:induction false} TurnsKeepDistance(a: Cubic, b: Cubic, d: int)
    ensures Distance(Turned(a, d), Turned(b, d)) == Distance(a, b)
    decreases Abs(d)
  {
    hide Distance;
    OneTurnKeepsDistance(a, b);
    if d > 0 {
      TurnsKeepDistance(RotateRight(a), RotateRight(b), d - 1);
    } else if d < 0 {
      TurnsKeepDistance(RotateLeft(a), RotateLeft(b), d + 1);
    }
  }

  lemma {:induction false} FullTurns(a: Cubic, d: int, n: nat)
    ensures Turned(a, d + 6 * n) == Turned(a, d)
    decreases n
  {
    if n > 0 {
      FullTurns(a, d + 6, n - 1);
      FullTurn(a, d);
    }
  }

  /** Not turning at all is a turn by the least 8-bit number only for hexes that turning does not move. */
  lemma LeastTurn(a: Cubic)
    ensures Turned(a, -0x80) == a <==> a.x == a.y == a.z
  {
    FullTurns(a, -0x80, 22);
    var b := RotateRight(RotateRight(a));
    TurnRight(a, 4);
    TurnRight(RotateRight(a), 3);
    TurnRight(b, 2);
    TurnRight(RotateRight(b), 1);
    assert Turned(a, 4) == RotateRight(RotateRight(b));
  }
}
