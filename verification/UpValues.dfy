/** Open and closed upvalues: piccolo/src/thread/thread.rs. A captured local variable lives in a stack
    slot, which the closures that captured it reach through one shared cell, until the slot goes away and
    the cell takes over the value. */
module UpValues {
  import opened Values
  import opened Threads

  datatype UpState = Open(slot: nat) | Closed(value: StackValue)

  class UpValue {
    var state: UpState

    constructor (s: UpState)
      ensures state == s
    {
      state := s;
    }
  }

  /** The place of `x` in a strictly sorted list: the number of elements below it. */
  ghost predicate IsPlace(slots: seq<nat>, x: nat, i: nat) {
    i <= |slots| && (forall k :: 0 <= k < i ==> slots[k] < x) && forall k :: i <= k < |slots| ==> x <= slots[k]
  }

  ghost predicate Sorted(slots: seq<nat>) {
    forall i, j :: 0 <= i < j < |slots| ==> slots[i] < slots[j]
  }

  lemma InsertSorted(slots: seq<nat>, x: nat, i: nat)
    requires Sorted(slots) && IsPlace(slots, x, i) && x !in slots
    ensures Sorted(InsertAt(slots, i, x))
  {
    var r := InsertAt(slots, i, x);
    forall p, q | 0 <= p < q < |r| ensures r[p] < r[q] {
      if q > i {
        assert r[q] == slots[q - 1] && slots[q - 1] in slots;
      }
    }
  }

  function InsertAt<T>(s: seq<T>, i: nat, x: T): (r: seq<T>)
    requires i <= |s|
    ensures |r| == |s| + 1 && forall k :: 0 <= k < |r| ==> r[k] == if k < i then s[k] else if k == i then x else s[k - 1]
    ensures x in r && (forall y :: y in s ==> y in r) && forall y :: y in r ==> y in s || y == x
  {
    var r := s[..i] + [x] + s[i..];
    assert s == s[..i] + s[i..];
    r
  }

  /** The value stack of a thread and its list of open upvalues. */
  class UpValueStack {
    var stack: seq<StackValue>
    var open: seq<UpValue>
    /** Every upvalue that was made here. */
    ghost var all: set<UpValue>

    ghost predicate Valid()
      reads this, all
    {
      (forall u :: u in open ==> u in all && u.state.Open? && u.state.slot < |stack|)
      && (forall u :: u in all && u.state.Open? ==> u in open)
      && (forall i, j :: 0 <= i < j < |open| ==> open[i].state.Open? && open[j].state.Open? && open[i].state.slot < open[j].state.slot)
    }

    ghost function Slots(): (s: seq<nat>)
      requires Valid()
      reads this, all
      ensures |s| == |open| && forall i :: 0 <= i < |s| ==> s[i] == open[i].state.slot
      ensures Sorted(s)
    {
      var s := seq(|open|, i requires 0 <= i < |open| && Valid() reads this, all => open[i].state.slot);
      assert forall i, j :: 0 <= i < j < |s| ==> open[i].state.slot < open[j].state.slot;
      s
    }

    /** The captured slots, as the thread's frames see them. */
    ghost function Captured(): set<nat>
      requires Valid()
      reads this, all
    {
      set u | u in all && u.state.Open? :: u.state.slot
    }

    /** What a closure reads through an upvalue. */
    ghost function Read(u: UpValue): StackValue
      requires u in all && Valid()
      reads this, all
    {
      match u.state
      case Open(slot) => stack[slot]
      case Closed(v) => v
    }

    lemma CapturedSlots()
      requires Valid()
      ensures forall x :: x in Captured() <==> x in Slots()
    {
      forall x | x in Slots() ensures x in Captured() {
        var k :| 0 <= k < |open| && Slots()[k] == x;
        assert open[k] in all && open[k].state.slot == x;
      }
      forall x | x in Captured() ensures x in Slots() {
        var u :| u in all && u.state.Open? && u.state.slot == x;
        var k :| 0 <= k < |open| && open[k] == u;
        assert Slots()[k] == x;
      }
    }

    constructor ()
      ensures Valid() && stack == [] && open == [] && all == {}
    {
      stack, open, all := [], [], {};
    }

    /** `binary_search_by` on the slots of the open upvalues. */
    method Place(x: nat) returns (i: nat, found: bool)
      requires Valid()
      ensures IsPlace(Slots(), x, i) && (found <==> x in Captured())
      ensures found ==> i < |open| && open[i].state.slot == x
    {
      var low, high := 0, |open|;
      while low < high
        invariant 0 <= low <= high <= |open|
        invariant forall k :: 0 <= k < low ==> Slots()[k] < x
        invariant forall k :: high <= k < |open| ==> x < Slots()[k]
      {
        var mid := low + (high - low) / 2;
        var slot := open[mid].state.slot;
        if slot == x {
          CapturedSlots();
          assert Slots()[mid] == x;
          return mid, true;
        } else if slot < x {
          low := mid + 1;
        } else {
          high := mid;
        }
      }
      CapturedSlots();
      return low, false;
    }

    /** The upvalue of a slot: the one there is, or a new one. */
    method Capture(slot: nat) returns (u: UpValue)
      requires Valid() && slot < |stack|
      modifies this`open, this`all
      ensures Valid() && u in all && u.state == Open(slot)
      ensures if slot in old(Captured()) then all == old(all) && open == old(open) else fresh(u) && all == old(all) + {u}
      ensures Captured() == old(Captured()) + {slot}
      ensures forall v :: v in old(all) ==> v.state == old(v.state) && Read(v) == old(Read(v))
    {
      CapturedSlots();
      var i, found := Place(slot);
      if found {
        assert Captured() == old(Captured()) + {slot};
        return open[i];
      }
      u := new UpValue(Open(slot));
      Insert(u, i);
    }

    ghost predicate FitsAt(u: UpValue, i: nat)
      requires Valid()
      reads this, all, u
    {
      u.state.Open? && u.state.slot < |stack| && i <= |open| && u.state.slot !in Slots() && IsPlace(Slots(), u.state.slot, i)
    }

    ghost predicate Orderly(cells: seq<UpValue>)
      reads cells
    {
      forall p, q :: 0 <= p < q < |cells| ==> cells[p].state.Open? && cells[q].state.Open? && cells[p].state.slot < cells[q].state.slot
    }

    lemma InsertedOrderly(u: UpValue, i: nat)
      requires Valid() && FitsAt(u, i)
      ensures Orderly(InsertAt(open, i, u))
    {
      var now, more := InsertAt(Slots(), i, u.state.slot), InsertAt(open, i, u);
      InsertSorted(Slots(), u.state.slot, i);
      hide IsPlace;
      assert forall k :: 0 <= k < |more| ==> more[k].state.Open? && more[k].state.slot == now[k] by {
        assert forall k :: 0 <= k < |open| ==> open[k] in open && open[k].state.slot == Slots()[k];
      }
    }

    lemma InsertedOpen(u: UpValue, i: nat)
      requires Valid() && FitsAt(u, i)
      ensures forall v :: v in InsertAt(open, i, u) ==> v in all + {u} && v.state.Open? && v.state.slot < |stack|
      ensures forall v :: v in all + {u} && v.state.Open? ==> v in InsertAt(open, i, u)
    {
      hide IsPlace, Slots;
    }

    method Insert(u: UpValue, i: nat)
      requires Valid() && u !in all && FitsAt(u, i)
      modifies this`open, this`all
      ensures Valid() && all == old(all) + {u}
    {
      InsertedOrderly(u, i);
      InsertedOpen(u, i);
      hide FitsAt, Slots;
      open := InsertAt(open, i, u);
      all := all + {u};
    }

    /** Closes the upvalues of the slots from `bottom` on: no read changes. */
    method Close(bottom: nat)
      requires Valid()
      modifies this`open, all
      ensures Valid()
      ensures forall v :: v in all ==> Read(v) == old(Read(v))
      ensures forall v :: v in all && v.state.Open? ==> v.state.slot < bottom
      ensures Captured() == CloseUpvalues(old(Captured()), bottom)
    {
      var start, _ := Place(bottom);
      CloseFrom(start, bottom);
      CapturedAfter(bottom);
    }

    twostate lemma CapturedAfter(bottom: nat)
      requires old(Valid()) && Valid() && all == old(all) && stack == old(stack)
      requires forall v :: v in all ==> v.state == After(old(v.state), bottom)
      ensures Captured() == CloseUpvalues(old(Captured()), bottom)
    {
      forall x | x in CloseUpvalues(old(Captured()), bottom) ensures x in Captured() {
        var u :| u in all && old(u.state.Open?) && old(u.state.slot) == x;
        assert u.state == Open(x);
      }
    }

    /** The state of a cell after closing at `bottom`. */
    ghost function After(s: UpState, bottom: nat): UpState
      requires s.Open? ==> s.slot < |stack|
      reads this
    {
      if s.Open? && s.slot >= bottom then Closed(stack[s.slot]) else s
    }

    method CloseFrom(start: nat, bottom: nat)
      requires Valid() && IsPlace(Slots(), bottom, start)
      modifies this`open, all
      ensures Valid()
      ensures forall v :: v in all ==> v.state == After(old(v.state), bottom)
    {
      ghost var slots, was := Slots(), open;
      CloseCells(start);
      open := open[..start];
      forall v | v in all ensures v.state == After(old(v.state), bottom) && (v.state.Open? ==> v in open) {
        if v in was {
          var k :| 0 <= k < |was| && was[k] == v;
          assert old(v.state) == Open(slots[k]);
          if k < start {
            assert open[k] == v;
          }
        }
      }
      assert forall k :: 0 <= k < |open| ==> open[k] == was[k] && open[k].state == Open(slots[k]);
    }

    /** Closes the cells from `start` on in the list, and no other cells. */
    method CloseCells(start: nat)
      requires Valid() && start <= |open|
      modifies all
      ensures forall k :: 0 <= k < start ==> open[k].state == old(open[k].state)
      ensures forall k :: start <= k < |open| ==> open[k].state == Closed(stack[old(open[k].state.slot)])
      ensures forall v :: v in all && v !in open ==> v.state == old(v.state)
    {
      ghost var slots := Slots();
      DistinctCells();
      var i := start;
      while i < |open|
        invariant start <= i <= |open|
        invariant forall k :: 0 <= k < start || i <= k < |open| ==> open[k].state == Open(slots[k])
        invariant forall k :: start <= k < i ==> slots[k] < |stack| && open[k].state == Closed(stack[slots[k]])
        invariant forall v :: v in all && v !in open ==> v.state == old(v.state)
      {
        assert open[i] in open;
        open[i].state := Closed(stack[open[i].state.slot]);
        i := i + 1;
      }
    }

    lemma DistinctCells()
      requires Valid()
      ensures forall i, j :: 0 <= i < j < |open| ==> open[i] != open[j]
    {
    }

    /** The slot of an open upvalue of this thread has to lie below `frame`, the bottom of the running frame. */
    predicate InReach(u: UpValue, frame: nat)
      reads u
    {
      u.state.Open? ==> u.state.slot < frame
    }

    /** A closure's read through an upvalue, or a failed assertion. */
    method Get(u: UpValue, frame: nat) returns (v: Option<StackValue>)
      requires Valid() && u in all
      ensures v == if InReach(u, frame) then Some(Read(u)) else None
    {
      match u.state {
        case Open(slot) => v := if slot < frame then Some(stack[slot]) else None;
        case Closed(value) => v := Some(value);
      }
    }

    /** A closure's write through an upvalue, or a failed assertion. No other upvalue reads differently, and only the slot
        it refers to, if any, changes. */
    method Write(u: UpValue, v: StackValue, frame: nat) returns (ok: bool)
      requires Valid() && u in all
      modifies this`stack, u
      ensures ok == old(InReach(u, frame))
      ensures Valid() && Captured() == old(Captured()) && |stack| == |old(stack)|
      ensures ok ==> Read(u) == v
      ensures forall w :: w in all && (w != u || !ok) ==> Read(w) == old(Read(w))
      ensures forall x :: 0 <= x < |stack| ==> stack[x] == if ok && old(u.state) == Open(x) then v else old(stack)[x]
    {
      OneCellEach(u);
      match u.state {
        case Open(slot) =>
          if slot >= frame {
            return false;
          }
          stack := stack[slot := v];
        case Closed(_) => u.state := Closed(v);
      }
      ok := true;
    }

    /** A captured slot has one cell. */
    lemma OneCellEach(u: UpValue)
      requires Valid() && u in all
      ensures forall w :: w in all && w != u && w.state.Open? && u.state.Open? ==> w.state.slot != u.state.slot
    {
      forall w | w in all && w != u && w.state.Open? && u.state.Open? ensures w.state.slot != u.state.slot {
        var i :| 0 <= i < |open| && open[i] == u;
        var j :| 0 <= j < |open| && open[j] == w;
        assert i < j || j < i;
      }
    }

    /** The frame writes one of its own registers: closures that captured it see the write, and no other
        upvalue changes. */
    method WriteRegister(slot: nat, v: StackValue)
      requires Valid() && slot < |stack|
      modifies this`stack
      ensures Valid() && Captured() == old(Captured()) && stack == old(stack)[slot := v]
      ensures forall u :: u in all ==> Read(u) == if u.state == Open(slot) then v else old(Read(u))
    {
      stack := stack[slot := v];
    }

    /** A frame returns: its upvalues close, and then its values go. No read through an upvalue changes. */
    method Leave(bottom: nat)
      requires Valid() && bottom <= |stack|
      modifies this`open, this`stack, all
      ensures Valid() && stack == old(stack)[..bottom]
      ensures forall v :: v in all ==> Read(v) == old(Read(v))
      ensures Captured() == CloseUpvalues(old(Captured()), bottom)
    {
      Close(bottom);
      assert forall u :: u in all && u.state.Open? ==> u.state.slot < bottom;
      stack := stack[..bottom];
    }
  }
}
