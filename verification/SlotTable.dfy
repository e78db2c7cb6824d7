/**
 How the tables of applications and contexts are held: an array that grows in
 steps while entries come and go. `DLT_DAEMON_APPL_ALLOC_SIZE` and
 `DLT_DAEMON_CONTEXT_ALLOC_SIZE` are the step sizes. Every access below is in bounds.
 */
module SlotTable {


  /** The slots malloc is asked for. */
  function Needed(num: nat, step: nat): nat
    requires step > 0
  {
    (num / step + 1) * step
  }

  lemma DivisionIs(num: nat, step: nat, q: nat, r: nat)
    requires step > 0 && num == q * step + r && r < step
    ensures num / step == q && num % step == r
  {
    if num / step < q {
      Ordered(num / step + 1, q, step);
    } else if num / step > q {
      Ordered(q + 1, num / step, step);
    }
  }

  lemma Ordered(a: nat, b: nat, step: nat)
    requires a <= b
    ensures a * step <= b * step
  {
  }

  lemma NeededIs(num: nat, step: nat)
    requires step > 0
    ensures num < Needed(num, step) == num - num % step + step
  {
    assert num == num / step * step + num % step;
    assert (num / step + 1) * step == num / step * step + step;
  }

  lemma NextRemainder(num: nat, step: nat)
    requires step > 0
    ensures (num + 1) % step == if num % step + 1 < step then num % step + 1 else 0
  {
    var q, r := num / step, num % step;
    assert num == q * step + r;
    if r + 1 < step {
      DivisionIs(num + 1, step, q, r + 1);
    } else {
      assert (q + 1) * step == q * step + step;
      DivisionIs(num + 1, step, q + 1, 0);
    }
  }

  /** One entry more needs the same slots, or one step more just when the number becomes a multiple of the step. */
  lemma OneMore(num: nat, step: nat)
    requires step > 0
    ensures if (num + 1) % step == 0 then Needed(num, step) == num + 1 && Needed(num + 1, step) == num + 1 + step
            else Needed(num + 1, step) == Needed(num, step)
  {
    NeededIs(num, step);
    NeededIs(num + 1, step);
    NextRemainder(num, step);
  }

  /** Fewer entries need no more slots. */
  lemma OneFewer(num: nat, step: nat)
    requires step > 0 && num > 0
    ensures Needed(num - 1, step) <= Needed(num, step)
  {
    OneMore(num - 1, step);
  }

  /** memmove of the entries behind `pos` by one place. */
  method MoveDown<T>(a: array<T>, pos: nat, num: nat)
    requires pos < num <= a.Length
    modifies a
    ensures forall j :: 0 <= j < a.Length ==> a[j] == if pos <= j < num - 1 then old(a[j + 1]) else old(a[j])
  {
    for i := pos to num - 1
      invariant forall j :: 0 <= j < a.Length ==> a[j] == if pos <= j < i then old(a[j + 1]) else old(a[j])
    {
      a[i] := a[i + 1];
    }
  }

  class Slots<T(0)> {
    const step: nat
    var slots: array?<T>
    var num: nat

    ghost predicate Valid()
      reads this
    {
      step > 0 && (if slots == null then num == 0 else Needed(num, step) <= slots.Length)
    }

    ghost function Contents(): seq<T>
      reads this, slots
      requires Valid()
    {
      if slots == null then [] else NeededIs(num, step); slots[..num]
    }

    constructor (step: nat)
      requires step > 0
      ensures Valid() && Contents() == [] && slots == null && this.step == step
    {
      this.step := step;
      slots, num := null, 0;
    }

    /** The first allocation, before the first entry. */
    method Allocate()
      requires Valid()
      modifies this`slots
      ensures Valid() && slots != null && Contents() == old(Contents())
      ensures slots == old(slots) || fresh(slots)
    {
      if slots == null {
        slots := new T[step];
        NeededIs(0, step);
      }
    }

    /** A new entry behind the others; at a multiple of the step everything moves to a new array, the new entry's slot included. */
    method Add(x: T)
      requires Valid() && slots != null
      modifies this, slots
      ensures Valid() && slots != null && Contents() == old(Contents()) + [x]
      ensures slots == old(slots) || fresh(slots)
      ensures num == old(num) + 1
    {
      OneMore(num, step);
      NeededIs(num, step);
      NeededIs(num + 1, step);
      ghost var was := slots[..num];
      num := num + 1;
      if num % step == 0 {
        Grow();
      }
      slots[num - 1] := x;
      assert slots[..num] == was + [x];
    }

    /** Copies all entries, `num` of them with the slot about to be filled, to an array of the size needed. */
    method Grow()
      requires step > 0 && slots != null && num <= slots.Length && num <= Needed(num, step)
      modifies this`slots
      ensures fresh(slots) && slots != null && slots.Length == Needed(num, step)
      ensures slots[..num] == old(slots[..num])
    {
      var bigger := new T[Needed(num, step)];
      for i := 0 to num
        invariant bigger[..i] == slots[..i]
        invariant slots == old(slots) && slots[..] == old(slots[..])
        modifies bigger
      {
        bigger[i] := slots[i];
      }
      slots := bigger;
    }

    /** Entries behind `pos` move down by one, and the last slot is cleared. */
    method DeleteAt(pos: nat, blank: T)
      requires Valid() && pos < num
      modifies this`num, slots
      ensures Valid() && Contents() == old(Contents())[..pos] + old(Contents())[pos + 1..]
      ensures num == old(num) - 1 && slots == old(slots)
    {
      NeededIs(num, step);
      MoveDown(slots, pos, num);
      slots[num - 1] := blank;
      OneFewer(num, step);
      num := num - 1;
      NeededIs(num, step);
      assert slots[..num] == old(slots[..num])[..pos] + old(slots[..num])[pos + 1..];
    }

    /** All entries and the array are gone. */
    method Clear()
      requires Valid()
      modifies this
      ensures Valid() && Contents() == [] && slots == null
    {
      slots, num := null, 0;
    }
  }

  datatype Change<T> = Added(x: T) | Deleted(pos: nat) | Cleared

  function Changed<T>(t: seq<T>, c: Change<T>): seq<T> {
    match c
    case Added(x) => t + [x]
    case Deleted(pos) => if pos < |t| then t[..pos] + t[pos + 1..] else t
    case Cleared => []
  }

  /** A list that the first `n` changes are made to. */
  function After<T>(changes: seq<Change<T>>, n: nat): seq<T>
    requires n <= |changes|
  {
    if n == 0 then [] else Changed(After(changes, n - 1), changes[n - 1])
  }

  method Apply<T(0)>(table: Slots<T>, c: Change<T>, blank: T)
    requires table.Valid()
    modifies table, table.slots
    ensures table.Valid() && table.Contents() == Changed(old(table.Contents()), c)
    ensures table.slots == null || table.slots == old(table.slots) || fresh(table.slots)
  {
    NeededIs(table.num, table.step);
    match c
    case Added(x) =>
      table.Allocate();
      table.Add(x);
    case Deleted(pos) =>
      if pos < table.num {
        table.DeleteAt(pos, blank);
      }
    case Cleared =>
      table.Clear();
  }

  /** Any mix of additions, deletions and clearings keeps the capacity and never leaves the array. */
  method ApplyAll<T(0)>(table: Slots<T>, changes: seq<Change<T>>, blank: T)
    requires table.Valid() && table.slots == null
    modifies table
    ensures table.Valid() && table.Contents() == After(changes, |changes|)
  {
    for n := 0 to |changes|
      invariant table.Valid() && table.Contents() == After(changes, n)
      invariant table.slots == null || fresh(table.slots)
    {
      Apply(table, changes[n], blank);
    }
  }
}
