// Slot arrays and the item-transfer protocol of components/Game.tsx:
// the stack-aware addToInventory (348-366), the cursor/slot click protocol
// of handleSlotClick (556-606) and the "take one from a slot" step that
// chest placing, planting and eating share (485-486, 522-523, 643-644).
module Inventory {
  import opened Util
  import opened Records
  import opened Catalog

  /** A slot's stack has a positive count and a catalogue id. */
  predicate SlotOk(s: Slot)
  {
    s.Some? ==> s.value.count >= 1 && InCatalog(s.value.id)
  }

  predicate SlotsOk(slots: seq<Slot>)
  {
    forall i :: 0 <= i < |slots| ==> SlotOk(slots[i])
  }

  /** `slot?.id === id` */
  predicate HoldsId(s: Slot, id: int)
  {
    s.Some? && s.value.id == id
  }

  /** Units of item `id` held by one slot. */
  function Units(s: Slot, id: int): int
  {
    if HoldsId(s, id) then s.value.count else 0
  }

  /** Units of item `id` held across a slot array. */
  function Total(slots: seq<Slot>, id: int): int
  {
    if slots == [] then 0 else Units(slots[0], id) + Total(slots[1..], id)
  }

  /** Replacing one slot changes the total by exactly that slot's difference. */
  lemma {:induction false} TotalUpdate(slots: seq<Slot>, i: int, v: Slot, id: int)
    requires 0 <= i < |slots|
    ensures Total(slots[i := v], id) == Total(slots, id) - Units(slots[i], id) + Units(v, id)
  {
    if i == 0 {
      assert slots[i := v][1..] == slots[1..];
    } else {
      assert slots[i := v][1..] == slots[1..][i - 1 := v];
      TotalUpdate(slots[1..], i - 1, v, id);
    }
  }

  /** `findIndex(i => i?.id === id)`: the first slot holding `id`, or -1. */
  function FindId(slots: seq<Slot>, id: int): (r: int)
    ensures -1 <= r < |slots|
    ensures r >= 0 ==> HoldsId(slots[r], id)
    ensures forall j :: 0 <= j < |slots| && (r == -1 || j < r) ==> !HoldsId(slots[j], id)
  {
    if slots == [] then -1
    else if HoldsId(slots[0], id) then 0
    else
      var r := FindId(slots[1..], id);
      if r == -1 then -1 else r + 1
  }

  /** `findIndex(i => i === null)`: the first empty slot, or -1. */
  function FindEmpty(slots: seq<Slot>): (r: int)
    ensures -1 <= r < |slots|
    ensures r >= 0 ==> slots[r].None?
    ensures forall j :: 0 <= j < |slots| && (r == -1 || j < r) ==> slots[j].Some?
  {
    if slots == [] then -1
    else if slots[0].None? then 0
    else
      var r := FindEmpty(slots[1..]);
      if r == -1 then -1 else r + 1
  }

  /** addToInventory succeeds when a stack of the id or an empty slot exists. */
  predicate CanAdd(inv: seq<Slot>, id: int)
  {
    FindId(inv, id) >= 0 || FindEmpty(inv) >= 0
  }

  /** The slot addToInventory writes to, or -1 when the inventory is full. */
  function AddTarget(inv: seq<Slot>, id: int): int
  {
    if FindId(inv, id) >= 0 then FindId(inv, id) else FindEmpty(inv)
  }

  /**
   * The inventory after addToInventory(id, count): the first stack of `id`
   * grows by `count`; otherwise the first empty slot receives the stack;
   * otherwise nothing changes (the caller shows "Inventory Full!").
   */
  function AddedToInventory(inv: seq<Slot>, id: int, count: int): (r: seq<Slot>)
    ensures |r| == |inv|
    ensures forall k :: 0 <= k < |inv| && k != AddTarget(inv, id) ==> r[k] == inv[k]
    ensures FindId(inv, id) >= 0 ==>
              r[FindId(inv, id)] == Some(ItemInstance(id, inv[FindId(inv, id)].value.count + count))
    ensures FindId(inv, id) == -1 && FindEmpty(inv) >= 0 ==>
              r[FindEmpty(inv)] == Some(ItemInstance(id, count))
    ensures !CanAdd(inv, id) ==> r == inv
  {
    var existing := FindId(inv, id);
    if existing != -1 then
      inv[existing := Some(inv[existing].value.(count := inv[existing].value.count + count))]
    else
      var empty := FindEmpty(inv);
      if empty != -1 then inv[empty := Some(ItemInstance(id, count))] else inv
  }

  /** Adding conserves every other item's units and adds `count` units of `id` exactly when it succeeds. */
  lemma AddConserves(inv: seq<Slot>, id: int, count: int, other: int)
    ensures Total(AddedToInventory(inv, id, count), id) == Total(inv, id) + (if CanAdd(inv, id) then count else 0)
    ensures other != id ==> Total(AddedToInventory(inv, id, count), other) == Total(inv, other)
  {
    var r := AddedToInventory(inv, id, count);
    var t := AddTarget(inv, id);
    if t >= 0 {
      assert r == inv[t := r[t]];
      TotalUpdate(inv, t, r[t], id);
      TotalUpdate(inv, t, r[t], other);
    }
  }

  /** Adding a positive count of a catalogue id keeps every slot well-formed. */
  lemma AddKeepsSlotsOk(inv: seq<Slot>, id: int, count: int)
    requires SlotsOk(inv) && InCatalog(id) && count >= 1
    ensures SlotsOk(AddedToInventory(inv, id, count))
  {
  }

  /** Both hold a stack of the same id: handleSlotClick merges them. */
  predicate Stacks(cursor: Slot, target: Slot)
  {
    cursor.Some? && target.Some? && cursor.value.id == target.value.id
  }

  /**
   * handleSlotClick on slot `index` of `slots` with `cursor` held: returns
   * the new cursor and the new slot array. Every outcome but stacking
   * exchanges the cursor with the slot (an empty exchange is the no-op); a
   * stack of the same id absorbs the cursor.
   */
  function ClickSlot(cursor: Slot, slots: seq<Slot>, index: int): (r: (Slot, seq<Slot>))
    requires 0 <= index < |slots|
    ensures |r.1| == |slots|
    ensures forall k :: 0 <= k < |slots| && k != index ==> r.1[k] == slots[k]
    ensures !Stacks(cursor, slots[index]) ==> r.0 == slots[index] && r.1[index] == cursor
    ensures Stacks(cursor, slots[index]) ==>
              r.0 == None
              && r.1[index] == Some(ItemInstance(cursor.value.id, slots[index].value.count + cursor.value.count))
  {
    var target := slots[index];
    if cursor.Some? && target.None? then
      (None, slots[index := cursor])                       // place
    else if cursor.None? && target.Some? then
      (target, slots[index := None])                       // pick up
    else if cursor.Some? && target.Some? then
      if cursor.value.id == target.value.id then           // stack
        (None, slots[index := Some(target.value.(count := target.value.count + cursor.value.count))])
      else
        (target, slots[index := cursor])                   // swap
    else
      (cursor, slots)                                      // nothing held, nothing there
  }

  /** A click conserves, for every item id, the units held by cursor and array together. */
  lemma ClickConserves(cursor: Slot, slots: seq<Slot>, index: int, id: int)
    requires 0 <= index < |slots|
    ensures var r := ClickSlot(cursor, slots, index);
            Units(r.0, id) + Total(r.1, id) == Units(cursor, id) + Total(slots, id)
  {
    var r := ClickSlot(cursor, slots, index);
    assert r.1 == slots[index := r.1[index]];
    TotalUpdate(slots, index, r.1[index], id);
  }

  /** Clicking the same slot twice undoes a click that did not stack. */
  lemma ClickTwiceUndoes(cursor: Slot, slots: seq<Slot>, index: int)
    requires 0 <= index < |slots| && !Stacks(cursor, slots[index])
    ensures var r := ClickSlot(cursor, slots, index);
            ClickSlot(r.0, r.1, index) == (cursor, slots)
  {
    var r := ClickSlot(cursor, slots, index);
    var s := ClickSlot(r.0, r.1, index);
    assert s.1 == slots;
  }

  /** A click keeps every slot and the cursor well-formed. */
  lemma ClickKeepsSlotsOk(cursor: Slot, slots: seq<Slot>, index: int)
    requires 0 <= index < |slots| && SlotOk(cursor) && SlotsOk(slots)
    ensures SlotOk(ClickSlot(cursor, slots, index).0) && SlotsOk(ClickSlot(cursor, slots, index).1)
  {
  }

  /** `n[i]!.count--; if (n[i]!.count <= 0) n[i] = null;` */
  function TakeOne(inv: seq<Slot>, i: int): (r: seq<Slot>)
    requires 0 <= i < |inv| && inv[i].Some?
    ensures |r| == |inv|
    ensures forall k :: 0 <= k < |inv| && k != i ==> r[k] == inv[k]
    ensures r[i].None? <==> inv[i].value.count <= 1
    ensures r[i].Some? ==> r[i].value == ItemInstance(inv[i].value.id, inv[i].value.count - 1)
  {
    var left := inv[i].value.count - 1;
    if left <= 0 then inv[i := None] else inv[i := Some(inv[i].value.(count := left))]
  }

  /** Taking one from a well-formed stack removes exactly one unit of its id and nothing else. */
  lemma TakeOneConserves(inv: seq<Slot>, i: int, id: int)
    requires 0 <= i < |inv| && inv[i].Some? && inv[i].value.count >= 1
    ensures Total(TakeOne(inv, i), id) == Total(inv, id) - (if id == inv[i].value.id then 1 else 0)
  {
    var r := TakeOne(inv, i);
    assert r == inv[i := r[i]];
    TotalUpdate(inv, i, r[i], id);
  }

  lemma TakeOneKeepsSlotsOk(inv: seq<Slot>, i: int)
    requires 0 <= i < |inv| && inv[i].Some? && SlotsOk(inv)
    ensures SlotsOk(TakeOne(inv, i))
  {
  }
}
