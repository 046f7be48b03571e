/** The shopping cart that the product list and the food page share
    (`localStorage["cart"]`, written by `addToCart` in
    `client/src/components/Products.jsx` and by `handleAddToCart` in
    `client/src/pages/order/FoodItem.jsx`). Each handler reads the stored list,
    changes it in place and writes it back; the class below is that list while
    a handler works on it. */
module Cart {
  import opened Wrappers

  /** The fields only one of the two pages writes. */
  datatype LineKind =
    | ProductLine(size: string, color: string)
    | FoodLine(userId: string, portion: string, spiceLevel: string)

  datatype CartEntry = CartEntry(itemId: string, title: string, price: real, img: string, quantity: int, kind: LineKind)

  /** `entries.findIndex(e => e.itemId === id)`. */
  function FirstIndexOf(entries: seq<CartEntry>, id: string): (i: int)
    ensures -1 <= i < |entries|
    ensures i == -1 <==> forall k :: 0 <= k < |entries| ==> entries[k].itemId != id
    ensures 0 <= i ==> entries[i].itemId == id && forall k :: 0 <= k < i ==> entries[k].itemId != id
  {
    if entries == [] then -1
    else if entries[0].itemId == id then 0
    else
      var j := FirstIndexOf(entries[1..], id);
      if j == -1 then -1 else j + 1
  }

  /** No item occurs on two lines. */
  predicate UniqueIds(entries: seq<CartEntry>) {
    forall i, j :: 0 <= i < j < |entries| ==> entries[i].itemId != entries[j].itemId
  }

  /** The units of item `id` over all its lines. */
  function QuantityFor(entries: seq<CartEntry>, id: string): int {
    if entries == [] then 0
    else
      var last := entries[|entries| - 1];
      QuantityFor(entries[..|entries| - 1], id) + (if last.itemId == id then last.quantity else 0)
  }

  lemma {:induction false} QuantityForConcat(a: seq<CartEntry>, b: seq<CartEntry>, id: string)
    ensures QuantityFor(a + b, id) == QuantityFor(a, id) + QuantityFor(b, id)
  {
    if b == [] {
      assert a + b == a;
    } else {
      var c := a + b;
      assert c[..|c| - 1] == a + b[..|b| - 1];
      assert c[|c| - 1] == b[|b| - 1];
      QuantityForConcat(a, b[..|b| - 1], id);
    }
  }

  lemma QuantityForOne(e: CartEntry, id: string)
    ensures QuantityFor([e], id) == if e.itemId == id then e.quantity else 0
  {
    assert [e][..0] == [];
  }

  class Cart {
    var entries: seq<CartEntry>

    /** `JSON.parse(localStorage.getItem("cart")) || []`: the stored list, or
        an empty one when nothing is stored. */
    constructor Load(stored: Option<seq<CartEntry>>)
      ensures entries == stored.GetOr([])
    {
      entries := stored.GetOr([]);
    }

    /** `findIndex` on the itemId. */
    method FindIndex(id: string) returns (i: int)
      ensures i == FirstIndexOf(entries, id)
    {
      i := 0;
      while i < |entries|
        invariant 0 <= i <= |entries|
        invariant forall k :: 0 <= k < i ==> entries[k].itemId != id
      {
        if entries[i].itemId == id {
          FirstIndexIsUnique(entries, id, i);
          return;
        }
        i := i + 1;
      }
      i := -1;
    }

    /** `entries[i].quantity += 1`. */
    method IncrementQuantity(i: nat)
      requires i < |entries|
      modifies this
      ensures entries == old(entries)[i := old(entries)[i].(quantity := old(entries)[i].quantity + 1)]
    {
      entries := entries[i := entries[i].(quantity := entries[i].quantity + 1)];
    }

    /** `entries.push(e)`. */
    method Push(e: CartEntry)
      modifies this
      ensures entries == old(entries) + [e]
    {
      entries := entries + [e];
    }
  }

  /** Any index holding `id` with no earlier one is the `findIndex` answer. */
  lemma FirstIndexIsUnique(entries: seq<CartEntry>, id: string, i: nat)
    requires i < |entries| && entries[i].itemId == id
    requires forall k :: 0 <= k < i ==> entries[k].itemId != id
    ensures FirstIndexOf(entries, id) == i
  {
  }

  /** Appending a line adds its units to its item and changes no other item. */
  lemma QuantityAfterPush(entries: seq<CartEntry>, e: CartEntry, id: string)
    ensures QuantityFor(entries + [e], id) == QuantityFor(entries, id) + (if e.itemId == id then e.quantity else 0)
  {
    QuantityForConcat(entries, [e], id);
    QuantityForOne(e, id);
  }

  /** Raising line i by one adds one unit to its item and changes no other item. */
  lemma QuantityAfterIncrement(entries: seq<CartEntry>, i: nat, id: string)
    requires i < |entries|
    ensures var e := entries[i];
      QuantityFor(entries[i := e.(quantity := e.quantity + 1)], id) ==
        QuantityFor(entries, id) + (if e.itemId == id then 1 else 0)
  {
    var e := entries[i];
    var raised := entries[i := e.(quantity := e.quantity + 1)];
    assert entries == entries[..i] + [e] + entries[i + 1..];
    assert raised == entries[..i] + [raised[i]] + entries[i + 1..];
    QuantityForConcat(entries[..i] + [e], entries[i + 1..], id);
    QuantityForConcat(entries[..i], [e], id);
    QuantityForConcat(entries[..i] + [raised[i]], entries[i + 1..], id);
    QuantityForConcat(entries[..i], [raised[i]], id);
    QuantityForOne(e, id);
    QuantityForOne(raised[i], id);
  }
}
