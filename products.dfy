/** The product list (`client/src/components/Products.jsx`): the cart line an
    inventory item becomes, the merge of that line into the stored cart, and
    the stock label and Add-to-Cart button of each card. */
module Products {
  import opened Wrappers
  import opened Js
  import opened Cart

  /** The inventory fields the card and `addToCart` read. */
  datatype Inventory = Inventory(
    id: string, itemName: string, unitPrice: real,
    imageUrls: Option<seq<string>>, stockQuantity: int)

  const DefaultImage: string := "/default-img.jpg"

  /** `imageUrls?.[imageUrls.length - 1] || "/default-img.jpg"`: the last
      image; the default when the list is missing or empty, or its last entry
      is the empty string. */
  function CoverImage(imageUrls: Option<seq<string>>): (img: string)
    ensures imageUrls.None? || imageUrls.value == [] ==> img == DefaultImage
    ensures imageUrls.Some? && imageUrls.value != [] ==>
      img == if imageUrls.value[|imageUrls.value| - 1] == "" then DefaultImage else imageUrls.value[|imageUrls.value| - 1]
    ensures img != ""
  {
    match imageUrls
    case None => DefaultImage
    case Some(urls) =>
      var last := if |urls| > 0 then Some(urls[|urls| - 1]) else None;
      if last.None? || last.value == "" then DefaultImage else last.value
  }

  /** The `cartItem` built for an inventory item: one unit, default size and
      colour. */
  function CartLine(inv: Inventory): (e: CartEntry)
    ensures e.itemId == inv.id && e.title == inv.itemName && e.price == inv.unitPrice
    ensures e.img == CoverImage(inv.imageUrls) && e.quantity == 1
    ensures e.kind == ProductLine("Default", "Default")
  {
    CartEntry(inv.id, inv.itemName, inv.unitPrice, CoverImage(inv.imageUrls), 1, ProductLine("Default", "Default"))
  }

  /** The cart after the merge: the first line with the same itemId gains a
      unit, or the line is appended when there is none. */
  function Merged(entries: seq<CartEntry>, line: CartEntry): seq<CartEntry> {
    var i := FirstIndexOf(entries, line.itemId);
    if i == -1 then entries + [line]
    else entries[i := entries[i].(quantity := entries[i].quantity + 1)]
  }

  /** `addToCart`: the stored cart (`None` when nothing is stored) is loaded,
      merged with the item's line and written back; the result is what is
      written. */
  method AddToCart(stored: Option<seq<CartEntry>>, inv: Inventory) returns (saved: seq<CartEntry>)
    ensures saved == Merged(stored.GetOr([]), CartLine(inv))
  {
    var cartItem := CartLine(inv);
    var existingCart := new Cart.Load(stored);
    var existingItemIndex := existingCart.FindIndex(cartItem.itemId);
    if existingItemIndex != -1 {
      existingCart.IncrementQuantity(existingItemIndex);
    } else {
      existingCart.Push(cartItem);
    }
    saved := existingCart.entries;
  }

  /** An item already in the cart gains one unit on its first line; the
      length and every other line stay as they were. */
  lemma MergeIntoExisting(entries: seq<CartEntry>, line: CartEntry, i: nat)
    requires i < |entries| && entries[i].itemId == line.itemId
    requires forall k :: 0 <= k < i ==> entries[k].itemId != line.itemId
    ensures |Merged(entries, line)| == |entries|
    ensures Merged(entries, line)[i] == entries[i].(quantity := entries[i].quantity + 1)
    ensures forall k :: 0 <= k < |entries| && k != i ==> Merged(entries, line)[k] == entries[k]
  {
    FirstIndexIsUnique(entries, line.itemId, i);
  }

  /** An item not in the cart is appended as the last line with one unit,
      after the unchanged lines. */
  lemma AppendNew(entries: seq<CartEntry>, inv: Inventory)
    requires forall k :: 0 <= k < |entries| ==> entries[k].itemId != inv.id
    ensures var m := Merged(entries, CartLine(inv));
      |m| == |entries| + 1 && m[..|entries|] == entries && m[|entries|] == CartLine(inv) && m[|entries|].quantity == 1
  {
    var m := Merged(entries, CartLine(inv));
    assert m == entries + [CartLine(inv)];
    assert m[..|entries|] == entries;
  }

  /** A cart whose lines have distinct items keeps them distinct. */
  lemma MergeKeepsIdsUnique(entries: seq<CartEntry>, line: CartEntry)
    requires UniqueIds(entries)
    ensures UniqueIds(Merged(entries, line))
  {
    var m := Merged(entries, line);
    var i := FirstIndexOf(entries, line.itemId);
    if i == -1 {
      forall a, b | 0 <= a < b < |m| ensures m[a].itemId != m[b].itemId {
        if b == |entries| {
          assert m[a] == entries[a];
        } else {
          assert m[a] == entries[a] && m[b] == entries[b];
        }
      }
    } else {
      forall a, b | 0 <= a < b < |m| ensures m[a].itemId != m[b].itemId {
        assert m[a].itemId == entries[a].itemId && m[b].itemId == entries[b].itemId;
      }
    }
  }

  /** Independently of where the line lands, the cart holds exactly one more
      unit of the added item and the same number of every other item. */
  lemma MergeAddsOneUnit(entries: seq<CartEntry>, inv: Inventory, id: string)
    ensures QuantityFor(Merged(entries, CartLine(inv)), id) == QuantityFor(entries, id) + (if id == inv.id then 1 else 0)
  {
    var i := FirstIndexOf(entries, inv.id);
    if i == -1 {
      QuantityAfterPush(entries, CartLine(inv), id);
    } else {
      QuantityAfterIncrement(entries, i, id);
    }
  }

  /** With nothing stored, the first item is the whole cart. */
  lemma FirstAddToEmpty(inv: Inventory)
    ensures Merged([], CartLine(inv)) == [CartLine(inv)]
  {
  }

  // ---------------------------------------------------------------------------
  // Stock label and button

  /** The card's stock text: "In Stock (n)" for a positive count, whose
      number reads back as the count, and "Out of Stock" otherwise. */
  function StockLabel(n: int): (text: string)
    ensures text == "Out of Stock" <==> n <= 0
    ensures n > 0 ==>
      && |text| > 11 && text[..10] == "In Stock (" && text[|text| - 1] == ')'
      && ParseNumber(text[10..|text| - 1]) == Num(n as real)
  {
    if n > 0 then
      var digits := DecimalString(n);
      var text := "In Stock (" + digits + ")";
      ParseDecimalString(n);
      assert text[10..|text| - 1] == digits;
      assert text[0] == 'I';
      text
    else "Out of Stock"
  }

  /** `disabled={StockQuantity === 0}` as written. */
  function AddDisabledAsWritten(n: int): (disabled: bool)
    ensures disabled <==> n == 0
  {
    n == 0
  }

  /** A negative count is labelled "Out of Stock" while its button still adds
      the item. */
  lemma NegativeStockIsAddable()
    ensures StockLabel(-1) == "Out of Stock" && !AddDisabledAsWritten(-1)
  {
  }

  /** The button as the label suggests it was meant: disabled exactly when the
      card says "Out of Stock". */
  function AddDisabled(n: int): (disabled: bool)
    ensures disabled <==> n <= 0
  {
    !(n > 0)
  }

  lemma ButtonFollowsLabel(n: int)
    ensures AddDisabled(n) <==> StockLabel(n) == "Out of Stock"
    ensures n >= 0 ==> AddDisabled(n) == AddDisabledAsWritten(n)
  {
  }
}
