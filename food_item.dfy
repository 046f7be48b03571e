/** The food detail page (`client/src/pages/order/FoodItem.jsx`): the quantity
    counter, the portion and spice selections, and `handleAddToCart`, which
    appends a line to the stored cart without merging it with earlier ones. */
module FoodItem {
  import opened Wrappers
  import opened Cart

  /** The fields of the fetched item that the page reads. */
  datatype FoodRecord = FoodRecord(
    itemName: string, unitPrice: real,
    imageUrls: Option<seq<string>>, portions: Option<seq<string>>)

  const DefaultPortion: string := "Regular"
  const DefaultSpiceLevel: string := "medium"

  /** `Portions?.[0] || "Regular"`. */
  function InitialPortion(item: FoodRecord): (portion: string)
    ensures portion != ""
    ensures item.portions.Some? && |item.portions.value| > 0 && item.portions.value[0] != "" ==>
      portion == item.portions.value[0]
    ensures item.portions.None? || |item.portions.value| == 0 || item.portions.value[0] == "" ==>
      portion == DefaultPortion
  {
    match item.portions
    case None => DefaultPortion
    case Some(ps) => if |ps| > 0 && ps[0] != "" then ps[0] else DefaultPortion
  }

  datatype Click = Increase | Decrease

  /** The counter after one click: up by one, or down by one unless it is at 1. */
  function NextQuantity(q: int, click: Click): (r: int)
    ensures q >= 1 ==> r >= 1
    ensures click == Increase ==> r == q + 1
    ensures click == Decrease ==> r == (if q > 1 then q - 1 else q)
  {
    match click
    case Increase => q + 1
    case Decrease => if q > 1 then q - 1 else q
  }

  /** A decrease undoes an increase, and at 1 a decrease changes nothing. */
  lemma CounterSteps(q: int)
    requires q >= 1
    ensures NextQuantity(NextQuantity(q, Increase), Decrease) == q
    ensures NextQuantity(1, Decrease) == 1
    ensures q > 1 ==> NextQuantity(NextQuantity(q, Decrease), Increase) == q
  {
  }

  /** The line `handleAddToCart` builds for `userId`; `None` where reading
      `imageUrls[0]` throws because the item has no image list (also before
      the item has arrived), which the handler catches and reports. */
  function FoodCartLine(userId: string, id: string, item: Option<FoodRecord>,
                        quantity: int, portion: string, spiceLevel: string): (line: Option<CartEntry>)
    ensures line.None? <==> item.None? || item.value.imageUrls.None?
    ensures line.Some? ==>
      var urls := item.value.imageUrls.value;
      && line.value.itemId == id && line.value.title == item.value.itemName
      && line.value.price == item.value.unitPrice
      && line.value.img == (if |urls| > 0 then urls[0] else "")
      && line.value.quantity == quantity
      && line.value.kind == FoodLine(userId, portion, spiceLevel)
  {
    match item
    case None => None
    case Some(food) =>
      match food.imageUrls
      case None => None
      case Some(urls) =>
        Some(CartEntry(id, food.itemName, food.unitPrice, if |urls| > 0 then urls[0] else "",
                       quantity, FoodLine(userId, portion, spiceLevel)))
  }

  /** What pressing Add to Cart does to the stored cart. */
  datatype AddResult = LoginRequired | AddFailed | Added(saved: seq<CartEntry>)

  /** The handler's outcome: a prompt to log in without a user, the error
      alert when the line cannot be built, else the stored cart (empty when
      nothing is stored) with the line pushed on its end. */
  function AddOutcome(currentUser: Option<string>, stored: Option<seq<CartEntry>>, line: Option<CartEntry>): AddResult {
    if currentUser.None? then LoginRequired
    else if line.None? then AddFailed
    else Added(stored.GetOr([]) + [line.value])
  }

  class FoodItemPage {
    /** The route's `id`, written into every line as `itemId`. */
    const id: string
    var foodItem: Option<FoodRecord>
    var quantity: int
    var selectedPortion: string
    var selectedSpiceLevel: string

    predicate Valid()
      reads this
    {
      quantity >= 1
    }

    /** The page before the item arrives. */
    constructor (id: string)
      ensures this.id == id && foodItem.None?
      ensures quantity == 1 && selectedPortion == "" && selectedSpiceLevel == DefaultSpiceLevel
      ensures Valid()
    {
      this.id := id;
      foodItem := None;
      quantity := 1;
      selectedPortion := "";
      selectedSpiceLevel := DefaultSpiceLevel;
    }

    /** The fetch effect once the item has arrived. */
    method OnItemLoaded(data: FoodRecord)
      modifies this`foodItem, this`selectedPortion
      ensures foodItem == Some(data) && selectedPortion == InitialPortion(data)
    {
      foodItem := Some(data);
      selectedPortion := InitialPortion(data);
    }

    /** `handleIncrease`. */
    method HandleIncrease()
      requires Valid()
      modifies this`quantity
      ensures quantity == NextQuantity(old(quantity), Increase) && Valid()
    {
      quantity := quantity + 1;
    }

    /** `handleDecrease`. */
    method HandleDecrease()
      requires Valid()
      modifies this`quantity
      ensures quantity == NextQuantity(old(quantity), Decrease) && Valid()
    {
      if quantity > 1 {
        quantity := quantity - 1;
      }
    }

    method HandlePortionChange(value: string)
      modifies this`selectedPortion
      ensures selectedPortion == value
    {
      selectedPortion := value;
    }

    method HandleSpiceLevelChange(value: string)
      modifies this`selectedSpiceLevel
      ensures selectedSpiceLevel == value
    {
      selectedSpiceLevel := value;
    }

    /** `handleAddToCart` for the logged-in user's id (`None`: nobody is
        logged in) and the stored cart; the page's own state is not changed. */
    method HandleAddToCart(currentUser: Option<string>, stored: Option<seq<CartEntry>>) returns (r: AddResult)
      ensures r == AddOutcome(currentUser, stored,
        FoodCartLine(currentUser.GetOr(""), id, foodItem, quantity, selectedPortion, selectedSpiceLevel))
    {
      if currentUser.None? {
        return LoginRequired;
      }
      var line := FoodCartLine(currentUser.value, id, foodItem, quantity, selectedPortion, selectedSpiceLevel);
      if line.None? {
        return AddFailed;
      }
      var cart := new Cart.Load(stored);
      cart.Push(line.value);
      r := Added(cart.entries);
    }
  }

  /** A logged-in add grows the cart by exactly one line at its end and keeps
      every earlier line; without a user nothing is written. */
  lemma AddAppends(currentUser: Option<string>, stored: Option<seq<CartEntry>>, line: Option<CartEntry>)
    ensures currentUser.None? ==> AddOutcome(currentUser, stored, line) == LoginRequired
    ensures currentUser.Some? && line.Some? ==>
      var saved := AddOutcome(currentUser, stored, line).saved;
      && |saved| == |stored.GetOr([])| + 1
      && saved[..|stored.GetOr([])|] == stored.GetOr([])
      && saved[|saved| - 1] == line.value
  {
    if currentUser.Some? && line.Some? {
      var saved := AddOutcome(currentUser, stored, line).saved;
      assert saved[..|stored.GetOr([])|] == stored.GetOr([]);
    }
  }

  /** Adding the same dish twice gives two lines, unlike the product list,
      which would merge them. */
  lemma RepeatedAddIsNotMerged(stored: seq<CartEntry>, line: CartEntry)
    ensures var once := AddOutcome(Some("u1"), Some(stored), Some(line)).saved;
      var twice := AddOutcome(Some("u1"), Some(once), Some(line)).saved;
      |twice| == |stored| + 2 && twice[|stored|] == twice[|stored| + 1] == line
  {
  }

  /** An item fetched with an empty image list gets an empty image; one
      without a list cannot be added, and neither can one that has not
      arrived. */
  lemma ImageEdgeCases(item: FoodRecord)
    ensures item.imageUrls == Some([]) ==> FoodCartLine("u1", "d1", Some(item), 1, "Regular", "medium").value.img == ""
    ensures item.imageUrls.None? ==> FoodCartLine("u1", "d1", Some(item), 1, "Regular", "medium").None?
    ensures FoodCartLine("u1", "d1", None, 1, "", "medium").None?
  {
  }
}
