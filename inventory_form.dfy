/** The form rules of the inventory editor
    (`client/src/pages/inventory/UpdateInventory.jsx`). Each handler builds a new
    form from the old one: field edits with the supplier-contact filter and the
    nested nutritional keys, the duplicate-free size and colour lists, removal
    of an image by position, the guard in front of an image upload, and the
    checks `handleSubmit` makes before it sends the update. */
module InventoryForm {
  import opened Wrappers
  import opened Js

  /** The form state: the scalar fields by name, the nested `nutritionalInfo`
      object, and the three lists. The stored item replaces the whole form, and
      the item schema declares neither `Sizes` nor `Colors`, so either list may
      be absent (`None`). */
  datatype Form = Form(
    fields: map<string, Value>,
    nutritionalInfo: map<string, string>,
    imageUrls: seq<string>,
    sizes: Option<seq<string>>,
    colors: Option<seq<string>>)

  /** The form before the stored item arrives. */
  const InitialForm: Form := Form(
    map[
      "ItemName" := Text(""), "Category" := Text("Main Course"), "SKU" := Text(""),
      "UnitPrice" := Text(""), "description" := Text(""), "StockQuantity" := Text(""),
      "ReorderLevel" := Text(""), "StockStatus" := Text("In Stock"), "SupplierName" := Text(""),
      "SupplierContact" := Text(""), "expiryDate" := Text(""), "storageInstructions" := Text("")
    ],
    map["calories" := "", "protein" := "", "carbs" := "", "fat" := ""],
    [], Some([]), Some([]))

  /** The names that hold lists or objects; no text input carries one of them. */
  const StructuredFields: set<string> := {"imageUrls", "Sizes", "Colors", "nutritionalInfo", "allergenInfo"}

  const NutritionPrefix: string := "nutritionalInfo."

  /** The images an item may carry. */
  const MaxImages: nat := 3

  predicate NoDuplicates(s: seq<string>) {
    forall i, j :: 0 <= i < j < |s| ==> s[i] != s[j]
  }

  // ---------------------------------------------------------------------------
  // Field edits

  /** `/^\d*$/.test(value) && value.length <= 10`. */
  predicate ContactAccepted(value: string) {
    AllDigits(value) && |value| <= 10
  }

  predicate HasNutritionPrefix(name: string) {
    NutritionPrefix <= name
  }

  /** `name.split(".")[1]` for a name that starts with the prefix: the text
      after the first dot up to the next dot, if any. */
  function NutritionKey(name: string): (key: string)
    requires HasNutritionPrefix(name)
    ensures '.' !in key
    ensures key <= name[|NutritionPrefix|..]
    ensures |key| == |name[|NutritionPrefix|..]| || name[|NutritionPrefix|..][|key|] == '.'
  {
    var rest := name[|NutritionPrefix|..];
    var dot := IndexOfChar(rest, '.');
    if dot == -1 then rest else rest[..dot]
  }

  lemma NutritionKeyOfInputs()
    ensures NutritionKey("nutritionalInfo.calories") == "calories"
    ensures NutritionKey("nutritionalInfo.fat") == "fat"
  {
    assert "nutritionalInfo.calories"[|NutritionPrefix|..] == "calories";
    assert "nutritionalInfo.fat"[|NutritionPrefix|..] == "fat";
  }

  /** `handleInputChange` for the input `name` now holding `value`. A rejected
      supplier contact leaves the whole form as it was (the page shows an
      alert instead); the lists never change. */
  function HandleInputChange(form: Form, name: string, value: string): (r: Form)
    requires name !in StructuredFields
    ensures r.imageUrls == form.imageUrls && r.sizes == form.sizes && r.colors == form.colors
    ensures name == "SupplierContact" ==>
      (ContactAccepted(value) ==> r.fields == form.fields[name := Text(value)] && r.nutritionalInfo == form.nutritionalInfo)
      && (!ContactAccepted(value) ==> r == form)
    ensures name != "SupplierContact" && HasNutritionPrefix(name) ==>
      && r.fields == form.fields
      && NutritionKey(name) in r.nutritionalInfo && r.nutritionalInfo[NutritionKey(name)] == value
      && (forall key :: key in form.nutritionalInfo && key != NutritionKey(name) ==>
            key in r.nutritionalInfo && r.nutritionalInfo[key] == form.nutritionalInfo[key])
      && r.nutritionalInfo.Keys == form.nutritionalInfo.Keys + {NutritionKey(name)}
    ensures name != "SupplierContact" && !HasNutritionPrefix(name) ==>
      && r.nutritionalInfo == form.nutritionalInfo
      && name in r.fields && r.fields[name] == Text(value)
      && (forall key :: key in form.fields && key != name ==> key in r.fields && r.fields[key] == form.fields[key])
      && r.fields.Keys == form.fields.Keys + {name}
  {
    if name == "SupplierContact" then
      if ContactAccepted(value) then form.(fields := form.fields[name := Text(value)]) else form
    else if HasNutritionPrefix(name) then
      form.(nutritionalInfo := form.nutritionalInfo[NutritionKey(name) := value])
    else
      form.(fields := form.fields[name := Text(value)])
  }

  /** A stored supplier contact that the page itself could have typed in. */
  predicate ContactValid(form: Form) {
    "SupplierContact" in form.fields ==>
      form.fields["SupplierContact"].Text? && ContactAccepted(form.fields["SupplierContact"].s)
  }

  /** Once the contact is valid, no sequence of edits makes it invalid. */
  lemma EditsKeepContactValid(form: Form, name: string, value: string)
    requires name !in StructuredFields
    requires ContactValid(form)
    ensures ContactValid(HandleInputChange(form, name, value))
  {
    var r := HandleInputChange(form, name, value);
    if name == "SupplierContact" {
      if ContactAccepted(value) {
        assert r.fields["SupplierContact"] == Text(value);
      }
    } else if !HasNutritionPrefix(name) {
      if "SupplierContact" in r.fields {
        assert r.fields["SupplierContact"] == form.fields["SupplierContact"];
      }
    }
  }

  /** The contact input takes "0771234567" and refuses "077-123456" and an
      eleventh digit. */
  lemma ContactExamples(form: Form)
    ensures HandleInputChange(form, "SupplierContact", "0771234567").fields["SupplierContact"] == Text("0771234567")
    ensures HandleInputChange(form, "SupplierContact", "077-123456") == form
    ensures HandleInputChange(form, "SupplierContact", "07712345678") == form
  {
    assert !IsDigit("077-123456"[3]);
  }

  // ---------------------------------------------------------------------------
  // Sizes and colours

  /** `xs.filter(s => s !== x)`. */
  function Without(xs: seq<string>, x: string): (r: seq<string>)
    ensures x !in r
    ensures forall k :: 0 <= k < |r| ==> r[k] in xs
    ensures multiset(r) == multiset(xs)[x := 0]
    ensures x !in xs ==> r == xs
  {
    if xs == [] then []
    else
      assert xs == [xs[0]] + xs[1..];
      (if xs[0] == x then [] else [xs[0]]) + Without(xs[1..], x)
  }

  /** Filtering works piece by piece, so the survivors keep their order. */
  lemma {:induction false} WithoutOfConcat(a: seq<string>, b: seq<string>, x: string)
    ensures Without(a + b, x) == Without(a, x) + Without(b, x)
  {
    if a == [] {
      assert a + b == b;
    } else {
      assert (a + b)[0] == a[0];
      assert (a + b)[1..] == a[1..] + b;
      WithoutOfConcat(a[1..], b, x);
    }
  }

  lemma {:induction false} WithoutKeepsNoDuplicates(xs: seq<string>, x: string)
    requires NoDuplicates(xs)
    ensures NoDuplicates(Without(xs, x))
  {
    if xs != [] {
      TailKeepsNoDuplicates(xs);
      WithoutKeepsNoDuplicates(xs[1..], x);
      if xs[0] != x {
        assert xs[0] !in Without(xs[1..], x);
        ConsKeepsNoDuplicates(xs[0], Without(xs[1..], x));
      }
    }
  }

  lemma TailKeepsNoDuplicates(xs: seq<string>)
    requires xs != [] && NoDuplicates(xs)
    ensures NoDuplicates(xs[1..]) && xs[0] !in xs[1..]
  {
    var tail := xs[1..];
    forall i, j | 0 <= i < j < |tail| ensures tail[i] != tail[j] {
      assert tail[i] == xs[i + 1] && tail[j] == xs[j + 1];
    }
    forall k | 0 <= k < |tail| ensures tail[k] != xs[0] {
      assert tail[k] == xs[k + 1];
    }
  }

  lemma ConsKeepsNoDuplicates(h: string, rest: seq<string>)
    requires h !in rest && NoDuplicates(rest)
    ensures NoDuplicates([h] + rest)
  {
    var r := [h] + rest;
    forall i, j | 0 <= i < j < |r| ensures r[i] != r[j] {
      assert r[j] == rest[j - 1];
      if i > 0 {
        assert r[i] == rest[i - 1];
      }
    }
  }

  /** `handleAddSize`: a non-empty size that is not yet listed is appended and
      the input box is cleared; otherwise form and input stay as they were.
      `None` when the handler throws: a non-empty size tested against a
      missing list (`formData.Sizes.includes`). */
  function AddSize(form: Form, sizeInput: string): (r: Option<(Form, string)>)
    ensures r.None? <==> sizeInput != "" && form.sizes.None?
    ensures sizeInput != "" && form.sizes.Some? && sizeInput !in form.sizes.value ==>
      r == Some((form.(sizes := Some(form.sizes.value + [sizeInput])), ""))
    ensures sizeInput == "" || (form.sizes.Some? && sizeInput in form.sizes.value) ==>
      r == Some((form, sizeInput))
  {
    if sizeInput == "" then Some((form, sizeInput))
    else
      match form.sizes
      case None => None
      case Some(sizes) =>
        if sizeInput !in sizes then Some((form.(sizes := Some(sizes + [sizeInput])), ""))
        else Some((form, sizeInput))
  }

  /** `handleRemoveSize`: every occurrence goes, the rest keep their order;
      `None` when the list is missing and `prevState.Sizes.filter` throws. */
  function RemoveSize(form: Form, size: string): (r: Option<Form>)
    ensures r.None? <==> form.sizes.None?
    ensures form.sizes.Some? ==> r == Some(form.(sizes := Some(Without(form.sizes.value, size))))
  {
    match form.sizes
    case None => None
    case Some(sizes) => Some(form.(sizes := Some(Without(sizes, size))))
  }

  /** Unlike the colour handlers, the size handlers have no default for a
      missing list: an item stored without `Sizes` throws on a removal and on
      any non-empty addition, and stays as it was, while a missing colour
      list is read as empty. */
  lemma MissingSizesThrow(form: Form, size: string)
    requires form.sizes.None?
    ensures RemoveSize(form, size).None?
    ensures size != "" ==> AddSize(form, size).None?
    ensures AddSize(form, "") == Some((form, ""))
    ensures form.colors.None? ==> RemoveColor(form, size).colors == Some([])
  {
  }

  /** The colour list, a missing one read as empty (`Colors || []`). */
  function ColorList(form: Form): seq<string> {
    form.colors.GetOr([])
  }

  /** `handleAddColor`: a picked colour (`None` when none was picked) whose hex
      is not yet listed is appended to the list, a missing list counting as
      empty. */
  function AddColor(form: Form, hex: Option<string>): (r: Form)
    ensures hex.Some? && hex.value !in ColorList(form) ==> r == form.(colors := Some(ColorList(form) + [hex.value]))
    ensures hex.None? || hex.value in ColorList(form) ==> r == form
  {
    match hex
    case None => form
    case Some(h) =>
      if form.colors.Some? && h in form.colors.value then form
      else form.(colors := Some(form.colors.GetOr([]) + [h]))
  }

  /** `handleRemoveColor`: every occurrence goes; a missing list becomes empty. */
  function RemoveColor(form: Form, hex: string): (r: Form)
    ensures r == form.(colors := Some(Without(ColorList(form), hex)))
  {
    form.(colors := Some(Without(form.colors.GetOr([]), hex)))
  }

  /** Both lists stay free of duplicates under the four list handlers. */
  predicate ListsDistinct(form: Form) {
    (form.sizes.Some? ==> NoDuplicates(form.sizes.value)) && NoDuplicates(ColorList(form))
  }

  lemma AppendFreshKeepsNoDuplicates(xs: seq<string>, x: string)
    requires NoDuplicates(xs) && x !in xs
    ensures NoDuplicates(xs + [x])
  {
    var r := xs + [x];
    forall i, j | 0 <= i < j < |r| ensures r[i] != r[j] {
      if j == |xs| {
        assert r[i] == xs[i];
      } else {
        assert r[i] == xs[i] && r[j] == xs[j];
      }
    }
  }

  lemma ListHandlersKeepListsDistinct(form: Form, size: string, hex: Option<string>, gone: string)
    requires ListsDistinct(form)
    ensures AddSize(form, size).Some? ==> ListsDistinct(AddSize(form, size).value.0)
    ensures RemoveSize(form, gone).Some? ==> ListsDistinct(RemoveSize(form, gone).value)
    ensures ListsDistinct(AddColor(form, hex))
    ensures ListsDistinct(RemoveColor(form, gone))
  {
    if form.sizes.Some? {
      if size != "" && size !in form.sizes.value {
        AppendFreshKeepsNoDuplicates(form.sizes.value, size);
      }
      WithoutKeepsNoDuplicates(form.sizes.value, gone);
    }
    if hex.Some? && hex.value !in ColorList(form) {
      AppendFreshKeepsNoDuplicates(ColorList(form), hex.value);
      assert ColorList(AddColor(form, hex)) == ColorList(form) + [hex.value];
    }
    WithoutKeepsNoDuplicates(ColorList(form), gone);
  }

  /** Adding a colour twice adds it once, and removing it afterwards leaves the
      list as it was. */
  lemma AddColorTwiceThenRemove(form: Form, hex: string)
    requires hex !in ColorList(form)
    ensures AddColor(AddColor(form, Some(hex)), Some(hex)) == AddColor(form, Some(hex))
    ensures ColorList(RemoveColor(AddColor(form, Some(hex)), hex)) == ColorList(form)
  {
    var added := AddColor(form, Some(hex));
    assert ColorList(added) == ColorList(form) + [hex];
    WithoutOfConcat(ColorList(form), [hex], hex);
    assert Without([hex], hex) == [];
  }

  // ---------------------------------------------------------------------------
  // Images

  /** `imageUrls.filter((_, i) => i !== index)`. */
  function RemoveAt(xs: seq<string>, index: int): (r: seq<string>)
    ensures 0 <= index < |xs| ==> r == xs[..index] + xs[index + 1..]
    ensures !(0 <= index < |xs|) ==> r == xs
  {
    if xs == [] then []
    else
      var rest := RemoveAt(xs[1..], index - 1);
      if index == 0 then
        assert xs[..0] + xs[1..] == xs[1..];
        rest
      else
        assert 0 < index < |xs| ==> xs[..index] == [xs[0]] + xs[1..][..index - 1];
        assert 0 < index < |xs| ==> xs[index + 1..] == xs[1..][index..];
        assert xs == [xs[0]] + xs[1..];
        [xs[0]] + rest
  }

  /** `handleremoveImage`. */
  function RemoveImage(form: Form, index: int): (r: Form)
    ensures r == form.(imageUrls := RemoveAt(form.imageUrls, index))
  {
    form.(imageUrls := RemoveAt(form.imageUrls, index))
  }

  /** Removing image `index` drops one image and shifts the later ones down. */
  lemma RemoveImageShifts(form: Form, index: nat)
    requires index < |form.imageUrls|
    ensures |RemoveImage(form, index).imageUrls| == |form.imageUrls| - 1
    ensures forall k :: 0 <= k < index ==> RemoveImage(form, index).imageUrls[k] == form.imageUrls[k]
    ensures forall k :: index <= k < |form.imageUrls| - 1 ==> RemoveImage(form, index).imageUrls[k] == form.imageUrls[k + 1]
    ensures multiset(RemoveImage(form, index).imageUrls) == multiset(form.imageUrls) - multiset{form.imageUrls[index]}
  {
    var xs := form.imageUrls;
    assert xs == xs[..index] + [xs[index]] + xs[index + 1..];
  }

  /** The guard of `handleImageSubmit`: at least one file chosen and fewer
      than four images once they are added. */
  predicate CanUpload(fileCount: nat, form: Form) {
    fileCount > 0 && fileCount + |form.imageUrls| < 4
  }

  /** The alert shown when the guard fails. */
  const UploadRefused: string := "You can upload max 6 images"

  /** `handleImageSubmit` for the form as it was when Upload was clicked and
      the form as it is when the uploads settle. The guard is tested on the
      clicked form. Once every chosen file is stored (`urls`, the download
      URLs in the order of the files), the `.then` writes the clicked form
      with the URLs appended, so edits made while the upload ran are lost;
      when the guard refuses or an upload fails (`None`) the current form
      stays. */
  function CompleteUpload(clicked: Form, current: Form, fileCount: nat, urls: Option<seq<string>>): (r: Form)
    requires urls.Some? ==> |urls.value| == fileCount
    ensures urls.None? || !CanUpload(fileCount, clicked) ==> r == current
    ensures urls.Some? && CanUpload(fileCount, clicked) ==>
      r == clicked.(imageUrls := clicked.imageUrls + urls.value)
  {
    if CanUpload(fileCount, clicked) && urls.Some? then clicked.(imageUrls := clicked.imageUrls + urls.value) else current
  }

  /** A field edited during a successful upload goes back to its value at
      the click, and an image removed meanwhile comes back. */
  lemma UploadOverwritesConcurrentEdits(clicked: Form, current: Form, fileCount: nat, urls: seq<string>, key: string)
    requires |urls| == fileCount && CanUpload(fileCount, clicked)
    requires key in clicked.fields
    ensures var r := CompleteUpload(clicked, current, fileCount, Some(urls));
      && r.fields[key] == clicked.fields[key]
      && r.imageUrls[..|clicked.imageUrls|] == clicked.imageUrls
      && r.imageUrls[|clicked.imageUrls|..] == urls
  {
    var r := CompleteUpload(clicked, current, fileCount, Some(urls));
    assert r.imageUrls == clicked.imageUrls + urls;
  }

  predicate ImagesWithinLimit(form: Form) {
    |form.imageUrls| <= MaxImages
  }

  /** Whether or not the upload succeeds, the count stays at or under three,
      the count that the page announces, and a successful one keeps the
      images of the click first; a removal never raises the count. */
  lemma UploadRespectsLimit(clicked: Form, current: Form, fileCount: nat, urls: Option<seq<string>>, index: int)
    requires urls.Some? ==> |urls.value| == fileCount
    requires ImagesWithinLimit(clicked) && ImagesWithinLimit(current)
    ensures ImagesWithinLimit(CompleteUpload(clicked, current, fileCount, urls))
    ensures urls.Some? && CanUpload(fileCount, clicked) ==>
      clicked.imageUrls <= CompleteUpload(clicked, current, fileCount, urls).imageUrls
    ensures ImagesWithinLimit(RemoveImage(current, index))
  {
  }

  /** Whatever the form holds, a chosen batch that would pass three images is
      refused: with two images stored, two more files are too many. */
  lemma FourthImageIsRefused(form: Form)
    requires |form.imageUrls| == 2
    ensures !CanUpload(2, form) && CanUpload(1, form)
  {
  }

  // ---------------------------------------------------------------------------
  // Submit

  /** A scalar field as `<` and `<=` see it; a missing field is `undefined`,
      which compares as NaN. */
  function FieldNumber(form: Form, key: string): JsNum {
    if key in form.fields then ToNumber(form.fields[key]) else NaN
  }

  predicate FieldAtMostZero(form: Form, key: string) {
    FieldNumber(form, key).Num? && FieldNumber(form, key).v <= 0.0
  }

  predicate FieldBelowZero(form: Form, key: string) {
    FieldNumber(form, key).Num? && FieldNumber(form, key).v < 0.0
  }

  /** The three reasons `handleSubmit` refuses to send the update. */
  datatype Refusal = ReorderLevelNotPositive | StockQuantityNegative | UnitPriceNotPositive

  function RefusalMessage(r: Refusal): string {
    match r
    case ReorderLevelNotPositive => "Reorder Level must be greater than zero."
    case StockQuantityNegative => "Stock Quantity must be greater than zero."
    case UnitPriceNotPositive => "Price must be greater than zero."
  }

  /** The checks in front of the request, in the page's order; `None` means
      the request is sent. */
  function SubmitCheck(form: Form): (r: Option<Refusal>)
    ensures r == Some(ReorderLevelNotPositive) <==> FieldAtMostZero(form, "ReorderLevel")
    ensures r == Some(StockQuantityNegative) <==>
      !FieldAtMostZero(form, "ReorderLevel") && FieldBelowZero(form, "StockQuantity")
    ensures r == Some(UnitPriceNotPositive) <==>
      !FieldAtMostZero(form, "ReorderLevel") && !FieldBelowZero(form, "StockQuantity") && FieldAtMostZero(form, "UnitPrice")
  {
    if FieldAtMostZero(form, "ReorderLevel") then Some(ReorderLevelNotPositive)
    else if FieldBelowZero(form, "StockQuantity") then Some(StockQuantityNegative)
    else if FieldAtMostZero(form, "UnitPrice") then Some(UnitPriceNotPositive)
    else None
  }

  /** A form that reaches the request has a positive reorder level, a
      non-negative stock and a positive price, unless the field is not a
      number at all: NaN fails every comparison and so passes every check. */
  lemma SentFormsHaveValidNumbers(form: Form)
    requires SubmitCheck(form).None?
    ensures FieldNumber(form, "ReorderLevel").Num? ==> FieldNumber(form, "ReorderLevel").v > 0.0
    ensures FieldNumber(form, "StockQuantity").Num? ==> FieldNumber(form, "StockQuantity").v >= 0.0
    ensures FieldNumber(form, "UnitPrice").Num? ==> FieldNumber(form, "UnitPrice").v > 0.0
  {
  }

  /** The untouched initial form is refused on its blank reorder level. */
  lemma BlankFormIsRefused()
    ensures SubmitCheck(InitialForm) == Some(ReorderLevelNotPositive)
  {
    assert InitialForm.fields["ReorderLevel"] == Text("");
  }

  /** A price that is not a number passes the price check and is sent. */
  lemma NonNumericPriceIsSent(form: Form)
    requires "ReorderLevel" in form.fields && form.fields["ReorderLevel"] == Number(5.0)
    requires "StockQuantity" in form.fields && form.fields["StockQuantity"] == Number(3.0)
    requires "UnitPrice" in form.fields && form.fields["UnitPrice"] == Text("abc")
    ensures SubmitCheck(form).None?
  {
    assert ParseNumber("abc").NaN? by {
      assert IndexOfChar("abc", '.') == -1;
      assert !IsDigit("abc"[0]);
    }
  }

  /** What `handleSubmit` leaves behind up to the request: the refusal, if any,
      and whether the Update button is still disabled (`loading`). A sent
      request keeps it disabled until the reply. */
  datatype SubmitStep = SubmitStep(refusal: Option<Refusal>, loading: bool)

  /** The handler as written: the price refusal returns without
      `setLoading(false)`. */
  function SubmitAsWritten(form: Form): (r: SubmitStep)
    ensures r.refusal == SubmitCheck(form)
    ensures r.loading <==> r.refusal.None? || r.refusal == Some(UnitPriceNotPositive)
  {
    var refusal := SubmitCheck(form);
    match refusal
    case Some(ReorderLevelNotPositive) => SubmitStep(refusal, false)
    case Some(StockQuantityNegative) => SubmitStep(refusal, false)
    case Some(UnitPriceNotPositive) => SubmitStep(refusal, true)
    case None => SubmitStep(refusal, true)
  }

  /** A form with ReorderLevel 5, StockQuantity 3 and UnitPrice 0 is refused
      for its price and leaves the button disabled on "Updating...". */
  lemma PriceRefusalKeepsButtonDisabled(form: Form)
    requires "ReorderLevel" in form.fields && form.fields["ReorderLevel"] == Number(5.0)
    requires "StockQuantity" in form.fields && form.fields["StockQuantity"] == Number(3.0)
    requires "UnitPrice" in form.fields && form.fields["UnitPrice"] == Number(0.0)
    ensures SubmitAsWritten(form) == SubmitStep(Some(UnitPriceNotPositive), true)
  {
  }

  /** The handler as its other refusals show it was meant: every refusal
      re-enables the button; only a sent request keeps it disabled. */
  function Submit(form: Form): (r: SubmitStep)
    ensures r.refusal == SubmitCheck(form)
    ensures r.loading <==> r.refusal.None?
  {
    var refusal := SubmitCheck(form);
    SubmitStep(refusal, refusal.None?)
  }

  /** The corrected handler agrees with the written one except on the price
      refusal. */
  lemma SubmitDiffersOnlyOnPrice(form: Form)
    ensures Submit(form).refusal == SubmitAsWritten(form).refusal
    ensures Submit(form) != SubmitAsWritten(form) <==> SubmitCheck(form) == Some(UnitPriceNotPositive)
  {
  }

  // ---------------------------------------------------------------------------

  /** The initial form satisfies every invariant above. */
  lemma InitialFormIsWellFormed()
    ensures ContactValid(InitialForm) && ListsDistinct(InitialForm) && ImagesWithinLimit(InitialForm)
  {
  }
}
