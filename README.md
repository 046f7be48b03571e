# Food order management — verified model of the client rules and the BMI hook

This project models, in Dafny, the decision rules of the Food Order Management web
application (a React client with an Express/Mongoose API):

- the **food-photo classifier** of the profile page: a fixed 33-label catalog, the arg-max
  over the model's scores with its 0.7 confidence gate and first-index tie-break, and the
  label rendering (`food_classifier.dfy`);
- the **prediction session** of that page: the cached model and its loading flag, the chosen
  photo, the prediction text, the busy flag and the nutrition record, moved by `loadModel`,
  `handlePredictionImageUpload`, `predict` and `handlePredict` (`prediction_session.dfy`, a class);
- the profile page's **BMI recompute** in `handleChange` and its BMI category and colour
  (`profile_bmi.dfy`), and the user document's schema defaults and `pre('save')` BMI hook
  (`user_model.dfy`, a class);
- the **inventory editor's form rules**: field edits, the supplier-contact filter, nested
  nutritional keys, duplicate-free size and colour lists, image removal by position, the
  upload guard and the submit checks (`inventory_form.dfy`);
- the **order editor**: email and phone validators, customer and delivery edits, the update of
  one order line, the order total and the save gate (`order_edit.dfy`);
- the **shared cart** in local storage (`cart.dfy`, a class), the product list's merge-or-append
  `addToCart`, cover image and stock label (`products.dfy`), and the food page's quantity
  counter and append-only `handleAddToCart` (`food_item.dfy`, a class).

`js.dfy` writes out the JavaScript semantics the handlers rely on: truthiness, the coercion of
form strings to numbers (with NaN), the `\d` and `\s` classes, and `+x.toFixed(2)`.
`wrappers.dfy` holds `Option` and `Result`.

Inputs the code receives from outside are parameters of the model:

- what the model fetch, the inference and the nutrition lookup resolve to;
- whether the chosen photo loads;
- the object URL of a chosen file and the download URLs of finished uploads;
- the stored cart;
- the logged-in user.

The catalog has 33 labels (client/src/pages/Profile.jsx:134-168). The food page reads
`imageUrls[0]`, which throws when the item has no image list, so such an item cannot be added;
only an empty list gives the empty image.

## Model

| member | source | states |
|---|---|---|
| Js.ToFixed2 | api/models/user.model.js:60 | `+x.toFixed(2)` is within half a hundredth of x, is a whole number of hundredths, and is non-negative for non-negative x |
| Js.ParseDecimalString | client/src/pages/Profile.jsx:306-307 | `Number` applied to the decimal rendering of a natural number, with or without a leading minus, gives that number back |
| UserModel.SavedBmi | api/models/user.model.js:57-64 | the stored bmi is 0 unless height and weight are both positive; then it is non-negative and within 0.005 of weight/(height/100)² |
| UserModel.GuardIsPositivity | api/models/user.model.js:58 | the hook's truthiness tests add nothing to its positivity tests |
| UserModel.UnroundedBmiPositive | api/models/user.model.js:58-63 | the unrounded index is positive exactly when height and weight both are, and never negative |
| UserModel.UserDocument.constructor | api/models/user.model.js:25-51 | a new document is not a manager, is a "customer", has the default avatar, and has height, weight and bmi 0 |
| UserModel.UserDocument.PreSave | api/models/user.model.js:57-65 | saving recomputes bmi from height and weight and changes nothing else |
| UserModel.SaveIgnoresSuppliedBmi | api/models/user.model.js:57-64 | two documents that differ only in their stale bmi store the same bmi once saved |
| ProfileBmi.HandleChange | client/src/pages/Profile.jsx:299-315 | the edited field takes the typed text and the others keep their values; bmi becomes the rounded client formula exactly when the recompute test holds, and the form is otherwise only the edit |
| ProfileBmi.BmiKeptWithoutMeasures | client/src/pages/Profile.jsx:302-311 | an edit of another field, or a blank, non-positive or non-numeric height or weight, keeps the stored bmi (or its absence) |
| ProfileBmi.ClientAgreesWithSaveHook | client/src/pages/Profile.jsx:306-309 | for positive height and weight, the page's recomputed bmi equals the one the server's save hook stores |
| ProfileBmi.BmiCategory | client/src/pages/Profile.jsx:404-410 | each category name is returned exactly on its interval: 0, under 18.5, [18.5, 25), [25, 30), 30 and over |
| ProfileBmi.BmiColor | client/src/pages/Profile.jsx:412-418 | the colour is the one of the index's category (gray, blue, green, yellow, red), and gray exactly when the index is 0 |
| ProfileBmi.ColorFollowsCategory | client/src/pages/Profile.jsx:404-418 | two indices share a colour exactly when they share a category |
| ProfileBmi.SavedWithoutMeasuresIsNotCalculated | client/src/pages/Profile.jsx:404-406 | a document saved without positive measures shows "Not calculated"; a positive stored index never does |
| FoodClassifier.CatalogIsDistinct | client/src/pages/Profile.jsx:134-168 | the catalog has 33 labels and none occurs twice |
| FoodClassifier.CatalogHasNoSpaces | client/src/pages/Profile.jsx:134-168 | no catalog label contains a space |
| FoodClassifier.RenderLabel | client/src/pages/Profile.jsx:191 | the rendered label has the same length and every underscore, and only underscores, become spaces |
| FoodClassifier.RenderedHasNoUnderscore | client/src/pages/Profile.jsx:191 | a rendered label contains no underscore |
| FoodClassifier.RenderIsInjective | client/src/pages/Profile.jsx:191 | labels without spaces that render alike are equal |
| FoodClassifier.RenderedCatalogIsDistinct | client/src/pages/Profile.jsx:134-168 | the rendered labels of distinct catalog indices differ |
| FoodClassifier.MaxScore | client/src/pages/Profile.jsx:184 | `Math.max` of a non-empty vector is one of its scores and no score exceeds it |
| FoodClassifier.IndexOf | client/src/pages/Profile.jsx:189 | `indexOf` gives the first position holding the value, or -1 exactly when it is absent |
| FoodClassifier.Classify | client/src/pages/Profile.jsx:184-191 | rejection exactly when the batch is missing, empty or every score is below 0.7; otherwise the chosen index holds the maximum, at least 0.7, with every earlier score strictly smaller; it has a label exactly when it is inside the catalog, and the label is the rendered catalog entry |
| FoodClassifier.TieGoesToLowerIndex | client/src/pages/Profile.jsx:189 | of two positions holding a confident maximum, the earlier one or an even earlier one is chosen |
| FoodClassifier.PizzaIsAccepted | client/src/pages/Profile.jsx:157 | a vector peaking at 0.92 on index 22 is accepted as "pizza" |
| FoodClassifier.LowConfidenceIsRejected | client/src/pages/Profile.jsx:184-187 | a vector whose best score is 0.55 is rejected |
| FoodClassifier.PastCatalogIsUnlabelled | client/src/pages/Profile.jsx:190-191 | a confident maximum at index 33 has no label |
| PredictionSession.Session.constructor | client/src/pages/Profile.jsx:50-65 | a fresh page has no model, no image, no text, no nutrition record and neither flag up |
| PredictionSession.Session.LoadModel | client/src/pages/Profile.jsx:83-98 | the loading flag is up during the fetch and down after it on both paths; a fetched model is cached and returned; a failed fetch throws "Failed to load model" and leaves the cache as it was |
| PredictionSession.Session.Mount | client/src/pages/Profile.jsx:71-72 | the mount effect loads the model, caching it only when the fetch succeeds |
| PredictionSession.Session.UploadPredictionImage | client/src/pages/Profile.jsx:112-119 | a chosen file becomes the image and clears the previous result; no file changes nothing |
| PredictionSession.Session.Predict | client/src/pages/Profile.jsx:122-203 | the session moves exactly as the prediction run says, and the loading flag ends up down whenever a load was attempted |
| PredictionSession.Session.HandlePredict | client/src/pages/Profile.jsx:206-224 | without an image nothing changes; otherwise the busy flag is up during the run and down after it on every path, and a thrown error's message, or the fallback text, replaces the prediction |
| PredictionSession.LoadOnlyWhenUncached | client/src/pages/Profile.jsx:123-127 | `loadModel` is called exactly when no model is cached; a failed load throws and changes nothing else |
| PredictionSession.RetryAfterFailedLoads | client/src/pages/Profile.jsx:83-98 | after failed loads the next run loads again; once a load succeeds later runs reuse the cached model |
| PredictionSession.LowConfidenceMakesNoLookup | client/src/pages/Profile.jsx:184-187 | a missing batch or a maximum below 0.7 sets exactly the rejection text, makes no lookup, throws nothing and keeps the nutrition record |
| PredictionSession.ConfidentPredictionQueriesLabel | client/src/pages/Profile.jsx:189-194 | a confident in-catalog maximum shows the rendered label of its first index and queries the nutrition service with that text |
| PredictionSession.NutritionHandOff | client/src/pages/Profile.jsx:194-198 | the record becomes `foods[0]` only when the answer carries a non-empty `foods`; a failed lookup, or one without `foods`, keeps it, and an empty `foods` clears it |
| PredictionSession.PastCatalogIsReportedAsError | client/src/pages/Profile.jsx:206-224 | an arg-max past the catalog shows the `TypeError` message and makes no lookup |
| PredictionSession.HandlePredictEdgeCases | client/src/pages/Profile.jsx:206-224 | without an image nothing changes; a failed model load is shown as "Failed to load model" |
| InventoryForm.NutritionKey | client/src/pages/inventory/UpdateInventory.jsx:161 | the key is the longest dot-free prefix of the text after "nutritionalInfo." |
| InventoryForm.NutritionKeyOfInputs | client/src/pages/inventory/UpdateInventory.jsx:161 | the page's inputs map to the keys "calories" and "fat" |
| InventoryForm.HandleInputChange | client/src/pages/inventory/UpdateInventory.jsx:146-172 | a supplier contact is stored only when it is at most 10 digits, otherwise nothing changes; a nutritional edit changes only that nested key; any other edit changes only that field; the lists never change |
| InventoryForm.EditsKeepContactValid | client/src/pages/inventory/UpdateInventory.jsx:149-159 | once the stored contact is valid, no edit makes it invalid |
| InventoryForm.ContactExamples | client/src/pages/inventory/UpdateInventory.jsx:149-159 | ten digits are accepted; a dash or an eleventh digit is refused and the form is kept |
| InventoryForm.Without | client/src/pages/inventory/UpdateInventory.jsx:199 | filtering removes every occurrence and keeps each other element as often as before |
| InventoryForm.WithoutOfConcat | client/src/pages/inventory/UpdateInventory.jsx:199 | filtering distributes over concatenation, so the survivors keep their order |
| InventoryForm.WithoutKeepsNoDuplicates | client/src/pages/inventory/UpdateInventory.jsx:199 | filtering a duplicate-free list leaves it duplicate-free |
| InventoryForm.AddSize | client/src/pages/inventory/UpdateInventory.jsx:185-193 | a non-empty, unlisted size is appended and the input box cleared; an empty or listed size leaves form and box as they were; the handler throws exactly when a non-empty size meets a missing list |
| InventoryForm.RemoveSize | client/src/pages/inventory/UpdateInventory.jsx:196-201 | the sizes become the filtered list and nothing else changes; the handler throws exactly when the list is missing |
| InventoryForm.MissingSizesThrow | client/src/pages/inventory/UpdateInventory.jsx:185-220 | an item stored without `Sizes` throws on a removal and on a non-empty addition, while an empty addition changes nothing and a missing colour list is read as empty |
| InventoryForm.AddColor | client/src/pages/inventory/UpdateInventory.jsx:204-211 | a picked, unlisted colour is appended, a missing list counting as empty; otherwise nothing changes |
| InventoryForm.RemoveColor | client/src/pages/inventory/UpdateInventory.jsx:214-220 | the colours become the filtered list, a missing one becoming empty |
| InventoryForm.ListHandlersKeepListsDistinct | client/src/pages/inventory/UpdateInventory.jsx:185-220 | all four list handlers, when they do not throw, keep both lists duplicate-free |
| InventoryForm.AddColorTwiceThenRemove | client/src/pages/inventory/UpdateInventory.jsx:204-220 | adding a colour twice adds it once, and removing it restores the list |
| InventoryForm.RemoveAt | client/src/pages/inventory/UpdateInventory.jsx:142 | filtering by position drops exactly the element at a valid index and keeps the list for any other index |
| InventoryForm.RemoveImage | client/src/pages/inventory/UpdateInventory.jsx:139-144 | only the image list changes, by removal at the index |
| InventoryForm.RemoveImageShifts | client/src/pages/inventory/UpdateInventory.jsx:139-144 | the length drops by one, earlier images stay, later ones shift down, and exactly one copy of the removed URL goes |
| InventoryForm.CompleteUpload | client/src/pages/inventory/UpdateInventory.jsx:70-100 | the guard is tested on the form at the click; a guarded, successful upload writes that click-time form with the new URLs after its images; a refused or failed one leaves the current form |
| InventoryForm.UploadOverwritesConcurrentEdits | client/src/pages/inventory/UpdateInventory.jsx:82-87 | a successful upload resets every field to its value at the click and restores the click-time images, followed by the new URLs |
| InventoryForm.UploadRespectsLimit | client/src/pages/inventory/UpdateInventory.jsx:71-74 | whatever the upload does the count stays at most 3, a successful one keeps the click-time images first, and removals never raise the count |
| InventoryForm.FourthImageIsRefused | client/src/pages/inventory/UpdateInventory.jsx:71-74 | with two images stored, one more file is accepted and two are refused |
| InventoryForm.SubmitCheck | client/src/pages/inventory/UpdateInventory.jsx:228-258 | the refusal is for the reorder level exactly when it is at most 0; for the stock exactly when that passes and the stock is negative; for the price exactly when both pass and the price is at most 0 |
| InventoryForm.SentFormsHaveValidNumbers | client/src/pages/inventory/UpdateInventory.jsx:228-258 | a form that reaches the request has a positive reorder level, non-negative stock and positive price, each unless it is not a number |
| InventoryForm.BlankFormIsRefused | client/src/pages/inventory/UpdateInventory.jsx:228-237 | the untouched initial form is refused for its blank reorder level |
| InventoryForm.NonNumericPriceIsSent | client/src/pages/inventory/UpdateInventory.jsx:250 | a price that is not a number passes the check |
| InventoryForm.SubmitAsWritten | client/src/pages/inventory/UpdateInventory.jsx:222-258 | as written, the button stays disabled after a sent request and after the price refusal, and is re-enabled after the two other refusals |
| InventoryForm.PriceRefusalKeepsButtonDisabled | client/src/pages/inventory/UpdateInventory.jsx:250-258 | ReorderLevel 5, StockQuantity 3, UnitPrice 0 is refused for its price and leaves the button disabled |
| InventoryForm.Submit | client/src/pages/inventory/UpdateInventory.jsx:224-258 | the corrected handler re-enables the button after every refusal and keeps it disabled only while a request is sent |
| InventoryForm.SubmitDiffersOnlyOnPrice | client/src/pages/inventory/UpdateInventory.jsx:250-258 | the corrected and written handlers refuse the same forms and differ only on the price refusal |
| InventoryForm.InitialFormIsWellFormed | client/src/pages/inventory/UpdateInventory.jsx:18-41 | the initial form has a valid contact, duplicate-free lists and no images |
| OrderEdit.EmailAcceptedIsPattern | client/src/pages/order/EditOrderPopup.jsx:18-19 | the string check holds exactly when the string splits as a@b.c with a, b, c non-empty runs free of white space and `@` |
| OrderEdit.ValidateField | client/src/pages/order/EditOrderPopup.jsx:15-26 | the email error is "Invalid email address" unless the address check holds, the mobile error "Phone number must be 10 digits" unless the value is exactly 10 digits, and every other field has no error |
| OrderEdit.EmailErrorIsPattern | client/src/pages/order/EditOrderPopup.jsx:17-19 | the email error is empty exactly when the regular expression matches the tested text |
| OrderEdit.ValidEmailExample | client/src/pages/order/EditOrderPopup.jsx:18-19 | "ann@mail.lk" is valid |
| OrderEdit.DotlessEmailExample | client/src/pages/order/EditOrderPopup.jsx:18-19 | "ann@mail" is invalid |
| OrderEdit.DoubleAtEmailExample | client/src/pages/order/EditOrderPopup.jsx:18-19 | "ann@@mail.lk" is invalid |
| OrderEdit.MissingFieldsAreInvalid | client/src/pages/order/EditOrderPopup.jsx:53-54 | a missing email or phone is tested as "undefined" and is invalid |
| OrderEdit.MissingEmailIsInvalid | client/src/pages/order/EditOrderPopup.jsx:53 | "undefined", the text tested for a missing address, fails the address check |
| OrderEdit.PhoneExamples | client/src/pages/order/EditOrderPopup.jsx:21-22 | ten digits are valid; nine digits or a letter are not |
| OrderEdit.ApplyEdit | client/src/pages/order/EditOrderPopup.jsx:41 | the edited field takes the new value and every other field of the line keeps its own |
| OrderEdit.HandleItemChange | client/src/pages/order/EditOrderPopup.jsx:39-43 | the copy has the same length, line `index` edited and every other line unchanged |
| OrderEdit.CountedQuantity | client/src/pages/order/EditOrderPopup.jsx:47 | a missing, NaN or zero quantity counts as 1, any other as itself |
| OrderEdit.Total | client/src/pages/order/EditOrderPopup.jsx:45-50 | no lines total 0, and lines that each cost 0 or more never total less than 0 |
| OrderEdit.TotalOfConcat | client/src/pages/order/EditOrderPopup.jsx:45-50 | the total adds up over any split of the lines |
| OrderEdit.TotalOfOne | client/src/pages/order/EditOrderPopup.jsx:45-50 | the total of one line is that line's price times its counted quantity |
| OrderEdit.TotalAfterEdit | client/src/pages/order/EditOrderPopup.jsx:39-50 | editing one line changes the total by that line's change alone |
| OrderEdit.QuantityEdgeCases | client/src/pages/order/EditOrderPopup.jsx:47 | instructions never change the total; a NaN quantity prices one unit; a negative quantity gives a negative line |
| OrderEdit.Open | client/src/pages/order/EditOrderPopup.jsx:9-13 | missing parts open as empty, a missing or empty status as "Pending", with no errors |
| OrderEdit.HandleInputChange | client/src/pages/order/EditOrderPopup.jsx:28-37 | a customer edit stores the value and records its error; a delivery edit only stores the value |
| OrderEdit.EditsKeepErrorsCurrent | client/src/pages/order/EditOrderPopup.jsx:28-37 | every error shown stays the verdict on its field's current value |
| OrderEdit.HandleUpdate | client/src/pages/order/EditOrderPopup.jsx:52-63 | the request is blocked exactly when the address check or the phone check fails, and then both verdicts are recorded; otherwise the edited copies are sent |
| OrderEdit.UpdateBlockedIffInvalid | client/src/pages/order/EditOrderPopup.jsx:52-63 | Save is blocked exactly when the email fails the regular expression or the phone is not ten digits |
| OrderEdit.BlockedUpdateIsStable | client/src/pages/order/EditOrderPopup.jsx:52-63 | a blocked save records both errors, at least one non-empty, keeps every shown error current, and a second save is blocked the same way |
| OrderEdit.BlockedRecordsCurrentErrors | client/src/pages/order/EditOrderPopup.jsx:56-61 | the errors a blocked save records are the verdicts on the current customer fields |
| OrderEdit.BlockedAgainAfterBlock | client/src/pages/order/EditOrderPopup.jsx:52-63 | after a blocked save both errors are recorded, one non-empty, and saving again changes nothing |
| OrderEdit.BlockedWhenErrorsRecorded | client/src/pages/order/EditOrderPopup.jsx:52-63 | a form whose recorded errors already are the verdicts, one non-empty, is blocked without change |
| OrderEdit.MissingContactBlocks | client/src/pages/order/EditOrderPopup.jsx:9-63 | an order opened without customer details cannot be saved |
| Cart.FirstIndexOf | client/src/components/Products.jsx:43 | the first line with the item id, or -1 exactly when there is none |
| Cart.Cart.Load | client/src/components/Products.jsx:40 | the stored list, or an empty cart when nothing is stored |
| Cart.Cart.FindIndex | client/src/components/Products.jsx:43 | the scan returns the first line with the item id, or -1 |
| Cart.Cart.IncrementQuantity | client/src/components/Products.jsx:46 | line i gains one unit and nothing else changes |
| Cart.Cart.Push | client/src/components/Products.jsx:48 | the line is appended at the end |
| Cart.FirstIndexIsUnique | client/src/components/Products.jsx:43 | an index holding the id with none before it is the `findIndex` answer |
| Cart.QuantityAfterPush | client/src/components/Products.jsx:48 | appending adds the line's units to its own item only |
| Cart.QuantityAfterIncrement | client/src/components/Products.jsx:46 | raising a line adds one unit to its own item only |
| Products.CoverImage | client/src/components/Products.jsx:33 | the last image, or "/default-img.jpg" when the list is missing or empty or its last entry is empty |
| Products.CartLine | client/src/components/Products.jsx:29-37 | the line carries the item's id, name, price and cover image, one unit and default size and colour |
| Products.AddToCart | client/src/components/Products.jsx:28-56 | the cart written back is the stored one (empty if none) merged with the item's line |
| Products.MergeIntoExisting | client/src/components/Products.jsx:43-46 | an item already present gains a unit on its first line; the length and the other lines are unchanged |
| Products.AppendNew | client/src/components/Products.jsx:47-49 | an absent item is appended with one unit after the unchanged lines |
| Products.MergeKeepsIdsUnique | client/src/components/Products.jsx:43-49 | distinct item ids stay distinct |
| Products.MergeAddsOneUnit | client/src/components/Products.jsx:43-49 | the cart holds one more unit of the added item and the same of every other |
| Products.FirstAddToEmpty | client/src/components/Products.jsx:40-49 | with nothing stored, the item's line is the whole cart |
| Products.StockLabel | client/src/components/Products.jsx:106-111 | "Out of Stock" exactly for a count of 0 or less; otherwise "In Stock (n)" whose number reads back as the count |
| Products.AddDisabledAsWritten | client/src/components/Products.jsx:117 | as written, the button is disabled exactly at a count of 0 |
| Products.NegativeStockIsAddable | client/src/components/Products.jsx:106-117 | a count of -1 is labelled "Out of Stock" while its button is enabled |
| Products.AddDisabled | client/src/components/Products.jsx:117 | the corrected button is disabled exactly for a count of 0 or less |
| Products.ButtonFollowsLabel | client/src/components/Products.jsx:106-117 | the corrected button is disabled exactly when the label says "Out of Stock", and agrees with the written one on counts of 0 or more |
| FoodItem.InitialPortion | client/src/pages/order/FoodItem.jsx:27 | the first portion when there is a non-empty one, else "Regular" |
| FoodItem.NextQuantity | client/src/pages/order/FoodItem.jsx:58-61 | increase adds one; decrease subtracts one only above 1; a counter at 1 or more stays there |
| FoodItem.CounterSteps | client/src/pages/order/FoodItem.jsx:58-61 | a decrease undoes an increase, and at 1 a decrease changes nothing |
| FoodItem.FoodCartLine | client/src/pages/order/FoodItem.jsx:75-85 | no line when the item or its image list is missing; otherwise the line has the route id, the item's name and price, the first image or "", and the page's quantity, portion, spice level and user |
| FoodItem.FoodItemPage.constructor | client/src/pages/order/FoodItem.jsx:9-14 | the page starts with quantity 1, no portion, spice level "medium" and no item |
| FoodItem.FoodItemPage.OnItemLoaded | client/src/pages/order/FoodItem.jsx:26-27 | the arrived item is kept and the portion set from it |
| FoodItem.FoodItemPage.HandleIncrease | client/src/pages/order/FoodItem.jsx:58 | the counter goes up by one and stays at 1 or more |
| FoodItem.FoodItemPage.HandleDecrease | client/src/pages/order/FoodItem.jsx:59-61 | the counter goes down by one only above 1 and stays at 1 or more |
| FoodItem.FoodItemPage.HandlePortionChange | client/src/pages/order/FoodItem.jsx:114 | the portion becomes the chosen value |
| FoodItem.FoodItemPage.HandleSpiceLevelChange | client/src/pages/order/FoodItem.jsx:115 | the spice level becomes the chosen value |
| FoodItem.FoodItemPage.HandleAddToCart | client/src/pages/order/FoodItem.jsx:64-111 | without a user, the login prompt; with a user but no line, the error; otherwise the stored cart with the page's line pushed on its end |
| FoodItem.AddAppends | client/src/pages/order/FoodItem.jsx:65-89 | without a user nothing is written; otherwise the cart grows by one line at its end and keeps every earlier line |
| FoodItem.RepeatedAddIsNotMerged | client/src/pages/order/FoodItem.jsx:87-89 | adding the same dish twice gives two equal lines at the end |
| FoodItem.ImageEdgeCases | client/src/pages/order/FoodItem.jsx:80 | an empty image list gives the empty image; a missing list, or an item not yet arrived, gives no line |

## Left out

- Model fetch and inference: the TensorFlow.js calls that load the model and turn the photo into scores are foreign calls on float tensors. The model takes what they resolve to: a model or a failure, and an error or the first row of scores.
- Image loading: `loadImage` is a browser call. The model takes whether it succeeded. Its rejection is an error event without a message, so the fallback text is shown.
- Nutrition lookup: the HTTP request to the nutrition service is network I/O. Only its outcome is modelled: no answer (the request or parse threw and `apiCall` caught it), an answer without `foods`, or a `foods` list.
- The "Could not load model" branch of `predict` is not modelled: `loadModel` either returns a model or throws, so that branch cannot be reached.
- Request sequencing: overlapping predictions, and which reply wins, are not modelled; the code has no guard for them.
- PredictionSession.Session.LoadModel: the flag being up during the fetch is stated through a ghost out-parameter, because the await has no other observable point in a sequential model.
- Firebase uploads and their progress callbacks (`storeImage`), the unwired `handleImageUpload`, all `fetch`/`axios` requests, alert dialogs, navigation, JSX rendering and the unmodelled page states (`error`, `uploading`, `filePerc`) are I/O or UI. The local-storage cart is an in-memory sequence, and its JSON serialisation is not modelled.
- Floating point: numbers are unbounded reals. `toFixed(2)` is modelled as exact rounding half away from zero, so binary rounding of the float is not captured, and neither are the infinities.
- Number coercion: only the empty string and signed decimal literals (`12`, `-3.5`, `.5`, `7.`) are parsed. Exponents, hexadecimal, surrounding white space and `null` are not.
- The date formatting of the fetched inventory item (`toISOString`) is locale and clock detail.
- InventoryForm.HandleInputChange: requires that the input name is not one of the list or object fields, because every input on the page carries a scalar field's name.
- OrderEdit.HandleItemChange: requires the index to be inside the list, because the page only calls it with the index of a rendered line. An out-of-range write that would extend a JavaScript array is not modelled.
- OrderEdit: customer, delivery and status values are strings; a numeric value from the server, which `test` would convert with `String`, is not modelled.
- Products.Inventory: the stock count is an integer; a fractional or non-numeric stock value is not modelled.
- InventoryForm.CompleteUpload: the upload's `.then` writes the form captured at the click, so edits made while the upload runs are lost (UploadOverwritesConcurrentEdits). Only the two end points are modelled, not the order of interleaved edits.
- PredictionSession.NoLabelError: the text of the `TypeError` raised by `undefined.replace(...)` is V8's wording; other engines word it differently.
- InventoryForm.AddSize and InventoryForm.RemoveSize are modelled as written, but the page's markup binds neither to a control, so none of their paths, the throwing one included, is reached on the page as it stands.
- The message "You can upload max 6 images" disagrees with the page's "max 3" and with the guard. The model keeps the text as written (`InventoryForm.UploadRefused`) and the guard's limit of 3.
- `api/index.js` (server wiring), `api/utils/verifyUser.js` (a wrapper over `jwt.verify`), `api/models/inventory.model.js` (a declarative schema) and `client/src/components/Collection.jsx` (static markup) are not part of this model.

## Findings

| source | as written | input that shows it | evidently intended | confidence | as-written member | corrected member |
|---|---|---|---|---|---|---|
| client/src/pages/inventory/UpdateInventory.jsx:250-258 | the price refusal returns without `setLoading(false)`, unlike the two refusals before it | ReorderLevel 5, StockQuantity 3, UnitPrice 0 | every refusal re-enables the Update button | high; not executed | InventoryForm.PriceRefusalKeepsButtonDisabled | InventoryForm.Submit |
| client/src/components/Products.jsx:117 | the button is disabled only when the stock is exactly 0, while the label says "Out of Stock" for any count of 0 or less | StockQuantity -1 | the button is disabled whenever the card says "Out of Stock" | medium; not executed | Products.NegativeStockIsAddable | Products.AddDisabled |
