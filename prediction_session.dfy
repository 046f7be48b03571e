/** The prediction session of the profile page (`client/src/pages/Profile.jsx`):
    the cached model and its loading flag, the chosen photo, the prediction
    text, the busy flag and the nutrition record, and the handlers that move
    them (`loadModel`, `handlePredictionImageUpload`, `predict`,
    `handlePredict`). The model fetch, the inference and the nutrition lookup
    are outside the model: each handler receives what they resolved to. */
module PredictionSession {
  import opened Wrappers
  import opened FoodClassifier

  /** A loaded layers model; only whether one is cached matters here. */
  datatype Model = Model(handle: nat)

  /** `foods[i]` of the nutrition service's answer. */
  datatype NutritionRecord = NutritionRecord(
    calories: real, protein: real, carbs: real, fat: real,
    sugars: Option<real>, servingWeightGrams: real)

  /** What `apiCall` resolves to: nothing when the request or the parse of its
      body threw (it catches and reports that itself), else the parsed body,
      whose `foods` member may be missing. */
  datatype LookupOutcome = LookupFailed | Responded(foods: Option<seq<NutritionRecord>>)

  /** What `modelToUse.predict(tensor).array()` gives: an error, or the first
      row of the batch (`None` when there is none). */
  datatype InferenceOutcome = InferenceThrew(message: string) | Scores(batch0: Option<seq<real>>)

  const FailedToLoadModel: string := "Failed to load model"
  const FailedToProcessImage: string := "Failed to process image"
  /** The `TypeError` that `undefined.replace(...)` raises (V8's wording). */
  const NoLabelError: string := "Cannot read properties of undefined (reading 'replace')"

  /** The part of the session that `predict` reads and writes. */
  datatype View = View(model: Option<Model>, predictionResult: string, nutritionData: Option<NutritionRecord>)

  /** One run of `predict`: the new view, whether `loadModel` was called, the
      message of the error it throws (if any) and the query it sent to the
      nutrition service (if any). */
  datatype PredictRun = PredictRun(after: View, loadAttempted: bool, thrown: Option<string>, query: Option<string>)

  /** The nutrition record after the lookup: `foods[0]` when the answer has
      `foods` (an empty list yields none), else the record already shown. */
  function NutritionAfter(current: Option<NutritionRecord>, lookup: LookupOutcome): Option<NutritionRecord> {
    match lookup
    case LookupFailed => current
    case Responded(foods) =>
      match foods
      case None => current
      case Some(fs) => if |fs| > 0 then Some(fs[0]) else None
  }

  /** `predict`, as a function of the view before it and of what the model
      fetch (`None`: it failed), the inference and the lookup resolve to. */
  function PredictOutcome(before: View, fetched: Option<Model>, inference: InferenceOutcome,
                          lookup: LookupOutcome): PredictRun
  {
    var loadAttempted := before.model.None?;
    var model := if loadAttempted then fetched else before.model;
    if model.None? then
      PredictRun(before, loadAttempted, Some(FailedToLoadModel), None)
    else
      var v := before.(model := model);
      match inference
      case InferenceThrew(message) => PredictRun(v, loadAttempted, Some(message), None)
      case Scores(batch0) =>
        match Classify(batch0)
        case Rejected => PredictRun(v.(predictionResult := CannotIdentify), loadAttempted, None, None)
        case Unlabelled(_) => PredictRun(v, loadAttempted, Some(NoLabelError), None)
        case Accepted(_, food) =>
          PredictRun(v.(predictionResult := food, nutritionData := NutritionAfter(v.nutritionData, lookup)),
                     loadAttempted, None, Some(food))
  }

  /** `error.message || "Failed to process image"`. */
  function ShownMessage(message: string): string {
    if message == "" then FailedToProcessImage else message
  }

  /** `handlePredict` on the view: nothing without a chosen image; a photo that
      does not load shows the fallback message (its error event has no
      message); otherwise `predict` runs and a thrown error's message is shown. */
  function HandlePredictOutcome(image: Option<string>, imageLoads: bool, before: View,
                                fetched: Option<Model>, inference: InferenceOutcome,
                                lookup: LookupOutcome): (r: (View, Option<string>))
  {
    if image.None? then (before, None)
    else if !imageLoads then (before.(predictionResult := FailedToProcessImage), None)
    else
      var run := PredictOutcome(before, fetched, inference, lookup);
      match run.thrown
      case None => (run.after, run.query)
      case Some(message) => (run.after.(predictionResult := ShownMessage(message)), run.query)
  }

  class Session {
    var model: Option<Model>
    var isModelLoading: bool
    var predictionImage: Option<string>
    var predictionResult: string
    var isPredicting: bool
    var nutritionData: Option<NutritionRecord>

    function CurrentView(): View
      reads this
    {
      View(model, predictionResult, nutritionData)
    }

    /** The state of a freshly rendered page. */
    constructor ()
      ensures model == None && !isModelLoading && predictionImage == None
      ensures predictionResult == "" && !isPredicting && nutritionData == None
    {
      model := None;
      isModelLoading := false;
      predictionImage := None;
      predictionResult := "";
      isPredicting := false;
      nutritionData := None;
    }

    /** `loadModel`: the loading flag is up while the fetch is awaited and down
        afterwards on both paths; a fetched model is cached and returned, a
        failed fetch throws and leaves the cache as it was. */
    method LoadModel(fetched: Option<Model>) returns (r: Result<Model>, ghost loadingDuringFetch: bool)
      modifies this`model, this`isModelLoading
      ensures loadingDuringFetch && !isModelLoading
      ensures fetched.Some? ==> r == Ok(fetched.value) && model == fetched
      ensures fetched.None? ==> r == Err(FailedToLoadModel) && model == old(model)
    {
      isModelLoading := true;
      loadingDuringFetch := isModelLoading;
      match fetched {
        case Some(m) =>
          model := Some(m);
          r := Ok(m);
        case None =>
          r := Err(FailedToLoadModel);
      }
      isModelLoading := false;
    }

    /** The mount effect: it starts a model load whose failure nobody handles. */
    method Mount(fetched: Option<Model>)
      modifies this`model, this`isModelLoading
      ensures !isModelLoading
      ensures model == if fetched.Some? then fetched else old(model)
    {
      var _, _ := LoadModel(fetched);
    }

    /** `handlePredictionImageUpload`, given the object URL of the chosen file
        (`None` when no file was chosen): a new image clears the old result. */
    method UploadPredictionImage(objectUrl: Option<string>)
      modifies this`predictionImage, this`predictionResult
      ensures objectUrl.Some? ==> predictionImage == objectUrl && predictionResult == ""
      ensures objectUrl.None? ==>
        predictionImage == old(predictionImage) && predictionResult == old(predictionResult)
    {
      if objectUrl.Some? {
        predictionImage := objectUrl;
        predictionResult := "";
      }
    }

    /** `predict`: the cached model is used, or one is loaded when none is. */
    method Predict(fetched: Option<Model>, inference: InferenceOutcome, lookup: LookupOutcome)
      returns (thrown: Option<string>, query: Option<string>)
      modifies this`model, this`isModelLoading, this`predictionResult, this`nutritionData
      ensures var run := PredictOutcome(old(CurrentView()), fetched, inference, lookup);
        CurrentView() == run.after && thrown == run.thrown && query == run.query
      ensures isModelLoading == (old(isModelLoading) && old(model).Some?)
    {
      query := None;
      var modelToUse := model;
      if modelToUse.None? {
        var loaded, _ := LoadModel(fetched);
        if loaded.Err? {
          thrown := Some(loaded.message);
          return;
        }
        modelToUse := Some(loaded.value);
      }
      match inference {
        case InferenceThrew(message) =>
          thrown := Some(message);
        case Scores(batch0) =>
          var decision := Classify(batch0);
          match decision {
            case Rejected =>
              predictionResult := CannotIdentify;
              thrown := None;
            case Unlabelled(_) =>
              thrown := Some(NoLabelError);
            case Accepted(_, food) =>
              predictionResult := food;
              query := Some(food);
              match lookup {
                case Responded(Some(foods)) =>
                  nutritionData := if |foods| > 0 then Some(foods[0]) else None;
                case _ =>
              }
              thrown := None;
          }
      }
    }

    /** `handlePredict`: without an image nothing happens; otherwise the busy
        flag is up while the photo loads and `predict` runs, and down again on
        every path, and an error's message replaces the prediction text. */
    method HandlePredict(imageLoads: bool, fetched: Option<Model>, inference: InferenceOutcome,
                         lookup: LookupOutcome)
      returns (query: Option<string>, ghost busyWhileRunning: bool)
      modifies this`model, this`isModelLoading, this`predictionResult, this`nutritionData, this`isPredicting
      ensures var r := HandlePredictOutcome(old(predictionImage), imageLoads, old(CurrentView()),
                                            fetched, inference, lookup);
        CurrentView() == r.0 && query == r.1
      ensures old(predictionImage).None? ==>
        isPredicting == old(isPredicting) && isModelLoading == old(isModelLoading)
      ensures old(predictionImage).Some? ==> busyWhileRunning && !isPredicting
    {
      query := None;
      busyWhileRunning := false;
      if predictionImage.None? {
        return;
      }
      isPredicting := true;
      if !imageLoads {
        predictionResult := FailedToProcessImage;
      } else {
        var thrown;
        thrown, query := Predict(fetched, inference, lookup);
        if thrown.Some? {
          predictionResult := ShownMessage(thrown.value);
        }
      }
      busyWhileRunning := isPredicting;
      isPredicting := false;
    }
  }

  /** `predict` calls `loadModel` exactly when no model is cached; a cached
      model stays cached; a failed load throws "Failed to load model", leaves
      the cache empty and touches neither the text nor the nutrition record. */
  lemma LoadOnlyWhenUncached(before: View, fetched: Option<Model>, inference: InferenceOutcome,
                             lookup: LookupOutcome)
    ensures var run := PredictOutcome(before, fetched, inference, lookup);
      && (run.loadAttempted <==> before.model.None?)
      && (before.model.Some? ==> run.after.model == before.model)
      && (before.model.None? && fetched.Some? ==> run.after.model == fetched)
      && (before.model.None? && fetched.None? ==>
            run.after == before && run.thrown == Some(FailedToLoadModel) && run.query == None)
  {
  }

  /** Two failed loads in a row both throw; a third that succeeds caches the
      model, and the next run reuses it without loading. */
  lemma RetryAfterFailedLoads(v: View, m: Model, inference: InferenceOutcome, lookup: LookupOutcome,
                              later: Option<Model>)
    requires v.model.None?
    ensures var r1 := PredictOutcome(v, None, inference, lookup);
      var r2 := PredictOutcome(r1.after, None, inference, lookup);
      var r3 := PredictOutcome(r2.after, Some(m), inference, lookup);
      var r4 := PredictOutcome(r3.after, later, inference, lookup);
      && r1.thrown == r2.thrown == Some(FailedToLoadModel)
      && r3.loadAttempted && r3.after.model == Some(m)
      && !r4.loadAttempted && r4.after.model == Some(m)
  {
    var r1 := PredictOutcome(v, None, inference, lookup);
    assert r1.after == v;
    var r2 := PredictOutcome(r1.after, None, inference, lookup);
    assert r2.after == v;
  }

  /** With a model at hand, a missing batch or one whose every score is below
      0.7 sets exactly the rejection text, issues no lookup, throws nothing and
      keeps the nutrition record. */
  lemma LowConfidenceMakesNoLookup(before: View, fetched: Option<Model>, batch0: Option<seq<real>>,
                                   lookup: LookupOutcome)
    requires before.model.Some? || fetched.Some?
    requires batch0.None? || forall k :: 0 <= k < |batch0.value| ==> batch0.value[k] < Threshold
    ensures var run := PredictOutcome(before, fetched, Scores(batch0), lookup);
      && run.after.predictionResult == CannotIdentify
      && run.query == None && run.thrown == None
      && run.after.nutritionData == before.nutritionData
  {
  }

  /** A confident maximum whose first index i is in the catalog shows the
      rendered label of i, queries the nutrition service with that same text
      and throws nothing, whatever the lookup does. */
  lemma ConfidentPredictionQueriesLabel(before: View, fetched: Option<Model>, s: seq<real>, i: nat,
                                        lookup: LookupOutcome)
    requires before.model.Some? || fetched.Some?
    requires i < |s| && i < |FoodList| && Threshold <= s[i]
    requires forall k :: 0 <= k < |s| ==> s[k] <= s[i]
    requires forall k :: 0 <= k < i ==> s[k] < s[i]
    ensures var run := PredictOutcome(before, fetched, Scores(Some(s)), lookup);
      && run.after.predictionResult == RenderLabel(FoodList[i])
      && run.query == Some(RenderLabel(FoodList[i]))
      && run.thrown == None
  {
    var d := Classify(Some(s));
    assert !d.Rejected? by { assert s[i] >= Threshold; }
    assert s[i] <= s[d.index] && s[d.index] <= s[i];
    assert !(d.index < i) && !(i < d.index);
    assert d == Accepted(i, RenderLabel(FoodList[i]));
  }

  /** The nutrition record becomes `foods[0]` only when the answer carries
      `foods`; a failed lookup, or an answer without `foods`, keeps the record
      and still shows the accepted label. */
  lemma NutritionHandOff(before: View, fetched: Option<Model>, s: seq<real>, i: nat, lookup: LookupOutcome)
    requires before.model.Some? || fetched.Some?
    requires i < |s| && i < |FoodList| && Threshold <= s[i]
    requires forall k :: 0 <= k < |s| ==> s[k] <= s[i]
    requires forall k :: 0 <= k < i ==> s[k] < s[i]
    ensures var run := PredictOutcome(before, fetched, Scores(Some(s)), lookup);
      && run.thrown == None
      && run.after.predictionResult == RenderLabel(FoodList[i])
      && (lookup.LookupFailed? || lookup.foods.None? ==> run.after.nutritionData == before.nutritionData)
      && (lookup.Responded? && lookup.foods.Some? && |lookup.foods.value| > 0 ==>
            run.after.nutritionData == Some(lookup.foods.value[0]))
      && (lookup == Responded(Some([])) ==> run.after.nutritionData == None)
  {
    ConfidentPredictionQueriesLabel(before, fetched, s, i, lookup);
  }

  /** An arg-max past the catalog is not a prediction: `handlePredict` shows
      the error's message, in V8's wording since other engines word this
      `TypeError` differently, and no lookup is made. */
  lemma PastCatalogIsReportedAsError(before: View, fetched: Option<Model>, s: seq<real>,
                                     lookup: LookupOutcome)
    requires before.model.Some? || fetched.Some?
    requires Classify(Some(s)).Unlabelled?
    ensures var r := HandlePredictOutcome(Some("blob:photo"), true, before, fetched, Scores(Some(s)), lookup);
      r.0.predictionResult == NoLabelError && r.1 == None
  {
  }

  /** Without a chosen image `handlePredict` changes nothing; a failed model
      load is shown as "Failed to load model". */
  lemma HandlePredictEdgeCases(before: View, imageLoads: bool, fetched: Option<Model>,
                               inference: InferenceOutcome, lookup: LookupOutcome)
    ensures HandlePredictOutcome(None, imageLoads, before, fetched, inference, lookup) == (before, None)
    ensures before.model.None? ==>
      HandlePredictOutcome(Some("blob:photo"), true, before, None, inference, lookup)
        == (before.(predictionResult := FailedToLoadModel), None)
  {
  }
}
