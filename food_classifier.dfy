/** The decision policy of the food-photo classifier in the profile page
    (`predict` in `client/src/pages/Profile.jsx`): the fixed label catalog, the
    arg-max over the model's scores with its 0.7 confidence gate and its
    first-index tie-break, and the rendering of the chosen label. */
module FoodClassifier {
  import opened Wrappers

  /** `foodList`: the labels in the order of the model's output vector. */
  const FoodList: seq<string> := [
    "apple_pie", "cheesecake", "chicken_curry", "chicken_wings", "chocolate_cake",
    "chocolate_mousse", "club_sandwich", "donuts", "fish_and_chips", "french_fries",
    "french_toast", "fried_rice", "frozen_yogurt", "garlic_bread", "greek_salad",
    "hamburger", "hot_dog", "ice_cream", "lasagna", "macaroni_and_cheese",
    "omelette", "pancakes", "pizza", "ramen", "samosa",
    "shrimp_and_grits", "spaghetti_carbonara", "spring_rolls", "steak", "strawberry_shortcake",
    "sushi", "tacos", "waffles"
  ]

  /** The confidence a maximum score must reach for its label to be shown. */
  const Threshold: real := 0.7

  const CannotIdentify: string := "Cannot identify this image correctly"

  /** The catalog has 33 labels and no label occurs twice. */
  lemma CatalogIsDistinct()
    ensures |FoodList| == 33
    ensures forall i, j :: 0 <= i < j < |FoodList| ==> FoodList[i] != FoodList[j]
  {
  }

  /** `label.replace(/_/g, " ")`: every underscore becomes a space. */
  function RenderLabel(name: string): (r: string)
    ensures |r| == |name|
    ensures forall k :: 0 <= k < |name| ==> r[k] == if name[k] == '_' then ' ' else name[k]
  {
    if name == [] then [] else [if name[0] == '_' then ' ' else name[0]] + RenderLabel(name[1..])
  }

  /** A rendered label has no underscore left. */
  lemma RenderedHasNoUnderscore(name: string)
    ensures '_' !in RenderLabel(name)
  {
  }

  /** Rendering loses nothing on labels without spaces, so the rendered
      catalog still names each index once. */
  lemma RenderIsInjective(a: string, b: string)
    requires ' ' !in a && ' ' !in b
    requires RenderLabel(a) == RenderLabel(b)
    ensures a == b
  {
    var ra, rb := RenderLabel(a), RenderLabel(b);
    assert |a| == |b|;
    forall k | 0 <= k < |a| ensures a[k] == b[k] {
      assert ra[k] == rb[k];
      assert a[k] != ' ' && b[k] != ' ';
    }
  }

  lemma CatalogHasNoSpaces()
    ensures forall i :: 0 <= i < |FoodList| ==> ' ' !in FoodList[i]
  {
  }

  lemma RenderedCatalogIsDistinct()
    ensures forall i, j :: 0 <= i < j < |FoodList| ==> RenderLabel(FoodList[i]) != RenderLabel(FoodList[j])
  {
    CatalogIsDistinct();
    CatalogHasNoSpaces();
    forall i, j | 0 <= i < j < |FoodList| ensures RenderLabel(FoodList[i]) != RenderLabel(FoodList[j]) {
      if RenderLabel(FoodList[i]) == RenderLabel(FoodList[j]) {
        RenderIsInjective(FoodList[i], FoodList[j]);
      }
    }
  }

  /** `Math.max(...scores)` of a non-empty vector. */
  function MaxScore(scores: seq<real>): (m: real)
    requires |scores| > 0
    ensures m in scores
    ensures forall k :: 0 <= k < |scores| ==> scores[k] <= m
  {
    if |scores| == 1 then scores[0]
    else
      var rest := MaxScore(scores[1..]);
      if scores[0] >= rest then scores[0] else rest
  }

  /** `scores.indexOf(v)`: the first position holding v, or -1. */
  function IndexOf(scores: seq<real>, v: real): (i: int)
    ensures -1 <= i < |scores|
    ensures i == -1 <==> v !in scores
    ensures 0 <= i ==> scores[i] == v && forall k :: 0 <= k < i ==> scores[k] != v
  {
    if scores == [] then -1
    else if scores[0] == v then 0
    else
      var j := IndexOf(scores[1..], v);
      if j == -1 then -1 else j + 1
  }

  /** What the policy makes of a prediction: no label, the label of a catalog
      index, or an index past the end of the catalog (which has no label). */
  datatype Decision = Rejected | Accepted(index: nat, food: string) | Unlabelled(index: nat)

  /** The policy applied to `predictions[0]`, which is `None` when the model
      returned no batch or an empty one. An empty score vector is rejected too:
      its `Math.max` is -Infinity. */
  function Classify(batch0: Option<seq<real>>): (d: Decision)
    ensures d.Rejected? <==>
      batch0.None? || forall k :: 0 <= k < |batch0.value| ==> batch0.value[k] < Threshold
    ensures !d.Rejected? ==>
      var s := batch0.value;
      && d.index < |s|
      && Threshold <= s[d.index]
      && (forall k :: 0 <= k < |s| ==> s[k] <= s[d.index])
      && (forall k :: 0 <= k < d.index ==> s[k] < s[d.index])
    ensures d.Accepted? <==> !d.Rejected? && d.index < |FoodList|
    ensures d.Accepted? ==> d.food == RenderLabel(FoodList[d.index])
  {
    if batch0.None? || |batch0.value| == 0 then Rejected
    else
      var s := batch0.value;
      var m := MaxScore(s);
      if m < Threshold then Rejected
      else
        var i := IndexOf(s, m);
        if i < |FoodList| then Accepted(i, RenderLabel(FoodList[i])) else Unlabelled(i)
  }

  /** Of two positions holding the maximum, the earlier one is chosen. */
  lemma TieGoesToLowerIndex(s: seq<real>, i: nat, j: nat)
    requires i < j < |s| && s[i] == s[j] && Threshold <= s[i]
    requires forall k :: 0 <= k < |s| ==> s[k] <= s[i]
    ensures !Classify(Some(s)).Rejected? && Classify(Some(s)).index <= i
  {
  }

  /** A vector peaking at 0.92 on index 22 is accepted as "pizza". */
  lemma PizzaIsAccepted()
    ensures Classify(Some(seq(33, k => if k == 22 then 0.92 else 0.01))) == Accepted(22, "pizza")
  {
    var s := seq(33, k => if k == 22 then 0.92 else 0.01);
    var d := Classify(Some(s));
    assert s[22] == 0.92;
    assert d.index == 22;
    assert FoodList[22] == "pizza";
    assert RenderLabel("pizza") == "pizza";
  }

  /** A vector whose best score is 0.55 is rejected, whatever its length. */
  lemma LowConfidenceIsRejected(s: seq<real>)
    requires 0.55 in s && forall k :: 0 <= k < |s| ==> s[k] <= 0.55
    ensures Classify(Some(s)) == Rejected
  {
  }

  /** A confident maximum at index 33 or beyond has no catalog label. */
  lemma PastCatalogIsUnlabelled()
    ensures Classify(Some(seq(34, k => if k == 33 then 0.9 else 0.0))) == Unlabelled(33)
  {
    var s := seq(34, k => if k == 33 then 0.9 else 0.0);
    assert s[33] == 0.9;
    assert Classify(Some(s)).index == 33;
  }
}
