/** The body-mass-index rules of the profile page
    (`client/src/pages/Profile.jsx`): `handleChange`, which stores the edited
    field and recomputes `bmi` after a height or weight edit, and the category
    and colour that `getBmiCategory` and `getBmiColor` give a stored index. */
module ProfileBmi {
  import opened Js
  import UserModel

  /** The profile form: field name to value; a missing key is `undefined`. */
  type ProfileForm = map<string, Value>

  /** The field's value, `undefined` (falsy) when absent. */
  predicate FieldTruthy(form: ProfileForm, key: string) {
    key in form && Truthy(form[key])
  }

  /** The test of `handleChange` on the form that already holds the edit:
      a height or weight edit, both fields truthy, and the height in metres and
      the weight both positive numbers. */
  predicate RecomputesBmi(edited: ProfileForm, id: string) {
    && (id == "height" || id == "weight")
    && FieldTruthy(edited, "height") && FieldTruthy(edited, "weight")
    && ToNumber(edited["height"]).Num? && ToNumber(edited["weight"]).Num?
    && ToNumber(edited["height"]).v / 100.0 > 0.0 && ToNumber(edited["weight"]).v > 0.0
  }

  /** `weightInKg / (heightInMeters * heightInMeters)` for the edited form. */
  function ClientBmi(edited: ProfileForm, id: string): real
    requires RecomputesBmi(edited, id)
  {
    ToNumber(edited["weight"]).v / ((ToNumber(edited["height"]).v / 100.0) * (ToNumber(edited["height"]).v / 100.0))
  }

  /** `handleChange` for the input `id` now holding the string `value`. */
  function HandleChange(form: ProfileForm, id: string, value: string): (r: ProfileForm)
    ensures id in r
    ensures id != "bmi" ==> r[id] == Text(value)
    ensures forall key :: key in form && key != id && key != "bmi" ==> key in r && r[key] == form[key]
    ensures forall key :: key in r ==> key in form || key == id || key == "bmi"
    ensures RecomputesBmi(form[id := Text(value)], id) ==>
      "bmi" in r && r["bmi"] == Number(ToFixed2(ClientBmi(form[id := Text(value)], id)))
    ensures !RecomputesBmi(form[id := Text(value)], id) ==> r == form[id := Text(value)]
  {
    var edited := form[id := Text(value)];
    if RecomputesBmi(edited, id) then edited["bmi" := Number(ToFixed2(ClientBmi(edited, id)))]
    else edited
  }

  /** An edit of any other field, or a height or weight that is blank, zero,
      negative or not a number, leaves `bmi` as it was. */
  lemma BmiKeptWithoutMeasures(form: ProfileForm, id: string, value: string)
    requires id != "bmi"
    requires (id != "height" && id != "weight") || value == "" || AtMostZero(Text(value)) || ParseNumber(value).NaN?
    ensures "bmi" in form ==>
      "bmi" in HandleChange(form, id, value) && HandleChange(form, id, value)["bmi"] == form["bmi"]
    ensures "bmi" !in form ==> "bmi" !in HandleChange(form, id, value)
  {
  }

  /** For positive height and weight, the page computes the same index as the
      server's save hook. */
  lemma ClientAgreesWithSaveHook(form: ProfileForm, heightText: string, h: real, w: real)
    requires h > 0.0 && w > 0.0
    requires heightText != "" && ParseNumber(heightText) == Num(h)
    requires "weight" in form && Truthy(form["weight"]) && ToNumber(form["weight"]) == Num(w)
    ensures "bmi" in HandleChange(form, "height", heightText)
    ensures HandleChange(form, "height", heightText)["bmi"] == Number(UserModel.SavedBmi(h, w))
  {
    var edited := form["height" := Text(heightText)];
    assert ToNumber(edited["height"]) == Num(h);
    assert ToNumber(edited["weight"]) == Num(w);
    assert RecomputesBmi(edited, "height");
    var raw := w / ((h / 100.0) * (h / 100.0));
    assert ClientBmi(edited, "height") == raw;
    assert UserModel.UnroundedBmi(h, w) == raw;
    assert UserModel.SavedBmi(h, w) == ToFixed2(raw);
  }

  /** `getBmiCategory`. */
  function BmiCategory(bmi: real): (r: string)
    ensures r == "Not calculated" <==> bmi == 0.0
    ensures r == "Underweight" <==> bmi != 0.0 && bmi < 18.5
    ensures r == "Normal weight" <==> 18.5 <= bmi < 25.0
    ensures r == "Overweight" <==> 25.0 <= bmi < 30.0
    ensures r == "Obese" <==> 30.0 <= bmi
  {
    if bmi == 0.0 then "Not calculated"
    else if bmi < 18.5 then "Underweight"
    else if bmi < 25.0 then "Normal weight"
    else if bmi < 30.0 then "Overweight"
    else "Obese"
  }

  /** The colour each category is shown in. */
  function CategoryColor(category: string): string {
    match category
    case "Not calculated" => "text-gray-600"
    case "Underweight" => "text-blue-600"
    case "Normal weight" => "text-green-600"
    case "Overweight" => "text-yellow-600"
    case _ => "text-red-600"
  }

  /** `getBmiColor`: its own cut points give the colour of the index's
      category, and gray exactly when the index is 0. */
  function BmiColor(bmi: real): (r: string)
    ensures r == CategoryColor(BmiCategory(bmi))
    ensures r == "text-gray-600" <==> bmi == 0.0
  {
    if bmi == 0.0 then "text-gray-600"
    else if bmi < 18.5 then "text-blue-600"
    else if bmi < 25.0 then "text-green-600"
    else if bmi < 30.0 then "text-yellow-600"
    else "text-red-600"
  }

  /** The colour uses the category's cut points: two indices share a colour
      exactly when they share a category. */
  lemma ColorFollowsCategory(a: real, b: real)
    ensures BmiCategory(a) == BmiCategory(b) <==> BmiColor(a) == BmiColor(b)
  {
  }

  /** A document saved without positive height and weight shows
      "Not calculated"; one with them never shows it unless its rounded index
      is 0. */
  lemma SavedWithoutMeasuresIsNotCalculated(h: real, w: real)
    ensures !(h > 0.0 && w > 0.0) ==> BmiCategory(UserModel.SavedBmi(h, w)) == "Not calculated"
    ensures UserModel.SavedBmi(h, w) > 0.0 ==> BmiCategory(UserModel.SavedBmi(h, w)) != "Not calculated"
  {
  }
}
