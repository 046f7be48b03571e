/** The user document of the API (`api/models/user.model.js`): its schema
    defaults and the `pre('save')` hook that derives `bmi` from `height`
    (centimetres) and `weight` (kilograms) every time the document is saved. */
module UserModel {
  import Js

  const DefaultAvatar: string :=
    "https://encrypted-tbn0.gstatic.com/images?q=tbn:ANd9GcR5dgckCEFdaR4QrzY1cdQTF_VzmwmPkSV2UA&usqp=CAU"
  const DefaultUserType: string := "customer"

  /** The hook's guard: both numbers truthy and both positive. */
  predicate HasBodyMeasures(height: real, weight: real) {
    height != 0.0 && weight != 0.0 && height > 0.0 && weight > 0.0
  }

  /** The body-mass index before `toFixed(2)`: weight / (height / 100)^2 when the
      guard holds, else 0. */
  function UnroundedBmi(height: real, weight: real): real {
    if HasBodyMeasures(height, weight) then weight / ((height / 100.0) * (height / 100.0)) else 0.0
  }

  /** The `bmi` the hook stores: the unrounded index rounded to two decimals. */
  function SavedBmi(height: real, weight: real): (bmi: real)
    ensures !(height > 0.0 && weight > 0.0) ==> bmi == 0.0
    ensures height > 0.0 && weight > 0.0 ==>
      0.0 <= bmi && -0.005 <= bmi - weight / ((height / 100.0) * (height / 100.0)) <= 0.005
  {
    UnroundedBmiPositive(height, weight);
    Js.ToFixed2(UnroundedBmi(height, weight))
  }

  /** The truthiness tests in the guard add nothing to the positivity tests. */
  lemma GuardIsPositivity(height: real, weight: real)
    ensures HasBodyMeasures(height, weight) <==> height > 0.0 && weight > 0.0
  {
  }

  /** The unrounded index is positive exactly when both measures are. */
  lemma UnroundedBmiPositive(height: real, weight: real)
    ensures UnroundedBmi(height, weight) > 0.0 <==> height > 0.0 && weight > 0.0
    ensures UnroundedBmi(height, weight) >= 0.0
  {
    if height > 0.0 && weight > 0.0 {
      PositiveOverSquare(weight, height / 100.0);
      assert HasBodyMeasures(height, weight);
      assert UnroundedBmi(height, weight) == weight / ((height / 100.0) * (height / 100.0));
    } else {
      assert !HasBodyMeasures(height, weight);
      assert UnroundedBmi(height, weight) == 0.0;
    }
  }

  lemma PositiveProduct(a: real, b: real)
    requires 0.0 < a && 0.0 < b
    ensures 0.0 < a * b
  {
  }

  lemma PositiveQuotient(a: real, b: real)
    requires 0.0 < a && 0.0 < b
    ensures 0.0 < a / b
  {
    assert (a / b) * b == a;
  }

  lemma PositiveOverSquare(a: real, m: real)
    requires 0.0 < a && 0.0 < m
    ensures 0.0 < a / (m * m)
  {
    PositiveProduct(m, m);
    PositiveQuotient(a, m * m);
  }

  /** The stored fields of a user document that this model follows. */
  class UserDocument {
    var username: string
    var email: string
    var password: string
    var ismanager: bool
    var usertype: string
    var avatar: string
    var height: real
    var weight: real
    var bmi: real

    /** A new document with the schema's defaults for every field not given. */
    constructor (username: string, email: string, password: string)
      ensures this.username == username && this.email == email && this.password == password
      ensures !ismanager && usertype == DefaultUserType && avatar == DefaultAvatar
      ensures height == 0.0 && weight == 0.0 && bmi == 0.0
    {
      this.username := username;
      this.email := email;
      this.password := password;
      ismanager := false;
      usertype := DefaultUserType;
      avatar := DefaultAvatar;
      height := 0.0;
      weight := 0.0;
      bmi := 0.0;
    }

    /** The `pre('save')` hook: `bmi` is recomputed from height and weight,
        whatever it held before, and nothing else changes. */
    method PreSave()
      modifies this`bmi
      ensures bmi == SavedBmi(height, weight)
    {
      if height != 0.0 && weight != 0.0 && height > 0.0 && weight > 0.0 {
        var heightInMeters := height / 100.0;
        bmi := Js.ToFixed2(weight / (heightInMeters * heightInMeters));
        assert UnroundedBmi(height, weight) == weight / (heightInMeters * heightInMeters);
      } else {
        bmi := 0.0;
      }
    }
  }

  /** Two documents that differ only in their stale `bmi` store the same `bmi`
      once saved. */
  method SaveIgnoresSuppliedBmi(h: real, w: real, b1: real, b2: real) returns (saved1: real, saved2: real)
    ensures saved1 == saved2 == SavedBmi(h, w)
  {
    var d1 := new UserDocument("a", "a@x.io", "p");
    var d2 := new UserDocument("b", "b@x.io", "p");
    d1.height, d1.weight, d1.bmi := h, w, b1;
    d2.height, d2.weight, d2.bmi := h, w, b2;
    d1.PreSave();
    d2.PreSave();
    saved1, saved2 := d1.bmi, d2.bmi;
  }
}
