/** The order editor (`client/src/pages/order/EditOrderPopup.jsx`): the email
    and phone validators, the customer and delivery edits with the error map
    they keep, the update of one order line, the order total, and the
    validation gate in front of the update request. */
module OrderEdit {
  import opened Wrappers
  import opened Js

  // ---------------------------------------------------------------------------
  // Validators

  /** `[^\s@]`: a character that is neither white space nor `@`. */
  predicate Plain(c: char) {
    !IsWhitespace(c) && c != '@'
  }

  predicate AllPlain(s: string) {
    forall k :: 0 <= k < |s| ==> Plain(s[k])
  }

  /** What `/^[^\s@]+@[^\s@]+\.[^\s@]+$/` matches: the string splits as
      `a@b.c` around the characters at i and j, where a, b and c are non-empty
      runs of plain characters. */
  ghost predicate MatchesEmailPattern(s: string) {
    exists i, j :: 0 < i && i + 1 < j && j + 1 < |s| && s[i] == '@' && s[j] == '.'
      && AllPlain(s[..i]) && AllPlain(s[i + 1..j]) && AllPlain(s[j + 1..])
  }

  /** The same test read off the string: a non-empty run before the first `@`,
      and after it a plain domain of at least three characters with a dot
      that is neither its first nor its last character. */
  predicate EmailAccepted(s: string) {
    var at := IndexOfChar(s, '@');
    && at > 0
    && AllPlain(s[..at])
    && AllPlain(s[at + 1..])
    && |s[at + 1..]| >= 3
    && '.' in s[at + 1..][1..|s[at + 1..]| - 1]
  }

  lemma FirstAt(s: string, i: nat)
    requires i < |s| && s[i] == '@' && '@' !in s[..i]
    ensures IndexOfChar(s, '@') == i
  {
    assert '@' in s by { assert s[i] == '@'; }
  }

  /** The check on the string decides exactly the regular expression. */
  lemma EmailAcceptedIsPattern(s: string)
    ensures EmailAccepted(s) <==> MatchesEmailPattern(s)
  {
    if EmailAccepted(s) {
      AcceptedMatchesPattern(s);
    }
    if MatchesEmailPattern(s) {
      var i, j :| 0 < i && i + 1 < j && j + 1 < |s| && s[i] == '@' && s[j] == '.'
        && AllPlain(s[..i]) && AllPlain(s[i + 1..j]) && AllPlain(s[j + 1..]);
      PatternIsAccepted(s, i, j);
    }
  }

  lemma AcceptedMatchesPattern(s: string)
    requires EmailAccepted(s)
    ensures MatchesEmailPattern(s)
  {
    var i := IndexOfChar(s, '@');
    var d := s[i + 1..];
    var inner := d[1..|d| - 1];
    var q :| 0 <= q < |inner| && inner[q] == '.';
    var j := i + 2 + q;
    assert s[j] == '.' by { assert s[j] == d[q + 1] == inner[q]; }
    var b, c := s[i + 1..j], s[j + 1..];
    assert AllPlain(b) by {
      forall k | 0 <= k < |b| ensures Plain(b[k]) {
        assert b[k] == d[k];
      }
    }
    assert AllPlain(c) by {
      forall k | 0 <= k < |c| ensures Plain(c[k]) {
        assert c[k] == d[q + 2 + k];
      }
    }
  }

  lemma PatternIsAccepted(s: string, i: nat, j: nat)
    requires 0 < i && i + 1 < j && j + 1 < |s| && s[i] == '@' && s[j] == '.'
    requires AllPlain(s[..i]) && AllPlain(s[i + 1..j]) && AllPlain(s[j + 1..])
    ensures EmailAccepted(s)
  {
    var a, b, c := s[..i], s[i + 1..j], s[j + 1..];
    assert '@' !in a by {
      forall k | 0 <= k < |a| ensures a[k] != '@' {
        assert Plain(a[k]);
      }
    }
    FirstAt(s, i);
    var d := s[i + 1..];
    assert d == b + [s[j]] + c;
    assert Plain(s[j]) by { assert !IsWhitespace('.'); }
    assert AllPlain(d) by {
      forall k | 0 <= k < |d| ensures Plain(d[k]) {
        if k < |b| {
          assert d[k] == b[k];
        } else if k > |b| {
          assert d[k] == c[k - |b| - 1];
        }
      }
    }
    assert d[1..|d| - 1][j - i - 2] == d[j - i - 1] == '.';
  }

  /** `/^\d{10}$/`. */
  predicate PhoneAccepted(s: string) {
    |s| == 10 && AllDigits(s)
  }

  const InvalidEmail: string := "Invalid email address"
  const InvalidPhone: string := "Phone number must be 10 digits"

  /** `RegExp.prototype.test` converts its argument to a string; a missing
      field becomes "undefined". */
  function AsTested(value: Option<string>): string {
    value.GetOr("undefined")
  }

  /** `validateField`: the error for `name` holding `value`, "" when valid. */
  function ValidateField(name: string, value: Option<string>): (err: string)
    ensures name == "email" ==> err == (if EmailAccepted(AsTested(value)) then "" else InvalidEmail)
    ensures name == "mobile" ==> err == (if PhoneAccepted(AsTested(value)) then "" else InvalidPhone)
    ensures name != "email" && name != "mobile" ==> err == ""
  {
    match name
    case "email" => if !EmailAccepted(AsTested(value)) then InvalidEmail else ""
    case "mobile" => if !PhoneAccepted(AsTested(value)) then InvalidPhone else ""
    case _ => ""
  }

  /** The email error is empty exactly when the regular expression matches. */
  lemma EmailErrorIsPattern(value: Option<string>)
    ensures ValidateField("email", value) == "" <==> MatchesEmailPattern(AsTested(value))
    ensures ValidateField("email", value) != "" ==> ValidateField("email", value) == InvalidEmail
  {
    EmailAcceptedIsPattern(AsTested(value));
  }

  /** A typical address is valid. */
  lemma ValidEmailExample()
    ensures ValidateField("email", Some("ann@mail.lk")) == ""
  {
    var s := "ann@mail.lk";
    assert s[3] == '@' && s[8] == '.';
    var a, b, c := s[..3], s[4..8], s[9..];
    assert a == "ann" && b == "mail" && c == "lk";
    assert AllPlain(a) && AllPlain(b) && AllPlain(c);
    PatternIsAccepted(s, 3, 8);
  }

  /** An address without a dot after the `@` is invalid. */
  lemma DotlessEmailExample()
    ensures ValidateField("email", Some("ann@mail")) == InvalidEmail
  {
    var s := "ann@mail";
    FirstAt(s, 3);
    assert s[4..] == "mail";
    assert '.' !in "mail"[1..3];
  }

  /** A doubled `@` is invalid. */
  lemma DoubleAtEmailExample()
    ensures ValidateField("email", Some("ann@@mail.lk")) == InvalidEmail
  {
    var s := "ann@@mail.lk";
    assert s[..3] == "ann" && s[3] == '@';
    FirstAt(s, 3);
    assert s[4..][0] == '@' && !Plain(s[4..][0]);
  }

  /** A missing address is tested as "undefined" and is invalid; so is a
      missing phone number. */
  lemma MissingFieldsAreInvalid()
    ensures ValidateField("email", None) == InvalidEmail
    ensures ValidateField("mobile", None) == InvalidPhone
  {
    MissingEmailIsInvalid();
    assert |AsTested(None)| == 9;
  }

  lemma MissingEmailIsInvalid()
    ensures !EmailAccepted(AsTested(None))
  {
    var s := AsTested(None);
    assert s == ['u', 'n', 'd', 'e', 'f', 'i', 'n', 'e', 'd'];
    assert '@' !in s;
    assert IndexOfChar(s, '@') == -1;
  }

  lemma PhoneExamples()
    ensures ValidateField("mobile", Some("0771234567")) == ""
    ensures ValidateField("mobile", Some("077123456")) == InvalidPhone
    ensures ValidateField("mobile", Some("07712345a7")) == InvalidPhone
  {
    assert !IsDigit("07712345a7"[8]);
  }

  // ---------------------------------------------------------------------------
  // Order lines and the total

  /** An order line. `quantity` is `None` where the stored number is missing or
      `parseInt` gave NaN; it is not kept positive. */
  datatype OrderItem = OrderItem(title: string, price: real, quantity: Option<int>, instructions: string)

  /** The two fields the popup edits on a line. */
  datatype ItemEdit = SetQuantity(q: Option<int>) | SetInstructions(text: string)

  /** `{ ...item, [field]: value }`. */
  function ApplyEdit(item: OrderItem, edit: ItemEdit): (r: OrderItem)
    ensures r.title == item.title && r.price == item.price
    ensures edit.SetQuantity? ==> r.quantity == edit.q && r.instructions == item.instructions
    ensures edit.SetInstructions? ==> r.instructions == edit.text && r.quantity == item.quantity
  {
    match edit
    case SetQuantity(q) => item.(quantity := q)
    case SetInstructions(t) => item.(instructions := t)
  }

  /** `handleItemChange`: a copy of the lines with line `index` edited. */
  method HandleItemChange(items: seq<OrderItem>, index: nat, edit: ItemEdit) returns (updated: seq<OrderItem>)
    requires index < |items|
    ensures |updated| == |items|
    ensures updated[index] == ApplyEdit(items[index], edit)
    ensures forall k :: 0 <= k < |items| && k != index ==> updated[k] == items[k]
  {
    var copy := new OrderItem[|items|](k requires 0 <= k < |items| => items[k]);
    copy[index] := ApplyEdit(copy[index], edit);
    updated := copy[..];
  }

  /** `item.quantity || 1`: a missing, NaN or zero quantity counts once. */
  function CountedQuantity(q: Option<int>): (n: int)
    ensures n != 0
    ensures q.None? || q.value == 0 ==> n == 1
    ensures q.Some? && q.value != 0 ==> n == q.value
  {
    match q
    case None => 1
    case Some(v) => if v == 0 then 1 else v
  }

  function LineTotal(item: OrderItem): real {
    item.price * CountedQuantity(item.quantity) as real
  }

  /** `calculateTotal`: the `reduce` from 0, line by line from the first. No
      lines total 0, and lines that each cost nothing or more never total
      less than 0. */
  function Total(items: seq<OrderItem>): (r: real)
    ensures items == [] ==> r == 0.0
    ensures (forall k :: 0 <= k < |items| ==> LineTotal(items[k]) >= 0.0) ==> r >= 0.0
  {
    if items == [] then 0.0 else Total(items[..|items| - 1]) + LineTotal(items[|items| - 1])
  }

  /** The total adds up over any split of the lines. */
  lemma {:induction false} TotalOfConcat(a: seq<OrderItem>, b: seq<OrderItem>)
    ensures Total(a + b) == Total(a) + Total(b)
  {
    if b == [] {
      assert a + b == a;
    } else {
      var c := a + b;
      assert c[..|c| - 1] == a + b[..|b| - 1];
      assert c[|c| - 1] == b[|b| - 1];
      TotalOfConcat(a, b[..|b| - 1]);
    }
  }

  lemma TotalOfOne(item: OrderItem)
    ensures Total([item]) == LineTotal(item)
  {
    assert [item][..0] == [];
  }

  /** Editing one line changes the total by that line's change alone. */
  lemma TotalAfterEdit(items: seq<OrderItem>, index: nat, updated: seq<OrderItem>)
    requires index < |items| == |updated|
    requires forall k :: 0 <= k < |items| && k != index ==> updated[k] == items[k]
    ensures Total(updated) == Total(items) - LineTotal(items[index]) + LineTotal(updated[index])
  {
    assert items == items[..index] + [items[index]] + items[index + 1..];
    assert updated == updated[..index] + [updated[index]] + updated[index + 1..];
    assert updated[..index] == items[..index];
    assert updated[index + 1..] == items[index + 1..];
    TotalOfConcat(items[..index] + [items[index]], items[index + 1..]);
    TotalOfConcat(items[..index], [items[index]]);
    TotalOfConcat(updated[..index] + [updated[index]], updated[index + 1..]);
    TotalOfConcat(updated[..index], [updated[index]]);
    TotalOfOne(items[index]);
    TotalOfOne(updated[index]);
  }

  /** Instructions never change the total; a cleared quantity box (NaN)
      prices the line as one unit, and a negative quantity, which the box's
      `min` does not prevent, makes the line negative. */
  lemma QuantityEdgeCases(item: OrderItem)
    requires item.price == 12.5
    ensures LineTotal(ApplyEdit(item, SetInstructions("no spice"))) == LineTotal(item)
    ensures LineTotal(ApplyEdit(item, SetQuantity(None))) == 12.5
    ensures LineTotal(ApplyEdit(item, SetQuantity(Some(-2)))) == -25.0
  {
  }

  // ---------------------------------------------------------------------------
  // Editor state

  /** A stored order; each optional part may be missing. */
  datatype Order = Order(
    customerInfo: Option<map<string, string>>,
    deliveryInfo: Option<map<string, string>>,
    items: Option<seq<OrderItem>>,
    status: Option<string>)

  /** The popup's state: the edited copies and the error messages shown. */
  datatype Editor = Editor(
    customer: map<string, string>,
    delivery: map<string, string>,
    items: seq<OrderItem>,
    status: string,
    errors: map<string, string>)

  /** The popup opened on `order`: missing parts become empty, and a missing
      or empty status becomes "Pending". */
  function Open(order: Order): (ed: Editor)
    ensures ed.errors == map[]
    ensures ed.customer == order.customerInfo.GetOr(map[]) && ed.delivery == order.deliveryInfo.GetOr(map[])
    ensures ed.items == order.items.GetOr([])
    ensures ed.status == (if order.status.None? || order.status.value == "" then "Pending" else order.status.value)
  {
    Editor(
      order.customerInfo.GetOr(map[]),
      order.deliveryInfo.GetOr(map[]),
      order.items.GetOr([]),
      if order.status.Some? && order.status.value != "" then order.status.value else "Pending",
      map[])
  }

  /** `handleInputChange`: a customer field is stored and its error
      recomputed; a delivery field is stored without validation. */
  function HandleInputChange(ed: Editor, name: string, value: string, isCustomer: bool): (r: Editor)
    ensures r.items == ed.items && r.status == ed.status
    ensures isCustomer ==>
      && r.customer == ed.customer[name := value] && r.delivery == ed.delivery
      && r.errors == ed.errors[name := ValidateField(name, Some(value))]
    ensures !isCustomer ==> r == ed.(delivery := ed.delivery[name := value])
  {
    if isCustomer then
      ed.(customer := ed.customer[name := value], errors := ed.errors[name := ValidateField(name, Some(value))])
    else
      ed.(delivery := ed.delivery[name := value])
  }

  /** Every error on display is the verdict on the customer field's current
      value. */
  predicate ErrorsCurrent(ed: Editor) {
    forall name :: name in ed.errors && name in ed.customer ==>
      ed.errors[name] == ValidateField(name, Some(ed.customer[name]))
  }

  lemma EditsKeepErrorsCurrent(ed: Editor, name: string, value: string, isCustomer: bool)
    requires ErrorsCurrent(ed)
    ensures ErrorsCurrent(HandleInputChange(ed, name, value, isCustomer))
  {
  }

  /** The result of pressing Save. */
  datatype UpdateOutcome =
    | Blocked(after: Editor)
    | Sent(customerInfo: map<string, string>, deliveryInfo: map<string, string>, items: seq<OrderItem>, status: string)

  function Lookup(m: map<string, string>, key: string): Option<string> {
    if key in m then Some(m[key]) else None
  }

  /** `handleUpdate`: with an invalid email or phone the request is not made
      and both verdicts are recorded; otherwise the edited copies are sent. */
  function HandleUpdate(ed: Editor): (r: UpdateOutcome)
    ensures r.Blocked? <==>
      !EmailAccepted(AsTested(Lookup(ed.customer, "email"))) || !PhoneAccepted(AsTested(Lookup(ed.customer, "mobile")))
    ensures r.Blocked? ==>
      r.after == ed.(errors := ed.errors["email" := ValidateField("email", Lookup(ed.customer, "email"))]
                                        ["mobile" := ValidateField("mobile", Lookup(ed.customer, "mobile"))])
    ensures r.Sent? ==> r == Sent(ed.customer, ed.delivery, ed.items, ed.status)
  {
    var emailError := ValidateField("email", Lookup(ed.customer, "email"));
    var mobileError := ValidateField("mobile", Lookup(ed.customer, "mobile"));
    if emailError != "" || mobileError != "" then
      Blocked(ed.(errors := ed.errors["email" := emailError]["mobile" := mobileError]))
    else
      Sent(ed.customer, ed.delivery, ed.items, ed.status)
  }

  /** Save is blocked exactly when the email fails the regular expression or
      the phone is not ten digits. */
  lemma UpdateBlockedIffInvalid(ed: Editor)
    ensures HandleUpdate(ed).Blocked? <==>
      !MatchesEmailPattern(AsTested(Lookup(ed.customer, "email"))) || !PhoneAccepted(AsTested(Lookup(ed.customer, "mobile")))
  {
    EmailAcceptedIsPattern(AsTested(Lookup(ed.customer, "email")));
  }

  /** A blocked Save shows both errors, keeps the error map current, and a
      second Save is blocked in the same way. */
  lemma BlockedUpdateIsStable(ed: Editor)
    requires ErrorsCurrent(ed)
    requires HandleUpdate(ed).Blocked?
    ensures var after := HandleUpdate(ed).after;
      && "email" in after.errors && "mobile" in after.errors
      && (after.errors["email"] != "" || after.errors["mobile"] != "")
      && ErrorsCurrent(after)
      && HandleUpdate(after) == Blocked(after)
  {
    BlockedRecordsCurrentErrors(ed);
    BlockedAgainAfterBlock(ed);
  }

  lemma BlockedRecordsCurrentErrors(ed: Editor)
    requires ErrorsCurrent(ed)
    requires HandleUpdate(ed).Blocked?
    ensures ErrorsCurrent(HandleUpdate(ed).after)
  {
    var after := HandleUpdate(ed).after;
    assert after.customer == ed.customer;
    forall name | name in after.errors && name in after.customer
      ensures after.errors[name] == ValidateField(name, Some(after.customer[name]))
    {
      if name == "email" || name == "mobile" {
        assert Lookup(ed.customer, name) == Some(ed.customer[name]);
      }
    }
  }

  lemma BlockedAgainAfterBlock(ed: Editor)
    requires HandleUpdate(ed).Blocked?
    ensures var after := HandleUpdate(ed).after;
      && "email" in after.errors && "mobile" in after.errors
      && (after.errors["email"] != "" || after.errors["mobile"] != "")
      && HandleUpdate(after) == Blocked(after)
  {
    var emailError := ValidateField("email", Lookup(ed.customer, "email"));
    var mobileError := ValidateField("mobile", Lookup(ed.customer, "mobile"));
    var after := HandleUpdate(ed).after;
    assert after.customer == ed.customer;
    assert after.errors["email"] == emailError && after.errors["mobile"] == mobileError;
    BlockedWhenErrorsRecorded(after, emailError, mobileError);
  }

  /** A form whose recorded errors are already the verdicts, one of them
      non-empty, is blocked without change. */
  lemma BlockedWhenErrorsRecorded(ed: Editor, emailError: string, mobileError: string)
    requires emailError == ValidateField("email", Lookup(ed.customer, "email"))
    requires mobileError == ValidateField("mobile", Lookup(ed.customer, "mobile"))
    requires emailError != "" || mobileError != ""
    requires "email" in ed.errors && ed.errors["email"] == emailError
    requires "mobile" in ed.errors && ed.errors["mobile"] == mobileError
    ensures HandleUpdate(ed) == Blocked(ed)
  {
    assert ed.errors["email" := emailError]["mobile" := mobileError] == ed.errors;
  }

  /** A popup opened on an order without customer details cannot be saved
      until both fields are filled in. */
  lemma MissingContactBlocks(order: Order)
    requires order.customerInfo.None?
    ensures HandleUpdate(Open(order)).Blocked?
  {
    MissingEmailIsInvalid();
  }
}
