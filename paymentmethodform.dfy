/** The saved-card form (components/payment/payment-method-form.tsx): its
    fields, their input filters, and the submit that hands a new card to the
    payment store. The submit's card-number guard counts the spaces the
    formatter inserts; the guard as written and a corrected guard are both
    modelled, and the form has a submit handler for each. */
module PaymentMethodForm {
  import opened Wrappers
  import opened Text
  import opened CardInput
  import Payments

  datatype CardFormData = CardFormData(cardNumber: string, expiryMonth: string, expiryYear: string,
                                       cvc: string, name: string)

  // ------------------------------------------------- formatted field lengths

  /** Joined pieces are as long as the pieces together plus one separator
      between each two. */
  lemma {:induction false} JoinLength(parts: seq<string>, sep: char)
    requires |parts| >= 1
    ensures |Join(parts, sep)| == |Flatten(parts)| + |parts| - 1
  {
    if |parts| > 1 {
      JoinLength(parts[1..], sep);
    } else {
      assert Flatten(parts) == parts[0] + Flatten([]);
    }
  }

  /** Joined pieces end with the last piece. */
  lemma {:induction false} JoinEndsWithLast(parts: seq<string>, sep: char)
    requires |parts| >= 1
    ensures var j := Join(parts, sep); var last := parts[|parts| - 1];
      |last| <= |j| && j[|j| - |last|..] == last
  {
    if |parts| > 1 {
      JoinEndsWithLast(parts[1..], sep);
      var rest := Join(parts[1..], sep);
      var j := Join(parts, sep);
      assert j == (parts[0] + [sep]) + rest;
      assert j[|j| - |parts[|parts| - 1]|..] == rest[|rest| - |parts[|parts| - 1]|..];
    }
  }

  /** The formatted field is `k + ceil(k / 4) - 1` characters long for the
      `k` digits it keeps, when there are four or more. */
  lemma FormattedLength(typed: string)
    requires |DigitsOnly(typed)| >= 4
    ensures var k := Min(|DigitsOnly(typed)|, 16);
      |CardFormat(typed)| == k + (k + 3) / 4 - 1
  {
    var v := DigitsOnly(typed);
    var m := v[..Min(|v|, 16)];
    ChunksShape(m);
    JoinLength(Chunks(m), ' ');
  }

  // ------------------------------------------------------ the guard as written

  /** `formData.cardNumber.length < 16` rejects; the rest is accepted. */
  predicate AcceptsAsWritten(cardNumber: string) {
    |cardNumber| >= 16
  }

  /** The card handed to the store as written: `last4` is
      `cardNumber.slice(-4)`, the expiry fields go through `parseInt`. */
  function SubmissionAsWritten(f: CardFormData): (r: Option<Payments.NewPaymentMethod>)
    ensures r.Some? <==> AcceptsAsWritten(f.cardNumber)
    ensures r.Some? ==> r.value == Payments.NewPaymentMethod(SliceLast(f.cardNumber, 4), "visa",
                                                             ParseInt(f.expiryMonth), ParseInt(f.expiryYear))
  {
    if !AcceptsAsWritten(f.cardNumber) then None
    else Some(Payments.NewPaymentMethod(SliceLast(f.cardNumber, 4), "visa",
                                        ParseInt(f.expiryMonth), ParseInt(f.expiryYear)))
  }

  /** Counted on the formatted field, the guard lets a card through from
      thirteen typed digits on, not sixteen. */
  lemma AsWrittenAcceptsThirteenDigits(typed: string)
    ensures AcceptsAsWritten(CardFormat(typed)) <==> |DigitsOnly(typed)| >= 13
  {
    if |DigitsOnly(typed)| >= 4 {
      FormattedLength(typed);
    }
  }

  /** Thirteen characters fall into three groups of four and one of one. */
  lemma ChunksOfThirteen(m: string)
    requires |m| == 13
    ensures Chunks(m) == [m[..4], m[4..8], m[8..12], m[12..]]
  {
    assert Chunks(m[12..]) == [m[12..]];
    assert m[8..][..4] == m[8..12] && m[8..][4..] == m[12..];
    assert Chunks(m[8..]) == [m[8..12], m[12..]];
    assert m[4..][..4] == m[4..8] && m[4..][4..] == m[8..];
    assert Chunks(m[4..]) == [m[4..8], m[8..12], m[12..]];
  }

  /** Thirteen digits typed: the field shows them in four groups, sixteen
      characters. */
  lemma FormattedThirteen(typed: string)
    requires |DigitsOnly(typed)| == 13
    ensures var m := DigitsOnly(typed);
      CardFormat(typed) == m[..4] + " " + m[4..8] + " " + m[8..12] + " " + m[12..]
  {
    var m := DigitsOnly(typed);
    assert m[..Min(|m|, 16)] == m;
    ChunksOfThirteen(m);
    JoinFour(m[..4], m[4..8], m[8..12], m[12..], ' ');
  }

  /** Four pieces joined: each separated from the next by one separator. */
  lemma JoinFour(a: string, b: string, c: string, d: string, sep: char)
    ensures Join([a, b, c, d], sep) == a + [sep] + b + [sep] + c + [sep] + d
  {
    assert [a, b, c, d][1..] == [b, c, d];
    assert [b, c, d][1..] == [c, d];
    assert [c, d][1..] == [d];
    var cd := c + [sep] + d;
    var bcd := b + [sep] + cd;
    assert Join([d], sep) == d;
    assert Join([c, d], sep) == cd;
    assert Join([b, c, d], sep) == bcd;
    assert b + [sep] + c + [sep] + d == bcd;
    assert a + [sep] + b + [sep] + c + [sep] + d == a + [sep] + bcd;
  }

  /** So the guard lets the card through, and the last four characters,
      stored as `last4`, are two digits, a space and a digit. */
  lemma AsWrittenAcceptsThirteen(f: CardFormData, typed: string)
    requires |DigitsOnly(typed)| == 13
    requires f.cardNumber == CardFormat(typed)
    ensures SubmissionAsWritten(f).Some?
    ensures SubmissionAsWritten(f).value.last4 == [DigitsOnly(typed)[10], DigitsOnly(typed)[11], ' ', DigitsOnly(typed)[12]]
  {
    FormattedThirteen(typed);
    LastFourOfThirteen(DigitsOnly(typed));
  }

  lemma LastFourOfThirteen(m: string)
    requires |m| == 13
    ensures SliceLast(m[..4] + " " + m[4..8] + " " + m[8..12] + " " + m[12..], 4) == [m[10], m[11], ' ', m[12]]
  {
    var j := m[..4] + " " + m[4..8] + " " + m[8..12] + " " + m[12..];
    var p := m[..4] + " " + m[4..8] + " ";
    var q := m[8..12];
    assert |p| == 10 && |q| == 4 && j == p + q + " " + m[12..];
    assert j[12] == m[10] && j[13] == m[11] && j[14] == ' ' && j[15] == m[12];
    assert SliceLast(j, 4) == j[12..];
    assert j[12..] == [j[12], j[13], j[14], j[15]];
  }

  // ------------------------------------------------------ the corrected guard

  /** The evidently intended guard: sixteen digits, spaces not counted (the
      rule the booking payment step applies). */
  predicate Accepts(cardNumber: string) {
    |WithoutSpaces(cardNumber)| >= 16
  }

  /** The card handed to the store: `last4` taken from the digits, not from
      the spaced field. */
  function Submission(f: CardFormData): (r: Option<Payments.NewPaymentMethod>)
    ensures r.Some? <==> Accepts(f.cardNumber)
    ensures r.Some? ==> r.value.brand == "visa" && |r.value.last4| == 4
    ensures r.Some? ==> r.value.expiryMonth == ParseInt(f.expiryMonth) && r.value.expiryYear == ParseInt(f.expiryYear)
  {
    if !Accepts(f.cardNumber) then None
    else Some(Payments.NewPaymentMethod(SliceLast(WithoutSpaces(f.cardNumber), 4), "visa",
                                        ParseInt(f.expiryMonth), ParseInt(f.expiryYear)))
  }

  /** For a field the formatter filled: the card is accepted exactly when
      sixteen digits were typed, and its `last4` is the last four of the
      sixteen digits kept. */
  lemma SubmissionOfTypedCard(f: CardFormData, typed: string)
    requires f.cardNumber == CardFormat(typed)
    ensures Submission(f).Some? <==> |DigitsOnly(typed)| >= 16
    ensures Submission(f).Some? ==> Submission(f).value.last4 == DigitsOnly(typed)[12..16]
  {
    SixteenDigitsTyped(typed);
    CardFormatShape(typed);
  }

  /** Where the guard as written is right, at sixteen digits, the corrected
      submission is the same card. */
  lemma CorrectionAgreesFromSixteenDigits(f: CardFormData, typed: string)
    requires f.cardNumber == CardFormat(typed)
    requires |DigitsOnly(typed)| >= 16
    ensures SubmissionAsWritten(f) == Submission(f)
  {
    SubmissionOfTypedCard(f, typed);
    var v := DigitsOnly(typed);
    var m := v[..16];
    ChunksOfSixteen(m);
    var parts := Chunks(m);
    JoinEndsWithLast(parts, ' ');
    var j := f.cardNumber;
    assert j == Join(parts, ' ');
    FormattedLength(typed);
    assert |j| == 19;
    assert SliceLast(j, 4) == m[12..16] == v[12..16];
    var a := SubmissionAsWritten(f).value;
    var b := Submission(f).value;
    assert a.last4 == b.last4;
    assert a == b;
  }

  /** Sixteen characters fall into four groups of four. */
  lemma ChunksOfSixteen(m: string)
    requires |m| == 16
    ensures Chunks(m) == [m[..4], m[4..8], m[8..12], m[12..16]]
  {
    assert m[12..] == m[12..16];
    assert Chunks(m[12..]) == [m[12..16]];
    assert m[8..][..4] == m[8..12] && m[8..][4..] == m[12..];
    assert Chunks(m[8..]) == [m[8..12], m[12..16]];
    assert m[4..][..4] == m[4..8] && m[4..][4..] == m[8..];
    assert Chunks(m[4..]) == [m[4..8], m[8..12], m[12..16]];
  }

  // ------------------------------------------------------------------ the form

  /** The browser's constraint validation: the name, card number and CVC
      inputs are `required`, so none of them may be empty; the expiry
      selects carry no constraint. */
  predicate Submittable(f: CardFormData) {
    f.name != "" && f.cardNumber != "" && f.cvc != ""
  }

  /** Once the handler's own guard passes, the card number is filled in, so
      the browser adds only the name and the CVC to what is required: a
      sixteen-digit card with no name never reaches the handler. */
  lemma SubmittableBeyondGuard(f: CardFormData)
    requires AcceptsAsWritten(f.cardNumber)
    ensures Submittable(f) <==> f.name != "" && f.cvc != ""
    ensures !Submittable(f.(name := ""))
  {
  }

  class MethodForm {
    var formData: CardFormData

    constructor ()
      ensures formData == CardFormData("", "", "", "", "")
    {
      formData := CardFormData("", "", "", "", "");
    }

    method HandleNameChange(value: string)
      modifies this
      ensures formData == old(formData).(name := value)
    {
      formData := formData.(name := value);
    }

    /** The card field keeps the formatted text. */
    method HandleCardNumberChange(typed: string)
      modifies this
      ensures formData == old(formData).(cardNumber := CardFormat(typed))
    {
      var formatted := FormatCardNumber(typed);
      formData := formData.(cardNumber := formatted);
    }

    method HandleExpiryMonthChange(value: string)
      modifies this
      ensures formData == old(formData).(expiryMonth := value)
    {
      formData := formData.(expiryMonth := value);
    }

    method HandleExpiryYearChange(value: string)
      modifies this
      ensures formData == old(formData).(expiryYear := value)
    {
      formData := formData.(expiryYear := value);
    }

    /** The CVC field keeps at most four digits. */
    method HandleCvcChange(typed: string)
      modifies this
      ensures formData == old(formData).(cvc := SanitizeCvc(typed))
    {
      formData := formData.(cvc := SanitizeCvc(typed));
    }

    /** Submitting the form: with the submit button disabled nothing
        happens (pressing Enter does not submit either), and the browser runs
        `handleSubmit` only when the `required` inputs are filled in. */
    method Submit(store: Payments.Store, now: nat) returns (added: bool)
      modifies store`paymentMethods, store`loading
      ensures added <==> !old(store.loading) && Submittable(formData) && AcceptsAsWritten(formData.cardNumber)
      ensures !added ==> store.paymentMethods == old(store.paymentMethods) && store.loading == old(store.loading)
      ensures added ==> store.paymentMethods == old(store.paymentMethods) + [Payments.WithMethodId(SubmissionAsWritten(formData).value, now)]
      ensures added ==> !store.loading
    {
      if SubmitDisabled(store) || !Submittable(formData) {
        return false;
      }
      added := HandleSubmit(store, now);
    }

    /** The submit button is disabled while the store is busy. */
    predicate SubmitDisabled(store: Payments.Store)
      reads store
    {
      store.loading
    }

    /** `handleSubmit` as written: a card whose formatted field is shorter
        than sixteen characters is refused and the store stays as it was (the
        alert is not modelled); any other is added with the field's last four
        characters as `last4`. */
    method HandleSubmit(store: Payments.Store, now: nat) returns (added: bool)
      modifies store`paymentMethods, store`loading
      ensures added <==> AcceptsAsWritten(formData.cardNumber)
      ensures !added ==> store.paymentMethods == old(store.paymentMethods) && store.loading == old(store.loading)
      ensures added ==> store.paymentMethods == old(store.paymentMethods) + [Payments.WithMethodId(SubmissionAsWritten(formData).value, now)]
      ensures added ==> !store.loading
    {
      if |formData.cardNumber| < 16 {
        return false;
      }
      store.AddPaymentMethod(Payments.NewPaymentMethod(SliceLast(formData.cardNumber, 4), "visa",
                                                       ParseInt(formData.expiryMonth), ParseInt(formData.expiryYear)), now);
      added := true;
    }

    /** The submit handler with the corrected guard: sixteen digits, spaces
        not counted, and `last4` taken from the digits. */
    method HandleSubmitCorrected(store: Payments.Store, now: nat) returns (added: bool)
      modifies store`paymentMethods, store`loading
      ensures added <==> Accepts(formData.cardNumber)
      ensures !added ==> store.paymentMethods == old(store.paymentMethods) && store.loading == old(store.loading)
      ensures added ==> store.paymentMethods == old(store.paymentMethods) + [Payments.WithMethodId(Submission(formData).value, now)]
      ensures added ==> !store.loading
    {
      var submission := Submission(formData);
      if submission.None? {
        return false;
      }
      store.AddPaymentMethod(submission.value, now);
      added := true;
    }
  }
}
