/** The billing dashboard's figures (components/billing/billing-dashboard.tsx):
    revenue, pending revenue, fees and net revenue summed over the
    transaction list, the payouts tab, the recent list and the signed
    display of an amount. Amounts are integer cents (the dashboard's dollar
    amounts times 100); transaction dates are not modelled. */
module Billing {
  import opened Wrappers
  import opened Text
  import opened Seqs

  datatype TransactionType = Payment | Payout | Refund | Fee

  datatype TransactionStatus = Completed | Pending | Failed

  datatype Transaction = Transaction(id: string, kind: TransactionType, amount: int,
                                     description: string, status: TransactionStatus)

  /** `mockTransactions`, in cents. */
  const MockTransactions: seq<Transaction> := [
    Transaction("txn_001", Payment, 15000, "Business Consultation", Completed),
    Transaction("txn_002", Payment, 7500, "Follow-up Session", Completed),
    Transaction("txn_003", Payout, -18000, "Weekly payout to bank account", Completed),
    Transaction("txn_004", Payment, 20000, "Strategy Planning Workshop", Pending),
    Transaction("txn_005", Fee, -750, "Platform fee (5%)", Completed)
  ]

  /** `reduce((sum, t) => sum + t.amount, 0)`. */
  function Sum(ts: seq<Transaction>): int {
    if ts == [] then 0 else ts[0].amount + Sum(ts[1..])
  }

  /** The amounts that pass a test and those that fail it add up to the
      whole. */
  lemma {:induction false} SumSplits(ts: seq<Transaction>, keep: Transaction -> bool)
    ensures Sum(Filter(ts, keep)) + Sum(Filter(ts, t => !keep(t))) == Sum(ts)
  {
    if ts != [] {
      SumSplits(ts[1..], keep);
    }
  }

  /** A sum of amounts none of which is negative is not negative; one of
      amounts none of which is positive is not positive. */
  lemma {:induction false} SumSign(ts: seq<Transaction>)
    ensures (forall i :: 0 <= i < |ts| ==> ts[i].amount >= 0) ==> Sum(ts) >= 0
    ensures (forall i :: 0 <= i < |ts| ==> ts[i].amount <= 0) ==> Sum(ts) <= 0
  {
    if ts != [] {
      SumSign(ts[1..]);
    }
  }

  predicate IsCompletedPayment(t: Transaction) { t.kind == Payment && t.status == Completed }
  predicate IsPendingPayment(t: Transaction) { t.kind == Payment && t.status == Pending }
  predicate IsFee(t: Transaction) { t.kind == Fee }
  predicate IsPayout(t: Transaction) { t.kind == Payout }

  function TotalRevenue(ts: seq<Transaction>): int {
    Sum(Filter(ts, IsCompletedPayment))
  }

  function PendingRevenue(ts: seq<Transaction>): int {
    Sum(Filter(ts, IsPendingPayment))
  }

  /** `Math.abs` of the fee total, whatever the fees' status. */
  function TotalFees(ts: seq<Transaction>): (fees: nat) {
    var s := Sum(Filter(ts, IsFee));
    if s < 0 then -s else s
  }

  function NetRevenue(ts: seq<Transaction>): int {
    TotalRevenue(ts) - TotalFees(ts)
  }

  /** Fees are recorded as negative amounts; then the fee total is what they
      take away, and net revenue is completed revenue with the fees added
      in. Completed and pending revenue never count the same transaction. */
  lemma RevenueFigures(ts: seq<Transaction>)
    ensures (forall i :: 0 <= i < |ts| && ts[i].kind == Fee ==> ts[i].amount <= 0) ==>
      TotalFees(ts) == -Sum(Filter(ts, IsFee)) && NetRevenue(ts) == TotalRevenue(ts) + Sum(Filter(ts, IsFee))
    ensures forall t :: t in Filter(ts, IsCompletedPayment) ==> t !in Filter(ts, IsPendingPayment)
  {
    if forall i :: 0 <= i < |ts| && ts[i].kind == Fee ==> ts[i].amount <= 0 {
      var fees := Filter(ts, IsFee);
      forall i | 0 <= i < |fees| ensures fees[i].amount <= 0 {
        FilterMembers(ts, IsFee);
        assert fees[i] in ts;
      }
      SumSign(fees);
    }
    CompletedNotPending(ts);
  }

  lemma CompletedNotPending(ts: seq<Transaction>)
    ensures forall t :: t in Filter(ts, IsCompletedPayment) ==> t !in Filter(ts, IsPendingPayment)
  {
    FilterMembers(ts, IsCompletedPayment);
    FilterMembers(ts, IsPendingPayment);
  }

  /** The payouts tab: exactly the payouts, in their order. */
  function Payouts(ts: seq<Transaction>): seq<Transaction> {
    Filter(ts, IsPayout)
  }

  lemma PayoutsMeaning(ts: seq<Transaction>)
    ensures forall t :: t in Payouts(ts) <==> t in ts && t.kind == Payout
    ensures IsSubsequence(Payouts(ts), ts)
  {
    FilterMembers(ts, IsPayout);
    FilterIsSubsequence(ts, IsPayout);
  }

  /** `slice(0, 5)`: the first five, or all when there are fewer. */
  function Recent(ts: seq<Transaction>): (r: seq<Transaction>)
    ensures |r| <= 5 && r <= ts
    ensures |ts| <= 5 ==> r == ts
  {
    if |ts| <= 5 then ts else ts[..5]
  }

  /** `String(dollars)` for an amount of cents: the whole dollars, then the
      cents without trailing zeros ("7.5", "150", "0.05"). */
  function DollarText(cents: nat): string {
    var whole := NatToString(cents / 100);
    var c := cents % 100;
    if c == 0 then whole else whole + "." + FractionText(c)
  }

  /** The cents after the point: one digit when they are whole dimes, two
      otherwise. */
  function FractionText(c: nat): string
    requires c < 100
  {
    if c % 10 == 0 then [DigitChar(c / 10)] else Pad2(c)
  }

  /** Reading a dollar text back into cents: whole dollars, and after a
      point one digit of dimes or two digits of cents. */
  function CentsOfText(t: string): Option<nat> {
    var parts := Split(t, '.');
    if parts[0] == [] || !AllDigits(parts[0]) then None
    else if |parts| == 1 then Some(DecimalValue(parts[0]) * 100)
    else if |parts| == 2 && AllDigits(parts[1]) && 1 <= |parts[1]| <= 2 then
      Some(DecimalValue(parts[0]) * 100 + FractionCents(parts[1]))
    else None
  }

  /** The cents one fraction digit (dimes) or two fraction digits denote. */
  function FractionCents(f: string): nat
    requires AllDigits(f)
  {
    if |f| == 1 then DecimalValue(f) * 10 else DecimalValue(f)
  }

  /** The dollar text reads back as the amount it was written from; it has a
      point exactly when there are cents, and then it does not end in a
      zero. */
  lemma DollarTextRoundTrip(cents: nat)
    ensures CentsOfText(DollarText(cents)) == Some(cents)
    ensures '.' in DollarText(cents) <==> cents % 100 != 0
    ensures cents % 100 != 0 ==> DollarText(cents)[|DollarText(cents)| - 1] != '0'
  {
    DecimalRoundTrip(cents / 100);
    if cents % 100 == 0 {
      WholeDollars(cents);
    } else {
      DollarsAndCents(cents);
    }
  }

  /** A whole number of dollars is written without a point. */
  lemma WholeDollars(cents: nat)
    requires cents % 100 == 0
    requires DecimalValue(NatToString(cents / 100)) == cents / 100
    ensures CentsOfText(DollarText(cents)) == Some(cents)
    ensures '.' !in DollarText(cents)
  {
    var w := NatToString(cents / 100);
    assert DollarText(cents) == w;
    WholeText(w);
  }

  /** Dollars and cents are written with a point and a last digit that is not
      a zero. */
  lemma DollarsAndCents(cents: nat)
    requires cents % 100 != 0
    requires DecimalValue(NatToString(cents / 100)) == cents / 100
    ensures CentsOfText(DollarText(cents)) == Some(cents)
    ensures '.' in DollarText(cents)
    ensures DollarText(cents)[|DollarText(cents)| - 1] != '0'
  {
    var w := NatToString(cents / 100);
    var c := cents % 100;
    var f := FractionText(c);
    assert DollarText(cents) == w + "." + f;
    FractionDigits(c);
    PointText(w, f);
  }

  /** Digits alone read back as whole dollars and hold no point. */
  lemma WholeText(w: string)
    requires w != [] && AllDigits(w)
    ensures CentsOfText(w) == Some(DecimalValue(w) * 100)
    ensures '.' !in w
  {
    NoPoint(w);
    assert Join([w], '.') == w;
    SplitJoin([w], '.');
  }

  /** Digits, a point and one or two digits read back as dollars and dimes or
      cents; the text ends in the last fraction digit. */
  lemma PointText(w: string, f: string)
    requires w != [] && AllDigits(w)
    requires AllDigits(f) && 1 <= |f| <= 2
    ensures CentsOfText(w + "." + f) == Some(DecimalValue(w) * 100 + FractionCents(f))
    ensures '.' in w + "." + f
    ensures (w + "." + f)[|w + "." + f| - 1] == f[|f| - 1]
  {
    var t := w + "." + f;
    NoPoint(w);
    NoPoint(f);
    assert Join([w, f], '.') == t by {
      assert [w, f][1..] == [f];
    }
    SplitJoin([w, f], '.');
    CentsOfTwoParts(t, w, f);
    assert t[|w|] == '.';
  }

  /** A text that splits at its one point into digits and one or two digits
      reads back as dollars and dimes or cents. */
  lemma CentsOfTwoParts(t: string, a: string, b: string)
    requires Split(t, '.') == [a, b]
    requires a != [] && AllDigits(a) && AllDigits(b) && 1 <= |b| <= 2
    ensures CentsOfText(t) == Some(DecimalValue(a) * 100 + FractionCents(b))
  {
  }

  /** A string of digits holds no point. */
  lemma NoPoint(s: string)
    requires AllDigits(s)
    ensures '.' !in s
  {
    forall i | 0 <= i < |s| ensures s[i] != '.' { assert IsDigit(s[i]); }
  }

  /** The one or two fraction digits `DollarText` writes for `c` cents
      (`0 < c < 100`) denote `c`, and the last of them is not a zero. */
  lemma FractionDigits(c: nat)
    requires 0 < c < 100
    ensures var f := FractionText(c);
      AllDigits(f) && 1 <= |f| <= 2 && f[|f| - 1] != '0'
      && FractionCents(f) == c
  {
    if c % 10 == 0 {
      var f := [DigitChar(c / 10)];
      assert f[..0] == [];
      assert DecimalValue(f) == c / 10;
    } else {
      var f := Pad2(c);
      assert f[..1] == [f[0]] && [f[0]][..0] == [];
      assert DecimalValue(f) == DigitValue(f[0]) * 10 + DigitValue(f[1]);
      assert DigitValue(f[1]) == c % 10;
    }
  }

  /** $7.50 shows as "7.5", $150 as "150", five cents as "0.05". */
  lemma DollarTextExamples()
    ensures DollarText(750) == "7.5"
    ensures DollarText(15000) == "150"
    ensures DollarText(5) == "0.05"
  {
    DollarTextSevenFifty();
    DollarTextHundredFifty();
    DollarTextFiveCents();
  }

  lemma DollarTextSevenFifty()
    ensures DollarText(750) == "7.5"
  {
    assert NatToString(7) == "7";
  }

  lemma DollarTextHundredFifty()
    ensures DollarText(15000) == "150"
  {
    assert NatToString(15) == NatToString(1) + "5" == "15";
    assert NatToString(150) == NatToString(15) + "0" == "150";
  }

  lemma DollarTextFiveCents()
    ensures DollarText(5) == "0.05"
  {
    assert NatToString(0) == "0";
    assert Pad2(5) == "05";
  }

  /** The amount as listed: "+" for a positive amount, then "$" and the
      absolute value, which reads back as the amount's magnitude. */
  function AmountText(amount: int): (s: string)
    ensures var k := if amount > 0 then 2 else 1;
      |s| > k && s[..k] == (if amount > 0 then "+$" else "$")
      && s[k..] == DollarText(if amount < 0 then -amount else amount)
      && CentsOfText(s[k..]) == Some(if amount < 0 then -amount else amount)
  {
    var magnitude := if amount < 0 then -amount else amount;
    DollarTextRoundTrip(magnitude);
    var sign := if amount > 0 then "+$" else "$";
    var r := sign + DollarText(magnitude);
    assert r[|sign|..] == DollarText(magnitude);
    r
  }

  /** The "+" appears exactly for positive amounts, and an amount and its
      negation show the same digits. */
  lemma AmountTextSign(amount: int)
    ensures AmountText(amount)[0] == '+' <==> amount > 0
    ensures amount > 0 ==> AmountText(amount) == "+" + AmountText(-amount)
    ensures amount <= 0 ==> AmountText(amount) == "$" + DollarText(-amount)
  {
  }

  /** The dashboard's figures for the sample data: $225 revenue, $200
      pending, $7.50 fees, $217.50 net, one payout. */
  lemma MockFigures()
    ensures TotalRevenue(MockTransactions) == 22500
    ensures PendingRevenue(MockTransactions) == 20000
    ensures TotalFees(MockTransactions) == 750
    ensures NetRevenue(MockTransactions) == 21750
    ensures Payouts(MockTransactions) == [MockTransactions[2]]
  {
    MockCompleted();
    MockPending();
    MockFees();
    MockPayouts();
  }

  lemma MockCompleted()
    ensures Filter(MockTransactions, IsCompletedPayment) == MockTransactions[..2]
    ensures Sum(MockTransactions[..2]) == 22500
  {
    var ts := MockTransactions;
    assert ts[0..] == ts;
    FilterRun(ts, IsCompletedPayment, 0, 2);
    FilterSkip(ts, IsCompletedPayment, 2);
    FilterSkip(ts, IsCompletedPayment, 3);
    FilterSkip(ts, IsCompletedPayment, 4);
    assert ts[5..] == [];
    assert ts[..2] == [ts[0], ts[1]];
    assert [ts[0], ts[1]][1..] == [ts[1]];
    assert Sum([ts[1]]) == 7500;
  }

  lemma MockPending()
    ensures Filter(MockTransactions, IsPendingPayment) == [MockTransactions[3]]
    ensures Sum([MockTransactions[3]]) == 20000
  {
    var ts := MockTransactions;
    assert ts[0..] == ts;
    FilterSkip(ts, IsPendingPayment, 0);
    FilterSkip(ts, IsPendingPayment, 1);
    FilterSkip(ts, IsPendingPayment, 2);
    FilterRun(ts, IsPendingPayment, 3, 4);
    FilterSkip(ts, IsPendingPayment, 4);
    assert ts[5..] == [];
    assert ts[3..4] == [ts[3]];
  }

  lemma MockFees()
    ensures Filter(MockTransactions, IsFee) == [MockTransactions[4]]
    ensures Sum([MockTransactions[4]]) == -750
  {
    var ts := MockTransactions;
    assert ts[0..] == ts;
    FilterSkip(ts, IsFee, 0);
    FilterSkip(ts, IsFee, 1);
    FilterSkip(ts, IsFee, 2);
    FilterSkip(ts, IsFee, 3);
    FilterRun(ts, IsFee, 4, 5);
    assert ts[5..] == [];
    assert ts[4..5] == [ts[4]];
  }

  lemma MockPayouts()
    ensures Filter(MockTransactions, IsPayout) == [MockTransactions[2]]
  {
    var ts := MockTransactions;
    assert ts[0..] == ts;
    FilterSkip(ts, IsPayout, 0);
    FilterSkip(ts, IsPayout, 1);
    FilterRun(ts, IsPayout, 2, 3);
    FilterSkip(ts, IsPayout, 3);
    FilterSkip(ts, IsPayout, 4);
    assert ts[5..] == [];
    assert ts[2..3] == [ts[2]];
  }
}
