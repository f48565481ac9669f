/** The card-number and CVC input filters shared by the booking payment step
    (components/booking/client-payment.tsx) and the saved-card form
    (components/payment/payment-method-form.tsx), which carry identical
    copies of `formatCardNumber`. */
module CardInput {
  import opened Text

  function Min(a: int, b: int): int { if a <= b then a else b }

  /** The groups `formatCardNumber` cuts `m` into: four characters each, the
      last one possibly shorter. */
  function Chunks(m: string): (parts: seq<string>)
    ensures m == [] <==> parts == []
    decreases |m|
  {
    if m == [] then []
    else if |m| <= 4 then [m]
    else [m[..4]] + Chunks(m[4..])
  }

  /** The pieces, concatenated. */
  function Flatten(parts: seq<string>): string {
    if parts == [] then [] else parts[0] + Flatten(parts[1..])
  }

  /** Every group has one to four characters, all but the last exactly four,
      and together they spell `m`. */
  lemma {:induction false} ChunksShape(m: string)
    ensures forall i :: 0 <= i < |Chunks(m)| ==> 1 <= |Chunks(m)[i]| <= 4
    ensures forall i :: 0 <= i < |Chunks(m)| - 1 ==> |Chunks(m)[i]| == 4
    ensures |Chunks(m)| == (|m| + 3) / 4
    ensures Flatten(Chunks(m)) == m
    decreases |m|
  {
    if |m| > 4 {
      ChunksShape(m[4..]);
      var parts := Chunks(m);
      assert parts[1..] == Chunks(m[4..]);
      assert m == m[..4] + m[4..];
    } else if m != [] {
      assert Flatten([m]) == m + Flatten([]);
    }
  }

  /** The groups of a string of digits are digits. */
  lemma ChunksOfDigits(m: string)
    requires AllDigits(m)
    ensures forall i :: 0 <= i < |Chunks(m)| ==> AllDigits(Chunks(m)[i])
    decreases |m|
  {
    if |m| > 4 {
      ChunksOfDigits(m[4..]);
      assert Chunks(m)[1..] == Chunks(m[4..]);
    }
  }

  /** Joining groups of digits with spaces and dropping the spaces again (or
      keeping only the digits) gives the groups back, concatenated. */
  lemma {:induction false} JoinedGroups(parts: seq<string>)
    requires forall i :: 0 <= i < |parts| ==> AllDigits(parts[i])
    ensures WithoutSpaces(Join(parts, ' ')) == Flatten(parts)
    ensures DigitsOnly(Join(parts, ' ')) == Flatten(parts)
    decreases |parts|
  {
    if |parts| == 1 {
      WithoutSpacesOfDigits(parts[0]);
      assert Flatten(parts) == parts[0] + Flatten([]);
    } else if |parts| > 1 {
      JoinedGroups(parts[1..]);
      var rest := Join(parts[1..], ' ');
      WithoutSpacesOfDigits(parts[0]);
      WithoutSpacesAppend(parts[0] + [' '], rest);
      WithoutSpacesAppend(parts[0], [' ']);
      DigitsOnlyAppend(parts[0] + [' '], rest);
      DigitsOnlyAppend(parts[0], [' ']);
      assert WithoutSpaces([' ']) == [] && DigitsOnly([' ']) == [];
    }
  }

  /** What `v.match(/\d{4,16}/g)?.[0] || ""` picks out of the digit string
      `v`: its first sixteen digits, or nothing when it has fewer than four. */
  function FirstRun(v: string): (m: string)
    requires AllDigits(v)
    ensures |v| < 4 ==> m == []
    ensures |v| >= 4 ==> m == v[..Min(|v|, 16)]
  {
    if |v| < 4 then [] else v[..Min(|v|, 16)]
  }

  /** `formatCardNumber(value)`: the first sixteen digits in groups of four,
      or the bare digits when there are fewer than four. */
  function CardFormat(value: string): string {
    var v := DigitsOnly(value);
    var m := FirstRun(v);
    if m == [] then v else Join(Chunks(m), ' ')
  }

  /** One round of the loop: the group starting at `i`, then the rest. */
  lemma ChunksStep(m: string, i: nat)
    requires i < |m|
    ensures Chunks(m[i..]) == [m[i..Min(i + 4, |m|)]] + Chunks(m[Min(i + 4, |m|)..])
  {
    if |m| - i > 4 {
      assert m[i..][..4] == m[i..i + 4] && m[i..][4..] == m[i + 4..];
    } else {
      assert Min(i + 4, |m|) == |m| && m[i..|m|] == m[i..] && m[|m|..] == [];
      assert Chunks(m[i..]) == [m[i..]];
    }
  }

  /** The `for` loop of `formatCardNumber`: `match.substring(i, i + 4)`
      pushed for `i = 0, 4, 8, ...` below the length. */
  method PushGroups(m: string) returns (parts: seq<string>)
    ensures parts == Chunks(m)
  {
    parts := [];
    var i := 0;
    while i < |m|
      invariant 0 <= i <= |m| + 3 && i % 4 == 0
      invariant parts + Chunks(m[Min(i, |m|)..]) == Chunks(m)
      decreases |m| - i
    {
      ChunksStep(m, i);
      var piece, next := m[i..Min(i + 4, |m|)], Min(i + 4, |m|);
      assert Min(i, |m|) == i;
      assert (parts + [piece]) + Chunks(m[next..]) == parts + ([piece] + Chunks(m[next..]));
      parts := parts + [piece];
      i := i + 4;
    }
    assert m[Min(i, |m|)..] == [];
  }

  /** `formatCardNumber` as written: strip white space, then every non-digit,
      take the first run of four to sixteen digits, and join its groups with
      spaces, or give back the digits when there is no such run. */
  method FormatCardNumber(value: string) returns (r: string)
    ensures r == CardFormat(value)
  {
    var v := DigitsOnly(WithoutSpaces(value));
    DigitsIgnoreSpaces(value);
    var parts := PushGroups(FirstRun(v));
    if |parts| > 0 {
      r := Join(parts, ' ');
    } else {
      r := v;
    }
  }

  /** Stripping white space first changes nothing: white space is not a
      digit. */
  lemma {:induction false} DigitsIgnoreSpaces(s: string)
    ensures DigitsOnly(WithoutSpaces(s)) == DigitsOnly(s)
  {
    if s != [] {
      DigitsIgnoreSpaces(s[1..]);
      if !IsSpace(s[0]) {
        assert WithoutSpaces(s) == [s[0]] + WithoutSpaces(s[1..]);
        assert ([s[0]] + WithoutSpaces(s[1..]))[1..] == WithoutSpaces(s[1..]);
      }
    }
  }

  /** The digits kept: the digits of the input when there are fewer than
      four, its first sixteen otherwise. */
  function KeptDigits(value: string): (d: string)
    ensures AllDigits(d)
    ensures |d| <= |DigitsOnly(value)| && d == DigitsOnly(value)[..|d|]
    ensures |DigitsOnly(value)| < 4 ==> d == DigitsOnly(value)
    ensures |DigitsOnly(value)| >= 4 ==> |d| == Min(|DigitsOnly(value)|, 16)
  {
    var v := DigitsOnly(value);
    if |v| < 4 then v else v[..Min(|v|, 16)]
  }

  /** The formatted text holds only digits and single separating spaces:
      split on the space it is groups of one to four digits, all but the last
      exactly four, at most four groups; without its spaces it is the kept
      digits, a prefix of the input's digits. */
  lemma CardFormatShape(value: string)
    ensures var g := Split(CardFormat(value), ' ');
      && Join(g, ' ') == CardFormat(value)
      && |g| <= 4
      && (forall i :: 0 <= i < |g| ==> AllDigits(g[i]) && |g[i]| <= 4)
      && (forall i :: 0 <= i < |g| - 1 ==> |g[i]| == 4)
      && (CardFormat(value) != [] ==> forall i :: 0 <= i < |g| ==> |g[i]| >= 1)
    ensures WithoutSpaces(CardFormat(value)) == KeptDigits(value)
    ensures DigitsOnly(CardFormat(value)) == KeptDigits(value)
  {
    var v := DigitsOnly(value);
    var r := CardFormat(value);
    JoinSplit(r, ' ');
    if |v| < 4 {
      WithoutSpacesOfDigits(v);
      assert ' ' !in v by {
        forall c | c in v ensures c != ' ' {
          var k :| 0 <= k < |v| && v[k] == c;
        }
      }
      SplitJoin([v], ' ');
    } else {
      var m := v[..Min(|v|, 16)];
      assert AllDigits(m);
      ChunksShape(m);
      ChunksOfDigits(m);
      var parts := Chunks(m);
      forall i | 0 <= i < |parts| ensures ' ' !in parts[i] {
        forall c | c in parts[i] ensures c != ' ' {
          var k :| 0 <= k < |parts[i]| && parts[i][k] == c;
          assert IsDigit(parts[i][k]);
        }
      }
      SplitJoin(parts, ' ');
      JoinedGroups(parts);
    }
  }

  /** Formatting formatted text changes nothing. */
  lemma CardFormatIdempotent(value: string)
    ensures CardFormat(CardFormat(value)) == CardFormat(value)
  {
    CardFormatShape(value);
    var v := DigitsOnly(value);
    var d := KeptDigits(value);
    assert DigitsOnly(CardFormat(value)) == d;
    if |v| >= 4 {
      assert 4 <= |d| <= 16;
      assert d[..Min(|d|, 16)] == d;
    }
  }

  /** The card field holds a formatted value, so its digit count (what
      `replace(/\s/g, "").length` measures) reaches sixteen exactly when at
      least sixteen digits were typed. */
  lemma SixteenDigitsTyped(value: string)
    ensures |WithoutSpaces(CardFormat(value))| >= 16 <==> |DigitsOnly(value)| >= 16
  {
    CardFormatShape(value);
  }

  /** `e.target.value.replace(/\D/g, "").slice(0, 4)`. */
  function SanitizeCvc(input: string): (cvc: string)
    ensures AllDigits(cvc) && |cvc| <= 4
    ensures |cvc| <= |DigitsOnly(input)| && cvc == DigitsOnly(input)[..|cvc|]
    ensures |cvc| == Min(|DigitsOnly(input)|, 4)
  {
    var d := DigitsOnly(input);
    d[..Min(|d|, 4)]
  }

  /** Sanitising a sanitised CVC changes nothing. */
  lemma SanitizeCvcIdempotent(input: string)
    ensures SanitizeCvc(SanitizeCvc(input)) == SanitizeCvc(input)
  {
  }
}
