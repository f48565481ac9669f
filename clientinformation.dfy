/** Step 3 of the booking wizard (components/booking/client-information.tsx):
    the client's name, e-mail, phone and notes, the browser's check of the
    e-mail input and the value it hands on, the checks run on submit, and
    the clearing of a field's error when the field is edited. */
module ClientInformation {
  import opened Wrappers
  import opened Text
  import BookingFlow

  /** The form's four text fields. */
  datatype FormData = FormData(name: string, email: string, phone: string, notes: string)

  datatype Field = Name | Email | Phone | Notes

  /** Each field from the wizard's client record, or "" when there is none. */
  function InitialForm(info: Option<BookingFlow.ClientInfo>): (f: FormData)
    ensures info.None? ==> f == FormData("", "", "", "")
    ensures info.Some? ==> f.name == info.value.name && f.email == info.value.email
                           && f.phone == info.value.phone && f.notes == info.value.notes.GetOr("")
  {
    match info
    case None => FormData("", "", "", "")
    case Some(c) => FormData(c.name, c.email, c.phone, c.notes.GetOr(""))
  }

  // ---------------------------------------------------------------- e-mail

  /** No white space in `s[a..b]`. */
  predicate NoSpaceIn(s: string, a: int, b: int)
    requires 0 <= a <= b <= |s|
  {
    forall k :: a <= k < b ==> !IsSpace(s[k])
  }

  /** The run `s[a..b]` has no white space and holds an "@" at `i` with at
      least one character before it, then at least one character, a "." at
      `j`, and at least one character: it matches `\S+@\S+\.\S+`. */
  predicate MatchesAt(s: string, a: int, i: int, j: int, b: int) {
    0 <= a < i && i + 1 < j && j + 1 < b <= |s|
    && s[i] == '@' && s[j] == '.' && NoSpaceIn(s, a, b)
  }

  /** The regular expression `\S+@\S+\.\S+` matches somewhere in `s` (the
      test is not anchored). */
  ghost predicate EmailPattern(s: string) {
    exists a, i, j, b :: MatchesAt(s, a, i, j, b)
  }

  /** The shortest match around an "@" at `i` and a "." at `j`. */
  predicate ShortestMatchAt(s: string, i: int, j: int) {
    MatchesAt(s, i - 1, i, j, j + 2)
  }

  /** `/\S+@\S+\.\S+/.test(s)`, looking only at the shortest match around
      each "@" and ".". */
  predicate EmailTest(s: string) {
    exists i, j | 0 < i < |s| && 0 < j < |s| :: ShortestMatchAt(s, i, j)
  }

  /** The shortest-match test agrees with the regular expression. */
  lemma EmailTestIffPattern(s: string)
    ensures EmailTest(s) <==> EmailPattern(s)
  {
    if EmailTest(s) {
      var i, j :| 0 < i < |s| && 0 < j < |s| && ShortestMatchAt(s, i, j);
      assert MatchesAt(s, i - 1, i, j, j + 2);
    }
    if EmailPattern(s) {
      var a, i, j, b :| MatchesAt(s, a, i, j, b);
      assert ShortestMatchAt(s, i, j);
    }
  }

  /** Because the test is not anchored, text around an address that passes
      does not make it fail. */
  lemma EmailTestUnanchored(s: string, before: string, after: string)
    requires EmailTest(s)
    ensures EmailTest(before + s + after)
  {
    var t := before + s + after;
    var i, j :| 0 < i < |s| && 0 < j < |s| && ShortestMatchAt(s, i, j);
    var d := |before|;
    assert t[d + i] == '@' && t[d + j] == '.';
    forall k | d + i - 1 <= k < d + j + 2 ensures !IsSpace(t[k]) {
      assert t[k] == s[k - d];
    }
    assert ShortestMatchAt(t, d + i, d + j);
  }

  /** An address passes only if it holds an "@", not first, followed later
      by a ".", not last. */
  lemma EmailTestNeedsAtAndDot(s: string)
    requires EmailTest(s)
    ensures exists i, j :: 0 < i < j < |s| - 1 && s[i] == '@' && s[j] == '.'
  {
    var i, j :| 0 < i < |s| && 0 < j < |s| && ShortestMatchAt(s, i, j);
    assert 0 < i < j < |s| - 1 && s[i] == '@' && s[j] == '.';
  }

  /** "a@b.c" passes; "a@b" and "a @b.c" do not. */
  lemma EmailTestExamples()
    ensures EmailTest("a@b.c")
    ensures !EmailTest("a@b")
    ensures !EmailTest("a @b.c")
  {
    var good := "a@b.c";
    assert ShortestMatchAt(good, 1, 3);
    var short := "a@b";
    forall i, j ensures !ShortestMatchAt(short, i, j) {
    }
    var spaced := "a @b.c";
    forall i, j ensures !ShortestMatchAt(spaced, i, j) {
      if ShortestMatchAt(spaced, i, j) {
        assert i == 2 && IsSpace(spaced[1]);
      }
    }
  }

  // ---------------------------------------------------------------- the browser's e-mail check

  // The e-mail input is `type="email"`: before `handleSubmit` runs, the
  // browser refuses a non-empty value that is not a valid e-mail address.

  predicate IsAsciiAlnum(c: char) {
    'a' <= c <= 'z' || 'A' <= c <= 'Z' || IsDigit(c)
  }

  predicate IsLocalChar(c: char) {
    IsAsciiAlnum(c) || c in @".!#$%&'*+/=?^_`{|}~-"
  }

  /** A domain label: 1 to 63 letters, digits and hyphens, beginning and
      ending with a letter or digit. */
  predicate IsLabel(l: string) {
    1 <= |l| <= 63 && IsAsciiAlnum(l[0]) && IsAsciiAlnum(l[|l| - 1])
    && forall k :: 0 <= k < |l| ==> IsAsciiAlnum(l[k]) || l[k] == '-'
  }

  /** Labels separated by single dots: no label is empty, so there is no
      leading, trailing or doubled dot. */
  predicate IsDomain(d: string) {
    forall l <- Split(d, '.') :: IsLabel(l)
  }

  /** The "@" at `i` splits `s` into a local part and a domain. */
  predicate ValidEmailAt(s: string, i: int) {
    0 < i < |s| && s[i] == '@'
    && (forall k :: 0 <= k < i ==> IsLocalChar(s[k]))
    && IsDomain(s[i + 1..])
  }

  /** A "valid e-mail address" of the HTML standard: one or more of the
      characters `IsLocalChar` allows, an "@", then a domain. */
  predicate IsValidEmail(s: string) {
    exists i | 0 < i < |s| :: ValidEmailAt(s, i)
  }

  /** The form passes the browser's constraint validation: the e-mail is
      empty (the input is not `required`) or a valid e-mail address. */
  predicate Submittable(f: FormData) {
    f.email == "" || IsValidEmail(f.email)
  }

  /** The labels of a domain written out as its dot-free pieces. */
  lemma DomainOf(labels: seq<string>, d: string)
    requires |labels| >= 1 && forall i :: 0 <= i < |labels| ==> '.' !in labels[i]
    requires Join(labels, '.') == d
    ensures Split(d, '.') == labels
  {
    SplitJoin(labels, '.');
  }

  /** A character of joined pieces is the separator or a character of one
      of the pieces. */
  lemma {:induction false} JoinedChar(parts: seq<string>, sep: char, k: int)
    requires 0 <= k < |Join(parts, sep)|
    ensures Join(parts, sep)[k] == sep || exists p <- parts :: Join(parts, sep)[k] in p
    decreases |parts|
  {
    var c := Join(parts, sep)[k];
    if |parts| == 1 {
      assert c in parts[0];
    } else {
      var rest := Join(parts[1..], sep);
      assert Join(parts, sep) == parts[0] + [sep] + rest;
      if k < |parts[0]| {
        assert c in parts[0];
      } else if k > |parts[0]| {
        assert c == rest[k - |parts[0]| - 1];
        JoinedChar(parts[1..], sep, k - |parts[0]| - 1);
        if c != sep {
          var p :| p in parts[1..] && c in p;
          assert p in parts;
        }
      }
    }
  }

  lemma LocalCharNotSpace(c: char)
    requires IsLocalChar(c)
    ensures !IsSpace(c)
  {
  }

  /** A character of a domain is a dot or a label character. */
  lemma DomainCharNotSpace(d: string, k: int)
    requires IsDomain(d) && 0 <= k < |d|
    ensures !IsSpace(d[k])
  {
    var labels := Split(d, '.');
    JoinSplit(d, '.');
    JoinedChar(labels, '.', k);
    if d[k] != '.' {
      var l :| l in labels && d[k] in l;
      var m :| 0 <= m < |l| && l[m] == d[k];
      assert IsLabel(l);
    }
  }

  /** Whatever the browser accepts holds no white space: every character is
      a local-part character, the "@", a dot or a label character. */
  lemma ValidEmailHasNoSpace(s: string)
    requires IsValidEmail(s)
    ensures forall k :: 0 <= k < |s| ==> !IsSpace(s[k])
  {
    var i :| 0 < i < |s| && ValidEmailAt(s, i);
    var d := s[i + 1..];
    forall k | 0 <= k < i ensures !IsSpace(s[k]) {
      LocalCharNotSpace(s[k]);
    }
    forall k | i < k < |s| ensures !IsSpace(s[k]) {
      assert s[k] == d[k - i - 1];
      DomainCharNotSpace(d, k - i - 1);
    }
  }

  /** The unanchored pattern lets through a doubled dot, which the browser
      stops. */
  lemma DoubledDotPassesPatternOnly()
    ensures EmailTest("a@b..c") && !IsValidEmail("a@b..c")
  {
    var s := "a@b..c";
    assert ShortestMatchAt(s, 1, 3);
    DomainOf(["b", "", "c"], "b..c");
    assert s[2..] == "b..c";
    assert !IsLabel("");
    assert !ValidEmailAt(s, 1);
  }

  /** The pattern looks only around the "@", so a space further left is let
      through; the browser stops it. */
  lemma SpacedLocalPartPassesPatternOnly()
    ensures EmailTest("x y@b.c") && !IsValidEmail("x y@b.c")
  {
    var s := "x y@b.c";
    assert ShortestMatchAt(s, 3, 5);
    assert !IsLocalChar(s[1]);
  }

  /** The browser lets through a domain without a dot, which the pattern
      refuses. */
  lemma DotlessDomainPassesBrowserOnly()
    ensures IsValidEmail("a@b") && !EmailTest("a@b")
  {
    var s := "a@b";
    DomainOf(["b"], "b");
    assert s[2..] == "b";
    assert ValidEmailAt(s, 1);
    EmailTestExamples();
  }

  /** An ordinary address passes both checks. */
  lemma OrdinaryAddressPassesBoth()
    ensures IsValidEmail("a@b.c") && EmailTest("a@b.c")
  {
    var s := "a@b.c";
    DomainOf(["b", "c"], "b.c");
    assert s[2..] == "b.c";
    assert ValidEmailAt(s, 1);
    EmailTestExamples();
  }

  // ---------------------------------------------------------------- sanitisation

  /** The white space the HTML standard strips: tab, line feed, form feed,
      carriage return and space. */
  predicate IsAsciiWhitespace(c: char) {
    c == '\t' || c == '\n' || c == '\U{000C}' || c == '\r' || c == ' '
  }

  predicate NoNewline(s: string) {
    forall k :: 0 <= k < |s| ==> s[k] != '\n' && s[k] != '\r'
  }

  function WithoutNewlines(s: string): (r: string)
    ensures NoNewline(r)
    ensures NoNewline(s) ==> r == s
  {
    if s == [] then []
    else if s[0] == '\n' || s[0] == '\r' then WithoutNewlines(s[1..])
    else [s[0]] + WithoutNewlines(s[1..])
  }

  function StripAsciiStart(s: string): (r: string)
    ensures r == [] || !IsAsciiWhitespace(r[0])
    ensures |r| <= |s| && r == s[|s| - |r|..]
    ensures NoNewline(s) ==> NoNewline(r)
    ensures s == [] || !IsAsciiWhitespace(s[0]) ==> r == s
  {
    if s != [] && IsAsciiWhitespace(s[0]) then StripAsciiStart(s[1..]) else s
  }

  function StripAsciiEnd(s: string): (r: string)
    ensures r == [] || !IsAsciiWhitespace(r[|r| - 1])
    ensures |r| <= |s| && r == s[..|r|]
    ensures NoNewline(s) ==> NoNewline(r)
    ensures s == [] || !IsAsciiWhitespace(s[|s| - 1]) ==> r == s
  {
    if s != [] && IsAsciiWhitespace(s[|s| - 1]) then StripAsciiEnd(s[..|s| - 1]) else s
  }

  /** The value an e-mail input holds and hands to `onChange`: newlines
      removed, then leading and trailing white space stripped. */
  function SanitizedEmail(raw: string): string {
    StripAsciiEnd(StripAsciiStart(WithoutNewlines(raw)))
  }

  /** A sanitised value holds no newline and neither begins nor ends with
      white space, and sanitising it again changes nothing. */
  lemma SanitizedEmailShape(raw: string)
    ensures var r := SanitizedEmail(raw);
      && NoNewline(r)
      && (r == [] || (!IsAsciiWhitespace(r[0]) && !IsAsciiWhitespace(r[|r| - 1])))
      && SanitizedEmail(r) == r
  {
    var t := StripAsciiStart(WithoutNewlines(raw));
    var r := StripAsciiEnd(t);
    if r != [] {
      assert r[0] == t[0];
    }
  }

  /** One leading white-space character before a clean value is dropped. */
  lemma LeadingWhitespaceDropped(raw: string, t: string)
    requires |raw| >= 1 && IsAsciiWhitespace(raw[0]) && raw[1..] == t && NoNewline(raw)
    requires t != [] && !IsAsciiWhitespace(t[0]) && !IsAsciiWhitespace(t[|t| - 1])
    ensures SanitizedEmail(raw) == t
  {
  }

  /** " a@b.c" reaches the form as "a@b.c". */
  lemma SanitizedEmailExample()
    ensures SanitizedEmail(" a@b.c") == "a@b.c"
  {
    var s := " a@b.c";
    assert s[1..] == "a@b.c";
    LeadingWhitespaceDropped(s, "a@b.c");
  }




  // ---------------------------------------------------------------- validation

  /** The errors `validateForm` records, given which checks fail. The error
      record is keyed by field name; here it is keyed by `Field`. */
  function ErrorsFor(nameBlank: bool, emailBlank: bool, emailPasses: bool, phoneBlank: bool): (errors: map<Field, string>)
    ensures Notes !in errors
    ensures Name in errors <==> nameBlank
    ensures Name in errors ==> errors[Name] == "Name is required"
    ensures Email in errors <==> emailBlank || !emailPasses
    ensures Email in errors && emailBlank ==> errors[Email] == "Email is required"
    ensures Email in errors && !emailBlank ==> errors[Email] == "Please enter a valid email"
    ensures Phone in errors <==> phoneBlank
    ensures Phone in errors ==> errors[Phone] == "Phone number is required"
  {
    var e1: map<Field, string> := if nameBlank then map[Name := "Name is required"] else map[];
    var e2 := if emailBlank then e1[Email := "Email is required"]
              else if !emailPasses then e1[Email := "Please enter a valid email"]
              else e1;
    if phoneBlank then e2[Phone := "Phone number is required"] else e2
  }

  /** The errors for the form's current values. */
  function FieldErrors(f: FormData): map<Field, string> {
    ErrorsFor(IsBlank(f.name), IsBlank(f.email), EmailTest(f.email), IsBlank(f.phone))
  }

  /** The body of `validateForm`: the error record built check by check. */
  method CollectErrors(nameBlank: bool, emailBlank: bool, emailPasses: bool, phoneBlank: bool)
    returns (newErrors: map<Field, string>)
    ensures newErrors == ErrorsFor(nameBlank, emailBlank, emailPasses, phoneBlank)
  {
    newErrors := map[];
    if nameBlank {
      newErrors := newErrors[Name := "Name is required"];
    }
    if emailBlank {
      newErrors := newErrors[Email := "Email is required"];
    } else if !emailPasses {
      newErrors := newErrors[Email := "Please enter a valid email"];
    }
    if phoneBlank {
      newErrors := newErrors[Phone := "Phone number is required"];
    }
  }

  /** The form is valid exactly when name, e-mail and phone are filled in and
      the e-mail passes the test; the notes never matter. */
  lemma ValidIffFilledIn(f: FormData, notes: string)
    ensures FieldErrors(f) == map[] <==> !IsBlank(f.name) && !IsBlank(f.email) && EmailTest(f.email) && !IsBlank(f.phone)
    ensures FieldErrors(f.(notes := notes)) == FieldErrors(f)
  {
    ErrorsEmpty(IsBlank(f.name), IsBlank(f.email), EmailTest(f.email), IsBlank(f.phone));
    NotesIgnored(f, f.(notes := notes));
  }

  lemma NotesIgnored(f: FormData, g: FormData)
    requires g.name == f.name && g.email == f.email && g.phone == f.phone
    ensures FieldErrors(g) == FieldErrors(f)
  {
  }

  /** No error is recorded exactly when no check fails. */
  lemma ErrorsEmpty(nameBlank: bool, emailBlank: bool, emailPasses: bool, phoneBlank: bool)
    ensures ErrorsFor(nameBlank, emailBlank, emailPasses, phoneBlank) == map[]
        <==> !nameBlank && !emailBlank && emailPasses && !phoneBlank
  {
    var e := ErrorsFor(nameBlank, emailBlank, emailPasses, phoneBlank);
    if nameBlank { assert Name in e; }
    if emailBlank || !emailPasses { assert Email in e; }
    if phoneBlank { assert Phone in e; }
  }

  /** `errors[field] ? {...prev, [field]: ""} : prev`: a shown error is
      blanked, nothing else changes. */
  function ClearError(errors: map<Field, string>, field: Field): (r: map<Field, string>)
    ensures r.Keys == errors.Keys
    ensures forall g :: g in r && g != field ==> r[g] == errors[g]
    ensures field in r ==> r[field] == ""
  {
    if field in errors && errors[field] != "" then errors[field := ""] else errors
  }

  /** An error is on screen when it is present and non-empty. */
  predicate Shows(errors: map<Field, string>, field: Field) {
    field in errors && errors[field] != ""
  }

  /** Editing a field hides its own error and leaves every other field's
      error as it was. */
  lemma ClearErrorHidesOnlyThatField(errors: map<Field, string>, field: Field, other: Field)
    requires other != field
    ensures !Shows(ClearError(errors, field), field)
    ensures Shows(ClearError(errors, field), other) <==> Shows(errors, other)
  {
  }

  /** The record a valid submit hands to the wizard. */
  function ToClientInfo(f: FormData): (c: BookingFlow.ClientInfo)
    ensures c.name == f.name && c.email == f.email && c.phone == f.phone && c.notes == Some(f.notes)
  {
    BookingFlow.ClientInfo(f.name, f.email, f.phone, Some(f.notes))
  }

  /** A valid submit opens the wizard's step-3 guard. */
  lemma SubmitOpensStepThree(data: BookingFlow.BookingData, f: FormData)
    ensures BookingFlow.CanGoNext(3, BookingFlow.Merge(data, BookingFlow.BookingData(None, None, None, Some(ToClientInfo(f)))))
  {
  }

  class Form {
    var formData: FormData
    var errors: map<Field, string>

    constructor (bookingData: BookingFlow.BookingData)
      ensures formData == InitialForm(bookingData.clientInfo) && errors == map[]
    {
      formData := InitialForm(bookingData.clientInfo);
      errors := map[];
    }

    /** `validateForm()`: record the errors, field by field, and report
        whether there were none. */
    method ValidateForm() returns (valid: bool)
      modifies this`errors
      ensures errors == FieldErrors(formData)
      ensures valid <==> errors == map[]
    {
      var newErrors := CollectErrors(IsBlank(formData.name), IsBlank(formData.email),
                                     EmailTest(formData.email), IsBlank(formData.phone));
      errors := newErrors;
      valid := |newErrors| == 0;
    }

    /** `handleSubmit`: the patch passed to `onNext`, when the form is
        valid. */
    method HandleSubmit() returns (patch: Option<BookingFlow.BookingData>)
      modifies this`errors
      ensures errors == FieldErrors(formData)
      ensures patch.Some? <==> errors == map[]
      ensures patch.Some? ==> patch.value == BookingFlow.BookingData(None, None, None, Some(ToClientInfo(formData)))
    {
      var valid := ValidateForm();
      if valid {
        patch := Some(BookingFlow.BookingData(None, None, None, Some(ToClientInfo(formData))));
      } else {
        patch := None;
      }
    }

    /** The e-mail input's `onChange`: the handler receives the browser's
        sanitised value. */
    method EmailChange(raw: string)
      modifies this
      ensures formData == old(formData).(email := SanitizedEmail(raw))
      ensures errors == ClearError(old(errors), Email)
    {
      HandleInputChange(Email, SanitizedEmail(raw));
    }

    /** Submitting the form: the browser's check of the e-mail input, then
        `handleSubmit`. A value the browser refuses never reaches the
        handler, and the errors stay as they were. */
    method Submit() returns (patch: Option<BookingFlow.BookingData>)
      modifies this`errors
      ensures !Submittable(formData) ==> patch.None? && errors == old(errors)
      ensures Submittable(formData) ==> errors == FieldErrors(formData)
      ensures patch.Some? <==> Submittable(formData) && FieldErrors(formData) == map[]
      ensures patch.Some? ==> patch.value == BookingFlow.BookingData(None, None, None, Some(ToClientInfo(formData)))
    {
      if !Submittable(formData) {
        return None;
      }
      patch := HandleSubmit();
    }

    /** `handleInputChange(field, value)`. */
    method HandleInputChange(field: Field, value: string)
      modifies this
      ensures formData == match field
        case Name => old(formData).(name := value)
        case Email => old(formData).(email := value)
        case Phone => old(formData).(phone := value)
        case Notes => old(formData).(notes := value)
      ensures errors == ClearError(old(errors), field)
    {
      match field {
        case Name => formData := formData.(name := value);
        case Email => formData := formData.(email := value);
        case Phone => formData := formData.(phone := value);
        case Notes => formData := formData.(notes := value);
      }
      if field in errors && errors[field] != "" {
        errors := errors[field := ""];
      }
    }
  }
}
