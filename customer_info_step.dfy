/** The customer details form of components/customer-info-step.tsx: the email
    and phone validators and the submit handler, which trims the four inputs,
    collects one error per invalid field, focuses the first invalid field and
    otherwise hands the trimmed details on. */
module CustomerInfoStep {
  import opened JsValues

  datatype Field = NameField | EmailField | PhoneField

  /** `CustomerInfo`; the notes are the trimmed textarea, possibly empty */
  datatype CustomerInfo = CustomerInfo(
    customerName: string, customerEmail: string, customerPhone: string, notes: string)

  const NameError := "Masukkan nama lengkap"
  const EmailError := "Masukkan alamat email yang valid"
  const PhoneError := "Masukkan nomor telepon yang valid (minimal 10 digit)"

  function ErrorText(f: Field): string {
    match f
    case NameField => NameError
    case EmailField => EmailError
    case PhoneField => PhoneError
  }

  // ---------------------------------------------------------------------
  // Email
  // ---------------------------------------------------------------------

  /** `[^\s@]` */
  predicate PlainChar(c: char) {
    !IsWhitespace(c) && c != '@'
  }

  predicate AllPlain(s: string) {
    forall k | 0 <= k < |s| :: PlainChar(s[k])
  }

  /** What follows the `@`: plain characters with a `.` that is neither the
      first nor the last of them */
  predicate ValidDomain(d: string) {
    AllPlain(d) && exists j | 1 <= j < |d| - 1 :: d[j] == '.'
  }

  /** `/^[^\s@]+@[^\s@]+\.[^\s@]+$/.test(email)`, read character by character:
      a non-empty plain local part, an `@`, and a valid domain */
  predicate ValidEmail(email: string) {
    exists i | 1 <= i < |email| ::
      email[i] == '@' && AllPlain(email[..i]) && ValidDomain(email[i + 1..])
  }

  /** The regular expression's own reading of a match: three non-empty runs of
      plain characters joined by `@` and `.` */
  ghost predicate EmailParts(email: string, a: string, b: string, c: string) {
    && a != [] && b != [] && c != []
    && AllPlain(a) && AllPlain(b) && AllPlain(c)
    && email == a + "@" + b + "." + c
  }

  lemma AllPlainConcat(x: string, y: string)
    ensures AllPlain(x + y) <==> AllPlain(x) && AllPlain(y)
  {
    if AllPlain(x + y) {
      forall k | 0 <= k < |x| ensures PlainChar(x[k]) { assert (x + y)[k] == x[k]; }
      forall k | 0 <= k < |y| ensures PlainChar(y[k]) { assert (x + y)[|x| + k] == y[k]; }
    }
    if AllPlain(x) && AllPlain(y) {
      forall k | 0 <= k < |x + y| ensures PlainChar((x + y)[k]) {
        if k < |x| { assert (x + y)[k] == x[k]; } else { assert (x + y)[k] == y[k - |x|]; }
      }
    }
  }

  lemma RegroupParts(a: string, b: string, c: string)
    ensures a + "@" + (b + "." + c) == a + "@" + b + "." + c
  {
  }

  lemma AllPlainSlice(s: string, lo: nat, hi: nat)
    requires lo <= hi <= |s| && AllPlain(s)
    ensures AllPlain(s[lo..hi])
  {
    forall k | 0 <= k < hi - lo ensures PlainChar(s[lo..hi][k]) {
      assert s[lo..hi][k] == s[lo + k];
    }
  }

  lemma SplitAround(s: string, i: nat, sep: char)
    requires i < |s| && s[i] == sep
    ensures s == s[..i] + [sep] + s[i + 1..]
  {
  }

  /** A valid domain splits at one of its inner dots into two plain runs. */
  lemma DomainParts(d: string) returns (b: string, c: string)
    requires ValidDomain(d)
    ensures b != [] && c != [] && AllPlain(b) && AllPlain(c) && d == b + "." + c
  {
    var j :| 1 <= j < |d| - 1 && d[j] == '.';
    b, c := d[..j], d[j + 1..];
    SplitAround(d, j, '.');
    AllPlainSlice(d, 0, j);
    AllPlainSlice(d, j + 1, |d|);
  }

  lemma PartsOfValidEmail(email: string) returns (a: string, b: string, c: string)
    requires ValidEmail(email)
    ensures EmailParts(email, a, b, c)
  {
    var i :| 1 <= i < |email| && email[i] == '@' && AllPlain(email[..i])
             && ValidDomain(email[i + 1..]);
    a := email[..i];
    b, c := DomainParts(email[i + 1..]);
    SplitAround(email, i, '@');
    RegroupParts(a, b, c);
  }

  lemma ValidEmailOfParts(email: string, a: string, b: string, c: string)
    requires EmailParts(email, a, b, c)
    ensures ValidEmail(email)
  {
    var i := |a|;
    var d := b + "." + c;
    RegroupParts(a, b, c);
    assert email == a + "@" + d;
    assert email[i] == '@';
    assert email[..i] == a;
    assert email[i + 1..] == d;
    assert d[|b|] == '.';
    AllPlainConcat(b, ".");
    AllPlainConcat(b + ".", c);
    assert ValidDomain(d);
  }

  lemma ValidEmailIffParts(email: string)
    ensures ValidEmail(email) <==> exists a, b, c :: EmailParts(email, a, b, c)
  {
    if ValidEmail(email) {
      var a, b, c := PartsOfValidEmail(email);
    }
    if exists a, b, c :: EmailParts(email, a, b, c) {
      var a, b, c :| EmailParts(email, a, b, c);
      ValidEmailOfParts(email, a, b, c);
    }
  }

  /** A valid email holds no whitespace and exactly one `@`. */
  lemma ValidEmailHasOneAt(email: string, i: nat, k: nat)
    requires ValidEmail(email)
    requires i < |email| && k < |email| && email[i] == '@' && email[k] == '@'
    ensures i == k && forall m | 0 <= m < |email| :: !IsWhitespace(email[m])
  {
    var p :| 1 <= p < |email| && email[p] == '@' && AllPlain(email[..p])
             && ValidDomain(email[p + 1..]);
    forall m | 0 <= m < |email| ensures m != p ==> PlainChar(email[m]) {
      if m < p { assert email[..p][m] == email[m]; }
      else if m > p { assert email[p + 1..][m - p - 1] == email[m]; }
    }
  }

  // ---------------------------------------------------------------------
  // Phone
  // ---------------------------------------------------------------------

  /** `phone.replace(/\D/g, "")` */
  function StripNonDigits(p: string): (d: string)
    ensures AllDigits(d) && |d| <= |p|
  {
    if p == [] then []
    else StripNonDigits(p[..|p| - 1]) + (if IsDigit(p[|p| - 1]) then [p[|p| - 1]] else [])
  }

  /** `/^\d{10,}$/.test(phone.replace(/\D/g, ""))` */
  predicate ValidPhone(phone: string) {
    var d := StripNonDigits(phone);
    |d| >= 10 && AllDigits(d)
  }

  /** The positions of `p` that hold a digit */
  ghost function DigitPositions(p: string): set<nat> {
    set k: nat | k < |p| && IsDigit(p[k])
  }

  /** Stripping keeps one character per digit of the input. */
  lemma {:induction false} StripKeepsEveryDigit(p: string)
    ensures |StripNonDigits(p)| == |DigitPositions(p)|
  {
    if p != [] {
      var q := p[..|p| - 1];
      StripKeepsEveryDigit(q);
      var extra: set<nat> := if IsDigit(p[|p| - 1]) then {|q|} else {};
      assert DigitPositions(p) == DigitPositions(q) + extra by {
        forall k: nat ensures k in DigitPositions(p) <==> k in DigitPositions(q) + extra {
          if k < |q| { assert p[k] == q[k]; }
        }
      }
      assert DigitPositions(q) !! extra;
    }
  }

  /** A phone number is valid exactly when it contains at least ten digits,
      wherever they stand among other characters. */
  lemma ValidPhoneIffTenDigits(phone: string)
    ensures ValidPhone(phone) <==> |DigitPositions(phone)| >= 10
  {
    StripKeepsEveryDigit(phone);
  }

  // ---------------------------------------------------------------------
  // Submit
  // ---------------------------------------------------------------------

  /** The error map for the given invalid fields, built in the order name,
      email, phone */
  function ErrorsFor(nameBad: bool, emailBad: bool, phoneBad: bool): (m: map<Field, string>)
    ensures NameField in m <==> nameBad
    ensures EmailField in m <==> emailBad
    ensures PhoneField in m <==> phoneBad
    ensures forall f | f in m :: m[f] == ErrorText(f)
  {
    var m0: map<Field, string> := map[];
    var m1 := if nameBad then m0[NameField := ErrorText(NameField)] else m0;
    var m2 := if emailBad then m1[EmailField := ErrorText(EmailField)] else m1;
    if phoneBad then m2[PhoneField := ErrorText(PhoneField)] else m2
  }

  /** `newErrors` for the trimmed inputs: one entry per invalid field, with its
      fixed message */
  function SubmitErrors(name: string, email: string, phone: string): (m: map<Field, string>)
    ensures NameField in m <==> name == ""
    ensures EmailField in m <==> (email == "" || !ValidEmail(email))
    ensures PhoneField in m <==> (phone == "" || !ValidPhone(phone))
    ensures forall f | f in m :: m[f] == ErrorText(f)
  {
    ErrorsFor(name == "", email == "" || !ValidEmail(email), phone == "" || !ValidPhone(phone))
  }

  /** The field focused when errors exist: the first in the order name,
      email, phone */
  function FirstInvalid(errors: map<Field, string>): (f: Field)
    requires errors != map[]
    ensures f in errors
    ensures f != NameField ==> NameField !in errors
    ensures f == PhoneField ==> EmailField !in errors
  {
    if NameField in errors then NameField
    else if EmailField in errors then EmailField
    else
      var g :| g in errors;
      assert g == PhoneField;
      PhoneField
  }

  /** The details are handed on exactly when the trimmed name is non-empty,
      the trimmed email valid and the trimmed phone valid. */
  lemma NoErrorsIffAllValid(name: string, email: string, phone: string)
    ensures SubmitErrors(name, email, phone) == map[]
            <==> name != "" && ValidEmail(email) && ValidPhone(phone)
  {
    var m := SubmitErrors(name, email, phone);
    if name != "" && ValidEmail(email) && ValidPhone(phone) {
      assert phone != "";
      forall f ensures f !in m { }
    } else {
      if name == "" { assert NameField in m; }
      else if email == "" || !ValidEmail(email) { assert EmailField in m; }
      else { assert PhoneField in m; }
    }
  }

  /** The error entries `handleSubmit` adds one check at a time */
  method CollectErrors(nameMissing: bool, emailInvalid: bool, phoneInvalid: bool)
    returns (newErrors: map<Field, string>)
    ensures newErrors == ErrorsFor(nameMissing, emailInvalid, phoneInvalid)
  {
    newErrors := map[];
    if nameMissing {
      newErrors := newErrors[NameField := ErrorText(NameField)];
    }
    if emailInvalid {
      newErrors := newErrors[EmailField := ErrorText(EmailField)];
    }
    if phoneInvalid {
      newErrors := newErrors[PhoneField := ErrorText(PhoneField)];
    }
  }

  /** The form's state: the errors shown and the field last asked to take focus */
  class CustomerInfoForm {
    var errors: map<Field, string>
    var focused: Option<Field>

    constructor()
      ensures errors == map[] && focused == None
    {
      errors := map[];
      focused := None;
    }

    /** `handleSubmit` with the four inputs' current values */
    method HandleSubmit(nameInput: string, emailInput: string, phoneInput: string, notesInput: string)
      returns (submitted: Option<CustomerInfo>)
      modifies this
      ensures errors == SubmitErrors(Trim(nameInput), Trim(emailInput), Trim(phoneInput))
      ensures errors == map[] ==>
                focused == old(focused)
                && submitted == Some(CustomerInfo(Trim(nameInput), Trim(emailInput),
                                                  Trim(phoneInput), Trim(notesInput)))
      ensures errors != map[] ==> focused == Some(FirstInvalid(errors)) && submitted == None
    {
      var name := Trim(nameInput);
      var email := Trim(emailInput);
      var phone := Trim(phoneInput);
      var notes := Trim(notesInput);

      var nameMissing := name == "";
      var emailInvalid := email == "" || !ValidEmail(email);
      var phoneInvalid := phone == "" || !ValidPhone(phone);
      var newErrors := CollectErrors(nameMissing, emailInvalid, phoneInvalid);
      errors := newErrors;

      if |newErrors| > 0 {
        if NameField in newErrors {
          focused := Some(NameField);
        } else if EmailField in newErrors {
          focused := Some(EmailField);
        } else if PhoneField in newErrors {
          focused := Some(PhoneField);
        }
        return None;
      }

      submitted := Some(CustomerInfo(name, email, phone, notes));
    }
  }
}
