/**
 * Client-side validation of the signup form (src/utils/validation.ts): the
 * email shape check, the phone digit count, the name length, the form-level
 * combination under a list of required fields, and the default messages.
 */
module Validation {
  import opened Types
  import opened Text

  // ---------------------------------------------------------------------------
  // Email
  // ---------------------------------------------------------------------------

  /** A character of the class `[^\s@]`. */
  predicate EmailChar(c: char) {
    !IsWhitespace(c) && c != '@'
  }

  predicate AllEmailChars(s: string) {
    forall k :: 0 <= k < |s| ==> EmailChar(s[k])
  }

  /**
   * The language of the pattern `^[^\s@]+@[^\s@]+\.[^\s@]+$`: three non-empty
   * runs of `[^\s@]`, the first two separated by `@`, the last two by `.`.
   */
  predicate MatchesEmailPattern(s: string) {
    exists i, j :: 0 < i && i + 1 < j && j + 1 < |s| && s[i] == '@' && s[j] == '.' &&
      AllEmailChars(s[..i]) && AllEmailChars(s[i + 1..j]) && AllEmailChars(s[j + 1..])
  }

  /**
   * The same shape stated field by field: no whitespace, exactly one `@`, which
   * is not the first character, and a `.` after it that is neither the first
   * nor the last character of the part after the `@`.
   */
  predicate WellShapedEmail(s: string) {
    (forall k :: 0 <= k < |s| ==> !IsWhitespace(s[k])) &&
    CountChar(s, '@') == 1 &&
    exists a, d :: 0 < a && a + 1 < d < |s| - 1 && s[a] == '@' && s[d] == '.'
  }

  lemma NoAtInEmailChars(s: string)
    requires AllEmailChars(s)
    ensures CountChar(s, '@') == 0
  {
  }

  /** The five pieces a match of the pattern splits a string into. */
  lemma PiecesNoWhitespace(p: string, x: char, q: string, y: char, r: string)
    requires AllEmailChars(p) && AllEmailChars(q) && AllEmailChars(r)
    requires !IsWhitespace(x) && !IsWhitespace(y)
    ensures forall k :: 0 <= k < |p + [x] + q + [y] + r| ==> !IsWhitespace((p + [x] + q + [y] + r)[k])
  {
    var s := p + [x] + q + [y] + r;
    forall k | 0 <= k < |s|
      ensures !IsWhitespace(s[k])
    {
      var i, j := |p|, |p| + 1 + |q|;
      if k < i {
        assert s[k] == p[k];
      } else if i < k < j {
        assert s[k] == q[k - i - 1];
      } else if j < k {
        assert s[k] == r[k - j - 1];
      }
    }
  }

  lemma PiecesOneAt(p: string, q: string, r: string)
    requires AllEmailChars(p) && AllEmailChars(q) && AllEmailChars(r)
    ensures CountChar(p + ['@'] + q + ['.'] + r, '@') == 1
  {
    NoAtInEmailChars(p);
    NoAtInEmailChars(q);
    NoAtInEmailChars(r);
    CountCharConcat(p + ['@'] + q + ['.'], r, '@');
    CountCharConcat(p + ['@'] + q, ['.'], '@');
    CountCharConcat(p + ['@'], q, '@');
    CountCharConcat(p, ['@'], '@');
  }

  lemma PatternImpliesShape(s: string)
    requires MatchesEmailPattern(s)
    ensures WellShapedEmail(s)
  {
    var i, j :| 0 < i && i + 1 < j && j + 1 < |s| && s[i] == '@' && s[j] == '.' &&
      AllEmailChars(s[..i]) && AllEmailChars(s[i + 1..j]) && AllEmailChars(s[j + 1..]);
    ShapeFromPieces(s, i, j);
  }

  lemma ShapeFromPieces(s: string, i: nat, j: nat)
    requires 0 < i && i + 1 < j && j + 1 < |s| && s[i] == '@' && s[j] == '.'
    requires AllEmailChars(s[..i]) && AllEmailChars(s[i + 1..j]) && AllEmailChars(s[j + 1..])
    ensures WellShapedEmail(s)
  {
    var p, q, r := s[..i], s[i + 1..j], s[j + 1..];
    assert s == p + ['@'] + q + ['.'] + r;
    PiecesNoWhitespace(p, '@', q, '.', r);
    PiecesOneAt(p, q, r);
  }

  lemma ShapeImpliesPattern(s: string)
    requires WellShapedEmail(s)
    ensures MatchesEmailPattern(s)
  {
    var a, d :| 0 < a && a + 1 < d < |s| - 1 && s[a] == '@' && s[d] == '.';
    OnlyOccurrence(s, '@', a);
    var p, q, r := s[..a], s[a + 1..d], s[d + 1..];
    forall k | 0 <= k < |p| ensures EmailChar(p[k]) {
      assert p[k] == s[k];
    }
    forall k | 0 <= k < |q| ensures EmailChar(q[k]) {
      assert q[k] == s[a + 1 + k];
    }
    forall k | 0 <= k < |r| ensures EmailChar(r[k]) {
      assert r[k] == s[d + 1 + k];
    }
    assert AllEmailChars(p) && AllEmailChars(q) && AllEmailChars(r);
  }

  /** The pattern and the field-by-field shape accept the same strings. */
  lemma EmailPatternShape(s: string)
    ensures MatchesEmailPattern(s) <==> WellShapedEmail(s)
  {
    if MatchesEmailPattern(s) {
      PatternImpliesShape(s);
    }
    if WellShapedEmail(s) {
      ShapeImpliesPattern(s);
    }
  }

  /** `validateEmail`: `REQUIRED` for the empty string, else the pattern decides. */
  function ValidateEmail(email: string): (r: ValidationResult)
    ensures r.Consistent()
    ensures r.errorCode == Some(Required) <==> email == ""
    ensures r.isValid <==> WellShapedEmail(email)
    ensures !r.isValid && email != "" ==> r.errorCode == Some(InvalidEmail)
  {
    EmailPatternShape(email);
    if email == "" then Invalid(Required)
    else if !MatchesEmailPattern(email) then Invalid(InvalidEmail)
    else Valid
  }

  // ---------------------------------------------------------------------------
  // Phone
  // ---------------------------------------------------------------------------

  /** `validatePhone`: optional; otherwise between 10 and 15 ASCII digits. */
  function ValidatePhone(phone: string): (r: ValidationResult)
    ensures r.Consistent()
  {
    if phone == "" then Valid
    else
      var digits := DigitsOnly(phone);
      if |digits| < 10 then Invalid(InsufficientDigits)
      else if |digits| > 15 then Invalid(TooManyDigits)
      else Valid
  }

  /** How `validatePhone` classifies a phone by its digit count. */
  lemma PhoneVerdict(phone: string)
    ensures phone == "" ==> ValidatePhone(phone).isValid
    ensures phone != "" ==> (ValidatePhone(phone).isValid <==> 10 <= DigitCount(phone) <= 15)
    ensures ValidatePhone(phone).errorCode == Some(InsufficientDigits) <==> phone != "" && DigitCount(phone) < 10
    ensures ValidatePhone(phone).errorCode == Some(TooManyDigits) <==> DigitCount(phone) > 15
    ensures ValidatePhone(phone).errorCode in {None, Some(InsufficientDigits), Some(TooManyDigits)}
  {
  }

  /** Inserting a non-digit anywhere into a non-empty phone never changes its verdict. */
  lemma PhoneIgnoresNonDigits(a: string, b: string, c: char)
    requires !IsDigit(c) && a + b != ""
    ensures ValidatePhone(a + [c] + b) == ValidatePhone(a + b)
  {
    DigitsOnlyConcat(a + [c], b);
    DigitsOnlyConcat(a, [c]);
    DigitsOnlyConcat(a, b);
    assert DigitsOnly([c]) == [];
  }

  // ---------------------------------------------------------------------------
  // Name
  // ---------------------------------------------------------------------------

  /** `validateName`: optional; otherwise 2 to 100 characters once trimmed. */
  function ValidateName(name: string): (r: ValidationResult)
    ensures r.Consistent()
  {
    if name == "" then Valid
    else if |Trim(name)| < 2 then Invalid(TooShort)
    else if |Trim(name)| > 100 then Invalid(TooLong)
    else Valid
  }

  /** How `validateName` classifies a name by its trimmed length. */
  lemma NameVerdict(name: string)
    ensures name == "" ==> ValidateName(name).isValid
    ensures name != "" ==> (ValidateName(name).isValid <==> 2 <= |Trim(name)| <= 100)
    ensures ValidateName(name).errorCode == Some(TooShort) <==> name != "" && |Trim(name)| < 2
    ensures ValidateName(name).errorCode == Some(TooLong) <==> |Trim(name)| > 100
    ensures ValidateName(name).errorCode in {None, Some(TooShort), Some(TooLong)}
  {
  }

  /** A non-empty name made only of whitespace is too short. */
  lemma WhitespaceNameTooShort(name: string)
    requires name != "" && forall k :: 0 <= k < |name| ==> IsWhitespace(name[k])
    ensures ValidateName(name) == Invalid(TooShort)
  {
    TrimEmptyIffAllWhitespace(name);
  }

  /** Leading and trailing whitespace never change the verdict on a name that has other characters. */
  lemma NameIgnoresSurroundingWhitespace(name: string)
    requires Trim(name) != ""
    ensures ValidateName(name) == ValidateName(Trim(name))
  {
    TrimIdempotent(name);
  }

  // ---------------------------------------------------------------------------
  // Form
  // ---------------------------------------------------------------------------

  /** The default list of required fields. */
  const DefaultRequiredFields: seq<string> := ["email"]

  /** Neither an email nor a phone was given. */
  predicate NoContact(data: FormData) {
    data.email == "" && OrEmpty(data.phone) == ""
  }

  /** Where the `REQUIRED` entry for a missing contact goes: `phone` only if it alone is required. */
  predicate ContactRequiredOnPhone(requiredFields: seq<string>) {
    "phone" in requiredFields && "email" !in requiredFields
  }

  /** The final verdict on one field of the form, stated field by field. */
  function FieldVerdict(data: FormData, requiredFields: seq<string>, f: Field): (r: ValidationResult)
    ensures r.Consistent()
  {
    match f
    case Email =>
      if NoContact(data) && !ContactRequiredOnPhone(requiredFields) then Invalid(Required)
      else if "email" in requiredFields then ValidateEmail(data.email)
      else Valid
    case Name =>
      if OrEmpty(data.name) != "" || "name" in requiredFields then ValidateName(OrEmpty(data.name))
      else Valid
    case Phone =>
      if NoContact(data) && ContactRequiredOnPhone(requiredFields) then Invalid(Required)
      else if OrEmpty(data.phone) != "" || "phone" in requiredFields then ValidatePhone(OrEmpty(data.phone))
      else Valid
  }

  /** The entry a verdict leaves in the error record: none for a positive one. */
  function Entry(r: ValidationResult): Option<ValidationResult> {
    if r.isValid then None else Some(r)
  }

  /** The error record of a form: one entry per field whose verdict is negative. */
  function FormErrors(data: FormData, requiredFields: seq<string>): (errors: ValidationFormErrors)
    ensures forall f :: errors.Get(f) == Entry(FieldVerdict(data, requiredFields, f))
  {
    ValidationFormErrors(
      email := Entry(FieldVerdict(data, requiredFields, Email)),
      phone := Entry(FieldVerdict(data, requiredFields, Phone)),
      name := Entry(FieldVerdict(data, requiredFields, Name)))
  }

  /**
   * `validateForm`: checks each field in turn, recording failures, and then
   * overwrites one entry with `REQUIRED` when neither email nor phone is given.
   */
  method ValidateForm(data: FormData, requiredFields: seq<string>) returns (errors: ValidationFormErrors)
    ensures errors == FormErrors(data, requiredFields)
    ensures forall f :: errors.Get(f).Some? ==> !errors.Get(f).value.isValid && errors.Get(f).value.Consistent()
  {
    errors := NoErrors;

    if "email" in requiredFields {
      var emailResult := ValidateEmail(data.email);
      if !emailResult.isValid {
        errors := errors.(email := Some(emailResult));
      }
    }

    if OrEmpty(data.name) != "" || "name" in requiredFields {
      var nameResult := ValidateName(OrEmpty(data.name));
      if !nameResult.isValid {
        errors := errors.(name := Some(nameResult));
      }
    }

    if OrEmpty(data.phone) != "" || "phone" in requiredFields {
      var phoneResult := ValidatePhone(OrEmpty(data.phone));
      if !phoneResult.isValid {
        errors := errors.(phone := Some(phoneResult));
      }
    }

    assert errors.email == (if "email" in requiredFields then Entry(ValidateEmail(data.email)) else None);
    assert errors.name == (if OrEmpty(data.name) != "" || "name" in requiredFields
                           then Entry(ValidateName(OrEmpty(data.name))) else None);
    assert errors.phone == (if OrEmpty(data.phone) != "" || "phone" in requiredFields
                            then Entry(ValidatePhone(OrEmpty(data.phone))) else None);

    var hasEmail := "email" in requiredFields && data.email != "";
    var hasPhone := "phone" in requiredFields && OrEmpty(data.phone) != "";
    var hasAnyRequiredField := hasEmail || hasPhone || data.email != "" || OrEmpty(data.phone) != "";

    if !hasAnyRequiredField {
      if "email" in requiredFields {
        errors := errors.(email := Some(Invalid(Required)));
      } else if "phone" in requiredFields {
        errors := errors.(phone := Some(Invalid(Required)));
      } else {
        errors := errors.(email := Some(Invalid(Required)));
      }
    }
  }

  /** `hasValidationErrors`: whether the record has at least one key. */
  function HasValidationErrors(errors: ValidationFormErrors): (b: bool)
    ensures b <==> exists f :: errors.Get(f).Some?
  {
    assert errors.Get(Email).Some? || errors.Get(Name).Some? || errors.Get(Phone).Some? ==> |errors.Keys()| > 0;
    |errors.Keys()| > 0
  }

  /** A form with neither email nor phone always fails, with `REQUIRED` on the field the rule picks. */
  lemma MissingContactReported(data: FormData, requiredFields: seq<string>)
    requires NoContact(data)
    ensures HasValidationErrors(FormErrors(data, requiredFields))
    ensures ContactRequiredOnPhone(requiredFields) ==>
              FormErrors(data, requiredFields).email == None &&
              FormErrors(data, requiredFields).phone == Some(Invalid(Required))
    ensures !ContactRequiredOnPhone(requiredFields) ==>
              FormErrors(data, requiredFields).email == Some(Invalid(Required))
  {
    var errors := FormErrors(data, requiredFields);
    if ContactRequiredOnPhone(requiredFields) {
      assert errors.Get(Phone).Some?;
    } else {
      assert errors.Get(Email).Some?;
    }
  }

  /**
   * Which fields are checked: email only when required (a malformed email
   * that is not required is never reported while a contact is present); name
   * and phone only when given or required.
   */
  lemma CheckedFields(data: FormData, requiredFields: seq<string>)
    ensures "email" !in requiredFields && !NoContact(data) ==> FormErrors(data, requiredFields).email == None
    ensures OrEmpty(data.name) == "" && "name" !in requiredFields ==> FormErrors(data, requiredFields).name == None
    ensures OrEmpty(data.phone) == "" && "phone" !in requiredFields ==> FormErrors(data, requiredFields).phone == None
  {
  }

  /**
   * Under the default required list, the email is always validated, a
   * missing contact is reported on `email`, and an absent name or phone is
   * never reported.
   */
  lemma DefaultFieldsCheckEmail(data: FormData)
    ensures FormErrors(data, DefaultRequiredFields).email == Entry(ValidateEmail(data.email))
    ensures NoContact(data) ==> FormErrors(data, DefaultRequiredFields).email == Some(Invalid(Required))
    ensures OrEmpty(data.name) == "" ==> FormErrors(data, DefaultRequiredFields).name == None
    ensures OrEmpty(data.phone) == "" ==> FormErrors(data, DefaultRequiredFields).phone == None
  {
    assert "email" in DefaultRequiredFields;
    assert "name" !in DefaultRequiredFields && "phone" !in DefaultRequiredFields;
  }

  /** A form passes exactly when every field's verdict is positive. */
  lemma NoErrorsIffAllFieldsValid(data: FormData, requiredFields: seq<string>)
    ensures !HasValidationErrors(FormErrors(data, requiredFields)) <==>
              forall f :: FieldVerdict(data, requiredFields, f).isValid
  {
    var errors := FormErrors(data, requiredFields);
    if !forall f :: FieldVerdict(data, requiredFields, f).isValid {
      var f :| !FieldVerdict(data, requiredFields, f).isValid;
      assert errors.Get(f).Some?;
    }
  }

  // ---------------------------------------------------------------------------
  // Messages
  // ---------------------------------------------------------------------------

  /** `getDefaultErrorMessage`: the text shown for an error code on a field. */
  function DefaultErrorMessage(code: ErrorCode, field: string): (msg: string)
    ensures msg != ""
    ensures code in {Required, TooShort, TooLong} ==> StartsWith(msg, field)
  {
    match code
    case Required => field + " is required"
    case InvalidEmail => "Please enter a valid email address"
    case InvalidPhone => "Please enter a valid phone number"
    case TooShort => field + " is too short"
    case TooLong => field + " is too long"
    case InsufficientDigits => "Phone number must have at least 10 digits"
    case TooManyDigits => "Phone number must have at most 15 digits"
  }

  /** Whatever the field is called, two different codes never share a message. */
  lemma DefaultMessagesDistinct(c1: ErrorCode, c2: ErrorCode, field: string)
    requires c1 != c2
    ensures DefaultErrorMessage(c1, field) != DefaultErrorMessage(c2, field)
  {
    var m1, m2 := DefaultErrorMessage(c1, field), DefaultErrorMessage(c2, field);
    if c1 in {Required, TooShort, TooLong} || c2 in {Required, TooShort, TooLong} {
      // the last characters already differ
      assert m1[|m1| - 1] != m2[|m2| - 1];
    }
  }
}
