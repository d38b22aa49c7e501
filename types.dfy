/**
 * The records the core passes around: the form data, the validation result
 * and its error codes, the per-field error record, the JSON values a server
 * may send back, and the one error shape the API client throws.
 */
module Types {

  datatype Option<+T> = None | Some(value: T)

  /** A JavaScript value that is absent (`undefined`) or a JSON value. */
  datatype Json =
    | Undefined
    | Null
    | Bool(b: bool)
    | Num(n: int)
    | Str(s: string)
    | Arr(items: seq<Json>)
    | Obj(fields: map<string, Json>)
  {
    /** JavaScript truthiness (`if (v)`), for the values modelled here. */
    predicate Truthy() {
      match this
      case Undefined => false
      case Null => false
      case Bool(b) => b
      case Num(n) => n != 0
      case Str(s) => s != ""
      case Arr(_) => true
      case Obj(_) => true
    }

    /** `v.key`: a property read; anything but an object has none of the keys read here. */
    function Get(key: string): Json {
      match this
      case Obj(m) => if key in m then m[key] else Undefined
      case _ => Undefined
    }
  }

  /** `WaitinglistFormData`: the email, and the optional name, phone and tags. */
  datatype FormData = FormData(
    email: string,
    name: Option<string>,
    phone: Option<string>,
    tags: Option<seq<string>>)

  /** `s || ""` for an optional string. */
  function OrEmpty(s: Option<string>): string {
    if s.Some? then s.value else ""
  }

  /** `ValidationErrorCode` */
  datatype ErrorCode =
    | Required
    | InvalidEmail
    | InvalidPhone
    | TooShort
    | TooLong
    | InsufficientDigits
    | TooManyDigits

  /** `ValidationResult`: a verdict and, when it is negative, why. */
  datatype ValidationResult = ValidationResult(isValid: bool, errorCode: Option<ErrorCode>) {
    /** The shape every validator produces: invalid exactly when an error code is present. */
    predicate Consistent() {
      isValid <==> errorCode.None?
    }
  }

  const Valid: ValidationResult := ValidationResult(true, None)

  function Invalid(code: ErrorCode): ValidationResult {
    ValidationResult(false, Some(code))
  }

  /** The three keys `ValidationFormErrors` may hold. */
  datatype Field = Email | Name | Phone

  /** `ValidationFormErrors`: a record with an optional entry per field. */
  datatype ValidationFormErrors = ValidationFormErrors(
    email: Option<ValidationResult>,
    phone: Option<ValidationResult>,
    name: Option<ValidationResult>)
  {
    /** `errors[f]` */
    function Get(f: Field): Option<ValidationResult> {
      match f
      case Email => email
      case Name => name
      case Phone => phone
    }

    /** `Object.keys(errors)`, as a set. */
    function Keys(): (keys: set<Field>)
      ensures forall f :: f in keys <==> Get(f).Some?
    {
      (if email.Some? then {Email} else {}) +
      (if name.Some? then {Name} else {}) +
      (if phone.Some? then {Phone} else {})
    }
  }

  /** `{}`: the record with no entry. */
  const NoErrors: ValidationFormErrors := ValidationFormErrors(None, None, None)

  /** `WaitinglistError`: the one error shape the API client throws. */
  datatype WaitinglistError = WaitinglistError(
    success: bool,
    error: string,
    message: Option<string>,
    status: Option<int>,
    details: Json)
}
