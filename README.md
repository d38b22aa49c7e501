# Waitinglist form core, modelled in Dafny

This project models the logic behind the waitinglist React form and its API
client. It covers three source files:

- `src/utils/validation.ts`: the email, phone and name validators, the form
  validator that combines them, and the default error messages.
- `src/utils/phoneMasks.ts`: the table of 47 countries with their dial codes
  and input masks, and three helpers built on it. One detects a country from
  a number's dial code, one checks a number's digit count against a mask, and
  one puts the dial code in front of a number.
- `src/api/waitinglist.ts`: the `WaitinglistApi` client. The model covers its
  defaults, the `api_key` it adds to every request, how it turns a failed
  request into a `WaitinglistError`, the retry loop with exponential
  back-off, and the requests of `signup`, `getProjectInfo`, `verifyEmail`
  and `unsubscribe`.

The files are:

- `text.dfy` (module `Text`): the JavaScript string behaviour the core relies
  on. This is the `\s` class and `trim`, the `\D` filter, counting one
  character, and `startsWith`.
- `types.dfy` (module `Types`): the records of `src/types/index.ts`.
- `validation.dfy` (module `Validation`).
- `phone_masks.dfy` (module `PhoneMasks`).
- `waitinglist.dfy` (module `Waitinglist`).

The model takes the form of each source file:

- Validators are functions. `validateForm` is a method that fills the error
  record step by step, as the source does.
- The search loop of `detectCountryFromPhone` is a method with a loop.
- The retry loop is a method with a loop. It is proved equal to `RetryFrom`, a
  recursive function shaped like `retryRequest` itself. The attempt count,
  the delays and the final outcome are proved about `RetryFrom`.
- The client is a class whose fields are set once, in its constructor.

The network is not modelled. A call receives one network result per attempt
it may make, and returns the delays it waited, in milliseconds.

The constructor does not check that the API key is non-empty
(src/api/waitinglist.ts:17-18); neither does the model.

## Model

| member | source | states |
|---|---|---|
| Text.DigitsOnly | src/utils/validation.ts:30 | `replace(/\D/g, "")` keeps only ASCII digits and never lengthens the string |
| Text.DigitsOnlyConcat | src/utils/validation.ts:30 | the digit filter of a concatenation is the concatenation of the filtered parts |
| Text.DigitsOnlyIdempotent | src/utils/validation.ts:30 | filtering the digits twice is filtering once |
| Text.DigitsOnlyKeepsDigits | src/utils/validation.ts:30 | every ASCII digit occurs in the filtered string exactly as often as in the input |
| Text.DigitsOnlyChar | src/utils/validation.ts:30 | a single character is kept if it is a digit and dropped otherwise; with `DigitsOnlyConcat` this fixes the filter on every string |
| Text.CountChar | src/utils/phoneMasks.ts:389 | the count of `9`s is at most the length, and is zero exactly when no `9` occurs |
| Text.TrimStart | src/utils/validation.ts:53 | the result is a suffix of the input, what was removed is all whitespace, and the result does not start with whitespace |
| Text.TrimEnd | src/utils/validation.ts:53 | the result is a prefix of the input, what was removed is all whitespace, and the result does not end with whitespace |
| Text.SkipWhitespace | src/utils/validation.ts:53 | the position it returns ends a run of whitespace from the start position, and holds no whitespace character |
| Text.Trim | src/utils/validation.ts:53 | `trim()` never lengthens a string, and a non-empty result starts and ends with a non-whitespace character |
| Text.TrimSlice | src/utils/validation.ts:53 | `trim()` keeps one contiguous slice of the input, and everything outside that slice is whitespace |
| Text.TrimIdempotent | src/utils/validation.ts:53 | trimming a trimmed string changes nothing |
| Text.TrimEmptyIffAllWhitespace | src/utils/validation.ts:53 | `trim()` gives `""` exactly for strings made only of whitespace |
| Validation.EmailPatternShape | src/utils/validation.ts:15 | the email regex accepts exactly the strings with no whitespace and exactly one `@`, with a non-empty part before it and a `.` after it that has characters on both sides |
| Validation.ValidateEmail | src/utils/validation.ts:10-21 | `REQUIRED` exactly for `""`; valid exactly for well-shaped emails; any other failure is `INVALID_EMAIL`; invalid exactly when an error code is present |
| Validation.ValidatePhone | src/utils/validation.ts:23-46 | the result is invalid exactly when it carries an error code |
| Validation.PhoneVerdict | src/utils/validation.ts:23-46 | `""` is valid; a non-empty phone is valid iff it has 10 to 15 digits; `INSUFFICIENT_DIGITS` iff non-empty with under 10 digits; `TOO_MANY_DIGITS` iff over 15; no other code occurs |
| Validation.PhoneIgnoresNonDigits | src/utils/validation.ts:28-30 | inserting a non-digit anywhere into a non-empty phone does not change the verdict |
| Validation.ValidateName | src/utils/validation.ts:48-62 | the result is invalid exactly when it carries an error code |
| Validation.NameVerdict | src/utils/validation.ts:48-62 | `""` is valid; a non-empty name is valid iff its trimmed length is 2 to 100; `TOO_SHORT` iff non-empty and the trimmed length is under 2; `TOO_LONG` iff over 100; no other code occurs |
| Validation.WhitespaceNameTooShort | src/utils/validation.ts:53-55 | a non-empty name of only whitespace is `TOO_SHORT` |
| Validation.NameIgnoresSurroundingWhitespace | src/utils/validation.ts:53-59 | surrounding whitespace never changes the verdict on a name that has other characters |
| Validation.FieldVerdict | src/utils/validation.ts:72-118 | each field's final verdict is invalid exactly when it carries an error code |
| Validation.FormErrors | src/utils/validation.ts:66-121 | the error record has an entry for a field exactly when that field's verdict is negative, and the entry is that verdict |
| Validation.ValidateForm | src/utils/validation.ts:66-121 | the record built step by step, including the final `REQUIRED` overwrite, is `FormErrors`; every entry is invalid and carries an error code |
| Types.ValidationFormErrors.Keys | src/utils/validation.ts:124 | `Object.keys(errors)` holds exactly the fields that have an entry |
| Validation.HasValidationErrors | src/utils/validation.ts:123-125 | true exactly when some field has an entry |
| Validation.MissingContactReported | src/utils/validation.ts:96-118 | a form with no email and no phone always fails. `phone` gets `REQUIRED` (and `email` no entry) iff `phone` is required and `email` is not; otherwise `email` gets `REQUIRED` |
| Validation.CheckedFields | src/utils/validation.ts:72-94 | an email that is not required gets no entry while a contact is present; a name or phone that is neither given nor required gets no entry |
| Validation.DefaultFieldsCheckEmail | src/utils/validation.ts:66-117 | with the default required list `["email"]` the email is always validated, a form with no contact gets `email: REQUIRED`, and an absent name or phone gets no entry |
| Validation.NoErrorsIffAllFieldsValid | src/utils/validation.ts:66-125 | a form has no errors exactly when every field's verdict is positive |
| Validation.DefaultErrorMessage | src/utils/validation.ts:128-145 | every message is non-empty, and the `REQUIRED`, `TOO_SHORT` and `TOO_LONG` messages start with the field name |
| Validation.DefaultMessagesDistinct | src/utils/validation.ts:132-142 | for any field name, two different codes never share a message |
| PhoneMasks.TableFacts | src/utils/phoneMasks.ts:9-346 | every entry is filed under its own code. Its dial code is `+` and one to three digits, not all `9`. Its mask opens with the dial code and a space, and every later digit of the mask is `9` |
| PhoneMasks.TablePrefixFree | src/utils/phoneMasks.ts:9-346 | no dial code of the table is a proper prefix of another |
| PhoneMasks.LookupIn | src/utils/phoneMasks.ts:375 | a lookup finds nothing exactly when the key is absent; otherwise it returns an entry filed under that key |
| PhoneMasks.CountryFor | src/utils/phoneMasks.ts:375 | there is no country exactly when the code is absent, empty, or not a key. Otherwise the country is an entry of the table filed under that key, its own code is the key, and it satisfies the table facts |
| PhoneMasks.Insert | src/utils/phoneMasks.ts:356-358 | inserting into a sequence sorted by (longer dial code first, then table order) keeps it sorted, and adds exactly the inserted element |
| PhoneMasks.SortByDialLength | src/utils/phoneMasks.ts:356-358 | the stable sort by descending dial-code length gives a sorted permutation of the table's positions |
| PhoneMasks.FirstMatchFrom | src/utils/phoneMasks.ts:360-364 | the reference search: the first table position whose dial code starts the number, with no earlier match; or none when no entry matches |
| PhoneMasks.MatchesAgree | src/utils/phoneMasks.ts:360-364 | in a prefix-free table, two dial codes that both start one number are the same code |
| PhoneMasks.SortedMatchIsFirstMatch | src/utils/phoneMasks.ts:356-364 | the first match in the sorted order is the first match in table order |
| PhoneMasks.NoSortedMatchNoMatch | src/utils/phoneMasks.ts:360-366 | if no sorted entry matches, no table entry does, and the answer is `DEFAULT_COUNTRY` |
| PhoneMasks.DetectCountryIn | src/utils/phoneMasks.ts:356-366 | the sort and the search loop return the code of the first table entry whose dial code starts the number, or `DEFAULT_COUNTRY` |
| PhoneMasks.DetectCountryFromPhone | src/utils/phoneMasks.ts:350-367 | `"US"` for a number not starting with `+`; otherwise the first table entry whose dial code starts it, or `"US"` |
| PhoneMasks.DetectedDialCodeStartsNumber | src/utils/phoneMasks.ts:350-367 | a number that starts with a table dial code is detected as a country with exactly that dial code |
| PhoneMasks.PlusOneIsUnitedStates | src/utils/phoneMasks.ts:11-24 | every `+1` number, Canadian ones included, is detected as `US` |
| PhoneMasks.ValidatePhoneNumber | src/utils/phoneMasks.ts:369-392 | as written: a number accepted is non-empty |
| PhoneMasks.UnknownCountryUsesGenericRule | src/utils/phoneMasks.ts:375-380 | without a known country, a non-empty number is accepted exactly when the form's phone validator accepts it (10 to 15 digits) |
| PhoneMasks.CountryRuleVerdict | src/utils/phoneMasks.ts:382-391 | for a table entry: as written, a number is accepted exactly when it starts with the dial code and its digits after the dial code plus the dial code's digits equal the mask's placeholders plus the dial code's `9`s; as intended, exactly when it starts with the dial code and its digits after it equal the placeholders |
| PhoneMasks.KnownCountryVerdict | src/utils/phoneMasks.ts:373-391 | with a known country, a non-empty number gets exactly the verdict of that country's rule |
| PhoneMasks.UnitedStatesVerdict | src/utils/phoneMasks.ts:382-391 | for `US`, a number starting with `+1` is accepted as written exactly when it has one digit fewer after `+1` than the mask has, and as intended exactly when it has as many |
| PhoneMasks.FitsMaskDigitCount | src/utils/phoneMasks.ts:387-389 | a number typed in a mask's shape has as many digits as the mask |
| PhoneMasks.MaskHasSpareDigit | src/utils/phoneMasks.ts:9-346 | a table mask has fewer `9`s than digits, because of its dial code, and after the dial code its digits are exactly its `9`s |
| PhoneMasks.MaskShapedNumberRejected | src/utils/phoneMasks.ts:382-391 | as written, every number typed in a country's mask is rejected for that country |
| PhoneMasks.UnitedStatesExampleRejected | src/utils/phoneMasks.ts:382-391 | as written, `+1 (555) 555-5555` is rejected for `US` |
| PhoneMasks.ValidatePhoneNumberIntended | src/utils/phoneMasks.ts:386-391 | corrected: a number accepted is non-empty |
| PhoneMasks.MaskShapedNumberAccepted | src/utils/phoneMasks.ts:386-391 | corrected: a number starting with the dial code is accepted iff its digits after the dial code match the mask's; every number typed in the mask is accepted |
| PhoneMasks.UnitedStatesExampleAccepted | src/utils/phoneMasks.ts:386-391 | corrected: `+1 (555) 555-5555` is accepted for `US` |
| PhoneMasks.FormatPhoneNumber | src/utils/phoneMasks.ts:394-409 | the result is `""` exactly when the input is `""` |
| PhoneMasks.FormatCases | src/utils/phoneMasks.ts:394-409 | the number is returned unchanged without a known country, when it already starts with the dial code, or when it has no digit; otherwise it becomes exactly the dial code, a space and its digits |
| PhoneMasks.DialCodePrefixed | src/utils/phoneMasks.ts:402-405 | the dial code, a space and a number's digits start with the dial code and carry the dial code's digits followed by the number's |
| PhoneMasks.FormatPrefixesDialCode | src/utils/phoneMasks.ts:398-408 | with a known country, a number with a digit comes out starting with the dial code. Its digits are kept, after the dial code's digits when the code was added. Formatting it again changes nothing |
| PhoneMasks.FormatIdempotent | src/utils/phoneMasks.ts:394-409 | formatting twice is formatting once |
| PhoneMasks.FormattedNumberDetectedByDialCode | src/utils/phoneMasks.ts:394-409 | a number formatted for a known country is detected as a country with that country's dial code |
| Waitinglist.NumberOr | src/api/waitinglist.ts:19 | `x \|\| d` for numbers: the value when present and non-zero, else the default |
| Waitinglist.StringOr | src/api/waitinglist.ts:22 | `x \|\| d` for strings: the value when present and non-empty, else the default |
| Waitinglist.WaitinglistApi.constructor | src/api/waitinglist.ts:17-27 | retries default to 3, the base URL to `https://api.waitinglist.dev` and the timeout to 10000, when absent or falsy |
| Waitinglist.WithApiKey | src/api/waitinglist.ts:30-36 | `api_key` is the client's key, whatever the caller set; every other parameter is kept unchanged, and none is added |
| Waitinglist.WithApiKeyLastWins | src/api/waitinglist.ts:30-36 | applying the interceptor again with another key gives what that key alone would |
| Waitinglist.WaitinglistApi.Sent | src/api/waitinglist.ts:30-36 | an outgoing request differs from the caller's only in its parameters, which carry the client's key |
| Waitinglist.NormalizeError | src/api/waitinglist.ts:39-75 | `success` is false. `error` is the body's `error` when that is a non-empty string, and `"Request failed"` otherwise. `message` is present iff the body has a non-empty string `message`, and then equals it. `status` is present iff a response arrived, and is its status. `details` is the body's `details` when the body is truthy, and absent otherwise |
| Waitinglist.NoResponseError | src/api/waitinglist.ts:41-74 | a failure without a response becomes exactly `{success: false, error: "Request failed"}` |
| Waitinglist.ClientErrorIffFourHundreds | src/api/waitinglist.ts:86-93 | a normalised failure counts as a client error exactly when a response arrived with a status in [400, 500) |
| Waitinglist.MaxAttempts | src/api/waitinglist.ts:95 | the attempt bound is exactly one, or `retries` when that is more: never below either, and always one of the two |
| Waitinglist.RetryFrom | src/api/waitinglist.ts:79-103 | the result is the outcome of the last attempt made, at most `max(1, retries)` attempts. Every earlier attempt failed with a retriable error. A thrown result is a client error or the last allowed attempt. There is one delay between each pair of attempts |
| Waitinglist.RetryStep | src/api/waitinglist.ts:95-99 | after a retriable failure before the last attempt, waiting `2^attempt` seconds and trying again leaves the call ending as it would have |
| Waitinglist.RetryDelaysDouble | src/api/waitinglist.ts:96-97 | the wait after attempt `k` is `2^k * 1000` ms |
| Waitinglist.RetriableFailuresExhaust | src/api/waitinglist.ts:95-101 | when every attempt fails retriably, the call makes all `max(1, retries)` attempts and throws the last error |
| Waitinglist.FirstOutcomeFinal | src/api/waitinglist.ts:83-101 | a first success, or a first client error, ends the call after one attempt with no wait |
| Waitinglist.DefaultRetriesSchedule | src/api/waitinglist.ts:95-99 | with 3 retries and only retriable failures: three attempts, waits of 2000 and 4000 ms, and the third error thrown |
| Waitinglist.Intercepted | src/api/waitinglist.ts:39-76 | the retry loop sees each network result through the response interceptor, attempt by attempt |
| Waitinglist.WaitinglistApi.RetryRequest | src/api/waitinglist.ts:79-103 | the loop ends as `RetryFrom` from attempt 1 says, and sends the same intercepted request on every attempt |
| Waitinglist.SignupBody | src/api/waitinglist.ts:106-116 | the body always has `email`. It has `name` and `phone` iff they are non-empty, `tags` iff it is a non-empty list, and `user_agent` and `referrer` iff in a browser; each present key carries the caller's value, `user_agent` the browser's agent, and `referrer` the browser's referrer or `undefined` when that is empty. It has no other key |
| Waitinglist.SignupReferrerWritten | src/api/waitinglist.ts:112-115 | the serialised body carries `referrer` iff the browser has a non-empty referrer, and always carries `email` |
| Waitinglist.WaitinglistApi.Signup | src/api/waitinglist.ts:105-125 | every attempt posts the same body, built once, to `/api/v1/signup`, and the call follows the retry policy |
| Waitinglist.WaitinglistApi.GetProjectInfo | src/api/waitinglist.ts:127-134 | every attempt is a GET of `/api/v1/project` under the retry policy |
| Waitinglist.WaitinglistApi.VerifyEmail | src/api/waitinglist.ts:136-144 | every attempt posts `{token}` to `/api/v1/verify` under the retry policy |
| Waitinglist.WaitinglistApi.Unsubscribe | src/api/waitinglist.ts:146-154 | every attempt posts `{token}` to `/api/v1/unsubscribe` under the retry policy |

## Left out

- Strings are sequences of Unicode code points. JavaScript's `length` counts UTF-16 code units, so a name with characters outside the Basic Multilingual Plane has a longer JavaScript length than its modelled length.
- The country table's flag emoji (`emoji`) are not modelled; no operation reads them.
- Keys of `COUNTRY_DATA` inherited from `Object.prototype` (such as `"toString"`) are treated as absent.
- Numbers are integers. `NaN`, fractional `retries` and floating-point `Math.pow` are not modelled, and `2^attempt * 1000` is exact.
- The axios instance, HTTP timeouts, the joining of base URL and path, and the real `setTimeout` waits are not modelled. A call receives a sequence of per-attempt network results, and returns its waits as a list.
- Waitinglist.WaitinglistApi.RetryRequest: requires at least `max(1, retries)` network results, one for every attempt it may make. This stands in for a network that always answers.
- Waitinglist.WaitinglistApi.RetryRequest: an exception thrown by the request function other than the interceptor's `WaitinglistError` is not modelled.
- Waitinglist.NormalizeError: `details` is copied from the body without checking that it is a list of `{field, message}`, as the source does; it is not constrained further.
- `navigator.userAgent` and `document.referrer` are inputs: a browser context, or none outside a browser.
- The standalone wrappers `createWaitinglistApi`, `signupToWaitinglist`, `getProjectInfo`, `verifyEmail` and `unsubscribe` (src/api/waitinglist.ts:158-202) are left out. Each only builds a client and delegates to it.
- The React components (src/components/) are not part of this model.
- PhoneMasks.SortByDialLength: models the result of the engine's stable `Array.prototype.sort`, which is the sorted permutation, not the engine's sorting algorithm.
- Validation.DefaultErrorMessage: the fallback `` `${field} is invalid` `` cannot be reached with a `ValidationErrorCode`, so it is not modelled.
- PhoneMasks.ValidatePhoneNumber, PhoneMasks.ValidatePhoneNumberIntended and PhoneMasks.FormatPhoneNumber: their own contracts state only that an accepted number is non-empty, and that the formatted number is empty exactly when the input is. Their verdicts and results are stated case by case in KnownCountryVerdict, CountryRuleVerdict, UnknownCountryUsesGenericRule and FormatCases.

## Findings

| source | as written | input that shows it | evidently intended | confidence | as-written member | corrected member |
|---|---|---|---|---|---|---|
| src/utils/phoneMasks.ts:386-391 | The check counts every digit of the number, dial code included, against only the `9` placeholders of the mask, which exclude the dial code. No dial code of the table is all `9`s, so a number typed exactly in a country's mask is rejected for every country of the table | `validatePhoneNumber("+1 (555) 555-5555", "US")` returns false | As the comment "Count digits (excluding dial code)" says: count only the digits after the dial code, so a number in the mask's shape is accepted | not executed | PhoneMasks.MaskShapedNumberRejected, PhoneMasks.UnitedStatesExampleRejected, PhoneMasks.UnitedStatesVerdict | PhoneMasks.MaskShapedNumberAccepted, PhoneMasks.UnitedStatesExampleAccepted, PhoneMasks.UnitedStatesVerdict |
