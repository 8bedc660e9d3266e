/**
 * src/utils/validation.ts: the newsletter form's schema. The raw address
 * must look like an e-mail address and hold 1 to 100 characters; only an
 * accepted address is lower-cased and then trimmed.
 */
module Validation {
  import opened JsString

  const MaxEmailLength := 100

  /** The schema's three checks, in the order they are declared. */
  datatype Issue = InvalidEmail | Required | TooLong

  function IssueMessage(i: Issue): string {
    match i
    case InvalidEmail => "Please enter a valid email address"
    case Required => "Email is required"
    case TooLong => "Email must be less than 100 characters"
  }

  /**
   * The checks a raw address fails, in declaration order; all three run on
   * the raw text. `isEmail` is the library's address pattern.
   */
  function Issues(raw: string, isEmail: string -> bool): (r: seq<Issue>)
    ensures InvalidEmail in r <==> !isEmail(raw)
    ensures Required in r <==> raw == ""
    ensures TooLong in r <==> |raw| > MaxEmailLength
    ensures forall i, j :: 0 <= i < j < |r| ==> r[i] != r[j]
  {
    (if !isEmail(raw) then [InvalidEmail] else [])
    + (if |raw| < 1 then [Required] else [])
    + (if |raw| > MaxEmailLength then [TooLong] else [])
  }

  /** The transform: lower-case, then trim. */
  function Normalize(raw: string): (r: string)
    ensures |r| <= |raw|
  {
    TrimProperties(ToLower(raw));
    Trim(ToLower(raw))
  }

  datatype Parsed = Accepted(email: string) | Rejected(issues: seq<Issue>)

  /** `newsletterSchema.safeParse({email: raw})` on the email field. */
  function ParseEmail(raw: string, isEmail: string -> bool): (r: Parsed)
    ensures r.Accepted? <==> isEmail(raw) && 1 <= |raw| <= MaxEmailLength
    ensures r.Accepted? ==> r.email == Normalize(raw) && |r.email| <= |raw| <= MaxEmailLength
    ensures r.Rejected? ==> r.issues != [] && r.issues == Issues(raw, isEmail)
  {
    var issues := Issues(raw, isEmail);
    if issues == [] then Accepted(Normalize(raw)) else Rejected(issues)
  }

  /** The message the form shows under the field: that of the first failed check. */
  function ShownError(raw: string, isEmail: string -> bool): (msg: string)
    ensures ParseEmail(raw, isEmail).Accepted? ==> msg == ""
    ensures !isEmail(raw) ==> msg == IssueMessage(InvalidEmail)
    ensures isEmail(raw) && raw == "" ==> msg == IssueMessage(Required)
    ensures isEmail(raw) && |raw| > MaxEmailLength ==> msg == IssueMessage(TooLong)
  {
    match ParseEmail(raw, isEmail)
    case Accepted(_) => ""
    case Rejected(issues) => IssueMessage(issues[0])
  }

  /** An accepted address has no upper-case letter and no surrounding white space. */
  lemma NormalizedShape(raw: string)
    ensures NoUpper(Normalize(raw)) && IsTrimmed(Normalize(raw))
  {
    TrimKeepsNoUpper(ToLower(raw));
    TrimProperties(ToLower(raw));
  }

  /** Applying the transform to its own output changes nothing. */
  lemma NormalizeIdempotent(raw: string)
    ensures Normalize(Normalize(raw)) == Normalize(raw)
  {
    var once := Normalize(raw);
    NormalizedShape(raw);
    ToLowerOfLower(once);
    TrimIdempotent(ToLower(raw));
  }

  /**
   * Because the length is checked on the raw text, an address whose white
   * space makes it too long is refused even though its trimmed form would fit.
   */
  lemma LengthCheckedBeforeTrim(raw: string, isEmail: string -> bool)
    requires |raw| > MaxEmailLength
    ensures ParseEmail(raw, isEmail).Rejected?
    ensures TooLong in ParseEmail(raw, isEmail).issues
  {
  }
}
