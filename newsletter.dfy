/**
 * src/app/components/Newsletter.tsx: the subscribe form. Its submit handler
 * maps the reply's status to the confirmation modal, an error under the
 * e-mail field or an error for the whole form.
 */
module Newsletter {
  import opened Common
  import opened Web
  import Validation
  import UseNewsletter

  const AlreadySubscribed := "This email is already subscribed to our newsletter"
  const InvalidAddress := "Invalid email address"
  const SubscriptionFailed := "Subscription failed. Please try again."
  const ConnectionFailed := "Failed to connect to the server. Please try again later."

  /** Where a submission leaves the form. */
  datatype Outcome = Subscribed | FieldError(message: string) | RootError(message: string)

  /** `responseData.message || fallback`. */
  function MessageOr(body: UseNewsletter.SubscribeBody, fallback: string): (msg: string)
    ensures body.message != "" ==> msg == body.message
    ensures body.message == "" ==> msg == fallback
  {
    if body.message != "" then body.message else fallback
  }

  /** The outcome of `onSubmit` for a reply. */
  function SubmitOutcome(reply: FetchReply<UseNewsletter.SubscribeBody>): (o: Outcome)
    ensures o.Subscribed? <==> reply.Response? && reply.json.Some? && IsOkStatus(reply.status)
    ensures reply.Response? && reply.json.Some? && reply.status == 409 ==> o == FieldError(AlreadySubscribed)
    ensures reply.Response? && reply.json.Some? && reply.status == 400 ==>
      o == FieldError(MessageOr(reply.json.value, InvalidAddress))
    ensures reply.Response? && reply.json.Some? && !IsOkStatus(reply.status) && reply.status != 400 && reply.status != 409 ==>
      o == RootError(MessageOr(reply.json.value, SubscriptionFailed))
    ensures reply.Unreachable? || reply.json.None? ==> o == RootError(ConnectionFailed)
  {
    match reply
    case Response(status, json) =>
      if json.None? then RootError(ConnectionFailed)
      else if IsOkStatus(status) then Subscribed
      else if status == 409 then FieldError(AlreadySubscribed)
      else if status == 400 then FieldError(MessageOr(json.value, InvalidAddress))
      else RootError(MessageOr(json.value, SubscriptionFailed))
    case Unreachable => RootError(ConnectionFailed)
  }

  /**
   * The form and the hook agree on which replies subscribe, and every other
   * reply leaves an error in both.
   */
  lemma AgreesWithHook(reply: FetchReply<UseNewsletter.SubscribeBody>)
    ensures SubmitOutcome(reply).Subscribed? <==> UseNewsletter.SubmitNewsletter(reply).success
    ensures reply.Unreachable? ==>
      SubmitOutcome(reply).RootError? && UseNewsletter.SubmitNewsletter(reply).status.None?
  {
  }

  /** `disabled={isSubmitting || !isValid}`, with validity that of the schema on the typed address. */
  predicate SubmitDisabled(isSubmitting: bool, typed: string, isEmail: string -> bool) {
    isSubmitting || Validation.ParseEmail(typed, isEmail).Rejected?
  }

  /** The button is enabled only for an address of 1 to 100 characters that the pattern accepts. */
  lemma EnabledMeansValid(isSubmitting: bool, typed: string, isEmail: string -> bool)
    requires !SubmitDisabled(isSubmitting, typed, isEmail)
    ensures !isSubmitting && isEmail(typed) && 1 <= |typed| <= Validation.MaxEmailLength
  {
  }

  /** The `Newsletter` component's state and the form's value and errors. */
  class NewsletterForm {
    var isModalOpen: bool
    var subscribedEmail: string
    /** The typed address. */
    var email: string
    var emailError: Option<string>
    var rootError: Option<string>

    constructor ()
      ensures !isModalOpen && subscribedEmail == "" && email == "" && emailError == None && rootError == None
    {
      isModalOpen := false;
      subscribedEmail := "";
      email := "";
      emailError := None;
      rootError := None;
    }

    /**
     * `form.handleSubmit(onSubmit)` with the schema's output `address`.
     * react-hook-form first replaces the errors by the resolver's (none, since
     * `onSubmit` only runs on valid input) and drops the root error; then
     * `onSubmit` on success remembers the address, opens the modal and resets
     * the form, and otherwise sets the field or root error and leaves the
     * modal alone.
     */
    method OnSubmit(address: string, reply: FetchReply<UseNewsletter.SubscribeBody>)
      modifies this
      ensures SubmitOutcome(reply) == Subscribed ==>
        && subscribedEmail == address && isModalOpen
        && email == "" && emailError == None && rootError == None
      ensures SubmitOutcome(reply).FieldError? ==>
        && emailError == Some(SubmitOutcome(reply).message)
        && rootError == None && email == old(email)
        && isModalOpen == old(isModalOpen) && subscribedEmail == old(subscribedEmail)
      ensures SubmitOutcome(reply).RootError? ==>
        && rootError == Some(SubmitOutcome(reply).message)
        && emailError == None && email == old(email)
        && isModalOpen == old(isModalOpen) && subscribedEmail == old(subscribedEmail)
    {
      emailError := None;
      rootError := None;
      match reply {
        case Unreachable =>
          rootError := Some(ConnectionFailed);
        case Response(status, json) =>
          if json.None? {
            rootError := Some(ConnectionFailed);
          } else if IsOkStatus(status) {
            subscribedEmail := address;
            isModalOpen := true;
            email := "";
            emailError := None;
            rootError := None;
          } else if status == 409 {
            emailError := Some(AlreadySubscribed);
          } else if status == 400 {
            emailError := Some(MessageOr(json.value, InvalidAddress));
          } else {
            rootError := Some(MessageOr(json.value, SubscriptionFailed));
          }
      }
    }

    /** The confirmation modal's close button. */
    method CloseModal()
      modifies this
      ensures !isModalOpen
      ensures subscribedEmail == old(subscribedEmail) && email == old(email)
      ensures emailError == old(emailError) && rootError == old(rootError)
    {
      isModalOpen := false;
    }
  }
}
