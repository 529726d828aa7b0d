/** The registration form of the tourist app
    (tourist-app/src/pages/RegisterPage.tsx): the three checks in their
    order, the email pattern, the request body, and how a failed request's
    `detail` becomes the message shown. The POST is an input saying how it
    ended; the delayed redirect is returned, its two-second timer is not
    modelled. */
module RegisterPage {
  import opened Wrappers
  import opened Text

  const MissingFieldsText := "All fields are required."
  const MismatchText := "Passwords do not match."
  const BadEmailText := "Invalid email format."
  const SuccessText := "Registration successful! You can now login."
  const UnknownErrorText := "Registration failed. An unknown error occurred."
  const UnexpectedText := "Registration failed. An unexpected error occurred."

  /** The test `/\S+@\S+\.\S+/` (unanchored): somewhere in `s` a
      non-blank character, '@', a non-empty run of non-blank characters,
      '.', and one more non-blank character. */
  predicate EmailPattern(s: string) {
    exists a, b :: 1 <= a && a + 1 < b && b + 1 < |s|
                   && s[a] == '@' && s[b] == '.'
                   && !IsWhitespace(s[a - 1]) && !IsWhitespace(s[b + 1])
                   && NonBlankBetween(s, a, b)
  }

  /** No whitespace strictly between positions `a` and `b`. */
  predicate NonBlankBetween(s: string, a: int, b: int)
    requires 0 <= a <= b <= |s|
  {
    forall k :: a < k < b ==> !IsWhitespace(s[k])
  }

  /** The body of `/auth/register`. */
  datatype Registration = Registration(username: string, email: string, password: string)

  /** What the checks decide, in the source's order: an empty field, then
      different passwords, then an email the pattern rejects. */
  function ValidateRegistration(username: string, email: string, password: string, confirmPassword: string): (r: Result<Registration, string>)
    ensures username == "" || email == "" || password == "" || confirmPassword == "" ==> r == Err(MissingFieldsText)
    ensures username != "" && email != "" && password != "" && confirmPassword != "" && password != confirmPassword ==>
              r == Err(MismatchText)
    ensures r.Ok? <==> username != "" && email != "" && password != "" && password == confirmPassword && EmailPattern(email)
    ensures r.Err? && r.error != MissingFieldsText && r.error != MismatchText ==> r.error == BadEmailText
    ensures r.Ok? ==> r.value == Registration(username, email, password)
  {
    if username == "" || email == "" || password == "" || confirmPassword == "" then Err(MissingFieldsText)
    else if password != confirmPassword then Err(MismatchText)
    else if !EmailPattern(email) then Err(BadEmailText)
    else Ok(Registration(username, email, password))
  }

  /** The `detail` of an error response: a list of items whose `msg` may be
      missing, a string, or anything else. */
  datatype Detail = DetailItems(msgs: seq<Option<string>>) | DetailText(text: string) | DetailOther

  /** How the POST failed: the server answered, or something else went wrong. */
  datatype RegisterFailure = Responded(detail: Detail) | Unexpected

  /** `e.msg` as `join` writes it: a missing value becomes the empty string. */
  function MsgText(msg: Option<string>): string {
    if msg.Some? then msg.value else ""
  }

  /** The `msg` texts of the items, in order. */
  function MsgTexts(msgs: seq<Option<string>>): (r: seq<string>)
    ensures |r| == |msgs| && forall i :: 0 <= i < |msgs| ==> r[i] == MsgText(msgs[i])
  {
    seq(|msgs|, i requires 0 <= i < |msgs| => MsgText(msgs[i]))
  }

  /** The message a failed POST leaves: list items joined by ", ", a string
      detail as is (even an empty one), otherwise the two default texts. */
  function FailureMessage(failure: RegisterFailure): (r: string)
    ensures failure.Responded? && failure.detail.DetailItems? && |failure.detail.msgs| == 1 ==>
              r == MsgText(failure.detail.msgs[0])
    ensures failure.Responded? && failure.detail.DetailItems? && failure.detail.msgs == [] ==> r == ""
    ensures failure.Responded? && failure.detail.DetailItems? ==> r == Join(MsgTexts(failure.detail.msgs), ", ")
    ensures failure.Responded? && failure.detail.DetailItems? && |failure.detail.msgs| >= 2 ==>
              r == MsgText(failure.detail.msgs[0]) + ", " + Join(MsgTexts(failure.detail.msgs[1..]), ", ")
    ensures failure.Responded? && failure.detail.DetailText? ==> r == failure.detail.text
    ensures failure.Responded? && failure.detail.DetailOther? ==> r == UnknownErrorText
    ensures failure.Unexpected? ==> r == UnexpectedText
  {
    match failure
    case Responded(DetailItems(msgs)) =>
      if |msgs| >= 2 then
        JoinCons(MsgTexts(msgs), ", ");
        assert MsgTexts(msgs)[1..] == MsgTexts(msgs[1..]);
        Join(MsgTexts(msgs), ", ")
      else Join(MsgTexts(msgs), ", ")
    case Responded(DetailText(text)) => text
    case Responded(DetailOther) => UnknownErrorText
    case Unexpected => UnexpectedText
  }

  class RegisterView {
    var username: string
    var email: string
    var password: string
    var confirmPassword: string
    var loading: bool
    var error: Option<string>
    var successMessage: Option<string>

    constructor ()
      ensures username == "" && email == "" && password == "" && confirmPassword == ""
      ensures !loading && error == None && successMessage == None
    {
      username := "";
      email := "";
      password := "";
      confirmPassword := "";
      loading := false;
      error := None;
      successMessage := None;
    }

    /** Typing into the four fields. */
    method TypeFields(newUsername: string, newEmail: string, newPassword: string, newConfirm: string)
      modifies this
      ensures username == newUsername && email == newEmail && password == newPassword && confirmPassword == newConfirm
      ensures loading == old(loading) && error == old(error) && successMessage == old(successMessage)
    {
      username, email, password, confirmPassword := newUsername, newEmail, newPassword, newConfirm;
    }

    /** `handleSubmit`, given how the POST would end: a failed check shows
        its message and sends nothing; a sent form ends with the success
        text and a redirect to '/login', or with the failure's message.
        The fields are never changed and loading is off afterwards. */
    method HandleSubmit(outcome: Result<(), RegisterFailure>) returns (posted: Option<Registration>, redirect: Option<string>)
      modifies this
      ensures username == old(username) && email == old(email) && password == old(password)
      ensures confirmPassword == old(confirmPassword)
      ensures ValidateRegistration(username, email, password, confirmPassword).Err? ==>
                && error == Some(ValidateRegistration(username, email, password, confirmPassword).error)
                && successMessage == None && posted == None && redirect == None && loading == old(loading)
      ensures ValidateRegistration(username, email, password, confirmPassword).Ok? ==>
                && posted == Some(ValidateRegistration(username, email, password, confirmPassword).value)
                && !loading
      ensures posted.Some? && outcome.Ok? ==>
                error == None && successMessage == Some(SuccessText) && redirect == Some("/login")
      ensures posted.Some? && outcome.Err? ==>
                error == Some(FailureMessage(outcome.error)) && successMessage == None && redirect == None
    {
      error := None;
      successMessage := None;
      redirect := None;
      if username == "" || email == "" || password == "" || confirmPassword == "" {
        error := Some(MissingFieldsText);
        return None, None;
      }
      if password != confirmPassword {
        error := Some(MismatchText);
        return None, None;
      }
      if !EmailPattern(email) {
        error := Some(BadEmailText);
        return None, None;
      }
      loading := true;
      posted := Some(Registration(username, email, password));
      if outcome.Ok? {
        successMessage := Some(SuccessText);
        redirect := Some("/login");
      } else {
        error := Some(FailureMessage(outcome.error));
      }
      loading := false;
    }
  }

  /** An ordinary address passes the pattern. */
  lemma PlainAddressAccepted()
    ensures EmailPattern("ann@mail.com")
  {
    var s := "ann@mail.com";
    assert NonBlankBetween(s, 3, 8);
    assert 1 <= 3 && 3 + 1 < 8 && 8 + 1 < |s| && s[3] == '@' && s[8] == '.'
           && !IsWhitespace(s[2]) && !IsWhitespace(s[9]) && NonBlankBetween(s, 3, 8);
  }

  /** The pattern is unanchored: a blank before the local part is fine. */
  lemma LeadingBlankAccepted()
    ensures EmailPattern(" a@b.c")
  {
    var s := " a@b.c";
    assert NonBlankBetween(s, 2, 4);
    assert 1 <= 2 && 2 + 1 < 4 && 4 + 1 < |s| && s[2] == '@' && s[4] == '.'
           && !IsWhitespace(s[1]) && !IsWhitespace(s[5]) && NonBlankBetween(s, 2, 4);
  }

  /** Without an '@' or without a dot after it, an address is refused. */
  lemma NoAtRefused(s: string)
    requires forall i :: 0 <= i < |s| ==> s[i] != '@'
    ensures !EmailPattern(s)
  {
  }

  /** A dot right after the '@' does not count as a domain. */
  lemma DotAfterAtRefused()
    ensures !EmailPattern("a@.cd")
  {
    var s := "a@.cd";
    assert forall i :: 0 <= i < |s| && i != 1 ==> s[i] != '@';
    assert s[3] != '.';
  }

  /** Two list items are joined with ", ", a missing message counting as empty. */
  lemma ItemsJoined()
    ensures FailureMessage(Responded(DetailItems([Some("too short"), None]))) == "too short, "
  {
    var msgs := [Some("too short"), None];
    assert msgs[1..] == [None];
  }
}
