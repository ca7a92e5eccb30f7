/**
  Client-side validation of the three forms of the page.  Each submit
  handler reads its fields as strings, rejects the submission when a required
  field is the empty string (no trimming: a lone space counts as filled), and
  only then, for the registration and contact forms, tests the e-mail field
  against the pattern of module Email.  The join form checks no e-mail syntax.
*/
module Forms {
  import opened Wrappers
  import opened Email

  /** The outcome of a submit handler's checks: go ahead, or the alert it raises. */
  datatype Verdict =
    | Accepted
    | MissingRequired   // 'Please fill in all required fields.'
    | InvalidEmail      // 'Please enter a valid email address.'

  /** The join form: name, email and domain are required, message is optional. */
  datatype JoinFields = JoinFields(name: string, email: string, domain: string, message: string)

  /** The event registration form. */
  datatype RegistrationFields =
    RegistrationFields(prn: string, name: string, email: string, className: string, branch: string)

  /** The contact message form. */
  datatype ContactFields = ContactFields(name: string, email: string, message: string)

  /** The values a form holds after form.reset(): every field empty. */
  const BlankJoin := JoinFields("", "", "", "")
  const BlankRegistration := RegistrationFields("", "", "", "", "")
  const BlankContact := ContactFields("", "", "")

  /** The rule every handler follows: a required field equal to "" rejects
      first; otherwise the e-mail field, when the form tests one, must match
      the pattern. */
  function CheckSubmission(required: seq<string>, email: Option<string>): (v: Verdict)
    ensures v == MissingRequired <==> exists k :: 0 <= k < |required| && required[k] == ""
    ensures v == InvalidEmail <==>
      (forall k :: 0 <= k < |required| ==> required[k] != "")
      && email.Some? && !MatchesEmailPattern(email.value)
    ensures v == Accepted <==>
      (forall k :: 0 <= k < |required| ==> required[k] != "")
      && (email.Some? ==> MatchesEmailPattern(email.value))
  {
    if "" in required then MissingRequired
    else if email.Some? && !EmailRegexTest(email.value) then InvalidEmail
    else Accepted
  }

  /** The join form's check (script.js:246-249). */
  function ValidateJoin(f: JoinFields): (v: Verdict)
    ensures v == Accepted <==> f.name != "" && f.email != "" && f.domain != ""
    ensures v != InvalidEmail
  {
    CheckSubmission([f.name, f.email, f.domain], None)
  }

  /** The registration form's checks (script.js:399-409). */
  function ValidateRegistration(f: RegistrationFields): (v: Verdict)
    ensures v == MissingRequired <==>
      f.prn == "" || f.name == "" || f.email == "" || f.className == "" || f.branch == ""
    ensures v == InvalidEmail <==>
      f.prn != "" && f.name != "" && f.email != "" && f.className != "" && f.branch != ""
      && !MatchesEmailPattern(f.email)
    ensures v == Accepted <==>
      f.prn != "" && f.name != "" && f.className != "" && f.branch != ""
      && MatchesEmailPattern(f.email)
  {
    var required := [f.prn, f.name, f.email, f.className, f.branch];
    assert required[0] == f.prn && required[1] == f.name && required[2] == f.email;
    assert required[3] == f.className && required[4] == f.branch;
    EmptyDoesNotMatch();
    CheckSubmission(required, Some(f.email))
  }

  /** The contact form's checks (script.js:522-532). */
  function ValidateContact(f: ContactFields): (v: Verdict)
    ensures v == MissingRequired <==> f.name == "" || f.email == "" || f.message == ""
    ensures v == InvalidEmail <==>
      f.name != "" && f.email != "" && f.message != "" && !MatchesEmailPattern(f.email)
    ensures v == Accepted <==>
      f.name != "" && f.message != "" && MatchesEmailPattern(f.email)
  {
    var required := [f.name, f.email, f.message];
    assert required[0] == f.name && required[1] == f.email && required[2] == f.message;
    EmptyDoesNotMatch();
    CheckSubmission(required, Some(f.email))
  }

  /** The empty string is never an address, so for the two forms that test
      the pattern, acceptance implies a non-empty e-mail field. */
  lemma EmptyDoesNotMatch()
    ensures !MatchesEmailPattern("")
  {
  }

  /** No trimming: fields holding only a space count as filled, so such a
      contact message is sent. */
  lemma SpaceCountsAsFilled()
    ensures ValidateContact(ContactFields(" ", "a@b.co", " ")) == Accepted
    ensures ValidateRegistration(RegistrationFields(" ", " ", "a@b.co", " ", " ")) == Accepted
  {
    SpecifiedExamples();
  }

  /** The required-field check runs before the e-mail check: an empty field
      is reported even when the address is also malformed. */
  lemma MissingReportedBeforeBadEmail(f: RegistrationFields, g: ContactFields)
    requires f.prn == "" && !MatchesEmailPattern(f.email)
    requires g.message == "" && !MatchesEmailPattern(g.email)
    ensures ValidateRegistration(f) == MissingRequired
    ensures ValidateContact(g) == MissingRequired
  {
  }

  /** The join form ignores its message field and never checks the address's
      syntax: "foo@bar" is accepted there, and rejected by the other two. */
  lemma JoinIgnoresMessageAndSyntax(f: JoinFields, m: string)
    ensures ValidateJoin(f.(message := m)) == ValidateJoin(f)
    ensures ValidateJoin(JoinFields("Ann", "foo@bar", "web", "")) == Accepted
    ensures ValidateContact(ContactFields("Ann", "foo@bar", "hi")) == InvalidEmail
  {
    SpecifiedExamples();
  }
}
