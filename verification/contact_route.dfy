/**
 * The contact-form endpoint (`POST /api/contact`): parse the JSON body,
 * check name, email and message independently, and either report every
 * failing field at once or produce the normalised submission record.
 */
module ContactRoute {
  import opened Wrappers
  import opened Strings

  /**
   * The per-field error messages; a field without an entry has none. There is
   * no entry for `company`: it is never validated.
   */
  datatype FieldErrors = FieldErrors(name: Option<string>, email: Option<string>, message: Option<string>) {
    /** `Object.keys(errors).length === 0`. */
    predicate IsEmpty() {
      name.None? && email.None? && message.None?
    }
  }

  const INVALID_BODY := "Invalid request body"
  const NAME_REQUIRED := "Name is required."
  const EMAIL_REQUIRED := "Email is required."
  const EMAIL_INVALID := "Invalid email format."
  const MESSAGE_REQUIRED := "Message is required."

  /** The JSON object the client sends; every member may be absent. */
  datatype Payload = Payload(name: Option<string>, email: Option<string>, company: Option<string>, message: Option<string>)

  /** What `request.json()` yields: a payload, or a parse failure. */
  datatype RequestBody = Unparsable | Json(payload: Payload)

  /** The record the handler produces for a valid submission (the timestamp is not modelled). */
  datatype ContactRecord = ContactRecord(name: string, email: string, company: string, message: string)

  /** The JSON body of the response. */
  datatype Reply =
    | ErrorReply(error: string)
    | ErrorsReply(errors: FieldErrors)
    | SuccessReply

  /** The HTTP status and body, and the record produced, if any. */
  datatype Outcome = Outcome(status: int, reply: Reply, record: Option<ContactRecord>)

  /** One character of the class `[^\s@]`. */
  predicate IsAddressChar(c: char) {
    !IsSpace(c) && c != '@'
  }

  /** A match of `[^\s@]+`. */
  predicate IsAddressRun(s: string) {
    |s| > 0 && forall k | 0 <= k < |s| :: IsAddressChar(s[k])
  }

  /**
   * What it means for `s` to match `^[^\s@]+@[^\s@]+\.[^\s@]+$`: `s` splits at
   * an '@' (position i) and a later '.' (position j) into three non-empty runs
   * of characters that are neither white space nor '@'.
   */
  ghost predicate MatchesEmailPattern(s: string) {
    exists i, j | 0 < i && i + 1 < j && j + 1 < |s| ::
      s[i] == '@' && s[j] == '.' && IsAddressRun(s[..i]) && IsAddressRun(s[i + 1..j]) && IsAddressRun(s[j + 1..])
  }

  /**
   * The email shape test, stated as the rule it enforces: no white space,
   * exactly one '@', something before it, and after it a '.' with text on
   * both sides.
   */
  predicate IsValidEmail(s: string)
    ensures IsValidEmail(s) ==> 5 <= |s| && NoSpace(s)
  {
    var at := IndexFrom(s, 0, '@');
    && NoSpace(s)
    && 0 < at < |s|
    && IndexFrom(s, at + 1, '@') == |s|
    && exists j | at + 1 < j < |s| - 1 :: s[j] == '.'
  }

  /** The shape rule is exactly the regular expression. */
  lemma EmailRuleMatchesPattern(s: string)
    ensures IsValidEmail(s) <==> MatchesEmailPattern(s)
  {
    if IsValidEmail(s) {
      ValidEmailMatches(s);
    }
    if MatchesEmailPattern(s) {
      MatchingEmailIsValid(s);
    }
  }

  lemma ValidEmailMatches(s: string)
    requires IsValidEmail(s)
    ensures MatchesEmailPattern(s)
  {
    var i := IndexFrom(s, 0, '@');
    var j :| i + 1 < j < |s| - 1 && s[j] == '.';
    assert IndexFrom(s, i + 1, '@') == |s|;
    assert IsAddressRun(s[..i]);
    assert IsAddressRun(s[i + 1..j]);
    assert IsAddressRun(s[j + 1..]);
  }

  lemma MatchingEmailIsValid(s: string)
    requires MatchesEmailPattern(s)
    ensures IsValidEmail(s)
  {
    var i, j :| 0 < i && i + 1 < j && j + 1 < |s| && s[i] == '@' && s[j] == '.'
      && IsAddressRun(s[..i]) && IsAddressRun(s[i + 1..j]) && IsAddressRun(s[j + 1..]);
    forall k | 0 <= k < |s| ensures !IsSpace(s[k]) && (k != i ==> s[k] != '@') {
      if k < i {
        assert s[k] == s[..i][k];
      } else if i < k < j {
        assert s[k] == s[i + 1..j][k - i - 1];
      } else if j < k {
        assert s[k] == s[j + 1..][k - j - 1];
      }
    }
    assert IndexFrom(s, 0, '@') == i;
    assert IndexFrom(s, i + 1, '@') == |s|;
  }

  /**
   * The per-field errors: each field is reported exactly when its own rule
   * fails, and the two email messages exclude each other.
   */
  function Errors(p: Payload): (errors: FieldErrors)
    ensures errors.name.Some? <==> Missing(p.name)
    ensures errors.message.Some? <==> Missing(p.message)
    ensures errors.email.Some? <==> Missing(p.email) || !IsValidEmail(p.email.value)
    ensures errors.email == Some(EMAIL_REQUIRED) <==> Missing(p.email)
    ensures errors.email == Some(EMAIL_INVALID) <==> !Missing(p.email) && !IsValidEmail(p.email.value)
    ensures errors.name.Some? ==> errors.name.value == NAME_REQUIRED
    ensures errors.message.Some? ==> errors.message.value == MESSAGE_REQUIRED
  {
    FieldErrors(
      if Missing(p.name) then Some(NAME_REQUIRED) else None,
      if Missing(p.email) then Some(EMAIL_REQUIRED)
      else if !IsValidEmail(p.email.value) then Some(EMAIL_INVALID)
      else None,
      if Missing(p.message) then Some(MESSAGE_REQUIRED) else None)
  }

  /** `company?.trim() || ""`. */
  function NormaliseCompany(company: Option<string>): (c: string)
    ensures c == "" <==> Missing(company)
    ensures c != "" ==> c == Trim(company.value)
  {
    if company.Some? then Trim(company.value) else ""
  }

  /** The handler. A record is produced exactly when the response is 200. */
  function Post(body: RequestBody): (r: Outcome)
    ensures r.status == 200 || r.status == 400
    ensures r.record.Some? <==> r.status == 200
    ensures r.reply.SuccessReply? <==> r.status == 200
    ensures body.Unparsable? ==> r.reply == ErrorReply(INVALID_BODY)
    ensures body.Json? && r.status == 400 ==> r.reply == ErrorsReply(Errors(body.payload)) && !Errors(body.payload).IsEmpty()
    ensures r.record.Some? ==>
      var p, rec := body.payload, r.record.value;
      && body.Json? && !Missing(p.name) && !Missing(p.email) && !Missing(p.message)
      && rec.name == Trim(p.name.value) && rec.name != ""
      && rec.email == p.email.value && IsValidEmail(rec.email)
      && rec.message == Trim(p.message.value) && rec.message != ""
      && rec.company == NormaliseCompany(p.company)
  {
    match body
    case Unparsable => Outcome(400, ErrorReply(INVALID_BODY), None)
    case Json(p) =>
      var errors := Errors(p);
      if !errors.IsEmpty() then Outcome(400, ErrorsReply(errors), None)
      else
        TrimNoSpace(p.email.value);
        var rec := ContactRecord(Trim(p.name.value), Trim(p.email.value), NormaliseCompany(p.company), Trim(p.message.value));
        Outcome(200, SuccessReply, Some(rec))
  }

  /** An accepted email is already trimmed: the shape rule rejects any white space. */
  lemma AcceptedEmailIsTrimmed(email: string)
    requires IsValidEmail(email)
    ensures Trim(email) == email && !IsBlank(email)
  {
    TrimNoSpace(email);
  }

  /** The addresses that lack an '@' or a dotted domain are rejected. */
  lemma MalformedEmailsRejected()
    ensures !IsValidEmail("foo") && !IsValidEmail("foo@") && !IsValidEmail("foo@bar")
    ensures !IsValidEmail(" ada@example.com") && !IsValidEmail("a@b@c.d") && !IsValidEmail("@b.c")
  {
    assert IndexFrom("foo", 0, '@') == 3;
    assert "foo@"[3] == '@';
    assert "foo@bar"[3] == '@';
    assert IsSpace(" ada@example.com"[0]);
    assert IndexFrom("a@b@c.d", 0, '@') == 1;
    assert IndexFrom("a@b@c.d", 2, '@') == 3;
    assert IndexFrom("@b.c", 0, '@') == 0;
  }

  /** A typical address, ada@example.com, has the accepted shape. */
  lemma ExampleEmailIsValid()
    ensures IsValidEmail("ada@example.com")
  {
    var email := "ada@example.com";
    assert email[3] == '@' && email[11] == '.';
    assert forall k | 0 <= k < 3 :: email[k] != '@';
    assert forall k | 4 <= k < |email| :: email[k] != '@';
    assert NoSpace(email);
  }

  /** A submission passes exactly when no field has an error, whatever the company holds. */
  lemma AcceptedIffNoErrors(p: Payload)
    ensures Post(Json(p)).status == 200 <==> Errors(p).IsEmpty()
    ensures Errors(p).IsEmpty() <==> !Missing(p.name) && !Missing(p.message) && !Missing(p.email) && IsValidEmail(p.email.value)
  {
  }

  /** A valid submission is accepted with the trimmed fields; an absent company is recorded as "". */
  lemma AcceptsValidSubmission(name: string, email: string, message: string)
    requires !IsBlank(name) && IsValidEmail(email) && !IsBlank(message)
    ensures Post(Json(Payload(Some(name), Some(email), None, Some(message))))
         == Outcome(200, SuccessReply, Some(ContactRecord(Trim(name), email, "", Trim(message))))
  {
    AcceptedEmailIsTrimmed(email);
  }

  /** A blank name alone is reported under `name` and under no other field. */
  lemma RejectsBlankName(p: Payload)
    requires Missing(p.name) && !Missing(p.email) && IsValidEmail(p.email.value) && !Missing(p.message)
    ensures Post(Json(p)) == Outcome(400, ErrorsReply(FieldErrors(Some(NAME_REQUIRED), None, None)), None)
  {
  }
}
