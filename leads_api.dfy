/**
 * The `/leads` endpoints: form and file validation for a submission, the None-to-404
 * mapping of the protected reads and the state update, and the list endpoint's
 * defaults. The bearer check is the `Guard` the endpoint receives.
 */
module LeadsApi {
  import opened Wrappers
  import opened Uuids
  import opened LeadModel
  import opened Effects
  import opened ObjectStorage
  import opened LeadStore
  import opened Intake
  import opened Http
  import opened Database
  import Config

  /** ASCII lower-casing, as `str.lower` does for ASCII letters. */
  function LowerChar(c: char): char {
    if 'A' <= c <= 'Z' then (c as int + 32) as char else c
  }

  function Lower(s: string): string {
    seq(|s|, i requires 0 <= i < |s| => LowerChar(s[i]))
  }

  predicate EndsWith(s: string, suffix: string) {
    |suffix| <= |s| && s[|s| - |suffix|..] == suffix
  }

  function Join(parts: seq<string>, sep: string): string {
    if |parts| <= 1 then (if parts == [] then "" else parts[0])
    else Join(parts[..|parts| - 1], sep) + sep + parts[|parts| - 1]
  }

  function DecimalText(n: nat): string {
    var d := [(('0' as int) + n % 10) as char];
    if n < 10 then d else DecimalText(n / 10) + d
  }

  /** The uploaded part: its filename, the size the framework reports (None when unknown), the bytes. */
  datatype UploadFile = UploadFile(filename: string, size: Option<nat>, content: Blob)

  /** The one-line check of `validate_resume_file`: some allowed extension ends the lower-cased name. */
  predicate AllowedFilename(filename: string) {
    exists i | 0 <= i < |Config.AllowedExtensions| :: EndsWith(Lower(filename), Config.AllowedExtensions[i])
  }

  const FileTypeNotAllowed :=
    HttpError(400, Message("File type not allowed. Allowed types: " + Join(Config.AllowedExtensions, ", ")), [])

  const FileTooLarge :=
    HttpError(413, Message("File too large. Maximum size: " + DecimalText(Config.MaxUploadSize) + " bytes"), [])

  /**
   * `validate_resume_file`: `None` when the file passes, else the error it raises.
   * A file passes exactly when its lower-cased name ends in .pdf, .doc or .docx and its
   * size is unknown or at most the maximum; the type is checked first.
   */
  function ValidateResumeFile(file: UploadFile): (rejection: Option<HttpError>)
    ensures rejection.None? <==>
              (exists ext | ext in [".pdf", ".doc", ".docx"] :: EndsWith(Lower(file.filename), ext))
              && (file.size.None? || file.size.value <= 10485760)
    ensures !AllowedFilename(file.filename) ==> rejection == Some(FileTypeNotAllowed)
    ensures AllowedFilename(file.filename) && rejection.Some? ==> rejection == Some(FileTooLarge)
    ensures rejection.Some? ==> rejection.value.status in {400, 413}
  {
    if !AllowedFilename(file.filename) then
      Some(FileTypeNotAllowed)
    else if file.size.Some? && file.size.value != 0 && file.size.value > Config.MaxUploadSize then
      Some(FileTooLarge)
    else
      None
  }

  /** Upper-case extensions pass: `resume.PDF` is accepted. */
  lemma UpperCaseExtensionPasses(size: Option<nat>, content: Blob)
    requires size.None? || size.value <= Config.MaxUploadSize
    ensures ValidateResumeFile(UploadFile("resume.PDF", size, content)).None?
  {
    var name := Lower("resume.PDF");
    assert name == "resume.pdf";
    assert EndsWith(name, Config.AllowedExtensions[0]);
  }

  /** A file of exactly the maximum size passes; one byte more is refused with 413. */
  lemma SizeBoundary(content: Blob)
    ensures ValidateResumeFile(UploadFile("cv.docx", Some(Config.MaxUploadSize), content)).None?
    ensures ValidateResumeFile(UploadFile("cv.docx", Some(Config.MaxUploadSize + 1), content)) == Some(FileTooLarge)
  {
    assert Lower("cv.docx") == "cv.docx";
    assert EndsWith("cv.docx", Config.AllowedExtensions[2]);
  }

  /** A disallowed type is reported as such even when the file is also too large. */
  lemma TypeCheckedBeforeSize(content: Blob)
    ensures ValidateResumeFile(UploadFile("resume.exe", Some(15 * 1048576), content)) == Some(FileTypeNotAllowed)
  {
    var name := Lower("resume.exe");
    assert name == "resume.exe";
    assert !EndsWith(name, ".pdf") && !EndsWith(name, ".doc") && !EndsWith(name, ".docx");
  }

  /**
   * `lead_form_data`: builds the submission; an invalid email is refused with 422 and
   * the validator's error list. `validateEmail` is the email-address validator, which
   * returns the normalised address or its errors. The names are taken as given.
   */
  function LeadFormData(firstName: string, lastName: string, email: string,
                        validateEmail: string -> Result<string, seq<string>>): (r: Result<LeadCreate, HttpError>)
    ensures r.Success? <==> validateEmail(email).Success?
    ensures r.Success? ==> r.value.firstName == firstName && r.value.lastName == lastName
                           && r.value.email == validateEmail(email).value
    ensures r.Failure? ==> r.error.status == 422
                           && r.error.detail == ValidationErrors(validateEmail(email).error)
  {
    match validateEmail(email)
    case Success(normalised) => Success(LeadCreate(firstName, lastName, normalised))
    case Failure(errors) => Failure(HttpError(422, ValidationErrors(errors), []))
  }

  /**
   * The form fields the framework reports as missing before `lead_form_data` runs:
   * a required `Form(...)` field sent as the empty string counts as absent.
   */
  function MissingFormFields(firstName: string, lastName: string, email: string): (missing: seq<string>)
    ensures "first_name" in missing <==> firstName == ""
    ensures "last_name" in missing <==> lastName == ""
    ensures "email" in missing <==> email == ""
    ensures forall i | 0 <= i < |missing| :: missing[i] in ["first_name", "last_name", "email"]
  {
    (if firstName == "" then ["first_name"] else [])
    + (if lastName == "" then ["last_name"] else [])
    + (if email == "" then ["email"] else [])
  }

  /**
   * Everything `POST /leads` checks before it calls the service, in order: the framework's
   * required form fields (422), `lead_form_data` (422), then `validate_resume_file` (400, 413).
   */
  function CheckSubmission(firstName: string, lastName: string, email: string,
                           validateEmail: string -> Result<string, seq<string>>, resume: UploadFile)
    : (r: Result<LeadCreate, HttpError>)
    ensures r.Success? <==> firstName != "" && lastName != "" && email != ""
                            && validateEmail(email).Success? && ValidateResumeFile(resume).None?
    ensures MissingFormFields(firstName, lastName, email) != [] ==>
              r == Failure(HttpError(422, ValidationErrors(MissingFormFields(firstName, lastName, email)), []))
    ensures MissingFormFields(firstName, lastName, email) == [] && validateEmail(email).Failure? ==>
              r == Failure(HttpError(422, ValidationErrors(validateEmail(email).error), []))
    ensures (MissingFormFields(firstName, lastName, email) == [] && validateEmail(email).Success?
             && ValidateResumeFile(resume).Some?) ==> r == Failure(ValidateResumeFile(resume).value)
    ensures r.Success? ==> r.value == LeadCreate(firstName, lastName, validateEmail(email).value)
  {
    var missing := MissingFormFields(firstName, lastName, email);
    if missing != [] then
      assert "first_name" in missing || "last_name" in missing || "email" in missing by {
        assert missing[0] in ["first_name", "last_name", "email"];
      }
      Failure(HttpError(422, ValidationErrors(missing), []))
    else match LeadFormData(firstName, lastName, email, validateEmail)
      case Failure(e) => Failure(e)
      case Success(data) =>
        match ValidateResumeFile(resume)
        case Some(rejection) => Failure(rejection)
        case None => Success(data)
  }

  /** The submission's state: the table, the store, the outbox and the effect log. */
  ghost predicate Untouched(service: LeadService,
                            table: Table, objects: map<string, Blob>, outbox: seq<Email>, events: seq<Effect>)
    reads service, service.repo, service.storage, service.mailer, service.log
  {
    service.repo.table == table && service.storage.objects == objects
    && service.mailer.outbox == outbox && service.log.events == events
  }

  /**
   * `POST /leads` (public). The submission is checked first (422, 400, 413), and only then
   * is the service called; a rejected request has no effect. An exception of the service
   * reaches the framework, which answers 500, and leaves what the service left (the
   * uploaded object, and the row too when only the refresh after the commit failed); a created lead is PENDING, carries the
   * submitted names and the stored resume's URL, and both mails were attempted.
   */
  method CreateLead(service: LeadService, firstName: string, lastName: string, email: string,
                    validateEmail: string -> Result<string, seq<string>>, resume: UploadFile,
                    env: IntakeOutcomes) returns (r: Result<Lead, HttpError>)
    requires service.Valid()
    modifies service.repo, service.storage, service.mailer, service.log
    ensures service.Valid()
    ensures CheckSubmission(firstName, lastName, email, validateEmail, resume).Failure? ==>
              && r == Failure(CheckSubmission(firstName, lastName, email, validateEmail, resume).error)
              && Untouched(service, old(service.repo.table), old(service.storage.objects),
                           old(service.mailer.outbox), old(service.log.events))
    ensures r.Success? <==> CheckSubmission(firstName, lastName, email, validateEmail, resume).Success?
                            && env.storageUp && env.commit == Committed && env.leadId !in old(service.repo.table)
    ensures CheckSubmission(firstName, lastName, email, validateEmail, resume).Success? && r.Failure? ==>
              r.error == InternalServerError && service.mailer.outbox == old(service.mailer.outbox)
    ensures CheckSubmission(firstName, lastName, email, validateEmail, resume).Success? ==>
              && (LeadStored(env, old(service.repo.table)) ==>
                    service.repo.table
                      == old(service.repo.table)[env.leadId := service.NewLead(
                           LeadCreate(firstName, lastName, validateEmail(email).value), resume.filename, env)])
              && (!LeadStored(env, old(service.repo.table)) ==> service.repo.table == old(service.repo.table))
    ensures CheckSubmission(firstName, lastName, email, validateEmail, resume).Success? && !env.storageUp ==>
              service.storage.objects == old(service.storage.objects) && service.log.events == old(service.log.events)
    ensures CheckSubmission(firstName, lastName, email, validateEmail, resume).Success? && env.storageUp ==>
              service.storage.objects
                == old(service.storage.objects)[StorageKey(env.keyUuid, resume.filename) := resume.content]
    ensures (CheckSubmission(firstName, lastName, email, validateEmail, resume).Success? && env.storageUp
             && !LeadStored(env, old(service.repo.table))) ==>
              service.log.events == old(service.log.events)
                + [Uploaded(StorageKey(env.keyUuid, resume.filename), service.ResumeUrl(resume.filename, env))]
    ensures (CheckSubmission(firstName, lastName, email, validateEmail, resume).Success? && r.Failure?
             && LeadStored(env, old(service.repo.table))) ==>
              service.log.events == old(service.log.events)
                + [Uploaded(StorageKey(env.keyUuid, resume.filename), service.ResumeUrl(resume.filename, env)),
                   Inserted(service.NewLead(LeadCreate(firstName, lastName, validateEmail(email).value),
                                            resume.filename, env))]
    ensures r.Success? ==>
              && r.value.state == Pending && r.value.id == env.leadId
              && r.value.createdAt == env.createdAt && r.value.updatedAt == env.updatedAt
              && r.value.firstName == firstName && r.value.lastName == lastName
              && r.value.email == validateEmail(email).value
              && r.value.resumeUrl == service.ResumeUrl(resume.filename, env)
    ensures r.Success? ==>
              && service.repo.table == old(service.repo.table)[r.value.id := r.value]
              && service.repo.GetById(r.value.id) == Some(r.value)
              && service.mailer.outbox == old(service.mailer.outbox) + service.Notifications(r.value)
    ensures r.Success? ==>
              service.log.events == old(service.log.events)
                + [Uploaded(StorageKey(env.keyUuid, resume.filename), r.value.resumeUrl), Inserted(r.value),
                   Mailed(service.Notifications(r.value)[0], env.prospectAccepted),
                   Mailed(service.Notifications(r.value)[1], env.attorneyAccepted)]
  {
    var checked := CheckSubmission(firstName, lastName, email, validateEmail, resume);
    if checked.Failure? {
      return Failure(checked.error);
    }
    var created := service.CreateLead(checked.value, resume.content, resume.filename, env);
    if created.Failure? {
      return Failure(InternalServerError);
    }
    r := Success(created.value);
  }

  const LeadNotFound := HttpError(404, Message("Lead not found"), [])

  /** The body of `GET /leads`. */
  datatype LeadList = LeadList(total: nat, leads: seq<Lead>)

  /**
   * `GET /leads` (protected): `skip` 0 and `limit` 100 unless given; `state` is the query
   * text, which must name a state (else 422). The service's count and page are returned
   * unchanged.
   */
  method GetLeads(service: LeadService, guard: Guard, skip: nat := 0, limit: nat := 100,
                  state: Option<string> := None)
    returns (r: Result<LeadList, HttpError>, ghost ordered: seq<Lead>)
    requires service.Valid()
    ensures guard.Refused? ==> r == Failure(guard.error)
    ensures guard.Admitted? && state.Some? && ParseState(state.value).None? ==> r == Failure(Unprocessable("state"))
    ensures r.Success? <==> guard.Admitted? && (state.None? || ParseState(state.value).Some?)
    ensures r.Success? ==>
              var filter := if state.None? then None else ParseState(state.value);
              && r.value.total == |MatchingIds(service.repo.table, filter)|
              && IsListing(service.repo.table, filter, ordered)
              && r.value.leads == Window(ordered, skip, limit)
  {
    ordered := [];
    if guard.Refused? {
      return Failure(guard.error), ordered;
    }
    var filter: Option<LeadState> := None;
    if state.Some? {
      filter := ParseState(state.value);
      if filter.None? {
        return Failure(Unprocessable("state")), ordered;
      }
    }
    var leads, total;
    leads, total, ordered := service.GetAllLeads(skip, limit, filter);
    r := Success(LeadList(total, leads));
  }

  /** `GET /leads/{id}` (protected): the lead, or 404 "Lead not found" exactly when there is none. */
  function GetLead(service: LeadService, guard: Guard, id: Uuid): (r: Result<Lead, HttpError>)
    reads service, service.repo
    requires service.Valid()
    ensures guard.Refused? ==> r == Failure(guard.error)
    ensures guard.Admitted? ==> (r == Failure(LeadNotFound) <==> id !in service.repo.table)
    ensures r.Success? ==> guard.Admitted? && id in service.repo.table && r.value == service.repo.table[id]
    ensures guard.Admitted? && id in service.repo.table ==> r == Success(service.repo.table[id])
  {
    if guard.Refused? then Failure(guard.error)
    else match service.GetLead(id)
      case None => Failure(LeadNotFound)
      case Some(lead) => Success(lead)
  }

  /**
   * `PATCH /leads/{id}/state` (protected): the body's state must name a state (else 422);
   * 404 exactly when the lead does not exist; any state is written, including PENDING
   * over REACHED_OUT. A refused commit or a failed refresh reaches the framework, which
   * answers 500; after a failed refresh the new state is stored all the same.
   */
  method UpdateLeadState(service: LeadService, guard: Guard, id: Uuid, stateText: string,
                         now: Time, commit: CommitOutcome) returns (r: Result<Lead, HttpError>)
    requires service.Valid()
    modifies service.repo, service.log
    ensures service.Valid()
    ensures guard.Refused? ==> r == Failure(guard.error)
    ensures guard.Admitted? && ParseState(stateText).None? ==> r == Failure(Unprocessable("state"))
    ensures guard.Admitted? && ParseState(stateText).Some? ==>
              && (r == Failure(LeadNotFound) <==> id !in old(service.repo.table))
              && (id in old(service.repo.table) && commit != Committed ==> r == Failure(InternalServerError))
              && (id in old(service.repo.table) && commit == Committed ==>
                    && r.Success?
                    && r.value == old(service.repo.table)[id].(state := ParseState(stateText).value, updatedAt := now))
    ensures guard.Admitted? && ParseState(stateText).Some? && id in old(service.repo.table) && Persisted(commit) ==>
              var written := old(service.repo.table)[id].(state := ParseState(stateText).value, updatedAt := now);
              && service.repo.table == WithState(old(service.repo.table), id, written.state, now)
              && service.log.events == old(service.log.events) + [StateWritten(written)]
    ensures !(guard.Admitted? && ParseState(stateText).Some? && id in old(service.repo.table) && Persisted(commit)) ==>
              service.repo.table == old(service.repo.table) && service.log.events == old(service.log.events)
  {
    if guard.Refused? {
      return Failure(guard.error);
    }
    var state := ParseState(stateText);
    if state.None? {
      return Failure(Unprocessable("state"));
    }
    var updated := service.UpdateLeadState(id, state.value, now, commit);
    if updated.Failure? {
      return Failure(InternalServerError);
    }
    if updated.value.None? {
      return Failure(LeadNotFound);
    }
    r := Success(updated.value.value);
  }
}
