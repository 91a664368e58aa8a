# Lead intake and lifecycle, modelled in Dafny

This project models the backend of a lead-intake service. A prospect submits a first name, last name, email and resume file. The service validates the form and the file, uploads the resume to an object store (MinIO), inserts a PENDING lead row, and then emails the prospect and the attorney. An authenticated attorney lists leads (paged, optionally filtered by state), reads one lead, and sets its state. Attorneys log in with email and password and receive a bearer token.

The model follows the repository's layers:

- `lead_model.dfy` (`LeadModel`): the `leads` row, the two-value `LeadState`, and the defaults applied at insert.
- `lead_repository.dfy` (`LeadStore`): `LeadRepository`, a class over a mutable `map` from id to row, with `Create`, `GetById`, `GetAll` and `UpdateState`.
- `lead_service.dfy` (`Intake`): the storage key derivation and `LeadService`, whose `CreateLead` runs upload, insert and the two sends in order.
- `leads_api.dfy` (`LeadsApi`): file and form validation, and the four `/leads` endpoints. An endpoint maps None to 404; an unhandled exception reaches the framework, which answers 500.
- `users.dfy` (`Users`), `auth.dfy` (`Auth`), `auth_api.dfy` (`AuthApi`): the user table, credential check, token claims and the login endpoint.
- Supporting modules:
  - `object_storage.dfy`: upload and object URL.
  - `notifier.dfy`: the two sends.
  - `effects.dfy`: a shared ghost log of effects, so that the order of effects across the three collaborators can be stated.
  - `uuids.dfy`, `database.dfy`, `http.dfy`, `config.dfy`, `wrappers.dfy`.
  - `workflow.dfy`: a client following the end-to-end workflow test.

Things outside the program are parameters:

- the two `uuid4()` draws;
- clock readings, as a natural-number `Time`;
- whether the object store and each SMTP send succeed;
- what the database does with each commit and the refresh after it (`CommitOutcome`): the commit goes through, the commit is refused, or the commit goes through and the refresh then raises;
- the email validator;
- password verification;
- token signing, together with the clock reading at which a token is issued;
- the outcome of the bearer-token dependency, as a `Guard`.

A raised exception is a `Failure` result. A refused commit leaves the table as it was, which models the rollback. A refresh that raises after a successful commit leaves the change stored, because the rollback then has nothing to undo, and the exception still propagates.

The code as written, which this model follows:

- `update_state` has no transition guard. Any state is written, including PENDING over REACHED_OUT, and there is no "invalid transition" error.
- Names are not trimmed. The framework refuses an empty form value as a missing field (422) before `lead_form_data` runs; any non-empty name is taken as given.
- The file check looks only at the filename's suffix and the size the framework reports for the upload, which the code itself treats as approximate. It does not look at the content type.
- On a failed insert, the uploaded object is left in the store. Nothing removes it.

## Model

| member | source | states |
|---|---|---|
| Uuids.Text | backend/app/services/lead_service.py:47 | `str(uuid)` is 36 characters: dashes at positions 8, 13, 18 and 23, and no dot anywhere |
| Uuids.ParseText | backend/app/services/lead_service.py:72 | the text form of an id loses nothing: dropping the dashes gives the UUID back |
| Uuids.TextInjective | backend/app/services/auth_service.py:49 | distinct UUIDs have distinct texts, so `str(lead.id)` and `sub` identify their owner |
| LeadModel.ParseState | backend/app/core/enums.py:7-10 | only "PENDING" and "REACHED_OUT" name a state; a parsed state's name is the input text; any other text names none |
| LeadModel.ParseStateName | backend/app/core/enums.py:9-10 | each state's string value parses back to that state |
| LeadModel.Insert | backend/app/models/lead.py:17-29 | an inserted row gets the given fresh id; `created_at` and `updated_at` get one clock reading each, since each column has its own default callable; a missing state becomes PENDING; the four required text columns are copied |
| ObjectStorage.ObjectStore.FileUrl | backend/app/utils/minio_storage.py:73-85 | an object's URL is `<protocol>://<endpoint>/<bucket>/` followed by exactly the object name |
| ObjectStorage.ObjectStore.FileUrlInjective | backend/app/utils/minio_storage.py:85 | distinct object names give distinct URLs |
| ObjectStorage.ObjectStore.UploadFile | backend/app/utils/minio_storage.py:41-71 | a successful upload stores the bytes under the name, records the upload in the model's effect log and returns the object's URL; a refused upload raises and changes nothing |
| Notifier.Mailer.Send | backend/app/services/email_service.py:19-52 | one message is attempted and recorded in the outbox and the effect log; the result is exactly whether SMTP accepted it, and a refusal is not raised |
| Notifier.Mailer.SendProspectConfirmation | backend/app/services/email_service.py:54-82 | one confirmation to the prospect's address, with the first name and the subject "Thank you for your submission", is attempted and recorded; the result is exactly whether SMTP accepted it |
| Notifier.Mailer.SendAttorneyNotification | backend/app/services/email_service.py:84-116 | one notification to the given address, carrying both names, the prospect's email and the lead id, under the subject "New Lead Submission: <first> <last>", is attempted and recorded; the result is whether SMTP accepted it |
| LeadStore.MatchingIds | backend/app/repositories/lead_repository.py:47-50 | an id is selected exactly when its row is in the table and either no state filter is given or the row has that state |
| LeadStore.Window | backend/app/repositories/lead_repository.py:53 | OFFSET/LIMIT: the page has min(limit, max(0, n - skip)) rows, and row k of the page is row skip + k of the ordered rows |
| LeadStore.ListingCount | backend/app/repositories/lead_repository.py:52-53 | an ordered listing holds exactly as many rows as the filter selects |
| LeadStore.ListingMatches | backend/app/repositories/lead_repository.py:49-53 | every row of an ordered listing has the filtered state |
| LeadStore.NewestExists | backend/app/repositories/lead_repository.py:53 | every non-empty set of rows has a newest row, so ORDER BY created_at DESC can always take one next |
| LeadStore.LeadRepository.Create | backend/app/repositories/lead_repository.py:20-29 | succeeds exactly when the id is new and the commit and refresh go through; then the row is the draft with its defaults and the two clock readings. Whenever the id is new and the commit was not refused, the row is in the table and `GetById` finds it, even when the refresh then raises. On a duplicate id or a refused commit it raises, and the table and log are unchanged |
| LeadStore.LeadRepository.GetById | backend/app/repositories/lead_repository.py:31-33 | None exactly when no row has the id; otherwise the stored row, whose id is the argument |
| LeadStore.LeadRepository.GetAll | backend/app/repositories/lead_repository.py:35-55 | `total` is the count of filtered rows and does not depend on skip or limit; the page is the OFFSET/LIMIT window of the filtered rows ordered newest first, with ties in any order; every returned row is stored and has the filtered state; the page has min(limit, max(0, total - skip)) rows and is newest first |
| LeadStore.LeadRepository.OrderByNewest | backend/app/repositories/lead_repository.py:53 | lists each filtered row exactly once, newest first |
| LeadStore.LeadRepository.UpdateState | backend/app/repositories/lead_repository.py:57-69 | an unknown id gives None and changes nothing; otherwise exactly the given state and a fresh `updated_at` are written, whatever the current state. A refused commit raises and changes nothing; a failed refresh raises with the new state stored |
| LeadStore.WithState | backend/app/repositories/lead_repository.py:60-62 | the table after an update has the same ids; the updated row has the given state and `updated_at`; every other row is unchanged |
| LeadStore.WithStateFrame | backend/app/repositories/lead_repository.py:60-62 | an update changes one row and only its state and `updated_at`; ids, names, email, resume URL, `created_at` and all other rows stay as they were |
| LeadStore.WithStateTwice | backend/app/repositories/lead_repository.py:60-62 | writing the same state twice equals writing it once at the later time: the state is that value and only `updated_at` moved |
| LeadStore.WithStateFilters | backend/app/repositories/lead_repository.py:49-62 | after an update, the row is counted under the target state and not under the other state, and the unfiltered count is unchanged |
| LeadStore.PagesOfFifteen | backend/tests/unit/test_services/test_lead_service.py:153-178 | with 15 matching leads and pages of 10, the first page has 10 rows and the second has 5 |
| Intake.Extension | backend/app/services/lead_service.py:46 | `split(".")[-1]` is the longest dot-free suffix of the filename: the text after the last dot, or the whole name when there is no dot |
| Intake.ExtensionAfterDot | backend/app/services/lead_service.py:46-47 | for any prefix, the extension of prefix + "." + a dot-free text is that text |
| Intake.StorageKey | backend/app/services/lead_service.py:46-47 | the storage key is 36 characters of UUID text, a dot, and then the filename's extension, and it has the same extension as the uploaded filename |
| Intake.StorageKeysDistinct | backend/app/services/lead_service.py:47 | the key begins with the UUID's text, so keys drawn with distinct UUIDs never collide |
| Intake.DotlessExtension | backend/app/services/lead_service.py:46 | a filename without a dot is its own extension |
| Intake.LeadService.Notify | backend/app/services/lead_service.py:62-73 | the prospect confirmation and then the attorney notification are attempted, in that order, whatever SMTP answers |
| Intake.LeadService.CreateLead | backend/app/services/lead_service.py:28-75 | the effects are upload, insert, prospect mail, attorney mail, in that order; a failed upload has no effect; a failed insert leaves the uploaded object and sends nothing, and it also leaves the row stored when only the refresh after the commit failed; on success the lead is the submitted names and email with the returned URL, state PENDING, the drawn id and the two insert-time clock readings, and it is stored; each mail goes out exactly once, the attorney one to the configured address with the id's text; the lead is returned whatever SMTP answered |
| Intake.LeadService.GetLead | backend/app/services/lead_service.py:77-79 | None exactly when the id is unknown, otherwise the stored lead |
| Intake.LeadService.GetAllLeads | backend/app/services/lead_service.py:81-88 | the repository's count and newest-first page, with the same defaults |
| Intake.LeadService.UpdateLeadState | backend/app/services/lead_service.py:90-92 | the repository's update: None for an unknown id, otherwise exactly the requested state is written; a refused commit changes nothing and a failed refresh raises with the state stored |
| LeadsApi.ValidateResumeFile | backend/app/api/v1/leads.py:58-72 | a file passes exactly when its lower-cased name ends in .pdf, .doc or .docx and its size is unknown or at most 10485760; a bad type gives 400 whatever the size; a good type that is too large gives 413 |
| LeadsApi.UpperCaseExtensionPasses | backend/app/api/v1/leads.py:61 | `resume.PDF` passes when its size is within the limit |
| LeadsApi.SizeBoundary | backend/app/api/v1/leads.py:68-72 | a file of exactly the maximum size passes; one byte more gives 413 |
| LeadsApi.TypeCheckedBeforeSize | backend/app/api/v1/leads.py:61-72 | a 15 MiB `resume.exe` gets the 400 file-type error, not 413 |
| LeadsApi.LeadFormData | backend/app/api/v1/leads.py:23-54 | the form is accepted exactly when the email validates; the names are taken as given and the email as the validator returned it; otherwise 422 with the validator's errors |
| LeadsApi.MissingFormFields | backend/app/api/v1/leads.py:23-26 | a required form field is reported missing exactly when its value is empty |
| LeadsApi.CheckSubmission | backend/app/api/v1/leads.py:75-98 | a submission is admitted exactly when all form fields are non-empty, the email validates and the file passes; missing fields are refused first with 422, then an invalid email with 422, then the file with 400 or 413 |
| LeadsApi.CreateLead | backend/app/api/v1/leads.py:75-105 | only an admitted submission reaches the service, and a refused one changes no table, object, outbox or log; a service exception gives 500 with the outbox unchanged, with the resume stored exactly when the upload went through, and with the row stored exactly when only the refresh after the commit failed; a created lead is PENDING, has the submitted names and validated email, carries the stored object's URL and can be read back; the resume is stored under its key; both mails are in the outbox; the effects are upload, insert and the two mails, in order |
| LeadsApi.GetLeads | backend/app/api/v1/leads.py:108-135 | a refused token gives the guard's error; a state text that names no state gives 422; otherwise the service's total and page are returned unchanged, with skip 0 and limit 100 by default |
| LeadsApi.GetLead | backend/app/api/v1/leads.py:138-167 | for an admitted request, 404 "Lead not found" is returned exactly when the id is unknown, and the stored lead is returned exactly when it is known |
| LeadsApi.UpdateLeadState | backend/app/api/v1/leads.py:170-201 | an unknown state text gives 422; 404 is returned exactly when the lead is unknown; any named state is written, with the new `updated_at`, and the log records it; a refused commit or a failed refresh gives 500; a failed refresh leaves the new state stored; every other failure leaves the table and log unchanged |
| Users.FirstWhere | backend/app/repositories/user_repository.py:18-24 | `.first()`: None exactly when no row matches; otherwise a matching row with no matching row before it |
| Users.UserRepository.GetById | backend/app/repositories/user_repository.py:18-20 | a stored user with that id, or None exactly when there is none |
| Users.UserRepository.GetByEmail | backend/app/repositories/user_repository.py:22-24 | a stored user with that email, or None exactly when there is none |
| Users.UserRepository.Create | backend/app/repositories/user_repository.py:26-35 | succeeds exactly when the commit and refresh go through and neither the id nor the email is taken. Whenever no key clashes and the commit was not refused, the user is appended and found by both lookups, even when the refresh then raises. A clash or a refused commit raises and leaves the table unchanged |
| Users.UserRepository.EmailsIdentify | backend/app/models/user.py:17 | emails are unique, so looking up a stored user's email or id finds that very user |
| Auth.AuthenticateUser | backend/app/services/auth_service.py:20-36 | a returned user is stored, has the given email, and its hash verifies the password; None exactly when no user with that email verifies the password; the user table is only read |
| Auth.UnknownEmailRefused | backend/app/services/auth_service.py:31-33 | an email no user has is refused whatever the password |
| Auth.TokenClaims | backend/app/services/auth_service.py:48-52 | the token payload has exactly the keys `sub` and `email`: `sub` is the text of the user's id, `email` the user's email |
| Auth.ClaimsIdentifyUser | backend/app/services/auth_service.py:48-51 | equal claims mean the same user id |
| Auth.CreateTokenForUser | backend/app/services/auth_service.py:38-52 | the token is the signature, at the issue time, of a payload holding exactly `sub`, the user's id text, and `email`, the user's email |
| Auth.TokensIdentifyUser | backend/app/services/auth_service.py:48-52 | tokens issued at the same instant to users with the same id and email are equal; when the payload can be recovered from a token, users with different ids get different tokens, whenever each is issued |
| AuthApi.Login | backend/app/api/v1/auth.py:14-44 | the result is a success exactly when some stored user with that email verifies the password, and then it is the claims of that user, signed at the issue time, with type "bearer"; otherwise 401 "Incorrect email or password" with `WWW-Authenticate: Bearer` |
| AuthApi.UniformRejection | backend/app/api/v1/auth.py:35-40 | an unknown email and a wrong password get identical answers |
| Workflow.SubmitAndRead | backend/tests/integration/test_api.py:464-497 | submitting to an empty table stores exactly one PENDING lead; the protected list counts at least one lead, and the protected read returns the lead with the submitted email |
| Workflow.ReachOutAndVerify | backend/tests/integration/test_api.py:498-511 | the update to REACHED_OUT succeeds and returns the lead in that state, and the protected read that follows returns the stored lead in that state |

## Left out

- Asynchrony and concurrency. The `await`s run one after another. Two requests racing on the same lead (last writer wins) are not modelled.
- Calendar time. Datetimes are natural-number clock readings, one passed in for each call of `datetime.now`. The insert's two default callables are two readings; the model does not relate them to each other.
- The MinIO client. Left out: lazy bucket creation (`ensure_bucket_exists`), `delete_file`, measuring the upload by seeking, and the console messages it prints. Whether a put succeeds is a parameter.
- SMTP and message bodies. Building and sending a message is left out; only the recipient, the fields used and the subject line are modelled. The console line printed after each attempt is left out; the effect log records the same outcome. Whether SMTP accepts a message is a parameter.
- Opaque helpers, which appear as parameters:
  - the email-address validator (`EmailStr`);
  - password hashing and `verify_password`;
  - JWT signing and its 24-hour expiry, as a function of the claims and the issue time;
  - the bearer-token dependency `get_current_user` (it appears as a `Guard`).
- Framework request validation, other than the `state` value and the required form fields (an empty form value counts as missing). A missing file, `filename` being None and a malformed UUID in the path each produce FastAPI's own 422 or 500. The 422 body's exact shape is reduced to the list of field names. Ids reach the model as well-formed UUIDs.
- Response serialisation. `LeadResponse.model_validate` copies the row's fields, so endpoints return the `Lead` itself.
- Uuids.Text: any 32 hex digits are a UUID. The version and variant bits that `uuid4` fixes are not constrained.
- LeadsApi.ValidateResumeFile: lower-cases ASCII letters only. Python's `str.lower` also maps other letters, but no non-ASCII letter lower-cases into "pdf", "doc" or "docx".
- LeadStore.LeadRepository.GetAll: `skip` and `limit` are natural numbers. A negative query value is passed to the database unchecked, and what happens then depends on the database engine.
- Intake.LeadService.GetAllLeads: the same restriction to natural `skip` and `limit`.
- LeadsApi.GetLeads: the same restriction to natural `skip` and `limit`.
- The `/` and `/health` endpoints, CORS and application wiring (`main.py`), the Alembic migrations and seed script, the e2e command-line client, and the settings other than the two upload constants, `ATTORNEY_EMAIL` and the three MinIO settings (`MINIO_SECURE`, `MINIO_ENDPOINT`, `MINIO_BUCKET`) that `ObjectStore` holds as constants.
