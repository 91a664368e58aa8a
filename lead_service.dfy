/**
 * `LeadService`: intake of a new lead (upload the resume, insert the lead, send two
 * notifications, in that order) and the delegating reads and state update.
 * What the outside world decides is passed in as `IntakeOutcomes`.
 */
module Intake {
  import opened Wrappers
  import opened Uuids
  import opened LeadModel
  import opened Effects
  import opened ObjectStorage
  import opened Notifier
  import opened LeadStore
  import opened Database

  /** A validated submission: names as given, the email as the validator returned it. */
  datatype LeadCreate = LeadCreate(firstName: string, lastName: string, email: string)

  /**
   * `filename.split(".")[-1]`: the text after the last dot, or the whole name when it
   * has no dot. It is the longest dot-free suffix of the name.
   */
  function Extension(name: string): (ext: string)
    ensures forall i | 0 <= i < |ext| :: ext[i] != '.'
    ensures |ext| <= |name| && name[|name| - |ext|..] == ext
    ensures |ext| == |name| || name[|name| - |ext| - 1] == '.'
  {
    if name == [] then ""
    else if name[|name| - 1] == '.' then ""
    else Extension(name[..|name| - 1]) + [name[|name| - 1]]
  }

  /**
   * The object name of a stored resume, `<uuid>.<extension>`: the UUID's text, a dot,
   * and the uploaded filename's extension, which the key keeps as its own.
   */
  function StorageKey(u: Uuid, filename: string): (key: string)
    ensures |key| == 37 + |Extension(filename)|
    ensures key[..36] == Text(u) && key[36] == '.'
    ensures Extension(key) == Extension(filename)
  {
    ExtensionAfterDot(Text(u), Extension(filename));
    Text(u) + "." + Extension(filename)
  }

  /** What follows the last dot is recovered whatever precedes it. */
  lemma {:induction false} ExtensionAfterDot(prefix: string, ext: string)
    requires forall i | 0 <= i < |ext| :: ext[i] != '.'
    ensures Extension(prefix + "." + ext) == ext
  {
    var name := prefix + "." + ext;
    if ext == [] {
      assert name[|name| - 1] == '.';
    } else {
      var init := ext[..|ext| - 1];
      assert name[..|name| - 1] == prefix + "." + init;
      ExtensionAfterDot(prefix, init);
      assert ext == init + [ext[|ext| - 1]];
    }
  }

  /** The key starts with the UUID's text, so distinct UUIDs never share a key. */
  lemma StorageKeysDistinct(u: Uuid, v: Uuid, f: string, g: string)
    ensures u != v ==> StorageKey(u, f) != StorageKey(v, g)
  {
    TextInjective(u, v);
  }

  /** A dot-less filename is its own extension: `"resume"` gives the key `<uuid>.resume`. */
  lemma DotlessExtension(name: string)
    requires forall i | 0 <= i < |name| :: name[i] != '.'
    ensures Extension(name) == name
  {
  }

  datatype IntakeError = StorageError | PersistenceError(cause: DbError)

  /**
   * What the environment decides during one intake: the two `uuid4()` draws
   * (object name and lead id), the two clock readings the insert takes (one per
   * timestamp default), whether the object store accepts the upload, what the database
   * does with the insert's commit and refresh, and whether SMTP accepts each mail.
   */
  datatype IntakeOutcomes = IntakeOutcomes(
    keyUuid: Uuid,
    leadId: Uuid,
    createdAt: Time,
    updatedAt: Time,
    storageUp: bool,
    commit: CommitOutcome,
    prospectAccepted: bool,
    attorneyAccepted: bool)

  /**
   * Whether a submission's lead row ends up in the table `t`: the upload went through,
   * the id is new, and the commit was not refused (even if the refresh after it failed).
   */
  predicate LeadStored(env: IntakeOutcomes, t: Table) {
    env.storageUp && env.leadId !in t && Persisted(env.commit)
  }

  /** The row `create_lead` asks the repository to insert. */
  function NewLeadDraft(data: LeadCreate, resumeUrl: string): LeadDraft {
    LeadDraft(data.firstName, data.lastName, data.email, resumeUrl, Some(Pending))
  }

  class LeadService {
    const repo: LeadRepository
    const storage: ObjectStore
    const mailer: Mailer
    const log: EffectLog
    /** `settings.ATTORNEY_EMAIL`. */
    const attorneyEmail: string

    ghost predicate Valid()
      reads this, repo
    {
      repo.Valid() && repo.log == log && storage.log == log && mailer.log == log
    }

    constructor (repo: LeadRepository, storage: ObjectStore, mailer: Mailer, attorneyEmail: string)
      requires repo.Valid() && storage.log == repo.log && mailer.log == repo.log
      ensures Valid()
      ensures this.repo == repo && this.storage == storage && this.mailer == mailer
      ensures this.attorneyEmail == attorneyEmail
    {
      this.repo, this.storage, this.mailer, this.log := repo, storage, mailer, repo.log;
      this.attorneyEmail := attorneyEmail;
    }

    /** The two messages a new lead triggers. */
    function Notifications(lead: Lead): seq<Email> {
      [ProspectConfirmation(lead.email, lead.firstName),
       AttorneyNotification(attorneyEmail, lead.firstName, lead.lastName, lead.email, Text(lead.id))]
    }

    /** The two sends of `create_lead`, prospect first; their results are ignored. */
    method Notify(lead: Lead, prospectAccepted: bool, attorneyAccepted: bool)
      requires Valid()
      modifies mailer, log
      ensures Valid()
      ensures mailer.outbox == old(mailer.outbox) + Notifications(lead)
      ensures log.events == old(log.events)
                            + [Mailed(Notifications(lead)[0], prospectAccepted), Mailed(Notifications(lead)[1], attorneyAccepted)]
    {
      var _ := mailer.SendProspectConfirmation(lead.email, lead.firstName, prospectAccepted);
      var _ := mailer.SendAttorneyNotification(attorneyEmail, lead.firstName, lead.lastName, lead.email,
                                               Text(lead.id), attorneyAccepted);
    }

    /** The object URL of the resume a submission stores. */
    function ResumeUrl(filename: string, env: IntakeOutcomes): string {
      storage.FileUrl(StorageKey(env.keyUuid, filename))
    }

    /** The lead a submission inserts when every step goes through. */
    function NewLead(data: LeadCreate, filename: string, env: IntakeOutcomes): Lead {
      Insert(NewLeadDraft(data, ResumeUrl(filename, env)), env.leadId, env.createdAt, env.updatedAt)
    }

    /**
     * `create_lead`. Upload, insert, prospect mail, attorney mail, strictly in that
     * order. A failed upload has no effect at all; a failed insert leaves the uploaded
     * object behind and sends nothing, and when it was the refresh after the commit that
     * failed, the row stays stored; once the lead is inserted and re-read it is returned
     * whatever the mail server says.
     */
    method CreateLead(data: LeadCreate, file: Blob, filename: string, env: IntakeOutcomes)
      returns (r: Result<Lead, IntakeError>)
      requires Valid()
      modifies repo, storage, mailer, log
      ensures Valid()
      ensures r.Success? <==> env.storageUp && env.commit == Committed && env.leadId !in old(repo.table)
      ensures !env.storageUp ==> r == Failure(StorageError)
      ensures !env.storageUp ==> storage.objects == old(storage.objects) && log.events == old(log.events)
      ensures env.storageUp ==> storage.objects == old(storage.objects)[StorageKey(env.keyUuid, filename) := file]
      ensures env.storageUp && r.Failure? ==> r.error.PersistenceError?
      ensures LeadStored(env, old(repo.table)) ==> repo.table == old(repo.table)[env.leadId := NewLead(data, filename, env)]
      ensures !LeadStored(env, old(repo.table)) ==> repo.table == old(repo.table)
      ensures env.storageUp && r.Failure? && LeadStored(env, old(repo.table)) ==>
                log.events == old(log.events)
                  + [Uploaded(StorageKey(env.keyUuid, filename), ResumeUrl(filename, env)),
                     Inserted(NewLead(data, filename, env))]
      ensures env.storageUp && !LeadStored(env, old(repo.table)) ==>
                log.events == old(log.events) + [Uploaded(StorageKey(env.keyUuid, filename), ResumeUrl(filename, env))]
      ensures r.Failure? ==> mailer.outbox == old(mailer.outbox)
      ensures r.Success? ==> r.value == NewLead(data, filename, env)
      ensures r.Success? ==> repo.table == old(repo.table)[env.leadId := r.value]
      ensures r.Success? ==> mailer.outbox == old(mailer.outbox) + Notifications(r.value)
      ensures r.Success? ==>
                log.events == old(log.events)
                  + [Uploaded(StorageKey(env.keyUuid, filename), ResumeUrl(filename, env)), Inserted(r.value),
                     Mailed(Notifications(r.value)[0], env.prospectAccepted),
                     Mailed(Notifications(r.value)[1], env.attorneyAccepted)]
    {
      var key := StorageKey(env.keyUuid, filename);
      var uploaded := storage.UploadFile(file, key, env.storageUp);
      if uploaded.Failure? {
        return Failure(StorageError);
      }
      ghost var uploadedEvents := old(log.events) + [Uploaded(key, ResumeUrl(filename, env))];
      assert log.events == uploadedEvents;
      var stored := repo.Create(NewLeadDraft(data, uploaded.value), env.leadId, env.createdAt, env.updatedAt,
                                env.commit);
      if stored.Failure? {
        return Failure(PersistenceError(stored.error));
      }
      var lead := stored.value;
      assert lead == NewLead(data, filename, env);
      assert log.events == uploadedEvents + [Inserted(lead)];
      Notify(lead, env.prospectAccepted, env.attorneyAccepted);
      AppendInOrder(old(log.events), Uploaded(key, ResumeUrl(filename, env)), Inserted(lead),
                    Mailed(Notifications(lead)[0], env.prospectAccepted),
                    Mailed(Notifications(lead)[1], env.attorneyAccepted));
      r := Success(lead);
    }

    /** `get_lead`: the repository's lookup. */
    function GetLead(id: Uuid): (r: Option<Lead>)
      reads this, repo
      requires Valid()
      ensures r.None? <==> id !in repo.table
      ensures r.Some? ==> r.value.id == id && r.value == repo.table[id]
    {
      repo.GetById(id)
    }

    /** `get_all_leads`: the repository's filtered count and page. */
    method GetAllLeads(skip: nat := 0, limit: nat := 100, state: Option<LeadState> := None)
      returns (leads: seq<Lead>, total: nat, ghost ordered: seq<Lead>)
      requires Valid()
      ensures total == |MatchingIds(repo.table, state)|
      ensures IsListing(repo.table, state, ordered) && leads == Window(ordered, skip, limit)
    {
      leads, total, ordered := repo.GetAll(skip, limit, state);
    }

    /** `update_lead_state`: the repository's update, no check on the current state. */
    method UpdateLeadState(id: Uuid, state: LeadState, now: Time, commit: CommitOutcome)
      returns (r: Result<Option<Lead>, DbError>)
      requires Valid()
      modifies repo, log
      ensures Valid()
      ensures id !in old(repo.table) ==> r == Success(None)
      ensures id in old(repo.table) && commit == Committed ==>
                r == Success(Some(old(repo.table)[id].(state := state, updatedAt := now)))
      ensures id in old(repo.table) && commit == CommitRefused ==> r == Failure(CommitFailed)
      ensures id in old(repo.table) && commit == RefreshFailed ==> r == Failure(RefreshError)
      ensures id in old(repo.table) && Persisted(commit) ==>
                && repo.table == WithState(old(repo.table), id, state, now)
                && log.events == old(log.events) + [StateWritten(old(repo.table)[id].(state := state, updatedAt := now))]
      ensures !(id in old(repo.table) && Persisted(commit)) ==>
                repo.table == old(repo.table) && log.events == old(log.events)
    {
      r := repo.UpdateState(id, state, now, commit);
    }
  }
}
