/**
 * A client of the endpoints, following the complete-workflow integration test:
 * submit a lead, list and read it back, then move it to REACHED_OUT and read the
 * stored state. Only the endpoints' contracts are used.
 */
module Workflow {
  import opened Wrappers
  import opened Uuids
  import opened LeadModel
  import opened LeadStore
  import opened Intake
  import opened Http
  import opened LeadsApi
  import opened Database

  /**
   * Submitting to an empty table stores one PENDING lead; the protected list counts it
   * and the protected read returns it with the submitted email.
   */
  method SubmitAndRead(service: LeadService, validateEmail: string -> Result<string, seq<string>>,
                       resume: UploadFile, env: IntakeOutcomes)
    returns (lead: Lead, listed: nat)
    requires service.Valid() && service.repo.table == map[]
    requires validateEmail("alice.johnson@example.com") == Success("alice.johnson@example.com")
    requires ValidateResumeFile(resume).None?
    requires env.storageUp && env.commit == Committed
    modifies service.repo, service.storage, service.mailer, service.log
    ensures service.Valid()
    ensures lead.state == Pending && lead.email == "alice.johnson@example.com"
    ensures service.repo.table == map[env.leadId := lead]
    ensures listed >= 1
    ensures LeadsApi.GetLead(service, Admitted, lead.id) == Success(lead)
  {
    assert CheckSubmission("Alice", "Johnson", "alice.johnson@example.com", validateEmail, resume).Success?;
    var created := LeadsApi.CreateLead(service, "Alice", "Johnson", "alice.johnson@example.com",
                                       validateEmail, resume, env);
    assert created.Success?;
    lead := created.value;
    var page, _ := LeadsApi.GetLeads(service, Admitted);
    assert MatchingIds(service.repo.table, None) == {lead.id};
    listed := page.value.total;
  }

  /**
   * The test's last two steps: the PATCH to REACHED_OUT succeeds and returns the lead in
   * that state, and the protected read that follows returns the stored lead in that state.
   */
  method ReachOutAndVerify(service: LeadService, leadId: Uuid, now: Time)
    returns (updated: Lead)
    requires service.Valid() && leadId in service.repo.table
    modifies service.repo, service.log
    ensures service.Valid()
    ensures updated.state == ReachedOut && updated.id == leadId
    ensures service.repo.table == old(service.repo.table)[leadId := updated]
    ensures LeadsApi.GetLead(service, Admitted, leadId) == Success(updated)
  {
    var patched := LeadsApi.UpdateLeadState(service, Admitted, leadId, "REACHED_OUT", now, Committed);
    assert patched.Success?;
    updated := patched.value;
  }
}
