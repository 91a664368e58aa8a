/**
 * The `leads` table row and the lead lifecycle enumeration.
 * Timestamps are readings of a clock (`Time`), supplied by the caller
 * wherever the Python code calls `datetime.now`; each call is its own reading.
 */
module LeadModel {
  import opened Wrappers
  import opened Uuids

  type Time = nat

  /** The two states of a lead; a lead's state column is never null. */
  datatype LeadState = Pending | ReachedOut

  /** The enumeration's string values, as stored and as sent over HTTP. */
  function StateName(s: LeadState): string {
    match s
    case Pending => "PENDING"
    case ReachedOut => "REACHED_OUT"
  }

  /** Reads a state value from text; any other text is not a state. */
  function ParseState(text: string): (r: Option<LeadState>)
    ensures r.Some? ==> StateName(r.value) == text
    ensures r.None? ==> forall s: LeadState :: StateName(s) != text
  {
    if text == "PENDING" then Some(Pending)
    else if text == "REACHED_OUT" then Some(ReachedOut)
    else None
  }

  lemma ParseStateName(s: LeadState)
    ensures ParseState(StateName(s)) == Some(s)
  {
  }

  /** A stored lead. Every column is non-null; the state has one of two values. */
  datatype Lead = Lead(
    id: Uuid,
    firstName: string,
    lastName: string,
    email: string,
    resumeUrl: string,
    state: LeadState,
    createdAt: Time,
    updatedAt: Time)

  /** A `Lead(...)` object before it is flushed: no id and no timestamps yet, state optional. */
  datatype LeadDraft = LeadDraft(
    firstName: string,
    lastName: string,
    email: string,
    resumeUrl: string,
    state: Option<LeadState>)

  /**
   * The row the insert writes: the column defaults fill in what the draft leaves out,
   * a fresh `id`, PENDING for a missing state, and one clock reading per timestamp
   * column, since each column has its own default callable.
   */
  function Insert(draft: LeadDraft, id: Uuid, createdAt: Time, updatedAt: Time): (l: Lead)
    ensures l.id == id && l.createdAt == createdAt && l.updatedAt == updatedAt
    ensures l.state == (if draft.state.Some? then draft.state.value else Pending)
    ensures l.firstName == draft.firstName && l.lastName == draft.lastName
    ensures l.email == draft.email && l.resumeUrl == draft.resumeUrl
  {
    Lead(id, draft.firstName, draft.lastName, draft.email, draft.resumeUrl,
         draft.state.GetOr(Pending), createdAt, updatedAt)
  }
}
