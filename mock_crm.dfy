/**
 * mock_crm.py: the in-memory CRM the bot talks to. Leads and visits live in
 * two dictionaries keyed by generated ids; the three endpoints add a lead,
 * add a visit for an existing lead, and change a lead's status.
 *
 * `uuid4()` is an input (`newId`), and a request body is taken after FastAPI
 * has decoded it into its payload model.
 */
module MockCrm {
  import opened Common
  import opened Calendar
  import Nlu

  /** The statuses `^(NEW|IN_PROGRESS|FOLLOW_UP|WON|LOST)$` admits. */
  const AcceptedStatuses: set<string> := {"NEW", "IN_PROGRESS", "FOLLOW_UP", "WON", "LOST"}

  /** The status pattern of the update payload, anchored at both ends. */
  predicate StatusPattern(s: string) {
    s in AcceptedStatuses
  }

  /**
   * The bot's STATUS_OPTIONS and the pattern name the same five statuses, so a
   * status the NLU extracts is never refused with 422.
   */
  lemma NluStatusesAccepted(transcript: string)
    ensures forall s :: StatusPattern(s) <==> s in Nlu.StatusOptions
    ensures var s := Nlu.FirstListed(Nlu.StatusOptions, transcript); s.Some? ==> StatusPattern(s.value)
  {
    Nlu.FirstListedMeans(Nlu.StatusOptions, transcript);
  }

  datatype LeadPayload = LeadPayload(name: string, phone: string, city: string, source: Option<string>)

  datatype VisitPayload = VisitPayload(leadId: string, visitTime: DateTime, notes: Option<string>)

  datatype StatusPayload = StatusPayload(status: string, notes: Option<string>)

  /** A stored lead: the payload's fields, its id, its status and the notes of the last update that had any. */
  datatype Lead = Lead(name: string, phone: string, city: string, source: Option<string>,
                       leadId: string, status: string, notes: Option<string>)

  /** A stored visit: the payload's fields, its id and its status. */
  datatype Visit = Visit(leadId: string, visitTime: DateTime, notes: Option<string>, visitId: string, status: string)

  /** An endpoint's reply: a JSON body, an HTTPException, or FastAPI's 422 for a payload the model refuses. */
  datatype Reply =
    | LeadReply(leadId: string, status: string)
    | VisitReply(visitId: string, status: string)
    | HttpError(code: nat, detail: string)
    | Unprocessable(field: string)

  const NotFound := HttpError(404, "Lead not found")

  /** Notes are recorded only when given and non-empty (`if payload.notes:`). */
  predicate Truthy(notes: Option<string>) {
    notes.Some? && notes.value != ""
  }

  /** LEADS and VISITS. */
  class CrmStore {
    var leads: map<string, Lead>
    var visits: map<string, Visit>

    /**
     * Every record is filed under its own id, every lead has an accepted
     * status, and every visit is SCHEDULED for a lead that exists.
     */
    ghost predicate Valid()
      reads this
    {
      (forall id :: id in leads ==> leads[id].leadId == id && StatusPattern(leads[id].status))
      && (forall id :: id in visits ==>
            visits[id].visitId == id && visits[id].leadId in leads && visits[id].status == "SCHEDULED")
    }

    constructor()
      ensures Valid()
      ensures leads == map[] && visits == map[]
    {
      leads := map[];
      visits := map[];
    }

    /** create_lead: files the lead under a fresh id with status NEW. */
    method CreateLead(payload: LeadPayload, newId: string) returns (reply: Reply)
      requires Valid()
      modifies this
      ensures Valid()
      ensures reply == LeadReply(newId, "NEW")
      ensures leads == old(leads)[newId := Lead(payload.name, payload.phone, payload.city, payload.source, newId, "NEW", None)]
      ensures visits == old(visits)
    {
      leads := leads[newId := Lead(payload.name, payload.phone, payload.city, payload.source, newId, "NEW", None)];
      reply := LeadReply(newId, "NEW");
    }

    /** create_visit: 404 for an unknown lead; otherwise files a SCHEDULED visit under a fresh id. */
    method CreateVisit(payload: VisitPayload, newId: string) returns (reply: Reply)
      requires Valid()
      modifies this
      ensures Valid()
      ensures leads == old(leads)
      ensures payload.leadId !in old(leads) ==> reply == NotFound && visits == old(visits)
      ensures payload.leadId in old(leads) ==>
        reply == VisitReply(newId, "SCHEDULED")
        && visits == old(visits)[newId := Visit(payload.leadId, payload.visitTime, payload.notes, newId, "SCHEDULED")]
    {
      if payload.leadId !in leads {
        return NotFound;
      }
      visits := visits[newId := Visit(payload.leadId, payload.visitTime, payload.notes, newId, "SCHEDULED")];
      reply := VisitReply(newId, "SCHEDULED");
    }

    /**
     * update_lead_status: a status outside the pattern is refused (422) before
     * the lead is looked up; an unknown lead is a 404; otherwise the status is
     * replaced, and the notes too when non-empty ones are given.
     */
    method UpdateLeadStatus(leadId: string, payload: StatusPayload) returns (reply: Reply)
      requires Valid()
      modifies this
      ensures Valid()
      ensures visits == old(visits)
      ensures leads.Keys == old(leads).Keys
      ensures !StatusPattern(payload.status) ==> reply == Unprocessable("status") && leads == old(leads)
      ensures StatusPattern(payload.status) && leadId !in old(leads) ==> reply == NotFound && leads == old(leads)
      ensures StatusPattern(payload.status) && leadId in old(leads) ==>
        reply == LeadReply(leadId, payload.status)
        && leads == old(leads)[leadId := old(leads)[leadId].(
             status := payload.status,
             notes := if Truthy(payload.notes) then payload.notes else old(leads)[leadId].notes)]
    {
      if !StatusPattern(payload.status) {
        return Unprocessable("status");
      }
      if leadId !in leads {
        return NotFound;
      }
      var lead := leads[leadId].(status := payload.status);
      if Truthy(payload.notes) {
        lead := lead.(notes := payload.notes);
      }
      leads := leads[leadId := lead];
      reply := LeadReply(leadId, payload.status);
    }
  }
}
