/** `UpdateStatusModal`: the dialog that changes an incident's status and priority. */
module UpdateStatusModal {
  import opened Wrappers
  import opened Toasts
  import Incidents

  /** `IncidentStatus`'s string values. */
  function StatusValue(st: Incidents.IncidentStatus): string
  {
    if st.Reported? then "REPORTED"
    else if st.InProgress? then "IN_PROGRESS"
    else if st.Resolved? then "RESOLVED"
    else "CLOSED"
  }

  /** `IncidentPriority`'s string values. */
  function PriorityValue(p: Incidents.IncidentPriority): string
  {
    match p
    case Low => "LOW"
    case Medium => "MEDIUM"
    case High => "HIGH"
    case Critical => "CRITICAL"
  }

  /** The status a selected option value stands for. */
  function ParseStatus(v: string): (r: Option<Incidents.IncidentStatus>)
    ensures r.Some? ==> StatusValue(r.value) == v
  {
    if v == "REPORTED" then Some(Incidents.Reported)
    else if v == "IN_PROGRESS" then Some(Incidents.InProgress)
    else if v == "RESOLVED" then Some(Incidents.Resolved)
    else if v == "CLOSED" then Some(Incidents.Closed)
    else None
  }

  /** The priority a selected option value stands for. */
  function ParsePriority(v: string): (r: Option<Incidents.IncidentPriority>)
    ensures r.Some? ==> PriorityValue(r.value) == v
  {
    if v == "LOW" then Some(Incidents.Low)
    else if v == "MEDIUM" then Some(Incidents.Medium)
    else if v == "HIGH" then Some(Incidents.High)
    else if v == "CRITICAL" then Some(Incidents.Critical)
    else None
  }

  /** Selecting an option submits exactly the value it was built from. */
  lemma OptionValuesRoundTrip(st: Incidents.IncidentStatus, p: Incidents.IncidentPriority)
    ensures ParseStatus(StatusValue(st)) == Some(st)
    ensures ParsePriority(PriorityValue(p)) == Some(p)
  {
  }

  /** A select option: its value and its label text. */
  datatype SelectOption = SelectOption(value: string, text: string)

  /** `Object.values(IncidentStatus).map(s => ({ value: s, label: s }))`: every status once, in
      declaration order, labelled with its own value. */
  function StatusOptions(): (opts: seq<SelectOption>)
    ensures |opts| == 4
    ensures forall i :: 0 <= i < |opts| ==> opts[i].text == opts[i].value && ParseStatus(opts[i].value).Some?
  {
    [SelectOption("REPORTED", "REPORTED"), SelectOption("IN_PROGRESS", "IN_PROGRESS"),
     SelectOption("RESOLVED", "RESOLVED"), SelectOption("CLOSED", "CLOSED")]
  }

  /** Every status is offered. */
  lemma StatusOptionsComplete(st: Incidents.IncidentStatus)
    ensures SelectOption(StatusValue(st), StatusValue(st)) in StatusOptions()
  {
    var opts := StatusOptions();
    if st.Reported? { assert opts[0] == SelectOption("REPORTED", "REPORTED"); }
    else if st.InProgress? { assert opts[1] == SelectOption("IN_PROGRESS", "IN_PROGRESS"); }
    else if st.Resolved? { assert opts[2] == SelectOption("RESOLVED", "RESOLVED"); }
    else { assert opts[3] == SelectOption("CLOSED", "CLOSED"); }
  }

  /** The same for `IncidentPriority`. */
  function PriorityOptions(): (opts: seq<SelectOption>)
    ensures |opts| == 4
    ensures forall i :: 0 <= i < |opts| ==> opts[i].text == opts[i].value && ParsePriority(opts[i].value).Some?
  {
    [SelectOption("LOW", "LOW"), SelectOption("MEDIUM", "MEDIUM"),
     SelectOption("HIGH", "HIGH"), SelectOption("CRITICAL", "CRITICAL")]
  }

  /** Every priority is offered. */
  lemma PriorityOptionsComplete(p: Incidents.IncidentPriority)
    ensures SelectOption(PriorityValue(p), PriorityValue(p)) in PriorityOptions()
  {
    var opts := PriorityOptions();
    if p.Low? { assert opts[0] == SelectOption("LOW", "LOW"); }
    else if p.Medium? { assert opts[1] == SelectOption("MEDIUM", "MEDIUM"); }
    else if p.High? { assert opts[2] == SelectOption("HIGH", "HIGH"); }
    else { assert opts[3] == SelectOption("CRITICAL", "CRITICAL"); }
  }

  /** The form's two selects. */
  datatype Form = Form(status: Incidents.IncidentStatus, priority: Incidents.IncidentPriority)

  /** The incident effect: a given incident resets the selects to its own status and priority;
      without one the form is left as it is. */
  function OnIncident(incident: Option<Incidents.Incident>, current: Form): (r: Form)
    ensures incident.Some? ==> r.status == incident.value.status && r.priority == incident.value.priority
    ensures incident.None? ==> r == current
  {
    match incident
    case Some(inc) => Form(inc.status, inc.priority)
    case None => current
  }

  /** The `updateIncidentStatus` payload. */
  datatype Request = Request(id: int, status: Incidents.IncidentStatus, priority: Incidents.IncidentPriority)

  /** `onSubmit`: nothing without an incident; otherwise its id with the selected values. */
  function Submit(incident: Option<Incidents.Incident>, f: Form): (r: Option<Request>)
    ensures r.Some? <==> incident.Some?
    ensures r.Some? ==> r.value.id == incident.value.id && r.value.status == f.status
                        && r.value.priority == f.priority
  {
    match incident
    case Some(inc) => Some(Request(inc.id, f.status, f.priority))
    case None => None
  }

  /** Saving the dialog untouched asks for the incident's current status and priority. */
  lemma UntouchedSubmitKeepsIncident(inc: Incidents.Incident, current: Form)
    ensures Submit(Some(inc), OnIncident(Some(inc), current)) == Some(Request(inc.id, inc.status, inc.priority))
  {
  }

  /** After the request settles: the success message and a closed dialog, or the rejection's
      message with the dialog left open. */
  function UpdateSettled(outcome: Settled): (r: (Toast, bool))
    ensures r.1 <==> outcome.Resolved?
    ensures outcome.Resolved? ==> r.0 == Success("Cập nhật sự cố thành công!")
    ensures outcome.Rejected? ==> r.0 == Failure(outcome.reason)
  {
    match outcome
    case Resolved => (Success("Cập nhật sự cố thành công!"), true)
    case Rejected(reason) => (Failure(reason), false)
  }

  /** Nothing is rendered without an incident. */
  predicate Renders(incident: Option<Incidents.Incident>)
  {
    incident.Some?
  }
}
