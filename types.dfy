/**
  The record types every other module uses: chat messages, equipment,
  inspections and search hits. String-literal unions of the source become
  enumerations with their label functions; optional fields become `Option`.
 */
module Types {

  datatype Option<T> = None | Some(value: T) {
    predicate IsFailure() { None? }

    function PropagateFailure<U>(): Option<U>
      requires None?
    {
      None
    }

    function Extract(): T
      requires Some?
    {
      value
    }
  }

  /** The roles a chat message can have, with their wire values. */
  datatype MessageRole = User | Model | System

  function RoleValue(role: MessageRole): string
  {
    match role
    case User => "user"
    case Model => "model"
    case System => "system"
  }

  /**
    The inverse of `RoleValue`. The application never parses roles; this
    left inverse is how the model shows that the three wire values are
    distinct, so a message's role can be told from its text form.
   */
  function ParseRole(s: string): (r: Option<MessageRole>)
    ensures r.Some? ==> RoleValue(r.value) == s
    ensures r.None? ==> s != "user" && s != "model" && s != "system"
  {
    if s == "user" then Some(User)
    else if s == "model" then Some(Model)
    else if s == "system" then Some(System)
    else None
  }

  /** Every role has its own wire value, and it reads back as that role: `RoleValue` is injective. */
  lemma RoleValueRoundTrip(role: MessageRole)
    ensures ParseRole(RoleValue(role)) == Some(role)
  {
    match role
    case User =>
    case Model =>
    case System =>
  }

  /** A chat message; `isThinking` is optional. The `Date` timestamp is not modelled. */
  datatype Message = Message(id: string, role: MessageRole, content: string, isThinking: Option<bool>)

  datatype Severity = Low | Medium | High | Critical

  function SeverityLabel(s: Severity): string
  {
    match s
    case Low => "Low"
    case Medium => "Medium"
    case High => "High"
    case Critical => "Critical"
  }

  /**
    The inverse of `SeverityLabel`; anything else is rejected. Severities
    are only written (search hits, the SQL dump, the PDF), never parsed;
    this shows the four labels are distinct.
   */
  function ParseSeverity(s: string): (r: Option<Severity>)
    ensures r.Some? ==> SeverityLabel(r.value) == s
    ensures r.None? <==> s !in ["Low", "Medium", "High", "Critical"]
  {
    if s == "Low" then Some(Low)
    else if s == "Medium" then Some(Medium)
    else if s == "High" then Some(High)
    else if s == "Critical" then Some(Critical)
    else None
  }

  /** Each severity reads back from its label: `SeverityLabel` is injective. */
  lemma SeverityLabelRoundTrip(s: Severity)
    ensures ParseSeverity(SeverityLabel(s)) == Some(s)
  {
    match s
    case Low =>
    case Medium =>
    case High =>
    case Critical =>
  }

  datatype Status = Open | Closed | InProgress

  function StatusLabel(s: Status): string
  {
    match s
    case Open => "Open"
    case Closed => "Closed"
    case InProgress => "In Progress"
  }

  /**
    The inverse of `StatusLabel`; anything else is rejected. Statuses are
    only written, never parsed; this shows the three labels are distinct.
   */
  function ParseStatus(s: string): (r: Option<Status>)
    ensures r.Some? ==> StatusLabel(r.value) == s
    ensures r.None? <==> s !in ["Open", "Closed", "In Progress"]
  {
    if s == "Open" then Some(Open)
    else if s == "Closed" then Some(Closed)
    else if s == "In Progress" then Some(InProgress)
    else None
  }

  /** Each status reads back from its label: `StatusLabel` is injective. */
  lemma StatusLabelRoundTrip(s: Status)
    ensures ParseStatus(StatusLabel(s)) == Some(s)
  {
    match s
    case Open =>
    case Closed =>
    case InProgress =>
  }

  /** The optional failure classification of an inspection ('Critical' | 'Normal'). */
  datatype FailureType = CriticalFailure | NormalFailure

  datatype Inspection = Inspection(
    id: string,
    date: string,
    inspector: string,
    findings: string,
    recommendations: string,
    severity: Severity,
    reportUrl: string,
    status: Status,
    failureType: Option<FailureType>)

  /** A value of the optional per-type spec sheet (`string | number`; numbers as integers). */
  datatype SpecValue = SpecText(text: string) | SpecNumber(number: int)

  /** An equipment record; `kind` is the source's `type` field. */
  datatype Equipment = Equipment(
    id: string,
    name: string,
    kind: string,
    location: string,
    inspections: seq<Inspection>,
    specs: Option<map<string, SpecValue>>)

  /** The `{id, name, type, location}` summary that `getAllEquipment` returns. */
  datatype EquipmentSummary = EquipmentSummary(id: string, name: string, kind: string, location: string)

  datatype SearchResult = SearchResult(
    equipmentName: string,
    date: string,
    finding: string,
    severity: string,
    reportUrl: string)
}
