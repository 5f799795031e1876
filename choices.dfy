/** The three closed choice sets of a ticket (status, type, priority), the
    database codes and human-readable labels Django stores and shows for them,
    and the creation defaults. */
module Choices {

  import opened Optional

  datatype Status = Open | InProgress | OnHold | Closed

  datatype TicketType = Request | Incident

  datatype Priority = Low | Medium | High

  /** Default values the model declares for a new ticket. */
  const DEFAULT_STATUS: Status := Open
  const DEFAULT_TYPE: TicketType := Request
  const DEFAULT_PRIORITY: Priority := Low

  /** Width of the character columns that store the codes. */
  const STATUS_MAX_LENGTH: nat := 10
  const TYPE_MAX_LENGTH: nat := 8
  const PRIORITY_MAX_LENGTH: nat := 6

  /** The code stored in the `status` column; it always fits the column. */
  function StatusCode(s: Status): (code: string)
    ensures 0 < |code| <= STATUS_MAX_LENGTH
  {
    match s
    case Open => "open"
    case InProgress => "inprogress"
    case OnHold => "onhold"
    case Closed => "closed"
  }

  function StatusLabel(s: Status): string
  {
    match s
    case Open => "Open"
    case InProgress => "In Progress"
    case OnHold => "On Hold"
    case Closed => "Closed"
  }

  /** Reading a stored code back: exactly the four codes are accepted. */
  function ParseStatus(code: string): (r: Option<Status>)
    ensures forall s: Status :: r == Some(s) <==> StatusCode(s) == code
  {
    if code == "open" then Some(Open)
    else if code == "inprogress" then Some(InProgress)
    else if code == "onhold" then Some(OnHold)
    else if code == "closed" then Some(Closed)
    else None
  }

  function TypeCode(t: TicketType): (code: string)
    ensures 0 < |code| <= TYPE_MAX_LENGTH
  {
    match t
    case Request => "request"
    case Incident => "incident"
  }

  function TypeLabel(t: TicketType): string
  {
    match t
    case Request => "Request"
    case Incident => "Incident"
  }

  function ParseType(code: string): (r: Option<TicketType>)
    ensures forall t: TicketType :: r == Some(t) <==> TypeCode(t) == code
  {
    if code == "request" then Some(Request)
    else if code == "incident" then Some(Incident)
    else None
  }

  function PriorityCode(p: Priority): (code: string)
    ensures 0 < |code| <= PRIORITY_MAX_LENGTH
  {
    match p
    case Low => "low"
    case Medium => "medium"
    case High => "high"
  }

  function PriorityLabel(p: Priority): string
  {
    match p
    case Low => "Low"
    case Medium => "Medium"
    case High => "High"
  }

  function ParsePriority(code: string): (r: Option<Priority>)
    ensures forall p: Priority :: r == Some(p) <==> PriorityCode(p) == code
  {
    if code == "low" then Some(Low)
    else if code == "medium" then Some(Medium)
    else if code == "high" then Some(High)
    else None
  }


}
