/** The entities of the recruiting pipeline: leads (candidates), their tasks,
    the form a candidate submits, and the finite enumerations the app uses
    for pipeline status, priority, user role and top-level view. */
module Types {

  datatype Option<+T> = None | Some(value: T) {
    function GetOr(default: T): T {
      match this
      case Some(v) => v
      case None => default
    }
  }

  /** Milliseconds since the epoch; the app stores ISO-8601 strings and
      compares them through `Date.getTime()`. */
  type Timestamp = int

  /** The five pipeline stages, in board order. `LeadStatus.Lead` is the entry
      stage; it must be written qualified because `Lead` also names the record. */
  datatype LeadStatus = Lead | Interviewing | Formation | Recruiter | Rejected

  const Statuses: seq<LeadStatus> :=
    [LeadStatus.Lead, Interviewing, Formation, Recruiter, Rejected]

  /** The string the app and the store use for each status. */
  function StatusName(s: LeadStatus): string {
    match s
    case Lead => "Lead"
    case Interviewing => "Interviewing"
    case Formation => "Formation"
    case Recruiter => "Recruiter"
    case Rejected => "Rejected"
  }

  datatype Priority = High | Medium | Low

  function PriorityName(p: Priority): string {
    match p
    case High => "High"
    case Medium => "Medium"
    case Low => "Low"
  }

  datatype UserRole = ADMIN | MANAGER | RECRUITER | WORKER

  datatype Theme = Light | Dark

  /** Top-level views; LANDING is used by the app shell as its initial view. */
  datatype ViewState = LANDING | FORM | DASHBOARD | WORKER_DASHBOARD | MANAGER_DASHBOARD | LOGIN

  datatype Task = Task(id: string, text: string, isCompleted: bool, createdAt: Timestamp)

  /** A candidate record: the identity and timestamps every stored entity has,
      the submitted profile, the pipeline fields and the optional attachments. */
  datatype Lead = Lead(
    id: string,
    createdAt: Timestamp,
    updatedAt: Timestamp,
    fullName: string,
    email: string,
    phone: string,
    postAppliedFor: string,
    bio: string,
    source: string,
    status: LeadStatus,
    priority: Priority,
    score: real,
    tasks: seq<Task>,
    cvBase64: Option<string>,
    cvFileName: Option<string>,
    nextFollowUp: Option<Timestamp>,
    aiSummary: Option<string>,
    aiScore: Option<real>)

  /** What the public form submits: no id, status, priority, score, tasks or
      timestamps; those are assigned when the lead is stored. */
  datatype LeadFormData = LeadFormData(
    fullName: string,
    email: string,
    phone: string,
    postAppliedFor: string,
    bio: string,
    source: string,
    cvBase64: Option<string>,
    cvFileName: Option<string>,
    aiSummary: Option<string>,
    aiScore: Option<real>)

  /** A `Partial<Lead>`: `None` means the key is absent. For the optional
      fields the inner option is the value the key carries, which may itself be
      undefined, because an object spread copies undefined values too. */
  datatype LeadPatch = LeadPatch(
    id: Option<string>,
    createdAt: Option<Timestamp>,
    updatedAt: Option<Timestamp>,
    fullName: Option<string>,
    email: Option<string>,
    phone: Option<string>,
    postAppliedFor: Option<string>,
    bio: Option<string>,
    source: Option<string>,
    status: Option<LeadStatus>,
    priority: Option<Priority>,
    score: Option<real>,
    tasks: Option<seq<Task>>,
    cvBase64: Option<Option<string>>,
    cvFileName: Option<Option<string>>,
    nextFollowUp: Option<Option<Timestamp>>,
    aiSummary: Option<Option<string>>,
    aiScore: Option<Option<real>>)

  const EmptyPatch: LeadPatch :=
    LeadPatch(None, None, None, None, None, None, None, None, None,
              None, None, None, None, None, None, None, None, None)

  /** The patch `{ status }` the board sends when a lead changes stage. */
  function StatusPatch(s: LeadStatus): (p: LeadPatch)
    ensures p.status == Some(s)
    ensures p.(status := None) == EmptyPatch
  {
    EmptyPatch.(status := Some(s))
  }

  /** A whole lead passed where a `Partial<Lead>` is expected: every key present. */
  function FullPatch(l: Lead): LeadPatch {
    LeadPatch(Some(l.id), Some(l.createdAt), Some(l.updatedAt), Some(l.fullName),
              Some(l.email), Some(l.phone), Some(l.postAppliedFor), Some(l.bio),
              Some(l.source), Some(l.status), Some(l.priority), Some(l.score),
              Some(l.tasks), Some(l.cvBase64), Some(l.cvFileName), Some(l.nextFollowUp),
              Some(l.aiSummary), Some(l.aiScore))
  }

  /** Every status value is one of the five board columns, each exactly once. */
  lemma StatusesEnumerate(s: LeadStatus)
    ensures s in Statuses
    ensures forall i, j :: 0 <= i < j < |Statuses| ==> Statuses[i] != Statuses[j]
  {
  }
}
