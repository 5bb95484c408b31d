/** The lead service: the in-memory list the app falls back to when the hosted
    table is unavailable (submit prepends, update merges by id, delete filters
    by id, fetch copies), and the two pure mappings between the app's lead
    record and the table's columns. */
module LeadStore {
  import opened Types
  import opened Scoring
  import opened Seqs

  /** What every write of the service answers. */
  datatype Response = Response(success: bool, error: Option<string>)

  const Succeeded: Response := Response(true, None)

  datatype Fetched = Fetched(data: seq<Lead>, error: Option<string>)

  const DayMillis: int := 86400000
  const HourMillis: int := 3600000

  /** The free-text fields of the two sample leads. */
  const DuboisBio: string := "4 years of experience in Door-to-Door sales."
  const DuboisSummary: string :=
    "Experienced sales professional with a strong track record in door-to-door environments. Highly suitable for team leadership due to longevity in field marketing."
  const WagnerBio: string := "University student looking for summer work."
  const WagnerSummary: string :=
    "Entry-level candidate with high academic achievement. Demonstrates potential for ambassador roles, though lacking direct sales experience."

  /** The two sample leads the in-memory list starts with, relative to `now`. */
  function Seed(now: Timestamp): (r: seq<Lead>)
    ensures |r| == 2 && r[0].id != r[1].id
    ensures forall l :: l in r ==> l.createdAt < now && l.updatedAt == l.createdAt
  {
    [ Lead.Lead("1", now - DayMillis * 2, now - DayMillis * 2, "Alexandre Dubois",
        "a.dubois@example.lu", "+352 691 123 456", "Team Leader", DuboisBio, "Moovijob",
        Interviewing, High, 85.0, [Task("t1", "Check reference letters", false, now)],
        None, None, Some(now + DayMillis), Some(DuboisSummary), Some(88.0)),
      Lead.Lead("2", now - HourMillis * 4, now - HourMillis * 4, "Sarah Wagner",
        "s.wagner@example.de", "+49 151 987 6543", "Promoter / Brand Ambassador", WagnerBio, "LinkedIn",
        LeadStatus.Lead, Medium, 72.0, [],
        None, None, None, Some(WagnerSummary), Some(65.0)) ]
  }

  /** The source recorded for a submission: the submitted one, or "Web Form"
      when it is empty. */
  function SourceOrDefault(source: string): (r: string)
    ensures r != ""
    ensures source != "" ==> r == source
    ensures source == "" ==> r == "Web Form"
  {
    if source != "" then source else "Web Form"
  }

  /** The lead a form submission becomes, given a fresh id and the clock. */
  function NewLead(form: LeadFormData, id: string, now: Timestamp): (l: Lead)
    ensures l.id == id && l.createdAt == now && l.updatedAt == now
    ensures l.status == LeadStatus.Lead && l.tasks == [] && l.nextFollowUp == None
    ensures l.fullName == form.fullName && l.email == form.email && l.phone == form.phone
    ensures l.postAppliedFor == form.postAppliedFor && l.bio == form.bio
    ensures l.source == SourceOrDefault(form.source)
    ensures l.cvBase64 == form.cvBase64 && l.cvFileName == form.cvFileName
    ensures l.aiSummary == form.aiSummary && l.aiScore == form.aiScore
    ensures ScoreResult(l.score, l.priority) == CalculateScore(form.source, form.postAppliedFor, form.aiScore)
    ensures 0.0 <= l.score <= 100.0 && l.priority == PriorityOf(l.score)
  {
    var sc := CalculateScore(form.source, form.postAppliedFor, form.aiScore);
    Lead.Lead(id, now, now, form.fullName, form.email, form.phone, form.postAppliedFor,
              form.bio, SourceOrDefault(form.source), LeadStatus.Lead, sc.priority, sc.score, [],
              form.cvBase64, form.cvFileName, None, form.aiSummary, form.aiScore)
  }

  /** Submitting to the in-memory list puts exactly one new lead in front of
      the unchanged previous list. */
  function Submit(store: seq<Lead>, form: LeadFormData, id: string, now: Timestamp): (r: (seq<Lead>, Response))
    ensures |r.0| == |store| + 1
    ensures r.0[0] == NewLead(form, id, now)
    ensures r.0[1..] == store
    ensures r.1 == Succeeded
  {
    ([NewLead(form, id, now)] + store, Succeeded)
  }

  /** `{ ...lead, ...updates, updatedAt: now }`: every key present in the
      patch overrides, and the clock always wins for `updatedAt`. */
  function Merge(l: Lead, p: LeadPatch, now: Timestamp): (r: Lead)
    ensures r.updatedAt == now
    ensures r.id == if p.id.Some? then p.id.value else l.id
    ensures r.createdAt == if p.createdAt.Some? then p.createdAt.value else l.createdAt
    ensures r.fullName == if p.fullName.Some? then p.fullName.value else l.fullName
    ensures r.email == if p.email.Some? then p.email.value else l.email
    ensures r.phone == if p.phone.Some? then p.phone.value else l.phone
    ensures r.postAppliedFor == if p.postAppliedFor.Some? then p.postAppliedFor.value else l.postAppliedFor
    ensures r.bio == if p.bio.Some? then p.bio.value else l.bio
    ensures r.source == if p.source.Some? then p.source.value else l.source
    ensures r.status == if p.status.Some? then p.status.value else l.status
    ensures r.priority == if p.priority.Some? then p.priority.value else l.priority
    ensures r.score == if p.score.Some? then p.score.value else l.score
    ensures r.tasks == if p.tasks.Some? then p.tasks.value else l.tasks
    ensures r.cvBase64 == if p.cvBase64.Some? then p.cvBase64.value else l.cvBase64
    ensures r.cvFileName == if p.cvFileName.Some? then p.cvFileName.value else l.cvFileName
    ensures r.nextFollowUp == if p.nextFollowUp.Some? then p.nextFollowUp.value else l.nextFollowUp
    ensures r.aiSummary == if p.aiSummary.Some? then p.aiSummary.value else l.aiSummary
    ensures r.aiScore == if p.aiScore.Some? then p.aiScore.value else l.aiScore
  {
    Lead.Lead(p.id.GetOr(l.id), p.createdAt.GetOr(l.createdAt), now,
              p.fullName.GetOr(l.fullName), p.email.GetOr(l.email), p.phone.GetOr(l.phone),
              p.postAppliedFor.GetOr(l.postAppliedFor), p.bio.GetOr(l.bio),
              p.source.GetOr(l.source), p.status.GetOr(l.status), p.priority.GetOr(l.priority),
              p.score.GetOr(l.score), p.tasks.GetOr(l.tasks), p.cvBase64.GetOr(l.cvBase64),
              p.cvFileName.GetOr(l.cvFileName), p.nextFollowUp.GetOr(l.nextFollowUp),
              p.aiSummary.GetOr(l.aiSummary), p.aiScore.GetOr(l.aiScore))
  }

  /** An empty patch only refreshes the timestamp. */
  lemma MergeEmpty(l: Lead, now: Timestamp)
    ensures Merge(l, EmptyPatch, now) == l.(updatedAt := now)
  {
  }

  /** A status patch changes the status and the timestamp and nothing else. */
  lemma MergeStatus(l: Lead, s: LeadStatus, now: Timestamp)
    ensures Merge(l, StatusPatch(s), now) == l.(status := s, updatedAt := now)
  {
  }

  /** A whole lead given as the patch replaces the record, except that the
      clock overrides its `updatedAt`. */
  lemma MergeFull(l: Lead, e: Lead, now: Timestamp)
    ensures Merge(l, FullPatch(e), now) == e.(updatedAt := now)
  {
  }

  /** Updating the in-memory list: every lead with the id is merged with the
      patch, every other lead and the order and length stay; it answers
      success whether or not the id was found. */
  function Update(store: seq<Lead>, id: string, p: LeadPatch, now: Timestamp): (r: (seq<Lead>, Response))
    ensures |r.0| == |store|
    ensures forall i :: 0 <= i < |store| && store[i].id == id ==> r.0[i] == Merge(store[i], p, now)
    ensures forall i :: 0 <= i < |store| && store[i].id != id ==> r.0[i] == store[i]
    ensures r.1 == Succeeded
  {
    (MapWhere(store, (l: Lead) => l.id == id, (l: Lead) => Merge(l, p, now)), Succeeded)
  }

  /** Updating an id nobody has leaves the list as it was. */
  lemma UpdateMissingId(store: seq<Lead>, id: string, p: LeadPatch, now: Timestamp)
    requires forall l :: l in store ==> l.id != id
    ensures Update(store, id, p, now).0 == store
  {
    MapWhereNoMatch(store, (l: Lead) => l.id == id, (l: Lead) => Merge(l, p, now));
  }

  /** The delete filter's predicate `l => l.id !== id`. */
  function OtherId(id: string): Lead -> bool {
    (l: Lead) => l.id != id
  }

  /** Deleting from the in-memory list drops every lead with the id and keeps
      the rest in their order; it answers success even if none matched. */
  function Delete(store: seq<Lead>, id: string): (r: (seq<Lead>, Response))
    ensures forall l :: l in r.0 <==> l in store && l.id != id
    ensures |r.0| <= |store|
    ensures r.1 == Succeeded
  {
    (Filter(store, OtherId(id)), Succeeded)
  }

  /** Deleting an id nobody has leaves the list as it was. */
  lemma DeleteMissingId(store: seq<Lead>, id: string)
    requires forall l :: l in store ==> l.id != id
    ensures Delete(store, id).0 == store
  {
    FilterKeepsAll(store, OtherId(id));
  }

  /** Deleting keeps the survivors' relative order: deleting from a
      concatenation is concatenating the deletions. */
  lemma DeleteKeepsOrder(a: seq<Lead>, b: seq<Lead>, id: string)
    ensures Delete(a + b, id).0 == Delete(a, id).0 + Delete(b, id).0
  {
    FilterConcat(a, b, OtherId(id));
  }

  /** Fetching from the in-memory list returns a copy equal to it. */
  function Fetch(store: seq<Lead>): (r: Fetched)
    ensures r.data == store && r.error == None
  {
    Fetched(store[..], None)
  }

  /** A fetch after a submission sees the new lead first and then exactly
      what a fetch before it saw. */
  lemma FetchAfterSubmit(store: seq<Lead>, form: LeadFormData, id: string, now: Timestamp)
    ensures Fetch(Submit(store, form, id, now).0).data == [NewLead(form, id, now)] + Fetch(store).data
  {
  }

  /** A fetch after a delete never sees the deleted id. */
  lemma FetchAfterDelete(store: seq<Lead>, id: string)
    ensures forall l :: l in Fetch(Delete(store, id).0).data ==> l.id != id
  {
  }

  // ---------------------------------------------------------------------
  // The remote table's column mappings.

  datatype DbValue = DbText(text: string) | DbNumber(number: real)

  /** The columns an update may write. */
  const UpdatableColumns: set<string> :=
    {"status", "priority", "score", "full_name", "email", "phone", "post_applied_for", "bio", "source"}

  /** A JavaScript string is truthy when it is not empty. */
  predicate Truthy(s: Option<string>) {
    s.Some? && s.value != ""
  }

  function TextColumn(v: Option<string>): Option<DbValue> {
    if Truthy(v) then Some(DbText(v.value)) else None
  }

  /** The value the update object carries for `column`, if the guard on the
      corresponding patch field lets it through. */
  function ColumnValue(p: LeadPatch, column: string): Option<DbValue> {
    if column == "status" then (if p.status.Some? then Some(DbText(StatusName(p.status.value))) else None)
    else if column == "priority" then (if p.priority.Some? then Some(DbText(PriorityName(p.priority.value))) else None)
    else if column == "score" then (if p.score.Some? then Some(DbNumber(p.score.value)) else None)
    else if column == "full_name" then TextColumn(p.fullName)
    else if column == "email" then TextColumn(p.email)
    else if column == "phone" then TextColumn(p.phone)
    else if column == "post_applied_for" then TextColumn(p.postAppliedFor)
    else if column == "bio" then TextColumn(p.bio)
    else if column == "source" then TextColumn(p.source)
    else None
  }

  /** The update object sent to the table: text fields only when truthy, the
      score whenever it is given (0 included), and nothing for tasks, AI
      fields, follow-up, CV, id or timestamps. */
  function DbUpdates(p: LeadPatch): (m: map<string, DbValue>)
    ensures m.Keys <= UpdatableColumns
    ensures "status" in m <==> p.status.Some?
    ensures p.status.Some? ==> m["status"] == DbText(StatusName(p.status.value))
    ensures "priority" in m <==> p.priority.Some?
    ensures p.priority.Some? ==> m["priority"] == DbText(PriorityName(p.priority.value))
    ensures "score" in m <==> p.score.Some?
    ensures p.score.Some? ==> m["score"] == DbNumber(p.score.value)
    ensures "full_name" in m <==> Truthy(p.fullName)
    ensures Truthy(p.fullName) ==> m["full_name"] == DbText(p.fullName.value)
    ensures "email" in m <==> Truthy(p.email)
    ensures Truthy(p.email) ==> m["email"] == DbText(p.email.value)
    ensures "phone" in m <==> Truthy(p.phone)
    ensures Truthy(p.phone) ==> m["phone"] == DbText(p.phone.value)
    ensures "post_applied_for" in m <==> Truthy(p.postAppliedFor)
    ensures Truthy(p.postAppliedFor) ==> m["post_applied_for"] == DbText(p.postAppliedFor.value)
    ensures "bio" in m <==> Truthy(p.bio)
    ensures Truthy(p.bio) ==> m["bio"] == DbText(p.bio.value)
    ensures "source" in m <==> Truthy(p.source)
    ensures Truthy(p.source) ==> m["source"] == DbText(p.source.value)
  {
    map c | c in UpdatableColumns && ColumnValue(p, c).Some? :: ColumnValue(p, c).value
  }

  /** A stage move writes exactly one column. */
  lemma DbUpdatesOfStatusMove(s: LeadStatus)
    ensures DbUpdates(StatusPatch(s)) == map["status" := DbText(StatusName(s))]
  {
    var m := DbUpdates(StatusPatch(s));
    assert m.Keys == {"status"};
  }

  /** A score of zero is still written, while an emptied name is not. */
  lemma DbUpdatesZeroScoreEmptyName()
    ensures DbUpdates(EmptyPatch.(score := Some(0.0), fullName := Some(""))) == map["score" := DbNumber(0.0)]
  {
    var m := DbUpdates(EmptyPatch.(score := Some(0.0), fullName := Some("")));
    assert m.Keys == {"score"};
  }

  /** A row of the leads table as the select returns it. */
  datatype LeadRow = LeadRow(
    id: string,
    fullName: string,
    email: string,
    phone: string,
    postAppliedFor: string,
    bio: string,
    source: string,
    status: LeadStatus,
    createdAt: Timestamp,
    updatedAt: Option<Timestamp>,
    priority: Priority,
    score: real,
    tasks: Option<seq<Task>>,
    cvBase64: Option<string>,
    cvFileName: Option<string>,
    aiSummary: Option<string>,
    aiScore: Option<real>)

  /** The lead a table row is read back as. */
  function FromRow(row: LeadRow): (l: Lead)
    ensures l.updatedAt == (if row.updatedAt.Some? then row.updatedAt.value else row.createdAt)
    ensures row.tasks.None? ==> l.tasks == []
    ensures row.tasks.Some? ==> l.tasks == row.tasks.value
    ensures l.nextFollowUp == None
    ensures l.id == row.id && l.createdAt == row.createdAt && l.status == row.status
    ensures l.score == row.score && l.priority == row.priority && l.aiScore == row.aiScore
    ensures l.fullName == row.fullName && l.email == row.email && l.phone == row.phone
    ensures l.postAppliedFor == row.postAppliedFor && l.bio == row.bio && l.source == row.source
    ensures l.cvBase64 == row.cvBase64 && l.cvFileName == row.cvFileName && l.aiSummary == row.aiSummary
  {
    Lead.Lead(row.id, row.createdAt, row.updatedAt.GetOr(row.createdAt), row.fullName,
              row.email, row.phone, row.postAppliedFor, row.bio, row.source, row.status,
              row.priority, row.score, row.tasks.GetOr([]), row.cvBase64, row.cvFileName,
              None, row.aiSummary, row.aiScore)
  }

  /** The row a lead occupies in the table. */
  function ToRow(l: Lead): LeadRow {
    LeadRow(l.id, l.fullName, l.email, l.phone, l.postAppliedFor, l.bio, l.source, l.status,
            l.createdAt, Some(l.updatedAt), l.priority, l.score, Some(l.tasks), l.cvBase64,
            l.cvFileName, l.aiSummary, l.aiScore)
  }

  /** Reading a stored lead back loses only the follow-up date, which the
      read mapping never copies. */
  lemma RowRoundTrip(l: Lead)
    ensures FromRow(ToRow(l)) == l.(nextFollowUp := None)
  {
  }

  /** A fetch from the table: every row mapped in order; no data is an empty list. */
  function FetchRows(rows: Option<seq<LeadRow>>): (r: seq<Lead>)
    ensures rows.None? ==> r == []
    ensures rows.Some? ==> |r| == |rows.value|
    ensures rows.Some? ==> forall i :: 0 <= i < |r| ==> r[i] == FromRow(rows.value[i])
  {
    match rows
    case None => []
    case Some(rs) => seq(|rs|, i requires 0 <= i < |rs| => FromRow(rs[i]))
  }
}
