# ProAgo recruiting pipeline — a Dafny model

ProAgo is a recruiting web app. Candidates ("leads") apply through a public
form and are scored. Recruiters then move them through a five-stage pipeline
board: Lead, Interviewing, Formation, Recruiter and Rejected. A small app shell
guards the recruiter, worker and manager dashboards behind a demonstration
sign-in.

This project models the sequential logic of the app as pure Dafny functions
over immutable datatypes, and proves what that logic promises:

- `types.dfy`: the records and enumerations.
- `seqs.dfy`: the app's two list idioms, `filter` and "map where id matches".
- `text.dfy`: lower-casing, substring search and `trim`.
- `scoring.dfy`: the lead score and priority.
- `lead_store.dfy`: the in-memory lead list the service falls back to, the
  update object sent to the hosted table, and the row mapping read back from it.
- `lead_order.dfy`: the board's search, sort and column split.
- `dashboard.dfy`: the board's handlers. Each one returns the next board state
  and the service calls it makes. Running those calls on the in-memory list
  shows that the optimistic board and the list agree.
- `login.dfy`: the sign-in form.
- `app_shell.dfy`: the page, authentication and theme state, its guards and
  what is rendered. It includes an invariant over every session of user actions.

## Model

| member | source | states |
|---|---|---|
| Types.StatusesEnumerate | types.ts:14 | every status is one of the five board stages, and the five are distinct |
| Types.StatusPatch | components/Dashboard.tsx:55 | the `{ status }` patch carries the status key and no other key |
| Scoring.Heuristic | services/leadService.ts:6-10 | the four sequential increments equal 50 plus an independent channel bonus plus a position bonus, so the heuristic lies in [50, 95] |
| Scoring.PriorityOf | services/leadService.ts:18-20 | High exactly from 80, Medium exactly in [60, 80), Low exactly below 60 |
| Scoring.CalculateScore | services/leadService.ts:5-22 | the score is always in [0, 100] and the priority is the bucket of the clamped score; without an AI score the score is the heuristic; with one it is the 40/60 blend, or 0 below the range, or 100 above it |
| Scoring.HeuristicOnly | services/leadService.ts:6-20 | without an AI score the clamp never fires; the priority is High exactly when the bonuses reach 30 and Low exactly when no bonus applies |
| Scoring.BlendBetween | services/leadService.ts:13-17 | with an AI score in [0, 100] the final score lies between the heuristic and the AI score |
| Scoring.MonotoneInAiScore | services/leadService.ts:13-20 | raising the AI score never lowers the score or the priority |
| Scoring.PriorityMonotone | services/leadService.ts:18-20 | a higher score never gets a lower priority |
| Scoring.ReferralTeamLeader | services/leadService.ts:6-10 | a referral for Team Leader scores 95 and is High |
| Scoring.WebsitePromoterWithAi | services/leadService.ts:13-20 | a website applicant for Promoter with AI score 40 scores 44 and is Low |
| LeadStore.Seed | services/leadService.ts:24-60 | defines the two sample leads the in-memory list starts with; their ids differ, and each was created before the clock reading and never updated since |
| LeadStore.SourceOrDefault | services/leadService.ts:106 | the stored source is the submitted source when that is non-empty, and "Web Form" when it is empty |
| LeadStore.NewLead | services/leadService.ts:98-117 | a submission becomes a lead in stage Lead with no tasks, createdAt = updatedAt = the clock, the form's fields copied, and the score and priority of the scoring rule |
| LeadStore.Submit | services/leadService.ts:96-118 | the list grows by exactly the new lead in front, and the old list follows it unchanged; the answer is success |
| LeadStore.Merge | services/leadService.ts:147 | the spread merge always stamps updatedAt; every other field is the patch's value when the patch gives one and the lead's own value otherwise |
| LeadStore.MergeEmpty | services/leadService.ts:147 | an empty patch changes only updatedAt |
| LeadStore.MergeStatus | services/leadService.ts:147 | a status patch changes exactly the status and updatedAt |
| LeadStore.MergeFull | services/leadService.ts:147 | a whole lead given as the patch replaces the record, except updatedAt, which is the clock |
| LeadStore.Update | services/leadService.ts:144-149 | length and order are kept; the leads with the id are merged; every other lead is untouched; the answer is success |
| LeadStore.UpdateMissingId | services/leadService.ts:146-149 | updating an unknown id leaves the list as it was and still answers success |
| LeadStore.Delete | services/leadService.ts:163-166 | the survivors are exactly the leads without the id; the answer is success |
| LeadStore.DeleteMissingId | services/leadService.ts:165 | deleting an unknown id leaves the list as it was |
| LeadStore.DeleteKeepsOrder | services/leadService.ts:165 | deleting commutes with concatenation, so the survivors keep their relative order |
| LeadStore.Fetch | services/leadService.ts:201-203 | a fetch returns a copy equal to the list, with no error |
| LeadStore.FetchAfterSubmit | services/leadService.ts:99-117 | a fetch after a submission sees the new lead and then exactly what it saw before |
| LeadStore.FetchAfterDelete | services/leadService.ts:165 | a fetch after a delete never sees the deleted id |
| LeadStore.DbUpdates | services/leadService.ts:125-134 | status and priority go out whenever given, and the score whenever defined (0 included); the six text fields go out only when non-empty; no other column is ever written |
| LeadStore.DbUpdatesOfStatusMove | services/leadService.ts:126 | a stage move writes the status column alone |
| LeadStore.DbUpdatesZeroScoreEmptyName | services/leadService.ts:128-129 | a zero score is written and an emptied name is dropped |
| LeadStore.FromRow | services/leadService.ts:175-193 | every column is copied to its field; a missing updated_at falls back to created_at and missing tasks to []; the follow-up date is never read |
| LeadStore.RowRoundTrip | services/leadService.ts:175-193 | reading back a stored lead gives the lead minus its follow-up date |
| LeadStore.FetchRows | services/leadService.ts:175-195 | the rows are mapped one for one in order, and no data gives the empty list |
| Text.Lower | components/Dashboard.tsx:127 | lower-casing keeps the length and maps each character on its own |
| Text.Contains | components/Dashboard.tsx:128 | defines `includes` as an occurrence at some offset; the empty needle occurs in every string, and a needle longer than the string never does |
| Text.Trim | components/Dashboard.tsx:84 | defines `trim()`: a slice of the input that neither starts nor ends with white space, with only white space cut off on either side |
| Text.TrimEmptyIffBlank | components/Dashboard.tsx:84 | `trim()` is empty exactly when every character is ECMAScript white space |
| LeadOrder.Matches | components/Dashboard.tsx:128 | defines the search test on the name, email and position; the empty query matches every lead, and a query longer than all three fields matches none |
| LeadOrder.FilterLeads | components/Dashboard.tsx:126-129 | an empty query keeps every lead in order; otherwise a lead is kept exactly when the lower-cased query occurs in its lower-cased name, email or position, with the multiplicity it had in the input |
| LeadOrder.FilterLeadsConcat | components/Dashboard.tsx:126-129 | searching a concatenation is the concatenation of the searches, so the search keeps the input order |
| LeadOrder.Compare | components/Dashboard.tsx:130-134 | defines the comparator: a High lead before any other, then the newer lead first within a tier; zero exactly for one tier and the same createdAt |
| LeadOrder.CompareProperties | components/Dashboard.tsx:130-134 | the comparator is total and transitive, and it ties exactly the leads of the same tier created at the same time |
| LeadOrder.SortLeads | components/Dashboard.tsx:130-134 | the sort is a permutation, it is ordered by the comparator, and tied leads keep their input order |
| LeadOrder.StableSortUnique | components/Dashboard.tsx:130-134 | two comparator-ordered lists with the same ties in the same order are equal |
| LeadOrder.AnyStableSortAgrees | components/Dashboard.tsx:130-134 | every stable sort with this comparator gives the same list as SortLeads |
| LeadOrder.Projection | components/Dashboard.tsx:124-136 | the board list is a permutation of the search result; every High lead precedes every other lead; createdAt never increases within a tier; ties keep their order |
| LeadOrder.ProjectionTiesInLoadOrder | components/Dashboard.tsx:124-136 | the leads tied on tier and createdAt appear on the board in the order they were loaded: the board's ties are the search applied to the loaded list's ties |
| LeadOrder.Column | components/Dashboard.tsx:158 | a column holds exactly the projected leads of its status, each as often as in the projection |
| LeadOrder.ColumnConcat | components/Dashboard.tsx:158 | the column of a concatenation is the concatenation of the columns, so a column keeps the board order |
| LeadOrder.ExactlyOneColumn | components/Dashboard.tsx:299-303 | each projected lead is in exactly one of the five columns |
| LeadOrder.ColumnSizes | components/Dashboard.tsx:299-303 | the five column sizes add up to the size of the projection |
| LeadOrder.FilterSorted | components/Dashboard.tsx:158 | filtering a comparator-ordered list keeps it ordered |
| LeadOrder.ColumnsSorted | components/Dashboard.tsx:158 | each column keeps the board order |
| LeadOrder.SearchDub | components/Dashboard.tsx:126-128 | the query "dub" matches "Alexandre Dubois" through case folding, and misses Sarah Wagner's name, email and position |
| Dashboard.Apply | components/Dashboard.tsx:55-71 | defines the service calls run one after another on the in-memory list; the list never grows, updates alone keep its length, and deletes alone leave only leads it already held |
| Dashboard.StatusChange | components/Dashboard.tsx:53-57 | the move changes only the status of the leads with the id; it sends one status update; on a failure answer the board takes the fresh fetch; nothing else on the board changes |
| Dashboard.StatusChangeAgainstStore | components/Dashboard.tsx:53-57 | with the in-memory list, which always answers success, a move never reloads; the board and the list differ only in the moved lead's stamp |
| Dashboard.StatusCalls | components/Dashboard.tsx:71 | one status update per selected id, in selection order |
| Dashboard.BatchStatus | components/Dashboard.tsx:67-72 | exactly the selected leads take the status and the rest stay; the selection is cleared; one update per selected id is sent |
| Dashboard.ApplyStatusCalls | components/Dashboard.tsx:71 | running the updates one after another sets the status and stamp of exactly the selected leads |
| Dashboard.BatchStatusShowsInColumn | components/Dashboard.tsx:67-72 | after a batch stage change, each selected lead the search lets through shows, with the new status, in that status's column |
| Dashboard.BatchStatusAgainstStore | components/Dashboard.tsx:67-72 | after a batch stage change, the board and the in-memory list agree up to stamps |
| Dashboard.DeleteCalls | components/Dashboard.tsx:64 | one delete per selected id, in selection order |
| Dashboard.BatchDelete | components/Dashboard.tsx:59-65 | unconfirmed, nothing happens and no call is made; confirmed, exactly the selected leads leave, the rest keep their order, the selection is cleared, and one delete per id is sent |
| Dashboard.ApplyDeleteCalls | components/Dashboard.tsx:64 | running the deletes one after another equals one filter by the whole selection |
| Dashboard.BatchDeleteAgainstStore | components/Dashboard.tsx:59-65 | after a batch delete, the in-memory list is exactly the board's list |
| Dashboard.BatchDeleteUnknownIds | components/Dashboard.tsx:62 | deleting a selection of unknown ids leaves the board's leads unchanged |
| Dashboard.EditSubmit | components/Dashboard.tsx:74-81 | without a lead in the dialog nothing happens; otherwise the edited lead replaces each lead with its id, the dialog closes and is emptied, and the whole lead is sent as the patch |
| Dashboard.EditSubmitAgainstStore | components/Dashboard.tsx:74-81 | the in-memory list then holds the edited lead stamped with the clock, and agrees with the board up to stamps |
| Dashboard.AddTask | components/Dashboard.tsx:83-88 | with no lead open, or blank text, nothing changes; otherwise one open task with the untrimmed text goes first, the text box is cleared, and nothing else changes |
| Dashboard.ToggleTask | components/Dashboard.tsx:90-93 | exactly the tasks with the id flip their done mark; the rest of the lead and the board stay |
| Dashboard.ToggleTwice | components/Dashboard.tsx:92 | toggling the same task twice restores the board |
| Dashboard.TasksWithout | components/Dashboard.tsx:97 | the kept tasks are exactly those without the id, each as often as before |
| Dashboard.TasksWithoutConcat | components/Dashboard.tsx:97 | removing from a concatenation is the concatenation of the removals, so the kept tasks keep their order |
| Dashboard.RemoveTask | components/Dashboard.tsx:95-98 | the open lead's tasks become its tasks without the id, in order; the rest of the lead and the board stay |
| Dashboard.RemoveAfterAdd | components/Dashboard.tsx:83-98 | removing a task just added under a fresh id gives back the lead as it was |
| Dashboard.SeedShape | services/leadService.ts:24-60 | the two sample leads: Dubois, High, first; Wagner, Medium, second |
| Dashboard.SeedInBoardOrder | services/leadService.ts:24-60 | the sample leads are already in board order |
| Dashboard.SeedSearchDub | components/Dashboard.tsx:126-128 | searching the sample leads for "dub" leaves only Alexandre Dubois |
| Login.Authenticate | components/Login.tsx:19-28 | a pair signs in exactly when the username equals the password and is one of the three accounts; the role is that account's; never ADMIN |
| Login.HandleLogin | components/Login.tsx:18-29 | a known pair hands its role over and leaves the form; any other pair shows "Identity verification failed." and hands over nothing |
| Login.SubmitForm | components/Login.tsx:62-93 | with either field empty the `required` inputs block the submit and nothing changes; otherwise the handler runs: a known pair signs in with its role, any other shows the failure message |
| Login.FillCredentials | components/Login.tsx:31-35 | both fields take the given values and the error is cleared |
| Login.SimulatorKeysSignIn | components/Login.tsx:133-141 | each simulator key, filled in and submitted, signs in, and the three keys give three different roles |
| Login.AccountRoles | components/Login.tsx:19-25 | xxx/xxx is RECRUITER, 111/111 is WORKER, aaa/aaa is MANAGER |
| Login.CrossedPairRefused | components/Login.tsx:26-28 | one account's username with another account's password is refused with the failure message |
| Login.NeverAdmin | components/Login.tsx:19-25 | no credential pair signs in as ADMIN |
| AppShell.Initial | App.tsx:13-21 | defines the start-up state: the landing page, nobody signed in, no role, and the remembered theme |
| AppShell.Owner | App.tsx:73-75 | exactly the three dashboards have an owning role, and none of them belongs to ADMIN |
| AppShell.LandingView | App.tsx:52-58 | each non-ADMIN role is taken to a dashboard that it owns; ADMIN has none |
| AppShell.LandingViewOwner | App.tsx:52-75 | a role's landing page is a dashboard exactly when that role owns it |
| AppShell.LoginSuccess | App.tsx:49-59 | signing in authenticates with the role and goes to the role's own dashboard; ADMIN stays on the current page |
| AppShell.Logout | App.tsx:61-65 | signing out clears authentication and role and shows the sign-in page; the theme survives |
| AppShell.ViewChange | App.tsx:67-83 | a signed-out dashboard request goes to LOGIN; a signed-in one is granted exactly for the owning role and otherwise ignored; other pages are always granted; only the page changes |
| AppShell.ToggleTheme | App.tsx:85 | the theme flips and nothing else changes |
| AppShell.ToggleThemeTwice | App.tsx:85 | toggling the theme twice is the identity |
| AppShell.Render | App.tsx:87-97 | the main area is empty exactly on a dashboard without a signed-in user of its role; each board is drawn only for its owner; the landing page, the lead form and the sign-in page are drawn exactly on their views |
| AppShell.Click | App.tsx:67-83 | at the click, a signed-out dashboard request goes to LOGIN at once, another role's dashboard is ignored, and every other request is only scheduled |
| AppShell.Act | App.tsx:49-94 | defines every event other than the timer: page requests, the sign-in form, sign-out and the theme switch; only a page request adds to the queue, at most one page, and only the theme switch changes the theme |
| AppShell.CommitAsWritten | App.tsx:78-82 | when the timer runs out, the oldest scheduled page is set with no further check |
| AppShell.Commit | App.tsx:67-83 | corrected: when the timer runs out, the oldest scheduled page goes through the request guards again |
| AppShell.CommitAgrees | App.tsx:67-83 | on a consistent state the two readings agree exactly when the scheduled page still passes the guards |
| AppShell.NextAsWritten | App.tsx:49-94 | defines one event with the timer as written: each timer lands the oldest scheduled page unchecked, and any other event is Act |
| AppShell.Next | App.tsx:49-94 | defines one event with the corrected timer: each timer takes the oldest scheduled page through the guards, and any other event is Act |
| AppShell.NavigateThenTimer | App.tsx:67-83 | a request whose timer runs out before anything else happens has exactly the effect of the one-step page change, in both readings |
| AppShell.InitialConsistent | App.tsx:13 | the start-up state, on the landing page, satisfies the invariant |
| AppShell.NextConsistent | App.tsx:49-94 | with the corrected timer, every user action and timer keeps the invariant: authenticated iff a role is set, never ADMIN, on a dashboard only as its owner |
| AppShell.RunConsistent | App.tsx:49-94 | every session of actions and timers keeps the invariant |
| AppShell.SessionNeverBlank | App.tsx:87-97 | with the corrected timer, from start-up no sequence of actions leaves the main area empty or signs in as ADMIN |
| AppShell.DeferredPageBlank | App.tsx:77-82 | as written, signing in, asking for the dashboard and signing out before the timer runs out ends signed out on the dashboard with an empty main area |
| AppShell.SignedOutDashboardRequest | App.tsx:68-71 | a signed-out request for any dashboard shows the sign-in page |
| AppShell.SignInShowsDashboard | App.tsx:49-59 | a demonstration sign-in from the sign-in page shows that account's board at once, and leaves scheduled changes alone |
| AppShell.LogoutThenLogin | App.tsx:49-65 | signing out and back in with the same account returns to that account's dashboard |

## Left out

- Supabase I/O: the remote insert, update, delete and select calls are not modelled, nor is the fallback to the in-memory list when they fail. Only the pure mappings (`DbUpdates`, `FromRow`) and the in-memory branches are modelled. services/supabaseClient.ts is not part of this model.
- The insert object of the remote submit (services/leadService.ts:70-85): this is remote I/O and is not modelled.
- Scoring.CalculateScore: computed with exact `real` arithmetic, not IEEE doubles. Rounding in `h*0.4 + a*0.6` and NaN scores are not modelled.
- Text.Lower: lower-cases ASCII letters only. JavaScript `toLowerCase` also folds non-ASCII letters.
- Timestamps are integers (milliseconds), not ISO strings. The comparator's `getTime` difference is taken as exact, and an invalid date (NaN) is not modelled.
- LeadStore.FromRow: `updated_at || created_at` also falls back on an empty string. The model's timestamps have no empty value, so only a missing `updated_at` is modelled.
- Ids and the clock are parameters: `Math.random` ids, `Date.now()` task ids, and `new Date()` stamps. Dashboard.Apply gives every call in one batch the same clock reading, while the source reads the clock once per call. LeadStore.Seed likewise derives every sample stamp from one clock reading, so its createdAt and updatedAt are equal, while the source calls `Date.now()` for each stamp separately (services/leadService.ts:34-35, 38-39, 52-53), and the two can differ by a millisecond.
- The 200 ms page-change timer is modelled as a queue of scheduled pages and a timer event; its length, the fade and the scroll are not. Other timers and the interleaving of overlapping async updates are left out: each Dashboard handler is modelled as one atomic step. The edit dialog lets go of its lead after the awaited update; the model does this in the same step.
- `window.confirm` is the `confirmed` parameter of Dashboard.BatchDelete. Drag-and-drop counters, CSS effects, `mailto:`/`sms:` links, clipboard use and `viewCV` are presentation and are left out.
- The selection is a list of ids in selection order, because a JavaScript Set iterates in insertion order.
- Dashboard.BatchDelete, Dashboard.BatchStatus, Dashboard.AddTask, Dashboard.ToggleTask and Dashboard.RemoveTask model `handleBatchDelete`, `handleBatchStatus`, `addTask`, `toggleTask` and `removeTask` as written. Nothing in components/Dashboard.tsx calls any of the five. The selection is only ever set to an empty Set (lines 30, 63 and 70), and the task text only to the empty string (lines 40 and 87). In this version of the app the five handlers are unreachable, and their contracts describe what they would do if called.
- Dashboard.StatusChange: the reload on a failure answer (components/Dashboard.tsx:56) is modelled, but it is dead code. No path reaches it: a remote failure is caught and falls through to the in-memory list, which answers success (services/leadService.ts:139-149).
- `loadLeads` is represented only by its result. The fetched list is a parameter of Dashboard.StatusChange.
- The sample leads (services/leadService.ts:24-60) are modelled with fixed stored scores (85 and 72), not computed by the scoring rule. The initial list is `Seed(now)`.
- The initial theme comes from localStorage, so it is a parameter of AppShell.Initial. A stored value other than light or dark is not modelled; `toggleTheme` would turn it into light.
- The language switch and translations are static tables and are left out.
- The CV analysis call in services/geminiService.ts is a foreign AI service. The AI score is an arbitrary optional input, and the service's fallback result (score 0 and a placeholder summary) is not modelled.
- The lead form (components/LeadForm.tsx), with its file reading and size check, is left out. So are the manager and worker dashboards (mock figures parsed as floating point), the landing page, logo, navbar and status badge (markup).
- `ViewState.LANDING` is used by App.tsx (lines 13 and 89) but is not declared in the enum at types.ts:6-12. The model follows App.tsx and includes it.

## Findings

| source | as written | input that shows it | evidently intended | confidence | as-written member | corrected member |
|---|---|---|---|---|---|---|
| App.tsx:77-82 | the guards of `handleViewChange` run at the click, but the page is set 200 ms later without checking again | sign in as xxx, ask for the dashboard, and sign out within 200 ms: the timer then sets DASHBOARD for a signed-out user and the main area renders nothing | a page change never lands on a dashboard the current user may not see, so the main area is never empty | medium, not executed | AppShell.DeferredPageBlank | AppShell.SessionNeverBlank |
