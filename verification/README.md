# aeroagent scheduling engine, in Dafny

aeroagent coordinates drone operations: a roster of pilots, a fleet of drones and
a list of missions, each kept as a table of text cells. The engine, class `Logic`
of `logic.py`, answers five kinds of question over those tables:

- **Conflict detection** (`check_conflicts`): given a mission and an optional pilot
  and/or drone, the ordered list of HARD and SOFT conflicts.
- **Candidate ranking** (`find_matches`): every pilot scored against a mission, sorted
  best first (stable), cut to five.
- **Reassignment advice** (`suggest_reassignments`): for urgent missions, the busy,
  qualified pilots whose current mission ranks lower.
- **Record queries** (`query_pilots`, `query_drones`, `query_missions`):
  case-insensitive filters, exact on ordinary columns and by substring on tag columns.
- **The assignment transaction** (`assign_resource`): HARD conflicts block, SOFT
  conflicts need an override, an unconfirmed call is a dry run, and only a
  confirmed call with no HARD conflict, and no SOFT conflict unless overridden,
  writes to the store.

The store, `DataManager` of `data_manager.py`, updates rows in place:
`update_pilot_status`, `update_drone_status`, `assign_pilot` and `assign_drone`.

Modules, bottom up:

| file | module | contents |
|---|---|---|
| records.dfy | `Records` | pilot, drone and mission rows; lookup by id |
| text.dfy | `Text` | `strip`, `lower`, `split(',')`, substring search |
| tags.dfy | `Tags` | `parse_skills` and the missing-tag comprehensions |
| store.dfy | `Store` | the `DataManager` class and its four in-place updates |
| conflicts.dfy | `Conflicts` | when each check fires, the report it yields, its order |
| matching.dfy | `Matching` | score, issues, eligibility, stable sort, top five |
| reassign.dfy | `Reassign` | priority ranks and the reassignment rule |
| query.dfy | `Query` | record filters |
| engine.dfy | `Engine` | class `Logic`: the imperative operations, proved against the above |

Each imperative operation of `Logic` is a method of `Engine.Logic`. It builds its
result the way the source does: appends inside `if`s, a loop over the pilot rows,
a staged `if` chain. Its `ensures` ties the result to a specification function
(`Report`, `Ranked`, `Suggested`, `Select`). The lemmas beside each function prove
what the source promises about it.

## Model

| member | source | states |
|---|---|---|
| Records.Find | logic.py:27 | `get_mission`, `get_pilot`, `get_drone`: the first row carrying the id, or nothing |
| Records.FindMeaning | logic.py:27 | a lookup by id succeeds exactly when some row has the id, and then yields the first such row |
| Text.Lower | logic.py:12 | lower-casing keeps the length and leaves no upper-case letter |
| Text.Split | logic.py:12 | `split(',')` yields one piece more than there are separators, and no piece contains the separator |
| Text.StripLeftMeaning | logic.py:12 | `lstrip` removes a leading run of whitespace, all of it, and nothing else |
| Text.StripRightMeaning | logic.py:12 | `rstrip` removes a trailing run of whitespace, all of it, and nothing else |
| Text.StripMeaning | logic.py:12 | `strip` yields a contiguous slice of the input, with only whitespace cut on either side, and with non-whitespace ends |
| Text.StripEmpty | logic.py:10 | a cell strips to nothing exactly when it is all whitespace |
| Text.Strip | logic.py:12 | `str.strip`: the left strip followed by the right strip |
| Text.StripIdempotent | logic.py:12 | stripping twice is stripping once |
| Text.LowerIdempotent | logic.py:12 | lower-casing twice is lower-casing once |
| Text.StripLower | logic.py:12 | stripping and lower-casing commute |
| Text.SplitLower | logic.py:12 | splitting on a non-letter commutes with lower-casing: the pieces of the lower-cased text are the lower-cased pieces, in the same order |
| Text.Contains | logic.py:172 | `str.contains` as a literal search: the needle is a prefix of the text or of one of its suffixes |
| Text.ContainsIffOccurs | logic.py:172 | substring search holds exactly when the needle occurs at some index |
| Text.JoinSplit | logic.py:12 | joining the pieces of a split with the separator gives the string back |
| Text.SplitJoin | logic.py:12 | splitting a join of separator-free pieces gives the pieces back |
| Tags.IsBlank | logic.py:10 | a cell is blank when it strips to nothing |
| Tags.ParseSkills | logic.py:9-12 | a blank cell gives no tags; otherwise one tag per comma-separated piece |
| Tags.ParsedTagsAreNormalised | logic.py:12 | every parsed tag is stripped, lower-case and comma-free |
| Tags.ParseSkillsIgnoresCase | logic.py:12 | lower-casing a cell before parsing changes nothing |
| Tags.ParseSkillsOfJoin | logic.py:9-12 | writing normalised tags (empty ones included) as a comma-separated cell and parsing it gives the same tags, for every list but a single empty tag |
| Tags.MissingTags | logic.py:69 | no more tags are missing than are required |
| Tags.CertsMissing | logic.py:67-69 | the mission's required certifications the pilot does not hold, in required order |
| Tags.SkillsMissing | logic.py:79-81 | the mission's required skills the pilot does not have, in required order |
| Tags.MissingTagsMeaning | logic.py:69 | the missing tags are exactly the required tags not held; none is missing exactly when all are held |
| Tags.MissingTagsNonEmpty | logic.py:69-70 | some tag is missing exactly when some required tag is not held |
| Query.Passes | logic.py:163-175 | a row survives a filter when the column is unknown or the value blank, when a tag column's lower-cased cell contains the value, or when an ordinary column's lower-cased cell equals it |
| Query.KeepMatching | logic.py:172-175 | one filter step is no longer than the rows |
| Query.KeepMatchingMembers | logic.py:172-175 | one filter step keeps exactly the rows that pass the filter |
| Query.Select | logic.py:162-175 | the selection is no longer than the table |
| Query.Narrow | logic.py:160-177 | applying the filters one after another, in a loop, yields the rows that pass all of them, in table order |
| Query.SelectMembers | logic.py:162-175 | a row is selected exactly when it is in the table and passes every filter |
| Query.SelectNone | logic.py:160 | with no filters every row is returned, in order |
| Query.SelectOneMore | logic.py:162-175 | applying one more filter to a selection is selecting with that filter added |
| Query.KeepMatchingAppend | logic.py:172-175 | a filter step distributes over concatenated tables |
| Query.SelectOrderIrrelevant | logic.py:162-175 | the selection depends only on which filters are given, not on their order |
| Query.IgnoredFilterKeepsAll | logic.py:163-167 | a filter on an unknown column, or with a blank value, changes nothing |
| Query.FilterValueIgnoresCase | logic.py:166 | the filter value is compared without regard to case |
| Query.ExactColumn | logic.py:173-175 | on an ordinary column, a row passes exactly when its lower-cased cell equals the lower-cased, stripped value |
| Query.ListedTagIsFound | logic.py:170-172 | a filter naming a tag a record lists in a tag column keeps that record |
| Query.TagOccursInField | logic.py:172 | every parsed tag of a cell occurs in the lower-cased cell |
| Store.UpdateWhere | data_manager.py:78 | a `.loc[key == id]` assignment rewrites the rows with that id and keeps every other row |
| Store.FindAfterUpdate | data_manager.py:92-93 | after an update that keeps ids, the updated id finds the rewritten row and every other id finds what it found before |
| Store.FindAfterUpdateAll | data_manager.py:92-93 | the same, for all ids at once |
| Store.SetPilotStatus | data_manager.py:76-81 | only the `status` cell of rows with the id changes, and it becomes the new status |
| Store.AssignPilotRows | data_manager.py:90-96 | rows with the id get the project as `current_assignment` and status Assigned; all other rows are unchanged |
| Store.SetDroneStatus | data_manager.py:83-88 | the drone-table counterpart of `SetPilotStatus` |
| Store.AssignDroneRows | data_manager.py:98-104 | the drone-table counterpart of `AssignPilotRows` |
| Store.AssignPilotKeepsInvariant | data_manager.py:90-96 | assigning to a real project id keeps "every Assigned pilot has a current mission" |
| Store.AssignPilotIdempotent | data_manager.py:90-96 | assigning the same pilot to the same project twice is assigning it once |
| Store.DataManager.UpdatePilotStatus | data_manager.py:76-81 | returns true exactly when the id exists; then the table is `SetPilotStatus` of the old one, otherwise unchanged |
| Store.DataManager.UpdateDroneStatus | data_manager.py:83-88 | the drone-table counterpart, on the drone table only |
| Store.DataManager.AssignPilotToMission | data_manager.py:90-96 | returns true exactly when the id exists; then the table is `AssignPilotRows` of the old one, otherwise unchanged |
| Store.DataManager.AssignDroneToMission | data_manager.py:98-104 | the drone-table counterpart, on the drone table only |
| Conflicts.Resolve | logic.py:27-35 | a usable mission is the one the lookup found |
| Conflicts.ResolveMeaning | logic.py:27-35 | the mission is usable exactly when it is found and both its dates parse, and the window holds the parsed dates |
| Conflicts.Raised | logic.py:27-151 | when each (kind, subject) check fires: only the mission DATA_ERROR for an unusable mission; otherwise the pilot checks for a supplied pilot, the drone checks for a supplied drone, the co-location check for a supplied drone and pilot |
| Conflicts.BookedElsewhere | logic.py:50-56 | a resource is double booked when its assignment is another mission that resolves and whose window overlaps this one |
| Conflicts.Fire | logic.py:44-45 | a conditional append: the conflict when its check fires, nothing otherwise |
| Conflicts.PilotBlock | logic.py:38-97 | the pilot checks in source order: DATA_ERROR for an unknown pilot, else status, double booking, certifications, skills, location |
| Conflicts.DroneBlock | logic.py:100-151 | the drone checks in source order: DATA_ERROR for an unknown drone, else maintenance, maintenance due, double booking, location, pilot co-location |
| Conflicts.Report | logic.py:24-153 | the mission DATA_ERROR alone for an unusable mission; otherwise the pilot block for a supplied pilot followed by the drone block for a supplied drone |
| Conflicts.SeverityOf | logic.py:44-151 | SOFT for the pilot skill check and the pilot and drone location checks; HARD for every other check |
| Conflicts.Overlaps | logic.py:56 | the inclusive interval test: this mission starts no later than the other ends and ends no earlier than it starts |
| Conflicts.WithSeverity | logic.py:340-341 | the conflicts of one severity, in report order |
| Conflicts.WithSeverityMembers | logic.py:340-341 | the filtered list holds exactly the conflicts of that severity |
| Conflicts.CountWithSeverity | logic.py:340-341 | filtering by severity keeps the count of each check of that severity and drops all others |
| Conflicts.SeverityPresent | logic.py:340-344 | a report holds a conflict of a severity exactly when some check of that severity fires |
| Conflicts.ReportsWithSeverity | logic.py:340-341 | the filtered report lists, once each, exactly the fired checks of that severity |
| Conflicts.PilotBlockUnfold | logic.py:43-97 | the pilot block is the five pilot checks in order, each present exactly when its condition holds |
| Conflicts.PilotBlockCount | logic.py:37-97 | the pilot block lists each pilot check that fires exactly once, and nothing else |
| Conflicts.PilotBlockShape | logic.py:37-97 | the pilot block is in check order and each conflict has its severity, override flag and missing tags |
| Conflicts.PilotConflictsConform | logic.py:66-97 | a list of pilot conflicts of any kinds all conform |
| Conflicts.DroneBlockCount | logic.py:99-151 | the drone block lists each drone check that fires, and the co-location check when it fires, exactly once |
| Conflicts.DroneBlockShape | logic.py:99-151 | the drone block is in check order, its conflicts are about the drone or the pilot/drone pair, and each conforms |
| Conflicts.DroneConflictsConform | logic.py:105-151 | the five drone-block conflicts carry their severities and flags and list no tags |
| Conflicts.ReportIsComplete | logic.py:14-153 | the report lists every fired check exactly once, nothing else, each conforming, in check order |
| Conflicts.ReportCount | logic.py:24-153 | each (kind, subject) pair is counted once when its check fires and never otherwise |
| Conflicts.ReportShape | logic.py:24-153 | the report is in check order and each conflict conforms |
| Conflicts.PilotConflictsFirst | logic.py:37-151 | in check order, every pilot conflict precedes every drone conflict, and the co-location conflict comes last |
| Conflicts.SoftChecks | logic.py:29-151 | exactly the pilot skill check and the two single-resource location checks are SOFT |
| Conflicts.UnusableMissionIsTerminal | logic.py:27-35 | a missing mission, or one whose dates do not parse, raises only the mission DATA_ERROR |
| Conflicts.OverlapsIffCommonDay | logic.py:56 | for proper intervals, the overlap test holds exactly when some day lies in both |
| Conflicts.DoubleBookingSymmetric | logic.py:50-62 | a resource on `a` is double booked for `b` exactly when one on `b` is double booked for `a` |
| Conflicts.CertificationGate | logic.py:66-76 | for a found pilot, CERTIFICATION_MISSING is raised exactly when some required certification is not held |
| Conflicts.RaisedOnFoundPilot | logic.py:38-42 | for a found pilot, a pilot check is raised exactly when its condition holds |
| Matching.Issues | logic.py:229-267 | the issues in source order: missing certifications, location, missing skills, then On Leave or Already Assigned |
| Matching.Eligible | logic.py:227-265 | eligible when no certification is missing, the location matches and the pilot is neither On Leave nor Assigned |
| Matching.StatusPoints | logic.py:258-267 | the status term is at most +20 |
| Matching.Score | logic.py:225-267 | no score exceeds 120 |
| Matching.Assess | logic.py:269-279 | a candidate carries the pilot's id, name, location, status, certifications and skills, and a score of at most 120 |
| Matching.AssessAll | logic.py:222-279 | one candidate per pilot, in table order, each the assessment of its pilot |
| Matching.InsertByScore | logic.py:282 | inserting adds exactly the one candidate |
| Matching.InsertSorted | logic.py:282 | inserting into a list sorted highest first keeps it sorted |
| Matching.SortByScore | logic.py:282 | the sort is a permutation, sorted highest score first |
| Matching.InsertStable | logic.py:282 | insertion puts a candidate before the earlier-inserted ones with the same score |
| Matching.SortStable | logic.py:282 | the sort keeps candidates with equal scores in their original order |
| Matching.Top | logic.py:285 | the first `n` entries: a prefix of length min(n, length) |
| Matching.IssuesMeaning | logic.py:229-267 | no issue exactly when eligible with no skill missing; missing certifications are the first issue; a score of 120 exactly when no issue and Available |
| Matching.ScoreSeparatesEligibility | logic.py:229-267 | an ineligible pilot scores at most 60, a pilot without issues at least 100 |
| Matching.OnLeavePenalty | logic.py:258-263 | On Leave costs 120 points against Available, and makes the pilot ineligible |
| Matching.SkillPenalty | logic.py:249-255 | each further missing skill costs 10 points |
| Matching.TopOfSortedFromAll | logic.py:282-285 | every ranked candidate is one of the assessed ones |
| Matching.Ranked | logic.py:281-285 | the assessments sorted by score, highest first, cut to the first five |
| Matching.RankedShape | logic.py:281-285 | the ranking has min(5, pilots) entries, highest score first, all assessed candidates |
| Matching.KeepsBest | logic.py:282-285 | no candidate left out of the top scores more than one kept |
| Matching.RankedKeepsBest | logic.py:281-285 | the same, for the ranking of a mission |
| Matching.RankedTiesInTableOrder | logic.py:282 | pilots with equal scores keep their table order |
| Reassign.Rank | logic.py:318-320 | ranks run from 1 to 4; 4 is exactly Urgent; unknown priorities rank 1 |
| Reassign.Qualified | logic.py:309-310 | a pilot holds every certification the mission requires |
| Reassign.Bumpable | logic.py:305-322 | a pilot with an assignment, qualified, whose current mission is found and ranks strictly below the target |
| Reassign.SuggestionFor | logic.py:323-329 | the suggestion for a pilot: its id, name and assignment, the priority of its current mission and whether its location is the target's |
| Reassign.Suggested | logic.py:298-331 | no more suggestions than pilots |
| Reassign.QualifiedIffNoneMissing | logic.py:309-310 | a pilot is qualified exactly when no required certification is missing |
| Reassign.SuggestedExactly | logic.py:302-329 | a suggestion is listed exactly when it is the suggestion for some bumpable pilot |
| Reassign.SuggestionsRankBelow | logic.py:316-322 | every suggested pilot's current mission ranks strictly below the target |
| Reassign.NoBumpingUrgentOrIntoLowest | logic.py:318-322 | no pilot is taken from an Urgent mission, and a lowest-rank mission gets no suggestion |
| Reassign.NotSuggestedForOwnMission | logic.py:312-322 | no pilot is suggested away from the target mission itself |
| Engine.ResourceRequest | logic.py:335-338 | a resource whose type lower-cases to `pilot` is checked as the pilot, any other as the drone |
| Engine.Logic.CheckConflicts | logic.py:14-153 | the list built step by step is the report: every fired check once, nothing else, each conforming, in check order |
| Engine.Logic.CheckPilot | logic.py:37-97 | the appends of the pilot checks build the pilot block |
| Engine.Logic.BookedNow | logic.py:50-64 | the double-booking test holds exactly for an assignment elsewhere that exists, has parseable dates and overlaps |
| Engine.Logic.CheckDrone | logic.py:99-151 | the appends of the drone checks build the drone block |
| Engine.Logic.QueryPilots | logic.py:155-177 | the pilots that pass every filter, in table order |
| Engine.Logic.QueryDrones | logic.py:179-196 | the drones that pass every filter, in table order |
| Engine.Logic.QueryMissions | logic.py:198-213 | the missions that pass every filter, in table order |
| Engine.Logic.FindMatches | logic.py:215-285 | nothing for an unknown mission; otherwise the ranking, at most five, in non-increasing score order |
| Engine.Logic.AssessPilot | logic.py:223-279 | the accumulators of one loop iteration yield the pilot's assessment |
| Engine.Logic.SuggestReassignments | logic.py:287-331 | nothing for an unknown or non-urgent (unforced) mission; otherwise the suggestions in table order, each ranked strictly below |
| Engine.Logic.AssignResource | logic.py:333-376 | blocked exactly on a HARD conflict, confirmation exactly on SOFT without override, dry run exactly when unconfirmed; otherwise committed exactly when the store finds the resource and the update failure reported exactly when it does not; the store changes only on a commit, and then by exactly one assignment |
| Engine.NothingHardMeansFound | logic.py:27-41 | with no HARD conflict the mission is usable and every supplied resource exists |
| Engine.CommitThenDoubleBooked | logic.py:50-62 | after committing a pilot to `a`, checking it for an overlapping `b` raises DOUBLE_BOOKING |
| Engine.RecheckAfterCommit | logic.py:43-62 | after committing a pilot to a mission, checking it again for that mission raises neither UNAVAILABLE nor DOUBLE_BOOKING |

## Left out

- Loading and saving: the CSV files, Google Sheets syncing and the `save_pilots`/`save_drones` calls after each update (data_manager.py:8-74). This is file and network I/O; the model's tables are the in-memory ones.
- Lookups: `get_mission`, `get_pilot` and `get_drone` are called by logic.py but are not defined in data_manager.py. They are modelled as the first row with the id.
- Store method names: logic.py commits through `assign_pilot_to_mission` and `assign_drone_to_mission`, which data_manager.py does not define. They are modelled under those names with the behaviour of `assign_pilot` and `assign_drone` (data_manager.py:90-104).
- Tables as sequences: the tables are sequences of rows, not maps from id to row. `find_matches` and `suggest_reassignments` depend on row order, and a `.loc[...]` update rewrites every row carrying the id.
- Date parsing: `dateutil.parser.parse` is a parameter of `Logic` (`DateParser`), a partial function from text to ordered days. `None` stands for the exception it raises.
- Text.Lower: lower-cases the ASCII letters only. Python's `str.lower` also folds other scripts.
- Text.Contains: `str.contains` is a regular-expression search in pandas; the model searches for the value as a literal substring.
- Empty cells: pandas reads an empty CSV cell as NaN; the model reads it as "". The two agree cell by cell in the filters and in the tag parser. They differ in four places. In the first three an empty cell is compared for equality, and NaN equals nothing while "" equals "":
  - a location comparison of two empty locations;
  - an id lookup or update with the empty id. The model finds a row whose id cell is empty (`Records.Find`, so `Store.DataManager`'s four updates and `Engine.Logic.AssignResource`), where pandas finds none;
  - `Reassign.Bumpable` for a pilot with an empty assignment cell, which the model can match with a mission whose id cell is empty;
  - a filter on a column in which every cell is empty. pandas loads such a column as numbers, and the `.str` accessor in `query_pilots`, `query_drones` and `query_missions` raises on it. The model (`Query.Narrow`, `Engine.Logic.QueryPilots`, `QueryDrones`, `QueryMissions`) returns the rows that pass instead. The exception is not modelled.
- Messages: the human-readable text of conflicts and of `assign_resource` answers is not modelled. A conflict keeps its kind, severity, override flag and the tags its message lists.
- Result wrappers: `find_matches` wraps its list in a dictionary (`pilots`, `mission_id`, or `drones` for an unknown mission); the model returns the candidate list.
- Filter values: the filter dictionary is a sequence of (column, value) pairs of text. `str()` of non-text values is not modelled, and `Query.SelectOrderIrrelevant` shows the pair order does not matter.
- Matching.SortByScore: `list.sort` sorts in place with Timsort. The model uses a stable insertion sort as a function on the candidate list. It proves the properties the sort promises (a permutation, ordered, stable), not the in-place update.
- Agents, API and UI: the chat agents, the HTTP API and the Streamlit UI lie outside the scheduling engine.
