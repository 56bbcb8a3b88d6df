# jira-epic-manager in Dafny

A model of the core of jira-epic-manager, a tool that turns a list of user
stories (each with its sub-tasks) into issues under one epic of a Jira project.
The model covers:

- the settings (`src/config.py`): six required text fields, the rule that the
  text of the epic key before its first dash must equal the project key,
  the tracker URL, and the cached
  `get_settings`;
- the story and task records and their validation from parsed JSON
  (`src/schema.py`);
- the error values (`src/exceptions.py`);
- the `JiraEpic` workflow (`src/epic_manager.py`): checking that the epic
  exists, creating a story under it, creating the story's sub-tasks one by
  one without stopping at a failure, and creating a batch of stories, with
  the summary-to-key result map.

The remote tracker is a `JiraClient` object (`tracker.dfy`) that records
every request it is sent in a log. An oracle decides each request's outcome
from the request and its position in that log: a key, an HTTP error with its
text, or another failure. `creation_plan.dfy` describes, as pure functions of
the settings, the oracle and the starting log position, which requests the
workflow sends and what it answers. The methods of `EpicManager.JiraEpic`
(`epic_manager.dfy`) are proved to send exactly those requests and to return
exactly those answers. The lemmas of `CreationPlan` then state what that
means: every story is attempted, each story request is sent once, the
request fields (project, type, parent, summary, description and resolved
assignee) are right, the result map is keyed as expected, and failed
sub-tasks are reported.

Files: `wrappers.dfy` (Option, Result), `errors.dfy`, `settings.dfy`,
`schema.dfy`, `tracker.dfy`, `creation_plan.dfy`, `epic_manager.dfy`.

Three facts about the code that a reader might not expect:

- `jira_id` is a required setting, like the other five (src/config.py:26).
- A story or task summary may be the empty string; nothing checks it.
- A story's `tasks` key must be present, although its value may be null
  (src/schema.py:28, `Schema.TasksKeyRequired`).

## Model

| member | source | states |
|---|---|---|
| Errors.NewJiraError | src/exceptions.py:9-22 | The base error keeps the message as given. Missing details become the empty dictionary; given details are kept. |
| Errors.ProjectNotFoundError | src/exceptions.py:28-32 | The kind records the project key. The message is "Jira project not found: " followed by the key. The details are exactly {project_key: key}. |
| Errors.EpicNotFoundError | src/exceptions.py:38-42 | The kind records the epic key. The message is "Jira epic not found: " followed by the key. The details are exactly {epic_key: key}. |
| Errors.EpicProjectMismatchError | src/exceptions.py:48-53 | The kind records both keys. The message names the epic and then the project. The details are exactly the two keys. |
| Errors.StoryCreationError | src/exceptions.py:59-72 | The message is "Failed to create story: " plus the summary, followed by " - " and the original error's text when one is given. The details hold the summary, and hold "original_error" exactly when an original error is given. |
| Errors.EpicNotFoundMessageDeterminesKey | src/exceptions.py:38-42 | Two epic-not-found messages are equal only for the same key, so the key can be read back from the message. |
| Errors.MismatchMessageNamesBoth | src/exceptions.py:50 | The mismatch message holds the epic key right after "Jira epic " and ends with the project key. |
| Settings.JiraUrl | src/config.py:28-31 | The URL is "https://", then the host, then a single "/". The host can be read back from the URL. |
| Settings.EpicKeyPrefix | src/config.py:36 | `split("-")[0]`: the prefix is a prefix of the key and contains no dash. Either it is the whole key, or a dash follows it. |
| Settings.EpicKeyPrefixUnique | src/config.py:36 | Those three facts determine the prefix: any string meeting them equals `EpicKeyPrefix`. |
| Settings.MatchesIffKeyFormat | src/config.py:36-37 | Epic key and project key match exactly when the project key has no dash and the epic key is the project key, alone or followed by "-". |
| Settings.ValidateProjectAndEpicKey | src/config.py:33-41 | Accepts exactly the matching pairs, returning the settings unchanged. Otherwise it raises the mismatch error carrying the epic key and the project key. |
| Settings.AcceptsMatchingEpicKey | src/config.py:36-41 | Project ABC with epic ABC-1 is accepted. |
| Settings.RejectsForeignEpicKey | src/config.py:36-41 | Project ABC with epic XYZ-1 is rejected with the mismatch error for XYZ-1 and ABC. |
| Settings.MissingFieldNames | src/config.py:21-26 | A name is reported missing exactly when it is a required field with no value. |
| Settings.HasAllFieldsIff | src/config.py:21-26 | The explicit six-field check agrees with "every declared field has a value". |
| Settings.LoadConfig | src/config.py:18-41 | With a field absent, the result is the list of absent field names, non-empty and naming exactly them. With all six present, it is the key validation of the settings read from the source, so it succeeds exactly when the keys match and otherwise carries the mismatch error. On success every field is taken from the source. |
| Settings.SettingsCache.Lookup | src/config.py:50-53 | With an empty cache, the answer is the settings built and validated from the source. Once settings are cached, they are returned whatever the source says, and any settings returned have matching keys. |
| Settings.SettingsCache.GetSettings | src/config.py:50-53 | Returns what a lookup before the call would have returned. Afterwards exactly a successful answer is cached, and a failure is not cached. |
| Schema.RequiredString | src/schema.py:18-19 | Succeeds exactly when the key holds a string, and returns that string. Otherwise it reports a non-empty list of problems, each located at that field. |
| Schema.OptionalString | src/schema.py:20 | Succeeds exactly when the key is absent, null or a string. Absent and null both give None. Otherwise the problems are located at that field. |
| Schema.ValidateTask | src/schema.py:15-20 | Succeeds exactly on objects with string summary and description and an optional string assignee, and builds the task from those values. Failures are non-empty and located under the task. |
| Schema.ValidateTaskList | src/schema.py:28 | Succeeds exactly when every element is a valid task. The result has one task per element, in order. |
| Schema.TasksField | src/schema.py:28 | `tasks` is required. Null gives None. A list must hold only valid tasks, which are kept in order. |
| Schema.ValidateStory | src/schema.py:23-29 | Succeeds exactly on valid story objects, and every field of the story is the corresponding JSON value. Otherwise the list of problems is non-empty. |
| Schema.FromJsonFile | src/schema.py:31-35 | A file that cannot be read is reported as unreadable. Otherwise it returns the story exactly when the content validates, and the validation problems when it does not. |
| Schema.StoryRoundTrip | src/schema.py:23-29 | Any story written out as JSON validates back to itself. |
| Schema.ExampleStoryValidates | src/schema.py:23-29 | A story with one task and no assignee validates to the expected record. |
| Schema.TasksKeyRequired | src/schema.py:28 | A story object without `tasks` is rejected with exactly one "missing" problem at `tasks`. |
| CreationPlan.AssigneeId | src/epic_manager.py:53-67 | The item's own assignee is used when present and non-empty. Otherwise the configured default is used. |
| CreationPlan.BuildIssueFields | src/epic_manager.py:69-105 | The issue always goes to the configured project, with the given summary, description, type and parent. The assignee is exactly the one `AssigneeId` resolves: the item's own when non-empty, else the default. It is empty only when no default is configured. |
| CreationPlan.StoryRequest | src/epic_manager.py:122-128 | A story request creates a "Story" in the configured project under the configured epic, with the story's summary and description and the story's resolved assignee. |
| CreationPlan.StoryRequests | src/epic_manager.py:122-128 | One story request per story. |
| CreationPlan.StoryRequestsAt | src/epic_manager.py:261-263 | Story request i of a batch is story i's, so stories are requested in input order. |
| CreationPlan.SubTaskRequest | src/epic_manager.py:173-179 | A sub-task request creates a "Sub-task" (never a story) in the configured project under the given parent, with the task's summary and description and the task's resolved assignee. |
| CreationPlan.SubTaskRequests | src/epic_manager.py:172-179 | One sub-task request per task. |
| CreationPlan.SubTaskRequestsAt | src/epic_manager.py:172-179 | Sub-task request j is built from task j under the given parent, so the order is the task order. |
| CreationPlan.StoryResult | src/epic_manager.py:129-150 | A story result succeeds exactly when the tracker answers a key, and then carries that key. Otherwise it is exactly `StoryCreationError` for the story's summary, with the original error text when the failure was an HTTP error and without one otherwise. |
| CreationPlan.FailedSummaries | src/epic_manager.py:171-196 | There are never more failures than tasks. |
| CreationPlan.FailedSummariesMembership | src/epic_manager.py:171-196 | A summary is reported failed exactly when some task with that summary was not created. |
| CreationPlan.OutcomesAt | src/epic_manager.py:172-196 | The outcome of request k in a run is the tracker's answer to that request at log position start + k. |
| CreationPlan.FailedSubTasks | src/epic_manager.py:171-196 | A summary is reported failed exactly when the tracker did not create the sub-task request of some task with that summary. |
| CreationPlan.Summaries | src/epic_manager.py:171-196 | One summary per task. |
| CreationPlan.NoFailuresWhenAllCreated | src/epic_manager.py:197-203 | When every sub-task is created, nothing is reported. |
| CreationPlan.AllReportedWhenNoneCreated | src/epic_manager.py:171-196 | When no sub-task is created, every task's summary is reported, in task order. |
| CreationPlan.StoryRun | src/epic_manager.py:223-241 | A story yields a key exactly when its creation succeeds, and the key is the one the tracker answered. Its first request is the story's own. Sub-task requests follow only when the story was created and has tasks. |
| CreationPlan.BatchRuns | src/epic_manager.py:260-263 | One run per story. |
| CreationPlan.BatchRunsSnoc | src/epic_manager.py:261-263 | Given the batch of stories 0..i-1 and the run of story i that starts right after their requests, appending that run gives the batch of stories 0..i. |
| CreationPlan.BatchRunsPrefix | src/epic_manager.py:261-263 | The first k runs of a batch are the batch of its first k stories, so later stories never change what happened to earlier ones. |
| CreationPlan.EveryStoryAttempted | src/epic_manager.py:261-263 | There is no early exit. Story i runs exactly as it would alone, starting right after the requests of the stories before it, whatever happened to them. |
| CreationPlan.ResultMap | src/epic_manager.py:260-263 | Every story's summary has an entry in the result map. |
| CreationPlan.ResultMapKeys | src/epic_manager.py:260-263 | The result map's keys are exactly the story summaries. |
| CreationPlan.ResultMapLastWins | src/epic_manager.py:263 | Each summary maps to the key (or None) of the last story with that summary. |
| CreationPlan.ResultMapSize | src/epic_manager.py:260-263 | The result map has at most one entry per story. |
| CreationPlan.SuccessCount | src/epic_manager.py:265 | The success count is at most the number of entries. |
| CreationPlan.SuccessCountBound | src/epic_manager.py:265-270 | The logged success count never exceeds the number of stories. |
| CreationPlan.StoryCreationsAppend | src/epic_manager.py:261-263 | The story requests among two request lists, taken one after the other, are those of the first list followed by those of the second. |
| CreationPlan.NoStoryCreationsInSubTasks | src/epic_manager.py:173-179 | Sub-task requests never create a story. |
| CreationPlan.StoryRunCreations | src/epic_manager.py:223-241 | One story sends exactly one story request, its own. |
| CreationPlan.StoryCreationsOfRuns | src/epic_manager.py:261-263 | Runs that each send their own story's request together send every story's request, in story order. |
| CreationPlan.BatchStoryCreations | src/epic_manager.py:260-263 | A batch sends exactly one story request per input story, in input order, duplicates included, whatever the tracker answers. |
| CreationPlan.RepeatedBatchRepeatsRequests | src/epic_manager.py:260-263 | Creating the same stories twice sends every story request twice, so nothing is deduplicated. |
| CreationPlan.StoryRunSanctioned | src/epic_manager.py:98-105 | Every request of a story is a creation in the configured project. It is either a story under the configured epic or a sub-task under the key the tracker returned for that story. |
| CreationPlan.SanctionedRuns | src/epic_manager.py:260-263 | If every run's requests are sanctioned by its own key, then every request of the batch is sanctioned by the batch's keys. |
| CreationPlan.BatchRequestsSanctioned | src/epic_manager.py:98-105 | Every request of a batch is a creation in the configured project. Each is either a story under the epic or a sub-task under a story key the tracker returned during the batch. |
| CreationPlan.SingleStoryScenario | src/epic_manager.py:243-271 | One story with one task, against a tracker that accepts everything, sends the story request and then the task's request, and maps the story's summary to its new key. |
| Tracker.JiraClient.Issue | src/epic_manager.py:48 | Reading an issue appends the read to the log. It succeeds exactly when the oracle answers a key. |
| Tracker.JiraClient.CreateIssue | src/epic_manager.py:130 | Creating an issue appends the creation to the log and returns the oracle's outcome for it. |
| EpicManager.JiraEpic.Connect | src/epic_manager.py:24-36 | A settings failure is returned as is. Otherwise a new client is opened on `https://host/` with the configured email and token, and the epic is read. If the read succeeds, the new manager holds the validated settings and the log holds only that read. If it fails, the result is the epic-not-found error for the configured key. Either way the settings cache afterwards holds exactly the settings that were loaded (even when the epic read fails), so a later construction reuses them. |
| EpicManager.JiraEpic.VerifyEpicExists | src/epic_manager.py:38-51 | Sends one read of the configured epic. No error exactly when the read succeeds, otherwise the epic-not-found error for that key. |
| EpicManager.JiraEpic.CreateStoryWithinEpic | src/epic_manager.py:107-150 | Sends exactly the story's request and returns `StoryResult` for the tracker's answer. |
| EpicManager.JiraEpic.CreateSubTasksInStory | src/epic_manager.py:152-203 | Sends one request per task, in order, never stopping early. The failed list is exactly the summaries of the tasks the tracker did not create. |
| EpicManager.JiraEpic.CreateStoryWithSubTasks | src/epic_manager.py:205-241 | Sends exactly the story's requests and returns exactly the story's key as `StoryRun` describes. |
| EpicManager.JiraEpic.CreateStories | src/epic_manager.py:243-271 | Sends exactly the requests of `BatchRuns` and returns exactly its result map, so every lemma above about batches applies to the method. |

## Left out

- The HTTP client library (`atlassian.Jira`, `requests`) is not modelled. Each request's outcome comes from an oracle given the request and its log position. For a creation request, network failures, malformed responses and a response without "key" are all one `OtherErr` outcome. For a read, any response that `jira.issue` returns is `Ok` (its key is not used); `HttpErr` and `OtherErr` stand only for a raised error.
- Logging (`src/logging_config.py`) is not part of this model, and neither are the log messages of the workflow.
- Reading and parsing the JSON file (`load_json` in `src/utils.py`) is not part of this model. `Schema.FromJsonFile` takes the outcome of that step.
- Loading settings from the environment and a `.env` file, and matching their names without regard to case, are left out. The settings source is a map from field name to value.
- `main.py` (command-line entry point) is not part of this model.
- Exception chaining (`raise … from e`) and Python exception objects are left out. An original error is represented by its text.
- EpicManager.JiraEpic.CreateSubTasksInStory: returns the list of failed summaries, which the source only logs (and returns None).
- CreationPlan.SuccessCount: the count is only logged by the source. The model states its bound but does not show it in a return value.
- EpicManager.JiraEpic.Connect: Dafny constructors cannot fail, so `__init__` is a static method returning the new object or the error. The cached settings are compared by value, not object identity.
- JSON numbers are unbounded integers. Floating point is not modelled, and no field uses numbers.
- Pydantic's exact error texts and error types other than "missing", "string", "list" and "object" are left out.
