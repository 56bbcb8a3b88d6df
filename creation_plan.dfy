/** What the issue-creation workflow of `src/epic_manager.py` does, as pure
    functions of the settings, the tracker's oracle and the position in the
    tracker's request log at which the work starts: which requests are sent,
    in what order, and what each story's result is. The `JiraEpic` methods are
    proved to do exactly this; the lemmas here state its consequences. */
module CreationPlan {
  import opened Wrappers
  import opened Errors
  import opened Settings
  import opened Schema
  import opened Tracker

  const StoryType := "Story"
  const SubTaskType := "Sub-task"

  /** `_get_assignee_id`: the item's own assignee unless it is absent or
      empty (Python's `or`), else the configured default. */
  function AssigneeId(config: Config, assigneeId: Option<string>): (id: string)
    ensures assigneeId.Some? && assigneeId.value != "" ==> id == assigneeId.value
    ensures assigneeId.None? || assigneeId.value == "" ==> id == config.jiraId
  {
    if assigneeId.Some? && assigneeId.value != "" then assigneeId.value else config.jiraId
  }

  /** `_build_issue_fields`: the issue always goes to the configured project,
      and is left without an assignee only when no default is configured
      either. */
  function BuildIssueFields(config: Config, summary: string, description: string,
                            issueType: string, parentKey: string, assigneeId: Option<string>): (f: IssueFields)
    ensures f.projectKey == config.jiraProject
    ensures f.summary == summary && f.description == description
    ensures f.issueType == issueType && f.parentKey == parentKey
    ensures f.assigneeId == AssigneeId(config, assigneeId)
    ensures f.assigneeId == "" ==> config.jiraId == ""
  {
    IssueFields(config.jiraProject, summary, description, issueType, parentKey,
                AssigneeId(config, assigneeId))
  }

  /** The request `create_story_within_epic` sends for a story. */
  function StoryRequest(config: Config, story: Story): (r: Request)
    ensures IsStoryCreation(r) && r.fields.parentKey == config.jiraEpicKey
    ensures r.fields.projectKey == config.jiraProject
    ensures r.fields.summary == story.summary && r.fields.description == story.description
    ensures r.fields.assigneeId == AssigneeId(config, story.assigneeId)
  {
    Create(BuildIssueFields(config, story.summary, story.description, StoryType,
                            config.jiraEpicKey, story.assigneeId))
  }

  /** The story-creation request of each story, in order. */
  function StoryRequests(config: Config, stories: seq<Story>): (reqs: seq<Request>)
    ensures |reqs| == |stories|
  {
    if stories == [] then []
    else StoryRequests(config, stories[..|stories| - 1]) + [StoryRequest(config, stories[|stories| - 1])]
  }

  /** Request i is story i's. */
  lemma {:induction false} StoryRequestsAt(config: Config, stories: seq<Story>, i: nat)
    requires i < |stories|
    ensures StoryRequests(config, stories)[i] == StoryRequest(config, stories[i])
  {
    var n := |stories| - 1;
    if i < n {
      StoryRequestsAt(config, stories[..n], i);
    }
  }

  /** The request `create_sub_tasks_in_story` sends for one task. */
  function SubTaskRequest(config: Config, task: Task, parentKey: string): (r: Request)
    ensures r.Create? && !IsStoryCreation(r) && r.fields.issueType == SubTaskType
    ensures r.fields.parentKey == parentKey
    ensures r.fields.projectKey == config.jiraProject
    ensures r.fields.summary == task.summary && r.fields.description == task.description
    ensures r.fields.assigneeId == AssigneeId(config, task.assigneeId)
  {
    Create(BuildIssueFields(config, task.summary, task.description, SubTaskType,
                            parentKey, task.assigneeId))
  }

  /** One sub-task request per task, in task order, each under `parentKey`. */
  function SubTaskRequests(config: Config, tasks: seq<Task>, parentKey: string): (reqs: seq<Request>)
    ensures |reqs| == |tasks|
  {
    if tasks == [] then []
    else SubTaskRequests(config, tasks[..|tasks| - 1], parentKey) + [SubTaskRequest(config, tasks[|tasks| - 1], parentKey)]
  }

  /** Request j is task j's, under `parentKey`. */
  lemma {:induction false} SubTaskRequestsAt(config: Config, tasks: seq<Task>, parentKey: string, j: nat)
    requires j < |tasks|
    ensures SubTaskRequests(config, tasks, parentKey)[j] == SubTaskRequest(config, tasks[j], parentKey)
  {
    var n := |tasks| - 1;
    if j < n {
      SubTaskRequestsAt(config, tasks[..n], parentKey, j);
    }
  }

  /** The outcomes the oracle gives to `reqs` sent one after another from log position `start`. */
  function Outcomes(oracle: Oracle, start: nat, reqs: seq<Request>): (outcomes: seq<Outcome>)
    ensures |outcomes| == |reqs|
  {
    if reqs == [] then []
    else Outcomes(oracle, start, reqs[..|reqs| - 1]) + [oracle(start + |reqs| - 1, reqs[|reqs| - 1])]
  }

  // ---- one story ----

  /** `create_story_within_epic` after the request: the key of a response,
      or `StoryCreationError` for the story, carrying the original error only
      when it was an HTTP error. */
  function StoryResult(summary: string, o: Outcome): (r: Result<string, JiraError>)
    ensures r.Success? <==> o.Ok?
    ensures r.Success? ==> r.value == o.key
    ensures r.Failure? ==>
              r.error == StoryCreationError(summary, if o.HttpErr? then Some(o.text) else None)
  {
    match o
    case Ok(key) => Success(key)
    case HttpErr(text) => Failure(StoryCreationError(summary, Some(text)))
    case OtherErr => Failure(StoryCreationError(summary, None))
  }

  /** `failed_tasks`: the summaries of the tasks whose request did not succeed, in order. */
  function FailedSummaries(tasks: seq<Task>, outcomes: seq<Outcome>): (failed: seq<string>)
    requires |outcomes| == |tasks|
    ensures |failed| <= |tasks|
  {
    if tasks == [] then []
    else
      var n := |tasks| - 1;
      FailedSummaries(tasks[..n], outcomes[..n]) + (if outcomes[n].Ok? then [] else [tasks[n].summary])
  }

  /** A summary is reported failed exactly when some task with that summary failed. */
  lemma {:induction false} FailedSummariesMembership(tasks: seq<Task>, outcomes: seq<Outcome>, x: string)
    requires |outcomes| == |tasks|
    ensures x in FailedSummaries(tasks, outcomes) <==>
              exists i :: 0 <= i < |tasks| && tasks[i].summary == x && !outcomes[i].Ok?
  {
    if tasks != [] {
      var n := |tasks| - 1;
      FailedSummariesMembership(tasks[..n], outcomes[..n], x);
      if x in FailedSummaries(tasks, outcomes) && x !in FailedSummaries(tasks[..n], outcomes[..n]) {
        assert tasks[n].summary == x && !outcomes[n].Ok?;
      }
      if exists i :: 0 <= i < |tasks| && tasks[i].summary == x && !outcomes[i].Ok? {
        var i :| 0 <= i < |tasks| && tasks[i].summary == x && !outcomes[i].Ok?;
        if i < n {
          assert tasks[..n][i] == tasks[i] && outcomes[..n][i] == outcomes[i];
        }
      }
    }
  }

  /** Outcome k is the oracle's answer to request k at log position `start + k`. */
  lemma {:induction false} OutcomesAt(oracle: Oracle, start: nat, reqs: seq<Request>, k: nat)
    requires k < |reqs|
    ensures Outcomes(oracle, start, reqs)[k] == oracle(start + k, reqs[k])
  {
    var n := |reqs| - 1;
    if k < n {
      OutcomesAt(oracle, start, reqs[..n], k);
      assert reqs[..n][k] == reqs[k];
    }
  }

  /** `create_sub_tasks_in_story` reports a summary exactly when the tracker
      rejected the sub-task request of some task with that summary. */
  lemma FailedSubTasks(config: Config, tasks: seq<Task>, parentKey: string, oracle: Oracle, start: nat, x: string)
    ensures x in FailedSummaries(tasks, Outcomes(oracle, start, SubTaskRequests(config, tasks, parentKey))) <==>
              exists i :: 0 <= i < |tasks| && tasks[i].summary == x &&
                          !oracle(start + i, SubTaskRequest(config, tasks[i], parentKey)).Ok?
  {
    var outcomes := Outcomes(oracle, start, SubTaskRequests(config, tasks, parentKey));
    FailedSummariesMembership(tasks, outcomes, x);
    forall i | 0 <= i < |tasks|
      ensures outcomes[i] == oracle(start + i, SubTaskRequest(config, tasks[i], parentKey))
    {
      OutcomesAt(oracle, start, SubTaskRequests(config, tasks, parentKey), i);
      SubTaskRequestsAt(config, tasks, parentKey, i);
    }
  }

  /** The summaries of all tasks, in order. */
  function Summaries(tasks: seq<Task>): (summaries: seq<string>)
    ensures |summaries| == |tasks|
  {
    if tasks == [] then [] else Summaries(tasks[..|tasks| - 1]) + [tasks[|tasks| - 1].summary]
  }

  /** When every task is created nothing is reported. */
  lemma {:induction false} NoFailuresWhenAllCreated(tasks: seq<Task>, outcomes: seq<Outcome>)
    requires |outcomes| == |tasks|
    requires forall i :: 0 <= i < |tasks| ==> outcomes[i].Ok?
    ensures FailedSummaries(tasks, outcomes) == []
  {
    if tasks != [] {
      var n := |tasks| - 1;
      assert forall i :: 0 <= i < n ==> outcomes[..n][i] == outcomes[i];
      NoFailuresWhenAllCreated(tasks[..n], outcomes[..n]);
    }
  }

  /** When no task is created every task is reported, in order. */
  lemma {:induction false} AllReportedWhenNoneCreated(tasks: seq<Task>, outcomes: seq<Outcome>)
    requires |outcomes| == |tasks|
    requires forall i :: 0 <= i < |tasks| ==> !outcomes[i].Ok?
    ensures FailedSummaries(tasks, outcomes) == Summaries(tasks)
  {
    if tasks != [] {
      var n := |tasks| - 1;
      assert forall i :: 0 <= i < n ==> outcomes[..n][i] == outcomes[i];
      AllReportedWhenNoneCreated(tasks[..n], outcomes[..n]);
    }
  }

  /** What one story costs and yields: the requests sent for it, and its
      entry in the result map (None when the story was not created). */
  datatype Run = Run(requests: seq<Request>, key: Option<string>)

  /** `create_story_with_sub_tasks`, sending its first request at log
      position `start`: None exactly when the story request fails, and then
      no sub-task request; otherwise the story's key, after one sub-task
      request per task. */
  function StoryRun(config: Config, oracle: Oracle, start: nat, story: Story): (run: Run)
    ensures run.key.Some? <==> oracle(start, StoryRequest(config, story)).Ok?
    ensures run.key.Some? ==> run.key.value == oracle(start, StoryRequest(config, story)).key
    ensures run.requests == [StoryRequest(config, story)] +
              (if run.key.Some? && story.tasks.Some? then SubTaskRequests(config, story.tasks.value, run.key.value) else [])
  {
    var request := StoryRequest(config, story);
    match oracle(start, request)
    case Ok(key) =>
      if story.tasks.None? || story.tasks.value == [] then Run([request], Some(key))
      else Run([request] + SubTaskRequests(config, story.tasks.value, key), Some(key))
    case _ => Run([request], None)
  }

  // ---- a batch of stories ----

  /** What is done for one story, given the log position it starts at. */
  type Step = (nat, Story) -> Run

  /** The step of `create_stories`: `create_story_with_sub_tasks`. */
  function CreateStep(config: Config, oracle: Oracle): Step {
    (at: nat, story: Story) => StoryRun(config, oracle, at, story)
  }

  function AllRequests(runs: seq<Run>): seq<Request> {
    if runs == [] then [] else AllRequests(runs[..|runs| - 1]) + runs[|runs| - 1].requests
  }

  function RunKeys(runs: seq<Run>): (keys: seq<Option<string>>)
    ensures |keys| == |runs|
  {
    if runs == [] then [] else RunKeys(runs[..|runs| - 1]) + [runs[|runs| - 1].key]
  }

  /** `create_stories`: a step for every story in order, each starting right
      after the requests of the ones before it. */
  function BatchRuns(step: Step, start: nat, stories: seq<Story>): (runs: seq<Run>)
    ensures |runs| == |stories|
  {
    if stories == [] then []
    else
      var n := |stories| - 1;
      var before := BatchRuns(step, start, stories[..n]);
      before + [step(start + |AllRequests(before)|, stories[n])]
  }

  /** The batch of stories 0 .. i is the batch of stories 0 .. i-1 followed by
      story i's run, which starts right after their requests. */
  lemma BatchRunsSnoc(step: Step, start: nat, stories: seq<Story>, i: nat, runs: seq<Run>, run: Run)
    requires i < |stories|
    requires runs == BatchRuns(step, start, stories[..i])
    requires run == step(start + |AllRequests(runs)|, stories[i])
    ensures runs + [run] == BatchRuns(step, start, stories[..i + 1])
  {
    var upTo := stories[..i + 1];
    assert upTo[..i] == stories[..i] && upTo[i] == stories[i];
  }

  /** Appending a run appends its requests and its key. */
  lemma AllRequestsSnoc(runs: seq<Run>, run: Run)
    ensures AllRequests(runs + [run]) == AllRequests(runs) + run.requests
    ensures RunKeys(runs + [run]) == RunKeys(runs) + [run.key]
  {
  }

  /** The first k runs of a batch are the batch of the first k stories: a
      story's run never depends on the stories after it. */
  lemma {:induction false} BatchRunsPrefix(step: Step, start: nat, stories: seq<Story>, k: nat)
    requires k <= |stories|
    ensures BatchRuns(step, start, stories)[..k] == BatchRuns(step, start, stories[..k])
  {
    if k == |stories| {
      assert stories[..k] == stories;
    } else {
      var n := |stories| - 1;
      BatchRunsPrefix(step, start, stories[..n], k);
      assert stories[..n][..k] == stories[..k];
      assert BatchRuns(step, start, stories)[..n] == BatchRuns(step, start, stories[..n]);
    }
  }

  /** No early exit: story i is attempted, as if alone, right after the
      requests of stories 0 .. i-1, whatever happened to them. */
  lemma EveryStoryAttempted(step: Step, start: nat, stories: seq<Story>, i: nat)
    requires i < |stories|
    ensures BatchRuns(step, start, stories)[i] ==
              step(start + |AllRequests(BatchRuns(step, start, stories)[..i])|, stories[i])
  {
    var runs := BatchRuns(step, start, stories[..i]);
    var run := step(start + |AllRequests(runs)|, stories[i]);
    BatchRunsSnoc(step, start, stories, i, runs, run);
    BatchRunsPrefix(step, start, stories, i);
    BatchRunsPrefix(step, start, stories, i + 1);
    assert BatchRuns(step, start, stories)[i] == (runs + [run])[i];
  }

  // ---- proof steps of the `JiraEpic.CreateStories` loop ----
  // Each states one fact the loop body needs about the story it has just
  // handled; they carry no proof of their own and keep that loop's
  // verification small.

  lemma CreateStepIsStoryRun(config: Config, oracle: Oracle, at: nat, story: Story)
    ensures CreateStep(config, oracle)(at, story) == StoryRun(config, oracle, at, story)
  {
  }

  /** The log after story i's requests holds those of stories 0 .. i. */
  lemma NextStoryLog(before: seq<Request>, runs: seq<Run>, run: Run, mid: seq<Request>, log: seq<Request>)
    requires mid == before + AllRequests(runs)
    requires log == mid + run.requests
    ensures log == before + AllRequests(runs + [run])
  {
  }

  /** Story i's entry written over those of stories 0 .. i-1 gives the result
      map of stories 0 .. i. */
  lemma NextStoryResults(stories: seq<Story>, i: nat, runs: seq<Run>, run: Run,
                         results: map<string, Option<string>>, key: Option<string>)
    requires i < |stories| && |runs| == i
    requires results == ResultMap(stories[..i], RunKeys(runs)) && key == run.key
    ensures results[stories[i].summary := key] == ResultMap(stories[..i + 1], RunKeys(runs + [run]))
  {
  }

  /** The result map: each summary is bound to its story's key, a later story
      overwriting an earlier one with the same summary. */
  function ResultMap(stories: seq<Story>, keys: seq<Option<string>>): (m: map<string, Option<string>>)
    requires |keys| == |stories|
    ensures forall i :: 0 <= i < |stories| ==> stories[i].summary in m
  {
    if stories == [] then map[]
    else
      var n := |stories| - 1;
      ResultMap(stories[..n], keys[..n])[stories[n].summary := keys[n]]
  }

  lemma {:induction false} ResultMapKeys(stories: seq<Story>, keys: seq<Option<string>>)
    requires |keys| == |stories|
    ensures ResultMap(stories, keys).Keys == set i | 0 <= i < |stories| :: stories[i].summary
  {
    if stories != [] {
      var n := |stories| - 1;
      ResultMapKeys(stories[..n], keys[..n]);
      var all := set i | 0 <= i < |stories| :: stories[i].summary;
      var front := set i | 0 <= i < n :: stories[..n][i].summary;
      assert all == front + {stories[n].summary} by {
        forall x | x in all ensures x in front + {stories[n].summary} {
          var i :| 0 <= i < |stories| && stories[i].summary == x;
          if i < n { assert stories[..n][i] == stories[i]; }
        }
      }
    }
  }

  /** The value for a summary is the key of the last story with that summary. */
  lemma {:induction false} ResultMapLastWins(stories: seq<Story>, keys: seq<Option<string>>, i: nat)
    requires |keys| == |stories| && i < |stories|
    requires forall j :: i < j < |stories| ==> stories[j].summary != stories[i].summary
    ensures stories[i].summary in ResultMap(stories, keys)
    ensures ResultMap(stories, keys)[stories[i].summary] == keys[i]
  {
    var n := |stories| - 1;
    if i < n {
      forall j | i < j < n ensures stories[..n][j].summary != stories[..n][i].summary {
        assert stories[..n][j] == stories[j];
      }
      ResultMapLastWins(stories[..n], keys[..n], i);
    }
  }

  lemma {:induction false} ResultMapSize(stories: seq<Story>, keys: seq<Option<string>>)
    requires |keys| == |stories|
    ensures |ResultMap(stories, keys)| <= |stories|
  {
    if stories != [] {
      var n := |stories| - 1;
      var m := ResultMap(stories[..n], keys[..n]);
      ResultMapSize(stories[..n], keys[..n]);
      var x := stories[n].summary;
      assert m[x := keys[n]].Keys == m.Keys + {x};
      assert |m.Keys + {x}| <= |m.Keys| + 1;
    }
  }

  /** `success_count`: the entries of the result map that hold a key. */
  function SuccessCount(results: map<string, Option<string>>): (count: nat)
    ensures count <= |results|
  {
    var created := set s | s in results && results[s].Some?;
    assert created <= results.Keys;
    SetSizeMonotone(created, results.Keys);
    |created|
  }

  lemma {:induction false} SetSizeMonotone<T>(a: set<T>, b: set<T>)
    requires a <= b
    ensures |a| <= |b|
  {
    if a != {} {
      var x :| x in a;
      SetSizeMonotone(a - {x}, b - {x});
    }
  }

  /** The logged success count never exceeds the number of stories. */
  lemma SuccessCountBound(stories: seq<Story>, keys: seq<Option<string>>)
    requires |keys| == |stories|
    ensures SuccessCount(ResultMap(stories, keys)) <= |stories|
  {
    ResultMapSize(stories, keys);
  }

  // ---- which requests are sent ----

  predicate IsStoryCreation(r: Request) {
    r.Create? && r.fields.issueType == StoryType
  }

  /** The story-creation requests among `reqs`, in order. */
  function StoryCreations(reqs: seq<Request>): seq<Request> {
    if reqs == [] then []
    else
      var n := |reqs| - 1;
      StoryCreations(reqs[..n]) + (if IsStoryCreation(reqs[n]) then [reqs[n]] else [])
  }

  lemma {:induction false} StoryCreationsAppend(a: seq<Request>, b: seq<Request>)
    ensures StoryCreations(a + b) == StoryCreations(a) + StoryCreations(b)
    decreases |b|
  {
    if b == [] {
      assert a + b == a;
    } else {
      var n := |b| - 1;
      assert (a + b)[..|a + b| - 1] == a + b[..n];
      StoryCreationsAppend(a, b[..n]);
    }
  }

  lemma {:induction false} NoStoryCreationsInSubTasks(config: Config, tasks: seq<Task>, parentKey: string)
    ensures StoryCreations(SubTaskRequests(config, tasks, parentKey)) == []
  {
    if tasks != [] {
      var n := |tasks| - 1;
      assert SubTaskRequests(config, tasks, parentKey)[..n] == SubTaskRequests(config, tasks[..n], parentKey);
      NoStoryCreationsInSubTasks(config, tasks[..n], parentKey);
    }
  }

  /** One story sends exactly one story-creation request: its own. */
  lemma StoryRunCreations(config: Config, oracle: Oracle, start: nat, story: Story, run: Run)
    requires run == StoryRun(config, oracle, start, story)
    ensures StoryCreations(run.requests) == [StoryRequest(config, story)]
  {
    var rest := if run.key.Some? && story.tasks.Some? then SubTaskRequests(config, story.tasks.value, run.key.value) else [];
    StoryCreationsAppend([StoryRequest(config, story)], rest);
    if run.key.Some? && story.tasks.Some? {
      NoStoryCreationsInSubTasks(config, story.tasks.value, run.key.value);
    }
    assert StoryCreations([StoryRequest(config, story)]) == [StoryRequest(config, story)] by {
      assert [StoryRequest(config, story)][..0] == [];
    }
  }


  /** Runs that each send their own story's creation request once send, together,
      the stories' creation requests in order. */
  lemma {:induction false} StoryCreationsOfRuns(config: Config, runs: seq<Run>, stories: seq<Story>)
    requires |runs| == |stories|
    requires forall i :: 0 <= i < |runs| ==> StoryCreations(runs[i].requests) == [StoryRequest(config, stories[i])]
    ensures StoryCreations(AllRequests(runs)) == StoryRequests(config, stories)
  {
    if runs != [] {
      var n := |runs| - 1;
      assert runs == runs[..n] + [runs[n]];
      forall i | 0 <= i < n
        ensures StoryCreations(runs[..n][i].requests) == [StoryRequest(config, stories[..n][i])]
      {
        assert runs[..n][i] == runs[i] && stories[..n][i] == stories[i];
      }
      StoryCreationsOfRuns(config, runs[..n], stories[..n]);
      AllRequestsSnoc(runs[..n], runs[n]);
      StoryCreationsAppend(AllRequests(runs[..n]), runs[n].requests);
    }
  }

  /** A step that sends exactly its own story's creation request. */
  ghost predicate SendsOwnStory(config: Config, step: Step) {
    forall at: nat, story: Story ::
      StoryCreations(step(at, story).requests) == [StoryRequest(config, story)]
  }

  lemma CreateStepSendsOwnStory(config: Config, oracle: Oracle)
    ensures SendsOwnStory(config, CreateStep(config, oracle))
  {
    forall at: nat, story: Story
      ensures StoryCreations(CreateStep(config, oracle)(at, story).requests) == [StoryRequest(config, story)]
    {
      StoryRunCreations(config, oracle, at, story, CreateStep(config, oracle)(at, story));
    }
  }

  lemma BatchCreationsOfStep(config: Config, step: Step, start: nat, stories: seq<Story>)
    requires SendsOwnStory(config, step)
    ensures StoryCreations(AllRequests(BatchRuns(step, start, stories))) == StoryRequests(config, stories)
  {
    var runs := BatchRuns(step, start, stories);
    forall i | 0 <= i < |runs| ensures StoryCreations(runs[i].requests) == [StoryRequest(config, stories[i])] {
      EveryStoryAttempted(step, start, stories, i);
    }
    StoryCreationsOfRuns(config, runs, stories);
  }

  /** A batch sends exactly one story-creation request per input story, in
      input order, duplicates included, whatever the tracker answers. */
  lemma BatchStoryCreations(config: Config, oracle: Oracle, start: nat, stories: seq<Story>)
    ensures StoryCreations(AllRequests(BatchRuns(CreateStep(config, oracle), start, stories))) ==
              StoryRequests(config, stories)
  {
    CreateStepSendsOwnStory(config, oracle);
    BatchCreationsOfStep(config, CreateStep(config, oracle), start, stories);
  }

  /** Creating the same batch twice, at any two log positions (for instance
      the second right after the first), sends every story-creation request
      twice: nothing is deduplicated. */
  lemma RepeatedBatchRepeatsRequests(config: Config, oracle: Oracle, first: nat, second: nat, stories: seq<Story>)
    ensures StoryCreations(AllRequests(BatchRuns(CreateStep(config, oracle), first, stories)) +
                           AllRequests(BatchRuns(CreateStep(config, oracle), second, stories)))
            == StoryRequests(config, stories) + StoryRequests(config, stories)
  {
    var one := AllRequests(BatchRuns(CreateStep(config, oracle), first, stories));
    var two := AllRequests(BatchRuns(CreateStep(config, oracle), second, stories));
    BatchStoryCreations(config, oracle, first, stories);
    BatchStoryCreations(config, oracle, second, stories);
    StoryCreationsAppend(one, two);
  }

  /** A request is one the workflow may send: a creation in the configured
      project, either a story under the configured epic or a sub-task under a
      story key the tracker returned. */
  ghost predicate Sanctioned(config: Config, keys: seq<Option<string>>, r: Request) {
    r.Create? && r.fields.projectKey == config.jiraProject &&
    ((r.fields.issueType == StoryType && r.fields.parentKey == config.jiraEpicKey) ||
     (r.fields.issueType == SubTaskType && Some(r.fields.parentKey) in keys))
  }

  ghost predicate AllSanctioned(config: Config, runs: seq<Run>) {
    forall k :: 0 <= k < |AllRequests(runs)| ==> Sanctioned(config, RunKeys(runs), AllRequests(runs)[k])
  }

  /** Every request of one story is sanctioned by the story's own key. */
  lemma StoryRunSanctioned(config: Config, oracle: Oracle, start: nat, story: Story, run: Run)
    requires run == StoryRun(config, oracle, start, story)
    ensures forall j :: 0 <= j < |run.requests| ==> Sanctioned(config, [run.key], run.requests[j])
  {
    forall j | 0 <= j < |run.requests| ensures Sanctioned(config, [run.key], run.requests[j]) {
      if j > 0 {
        assert run.requests[j] == run.requests[1..][j - 1];
        SubTaskRequestsAt(config, story.tasks.value, run.key.value, j - 1);
      }
    }
  }

  lemma {:induction false} SanctionedRuns(config: Config, runs: seq<Run>)
    requires forall i, j :: 0 <= i < |runs| && 0 <= j < |runs[i].requests| ==>
               Sanctioned(config, [runs[i].key], runs[i].requests[j])
    ensures AllSanctioned(config, runs)
  {
    if runs != [] {
      var n := |runs| - 1;
      var before := runs[..n];
      assert runs == before + [runs[n]];
      forall i, j | 0 <= i < |before| && 0 <= j < |before[i].requests|
        ensures Sanctioned(config, [before[i].key], before[i].requests[j])
      {
        assert before[i] == runs[i];
      }
      SanctionedRuns(config, before);
      AllRequestsSnoc(before, runs[n]);
      var all := AllRequests(runs);
      var keys := RunKeys(runs);
      forall k | 0 <= k < |all| ensures Sanctioned(config, keys, all[k]) {
        if k < |AllRequests(before)| {
          assert all[k] == AllRequests(before)[k];
          assert Sanctioned(config, RunKeys(before), all[k]);
        } else {
          assert all[k] == runs[n].requests[k - |AllRequests(before)|];
          assert Sanctioned(config, [runs[n].key], all[k]);
          assert runs[n].key in keys;
        }
      }
    }
  }

  /** A step whose every request is sanctioned by the step's own key. */
  ghost predicate StepSanctioned(config: Config, step: Step) {
    forall at: nat, story: Story, j ::
      0 <= j < |step(at, story).requests| ==> Sanctioned(config, [step(at, story).key], step(at, story).requests[j])
  }

  lemma CreateStepSanctioned(config: Config, oracle: Oracle)
    ensures StepSanctioned(config, CreateStep(config, oracle))
  {
    forall at: nat, story: Story
      ensures forall j :: 0 <= j < |CreateStep(config, oracle)(at, story).requests| ==>
                Sanctioned(config, [CreateStep(config, oracle)(at, story).key], CreateStep(config, oracle)(at, story).requests[j])
    {
      StoryRunSanctioned(config, oracle, at, story, CreateStep(config, oracle)(at, story));
    }
  }

  lemma BatchSanctionedOfStep(config: Config, step: Step, start: nat, stories: seq<Story>)
    requires StepSanctioned(config, step)
    ensures AllSanctioned(config, BatchRuns(step, start, stories))
  {
    var runs := BatchRuns(step, start, stories);
    forall i, j | 0 <= i < |runs| && 0 <= j < |runs[i].requests|
      ensures Sanctioned(config, [runs[i].key], runs[i].requests[j])
    {
      EveryStoryAttempted(step, start, stories, i);
    }
    SanctionedRuns(config, runs);
  }

  /** Every request of a batch is sanctioned. */
  lemma BatchRequestsSanctioned(config: Config, oracle: Oracle, start: nat, stories: seq<Story>)
    ensures AllSanctioned(config, BatchRuns(CreateStep(config, oracle), start, stories))
  {
    CreateStepSanctioned(config, oracle);
    BatchSanctionedOfStep(config, CreateStep(config, oracle), start, stories);
  }

  /** The worked scenario: one story with one task against a tracker that
      accepts everything, after the epic read at log position 0. */
  lemma SingleStoryScenario()
    ensures var config := Config("ABC", "ABC-1", "me@example.org", "token", "example.org", "u0");
            var task := Task("T1", "d2", None);
            var story := Story("S1", "d", Some([task]), None);
            var runs := BatchRuns(CreateStep(config, (i: nat, r: Request) => Ok("ABC-2")), 1, [story]);
            AllRequests(runs) == [StoryRequest(config, story), SubTaskRequest(config, task, "ABC-2")] &&
            ResultMap([story], RunKeys(runs)) == map["S1" := Some("ABC-2")]
  {
  }
}
