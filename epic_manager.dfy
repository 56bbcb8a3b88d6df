/** `JiraEpic` of `src/epic_manager.py`: the object that holds the settings
    and a tracker client, and creates stories with their sub-tasks under the
    configured epic. Each method is proved to send exactly the requests the
    functions of `CreationPlan` describe and to answer what they answer. */
module EpicManager {
  import opened Wrappers
  import opened Errors
  import opened Settings
  import opened Schema
  import opened Tracker
  import opened CreationPlan

  class JiraEpic {
    const config: Config
    const jira: JiraClient

    constructor (config: Config, jira: JiraClient)
      ensures this.config == config && this.jira == jira
    {
      this.config := config;
      this.jira := jira;
    }

    /** `__init__`: loads the (cached) settings, opens a client on the
        configured site with the configured credentials and reads the epic.
        A settings error or an unreadable epic is raised, and no object is
        made. */
    static method Connect(settings: SettingsCache, source: map<string, string>, oracle: Oracle)
      returns (r: Result<JiraEpic, SetupError>)
      requires settings.Valid()
      modifies settings
      ensures settings.Valid()
      ensures settings.cached == (if old(settings.Lookup(source)).Success? then Some(old(settings.Lookup(source)).value) else None)
      ensures old(settings.Lookup(source)).Failure? ==> r == Failure(old(settings.Lookup(source)).error)
      ensures old(settings.Lookup(source)).Success? ==>
                var config := old(settings.Lookup(source)).value;
                if oracle(0, Read(config.jiraEpicKey)).Ok? then
                  r.Success? && fresh(r.value) && fresh(r.value.jira) &&
                  r.value.config == config && EpicKeyMatchesProject(r.value.config) &&
                  r.value.jira.url == JiraUrl(config) &&
                  r.value.jira.username == config.jiraEmail && r.value.jira.password == config.jiraToken &&
                  r.value.jira.oracle == oracle && r.value.jira.log == [Read(config.jiraEpicKey)]
                else
                  r == Failure(Raised(EpicNotFoundError(config.jiraEpicKey)))
    {
      var loaded := settings.GetSettings(source);
      if loaded.Failure? {
        return Failure(loaded.error);
      }
      var config := loaded.value;
      var client := new JiraClient(JiraUrl(config), config.jiraEmail, config.jiraToken, oracle);
      var epic := new JiraEpic(config, client);
      var missing := epic.VerifyEpicExists();
      if missing.Some? {
        return Failure(Raised(missing.value));
      }
      return Success(epic);
    }

    /** `_verify_epic_exists`: reads the configured epic; any failure becomes
        `JiraEpicNotFoundError` for that key. */
    method VerifyEpicExists() returns (err: Option<JiraError>)
      modifies jira
      ensures jira.log == old(jira.log) + [Read(config.jiraEpicKey)]
      ensures err.None? <==> jira.oracle(|old(jira.log)|, Read(config.jiraEpicKey)).Ok?
      ensures err.Some? ==> err.value == EpicNotFoundError(config.jiraEpicKey)
    {
      var found := jira.Issue(config.jiraEpicKey);
      if found {
        err := None;
      } else {
        err := Some(EpicNotFoundError(config.jiraEpicKey));
      }
    }

    /** `create_story_within_epic`: one creation request for the story under
        the epic; the new key, or the story-creation error. */
    method CreateStoryWithinEpic(story: Story) returns (r: Result<string, JiraError>)
      modifies jira
      ensures jira.log == old(jira.log) + [StoryRequest(config, story)]
      ensures r == StoryResult(story.summary, jira.oracle(|old(jira.log)|, StoryRequest(config, story)))
    {
      var fields := BuildIssueFields(config, story.summary, story.description, StoryType,
                                     config.jiraEpicKey, story.assigneeId);
      var o := jira.CreateIssue(fields);
      match o
      case Ok(key) =>
        r := Success(key);
      case HttpErr(text) =>
        r := Failure(StoryCreationError(story.summary, Some(text)));
      case OtherErr =>
        r := Failure(StoryCreationError(story.summary, None));
    }

    /** `create_sub_tasks_in_story`: one creation request per task, in order,
        every task attempted whatever happened to the ones before; `failed`
        is the list of summaries the source logs. */
    method CreateSubTasksInStory(allTasks: seq<Task>, parentKey: string) returns (failed: seq<string>)
      modifies jira
      ensures jira.log == old(jira.log) + SubTaskRequests(config, allTasks, parentKey)
      ensures failed == FailedSummaries(allTasks,
                          Outcomes(jira.oracle, |old(jira.log)|, SubTaskRequests(config, allTasks, parentKey)))
    {
      ghost var before := jira.log;
      failed := [];
      for i := 0 to |allTasks|
        invariant jira.log == before + SubTaskRequests(config, allTasks[..i], parentKey)
        invariant failed == FailedSummaries(allTasks[..i],
                              Outcomes(jira.oracle, |before|, SubTaskRequests(config, allTasks[..i], parentKey)))
      {
        ghost var sent := SubTaskRequests(config, allTasks[..i], parentKey);
        var fields := BuildIssueFields(config, allTasks[i].summary, allTasks[i].description, SubTaskType,
                                       parentKey, allTasks[i].assigneeId);
        ghost var at := |jira.log|;
        var o := jira.CreateIssue(fields);
        if !o.Ok? {
          failed := failed + [allTasks[i].summary];
        }
        SubTaskStep(config, allTasks, parentKey, i, jira.oracle, |before|, sent, fields, at, o);
      }
      assert allTasks[..|allTasks|] == allTasks;
    }

    /** `create_story_with_sub_tasks`: the story's key, after its sub-tasks;
        None when the story could not be created. */
    method CreateStoryWithSubTasks(story: Story) returns (key: Option<string>)
      modifies jira
      ensures jira.log == old(jira.log) + StoryRun(config, jira.oracle, |old(jira.log)|, story).requests
      ensures key == StoryRun(config, jira.oracle, |old(jira.log)|, story).key
    {
      ghost var run := StoryRun(config, jira.oracle, |jira.log|, story);
      var created := CreateStoryWithinEpic(story);
      if created.Failure? {
        return None;
      }
      var parentKey := created.value;
      if story.tasks.None? || story.tasks.value == [] {
        assert story.tasks.Some? ==> SubTaskRequests(config, story.tasks.value, parentKey) == [];
        return Some(parentKey);
      }
      var failed := CreateSubTasksInStory(story.tasks.value, parentKey);
      return Some(parentKey);
    }

    /** `create_stories`: every story in order, each one's summary bound to
        its key (or None) in the result, a repeated summary keeping the last
        story's entry. */
    method CreateStories(stories: seq<Story>) returns (results: map<string, Option<string>>)
      modifies jira
      ensures jira.log == old(jira.log) + AllRequests(BatchRuns(CreateStep(config, jira.oracle), |old(jira.log)|, stories))
      ensures results == ResultMap(stories, RunKeys(BatchRuns(CreateStep(config, jira.oracle), |old(jira.log)|, stories)))
    {
      ghost var before := jira.log;
      ghost var oracle := jira.oracle;
      ghost var runs: seq<Run> := [];
      results := map[];
      for i := 0 to |stories|
        invariant runs == BatchRuns(CreateStep(config, oracle), |before|, stories[..i])
        invariant jira.log == before + AllRequests(runs)
        invariant results == ResultMap(stories[..i], RunKeys(runs))
      {
        ghost var mid := jira.log;
        assert |mid| == |before| + |AllRequests(runs)|;
        ghost var run := StoryRun(config, oracle, |mid|, stories[i]);
        var key := CreateStoryWithSubTasks(stories[i]);
        CreateStepIsStoryRun(config, oracle, |mid|, stories[i]);
        BatchRunsSnoc(CreateStep(config, oracle), |before|, stories, i, runs, run);
        NextStoryLog(before, runs, run, mid, jira.log);
        NextStoryResults(stories, i, runs, run, results, key);
        results := results[stories[i].summary := key];
        runs := runs + [run];
      }
      assert stories[..|stories|] == stories;
    }
  }

  /** One more task: the requests, outcomes and failures so far extended by
      that task's. */
  lemma SubTaskStep(config: Config, allTasks: seq<Task>, parentKey: string, i: nat, oracle: Oracle, start: nat,
                    sent: seq<Request>, fields: IssueFields, at: nat, o: Outcome)
    requires i < |allTasks|
    requires sent == SubTaskRequests(config, allTasks[..i], parentKey)
    requires fields == BuildIssueFields(config, allTasks[i].summary, allTasks[i].description, SubTaskType,
                                        parentKey, allTasks[i].assigneeId)
    requires at == start + |sent|
    requires o == oracle(at, Create(fields))
    ensures SubTaskRequests(config, allTasks[..i + 1], parentKey) == sent + [SubTaskRequest(config, allTasks[i], parentKey)]
    ensures Outcomes(oracle, start, SubTaskRequests(config, allTasks[..i + 1], parentKey)) ==
              Outcomes(oracle, start, sent) + [o]
    ensures FailedSummaries(allTasks[..i + 1], Outcomes(oracle, start, SubTaskRequests(config, allTasks[..i + 1], parentKey))) ==
              FailedSummaries(allTasks[..i], Outcomes(oracle, start, sent)) + (if o.Ok? then [] else [allTasks[i].summary])
  {
    var upTo := allTasks[..i + 1];
    assert upTo[..i] == allTasks[..i] && upTo[i] == allTasks[i];
    var reqs := sent + [SubTaskRequest(config, allTasks[i], parentKey)];
    assert reqs[..|reqs| - 1] == sent;
    var outs := Outcomes(oracle, start, reqs);
    assert outs[..i] == Outcomes(oracle, start, sent);
  }

}
