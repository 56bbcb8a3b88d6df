/** The error values of `src/exceptions.py`: every exception is a record of a
    message and a details dictionary, plus the attributes its subclass sets. */
module Errors {
  import opened Wrappers

  /** Which subclass of `JiraError` was raised, with the attributes it keeps. */
  datatype ErrorKind =
    | Generic
    | ProjectNotFound(projectKey: string)
    | EpicNotFound(epicKey: string)
    | EpicProjectMismatch(epicKey: string, projectKey: string)
      /** `originalError` is the text `str(e)` of the caught error, if one was given. */
    | StoryCreation(storySummary: string, originalError: Option<string>)

  datatype JiraError = JiraError(kind: ErrorKind, message: string, details: map<string, string>)

  const ProjectNotFoundPrefix := "Jira project not found: "
  const EpicNotFoundPrefix := "Jira epic not found: "
  const StoryCreationPrefix := "Failed to create story: "

  /** The base constructor: the message is kept as given, missing details become `{}`. */
  function NewJiraError(message: string, details: Option<map<string, string>>): (e: JiraError)
    ensures e.kind == Generic && e.message == message
    ensures details.None? ==> e.details == map[]
    ensures details.Some? ==> e.details == details.value
  {
    JiraError(Generic, message, if details.Some? then details.value else map[])
  }

  function ProjectNotFoundError(projectKey: string): (e: JiraError)
    ensures e.kind == ProjectNotFound(projectKey)
    ensures ProjectNotFoundPrefix <= e.message
    ensures e.message[|ProjectNotFoundPrefix|..] == projectKey
    ensures e.details.Keys == {"project_key"} && e.details["project_key"] == projectKey
  {
    var message := ProjectNotFoundPrefix + projectKey;
    NewJiraError(message, Some(map["project_key" := projectKey])).(kind := ProjectNotFound(projectKey))
  }

  function EpicNotFoundError(epicKey: string): (e: JiraError)
    ensures e.kind == EpicNotFound(epicKey)
    ensures EpicNotFoundPrefix <= e.message
    ensures e.message[|EpicNotFoundPrefix|..] == epicKey
    ensures e.details.Keys == {"epic_key"} && e.details["epic_key"] == epicKey
  {
    var message := EpicNotFoundPrefix + epicKey;
    NewJiraError(message, Some(map["epic_key" := epicKey])).(kind := EpicNotFound(epicKey))
  }

  function EpicProjectMismatchError(epicKey: string, projectKey: string): (e: JiraError)
    ensures e.kind == EpicProjectMismatch(epicKey, projectKey)
    ensures e.message == "Jira epic " + epicKey + " doesn't match project " + projectKey
    ensures e.details.Keys == {"epic_key", "project_key"}
    ensures e.details["epic_key"] == epicKey && e.details["project_key"] == projectKey
  {
    var message := "Jira epic " + epicKey + " doesn't match project " + projectKey;
    NewJiraError(message, Some(map["epic_key" := epicKey, "project_key" := projectKey]))
      .(kind := EpicProjectMismatch(epicKey, projectKey))
  }

  /** A story that could not be created. An original error (any exception
      object is truthy in Python) is appended to the message and recorded in
      the details. */
  function StoryCreationError(storySummary: string, originalError: Option<string>): (e: JiraError)
    ensures e.kind == StoryCreation(storySummary, originalError)
    ensures StoryCreationPrefix + storySummary <= e.message
    ensures originalError.None? ==> e.message == StoryCreationPrefix + storySummary
    ensures originalError.Some? ==>
              e.message == StoryCreationPrefix + storySummary + " - " + originalError.value
    ensures "story_summary" in e.details && e.details["story_summary"] == storySummary
    ensures ("original_error" in e.details) == originalError.Some?
    ensures originalError.Some? ==> e.details["original_error"] == originalError.value
    ensures e.details.Keys <= {"story_summary", "original_error"}
  {
    var message := StoryCreationPrefix + storySummary;
    var details := map["story_summary" := storySummary];
    var (message, details) :=
      if originalError.Some?
      then (message + " - " + originalError.value, details["original_error" := originalError.value])
      else (message, details);
    NewJiraError(message, Some(details)).(kind := StoryCreation(storySummary, originalError))
  }

  /** Distinct epic keys give distinct messages: the key can be read back. */
  lemma EpicNotFoundMessageDeterminesKey(k1: string, k2: string)
    requires EpicNotFoundError(k1).message == EpicNotFoundError(k2).message
    ensures k1 == k2
  {
  }

  /** The mismatch message names the epic key and then the project key. */
  lemma MismatchMessageNamesBoth(epicKey: string, projectKey: string)
    ensures var m := EpicProjectMismatchError(epicKey, projectKey).message;
            m[|"Jira epic "|..|"Jira epic "| + |epicKey|] == epicKey && m[|m| - |projectKey|..] == projectKey
  {
  }
}
