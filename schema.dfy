/** The data model of `src/schema.py`: `Task` and `Story` records and their
    validation from an already-parsed JSON value, reporting every problem found
    as pydantic does (a location and a kind per problem). */
module Schema {
  import opened Wrappers

  /** A parsed JSON value. Numbers are integers here; their value never matters. */
  datatype Json =
    | JNull
    | JBool(b: bool)
    | JNumber(n: int)
    | JString(s: string)
    | JArray(items: seq<Json>)
    | JObject(fields: map<string, Json>)

  datatype Task = Task(summary: string, description: string, assigneeId: Option<string>)

  datatype Story = Story(
    summary: string,
    description: string,
    tasks: Option<seq<Task>>,
    assigneeId: Option<string>)

  /** A step of an error location: an object key or a list index. */
  datatype LocStep = Key(name: string) | Index(i: nat)

  /** Missing required key; value not a string; not a list; not an object. */
  datatype IssueKind = Missing | StringType | ListType | ModelType

  datatype Issue = Issue(loc: seq<LocStep>, kind: IssueKind)

  /** Every issue is located under `at`. */
  ghost predicate LocatedUnder(issues: seq<Issue>, at: seq<LocStep>) {
    forall k :: 0 <= k < |issues| ==> at <= issues[k].loc
  }

  function IssuesOf<T>(r: Result<T, seq<Issue>>): seq<Issue> {
    if r.Failure? then r.error else []
  }

  // ---- reference definitions of what is valid ----

  ghost predicate IsStringField(o: map<string, Json>, key: string) {
    key in o && o[key].JString?
  }

  ghost predicate IsOptionalStringField(o: map<string, Json>, key: string) {
    key !in o || o[key].JNull? || o[key].JString?
  }

  ghost predicate IsTaskObject(j: Json) {
    j.JObject? &&
    IsStringField(j.fields, "summary") &&
    IsStringField(j.fields, "description") &&
    IsOptionalStringField(j.fields, "assignee_id")
  }

  ghost predicate IsStoryObject(j: Json) {
    j.JObject? &&
    IsStringField(j.fields, "summary") &&
    IsStringField(j.fields, "description") &&
    "tasks" in j.fields &&
    (j.fields["tasks"].JNull? ||
     (j.fields["tasks"].JArray? &&
      forall i :: 0 <= i < |j.fields["tasks"].items| ==> IsTaskObject(j.fields["tasks"].items[i]))) &&
    IsOptionalStringField(j.fields, "assignee_id")
  }

  /** The value an optional text field takes: absent and null both give None. */
  function OptionalValue(o: map<string, Json>, key: string): Option<string> {
    if key in o && o[key].JString? then Some(o[key].s) else None
  }

  // ---- the validators ----

  /** A required `str` field. */
  function RequiredString(o: map<string, Json>, key: string, at: seq<LocStep>): (r: Result<string, seq<Issue>>)
    ensures r.Success? <==> IsStringField(o, key)
    ensures r.Success? ==> r.value == o[key].s
    ensures r.Failure? ==> r.error != [] && LocatedUnder(r.error, at)
    ensures r.Failure? ==> LocatedUnder(r.error, at + [Key(key)])
  {
    if key !in o then Failure([Issue(at + [Key(key)], Missing)])
    else if o[key].JString? then Success(o[key].s)
    else Failure([Issue(at + [Key(key)], StringType)])
  }

  /** A `str | None` field with default None. */
  function OptionalString(o: map<string, Json>, key: string, at: seq<LocStep>): (r: Result<Option<string>, seq<Issue>>)
    ensures r.Success? <==> IsOptionalStringField(o, key)
    ensures r.Success? ==> r.value == OptionalValue(o, key)
    ensures r.Failure? ==> r.error != [] && LocatedUnder(r.error, at)
    ensures r.Failure? ==> LocatedUnder(r.error, at + [Key(key)])
  {
    if key !in o || o[key].JNull? then Success(None)
    else if o[key].JString? then Success(Some(o[key].s))
    else Failure([Issue(at + [Key(key)], StringType)])
  }

  /** `Task.model_validate`, reporting issues under location `at`. */
  function ValidateTask(j: Json, at: seq<LocStep>): (r: Result<Task, seq<Issue>>)
    ensures r.Success? <==> IsTaskObject(j)
    ensures r.Success? ==>
              r.value == Task(j.fields["summary"].s, j.fields["description"].s,
                              OptionalValue(j.fields, "assignee_id"))
    ensures r.Failure? ==> r.error != [] && LocatedUnder(r.error, at)
  {
    match j
    case JObject(o) =>
      var summary := RequiredString(o, "summary", at);
      var description := RequiredString(o, "description", at);
      var assignee := OptionalString(o, "assignee_id", at);
      if summary.Success? && description.Success? && assignee.Success?
      then Success(Task(summary.value, description.value, assignee.value))
      else Failure(IssuesOf(summary) + IssuesOf(description) + IssuesOf(assignee))
    case _ => Failure([Issue(at, ModelType)])
  }

  /** `list[Task]`: every element is validated, and the issues of all of them
      are reported in index order. */
  function ValidateTaskList(items: seq<Json>, at: seq<LocStep>): (r: Result<seq<Task>, seq<Issue>>)
    ensures r.Success? <==> forall i :: 0 <= i < |items| ==> IsTaskObject(items[i])
    ensures r.Success? ==>
              |r.value| == |items| &&
              forall i :: 0 <= i < |items| ==> r.value[i] == ValidateTask(items[i], at).value
    ensures r.Failure? ==> r.error != [] && LocatedUnder(r.error, at)
  {
    if items == [] then Success([])
    else
      var n := |items| - 1;
      var front := ValidateTaskList(items[..n], at);
      var last := ValidateTask(items[n], at + [Index(n)]);
      assert forall i :: 0 <= i < n ==> items[..n][i] == items[i];
      if front.Success? && last.Success?
      then Success(front.value + [last.value])
      else
        assert last.Failure? ==> LocatedUnder(last.error, at) by {
          if last.Failure? {
            forall k | 0 <= k < |last.error| ensures at <= last.error[k].loc {
              assert at <= at + [Index(n)];
            }
          }
        }
        Failure(IssuesOf(front) + IssuesOf(last))
  }

  /** The `tasks` field of a story: required, null or a list of tasks. */
  function TasksField(o: map<string, Json>): (r: Result<Option<seq<Task>>, seq<Issue>>)
    ensures "tasks" !in o ==> r == Failure([Issue([Key("tasks")], Missing)])
    ensures r.Success? <==>
              "tasks" in o &&
              (o["tasks"].JNull? ||
               (o["tasks"].JArray? &&
                forall i :: 0 <= i < |o["tasks"].items| ==> IsTaskObject(o["tasks"].items[i])))
    ensures r.Success? ==> (r.value.None? <==> o["tasks"].JNull?)
    ensures r.Success? && r.value.Some? ==>
              r.value.value == ValidateTaskList(o["tasks"].items, [Key("tasks")]).value
    ensures r.Failure? ==> r.error != []
  {
    if "tasks" !in o then Failure([Issue([Key("tasks")], Missing)])
    else match o["tasks"]
      case JNull => Success(None)
      case JArray(items) =>
        (match ValidateTaskList(items, [Key("tasks")])
         case Success(ts) => Success(Some(ts))
         case Failure(e) => Failure(e))
      case _ => Failure([Issue([Key("tasks")], ListType)])
  }

  /** `Story.model_validate` on a parsed value. The `tasks` key is required
      but may be null. */
  function ValidateStory(j: Json): (r: Result<Story, seq<Issue>>)
    ensures r.Success? <==> IsStoryObject(j)
    ensures r.Success? ==>
              r.value.summary == j.fields["summary"].s &&
              r.value.description == j.fields["description"].s &&
              r.value.assigneeId == OptionalValue(j.fields, "assignee_id") &&
              (r.value.tasks.None? <==> j.fields["tasks"].JNull?)
    ensures r.Success? && r.value.tasks.Some? ==>
              var items := j.fields["tasks"].items;
              |r.value.tasks.value| == |items| &&
              forall i :: 0 <= i < |items| ==> r.value.tasks.value[i] == ValidateTask(items[i], []).value
    ensures r.Failure? ==> r.error != []
  {
    match j
    case JObject(o) =>
      var summary := RequiredString(o, "summary", []);
      var description := RequiredString(o, "description", []);
      var tasks := TasksField(o);
      var assignee := OptionalString(o, "assignee_id", []);
      if summary.Success? && description.Success? && tasks.Success? && assignee.Success?
      then Success(Story(summary.value, description.value, tasks.value, assignee.value))
      else Failure(IssuesOf(summary) + IssuesOf(description) + IssuesOf(tasks) + IssuesOf(assignee))
    case _ => Failure([Issue([], ModelType)])
  }

  /** Why `Story.from_json_file` failed: the file could not be read or parsed,
      or its content is not a valid story. */
  datatype LoadError = Unreadable(reason: string) | Invalid(issues: seq<Issue>)

  /** `Story.from_json_file`, given the outcome of reading and parsing the file. */
  function FromJsonFile(loaded: Result<Json, string>): (r: Result<Story, LoadError>)
    ensures loaded.Failure? ==> r == Failure(Unreadable(loaded.error))
    ensures loaded.Success? ==>
              (r.Success? <==> IsStoryObject(loaded.value)) &&
              (r.Success? ==> r.value == ValidateStory(loaded.value).value) &&
              (r.Failure? ==> r.error == Invalid(ValidateStory(loaded.value).error))
  {
    match loaded
    case Failure(reason) => Failure(Unreadable(reason))
    case Success(j) =>
      match ValidateStory(j)
      case Success(story) => Success(story)
      case Failure(issues) => Failure(Invalid(issues))
  }

  // ---- the JSON form of the records, and the round trip ----

  function OptionalJson(a: Option<string>): Json {
    if a.Some? then JString(a.value) else JNull
  }

  function TaskJson(t: Task): Json {
    JObject(map["summary" := JString(t.summary), "description" := JString(t.description),
                "assignee_id" := OptionalJson(t.assigneeId)])
  }

  function StoryJson(s: Story): Json {
    JObject(map["summary" := JString(s.summary), "description" := JString(s.description),
                "tasks" := (if s.tasks.Some? then JArray(seq(|s.tasks.value|, i requires 0 <= i < |s.tasks.value| => TaskJson(s.tasks.value[i]))) else JNull),
                "assignee_id" := OptionalJson(s.assigneeId)])
  }

  /** Validation loses nothing: a story written out as JSON validates back to itself. */
  lemma {:induction false} StoryRoundTrip(s: Story)
    ensures ValidateStory(StoryJson(s)) == Success(s)
  {
    var j := StoryJson(s);
    if s.tasks.Some? {
      var ts := s.tasks.value;
      var items := j.fields["tasks"].items;
      forall i | 0 <= i < |items| ensures IsTaskObject(items[i]) && ValidateTask(items[i], []).value == ts[i] {
        assert items[i] == TaskJson(ts[i]);
      }
      assert IsStoryObject(j);
      var r := ValidateStory(j).value;
      assert r.tasks.value == ts;
    } else {
      assert IsStoryObject(j);
    }
  }

  /** The example story of a single task with no assignee. */
  lemma ExampleStoryValidates()
    ensures ValidateStory(JObject(map[
              "summary" := JString("S1"), "description" := JString("d"),
              "tasks" := JArray([JObject(map["summary" := JString("T1"), "description" := JString("d2")])])]))
            == Success(Story("S1", "d", Some([Task("T1", "d2", None)]), None))
  {
    var t := JObject(map["summary" := JString("T1"), "description" := JString("d2")]);
    var j := JObject(map["summary" := JString("S1"), "description" := JString("d"), "tasks" := JArray([t])]);
    assert IsTaskObject(t);
    assert IsStoryObject(j);
    var r := ValidateStory(j).value;
    assert ValidateTask(t, []).value == Task("T1", "d2", None);
    assert r.tasks.value == [Task("T1", "d2", None)];
  }

  /** A story without a `tasks` key is rejected, even though `tasks` may be null. */
  lemma TasksKeyRequired(summary: string, description: string)
    ensures ValidateStory(JObject(map["summary" := JString(summary), "description" := JString(description)]))
            == Failure([Issue([Key("tasks")], Missing)])
  {
    var o := map["summary" := JString(summary), "description" := JString(description)];
    assert "tasks" !in o;
    assert RequiredString(o, "summary", []).Success?;
    assert RequiredString(o, "description", []).Success?;
    assert OptionalString(o, "assignee_id", []).Success?;
    var e := [Issue([Key("tasks")], Missing)];
    assert TasksField(o) == Failure(e);
    assert IssuesOf(RequiredString(o, "summary", [])) == [];
    assert IssuesOf(RequiredString(o, "description", [])) == [];
    assert IssuesOf(OptionalString(o, "assignee_id", [])) == [];
    assert [] + [] + e + [] == e;
  }
}
