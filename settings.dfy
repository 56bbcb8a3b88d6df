/** The application settings of `src/config.py`: six required text fields, a
    consistency rule between the epic key and the project key, and a
    process-wide cache that builds the settings once. */
module Settings {
  import opened Wrappers
  import opened Errors

  datatype Config = Config(
    jiraProject: string,
    jiraEpicKey: string,
    jiraEmail: string,
    jiraToken: string,
    jiraHost: string,
    jiraId: string)

  /** The field names, in declaration order. */
  const FieldNames: seq<string> :=
    ["jira_project", "jira_epic_key", "jira_email", "jira_token", "jira_host", "jira_id"]

  /** Why settings (or, later, the epic manager) could not be set up. */
  datatype SetupError =
    | MissingFields(names: seq<string>)
    | Raised(error: JiraError)

  const UrlScheme := "https://"

  /** `jira_url`: the base URL of the tracker, built from the host. */
  function JiraUrl(c: Config): (url: string)
    ensures |url| == |UrlScheme| + |c.jiraHost| + 1
    ensures UrlScheme <= url && url[|url| - 1] == '/'
    ensures url[|UrlScheme|..|url| - 1] == c.jiraHost
  {
    UrlScheme + c.jiraHost + "/"
  }

  /** `key.split("-")[0]`: the text before the first dash, or the whole key. */
  function EpicKeyPrefix(key: string): (p: string)
    ensures p <= key && '-' !in p
    ensures |p| < |key| ==> key[|p|] == '-'
  {
    if key == [] || key[0] == '-' then [] else [key[0]] + EpicKeyPrefix(key[1..])
  }

  /** The three facts `EpicKeyPrefix` ensures pin the prefix down uniquely. */
  lemma EpicKeyPrefixUnique(key: string, q: string)
    requires q <= key && '-' !in q
    requires |q| < |key| ==> key[|q|] == '-'
    ensures q == EpicKeyPrefix(key)
  {
  }

  predicate EpicKeyMatchesProject(c: Config) {
    EpicKeyPrefix(c.jiraEpicKey) == c.jiraProject
  }

  /** The accepted pairs, stated without splitting: the project key has no
      dash, and the epic key is the project key alone or followed by a dash. */
  lemma MatchesIffKeyFormat(c: Config)
    ensures EpicKeyMatchesProject(c) <==>
              '-' !in c.jiraProject &&
              (c.jiraEpicKey == c.jiraProject || c.jiraProject + "-" <= c.jiraEpicKey)
  {
    var p, k := c.jiraProject, c.jiraEpicKey;
    if '-' !in p && (k == p || p + "-" <= k) {
      assert p <= k;
      if |p| < |k| {
        assert k[|p|] == (p + "-")[|p|];
      }
      EpicKeyPrefixUnique(k, p);
    }
  }

  /** The `model_validator` of `Config`: a mismatch raises
      `JiraEpicProjectMismatchError` with both keys. */
  function ValidateProjectAndEpicKey(c: Config): (r: Result<Config, SetupError>)
    ensures r.Success? <==> EpicKeyMatchesProject(c)
    ensures r.Success? ==> r.value == c
    ensures r.Failure? ==>
              r.error == Raised(EpicProjectMismatchError(c.jiraEpicKey, c.jiraProject))
  {
    if EpicKeyPrefix(c.jiraEpicKey) != c.jiraProject
    then Failure(Raised(EpicProjectMismatchError(c.jiraEpicKey, c.jiraProject)))
    else Success(c)
  }

  lemma AcceptsMatchingEpicKey()
    ensures ValidateProjectAndEpicKey(Config("ABC", "ABC-1", "e", "t", "h", "i")).Success?
  {
  }

  lemma RejectsForeignEpicKey()
    ensures ValidateProjectAndEpicKey(Config("ABC", "XYZ-1", "e", "t", "h", "i")) ==
              Failure(Raised(EpicProjectMismatchError("XYZ-1", "ABC")))
  {
  }

  /** The names of the required fields absent from `source`, in declaration order. */
  function MissingFieldNames(source: map<string, string>, names: seq<string>): (missing: seq<string>)
    ensures forall n :: n in missing <==> n in names && n !in source
  {
    if names == [] then []
    else (if names[0] in source then [] else [names[0]]) + MissingFieldNames(source, names[1..])
  }

  /** Every field of `Config` has a value in `source`. */
  predicate HasAllFields(source: map<string, string>) {
    "jira_project" in source && "jira_epic_key" in source && "jira_email" in source &&
    "jira_token" in source && "jira_host" in source && "jira_id" in source
  }

  lemma HasAllFieldsIff(source: map<string, string>)
    ensures HasAllFields(source) <==> forall n :: n in FieldNames ==> n in source
  {
  }

  /** The `Config` whose fields are the named values of `source`. */
  function ConfigOf(source: map<string, string>): Config
    requires HasAllFields(source)
  {
    Config(source["jira_project"], source["jira_epic_key"], source["jira_email"],
           source["jira_token"], source["jira_host"], source["jira_id"])
  }

  /** Building a `Config` from named values: every field is required (pydantic
      reports all missing ones at once), and only then is the model validator run. */
  function LoadConfig(source: map<string, string>): (r: Result<Config, SetupError>)
    ensures r.Success? <==> HasAllFields(source) && EpicKeyMatchesProject(ConfigOf(source))
    ensures r.Success? ==>
              r.value.jiraProject == source["jira_project"] &&
              r.value.jiraEpicKey == source["jira_epic_key"] &&
              r.value.jiraEmail == source["jira_email"] &&
              r.value.jiraToken == source["jira_token"] &&
              r.value.jiraHost == source["jira_host"] &&
              r.value.jiraId == source["jira_id"]
    ensures !HasAllFields(source) ==> r == Failure(MissingFields(MissingFieldNames(source, FieldNames)))
    ensures HasAllFields(source) ==> r == ValidateProjectAndEpicKey(ConfigOf(source))
    ensures r.Failure? && r.error.MissingFields? ==>
              r.error.names != [] &&
              forall n :: n in r.error.names <==> n in FieldNames && n !in source
  {
    var missing := MissingFieldNames(source, FieldNames);
    HasAllFieldsIff(source);
    if missing != [] then
      assert missing[0] in FieldNames;
      Failure(MissingFields(missing))
    else
      ValidateProjectAndEpicKey(ConfigOf(source))
  }

  /** `get_settings` with its `lru_cache`: the first successful call builds and
      validates the settings; every later call returns the cached value without
      looking at the source again. A failed call caches nothing. */
  class SettingsCache {
    var cached: Option<Config>

    ghost predicate Valid()
      reads this
    {
      cached.Some? ==> EpicKeyMatchesProject(cached.value)
    }

    /** What a call would answer now. */
    function Lookup(source: map<string, string>): (r: Result<Config, SetupError>)
      reads this
      requires Valid()
      ensures r.Success? ==> EpicKeyMatchesProject(r.value)
      ensures cached.Some? ==> r == Success(cached.value)
      ensures cached.None? ==> r == LoadConfig(source)
    {
      if cached.Some? then Success(cached.value) else LoadConfig(source)
    }

    constructor ()
      ensures Valid() && cached == None
    {
      cached := None;
    }

    method GetSettings(source: map<string, string>) returns (r: Result<Config, SetupError>)
      requires Valid()
      modifies this
      ensures Valid()
      ensures r == old(Lookup(source))
      ensures cached == (if r.Success? then Some(r.value) else None)
    {
      if cached.Some? {
        r := Success(cached.value);
        return;
      }
      r := LoadConfig(source);
      if r.Success? {
        cached := Some(r.value);
      }
    }
  }
}
