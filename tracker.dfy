/** The remote issue tracker as the epic manager sees it. The HTTP client
    library is not modelled: a client records every request it is asked to
    send, in order, and an oracle decides each request's outcome from its
    position in that log and its content. */
module Tracker {

  /** The `fields` dictionary of an issue-creation request:
      project.key, summary, description, issuetype.name, parent.key, assignee.id. */
  datatype IssueFields = IssueFields(
    projectKey: string,
    summary: string,
    description: string,
    issueType: string,
    parentKey: string,
    assigneeId: string)

  datatype Request =
    | Read(key: string)
    | Create(fields: IssueFields)

  /** What the tracker did with a request. For a creation: a response
      carrying the new issue's key; an HTTP error with its text; or any other
      failure (network, malformed response, a response without "key"). For a
      read: `Ok` whenever `jira.issue` returns, whatever the response holds
      (its key is not used); `HttpErr` and `OtherErr` only for a raised error. */
  datatype Outcome = Ok(key: string) | HttpErr(text: string) | OtherErr

  type Oracle = (nat, Request) -> Outcome

  class JiraClient {
    const url: string
    const username: string
    const password: string
    const oracle: Oracle
    /** Every request sent so far, oldest first. */
    var log: seq<Request>

    constructor (url: string, username: string, password: string, oracle: Oracle)
      ensures this.url == url && this.username == username && this.password == password
      ensures this.oracle == oracle && log == []
    {
      this.url, this.username, this.password := url, username, password;
      this.oracle := oracle;
      log := [];
    }

    /** `jira.issue(key)`: reads an issue; succeeds when the oracle answers a response. */
    method Issue(key: string) returns (found: bool)
      modifies this
      ensures log == old(log) + [Read(key)]
      ensures found <==> oracle(|old(log)|, Read(key)).Ok?
    {
      found := oracle(|log|, Read(key)).Ok?;
      log := log + [Read(key)];
    }

    /** `jira.create_issue(fields=...)`, with the key read from the response. */
    method CreateIssue(fields: IssueFields) returns (o: Outcome)
      modifies this
      ensures log == old(log) + [Create(fields)]
      ensures o == oracle(|old(log)|, Create(fields))
    {
      o := oracle(|log|, Create(fields));
      log := log + [Create(fields)];
    }
  }
}
