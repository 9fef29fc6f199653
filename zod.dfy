/**
 * The part of a Zod validation failure the middlewares read: its issues, in
 * the order the schema raised them, each with a code, the path to the
 * offending field and a message. `fromZodError(e).details` and
 * `fromError(e).details` are these issues.
 */
module Zod {
  import opened Wrappers
  import opened Json

  datatype ZodIssue = ZodIssue(code: string, path: seq<string>, message: string)

  /** An issue as it appears in a JSON reply. */
  function IssueJson(issue: ZodIssue): (r: Json)
    ensures Get(r, "message") == Some(JString(issue.message))
  {
    var members := [("code", JString(issue.code)),
                    ("path", JArray(seq(|issue.path|, k requires 0 <= k < |issue.path| => JString(issue.path[k])))),
                    ("message", JString(issue.message))];
    assert members[1..][1..] == [("message", JString(issue.message))];
    assert members[0].0 != "message" && members[1].0 != "message";
    assert Lookup(members[1..][1..], "message") == Some(JString(issue.message));
    assert Lookup(members[1..], "message") == Some(JString(issue.message));
    JObject(members)
  }

  function IssuesJson(issues: seq<ZodIssue>): seq<Json>
  {
    seq(|issues|, k requires 0 <= k < |issues| => IssueJson(issues[k]))
  }

  /** The serialised issues are one object per issue, in order, and each still reads back its own message. */
  lemma IssuesKeepMessages(issues: seq<ZodIssue>)
    ensures |IssuesJson(issues)| == |issues|
    ensures forall k :: 0 <= k < |issues| ==>
      IssuesJson(issues)[k].JObject? && Get(IssuesJson(issues)[k], "message") == Some(JString(issues[k].message))
  {
  }
}
