/** The issue controller of controllers/index.js: four request handlers over a
    datastore that maps a project name to the project's issues in insertion order.
    The file that holds the datastore, the id generator and the clock are not part
    of this model: the datastore is a value, and the fresh id and the current time
    (already rendered as the text JSON gives a date) are parameters. */
module IssueController {
  import opened JsValues

  /** An issue record: a JSON object. */
  type Issue = map<string, Val>

  /** A parsed request body. */
  type Body = map<string, Val>

  /** A parsed query string, each parameter given once, as text. */
  type Query = map<string, string>

  /** The whole datastore: project name to that project's issues, oldest first. */
  type Store = map<string, seq<Issue>>

  /** What a handler sends back with `res.json`. */
  datatype Response =
    | Record(issue: Issue)                 // the created record
    | Issues(issues: seq<Issue>)           // the listed records
    | Error(error: string)                 // { error }
    | ErrorFor(error: string, id: Val)     // { error, _id }
    | Done(result: string, id: Val)        // { result, _id }

  /** A handler's response together with the datastore it leaves behind. */
  datatype Outcome = Outcome(response: Response, store: Store)

  const RequiredMissing := "required field(s) missing"
  const MissingId := "missing _id"
  const NoUpdateFields := "no update field(s) sent"
  const CouldNotUpdate := "could not update"
  const CouldNotDelete := "could not delete"
  const SuccessfullyUpdated := "successfully updated"
  const SuccessfullyDeleted := "successfully deleted"

  /** The id that delete reports as deleted but never removes. */
  const TestId := "c033416f-e13a-4b37-9a9c-9432df419c52"

  /** The keys of a freshly created record. */
  const IssueFields: set<string> :=
    {"_id", "issue_text", "issue_title", "created_by", "assigned_to",
     "status_text", "open", "created_on", "updated_on"}

  /** `savedIssues[project] ?? []`. */
  function ProjectIssues(store: Store, project: string): (r: seq<Issue>)
    ensures project in store ==> r == store[project]
    ensures |r| == 0 <==> project !in store || |store[project]| == 0
  {
    if project in store then store[project] else []
  }

  function IdOf(issue: Issue): Val {
    Get(issue, "_id")
  }

  predicate HasId(issues: seq<Issue>, id: Val) {
    exists x :: x in issues && IdOf(x) == id
  }

  /** No two issues of a list share an `_id`. */
  ghost predicate UniqueIds(issues: seq<Issue>) {
    forall i, j :: 0 <= i < j < |issues| ==> IdOf(issues[i]) != IdOf(issues[j])
  }

  /** The datastore invariant: ids are unique within each project. */
  ghost predicate ValidStore(store: Store) {
    forall p :: p in store ==> UniqueIds(store[p])
  }

  // ---------------------------------------------------------------- create

  /** At least one of the three required fields is falsy. A body that passes
      holds all three, none of them empty text, `false` or `null`. */
  predicate MissingRequired(body: Body)
    ensures !MissingRequired(body) ==>
      forall k :: k in {"issue_text", "issue_title", "created_by"} ==>
        k in body && body[k] !in {Str(""), Bool(false), Null, Undef}
    ensures MissingRequired(body) ==>
      exists k :: k in {"issue_text", "issue_title", "created_by"} && Falsy(Get(body, k))
  {
    Falsy(Get(body, "issue_text")) || Falsy(Get(body, "issue_title")) || Falsy(Get(body, "created_by"))
  }

  /** A destructuring default `= ""`: it applies to `undefined` only. */
  function OrEmpty(v: Val): (r: Val)
    ensures r != Undef
    ensures v != Undef ==> r == v
    ensures v == Undef ==> r == Str("")
  {
    if v == Undef then Str("") else v
  }

  /** What create promises of the record it builds: exactly the nine fields, the
      fresh id, open, both timestamps `now`, the three required fields as sent and
      the two optional ones as sent or else empty. */
  ghost predicate IsNewRecord(rec: Issue, body: Body, id: string, now: string) {
    && rec.Keys == IssueFields
    && rec["_id"] == Str(id)
    && rec["open"] == Bool(true)
    && rec["created_on"] == Str(now) && rec["updated_on"] == Str(now)
    && rec["issue_title"] == Get(body, "issue_title")
    && rec["issue_text"] == Get(body, "issue_text")
    && rec["created_by"] == Get(body, "created_by")
    && rec["assigned_to"] == (if Get(body, "assigned_to") == Undef then Str("") else body["assigned_to"])
    && rec["status_text"] == (if Get(body, "status_text") == Undef then Str("") else body["status_text"])
  }

  function NewIssue(body: Body, id: string, now: string): (r: Issue)
    ensures IsNewRecord(r, body, id, now)
  {
    map[
      "_id" := Str(id),
      "issue_text" := Get(body, "issue_text"),
      "issue_title" := Get(body, "issue_title"),
      "created_by" := Get(body, "created_by"),
      "assigned_to" := OrEmpty(Get(body, "assigned_to")),
      "status_text" := OrEmpty(Get(body, "status_text")),
      "open" := Bool(true),
      "created_on" := Str(now),
      "updated_on" := Str(now)
    ]
  }

  /** The create handler, `addNewIssues`, as a function of the datastore. */
  function Create(store: Store, project: string, body: Body, id: string, now: string): (r: Outcome)
    ensures r.response == Error(RequiredMissing) <==> MissingRequired(body)
    ensures MissingRequired(body) ==> r.store == store
    ensures !MissingRequired(body) ==> r.response.Record?
    ensures r.response.Record? ==>
      var rec := r.response.issue;
      && IsNewRecord(rec, body, id, now)
      && r.store.Keys == store.Keys + {project}
      && r.store[project] == ProjectIssues(store, project) + [rec]
      && (forall p :: p in store && p != project ==> r.store[p] == store[p])
  {
    if MissingRequired(body) then
      Outcome(Error(RequiredMissing), store)
    else
      var data := NewIssue(body, id, now);
      Outcome(Record(data), store[project := ProjectIssues(store, project) + [data]])
  }

  // ---------------------------------------------------------------- list

  /** The filter callback of `getAllIssues`: every query parameter equals the
      stringified field of the same name. A field the record lacks reads as
      `undefined`, so it matches only the query text "undefined". */
  predicate Matches(issue: Issue, query: Query)
    ensures Matches(issue, query) <==>
      forall key :: key in query ==>
        if key in issue then ToStr(issue[key]) == query[key] else query[key] == "undefined"
  {
    forall key :: key in query ==> ToStr(Get(issue, key)) == query[key]
  }

  /** `issues.filter(issue => Matches(issue, query))`. */
  function Filter(issues: seq<Issue>, query: Query): (r: seq<Issue>)
    ensures |r| <= |issues|
    ensures forall x :: x in r <==> x in issues && Matches(x, query)
  {
    if issues == [] then []
    else (if Matches(issues[0], query) then [issues[0]] else []) + Filter(issues[1..], query)
  }

  /** Filtering keeps order: it distributes over concatenation. */
  lemma {:induction false} FilterAppend(a: seq<Issue>, b: seq<Issue>, query: Query)
    ensures Filter(a + b, query) == Filter(a, query) + Filter(b, query)
  {
    if a == [] {
      assert a + b == b;
    } else {
      assert (a + b)[1..] == a[1..] + b;
      FilterAppend(a[1..], b, query);
    }
  }

  /** With no query parameters the whole list comes back. */
  lemma {:induction false} FilterNoQuery(issues: seq<Issue>)
    ensures Filter(issues, map[]) == issues
  {
    if issues != [] {
      FilterNoQuery(issues[1..]);
    }
  }

  /** Query parameters combine with AND: two disjoint queries applied together
      keep the same records as one after the other. */
  lemma {:induction false} FilterBoth(issues: seq<Issue>, q1: Query, q2: Query)
    requires q1.Keys !! q2.Keys
    ensures Filter(issues, q1 + q2) == Filter(Filter(issues, q1), q2)
  {
    if issues != [] {
      var x := issues[0];
      assert Matches(x, q1 + q2) <==> Matches(x, q1) && Matches(x, q2) by {
        if Matches(x, q1) && Matches(x, q2) {
          forall key | key in q1 + q2 ensures ToStr(Get(x, key)) == (q1 + q2)[key] {
            if key in q2 { assert ToStr(Get(x, key)) == q2[key]; }
            else { assert ToStr(Get(x, key)) == q1[key]; }
          }
        }
        if Matches(x, q1 + q2) {
          forall key | key in q1 ensures ToStr(Get(x, key)) == q1[key] {
            assert key !in q2;
            assert ToStr(Get(x, key)) == (q1 + q2)[key];
          }
          forall key | key in q2 ensures ToStr(Get(x, key)) == q2[key] {
            assert ToStr(Get(x, key)) == (q1 + q2)[key];
          }
        }
      }
      FilterBoth(issues[1..], q1, q2);
      FilterAppend([x], issues[1..], q1);
      assert issues == [x] + issues[1..];
      FilterAppend(Filter([x], q1), Filter(issues[1..], q1), q2);
    }
  }

  /** The list handler, `getAllIssues`. It never changes the datastore. */
  function GetAllIssues(store: Store, project: string, query: Query): (r: Response)
    ensures r.Issues?
    ensures forall x :: x in r.issues <==> x in ProjectIssues(store, project) && Matches(x, query)
    ensures project !in store ==> r.issues == []
  {
    Issues(Filter(ProjectIssues(store, project), query))
  }

  // ---------------------------------------------------------------- update

  /** `projects.findIndex(issue => issue._id === id)`: the first position holding
      `id`, or -1. */
  function FindIndex(issues: seq<Issue>, id: Val): (i: int)
    ensures -1 <= i < |issues|
    ensures i == -1 <==> !HasId(issues, id)
    ensures 0 <= i ==> IdOf(issues[i]) == id && forall j :: 0 <= j < i ==> IdOf(issues[j]) != id
  {
    if issues == [] then -1
    else if IdOf(issues[0]) == id then 0
    else
      var k := FindIndex(issues[1..], id);
      assert issues == [issues[0]] + issues[1..];
      if k == -1 then -1 else k + 1
  }

  /** `merged` is `before` overridden by every key of `body`, with `updated_on`
      then set to `now`. */
  ghost predicate IsMerge(before: Issue, body: Body, now: string, merged: Issue) {
    && merged.Keys == before.Keys + body.Keys + {"updated_on"}
    && merged["updated_on"] == Str(now)
    && (forall k :: k in body && k != "updated_on" ==> merged[k] == body[k])
    && (forall k :: k in before && k !in body && k != "updated_on" ==> merged[k] == before[k])
  }

  /** `{ ...before, ...body, updated_on: now }`. */
  function Merge(before: Issue, body: Body, now: string): (r: Issue)
    ensures IsMerge(before, body, now, r)
  {
    (before + body)["updated_on" := Str(now)]
  }

  /** The update handler, `updateIssues`, as a function of the datastore. */
  function Update(store: Store, project: string, body: Body, now: string): (r: Outcome)
    ensures var id := Get(body, "_id"); var issues := ProjectIssues(store, project);
      && (r.response == Error(MissingId) <==> Falsy(id))
      && (r.response == ErrorFor(NoUpdateFields, id) <==> !Falsy(id) && body.Keys == {"_id"})
      && (r.response == ErrorFor(CouldNotUpdate, id) <==>
            !Falsy(id) && body.Keys != {"_id"} && !HasId(issues, id))
      && (r.response == Done(SuccessfullyUpdated, id) <==>
            !Falsy(id) && body.Keys != {"_id"} && HasId(issues, id))
    ensures !r.response.Done? ==> r.store == store
    ensures r.response.Done? ==>
      var id := Get(body, "_id"); var issues := ProjectIssues(store, project);
      var i := FindIndex(issues, id);
      && 0 <= i
      && r.store.Keys == store.Keys
      && (forall p :: p in store && p != project ==> r.store[p] == store[p])
      && |r.store[project]| == |issues|
      && (forall j :: 0 <= j < |issues| && j != i ==> r.store[project][j] == issues[j])
      && IsMerge(issues[i], body, now, r.store[project][i])
      && IdOf(r.store[project][i]) == id
  {
    var id := Get(body, "_id");
    if Falsy(id) then
      Outcome(Error(MissingId), store)
    else if |body| == 1 then
      assert body.Keys == {"_id"} by { OnlyKey(body, "_id"); }
      Outcome(ErrorFor(NoUpdateFields, id), store)
    else
      assert body.Keys != {"_id"};
      var issues := ProjectIssues(store, project);
      var index := FindIndex(issues, id);
      if index == -1 then
        Outcome(ErrorFor(CouldNotUpdate, id), store)
      else
        Outcome(Done(SuccessfullyUpdated, id), store[project := issues[index := Merge(issues[index], body, now)]])
  }

  /** A map with one key that holds `k` has no other key. */
  lemma OnlyKey(m: map<string, Val>, k: string)
    requires k in m && |m| == 1
    ensures m.Keys == {k}
  {
    var rest := m.Keys - {k};
    assert m.Keys == rest + {k};
    assert |rest| == 0;
  }

  // ---------------------------------------------------------------- delete

  /** `issues.filter(issue => issue._id !== id)`. */
  function RemoveId(issues: seq<Issue>, id: Val): (r: seq<Issue>)
    ensures |r| <= |issues|
    ensures forall x :: x in r <==> x in issues && IdOf(x) != id
    ensures HasId(issues, id) ==> |r| < |issues|
  {
    if issues == [] then []
    else
      assert issues == [issues[0]] + issues[1..];
      (if IdOf(issues[0]) != id then [issues[0]] else []) + RemoveId(issues[1..], id)
  }

  /** Removing keeps the order of what stays: it distributes over concatenation. */
  lemma {:induction false} RemoveIdAppend(a: seq<Issue>, b: seq<Issue>, id: Val)
    ensures RemoveId(a + b, id) == RemoveId(a, id) + RemoveId(b, id)
  {
    if a == [] {
      assert a + b == b;
    } else {
      assert (a + b)[1..] == a[1..] + b;
      RemoveIdAppend(a[1..], b, id);
    }
  }

  /** The delete handler, `deleteIssues`, as a function of the datastore. */
  function Delete(store: Store, project: string, body: Body): (r: Outcome)
    ensures var id := Get(body, "_id"); var issues := ProjectIssues(store, project);
      && (r.response == Error(MissingId) <==> Falsy(id))
      && (r.response == ErrorFor(CouldNotDelete, id) <==> !Falsy(id) && !HasId(issues, id))
      && (r.response == Done(SuccessfullyDeleted, id) <==> !Falsy(id) && HasId(issues, id))
    ensures !r.response.Done? || Get(body, "_id") == Str(TestId) ==> r.store == store
    ensures r.response.Done? && Get(body, "_id") != Str(TestId) ==>
      var id := Get(body, "_id"); var issues := ProjectIssues(store, project);
      && r.store.Keys == store.Keys
      && (forall p :: p in store && p != project ==> r.store[p] == store[p])
      && |r.store[project]| < |issues|
      && (forall x :: x in r.store[project] <==> x in issues && IdOf(x) != id)
  {
    var id := Get(body, "_id");
    if Falsy(id) then
      Outcome(Error(MissingId), store)
    else
      var issues := ProjectIssues(store, project);
      if FindIndex(issues, id) == -1 then
        Outcome(ErrorFor(CouldNotDelete, id), store)
      else
        var kept := if id != Str(TestId) then RemoveId(issues, id) else issues;
        Outcome(Done(SuccessfullyDeleted, id), store[project := kept])
  }

  // ---------------------------------------------------------------- handlers

  /** The datastore object a handler loads and then changes in place. */
  class Datastore {
    var projects: Store

    constructor (saved: Store)
      ensures projects == saved
    {
      projects := saved;
    }

    /** `addNewIssues`: validate, build the record, push it onto the project's list. */
    method AddNewIssues(project: string, body: Body, id: string, now: string) returns (resp: Response)
      modifies this
      ensures Outcome(resp, projects) == Create(old(projects), project, body, id, now)
    {
      var issueTitle, issueText, createdBy := Get(body, "issue_title"), Get(body, "issue_text"), Get(body, "created_by");
      var assignedTo, statusText := Get(body, "assigned_to"), Get(body, "status_text");
      if assignedTo == Undef { assignedTo := Str(""); }
      if statusText == Undef { statusText := Str(""); }

      if Falsy(issueText) || Falsy(issueTitle) || Falsy(createdBy) {
        return Error(RequiredMissing);
      }

      var data := map[
        "_id" := Str(id),
        "issue_text" := issueText,
        "issue_title" := issueTitle,
        "created_by" := createdBy,
        "assigned_to" := assignedTo,
        "status_text" := statusText,
        "open" := Bool(true),
        "created_on" := Str(now),
        "updated_on" := Str(now)
      ];
      var foundProject := if project in projects then projects[project] else [];
      foundProject := foundProject + [data];
      projects := projects[project := foundProject];
      resp := Record(data);
    }

    /** `updateIssues`: check the id and the field count, find the record, merge the body into it. */
    method UpdateIssues(project: string, body: Body, now: string) returns (resp: Response)
      modifies this
      ensures Outcome(resp, projects) == Update(old(projects), project, body, now)
    {
      var id := Get(body, "_id");
      if Falsy(id) {
        return Error(MissingId);
      }
      if |body| == 1 {
        return ErrorFor(NoUpdateFields, id);
      }
      var issues := if project in projects then projects[project] else [];
      var index := FindIndex(issues, id);
      if index == -1 {
        return ErrorFor(CouldNotUpdate, id);
      }
      issues := issues[index := Merge(issues[index], body, now)];
      projects := projects[project := issues];
      resp := Done(SuccessfullyUpdated, id);
    }

    /** `deleteIssues`: check the id, find the record, drop every record with that id
        unless it is the test id. */
    method DeleteIssues(project: string, body: Body) returns (resp: Response)
      modifies this
      ensures Outcome(resp, projects) == Delete(old(projects), project, body)
    {
      var id := Get(body, "_id");
      if Falsy(id) {
        return Error(MissingId);
      }
      var issues := if project in projects then projects[project] else [];
      var index := FindIndex(issues, id);
      if index == -1 {
        return ErrorFor(CouldNotDelete, id);
      }
      if id != Str(TestId) {
        issues := RemoveId(issues, id);
      }
      projects := projects[project := issues];
      resp := Done(SuccessfullyDeleted, id);
    }
  }
}
