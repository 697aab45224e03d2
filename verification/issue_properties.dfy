/** Properties that relate several handlers of the issue controller: what a list
    shows after a create, an update or a delete, the invariant that ids stay unique
    within a project, and what repeating a request does. */
module IssueProperties {
  import opened JsValues
  import opened IssueController

  // ---------------------------------------------------------------- create, then list

  /** After a create, listing the project with no filter shows the earlier issues
      in their order followed by the created record. */
  lemma CreateThenList(store: Store, project: string, body: Body, id: string, now: string)
    requires !MissingRequired(body)
    ensures var r := Create(store, project, body, id, now);
      GetAllIssues(r.store, project, map[]).issues
        == GetAllIssues(store, project, map[]).issues + [r.response.issue]
  {
    var r := Create(store, project, body, id, now);
    FilterNoQuery(r.store[project]);
    FilterNoQuery(ProjectIssues(store, project));
  }

  /** After a create with an id no record of the project shows, filtering the
      project by that `_id` gives back exactly the created record. */
  lemma CreateThenFindById(store: Store, project: string, body: Body, id: string, now: string)
    requires !MissingRequired(body)
    requires forall x :: x in ProjectIssues(store, project) ==> ToStr(IdOf(x)) != id
    ensures var r := Create(store, project, body, id, now);
      GetAllIssues(r.store, project, map["_id" := id]).issues == [r.response.issue]
  {
    var q := map["_id" := id];
    var before := ProjectIssues(store, project);
    var rec := NewIssue(body, id, now);
    var r := Create(store, project, body, id, now);
    assert r == Outcome(Record(rec), store[project := before + [rec]]);
    assert ProjectIssues(r.store, project) == before + [rec];
    FilterAppend(before, [rec], q);
    assert Filter(before, q) == [] by {
      forall j | 0 <= j < |before| ensures !Matches(before[j], q) {
        assert before[j] in before;
        assert "_id" in q;
      }
      FilterNoneMatch(before, q);
    }
    assert Filter([rec], q) == [rec] by {
      assert Matches(rec, q);
      assert [rec][1..] == [];
    }
  }

  /** A filter that no record passes leaves nothing. */
  lemma {:induction false} FilterNoneMatch(issues: seq<Issue>, query: Query)
    requires forall j :: 0 <= j < |issues| ==> !Matches(issues[j], query)
    ensures Filter(issues, query) == []
  {
    if issues != [] {
      FilterNoneMatch(issues[1..], query);
    }
  }

  /** A create whose id is fresh within the project keeps ids unique. */
  lemma CreateKeepsIdsUnique(store: Store, project: string, body: Body, id: string, now: string)
    requires ValidStore(store)
    requires !HasId(ProjectIssues(store, project), Str(id))
    ensures ValidStore(Create(store, project, body, id, now).store)
  {
  }

  // ---------------------------------------------------------------- update

  /** An update never changes which id sits at which position, so it keeps ids unique. */
  lemma UpdateKeepsIdsUnique(store: Store, project: string, body: Body, now: string)
    requires ValidStore(store)
    ensures ValidStore(Update(store, project, body, now).store)
  {
  }

  /** Sending the same update again later leaves the datastore as a single update
      at that later time would: the second request finds the same record, rewrites
      the same fields with the same values and only moves `updated_on` on. */
  lemma UpdateTwice(store: Store, project: string, body: Body, t1: string, t2: string)
    ensures var r := Update(store, project, body, t1);
      Update(r.store, project, body, t2).store == Update(store, project, body, t2).store
  {
    var r := Update(store, project, body, t1);
    if r.response.Done? {
      var id := Get(body, "_id");
      var before := ProjectIssues(store, project);
      var i := FindIndex(before, id);
      var after := before[i := Merge(before[i], body, t1)];
      assert r.store == store[project := after];
      assert ProjectIssues(r.store, project) == after;
      assert FindIndex(after, id) == i by {
        FindIndexIsFirst(after, id, i);
      }
      assert Merge(after[i], body, t2) == Merge(before[i], body, t2) by {
        MergeTwice(before[i], body, t1, t2);
      }
      assert Update(r.store, project, body, t2).store
        == r.store[project := after[i := Merge(before[i], body, t2)]];
      assert Update(store, project, body, t2).store
        == store[project := before[i := Merge(before[i], body, t2)]];
      assert after[i := Merge(before[i], body, t2)] == before[i := Merge(before[i], body, t2)];
    }
  }

  /** Merging the same body a second time, at a later time, is merging it once at
      that later time. */
  lemma MergeTwice(before: Issue, body: Body, t1: string, t2: string)
    ensures Merge(Merge(before, body, t1), body, t2) == Merge(before, body, t2)
  {
  }

  /** Any position that holds `id` with no earlier position holding it is the one
      `FindIndex` reports. */
  lemma FindIndexIsFirst(issues: seq<Issue>, id: Val, i: nat)
    requires i < |issues| && IdOf(issues[i]) == id
    requires forall j :: 0 <= j < i ==> IdOf(issues[j]) != id
    ensures FindIndex(issues, id) == i
  {
  }

  // ---------------------------------------------------------------- delete

  /** Putting a record in front of a list with unique ids, none of them its own,
      keeps ids unique. */
  lemma ConsKeepsUnique(h: Issue, rest: seq<Issue>)
    requires UniqueIds(rest)
    requires forall y :: y in rest ==> IdOf(y) != IdOf(h)
    ensures UniqueIds([h] + rest)
  {
  }

  /** Removing an id keeps ids unique. */
  lemma {:induction false} RemoveIdKeepsUnique(issues: seq<Issue>, id: Val)
    requires UniqueIds(issues)
    ensures UniqueIds(RemoveId(issues, id))
  {
    if issues != [] {
      var h, tail := issues[0], issues[1..];
      assert UniqueIds(tail) by {
        forall i, j | 0 <= i < j < |tail| ensures IdOf(tail[i]) != IdOf(tail[j]) {
          assert tail[i] == issues[i + 1] && tail[j] == issues[j + 1];
        }
      }
      RemoveIdKeepsUnique(tail, id);
      var rest := RemoveId(tail, id);
      if IdOf(h) != id {
        forall y | y in rest ensures IdOf(y) != IdOf(h) {
          var k :| 0 <= k < |tail| && tail[k] == y;
          assert issues[k + 1] == y;
        }
        ConsKeepsUnique(h, rest);
      }
    }
  }

  /** A delete keeps ids unique. */
  lemma DeleteKeepsIdsUnique(store: Store, project: string, body: Body)
    requires ValidStore(store)
    ensures ValidStore(Delete(store, project, body).store)
  {
    var r := Delete(store, project, body);
    if r.response.Done? && Get(body, "_id") != Str(TestId) {
      RemoveIdKeepsUnique(store[project], Get(body, "_id"));
    }
  }

  /** When ids are unique, removing the id at position `i` cuts out exactly that position. */
  lemma RemoveIdUnique(issues: seq<Issue>, i: nat)
    requires UniqueIds(issues) && i < |issues|
    ensures RemoveId(issues, IdOf(issues[i])) == issues[..i] + issues[i + 1..]
  {
    RemoveIdOnlyAt(issues, i, IdOf(issues[i]));
  }

  /** Removing an id that only position `i` holds cuts out exactly that position. */
  lemma {:induction false} RemoveIdOnlyAt(issues: seq<Issue>, i: nat, id: Val)
    requires i < |issues| && IdOf(issues[i]) == id
    requires forall j :: 0 <= j < |issues| && j != i ==> IdOf(issues[j]) != id
    ensures RemoveId(issues, id) == issues[..i] + issues[i + 1..]
  {
    var tail := issues[1..];
    assert forall j :: 0 <= j < |tail| && j != i - 1 ==> IdOf(tail[j]) != id by {
      forall j | 0 <= j < |tail| && j != i - 1 ensures IdOf(tail[j]) != id {
        assert tail[j] == issues[j + 1];
      }
    }
    if i == 0 {
      RemoveIdNone(tail, id);
    } else {
      RemoveIdOnlyAt(tail, i - 1, id);
      CutAfterHead(issues, i);
    }
  }

  /** Cutting position `i > 0` out of a sequence is cutting position `i - 1` out of its tail. */
  lemma CutAfterHead<T>(s: seq<T>, i: nat)
    requires 0 < i < |s|
    ensures s[..i] + s[i + 1..] == [s[0]] + (s[1..][..i - 1] + s[1..][i..])
  {
  }

  /** Removing an id no record holds changes nothing. */
  lemma {:induction false} RemoveIdNone(issues: seq<Issue>, id: Val)
    requires forall j :: 0 <= j < |issues| ==> IdOf(issues[j]) != id
    ensures RemoveId(issues, id) == issues
  {
    if issues != [] {
      RemoveIdNone(issues[1..], id);
    }
  }

  /** After a successful delete of any id but the test id, no listing of the
      project shows a record with that id. */
  lemma DeleteThenList(store: Store, project: string, body: Body, query: Query)
    requires Delete(store, project, body).response.Done?
    requires Get(body, "_id") != Str(TestId)
    ensures var r := Delete(store, project, body);
      forall x :: x in GetAllIssues(r.store, project, query).issues ==> IdOf(x) != Get(body, "_id")
  {
  }

  /** When ids are unique, a successful delete of any id but the test id leaves the
      project's unfiltered listing equal to the earlier one with exactly the deleted
      record cut out. */
  lemma DeleteRemovesOne(store: Store, project: string, body: Body)
    requires ValidStore(store)
    requires Delete(store, project, body).response.Done?
    requires Get(body, "_id") != Str(TestId)
    ensures var issues := ProjectIssues(store, project);
      var i := FindIndex(issues, Get(body, "_id"));
      && 0 <= i
      && GetAllIssues(Delete(store, project, body).store, project, map[]).issues
           == issues[..i] + issues[i + 1..]
  {
    var id := Get(body, "_id");
    var issues := ProjectIssues(store, project);
    var i := FindIndex(issues, id);
    var kept := RemoveId(issues, id);
    assert Delete(store, project, body).store == store[project := kept];
    assert kept == issues[..i] + issues[i + 1..] by {
      assert UniqueIds(issues);
      RemoveIdUnique(issues, i);
    }
    FilterNoQuery(kept);
  }

  /** Deleting the same id twice: the second request finds nothing to delete and
      leaves the datastore alone. The test id is the exception, since it is never removed. */
  lemma DeleteTwice(store: Store, project: string, body: Body)
    requires Delete(store, project, body).response.Done?
    requires Get(body, "_id") != Str(TestId)
    ensures var r := Delete(store, project, body);
      var again := Delete(r.store, project, body);
      again.response == ErrorFor(CouldNotDelete, Get(body, "_id")) && again.store == r.store
  {
  }

  /** Deleting the test id reports success every time and never changes the datastore. */
  lemma DeleteTestIdNeverRemoves(store: Store, project: string, body: Body)
    requires Get(body, "_id") == Str(TestId)
    requires HasId(ProjectIssues(store, project), Str(TestId))
    ensures var r := Delete(store, project, body);
      r.response == Done(SuccessfullyDeleted, Str(TestId)) && r.store == store
  {
  }

  // ---------------------------------------------------------------- list

  /** The filter `open=true` keeps exactly the records whose `open` is the boolean
      true or the text "true". */
  lemma ListOpenTrue(store: Store, project: string)
    ensures forall x :: x in GetAllIssues(store, project, map["open" := "true"]).issues <==>
      x in ProjectIssues(store, project) && (Get(x, "open") == Bool(true) || Get(x, "open") == Str("true"))
  {
  }
}
