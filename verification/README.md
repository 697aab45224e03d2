# Issue tracker controller, modelled in Dafny

This project models the request handlers of a small issue-tracking REST API
(`controllers/index.js`). The datastore maps each project name to that project's
issue records in insertion order. Four handlers act on it:

- **create** (`addNewIssues`) checks the three required fields. It then fills in the
  defaults and appends one record to the project.
- **list** (`getAllIssues`) keeps the records whose every queried field, converted
  to text the way JavaScript's `String(...)` does, equals the query value.
- **update** (`updateIssues`) checks the `_id` and the field count. It then finds the
  first record with that `_id` and merges the request body into it.
- **delete** (`deleteIssues`) checks the `_id`, finds the record, and removes every
  record with that `_id`. One hard-coded test id is never removed.

The model has three modules:

- `JsValues` (`js_values.dfy`) covers the JavaScript semantics the handlers rely on.
  JSON values are `Str`, `Bool`, `Null`, or `Undef` (what a missing property reads as).
  `ToStr` is `String(v)`, `Falsy` is `!v`, and `Get` is a property read.
- `IssueController` (`issue_controller.dfy`) holds the data model and the handlers.
  - An issue, a request body and a query are maps. The datastore is a
    `map<string, seq<Issue>>`.
  - Create, update and delete are pure functions from the datastore to a response
    and a new datastore (`Create`, `Update`, `Delete`). Each one's contract states
    the error cases, what changes in the datastore and what does not. List
    (`GetAllIssues`) maps the datastore to a response only, so it returns no
    datastore at all.
  - The handlers that change the loaded datastore in place are also methods of the
    class `Datastore`. Each one updates the `projects` field step by step, and its
    postcondition equates the response and new state with the pure function's result.
  - The two `filter` calls and the `findIndex` call are recursive functions:
    `Filter`, `RemoveId` and `FindIndex`. Their contracts state membership, length
    and the first-match position. Order preservation is proved separately by the
    lemmas `FilterAppend` and `RemoveIdAppend`.
- `IssueProperties` (`issue_properties.dfy`) relates the handlers to each other:
  - a create read back through a list;
  - a delete followed by a list;
  - repeated updates and deletes;
  - the invariant that `_id`s stay unique within a project.

The fresh id (from `uuid()`) and the current time (from `new Date`) are parameters.
The time is passed as the text that JSON gives a date. Loading and saving the file
are not modelled: the datastore is a value handed to the handler.

### Behaviour as coded

- A record's key is `_id` (controllers/index.js:31), and update and delete read
  the id from the body field `_id` (controllers/index.js:68, 96).
- Every error is sent as an ordinary JSON body with no error status
  (controllers/index.js:27, 69, 72, 83, 98, 106). Status codes are not modelled.
- A new record has `open` set to `true` (controllers/index.js:37).
- Delete of the hard-coded id `c033416f-e13a-4b37-9a9c-9432df419c52` reports
  `successfully deleted` but keeps the record (controllers/index.js:97, 109-114).
- Update's "no update field(s) sent" check counts the body's keys: exactly one key
  is an error (controllers/index.js:71). The `_id` is already known to be present
  and truthy there, so this is the same as "the body holds only `_id`". The
  contract of `Update` states it in that form.
- Update merges every body key, including unknown keys, `created_on` and `open`
  (controllers/index.js:86). A text `"false"` for `open` is stored as text.
- A required field is checked only for JavaScript truthiness
  (controllers/index.js:26). So a boolean `true` passes and is stored as a boolean.
- The `= ""` defaults of create apply only to missing (`undefined`) fields
  (controllers/index.js:22-23). An explicit `null` is kept.
- Delete compares the id with the test id using loose `!=`
  (controllers/index.js:109). For the values modelled here, that is the same as
  `_id != Str(TestId)`.

## Model

| member | source | states |
|---|---|---|
| `JsValues.ToStr` | controllers/index.js:58 | `String(v)`: a string converts to itself. Only boolean true and the text "true" convert to "true", and only `undefined` and the text "undefined" convert to "undefined". |
| `JsValues.Falsy` | controllers/index.js:26 | JavaScript `!v`, which decides every error path (also lines 69 and 98): a string is falsy exactly when it is empty, a boolean exactly when it is false, and `null` and `undefined` always are. |
| `JsValues.Get` | controllers/index.js:58 | A property read `m[k]`: a present key gives its value, and the result is `undefined` exactly when the key is missing or holds `undefined`. |
| `IssueController.ProjectIssues` | controllers/index.js:42 | `savedIssues[project] ?? []` (also lines 54, 78 and 102): a known project gives its stored list, and the result is empty exactly when the project is unknown or its list is empty. |
| `IssueController.MissingRequired` | controllers/index.js:26 | The required-field test. A body that passes holds `issue_text`, `issue_title` and `created_by`, none of them empty text, `false`, `null` or `undefined`. A body that fails has one of the three falsy. |
| `IssueController.OrEmpty` | controllers/index.js:22-23 | The destructuring default `= ""`: the result is never `undefined`, a present value (even `null`) is kept, and `undefined` becomes `""`. |
| `IssueController.NewIssue` | controllers/index.js:18-40 | The created record has exactly the nine fields. Its `_id` is the fresh id and `open` is true. `created_on` and `updated_on` are both `now`. The required fields are as sent. `assigned_to` and `status_text` are as sent, or `""` when missing. |
| `IssueController.Create` | controllers/index.js:14-47 | The response is `required field(s) missing` exactly when one of `issue_title`, `issue_text`, `created_by` is falsy. In that case the store is unchanged. Otherwise the response is the new record, and the record is appended at the end of the project's list (the list is created when the project is absent). All other projects are unchanged. |
| `IssueController.Matches` | controllers/index.js:56-61 | The filter callback: a record matches exactly when, for every query key, its stringified field equals the query value, and a field the record lacks matches only the query text "undefined". |
| `IssueController.Filter` | controllers/index.js:56-61 | A record is kept exactly when it is in the list and every query key's stringified field equals the query value. The result is never longer than the list. |
| `IssueController.FilterAppend` | controllers/index.js:56-61 | Filtering distributes over concatenation, so the listed records keep their stored order. |
| `IssueController.FilterNoQuery` | controllers/index.js:56-61 | With no query parameters, the whole list is returned unchanged and in order. |
| `IssueController.FilterBoth` | controllers/index.js:57-59 | Query parameters combine with AND: filtering by two disjoint queries together gives the same result as filtering by one and then the other. |
| `IssueController.GetAllIssues` | controllers/index.js:50-64 | The list response holds exactly the project's records that match every filter. An unknown project gives `[]`. The function takes the store as a value and returns no store, so listing never modifies it. |
| `IssueController.FindIndex` | controllers/index.js:80 | `findIndex` returns -1 exactly when no record has the `_id`. Otherwise it returns a position holding the `_id`, with no earlier position holding it. |
| `IssueController.Merge` | controllers/index.js:86 | `{...before, ...body, updated_on}`. The result's keys are the old keys, the body keys and `updated_on`. Body keys override, other old fields are kept, and `updated_on` is `now`. |
| `IssueController.Update` | controllers/index.js:67-92 | There are four responses, checked in order: `missing _id` exactly when `_id` is falsy; `no update field(s) sent` exactly when the body holds only `_id`; `could not update` exactly when no record of the project has the `_id`; otherwise `successfully updated`. Only a success changes the store. On success, only the first record with the `_id` changes. That record becomes the merge of the body into it, and it keeps its `_id`. The list length, the other records and the other projects are unchanged. |
| `IssueController.OnlyKey` | controllers/index.js:71 | A body with one key that holds `_id` has no other key. This links the key-count test to "no update fields". |
| `IssueController.RemoveId` | controllers/index.js:110 | Delete's filter keeps exactly the records whose `_id` differs. The result is strictly shorter when some record has the `_id`. |
| `IssueController.RemoveIdAppend` | controllers/index.js:110 | Delete's filter distributes over concatenation, so the records that remain keep their relative order. |
| `IssueController.Delete` | controllers/index.js:95-115 | `missing _id` exactly when `_id` is falsy. `could not delete` exactly when no record of the project has the `_id`. Otherwise `successfully deleted`. The store is unchanged on an error and for the hard-coded test id. Otherwise only this project changes: it loses every record with that `_id`, keeps every other record, and gets strictly shorter. |
| `IssueController.Datastore.constructor` | controllers/index.js:16 | The loaded datastore holds the saved mapping. |
| `IssueController.Datastore.AddNewIssues` | controllers/index.js:14-48 | The in-place create leaves the response and the datastore exactly as `Create` describes. |
| `IssueController.Datastore.UpdateIssues` | controllers/index.js:67-92 | The in-place update leaves the response and the datastore exactly as `Update` describes. |
| `IssueController.Datastore.DeleteIssues` | controllers/index.js:95-115 | The in-place delete leaves the response and the datastore exactly as `Delete` describes. |
| `IssueProperties.CreateThenList` | controllers/index.js:42-61 | After a create, the unfiltered list is the earlier list followed by the created record. |
| `IssueProperties.CreateThenFindById` | controllers/index.js:30-61 | After a create with an id that no earlier record shows, listing by that `_id` returns exactly the created record. |
| `IssueProperties.FilterNoneMatch` | controllers/index.js:56-61 | When no record matches the query, the list is empty. |
| `IssueProperties.CreateKeepsIdsUnique` | controllers/index.js:31-45 | A create with an id that is fresh in the project keeps `_id`s unique within every project. |
| `IssueProperties.UpdateKeepsIdsUnique` | controllers/index.js:80-88 | An update keeps `_id`s unique within every project, because no position's `_id` changes. |
| `IssueProperties.UpdateTwice` | controllers/index.js:78-88 | Sending the same update again at a later time leaves the datastore exactly as a single update at that later time would. The second request finds the same record and only moves `updated_on` on. |
| `IssueProperties.MergeTwice` | controllers/index.js:86 | Merging the same body a second time, with a later time, gives the same record as merging it once with the later time. |
| `IssueProperties.FindIndexIsFirst` | controllers/index.js:80 | If position `i` holds the `_id` and no earlier position does, `findIndex` returns `i`. |
| `IssueProperties.RemoveIdKeepsUnique` | controllers/index.js:110 | Delete's filter keeps `_id`s unique. |
| `IssueProperties.DeleteKeepsIdsUnique` | controllers/index.js:109-112 | A delete keeps `_id`s unique within every project. |
| `IssueProperties.RemoveIdUnique` | controllers/index.js:110 | When `_id`s are unique, removing the `_id` at position `i` cuts out exactly that position. |
| `IssueProperties.RemoveIdOnlyAt` | controllers/index.js:110 | When only position `i` holds an `_id`, removing it gives the list without position `i`. |
| `IssueProperties.RemoveIdNone` | controllers/index.js:110 | Removing an `_id` that no record holds leaves the list unchanged. |
| `IssueProperties.DeleteThenList` | controllers/index.js:54-61 | After a successful delete of any id except the test id, no list of the project, whatever its filters, shows a record with that `_id`. |
| `IssueProperties.DeleteRemovesOne` | controllers/index.js:102-112 | When `_id`s are unique, a successful delete of any id except the test id makes the unfiltered list equal to the earlier one without the deleted record. |
| `IssueProperties.DeleteTwice` | controllers/index.js:102-112 | Deleting the same id (other than the test id) a second time gives `could not delete` and leaves the datastore unchanged. |
| `IssueProperties.DeleteTestIdNeverRemoves` | controllers/index.js:97-114 | Deleting the test id when it is present gives `successfully deleted` and leaves the datastore unchanged. |
| `IssueProperties.ListOpenTrue` | controllers/index.js:56-61 | The filter `open=true` keeps exactly the records whose `open` is boolean true or the text "true". |

## Left out

- Reading and writing the datastore file (`getData`/`saveData`), with its JSON parse and stringify and the read and write failures: the datastore is a value given to each handler.
- `uuid()` and `new Date`: the fresh id and the current time are parameters. As a result, the clock's ordering (a refreshed `updated_on` is never earlier than the previous one) is not modelled.
- Concurrent requests: each handler reads, changes and writes the whole file, so two concurrent writes can lose an update. This is concurrency and is not modelled.
- HTTP status codes, `res.json` serialisation and the order of keys in a JSON object: responses are a plain datatype.
- Route binding (routes/api.js) and the HTTP test harness (tests/2_functional-tests.js) are not part of this model.
- Values that are JSON numbers, arrays or objects in a body or a record, and a query parameter given several times (which arrives as an array): only text, booleans, `null` and `undefined` are modelled.
- Property names inherited from JavaScript's object prototype (a project named `__proto__` or `constructor`, a query key such as `constructor`): the model treats every object as a plain dictionary.
- The create handler's in-place `push` onto the array held in the loaded object: the model reassigns a sequence value. `foundProject` and `savedIssues[project]` are the same array when the project exists (controllers/index.js:42-44), and line 45 stores that same array back under the project, so the final datastore is the one the model computes.
- `IssueProperties.CreateKeepsIdsUnique` and `IssueProperties.CreateThenFindById` assume that the supplied id is fresh within the project. The handler itself does not check this, because it relies on `uuid()`.
