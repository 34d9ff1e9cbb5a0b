/**
 * Project persistence over an abstract document store: one collection of project records,
 * its indexes, and the set of collection names the database reports. Every store call made
 * while the store is failing raises a store error, which each operation rethrows as a
 * `RuntimeError` with its own prefix; other exceptions pass through unwrapped.
 */
module ProjectModel {

  import opened Wrappers
  import opened Text
  import opened ProjectScheme

  /** A stored project document: its `_id` and its `project_id`. */
  datatype Record = Record(id: ObjectId, projectId: string)

  /** The exceptions the operations raise. */
  datatype Failure =
    | RuntimeError(message: string)
    | ValidationError(message: string)
    | ZeroDivisionError
    | ValueError(message: string)

  const InitFailed: string := "Failed to initialize collection: "

  const CreateFailed: string := "Error creating project: "

  const FindFailed: string := "Error retrieving or creating project: "

  const ListFailed: string := "Error retrieving projects: "

  const NegativeSkip: string := "skip must be >= 0"

  const DuplicateKey: string := "E11000 duplicate key error"

  const IndexConflict: string := "An existing index has the same name as the requested index"

  function Abs(n: int): nat {
    if n < 0 then -n else n
  }

  function Min(a: int, b: int): int {
    if a < b then a else b
  }

  // ---------------------------------------------------------------------
  // Pagination

  /** Python's `//`: the quotient rounded towards minus infinity. */
  function FloorDiv(a: int, b: int): (q: int)
    requires b != 0
    ensures b > 0 ==> q * b <= a < q * b + b
    ensures b < 0 ==> q * b + b < a <= q * b
  {
    if b > 0 then a / b else (-a) / (-b)
  }

  /** The stored project id of the first record that fails validation, if any. */
  function FirstInvalid(records: seq<Record>): (r: Option<string>)
    ensures r.None? <==> forall k :: 0 <= k < |records| ==> IsAlnum(records[k].projectId)
    ensures r.Some? ==> !IsAlnum(r.value)
  {
    if records == [] then None
    else if !IsAlnum(records[0].projectId) then Some(records[0].projectId)
    else FirstInvalid(records[1..])
  }

  /** The offset of a page, `(page - 1) * page_size`. */
  function Offset(page: int, pageSize: int): int {
    (page - 1) * pageSize
  }

  /** `get_all_projects` over the collection's records in their natural order: the records
      from offset `(page - 1) * pageSize`, at most `|pageSize|` of them (a negative limit is
      a single batch of that many), with the page count `(total + pageSize - 1) // pageSize`.
      A failing store is a wrapped `RuntimeError`; a zero page size is a `ZeroDivisionError`
      and a negative offset a `ValueError`, both unwrapped; a record whose project id fails
      validation is a `ValidationError`. */
  function GetAllProjects(records: seq<Record>, storeError: Option<string>, page: int := 1, pageSize: int := 10)
    : (r: Result<(seq<Record>, int), Failure>)
    ensures storeError.Some? ==> r == Err(RuntimeError(ListFailed + storeError.value))
    ensures storeError.None? && pageSize == 0 ==> r == Err(ZeroDivisionError)
    ensures storeError.None? && pageSize != 0 && Offset(page, pageSize) < 0 ==> r == Err(ValueError(NegativeSkip))
    ensures r.Ok? ==> pageSize != 0 && Offset(page, pageSize) >= 0
    ensures r.Ok? ==> |r.value.0| <= Abs(pageSize)
    ensures r.Ok? ==> forall k :: 0 <= k < |r.value.0| ==>
      Offset(page, pageSize) + k < |records| && r.value.0[k] == records[Offset(page, pageSize) + k]
    ensures r.Ok? ==> |r.value.0| == Abs(pageSize) || Offset(page, pageSize) + |r.value.0| >= |records|
    ensures r.Ok? ==> forall k :: 0 <= k < |r.value.0| ==> IsAlnum(r.value.0[k].projectId)
    ensures r.Ok? ==> r.value.1 == FloorDiv(|records| + pageSize - 1, pageSize)
  {
    if storeError.Some? then Err(RuntimeError(ListFailed + storeError.value))
    else if pageSize == 0 then Err(ZeroDivisionError)
    else
      var totalPages := FloorDiv(|records| + pageSize - 1, pageSize);
      var skip := Offset(page, pageSize);
      if skip < 0 then Err(ValueError(NegativeSkip))
      else
        var lo := Min(skip, |records|);
        var hi := Min(skip + Abs(pageSize), |records|);
        var items := records[lo..hi];
        match FirstInvalid(items)
        case Some(bad) => Err(ValidationError(ValidateProjectId(bad).error))
        case None => Ok((items, totalPages))
  }

  lemma MulMonotonic(x: int, y: int, c: int)
    requires x <= y && c > 0
    ensures x * c <= y * c
  {
    assert y * c - x * c == (y - x) * c;
  }

  /** For a positive page size the page count is the ceiling of total over page size: the
      least count of pages that holds every record. */
  lemma PageCountIsCeiling(total: nat, pageSize: int)
    requires pageSize > 0
    ensures var n := FloorDiv(total + pageSize - 1, pageSize);
      n >= 0 && n * pageSize >= total && (n - 1) * pageSize < total
    ensures forall m: int {:trigger m * pageSize} :: m * pageSize >= total ==> m >= FloorDiv(total + pageSize - 1, pageSize)
  {
    var n := FloorDiv(total + pageSize - 1, pageSize);
    assert (n - 1) * pageSize == n * pageSize - pageSize;
    if n < 0 {
      MulMonotonic(n, -1, pageSize);
    }
    forall m: int | m * pageSize >= total
      ensures m >= n
    {
      if m < n {
        MulMonotonic(m, n - 1, pageSize);
      }
    }
  }

  /** With a positive page size and valid records, record `i` is item `i % pageSize` of page
      `i / pageSize + 1`, and that page is within the page count. */
  lemma EveryRecordOnItsPage(records: seq<Record>, pageSize: int, i: int)
    requires pageSize > 0 && 0 <= i < |records|
    requires forall k :: 0 <= k < |records| ==> IsAlnum(records[k].projectId)
    ensures var page := i / pageSize + 1;
      && 1 <= page <= FloorDiv(|records| + pageSize - 1, pageSize)
      && GetAllProjects(records, None, page, pageSize).Ok?
      && |GetAllProjects(records, None, page, pageSize).value.0| > i % pageSize
      && GetAllProjects(records, None, page, pageSize).value.0[i % pageSize] == records[i]
  {
    var page := i / pageSize + 1;
    PageOfIndex(|records|, pageSize, i);
    var skip := Offset(page, pageSize);
    var lo := Min(skip, |records|);
    var hi := Min(skip + Abs(pageSize), |records|);
    assert forall k :: 0 <= k < |records[lo..hi]| ==> IsAlnum(records[lo..hi][k].projectId);
    var r := GetAllProjects(records, None, page, pageSize);
    assert r.Ok?;
  }

  /** Index `i` lies on page `i / pageSize + 1`, at position `i % pageSize`, within the page count. */
  lemma PageOfIndex(total: nat, pageSize: int, i: int)
    requires pageSize > 0 && 0 <= i < total
    ensures var page := i / pageSize + 1;
      && 1 <= page <= FloorDiv(total + pageSize - 1, pageSize)
      && Offset(page, pageSize) == i - i % pageSize && 0 <= i % pageSize < pageSize
  {
    var page := i / pageSize + 1;
    var n := FloorDiv(total + pageSize - 1, pageSize);
    PageCountIsCeiling(total, pageSize);
    if page > n {
      MulMonotonic(n, page - 1, pageSize);
    }
  }

  /** A page after the last one is empty. */
  lemma PagesAfterTheLastAreEmpty(records: seq<Record>, page: int, pageSize: int)
    requires pageSize > 0 && page > FloorDiv(|records| + pageSize - 1, pageSize)
    ensures GetAllProjects(records, None, page, pageSize) == Ok(([], FloorDiv(|records| + pageSize - 1, pageSize)))
  {
    var n := FloorDiv(|records| + pageSize - 1, pageSize);
    PageCountIsCeiling(|records|, pageSize);
    MulMonotonic(n, page - 1, pageSize);
    var skip := (page - 1) * pageSize;
    assert skip >= |records|;
    assert records[Min(skip, |records|)..Min(skip + pageSize, |records|)] == [];
  }

  /** The default call returns the first ten records. */
  lemma DefaultPageIsFirstTen(records: seq<Record>)
    requires forall k :: 0 <= k < |records| ==> IsAlnum(records[k].projectId)
    ensures GetAllProjects(records, None) == Ok((records[..Min(10, |records|)], FloorDiv(|records| + 9, 10)))
  {
    var items := records[Min(0, |records|)..Min(10, |records|)];
    assert items == records[..Min(10, |records|)];
    assert forall k :: 0 <= k < |items| ==> IsAlnum(items[k].projectId);
  }

  // ---------------------------------------------------------------------
  // Lookup and indexes

  /** `find_one({"project_id": projectId})`: the first record, in natural order, with that id. */
  function FindOne(records: seq<Record>, projectId: string): (r: Option<Record>)
    ensures r.None? <==> forall k :: 0 <= k < |records| ==> records[k].projectId != projectId
    ensures r.Some? ==> r.value in records && r.value.projectId == projectId
    ensures r.Some? ==> exists k :: 0 <= k < |records| && records[k] == r.value &&
                          forall j :: 0 <= j < k ==> records[j].projectId != projectId
  {
    if records == [] then None
    else if records[0].projectId == projectId then Some(records[0])
    else
      var rest := FindOne(records[1..], projectId);
      if rest.Some? then
        var k :| 0 < k + 1 < |records| && records[1..][k] == rest.value &&
          forall j :: 0 <= j < k ==> records[1..][j].projectId != projectId;
        assert records[k + 1] == rest.value;
        assert forall j :: 0 <= j < k + 1 ==> records[j].projectId != projectId by {
          forall j | 0 <= j < k + 1
            ensures records[j].projectId != projectId
          {
            if j > 0 {
              assert records[j] == records[1..][j - 1];
            }
          }
        }
        rest
      else
        assert forall k :: 0 <= k < |records| ==> records[k].projectId != projectId by {
          forall k | 0 < k < |records|
            ensures records[k].projectId != projectId
          {
            assert records[k] == records[1..][k - 1];
          }
        }
        rest
  }

  /** A record appended with an id makes that id findable, and an earlier match stays first. */
  lemma FindOneAfterAppend(records: seq<Record>, rec: Record, projectId: string)
    requires rec.projectId == projectId
    ensures FindOne(records + [rec], projectId).Some?
    ensures FindOne(records, projectId).Some? ==> FindOne(records + [rec], projectId) == FindOne(records, projectId)
    ensures FindOne(records, projectId).None? ==> FindOne(records + [rec], projectId) == Some(rec)
  {
    if records != [] {
      assert (records + [rec])[1..] == records[1..] + [rec];
      FindOneAfterAppend(records[1..], rec, projectId);
    }
  }

  /** `create_index`: an identical index is kept as it is, a different index of the same name
      is a conflict, any other is added. */
  function AddIndex(indexes: seq<Index>, index: Index): (r: Result<seq<Index>, string>)
    ensures r.Ok? ==> index in r.value && forall ix :: ix in indexes ==> ix in r.value
    ensures r.Err? <==> index !in indexes && exists k :: 0 <= k < |indexes| && indexes[k].name == index.name
  {
    if index in indexes then Ok(indexes)
    else if exists k :: 0 <= k < |indexes| && indexes[k].name == index.name then Err(IndexConflict)
    else Ok(indexes + [index])
  }

  /** The indexes after creating `wanted` in order, stopping at the first failure, with the
      failure's message. */
  function AddIndexes(indexes: seq<Index>, wanted: seq<Index>): (seq<Index>, Option<string>)
  {
    if wanted == [] then (indexes, None)
    else
      var (current, failed) := AddIndexes(indexes, wanted[..|wanted| - 1]);
      if failed.Some? then (current, failed)
      else
        match AddIndex(current, wanted[|wanted| - 1])
        case Ok(next) => (next, None)
        case Err(message) => (current, Some(message))
  }

  /** Creating indexes over no indexes with distinct names adds exactly those indexes. */
  lemma {:induction false} AddIndexesToEmpty(wanted: seq<Index>)
    requires forall i, j :: 0 <= i < j < |wanted| ==> wanted[i].name != wanted[j].name
    ensures AddIndexes([], wanted) == (wanted, None)
  {
    if wanted != [] {
      var init := wanted[..|wanted| - 1];
      AddIndexesToEmpty(init);
      var last := wanted[|wanted| - 1];
      assert forall k :: 0 <= k < |init| ==> init[k].name != last.name;
      assert init + [last] == wanted;
    }
  }

  /** Whatever their starting point, successfully created indexes are all present and every
      earlier index is kept. */
  lemma {:induction false} AddIndexesContains(indexes: seq<Index>, wanted: seq<Index>)
    ensures forall ix :: ix in indexes ==> ix in AddIndexes(indexes, wanted).0
    ensures AddIndexes(indexes, wanted).1.None? ==> forall ix :: ix in wanted ==> ix in AddIndexes(indexes, wanted).0
  {
    if wanted != [] {
      var init := wanted[..|wanted| - 1];
      AddIndexesContains(indexes, init);
      assert forall ix :: ix in wanted ==> ix in init || ix == wanted[|wanted| - 1];
    }
  }

  // ---------------------------------------------------------------------
  // The store

  /** A project collection: its records in natural order, its indexes, and the identifier
      the store assigns next. */
  class Collection {
    var records: seq<Record>
    var indexes: seq<Index>
    var nextId: ObjectId

    constructor ()
      ensures records == [] && indexes == [] && nextId == 0
    {
      records := [];
      indexes := [];
      nextId := 0;
    }
  }

  /** The database: the collection names it reports, and the error every store call raises
      while it is failing. */
  class Database {
    var names: set<string>
    var error: Option<string>

    constructor (names: set<string>, error: Option<string>)
      ensures this.names == names && this.error == error
    {
      this.names := names;
      this.error := error;
    }
  }

  /** Every identifier below `nextId` and no two records alike. */
  ghost predicate IdsFresh(records: seq<Record>, nextId: ObjectId) {
    && (forall k :: 0 <= k < |records| ==> records[k].id < nextId)
    && (forall i, j :: 0 <= i < j < |records| ==> records[i].id != records[j].id)
  }

  function Ids(records: seq<Record>): (r: set<ObjectId>)
    ensures forall k :: 0 <= k < |records| ==> records[k].id in r
    ensures forall v :: v in r ==> exists k :: 0 <= k < |records| && records[k].id == v
  {
    set k | 0 <= k < |records| :: records[k].id
  }

  class ProjectModel {
    const db: Database
    const collectionName: string
    /** `db_client[collectionName]`, the handle every operation uses. */
    const collection: Collection

    /** The store's own consistency: a collection the database does not list holds nothing,
        and identifiers are unique and below the next one assigned. */
    ghost predicate Consistent()
      reads db, collection
    {
      && (collectionName !in db.names ==> collection.records == [] && collection.indexes == [])
      && IdsFresh(collection.records, collection.nextId)
    }

    constructor (db: Database, collectionName: string, collection: Collection)
      ensures this.db == db && this.collectionName == collectionName && this.collection == collection
    {
      this.db := db;
      this.collectionName := collectionName;
      this.collection := collection;
    }

    /** `init_collection`: when the database does not list the collection, every index of
        `get_indexes` is created, which also creates the collection; a listed collection is
        left as it is. A failing store is a `RuntimeError`. */
    method InitCollection() returns (failure: Option<Failure>)
      requires Consistent()
      modifies db, collection
      ensures Consistent()
      ensures db.error == old(db.error) && collection.records == old(collection.records)
      ensures collection.nextId == old(collection.nextId)
      ensures old(db.error).Some? ==>
        failure == Some(RuntimeError(InitFailed + old(db.error).value)) && db.names == old(db.names)
        && collection.indexes == old(collection.indexes)
      ensures old(db.error).None? ==> failure.None?
      ensures old(collectionName in db.names) ==> db.names == old(db.names) && collection.indexes == old(collection.indexes)
      ensures old(db.error).None? && old(collectionName !in db.names) ==>
        db.names == old(db.names) + {collectionName} && collection.indexes == GetIndexes()
    {
      if db.error.Some? {
        return Some(RuntimeError(InitFailed + db.error.value));
      }
      if collectionName in db.names {
        return None;
      }
      var wanted := GetIndexes();
      AddIndexesToEmpty(wanted);
      for k := 0 to |wanted|
        invariant collection.indexes == AddIndexes([], wanted[..k]).0
        invariant AddIndexes([], wanted[..k]).1.None?
        invariant db.names == old(db.names) + (if k > 0 then {collectionName} else {})
        invariant db.error == old(db.error) && collection.records == old(collection.records)
        invariant collection.nextId == old(collection.nextId)
      {
        assert wanted[..k + 1][..k] == wanted[..k];
        var added := AddIndex(collection.indexes, wanted[k]);
        if added.Err? {
          assert false;
        }
        collection.indexes := added.value;
        db.names := db.names + {collectionName};
      }
      assert wanted[..|wanted|] == wanted;
      failure := None;
    }

    /** `create_project`: the project is inserted, under a new identifier when its own is
        unset; the object itself gets the inserted identifier and is returned. An identifier
        already in use, or a failing store, is a `RuntimeError`, and nothing changes. */
    method CreateProject(project: Project) returns (r: Result<Project, Failure>)
      requires Consistent()
      modifies db, collection, project
      ensures Consistent()
      ensures db.error == old(db.error) && collection.indexes == old(collection.indexes)
      ensures project.projectId == old(project.projectId)
      ensures old(db.error).Some? ==> r == Err(RuntimeError(CreateFailed + old(db.error).value))
      ensures old(db.error).None? && old(project.id).Some? && old(project.id).value in Ids(old(collection.records)) ==>
        r == Err(RuntimeError(CreateFailed + DuplicateKey))
      ensures r.Err? ==> r.error.RuntimeError? && unchanged(db, collection, project)
      ensures r.Ok? <==> old(db.error).None? && (old(project.id).None? || old(project.id).value !in Ids(old(collection.records)))
      ensures r.Ok? ==> r.value == project && project.id.Some? && project.id.value !in Ids(old(collection.records))
      ensures r.Ok? && old(project.id).Some? ==> project.id == old(project.id)
      ensures r.Ok? && old(project.id).None? ==> project.id == Some(old(collection.nextId))
      ensures r.Ok? ==> collection.records == old(collection.records) + [Record(project.id.value, project.projectId)]
      ensures r.Ok? ==> db.names == old(db.names) + {collectionName}
    {
      if db.error.Some? {
        return Err(RuntimeError(CreateFailed + db.error.value));
      }
      var inserted: ObjectId;
      if project.id.Some? {
        if project.id.value in Ids(collection.records) {
          return Err(RuntimeError(CreateFailed + DuplicateKey));
        }
        inserted := project.id.value;
      } else {
        inserted := collection.nextId;
        assert inserted !in Ids(collection.records);
      }
      collection.records := collection.records + [Record(inserted, project.projectId)];
      collection.nextId := if inserted < collection.nextId then collection.nextId else inserted + 1;
      db.names := db.names + {collectionName};
      project.id := Some(inserted);
      r := Ok(project);
    }

    /** `get_project_or_create_one`: the first record with that project id is loaded into a
        new `Project` and nothing is inserted; without one, a new project is validated and
        created. A failing store is a `RuntimeError`; an invalid id is a `ValidationError`
        that passes through unwrapped. */
    method GetProjectOrCreateOne(projectId: string) returns (r: Result<Project, Failure>)
      requires Consistent()
      modifies db, collection
      ensures Consistent()
      ensures db.error == old(db.error) && collection.indexes == old(collection.indexes)
      ensures old(db.error).Some? ==> r == Err(RuntimeError(FindFailed + old(db.error).value))
      ensures old(db.error).Some? || FindOne(old(collection.records), projectId).Some? || !IsAlnum(projectId) ==>
        unchanged(db, collection)
      ensures old(db.error).None? && FindOne(old(collection.records), projectId).Some? ==>
        (r.Ok? <==> IsAlnum(projectId))
      ensures old(db.error).None? && FindOne(old(collection.records), projectId).Some? && r.Ok? ==>
        fresh(r.value) && r.value.projectId == projectId
        && r.value.id == Some(FindOne(old(collection.records), projectId).value.id)
      ensures old(db.error).None? && !IsAlnum(projectId) ==>
        r == Err(ValidationError(ValidateProjectId(projectId).error))
      ensures old(db.error).None? && FindOne(old(collection.records), projectId).None? && IsAlnum(projectId) ==>
        r.Ok? && fresh(r.value) && r.value.projectId == projectId && r.value.id == Some(old(collection.nextId))
        && collection.records == old(collection.records) + [Record(old(collection.nextId), projectId)]
        && db.names == old(db.names) + {collectionName}
    {
      if db.error.Some? {
        return Err(RuntimeError(FindFailed + db.error.value));
      }
      var found := FindOne(collection.records, projectId);
      if found.None? {
        var made := NewProject(projectId);
        if made.Err? {
          return Err(ValidationError(made.error));
        }
        r := CreateProject(made.value);
        return;
      }
      var loaded := NewProject(found.value.projectId, Some(found.value.id));
      if loaded.Err? {
        return Err(ValidationError(loaded.error));
      }
      r := Ok(loaded.value);
    }

    /** Two calls with the same id insert at most one record between them, and when the
        first succeeds the second returns a project with the same identifier. */
    method GetProjectOrCreateTwice(projectId: string) returns (first: Result<Project, Failure>, second: Result<Project, Failure>)
      requires Consistent()
      modifies db, collection
      ensures Consistent()
      ensures |collection.records| <= old(|collection.records|) + 1
      ensures first.Ok? ==> second.Ok? && second.value.id == first.value.id && second.value.projectId == projectId
    {
      first := GetProjectOrCreateOne(projectId);
      ghost var between := collection.records;
      if db.error.None? && IsAlnum(projectId) {
        if FindOne(old(collection.records), projectId).None? {
          FindOneAfterAppend(old(collection.records), Record(old(collection.nextId), projectId), projectId);
        }
      }
      second := GetProjectOrCreateOne(projectId);
    }
  }

  /** `create_instance`: a model over the collection, its collection initialised. */
  method CreateInstance(db: Database, collectionName: string, collection: Collection) returns (r: Result<ProjectModel, Failure>)
    requires collectionName !in db.names ==> collection.records == [] && collection.indexes == []
    requires IdsFresh(collection.records, collection.nextId)
    modifies db, collection
    ensures r.Err? <==> old(db.error).Some?
    ensures r.Err? ==> r.error == RuntimeError(InitFailed + old(db.error).value)
    ensures r.Ok? ==> r.value.db == db && r.value.collection == collection && r.value.Consistent()
    ensures r.Ok? ==> collectionName in db.names
    ensures r.Ok? && old(collectionName !in db.names) ==> collection.indexes == GetIndexes()
  {
    var model := new ProjectModel(db, collectionName, collection);
    var failure := model.InitCollection();
    if failure.Some? {
      return Err(failure.value);
    }
    r := Ok(model);
  }
}
