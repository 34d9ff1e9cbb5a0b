/**
 * The project record: a store-assigned identifier, kept under the document key "_id", and a
 * non-empty alphanumeric project id; and the collection's one unique index.
 */
module ProjectScheme {

  import opened Wrappers
  import opened Text

  /** A store-assigned document identifier. */
  type ObjectId = nat

  const TooShort: string := "String should have at least 1 character"

  const NotAlphanumeric: string := "Value error, project_id must be alphanumeric"

  const MissingField: string := "Field required"

  const NotString: string := "Input should be a valid string"

  const NotObjectId: string := "Input should be an instance of ObjectId"

  /** Validation of `project_id`: the length constraint first, then the alphanumeric check;
      a valid value is kept unchanged. */
  function ValidateProjectId(value: string): (r: Result<string, string>)
    ensures r.Ok? <==> IsAlnum(value)
    ensures r.Ok? ==> r.value == value
    ensures value == [] ==> r == Err(TooShort)
    ensures value != [] && !IsAlnum(value) ==> r == Err(NotAlphanumeric)
  {
    if |value| < 1 then Err(TooShort)
    else if !IsAlnum(value) then Err(NotAlphanumeric)
    else Ok(value)
  }

  class Project {
    var id: Option<ObjectId>
    var projectId: string

    ghost predicate Valid()
      reads this
    {
      IsAlnum(projectId)
    }

    constructor (id: Option<ObjectId>, projectId: string)
      requires IsAlnum(projectId)
      ensures this.id == id && this.projectId == projectId && Valid()
    {
      this.id := id;
      this.projectId := projectId;
    }
  }

  /** Building a `Project` validates its project id; `id` defaults to nothing. */
  method NewProject(projectId: string, id: Option<ObjectId> := None) returns (r: Result<Project, string>)
    ensures r.Err? <==> ValidateProjectId(projectId).Err?
    ensures r.Err? ==> r.error == ValidateProjectId(projectId).error
    ensures r.Ok? ==> fresh(r.value) && r.value.id == id && r.value.projectId == projectId && r.value.Valid()
  {
    var checked := ValidateProjectId(projectId);
    if checked.Err? {
      return Err(checked.error);
    }
    var p := new Project(id, checked.value);
    return Ok(p);
  }

  /** A value stored in a document. */
  datatype Value = Text(text: string) | Oid(oid: ObjectId)

  type Document = map<string, Value>

  /** `project.dict(by_alias=True, exclude_unset=True)`: the identifier goes under "_id" and
      only when it was set. */
  function ToDocument(id: Option<ObjectId>, projectId: string): (doc: Document)
    ensures "project_id" in doc && doc["project_id"] == Text(projectId)
    ensures "_id" in doc <==> id.Some?
    ensures id.Some? ==> doc["_id"] == Oid(id.value)
    ensures doc.Keys <= {"_id", "project_id"}
  {
    var base := map["project_id" := Text(projectId)];
    if id.Some? then base["_id" := Oid(id.value)] else base
  }

  /** `Project(**document)`: "_id" is optional but must hold an `ObjectId`, "project_id" is
      required, must be text and is validated. Pydantic checks every field and reports all
      failures together; the model keeps the message of the first failing check, in declaration
      order. */
  function FromDocument(doc: Document): (r: Result<(Option<ObjectId>, string), string>)
    ensures r.Ok? <==> ("_id" in doc ==> doc["_id"].Oid?)
                       && "project_id" in doc && doc["project_id"].Text? && IsAlnum(doc["project_id"].text)
    ensures r.Ok? ==> doc["project_id"] == Text(r.value.1)
    ensures r.Ok? ==> (r.value.0.Some? <==> "_id" in doc)
    ensures r.Ok? && r.value.0.Some? ==> doc["_id"] == Oid(r.value.0.value)
    ensures "_id" in doc && !doc["_id"].Oid? ==> r == Err(NotObjectId)
    ensures ("_id" in doc ==> doc["_id"].Oid?) && "project_id" !in doc ==> r == Err(MissingField)
  {
    if "_id" in doc && !doc["_id"].Oid? then Err(NotObjectId)
    else if "project_id" !in doc then Err(MissingField)
    else if !doc["project_id"].Text? then Err(NotString)
    else
      match ValidateProjectId(doc["project_id"].text)
      case Err(e) => Err(e)
      case Ok(pid) => Ok((if "_id" in doc then Some(doc["_id"].oid) else None, pid))
  }

  /** A valid project survives the trip to a document and back, its identifier under "_id". */
  lemma DocumentRoundTrip(id: Option<ObjectId>, projectId: string)
    requires IsAlnum(projectId)
    ensures FromDocument(ToDocument(id, projectId)) == Ok((id, projectId))
  {
  }

  /** An index specification: keys with their directions, a name, uniqueness. */
  datatype Index = Index(key: seq<(string, int)>, name: string, unique: bool)

  /** `get_indexes`: one unique ascending index on `project_id` named "project_id_index_1". */
  function GetIndexes(): (r: seq<Index>)
    ensures |r| == 1 && r[0].key == [("project_id", 1)] && r[0].unique
    ensures r[0].name == "project_id_index_1"
  {
    [Index([("project_id", 1)], "project_id_index_1", true)]
  }
}
