/**
 * The saved-file API: a table of files `{_id, filename, code, author, createdAt}`
 * whose `filename` carries a unique index, and the six handlers over it, each
 * answering with a status code and a JSON body.
 */
module FileController {
  import opened Wrappers

  type FileId = nat
  type UserId = nat

  /** A file's code, language by language. */
  type Code = map<string, string>

  datatype FileRecord = FileRecord(filename: string, code: Code, author: UserId, createdAt: int)

  /** The `:id` route parameter: an object id, or text that is not one. */
  datatype RequestId = Id(id: FileId) | NotAnId(text: string)

  /** What the database can throw. */
  datatype DbError =
    | CastError(value: string)          // `:id` is not an object id
    | DuplicateKey(filename: string)    // the unique filename index refused a save

  datatype Body =
    | Message(text: string)
    | Failure(error: DbError)           // `{ message: error.message }`
    | Summary(id: FileId, filename: string)
    | Document(id: FileId, file: FileRecord)
    | Documents(files: seq<(FileId, FileRecord)>)

  datatype Response = Response(status: int, body: Body)

  datatype Store = Store(files: map<FileId, FileRecord>, nextId: FileId, clock: int)

  /** Fresh ids and timestamps are ahead of every stored file, and no two files share a name. */
  predicate Consistent(s: Store)
  {
    && (forall id :: id in s.files ==> id < s.nextId && s.files[id].createdAt < s.clock)
    && (forall a, b :: a in s.files && b in s.files && a != b ==> s.files[a].filename != s.files[b].filename)
  }

  /** The schema's default code: the four starter snippets. */
  const DefaultCode: Code := map[
    "javascript" := "function greet(){\n\tconsole.log(\"Hello World\");\n}\ngreet();\n",
    "python" := "def greet():\n\tprint(\"Hello World\")\ngreet()\n",
    "c" := "#include <stdio.h>\n\nint main() {\n\tprintf(\"Hello World\");\n\n\treturn 0;\n}\n",
    "cpp" := "#include <iostream>\nusing namespace std;\n\nint main() {\ncout << \"Hello World\";\n\nreturn 0;\n}"]

  const FilenameRequired: string := "Filename is required"
  const AlreadyExists: string := "File already exists"

  predicate Falsy(field: Option<string>)
  {
    field.None? || field.value == ""
  }

  /** Some file of `user` is named `filename` (`findOne({author, filename})`). */
  predicate OwnsName(s: Store, user: UserId, filename: string)
  {
    exists id :: id in s.files && s.files[id].author == user && s.files[id].filename == filename
  }

  /** A file other than `except` is named `filename`: a save would break the unique index. */
  predicate NameTaken(files: map<FileId, FileRecord>, filename: string, except: FileId)
  {
    exists id :: id in files && id != except && files[id].filename == filename
  }

  /** `findById`: a cast error for text that is not an id, otherwise the file if it exists. */
  function FindById(s: Store, rid: RequestId): (r: Result<Option<FileRecord>>)
    ensures r.Err? <==> rid.NotAnId?
    ensures rid.Id? ==> r == Ok(if rid.id in s.files then Some(s.files[rid.id]) else None)
  {
    match rid
    case NotAnId(text) => Err(text)
    case Id(id) => Ok(if id in s.files then Some(s.files[id]) else None)
  }

  function CastFailure(rid: RequestId): Response
    requires rid.NotAnId?
  {
    Response(500, Failure(CastError(rid.text)))
  }

  /**
   * `createFile`: a name is required and must be new among the requester's files; the
   * new file belongs to the requester, gets the default code when none is given, and
   * only its id and name are returned. A name another user already has breaks the
   * unique index and the save fails.
   */
  function CreateOutcome(s: Store, user: UserId, filename: Option<string>, code: Option<Code>): (r: (Store, Response))
    requires Consistent(s)
    ensures Consistent(r.0)
    ensures Falsy(filename) ==> r == (s, Response(400, Message(FilenameRequired)))
    ensures !Falsy(filename) && OwnsName(s, user, filename.value) ==> r == (s, Response(400, Message(AlreadyExists)))
    ensures r.1.status == 201 <==> !Falsy(filename) && !NameTaken(s.files, filename.value, s.nextId)
    ensures r.1.status == 201 ==>
              (s.nextId !in s.files && r.1.body == Summary(s.nextId, filename.value) &&
               r.0.files == s.files[s.nextId := FileRecord(filename.value, if code.Some? then code.value else DefaultCode, user, s.clock)] &&
               |r.0.files| == |s.files| + 1)
    ensures r.1.status != 201 ==> r.0 == s
  {
    if Falsy(filename) then (s, Response(400, Message(FilenameRequired)))
    else if OwnsName(s, user, filename.value) then (s, Response(400, Message(AlreadyExists)))
    else if NameTaken(s.files, filename.value, s.nextId) then
      (s, Response(500, Failure(DuplicateKey(filename.value))))
    else
      var file := FileRecord(filename.value, if code.Some? then code.value else DefaultCode, user, s.clock);
      (Store(s.files[s.nextId := file], s.nextId + 1, s.clock + 1), Response(201, Summary(s.nextId, filename.value)))
  }

  /** `getFileById`: missing before foreign; only the author gets the file. */
  function LookupOutcome(s: Store, user: UserId, rid: RequestId): (r: Response)
    ensures rid.NotAnId? ==> r.status == 500
    ensures rid.Id? && rid.id !in s.files ==> r == Response(404, Message("File Not Found"))
    ensures rid.Id? && rid.id in s.files && s.files[rid.id].author != user ==> r == Response(403, Message("Not Authorized"))
    ensures r.status == 200 <==> rid.Id? && rid.id in s.files && s.files[rid.id].author == user
    ensures r.status == 200 ==> r.body == Document(rid.id, s.files[rid.id])
  {
    match FindById(s, rid)
    case Err(_) => CastFailure(rid)
    case Ok(found) =>
      if found.None? then Response(404, Message("File Not Found"))
      else if user != found.value.author then Response(403, Message("Not Authorized"))
      else Response(200, Document(rid.id, found.value))
  }

  /** `saveFile`: any existing file, whoever owns it, takes the body as its code when there is one. */
  function SaveOutcome(s: Store, rid: RequestId, body: Option<Code>): (r: (Store, Response))
    requires Consistent(s)
    ensures Consistent(r.0)
    ensures rid.NotAnId? ==> r == (s, CastFailure(rid))
    ensures rid.Id? && rid.id !in s.files ==> r == (s, Response(404, Message("File not found")))
    ensures r.1.status == 200 <==> rid.Id? && rid.id in s.files
    ensures r.1.status == 200 ==>
              (var saved := if body.Some? then s.files[rid.id].(code := body.value) else s.files[rid.id];
               r.0 == s.(files := s.files[rid.id := saved]) && r.1.body == Document(rid.id, saved))
  {
    match FindById(s, rid)
    case Err(_) => (s, CastFailure(rid))
    case Ok(found) =>
      if found.None? then (s, Response(404, Message("File not found")))
      else
        var saved := if body.Some? then found.value.(code := body.value) else found.value;
        (s.(files := s.files[rid.id := saved]), Response(200, Document(rid.id, saved)))
  }

  /** `deleteFile`: any existing file, whoever owns it, is removed, and no other. */
  function DeleteOutcome(s: Store, rid: RequestId): (r: (Store, Response))
    requires Consistent(s)
    ensures Consistent(r.0)
    ensures rid.NotAnId? ==> r == (s, CastFailure(rid))
    ensures rid.Id? && rid.id !in s.files ==> r == (s, Response(404, Message("File not found")))
    ensures r.1.status == 200 <==> rid.Id? && rid.id in s.files
    ensures r.1.status == 200 ==>
              (r.0 == s.(files := s.files - {rid.id}) && r.1.body == Message("File deleted") &&
               |r.0.files| == |s.files| - 1)
  {
    match FindById(s, rid)
    case Err(_) => (s, CastFailure(rid))
    case Ok(found) =>
      if found.None? then (s, Response(404, Message("File not found")))
      else (s.(files := s.files - {rid.id}), Response(200, Message("File deleted")))
  }

  /**
   * `renameFile`: the name is checked before the lookup; any existing file, whoever owns
   * it, is renamed unless another file has that name, which the unique index refuses.
   */
  function RenameOutcome(s: Store, rid: RequestId, filename: Option<string>): (r: (Store, Response))
    requires Consistent(s)
    ensures Consistent(r.0)
    ensures Falsy(filename) ==> r == (s, Response(400, Message(FilenameRequired)))
    ensures !Falsy(filename) && rid.NotAnId? ==> r == (s, CastFailure(rid))
    ensures !Falsy(filename) && rid.Id? && rid.id !in s.files ==> r == (s, Response(404, Message("File not found")))
    ensures r.1.status == 200 <==>
              !Falsy(filename) && rid.Id? && rid.id in s.files && !NameTaken(s.files, filename.value, rid.id)
    ensures r.1.status == 200 ==>
              (r.0 == s.(files := s.files[rid.id := s.files[rid.id].(filename := filename.value)]) &&
               r.1.body == Summary(rid.id, filename.value))
    ensures r.1.status != 200 ==> r.0 == s
  {
    if Falsy(filename) then (s, Response(400, Message(FilenameRequired)))
    else
      match FindById(s, rid)
      case Err(_) => (s, CastFailure(rid))
      case Ok(found) =>
        if found.None? then (s, Response(404, Message("File not found")))
        else if NameTaken(s.files, filename.value, rid.id) then
          (s, Response(500, Failure(DuplicateKey(filename.value))))
        else
          (s.(files := s.files[rid.id := found.value.(filename := filename.value)]),
           Response(200, Summary(rid.id, filename.value)))
  }

  /** A file just created is readable by its author, under the id the creation returned. */
  lemma CreatedIsReadable(s: Store, user: UserId, filename: Option<string>, code: Option<Code>)
    requires Consistent(s)
    ensures var (t, created) := CreateOutcome(s, user, filename, code);
      created.status == 201 ==>
        LookupOutcome(t, user, Id(created.body.id)) ==
        Response(200, Document(s.nextId, FileRecord(filename.value, if code.Some? then code.value else DefaultCode, user, s.clock)))
  {
  }

  /** A file just deleted is not found any more, by anyone. */
  lemma DeletedIsGone(s: Store, rid: RequestId, user: UserId)
    requires Consistent(s)
    ensures var (t, deleted) := DeleteOutcome(s, rid);
      deleted.status == 200 ==> LookupOutcome(t, user, rid) == Response(404, Message("File Not Found"))
  {
  }

  /**
   * The existence check is per author but the index is on the name alone: a name that
   * only another user has passes the check and then fails the save.
   */
  lemma OtherAuthorsNameRefused(s: Store, user: UserId, filename: string, code: Option<Code>, other: FileId)
    requires Consistent(s) && filename != ""
    requires other in s.files && s.files[other].filename == filename && s.files[other].author != user
    ensures CreateOutcome(s, user, Some(filename), code) == (s, Response(500, Failure(DuplicateKey(filename))))
  {
    assert other != s.nextId;
  }

  // ---------------------------------------------------------------------------
  // Listing a user's files
  // ---------------------------------------------------------------------------

  predicate SortedByCreation(list: seq<(FileId, FileRecord)>)
  {
    forall i, j :: 0 <= i < j < |list| ==> list[i].1.createdAt <= list[j].1.createdAt
  }

  predicate DistinctIds(list: seq<(FileId, FileRecord)>)
  {
    forall i, j :: 0 <= i < j < |list| ==> list[i].0 != list[j].0
  }

  /** `entry` placed before the first later-created entry of a sorted list. */
  function Insert(list: seq<(FileId, FileRecord)>, entry: (FileId, FileRecord)): (r: seq<(FileId, FileRecord)>)
    ensures |r| == |list| + 1
    ensures forall x :: x in r <==> x in list || x == entry
    decreases |list|
  {
    if list == [] || entry.1.createdAt <= list[0].1.createdAt then [entry] + list
    else
      var rest := Insert(list[1..], entry);
      assert forall x :: x in list[1..] ==> x in list;
      [list[0]] + rest
  }

  /** Inserting into a list sorted by creation keeps it sorted. */
  lemma {:induction false} InsertKeepsSorted(list: seq<(FileId, FileRecord)>, entry: (FileId, FileRecord))
    requires SortedByCreation(list)
    ensures SortedByCreation(Insert(list, entry))
    decreases |list|
  {
    var r := Insert(list, entry);
    if list == [] || entry.1.createdAt <= list[0].1.createdAt {
      assert r == [entry] + list;
      forall i, j | 0 <= i < j < |r| ensures r[i].1.createdAt <= r[j].1.createdAt {
        if i == 0 {
          assert r[j] == list[j - 1];
        } else {
          assert r[i] == list[i - 1] && r[j] == list[j - 1];
        }
      }
    } else {
      var rest := Insert(list[1..], entry);
      assert SortedByCreation(list[1..]) by {
        forall i, j | 0 <= i < j < |list| - 1 ensures list[1..][i].1.createdAt <= list[1..][j].1.createdAt {
          assert list[1..][i] == list[i + 1] && list[1..][j] == list[j + 1];
        }
      }
      InsertKeepsSorted(list[1..], entry);
      assert r == [list[0]] + rest;
      forall i, j | 0 <= i < j < |r| ensures r[i].1.createdAt <= r[j].1.createdAt {
        if i == 0 {
          assert r[j] == rest[j - 1] && r[j] in rest;
          if r[j] != entry {
            var k :| 0 <= k < |list| - 1 && list[1..][k] == r[j];
            assert list[k + 1] == r[j];
          }
        } else {
          assert r[i] == rest[i - 1] && r[j] == rest[j - 1];
        }
      }
    }
  }

  /** Inserting an entry whose id is not listed keeps the ids distinct. */
  lemma {:induction false} InsertKeepsIdsDistinct(list: seq<(FileId, FileRecord)>, entry: (FileId, FileRecord))
    requires DistinctIds(list) && forall x :: x in list ==> x.0 != entry.0
    ensures DistinctIds(Insert(list, entry))
    decreases |list|
  {
    var r := Insert(list, entry);
    if list == [] || entry.1.createdAt <= list[0].1.createdAt {
      assert r == [entry] + list;
      forall i, j | 0 <= i < j < |r| ensures r[i].0 != r[j].0 {
        if i == 0 {
          assert r[j] == list[j - 1] && r[j] in list;
        } else {
          assert r[i] == list[i - 1] && r[j] == list[j - 1];
        }
      }
    } else {
      var rest := Insert(list[1..], entry);
      assert forall x :: x in list[1..] ==> x in list;
      assert DistinctIds(list[1..]) by {
        forall i, j | 0 <= i < j < |list| - 1 ensures list[1..][i].0 != list[1..][j].0 {
          assert list[1..][i] == list[i + 1] && list[1..][j] == list[j + 1];
        }
      }
      InsertKeepsIdsDistinct(list[1..], entry);
      assert r == [list[0]] + rest;
      forall i, j | 0 <= i < j < |r| ensures r[i].0 != r[j].0 {
        if i == 0 {
          assert r[j] == rest[j - 1] && r[j] in rest;
          if r[j] != entry {
            assert r[j] in list[1..];
            var k :| 0 <= k < |list| - 1 && list[1..][k] == r[j];
            assert list[k + 1] == r[j];
          }
        } else {
          assert r[i] == rest[i - 1] && r[j] == rest[j - 1];
        }
      }
    }
  }

  /** The entries of `list` are exactly the files of `user`, as stored. */
  predicate ListsExactly(files: map<FileId, FileRecord>, user: UserId, list: seq<(FileId, FileRecord)>)
  {
    && (forall x :: x in list ==> x.0 in files && files[x.0] == x.1 && x.1.author == user)
    && (forall id :: id in files && files[id].author == user ==> (id, files[id]) in list)
  }

  class FileCollection {
    var files: map<FileId, FileRecord>
    var nextId: FileId
    var clock: int

    function State(): Store
      reads this
    {
      Store(files, nextId, clock)
    }

    ghost predicate Valid()
      reads this
    {
      Consistent(State())
    }

    constructor ()
      ensures Valid() && files == map[]
    {
      files := map[];
      nextId := 0;
      clock := 0;
    }

    method SetState(s: Store)
      modifies this
      ensures State() == s
    {
      files := s.files;
      nextId := s.nextId;
      clock := s.clock;
    }

    method CreateFile(user: UserId, filename: Option<string>, code: Option<Code>) returns (response: Response)
      requires Valid()
      modifies this
      ensures Valid()
      ensures (State(), response) == CreateOutcome(old(State()), user, filename, code)
    {
      var outcome := CreateOutcome(State(), user, filename, code);
      SetState(outcome.0);
      response := outcome.1;
    }

    /** `getAllFiles`: exactly the requester's files, oldest first. */
    method GetAllFiles(user: UserId) returns (response: Response)
      ensures response.status == 200 && response.body.Documents?
      ensures SortedByCreation(response.body.files) && DistinctIds(response.body.files)
      ensures ListsExactly(files, user, response.body.files)
    {
      var remaining := files.Keys;
      var list: seq<(FileId, FileRecord)> := [];
      while remaining != {}
        invariant remaining <= files.Keys
        invariant SortedByCreation(list) && DistinctIds(list)
        invariant forall x :: x in list ==> x.0 in files && files[x.0] == x.1 && x.1.author == user && x.0 !in remaining
        invariant forall id :: id in files && files[id].author == user && id !in remaining ==> (id, files[id]) in list
        decreases remaining
      {
        var id :| id in remaining;
        if files[id].author == user {
          InsertKeepsSorted(list, (id, files[id]));
          InsertKeepsIdsDistinct(list, (id, files[id]));
          list := Insert(list, (id, files[id]));
        }
        remaining := remaining - {id};
      }
      response := Response(200, Documents(list));
    }

    method GetFileById(user: UserId, rid: RequestId) returns (response: Response)
      ensures response == LookupOutcome(State(), user, rid)
    {
      response := LookupOutcome(State(), user, rid);
    }

    method SaveFile(rid: RequestId, body: Option<Code>) returns (response: Response)
      requires Valid()
      modifies this
      ensures Valid()
      ensures (State(), response) == SaveOutcome(old(State()), rid, body)
    {
      var outcome := SaveOutcome(State(), rid, body);
      SetState(outcome.0);
      response := outcome.1;
    }

    method DeleteFile(rid: RequestId) returns (response: Response)
      requires Valid()
      modifies this
      ensures Valid()
      ensures (State(), response) == DeleteOutcome(old(State()), rid)
    {
      var outcome := DeleteOutcome(State(), rid);
      SetState(outcome.0);
      response := outcome.1;
    }

    method RenameFile(rid: RequestId, filename: Option<string>) returns (response: Response)
      requires Valid()
      modifies this
      ensures Valid()
      ensures (State(), response) == RenameOutcome(old(State()), rid, filename)
    {
      var outcome := RenameOutcome(State(), rid, filename);
      SetState(outcome.0);
      response := outcome.1;
    }
  }
}
