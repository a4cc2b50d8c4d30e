/**
 * The client's list of the user's files (`files` store): replaced wholesale,
 * renamed by id in place, and filtered by id.
 */
module FilesSlice {

  /** A listed file: its id, its name, and the remaining fields it was listed with. */
  datatype ListedFile = ListedFile(id: string, filename: string, attributes: map<string, string>)

  /** The position of the first file with `id`, or `|files|` when there is none (`Array.prototype.find`). */
  function FindFirst(files: seq<ListedFile>, id: string): (k: nat)
    ensures k <= |files|
    ensures k < |files| ==> files[k].id == id
    ensures forall j :: 0 <= j < k ==> files[j].id != id
    decreases |files|
  {
    if files == [] then 0
    else if files[0].id == id then 0
    else 1 + FindFirst(files[1..], id)
  }

  /**
   * `updateFilename`: the first file with `id` gets the new name; length, order and every
   * other entry are unchanged, and an absent id changes nothing.
   */
  function Renamed(files: seq<ListedFile>, id: string, newFilename: string): (r: seq<ListedFile>)
    ensures |r| == |files|
    ensures (forall f :: f in files ==> f.id != id) ==> r == files
    ensures forall j :: 0 <= j < |files| && j != FindFirst(files, id) ==> r[j] == files[j]
    ensures var k := FindFirst(files, id);
      k < |files| ==> r[k] == files[k].(filename := newFilename) && r[k].id == id
  {
    var k := FindFirst(files, id);
    if k < |files| then files[k := files[k].(filename := newFilename)] else files
  }

  /** `deleteFile`: the files whose id differs, in their order (`Array.prototype.filter`). */
  function Without(files: seq<ListedFile>, id: string): (r: seq<ListedFile>)
    ensures |r| <= |files|
    ensures forall f :: f in r <==> f in files && f.id != id
    decreases |files|
  {
    if files == [] then []
    else if files[0].id == id then Without(files[1..], id)
    else [files[0]] + Without(files[1..], id)
  }

  /** Filtering keeps order: it distributes over concatenation. */
  lemma {:induction false} WithoutAppend(a: seq<ListedFile>, b: seq<ListedFile>, id: string)
    ensures Without(a + b, id) == Without(a, id) + Without(b, id)
    decreases |a|
  {
    if a != [] {
      assert (a + b)[1..] == a[1..] + b;
      WithoutAppend(a[1..], b, id);
    } else {
      assert a + b == b;
    }
  }

  /** Deleting an id that is no longer listed changes nothing, so deleting twice is deleting once. */
  lemma {:induction false} WithoutAbsent(files: seq<ListedFile>, id: string)
    requires forall f :: f in files ==> f.id != id
    ensures Without(files, id) == files
    decreases |files|
  {
    if files != [] {
      assert files[0] in files;
      assert forall f :: f in files[1..] ==> f in files;
      WithoutAbsent(files[1..], id);
      assert files == [files[0]] + files[1..];
    }
  }

  lemma WithoutIdempotent(files: seq<ListedFile>, id: string)
    ensures Without(Without(files, id), id) == Without(files, id)
  {
    WithoutAbsent(Without(files, id), id);
  }

  class FilesStore {
    var files: seq<ListedFile>

    constructor ()
      ensures files == []
    {
      files := [];
    }

    /** `setFiles`: the list becomes the payload. */
    method SetFiles(payload: seq<ListedFile>)
      modifies this
      ensures files == payload
    {
      files := payload;
    }

    /** `updateFilename`: the found entry's name is assigned in place. */
    method UpdateFilename(id: string, newFilename: string)
      modifies this
      ensures files == Renamed(old(files), id, newFilename)
    {
      var k := FindFirst(files, id);
      if k < |files| {
        files := files[k := files[k].(filename := newFilename)];
      }
    }

    /** `deleteFile`: the list becomes the filtered list. */
    method DeleteFile(id: string)
      modifies this
      ensures files == Without(old(files), id)
    {
      files := Without(files, id);
    }
  }
}
