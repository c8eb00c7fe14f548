/** The drive store: the files the student keeps, newest first, with AI tags and a summary per file. */
module Drive {
  import opened Wrappers
  import Seqs

  datatype DriveFile = DriveFile(
    id: string,
    classId: Option<string>,
    name: string,
    uri: string,
    size: Option<int>,
    mimeType: Option<string>,
    folderPath: string,
    aiTags: seq<string>,
    summary: string,
    createdAt: string)

  /** What `addFile` is given. */
  datatype FileInput = FileInput(
    classId: Option<string>,
    name: string,
    uri: string,
    size: Option<int>,
    mimeType: Option<string>,
    folderPath: string)

  /** The file `addFile` builds: the input fields, no tags and an empty summary yet. */
  function NewFile(input: FileInput, id: string, now: string): (f: DriveFile)
    ensures f.id == id && f.createdAt == now
    ensures FileInput(f.classId, f.name, f.uri, f.size, f.mimeType, f.folderPath) == input
    ensures f.aiTags == [] && f.summary == []
  {
    DriveFile(id, input.classId, input.name, input.uri, input.size, input.mimeType, input.folderPath, [], [], now)
  }

  predicate HasFile(files: seq<DriveFile>, id: string) {
    exists i :: 0 <= i < |files| && files[i].id == id
  }

  /** The files left by `removeFile(id)`. */
  function FilesWithout(files: seq<DriveFile>, id: string): seq<DriveFile> {
    Seqs.Filter(files, (f: DriveFile) => f.id != id)
  }

  /** The files after `setAiMeta(id, aiTags, summary)`. */
  function WithAiMeta(files: seq<DriveFile>, id: string, aiTags: seq<string>, summary: string): seq<DriveFile> {
    Seqs.Update(files, (f: DriveFile) => f.id == id, (f: DriveFile) => f.(aiTags := aiTags, summary := summary))
  }

  /** Removing twice is removing once, and no file with that id is left. */
  lemma RemoveFileIdempotent(files: seq<DriveFile>, id: string)
    ensures FilesWithout(FilesWithout(files, id), id) == FilesWithout(files, id)
    ensures !HasFile(FilesWithout(files, id), id)
  {
    Seqs.FilterIdempotent(files, (f: DriveFile) => f.id != id);
  }

  /** Removing a freshly added file, whose id was new, gives back the files before it. */
  lemma RemoveUndoesAdd(files: seq<DriveFile>, input: FileInput, id: string, now: string)
    requires !HasFile(files, id)
    ensures FilesWithout([NewFile(input, id, now)] + files, id) == files
  {
    Seqs.FilterPrepended(NewFile(input, id, now), files, (f: DriveFile) => f.id != id);
  }

  /**
   * `setAiMeta` replaces the tags and summary of the matching file and
   * nothing else: every other field, every other file and the number of
   * files stay as they were.
   */
  lemma SetAiMetaOnlyTarget(files: seq<DriveFile>, id: string, aiTags: seq<string>, summary: string)
    ensures var r := WithAiMeta(files, id, aiTags, summary);
      |r| == |files|
      && forall i :: 0 <= i < |files| ==>
        (files[i].id != id ==> r[i] == files[i])
        && (files[i].id == id ==>
          r[i].aiTags == aiTags && r[i].summary == summary
          && r[i].(aiTags := files[i].aiTags, summary := files[i].summary) == files[i])
  {
  }

  /** `setAiMeta` for an id no file has changes nothing. */
  lemma SetAiMetaUnknown(files: seq<DriveFile>, id: string, aiTags: seq<string>, summary: string)
    requires !HasFile(files, id)
    ensures WithAiMeta(files, id, aiTags, summary) == files
  {
    Seqs.UpdateNoop(files, (f: DriveFile) => f.id == id, (f: DriveFile) => f.(aiTags := aiTags, summary := summary));
  }

  /** The drive store. */
  class DriveStore {
    var files: seq<DriveFile>

    constructor()
      ensures files == []
    {
      files := [];
    }

    /** `addFile`: prepends the new file and returns its id. */
    method AddFile(input: FileInput, id: string, now: string) returns (newId: string)
      modifies this
      ensures newId == id
      ensures files == [NewFile(input, id, now)] + old(files)
    {
      files := [NewFile(input, id, now)] + files;
      newId := id;
    }

    /** `removeFile` */
    method RemoveFile(id: string)
      modifies this
      ensures files == FilesWithout(old(files), id)
    {
      files := FilesWithout(files, id);
    }

    /** `setAiMeta` */
    method SetAiMeta(id: string, aiTags: seq<string>, summary: string)
      modifies this
      ensures files == WithAiMeta(old(files), id, aiTags, summary)
    {
      files := WithAiMeta(files, id, aiTags, summary);
    }
  }
}
