/**
 * The simple uploader: a list of staged photos that a selection appends to
 * (all or nothing, on the MIME type alone), that removal filters by id, and
 * that an upload clears when the endpoint reports success. The request and
 * the clock are outside the model: the request's outcome and the clock
 * reading come in as parameters.
 */
module PhotoUpload {
  import opened Seqs
  import opened BrowserFiles

  /** The only MIME types the simple uploader takes. */
  const SimpleTypes: seq<string> := ["image/jpeg", "image/jpg", "image/png", "image/gif", "image/webp"]

  /** A file whose reported type is not one of the five. */
  predicate Invalid(f: SelectedFile) { f.mime !in SimpleTypes }

  /** A file over 100 MB: it only draws a warning. */
  predicate OverHundredMiB(f: SelectedFile) { f.size > 100 * MiB }

  /** A staged photo: its temporary id, the file's name, an empty URL and the file itself. */
  datatype StagedPhoto = StagedPhoto(id: TempId, name: string, url: string, file: SelectedFile)

  /** The staged entries for a selection, numbered by position. */
  function Staged(files: seq<SelectedFile>, stamp: int): (es: seq<StagedPhoto>)
    ensures |es| == |files|
    ensures forall i :: 0 <= i < |es| ==> es[i].id == TempId(stamp, i) && es[i].file == files[i]
    ensures forall i :: 0 <= i < |es| ==> es[i].name == files[i].name && es[i].url == ""
  {
    seq(|files|, i requires 0 <= i < |files| => StagedPhoto(TempId(stamp, i), files[i].name, "", files[i]))
  }

  /** What `processFiles` leaves in the list. */
  function Processed(photos: seq<StagedPhoto>, files: seq<SelectedFile>, stamp: int): seq<StagedPhoto> {
    if files == [] || Filter(files, Invalid) != [] then photos
    else photos + Staged(files, stamp)
  }

  /** How a selection ends, as the notices report it. */
  datatype SelectionNotice = NothingSelected | TypeRejected | Added(largeFiles: nat)

  /** How `uploadPhotos` ends: nothing to send, the endpoint's success, or the error notice. */
  datatype UploadNotice = NothingToSend | Uploaded | UploadFailed

  /**
   * All or nothing: a non-empty selection grows the list by every one of
   * its files exactly when every file has one of the five types, and
   * otherwise leaves the list as it was.
   */
  lemma AllOrNothing(photos: seq<StagedPhoto>, files: seq<SelectedFile>, stamp: int)
    requires files != []
    ensures (forall i :: 0 <= i < |files| ==> files[i].mime in SimpleTypes) <==>
      Processed(photos, files, stamp) == photos + Staged(files, stamp)
    ensures (exists i :: 0 <= i < |files| && files[i].mime !in SimpleTypes) <==>
      Processed(photos, files, stamp) == photos
  {
    var bad := Filter(files, Invalid);
    if exists i :: 0 <= i < |files| && files[i].mime !in SimpleTypes {
      var i :| 0 <= i < |files| && files[i].mime !in SimpleTypes;
      assert files[i] in bad;
    } else {
      FilterNone(files, Invalid);
      assert |Processed(photos, files, stamp)| == |photos| + |files|;
    }
  }

  /**
   * Size is never a reason to refuse: with valid types, the file at
   * position i is staged at position |photos| + i however large it is.
   */
  lemma LargeFilesStaged(photos: seq<StagedPhoto>, files: seq<SelectedFile>, stamp: int, i: nat)
    requires i < |files| && forall j :: 0 <= j < |files| ==> files[j].mime in SimpleTypes
    ensures |Processed(photos, files, stamp)| == |photos| + |files|
    ensures Processed(photos, files, stamp)[|photos| + i].file == files[i]
  {
    AllOrNothing(photos, files, stamp);
  }

  /** `removePhoto`: the entries with other ids, in their order. */
  function WithoutStaged(photos: seq<StagedPhoto>, id: TempId): (r: seq<StagedPhoto>)
    ensures forall p :: p in r <==> p in photos && p.id != id
  {
    Filter(photos, (p: StagedPhoto) => p.id != id)
  }

  /** The files the request carries: those of the staged entries, in order. */
  function FilesOf(photos: seq<StagedPhoto>): (fs: seq<SelectedFile>)
    ensures |fs| == |photos| && forall i :: 0 <= i < |fs| ==> fs[i] == photos[i].file
  {
    seq(|photos|, i requires 0 <= i < |photos| => photos[i].file)
  }

  class PhotoUploader {
    var photos: seq<StagedPhoto>

    constructor ()
      ensures photos == []
    {
      photos := [];
    }

    /**
     * `processFiles`: an empty selection does nothing; one bad type
     * refuses the whole selection; otherwise every file is staged after
     * the existing entries and the files over 100 MB are counted for the
     * warning.
     */
    method ProcessFiles(files: seq<SelectedFile>, stamp: int) returns (notice: SelectionNotice)
      modifies this
      ensures photos == Processed(old(photos), files, stamp)
      ensures files == [] <==> notice == NothingSelected
      ensures files != [] && Filter(files, Invalid) != [] <==> notice == TypeRejected
      ensures notice.Added? ==> notice.largeFiles == |Filter(files, OverHundredMiB)|
    {
      if |files| == 0 {
        return NothingSelected;
      }
      var invalid := Filter(files, Invalid);
      if |invalid| > 0 {
        return TypeRejected;
      }
      var large := Filter(files, OverHundredMiB);
      photos := photos + Staged(files, stamp);
      notice := Added(|large|);
    }

    /** `removePhoto`: exactly the entries with this id leave the list. */
    method RemovePhoto(id: TempId)
      modifies this
      ensures photos == WithoutStaged(old(photos), id)
    {
      photos := WithoutStaged(photos, id);
    }

    /**
     * `uploadPhotos`: with nothing staged, no request is made. Otherwise
     * the request carries every staged file; the list is emptied when the
     * reply reports success and kept when it does not or the request
     * throws.
     */
    method UploadPhotos(outcome: UploadOutcome) returns (request: seq<SelectedFile>, notice: UploadNotice)
      modifies this
      ensures old(photos) == [] ==> notice == NothingToSend && request == [] && photos == old(photos)
      ensures old(photos) != [] ==> request == FilesOf(old(photos))
      ensures old(photos) != [] ==> (notice == Uploaded <==> outcome == Success)
      ensures old(photos) != [] ==> notice != NothingToSend
      ensures photos == if notice == Uploaded then [] else old(photos)
    {
      if |photos| == 0 {
        return [], NothingToSend;
      }
      request := FilesOf(photos);
      if outcome == Success {
        photos := [];
        notice := Uploaded;
      } else {
        notice := UploadFailed;
      }
    }
  }
}
