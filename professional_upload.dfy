/**
 * The professional upload queue: selected files are filtered by an
 * accepted-type rule and queued as pending; an upload sends the small
 * pending files in one batch and the large ones (over 100 MB) one at a
 * time, moving each entry through pending, uploading, completed or error.
 * The endpoint's answers come in as parameters.
 */
module ProfessionalUpload {
  import opened Text
  import opened Seqs
  import opened BrowserFiles

  /** The subtypes of the accepted MIME types, RAW formats included. */
  const Subtypes: seq<string> := [
    "jpeg", "jpg", "png", "gif", "webp",
    "tiff", "tif", "bmp", "raw",
    "x-canon-cr2", "x-canon-crw", "x-nikon-nef",
    "x-sony-arw", "x-adobe-dng"]

  /** The accepted MIME types, each `image/` followed by the subtype in the same position. */
  const ValidTypes: seq<string> := [
    "image/jpeg", "image/jpg", "image/png", "image/gif", "image/webp",
    "image/tiff", "image/tif", "image/bmp", "image/raw",
    "image/x-canon-cr2", "image/x-canon-crw", "image/x-nikon-nef",
    "image/x-sony-arw", "image/x-adobe-dng"]

  /**
   * One listed type admits the file: its MIME type is exactly that type,
   * or its lower-cased name contains the type's subtype (the text after '/').
   */
  predicate AcceptedBy(f: SelectedFile, t: string) {
    f.mime == t || ('/' in t && Contains(ToLower(f.name), SecondField(t, '/')))
  }

  /** Some listed type admits the file. */
  predicate Accepts(f: SelectedFile) {
    exists i :: 0 <= i < |ValidTypes| && AcceptedBy(f, ValidTypes[i])
  }

  predicate Rejects(f: SelectedFile) { !Accepts(f) }

  /** The text after the '/' of each accepted type is its subtype. */
  lemma SubtypeOfValidType(i: nat)
    requires i < |ValidTypes|
    ensures |Subtypes| == |ValidTypes| && '/' in ValidTypes[i]
    ensures SecondField(ValidTypes[i], '/') == Subtypes[i]
  {
    SubtypesSlashFree();
    ImagePrefixed();
    assert ValidTypes[i] == "image" + ['/'] + Subtypes[i];
    SecondFieldJoin("image", '/', Subtypes[i]);
  }

  /** Each accepted type is `image/` followed by the subtype in the same position. */
  lemma ImagePrefixed()
    ensures |ValidTypes| == |Subtypes|
    ensures forall i :: 0 <= i < |ValidTypes| ==> ValidTypes[i] == "image/" + Subtypes[i]
  {
    assert ValidTypes[0] == "image/" + Subtypes[0];
    assert ValidTypes[1] == "image/" + Subtypes[1];
    assert ValidTypes[2] == "image/" + Subtypes[2];
    assert ValidTypes[3] == "image/" + Subtypes[3];
    assert ValidTypes[4] == "image/" + Subtypes[4];
    assert ValidTypes[5] == "image/" + Subtypes[5];
    assert ValidTypes[6] == "image/" + Subtypes[6];
    assert ValidTypes[7] == "image/" + Subtypes[7];
    assert ValidTypes[8] == "image/" + Subtypes[8];
    assert ValidTypes[9] == "image/" + Subtypes[9];
    assert ValidTypes[10] == "image/" + Subtypes[10];
    assert ValidTypes[11] == "image/" + Subtypes[11];
    assert ValidTypes[12] == "image/" + Subtypes[12];
    assert ValidTypes[13] == "image/" + Subtypes[13];
  }

  /** No subtype holds a '/'. */
  lemma SubtypesSlashFree()
    ensures forall i :: 0 <= i < |Subtypes| ==> '/' !in Subtypes[i]
  {
  }

  /**
   * Acceptance spelled out: the MIME type is one of the list, or the
   * lower-cased name contains one of the subtypes.
   */
  lemma AcceptsBySubtype(f: SelectedFile)
    ensures Accepts(f) <==>
      f.mime in ValidTypes || exists i :: 0 <= i < |Subtypes| && Contains(ToLower(f.name), Subtypes[i])
  {
    forall i | 0 <= i < |ValidTypes|
      ensures AcceptedBy(f, ValidTypes[i]) <==> f.mime == ValidTypes[i] || Contains(ToLower(f.name), Subtypes[i])
    {
      SubtypeOfValidType(i);
    }
  }

  /** Every listed MIME type is accepted, whatever the file is called. */
  lemma ListedMimeAccepted(f: SelectedFile, i: nat)
    requires i < |ValidTypes| && f.mime == ValidTypes[i]
    ensures Accepts(f)
  {
    assert AcceptedBy(f, ValidTypes[i]);
  }

  /** One listed type admitting the file is enough. */
  lemma ListedTypeAdmits(f: SelectedFile, i: nat)
    requires i < |ValidTypes| && AcceptedBy(f, ValidTypes[i])
    ensures Accepts(f)
  {
  }

  /** The name test is a substring test: a text file whose name contains "raw" gets in. */
  lemma DrawingAccepted(f: SelectedFile)
    requires f.name == "draw.txt" && f.mime == "text/plain"
    ensures Accepts(f)
  {
    ContainsLowered(f.name, "raw", 1);
    SubtypeOfValidType(8);
    ListedTypeAdmits(f, 8);
  }

  /**
   * The RAW subtypes carry their vendor prefix (`x-nikon-nef`), so a RAW
   * file the browser reports without a type is refused although its name
   * is `a.nef` in any casing.
   */
  lemma RawExtensionAloneRefused(f: SelectedFile)
    requires ToLower(f.name) == "a.nef" && f.mime == ""
    ensures !Accepts(f)
  {
    NoInitialIn("a.nef");
    ListedTypesNonEmpty();
    RefusedWithoutInitials(f);
  }

  /** No subtype's first letter occurs in `a.nef`. */
  lemma NoInitialIn(s: string)
    requires s == "a.nef"
    ensures forall c :: c in "jpgwtbrx" ==> c !in s
  {
  }

  /** Every listed type is a non-empty string. */
  lemma ListedTypesNonEmpty()
    ensures "" !in ValidTypes
  {
    ImagePrefixed();
  }

  /** A file of no listed type whose lower-cased name has no subtype's first letter is refused. */
  lemma RefusedWithoutInitials(f: SelectedFile)
    requires f.mime !in ValidTypes
    requires forall c :: c in "jpgwtbrx" ==> c !in ToLower(f.name)
    ensures !Accepts(f)
  {
    NoSubtypeIn(ToLower(f.name));
    AcceptsBySubtype(f);
  }

  /** A string without any subtype's first letter contains no subtype. */
  lemma NoSubtypeIn(s: string)
    requires forall c :: c in "jpgwtbrx" ==> c !in s
    ensures forall i :: 0 <= i < |Subtypes| ==> !Contains(s, Subtypes[i])
  {
    SubtypeInitials();
    forall i | 0 <= i < |Subtypes| ensures !Contains(s, Subtypes[i]) {
      NotContainsFirst(s, Subtypes[i]);
    }
  }

  /** Every subtype starts with one of a few letters. */
  lemma SubtypeInitials()
    ensures forall i :: 0 <= i < |Subtypes| ==> |Subtypes[i]| > 0 && Subtypes[i][0] in "jpgwtbrx"
  {
  }

  /** The size plays no part in acceptance: the 50 MB check only warns. */
  lemma SizeIgnored(f: SelectedFile, size: nat)
    ensures Accepts(f) <==> Accepts(f.(size := size))
  {
  }

  /** The accepted files and the rejected ones split the selection. */
  lemma SelectionPartition(files: seq<SelectedFile>)
    ensures |Filter(files, Accepts)| + |Filter(files, Rejects)| == |files|
    ensures multiset(Filter(files, Accepts)) + multiset(Filter(files, Rejects)) == multiset(files)
  {
    FilterPartition(files, Accepts, Rejects);
  }

  datatype UploadStatus = Pending | Uploading | Completed | Error

  /** An entry of the queue. */
  datatype QueuedPhoto = QueuedPhoto(id: TempId, name: string, url: string, file: SelectedFile,
                                     status: UploadStatus, progress: int)

  predicate IsPending(p: QueuedPhoto) { p.status == Pending }

  /** A file sent on its own: over 100 MB. */
  predicate IsLarge(p: QueuedPhoto) { p.file.size > 100 * MiB }

  predicate IsSmall(p: QueuedPhoto) { !IsLarge(p) }

  /** No two entries share an id. */
  predicate UniqueIds(ps: seq<QueuedPhoto>) {
    forall j, k :: 0 <= j < k < |ps| ==> ps[j].id != ps[k].id
  }

  /** The clock reading differs from the one of every entry already queued. */
  predicate FreshStamp(ps: seq<QueuedPhoto>, stamp: int) {
    forall k :: 0 <= k < |ps| ==> ps[k].id.stamp != stamp
  }

  /** The entries made for the accepted files: pending, progress 0, no URL yet, numbered by position. */
  function NewEntries(accepted: seq<SelectedFile>, stamp: int): (es: seq<QueuedPhoto>)
    ensures |es| == |accepted|
    ensures forall i :: 0 <= i < |es| ==>
      es[i] == QueuedPhoto(TempId(stamp, i), accepted[i].name, "", accepted[i], Pending, 0)
  {
    seq(|accepted|, i requires 0 <= i < |accepted| =>
      QueuedPhoto(TempId(stamp, i), accepted[i].name, "", accepted[i], Pending, 0))
  }

  /** Entries made under a fresh clock reading can join a queue without repeating an id. */
  lemma AppendKeepsUniqueIds(ps: seq<QueuedPhoto>, accepted: seq<SelectedFile>, stamp: int)
    requires UniqueIds(ps) && FreshStamp(ps, stamp)
    ensures UniqueIds(ps + NewEntries(accepted, stamp))
  {
    var added := NewEntries(accepted, stamp);
    var all := ps + added;
    forall j, k | 0 <= j < k < |all| ensures all[j].id != all[k].id {
      if k >= |ps| && j < |ps| {
        assert all[j] == ps[j];
        assert all[k].id.stamp == stamp;
      } else if j >= |ps| {
        assert all[j] == added[j - |ps|] && all[k] == added[k - |ps|];
      }
    }
  }

  /** What the selection's notices report: how many files were refused, how many accepted ones exceed 50 MB, and their total size. */
  datatype SelectionReport = SelectionReport(rejected: nat, professional: nat, acceptedBytes: int)

  predicate OverFiftyMiB(f: SelectedFile) { f.size > 50 * MiB }

  function FileBytes(f: SelectedFile): int { f.size }

  /** `updatePhotoProgress`: the entries with this id get the new progress and status. */
  function SetProgress(ps: seq<QueuedPhoto>, id: TempId, progress: int, status: UploadStatus): (r: seq<QueuedPhoto>)
    ensures |r| == |ps|
    ensures forall k :: 0 <= k < |ps| && ps[k].id != id ==> r[k] == ps[k]
    ensures forall k :: 0 <= k < |ps| && ps[k].id == id ==> r[k] == ps[k].(progress := progress, status := status)
  {
    seq(|ps|, k requires 0 <= k < |ps| =>
      if ps[k].id == id then ps[k].(progress := progress, status := status) else ps[k])
  }

  /** `removePhoto`: every entry but the ones with this id, in their order. */
  function Without(ps: seq<QueuedPhoto>, id: TempId): (r: seq<QueuedPhoto>)
    ensures forall p :: p in r <==> p in ps && p.id != id
  {
    Filter(ps, (p: QueuedPhoto) => p.id != id)
  }

  /** Dropping the head keeps ids unique, and no later entry shares the head's id. */
  lemma UniqueIdsTail(ps: seq<QueuedPhoto>)
    requires UniqueIds(ps) && ps != []
    ensures UniqueIds(ps[1..])
    ensures forall m :: 0 <= m < |ps[1..]| ==> ps[1..][m].id != ps[0].id
  {
    forall j, k | 0 <= j < k < |ps[1..]| ensures ps[1..][j].id != ps[1..][k].id {
      assert ps[1..][j] == ps[j + 1] && ps[1..][k] == ps[k + 1];
    }
    forall m | 0 <= m < |ps[1..]| ensures ps[1..][m].id != ps[0].id {
      assert ps[1..][m] == ps[m + 1];
    }
  }

  /** Putting an entry whose id is new in front of a list with unique ids keeps them unique. */
  lemma UniqueIdsCons(p: QueuedPhoto, tail: seq<QueuedPhoto>)
    requires UniqueIds(tail) && forall k :: 0 <= k < |tail| ==> tail[k].id != p.id
    ensures UniqueIds([p] + tail)
  {
    var r := [p] + tail;
    forall j, k | 0 <= j < k < |r| ensures r[j].id != r[k].id {
      assert r[k] == tail[k - 1];
      if j > 0 {
        assert r[j] == tail[j - 1];
      }
    }
  }

  /** A filtered queue keeps ids unique. */
  lemma {:induction false} FilterKeepsUniqueIds(ps: seq<QueuedPhoto>, q: QueuedPhoto -> bool)
    requires UniqueIds(ps)
    ensures UniqueIds(Filter(ps, q))
    decreases |ps|
  {
    if ps != [] {
      var rest := ps[1..];
      UniqueIdsTail(ps);
      FilterKeepsUniqueIds(rest, q);
      var tail := Filter(rest, q);
      if q(ps[0]) {
        forall k | 0 <= k < |tail| ensures tail[k].id != ps[0].id {
          var m :| 0 <= m < |rest| && rest[m] == tail[k];
        }
        UniqueIdsCons(ps[0], tail);
        assert Filter(ps, q) == [ps[0]] + tail;
      } else {
        assert Filter(ps, q) == tail;
      }
    }
  }

  /** Some entry of `ps` has this id. */
  predicate HasId(ps: seq<QueuedPhoto>, id: TempId) {
    exists j :: 0 <= j < |ps| && ps[j].id == id
  }

  /** Extending a prefix by one entry adds that entry's id. */
  lemma HasIdSnoc(list: seq<QueuedPhoto>, i: nat)
    requires i < |list|
    ensures forall id :: HasId(list[..i + 1], id) <==> HasId(list[..i], id) || list[i].id == id
  {
    forall id ensures HasId(list[..i + 1], id) <==> HasId(list[..i], id) || list[i].id == id {
      if HasId(list[..i + 1], id) {
        var j :| 0 <= j < i + 1 && list[..i + 1][j].id == id;
        if j < i {
          assert list[..i][j] == list[j];
        }
      }
      if HasId(list[..i], id) {
        var j :| 0 <= j < i && list[..i][j].id == id;
        assert list[..i + 1][j] == list[j];
      }
      if list[i].id == id {
        assert list[..i + 1][i] == list[i];
      }
    }
  }

  /**
   * With unique ids in `ps`, a list drawn from `ps` holds the id of
   * `ps[k]` exactly when it holds `ps[k]` itself.
   */
  lemma IdInSublist(ps: seq<QueuedPhoto>, r: seq<QueuedPhoto>, k: nat)
    requires UniqueIds(ps) && k < |ps|
    requires forall j :: 0 <= j < |r| ==> r[j] in ps
    ensures HasId(r, ps[k].id) <==> ps[k] in r
  {
    if HasId(r, ps[k].id) {
      var j :| 0 <= j < |r| && r[j].id == ps[k].id;
      var m :| 0 <= m < |ps| && ps[m] == r[j];
      assert m == k;
    }
    if ps[k] in r {
      var j :| 0 <= j < |r| && r[j] == ps[k];
    }
  }

  /** The pending entries over 100 MB, sent one at a time, in queue order. */
  function LargePending(ps: seq<QueuedPhoto>): seq<QueuedPhoto> {
    Filter(Filter(ps, IsPending), IsLarge)
  }

  /** The pending entries of at most 100 MB, sent in one batch, in queue order. */
  function SmallPending(ps: seq<QueuedPhoto>): seq<QueuedPhoto> {
    Filter(Filter(ps, IsPending), IsSmall)
  }

  /** The large and the small pending entries together are the pending ones. */
  lemma PendingSplit(ps: seq<QueuedPhoto>)
    ensures |LargePending(ps)| + |SmallPending(ps)| == |Filter(ps, IsPending)|
    ensures multiset(LargePending(ps)) + multiset(SmallPending(ps)) == multiset(Filter(ps, IsPending))
  {
    FilterPartition(Filter(ps, IsPending), IsLarge, IsSmall);
  }

  /**
   * With unique ids, entry k belongs to the batch or to the singles
   * exactly as its own status and size say.
   */
  lemma PendingMembership(ps: seq<QueuedPhoto>)
    requires UniqueIds(ps)
    ensures forall k :: 0 <= k < |ps| ==>
      (HasId(SmallPending(ps), ps[k].id) <==> IsPending(ps[k]) && IsSmall(ps[k]))
    ensures forall k :: 0 <= k < |ps| ==>
      (HasId(LargePending(ps), ps[k].id) <==> IsPending(ps[k]) && IsLarge(ps[k]))
  {
    PendingMembershipBy(ps, IsSmall);
    PendingMembershipBy(ps, IsLarge);
  }

  /** The pending entries that also satisfy `q` hold entry k's id exactly when entry k is one of them. */
  lemma PendingMembershipBy(ps: seq<QueuedPhoto>, q: QueuedPhoto -> bool)
    requires UniqueIds(ps)
    ensures forall k :: 0 <= k < |ps| ==>
      (HasId(Filter(Filter(ps, IsPending), q), ps[k].id) <==> IsPending(ps[k]) && q(ps[k]))
  {
    forall k | 0 <= k < |ps|
      ensures HasId(Filter(Filter(ps, IsPending), q), ps[k].id) <==> IsPending(ps[k]) && q(ps[k])
    {
      PendingMemberAt(ps, q, k);
    }
  }

  /** PendingMembershipBy for one entry. */
  lemma PendingMemberAt(ps: seq<QueuedPhoto>, q: QueuedPhoto -> bool, k: nat)
    requires UniqueIds(ps) && k < |ps|
    ensures HasId(Filter(Filter(ps, IsPending), q), ps[k].id) <==> IsPending(ps[k]) && q(ps[k])
  {
    var pending := Filter(ps, IsPending);
    var sub := Filter(pending, q);
    forall j | 0 <= j < |sub| ensures sub[j] in ps {
      assert sub[j] in pending;
    }
    IdInSublist(ps, sub, k);
    if IsPending(ps[k]) {
      assert ps[k] in pending;
      var m :| 0 <= m < |pending| && pending[m] == ps[k];
    }
    if ps[k] in sub {
      var m :| 0 <= m < |sub| && sub[m] == ps[k];
      assert ps[k] in pending;
      var n :| 0 <= n < |pending| && pending[n] == ps[k];
    }
  }

  /** With nothing pending, no entry is pending and neither list has anything to send. */
  lemma NothingPending(ps: seq<QueuedPhoto>)
    requires Filter(ps, IsPending) == []
    ensures forall k :: 0 <= k < |ps| ==> !IsPending(ps[k])
    ensures SmallPending(ps) == [] && LargePending(ps) == []
  {
  }

  /**
   * The state an entry reaches in an upload. Entries not pending stay as
   * they are. A small file moves to (50, uploading) and on a successful
   * batch to (100, completed); when the batch throws, the large files are
   * never reached and stay pending. A large file ends at (100, completed)
   * or at (0, error).
   */
  function Settled(p: QueuedPhoto, batch: UploadOutcome, threw: bool, single: TempId -> UploadOutcome): QueuedPhoto {
    if !IsPending(p) then p
    else if IsSmall(p) then
      if batch == Success then p.(progress := 100, status := Completed)
      else p.(progress := 50, status := Uploading)
    else if threw then p
    else if single(p.id) == Success then p.(progress := 100, status := Completed)
    else p.(progress := 0, status := Error)
  }

  /**
   * Settled never touches an entry's id, name, URL or file, leaves entries
   * that are not pending alone, and a pending entry that moves reaches one
   * of the three states at the progress the handler sets for it.
   */
  lemma SettledForward(p: QueuedPhoto, batch: UploadOutcome, threw: bool, single: TempId -> UploadOutcome)
    ensures var q := Settled(p, batch, threw, single);
      && q.id == p.id && q.name == p.name && q.url == p.url && q.file == p.file
      && (!IsPending(p) ==> q == p)
      && (IsPending(p) && q.status == Pending ==> IsLarge(p) && threw && q == p)
      && (IsPending(p) && q.status == Completed ==> q.progress == 100)
      && (IsPending(p) && q.status == Uploading ==> q.progress == 50 && IsSmall(p) && batch != Success)
      && (IsPending(p) && q.status == Error ==> q.progress == 0 && IsLarge(p) && single(p.id) != Success)
  {
  }

  /** The number of large pending files whose own upload succeeds. */
  function LargeSuccesses(large: seq<QueuedPhoto>, single: TempId -> UploadOutcome): nat
    decreases |large|
  {
    if large == [] then 0
    else LargeSuccesses(large[..|large| - 1], single) + (if single(large[|large| - 1].id) == Success then 1 else 0)
  }

  /** Entries in the same positions with the same ids: uniqueness carries over. */
  lemma SameIdsUnique(ps: seq<QueuedPhoto>, qs: seq<QueuedPhoto>)
    requires UniqueIds(ps) && |qs| == |ps|
    requires forall k :: 0 <= k < |ps| ==> qs[k].id == ps[k].id
    ensures UniqueIds(qs)
  {
  }

  class UploadQueue {
    var photos: seq<QueuedPhoto>

    ghost predicate Valid()
      reads this
    {
      UniqueIds(photos)
    }

    constructor ()
      ensures Valid() && photos == []
    {
      photos := [];
    }

    /**
     * `handleFileSelect`: the accepted files, in their order, are queued
     * after the existing entries; rejected files are only counted. The
     * clock reading must differ from those of earlier selections, which
     * keeps ids unique.
     */
    method HandleFileSelect(files: seq<SelectedFile>, stamp: int) returns (report: SelectionReport)
      requires Valid() && FreshStamp(photos, stamp)
      modifies this
      ensures Valid()
      ensures photos == old(photos) + NewEntries(Filter(files, Accepts), stamp)
      ensures report.rejected == |Filter(files, Rejects)|
      ensures report.professional == |Filter(Filter(files, Accepts), OverFiftyMiB)|
      ensures report.acceptedBytes == SumBy(Filter(files, Accepts), FileBytes)
    {
      var accepted := Filter(files, Accepts);
      report := SelectionReport(|Filter(files, Rejects)|, |Filter(accepted, OverFiftyMiB)|, SumBy(accepted, FileBytes));
      if files == [] || accepted == [] {
        return;
      }
      AppendKeepsUniqueIds(photos, accepted, stamp);
      photos := photos + NewEntries(accepted, stamp);
    }

    /** `removePhoto`: exactly the entries with this id leave the queue; the rest keep their order. */
    method RemovePhoto(id: TempId)
      requires Valid()
      modifies this
      ensures Valid()
      ensures photos == Without(old(photos), id)
    {
      FilterKeepsUniqueIds(photos, (p: QueuedPhoto) => p.id != id);
      photos := Without(photos, id);
    }

    /**
     * `smallFiles.forEach(photo => updatePhotoProgress(photo.id, progress, status))`:
     * every entry whose id is among `list` gets the progress and status,
     * every other entry stays as it was.
     */
    method MarkAll(list: seq<QueuedPhoto>, progress: int, status: UploadStatus)
      modifies this
      ensures |photos| == |old(photos)|
      ensures forall k :: 0 <= k < |photos| ==>
        photos[k] == if HasId(list, old(photos)[k].id) then old(photos)[k].(progress := progress, status := status)
                     else old(photos)[k]
    {
      ghost var start := photos;
      for i := 0 to |list|
        invariant |photos| == |start|
        invariant forall k :: 0 <= k < |start| ==>
          photos[k] == if HasId(list[..i], start[k].id) then start[k].(progress := progress, status := status) else start[k]
      {
        HasIdSnoc(list, i);
        photos := SetProgress(photos, list[i].id, progress, status);
      }
      assert list[..|list|] == list;
    }

    /**
     * The loop over the large files: each one goes to (10, uploading),
     * (50, uploading), then (100, completed) when its own request succeeds
     * and (0, error) otherwise; the count of successes is added to
     * `completed`.
     */
    method SendLarge(large: seq<QueuedPhoto>, single: TempId -> UploadOutcome, completed0: nat) returns (completed: nat)
      modifies this
      ensures |photos| == |old(photos)|
      ensures forall k :: 0 <= k < |photos| ==>
        photos[k] == if HasId(large, old(photos)[k].id) then
                       (if single(old(photos)[k].id) == Success then old(photos)[k].(progress := 100, status := Completed)
                        else old(photos)[k].(progress := 0, status := Error))
                     else old(photos)[k]
      ensures completed == completed0 + LargeSuccesses(large, single)
    {
      ghost var start := photos;
      completed := completed0;
      for j := 0 to |large|
        invariant |photos| == |start|
        invariant forall k :: 0 <= k < |start| ==>
          photos[k] == if HasId(large[..j], start[k].id) then
                         (if single(start[k].id) == Success then start[k].(progress := 100, status := Completed)
                          else start[k].(progress := 0, status := Error))
                       else start[k]
        invariant completed == completed0 + LargeSuccesses(large[..j], single)
      {
        var p := large[j];
        HasIdSnoc(large, j);
        assert large[..j + 1][..j] == large[..j];
        photos := SetProgress(photos, p.id, 10, Uploading);
        photos := SetProgress(photos, p.id, 50, Uploading);
        if single(p.id) == Success {
          photos := SetProgress(photos, p.id, 100, Completed);
          completed := completed + 1;
        } else {
          photos := SetProgress(photos, p.id, 0, Error);
        }
      }
      assert large[..|large|] == large;
    }

    /**
     * The batch of small files: each goes to (50, uploading); when the
     * batch succeeds each then goes to (100, completed); when it throws the
     * upload stops there.
     */
    method SendSmall(small: seq<QueuedPhoto>, batch: UploadOutcome) returns (threw: bool)
      modifies this
      ensures threw <==> batch == Throws
      ensures |photos| == |old(photos)|
      ensures forall k :: 0 <= k < |photos| ==> photos[k] == SmallStep(old(photos)[k], HasId(small, old(photos)[k].id), batch)
    {
      ghost var start := photos;
      MarkAll(small, 50, Uploading);
      if batch == Throws {
        return true;
      }
      if batch == Success {
        ghost var mid := photos;
        MarkAll(small, 100, Completed);
        forall k | 0 <= k < |start| ensures photos[k] == SmallStep(start[k], HasId(small, start[k].id), batch) {
          assert mid[k].id == start[k].id;
        }
      }
      return false;
    }

    /**
     * `uploadPhotos`. Nothing happens unless some entry is pending. The
     * small pending files go in one batch whose outcome is `batch`; when it
     * throws the upload stops there. Then each large pending file is sent
     * on its own, with outcome `single(id)`. Every entry ends as Settled
     * says, and the count of completed files is returned.
     */
    method UploadPhotos(batch: UploadOutcome, single: TempId -> UploadOutcome) returns (completed: nat, threw: bool)
      requires Valid()
      modifies this
      ensures Valid()
      ensures |photos| == |old(photos)|
      ensures threw <==> batch == Throws && SmallPending(old(photos)) != []
      ensures forall k :: 0 <= k < |photos| ==> photos[k] == Settled(old(photos)[k], batch, threw, single)
      ensures !threw ==> (completed ==
        (if batch == Success then |SmallPending(old(photos))| else 0) + LargeSuccesses(LargePending(old(photos)), single))
    {
      if Filter(photos, IsPending) == [] {
        NothingPending(photos);
        return 0, false;
      }
      completed, threw := UploadPending(batch, single);
    }

    /** The part of `uploadPhotos` after the check that something is pending. */
    method UploadPending(batch: UploadOutcome, single: TempId -> UploadOutcome) returns (completed: nat, threw: bool)
      requires Valid()
      modifies this
      ensures Valid()
      ensures |photos| == |old(photos)|
      ensures threw <==> batch == Throws && SmallPending(old(photos)) != []
      ensures forall k :: 0 <= k < |photos| ==> photos[k] == Settled(old(photos)[k], batch, threw, single)
      ensures !threw ==> (completed ==
        (if batch == Success then |SmallPending(old(photos))| else 0) + LargeSuccesses(LargePending(old(photos)), single))
    {
      ghost var before := photos;
      PendingMembership(before);
      var large := LargePending(photos);
      var small := SmallPending(photos);
      threw := false;
      if small != [] {
        threw := SendSmall(small, batch);
      }
      SmallPhaseFrom(before, photos, small, batch, single);
      if threw {
        return 0, true;
      }
      completed := if batch == Success then |small| else 0;
      ghost var afterSmall := photos;
      completed := SendLarge(large, single, completed);
      LargePhaseSettles(before, afterSmall, photos, large, batch, single);
    }
  }

  /** Where the batch of small files leaves one entry, given whether it is in the batch. */
  function SmallStep(p: QueuedPhoto, inBatch: bool, batch: UploadOutcome): QueuedPhoto {
    if !inBatch then p
    else if batch == Success then p.(progress := 100, status := Completed)
    else p.(progress := 50, status := Uploading)
  }

  /** The entries after the batch of small files, when it did not throw. */
  ghost predicate SmallPhaseDone(before: seq<QueuedPhoto>, now: seq<QueuedPhoto>, batch: UploadOutcome) {
    && |now| == |before|
    && forall k :: 0 <= k < |before| ==> now[k] == SmallStep(before[k], IsPending(before[k]) && IsSmall(before[k]), batch)
  }

  /**
   * The batch holds exactly the pending small entries, so the entries it
   * leaves are as SmallPhaseDone says; when it throws they are already
   * Settled, and ids stay unique.
   */
  lemma SmallPhaseFrom(before: seq<QueuedPhoto>, now: seq<QueuedPhoto>, small: seq<QueuedPhoto>, batch: UploadOutcome,
                       single: TempId -> UploadOutcome)
    requires UniqueIds(before) && |now| == |before|
    requires forall k :: 0 <= k < |before| ==>
      (HasId(small, before[k].id) <==> IsPending(before[k]) && IsSmall(before[k]))
    requires forall k :: 0 <= k < |now| ==> now[k] == SmallStep(before[k], HasId(small, before[k].id), batch)
    ensures SmallPhaseDone(before, now, batch)
    ensures UniqueIds(now)
    ensures batch == Throws ==> forall k :: 0 <= k < |now| ==>
      now[k] == Settled(before[k], batch, true, single)
  {
    SameIdsUnique(before, now);
  }

  /** After the large files are sent, every entry has reached the state Settled gives it. */
  lemma LargePhaseSettles(before: seq<QueuedPhoto>, afterSmall: seq<QueuedPhoto>, now: seq<QueuedPhoto>,
                          large: seq<QueuedPhoto>, batch: UploadOutcome, single: TempId -> UploadOutcome)
    requires UniqueIds(before) && SmallPhaseDone(before, afterSmall, batch) && |now| == |before|
    requires forall k :: 0 <= k < |before| ==>
      (HasId(large, before[k].id) <==> IsPending(before[k]) && IsLarge(before[k]))
    requires forall k :: 0 <= k < |now| ==>
      now[k] == if HasId(large, afterSmall[k].id) then
                  (if single(afterSmall[k].id) == Success then afterSmall[k].(progress := 100, status := Completed)
                   else afterSmall[k].(progress := 0, status := Error))
                else afterSmall[k]
    ensures forall k :: 0 <= k < |before| ==> now[k] == Settled(before[k], batch, false, single)
    ensures UniqueIds(now)
  {
    forall k | 0 <= k < |before| ensures now[k] == Settled(before[k], batch, false, single) && now[k].id == before[k].id {
      assert afterSmall[k].id == before[k].id;
    }
    SameIdsUnique(before, now);
  }
}
