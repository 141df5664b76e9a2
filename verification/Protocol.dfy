// What the broker and a lifecycle controller exchange, and the checkpoint evidence a
// trainer leaves on disk. Identifiers drawn as UUIDs (leases, fences, mutations) are
// numbers handed out once; a digest is a constructor, hence injective.
module Protocol {
  import opened Wrappers
  import opened Ordering

  // The controller's configured normal and released mode identifiers, which differ.
  datatype Mode = Normal | Released

  datatype Command =
    | SetMode(mutation: nat, lease: nat, fence: nat, epoch: nat, generation: nat, target: Mode)
    | Takeover(mutation: nat, lease: nat, previousFence: nat, fence: nat, epoch: nat, generation: nat, target: Mode)

  datatype Digest =
    | OfBytes(bytes: seq<nat>)
    | OfManifest(runId: string, files: seq<FileRecord>)
    | OfEvidence(evidence: Evidence)

  datatype FileRecord = FileRecord(path: string, size: nat, digest: Digest)

  datatype Evidence = Evidence(runId: string, checkpointId: string, files: seq<FileRecord>)

  datatype Receipt = Receipt(runId: string, checkpointId: string, files: seq<FileRecord>)

  // The receipt path: nothing there, something that is no readable receipt, or a receipt.
  datatype ReceiptFile = Absent | Unreadable | Present(receipt: Receipt)

  // The identity of a receipt that a release must move past.
  datatype Identity = Identity(runId: string, checkpointId: string, content: Digest)

  datatype Checkpoint = Checkpoint(runId: string, checkpointId: string, digest: Digest)

  // The state file the resource probe reads. Its health is always "healthy" and its
  // safe-boundary flag always true, so neither is a field.
  datatype Public = Public(mutation: nat, lease: nat, fence: nat, epoch: nat, generation: nat,
                           mode: Mode, checkpoint: Option<Checkpoint>)

  datatype Response =
    | SetModeResponse(mutation: nat, lease: nat, fence: nat, epoch: nat, generation: nat,
                      mode: Mode, checkpoint: Option<Checkpoint>)
    | TakeoverResponse(mutation: nat, lease: nat, previousFence: nat, fence: nat, epoch: nat,
                       generation: nat, mode: Mode)

  const BY_PATH: (FileRecord, FileRecord) -> bool :=
    (a: FileRecord, b: FileRecord) => StringLess(a.path, b.path)

  function SortedFiles(files: seq<FileRecord>): seq<FileRecord>
  {
    Sort(BY_PATH, files)
  }

  predicate UniquePaths(files: seq<FileRecord>)
  {
    forall i, j | 0 <= i < j < |files| :: files[i].path != files[j].path
  }

  function ContentDigest(runId: string, files: seq<FileRecord>): Digest
  {
    OfManifest(runId, SortedFiles(files))
  }

  function LoadReceipt(file: ReceiptFile): Result<Receipt>
  {
    match file
    case Absent => Err("state_invalid")
    case Unreadable => Err("state_invalid")
    case Present(r) =>
      if 1 <= |r.files| <= 128 && UniquePaths(r.files) then Ok(r) else Err("checkpoint_invalid")
  }

  function IdentityIfPresent(file: ReceiptFile): Result<Option<Identity>>
  {
    if file.Absent? then Ok(None)
    else
      match LoadReceipt(file)
      case Err(code) => Err(code)
      case Ok(r) => Ok(Some(Identity(r.runId, r.checkpointId, ContentDigest(r.runId, r.files))))
  }

  predicate FileMatches(item: FileRecord, disk: map<string, seq<nat>>)
  {
    item.path in disk && |disk[item.path]| == item.size && OfBytes(disk[item.path]) == item.digest
  }

  function FileError(item: FileRecord, disk: map<string, seq<nat>>): string
  {
    if item.path !in disk then "checkpoint_invalid" else "checkpoint_changed"
  }

  // The evidence of the receipt on disk, once every file it lists is there with the
  // listed size and digest; otherwise the error of the first file that is not.
  function CheckpointOf(file: ReceiptFile, disk: map<string, seq<nat>>): (r: Result<Evidence>)
    ensures r.Ok? ==>
      && file.Present?
      && r.value == Evidence(file.receipt.runId, file.receipt.checkpointId, SortedFiles(file.receipt.files))
      && UniquePaths(file.receipt.files)
      && forall item | item in file.receipt.files :: FileMatches(item, disk)
  {
    match LoadReceipt(file)
    case Err(code) => Err(code)
    case Ok(receipt) =>
      if forall item | item in receipt.files :: FileMatches(item, disk)
      then Ok(Evidence(receipt.runId, receipt.checkpointId, SortedFiles(receipt.files)))
      else Err(FirstError(receipt.files, disk))
  }

  function FirstError(files: seq<FileRecord>, disk: map<string, seq<nat>>): string
  {
    if files == [] then "" else
    if FileMatches(files[0], disk) then FirstError(files[1..], disk) else FileError(files[0], disk)
  }

  function CheckpointRef(e: Evidence): Checkpoint
  {
    Checkpoint(e.runId, e.checkpointId, OfEvidence(e))
  }

  // A stop published a new immutable checkpoint of the same run.
  predicate Advanced(e: Evidence, baseline: Identity)
  {
    && e.runId == baseline.runId
    && e.checkpointId != baseline.checkpointId
    && ContentDigest(e.runId, e.files) != baseline.content
  }

  lemma UniquePathsLinear(files: seq<FileRecord>)
    requires UniquePaths(files)
    ensures LinearOn(BY_PATH, files) && Distinct(files)
  {
    forall x | x in files ensures !BY_PATH(x, x) {
      StringLessIrreflexive(x.path);
    }
    forall x, y | x in files && y in files ensures x == y || BY_PATH(x, y) || BY_PATH(y, x) {
      StringLessTotal(x.path, y.path);
    }
    forall x, y, z | x in files && y in files && z in files && BY_PATH(x, y) && BY_PATH(y, z)
      ensures BY_PATH(x, z)
    {
      StringLessTransitive(x.path, y.path, z.path);
    }
  }

  // Listing the same files in another order gives the same content digest, and files that
  // differ give another one: the comparison is about the manifest and nothing else.
  lemma ContentDigestIgnoresOrder(runId: string, files: seq<FileRecord>, others: seq<FileRecord>)
    requires UniquePaths(files)
    ensures ContentDigest(runId, files) == ContentDigest(runId, others) <==> multiset(files) == multiset(others)
  {
    UniquePathsLinear(files);
    SortElements(BY_PATH, files);
    SortElements(BY_PATH, others);
    if multiset(files) == multiset(others) {
      SortCanonical(BY_PATH, files, others);
    }
  }

  // Sorting the evidence again, as the baseline comparison does, changes nothing.
  lemma EvidenceDigest(runId: string, files: seq<FileRecord>)
    requires UniquePaths(files)
    ensures ContentDigest(runId, SortedFiles(files)) == ContentDigest(runId, files)
  {
    UniquePathsLinear(files);
    SortElements(BY_PATH, files);
    SortCanonical(BY_PATH, files, SortedFiles(files));
  }

  // A release from a baseline really moved on: another identifier and other files.
  lemma AdvancedMeansNewFiles(before: ReceiptFile, after: ReceiptFile, disk: map<string, seq<nat>>)
    requires IdentityIfPresent(before).Ok? && IdentityIfPresent(before).value.Some?
    requires CheckpointOf(after, disk).Ok?
    ensures Advanced(CheckpointOf(after, disk).value, IdentityIfPresent(before).value.value) <==>
              && after.receipt.runId == before.receipt.runId
              && after.receipt.checkpointId != before.receipt.checkpointId
              && multiset(after.receipt.files) != multiset(before.receipt.files)
  {
    EvidenceDigest(after.receipt.runId, after.receipt.files);
    ContentDigestIgnoresOrder(after.receipt.runId, after.receipt.files, before.receipt.files);
  }

  // A receipt is accepted exactly if it lists between 1 and 128 files, no path twice, and
  // every one of them is there with the listed number of bytes and the listed digest of
  // those bytes; the evidence is then the receipt's own, in the order of the paths.
  lemma CheckpointIsVerified(r: Receipt, disk: map<string, seq<nat>>)
    ensures CheckpointOf(Present(r), disk).Ok? <==>
      && 1 <= |r.files| <= 128
      && (forall i, j | 0 <= i < j < |r.files| :: r.files[i].path != r.files[j].path)
      && forall i | 0 <= i < |r.files| ::
           && r.files[i].path in disk
           && |disk[r.files[i].path]| == r.files[i].size
           && OfBytes(disk[r.files[i].path]) == r.files[i].digest
    ensures CheckpointOf(Present(r), disk).Ok? ==>
      var e := CheckpointOf(Present(r), disk).value;
      && e.runId == r.runId && e.checkpointId == r.checkpointId
      && multiset(e.files) == multiset(r.files)
      && forall i, j | 0 <= i < j < |e.files| :: StringLess(e.files[i].path, e.files[j].path)
    ensures CheckpointOf(Absent, disk).Err? && CheckpointOf(Unreadable, disk).Err?
  {
    if forall i | 0 <= i < |r.files| :: FileMatches(r.files[i], disk) {
      assert forall item | item in r.files :: FileMatches(item, disk);
    }
    if CheckpointOf(Present(r), disk).Ok? {
      forall i | 0 <= i < |r.files| ensures FileMatches(r.files[i], disk) {
        assert r.files[i] in r.files;
      }
      UniquePathsLinear(r.files);
      SortElements(BY_PATH, r.files);
      SortIncreasing(BY_PATH, r.files);
    }
  }

  // Two disks that bear the same evidence out hold the same bytes at every path it lists.
  lemma SameEvidenceSameBytes(e: Evidence, a: ReceiptFile, before: map<string, seq<nat>>, b: ReceiptFile, after: map<string, seq<nat>>)
    requires CheckpointOf(a, before) == Ok(e) && CheckpointOf(b, after) == Ok(e)
    ensures forall i | 0 <= i < |e.files| ::
      && e.files[i].path in before && e.files[i].path in after
      && before[e.files[i].path] == after[e.files[i].path]
      && OfBytes(after[e.files[i].path]) == e.files[i].digest
  {
    ListedBytes(e, a, before);
    ListedBytes(e, b, after);
  }

  lemma ListedBytes(e: Evidence, a: ReceiptFile, disk: map<string, seq<nat>>)
    requires CheckpointOf(a, disk) == Ok(e)
    ensures forall i | 0 <= i < |e.files| :: e.files[i].path in disk && OfBytes(disk[e.files[i].path]) == e.files[i].digest
  {
    CheckpointIsVerified(a.receipt, disk);
    forall i | 0 <= i < |e.files| ensures e.files[i].path in disk && OfBytes(disk[e.files[i].path]) == e.files[i].digest {
      assert e.files[i] in multiset(e.files);
      assert e.files[i] in a.receipt.files;
      var j :| 0 <= j < |a.receipt.files| && a.receipt.files[j] == e.files[i];
    }
  }
}
