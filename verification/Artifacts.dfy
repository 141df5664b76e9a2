// The artifact registry: importing a stream, committing an object under a storage quota,
// recovering what a crash left behind, and verifying through a cache.
//
// Every durable step is recorded in `history`, so that a crash leaves one of its states.
module Artifacts {
  import opened Wrappers
  import opened Protocol

  // A path below the registry's root. A file moved to `.orphaned` keeps its own path there,
  // with a fresh suffix if that place is taken.
  datatype Path =
    | Staged(name: nat)
    | Object(shard: Digest, id: nat)
    | Orphan(from: Path, suffix: Option<nat>)

  // `stamp` stands for the device, inode, size and times of a file: any write renews it.
  datatype File = File(bytes: seq<nat>, stamp: nat)

  datatype Row = Row(id: nat, path: Path, digest: Digest, size: nat)

  datatype Disk = Disk(files: map<Path, File>, rows: seq<Row>, nextId: nat)

  function Usage(rows: seq<Row>): nat
  {
    if rows == [] then 0 else Usage(rows[..|rows| - 1]) + rows[|rows| - 1].size
  }

  predicate Stray(path: Path)
  {
    path.Staged? || path.Object?
  }

  function Known(rows: seq<Row>): set<Path>
  {
    set r | r in rows :: r.path
  }

  // A row's object holds bytes of the recorded size and digest.
  predicate Intact(files: map<Path, File>, row: Row)
  {
    row.path in files && OfBytes(files[row.path].bytes) == row.digest && |files[row.path].bytes| == row.size
  }

  predicate NamedBelow(path: Path, bound: nat)
  {
    match path
    case Staged(name) => name < bound
    case Object(_, id) => id < bound
    case Orphan(from, suffix) => NamedBelow(from, bound) && (suffix.Some? ==> suffix.value < bound)
  }

  // Every registered object is there, whole, and within the storage limit.
  ghost predicate DiskOk(d: Disk, limit: Option<nat>)
  {
    && (forall r | r in d.rows :: Intact(d.files, r) && r.path == Object(r.digest, r.id))
    && (limit.Some? ==> Usage(d.rows) <= limit.value)
    && (forall p | p in d.files :: NamedBelow(p, d.nextId))
  }

  // Nothing lost, nothing overwritten, nothing invented: each file is where it was, or in
  // `.orphaned` under its own path; and every file was one of them.
  ghost predicate Preserved(a: map<Path, File>, b: map<Path, File>)
  {
    && (forall p | p in a :: (p in b && b[p] == a[p]) || (exists s :: MovedTo(a, b, p, s)))
    && (forall q | q in b :: (q in a && a[q] == b[q]) || (q.Orphan? && MovedTo(a, b, q.from, q.suffix)))
  }

  predicate MovedTo(a: map<Path, File>, b: map<Path, File>, p: Path, suffix: Option<nat>)
  {
    && p in a && p !in b && Stray(p)
    && Orphan(p, suffix) in b && b[Orphan(p, suffix)] == a[p] && Orphan(p, suffix) !in a
  }

  // Two files with the same stamp are the same file.
  ghost predicate Stamped(d: Disk)
  {
    && (forall p | p in d.files :: d.files[p].stamp < d.nextId)
    && (forall p, q | p in d.files && q in d.files && d.files[p].stamp == d.files[q].stamp ::
          d.files[p].bytes == d.files[q].bytes)
  }

  // A file as it was when its digest was recorded still has that digest.
  ghost predicate CacheFits(d: Disk, verified: map<nat, (nat, Digest)>)
  {
    && (forall id | id in verified :: verified[id].0 < d.nextId)
    && (forall id, p | id in verified && p in d.files && d.files[p].stamp == verified[id].0 ::
          OfBytes(d.files[p].bytes) == verified[id].1)
  }

  ghost predicate Sound(d: Disk, limit: Option<nat>, verified: map<nat, (nat, Digest)>)
  {
    DiskOk(d, limit) && Stamped(d) && CacheFits(d, verified)
  }

  // What no later state takes back: a registered object keeps its bytes, and so does a file
  // once it is in `.orphaned`.
  ghost predicate Keeps(a: Disk, b: Disk)
  {
    && a.rows <= b.rows
    && (forall r | r in a.rows :: r.path in a.files && r.path in b.files && b.files[r.path] == a.files[r.path])
    && (forall p | p in a.files && p.Orphan? :: p in b.files && b.files[p] == a.files[p])
  }

  // The states of a run so far: each one sound, and keeping what each earlier one held.
  ghost predicate Chronicle(h: seq<Disk>, limit: Option<nat>)
  {
    && h != []
    && (forall i | 0 <= i < |h| :: DiskOk(h[i], limit) && Stamped(h[i]))
    && (forall i, j | 0 <= i <= j < |h| :: Keeps(h[i], h[j]))
  }

  lemma KeepsTransitive(a: Disk, b: Disk, c: Disk)
    requires Keeps(a, b) && Keeps(b, c)
    ensures Keeps(a, c)
  {
    forall r | r in a.rows ensures r in b.rows {
      var i :| 0 <= i < |a.rows| && a.rows[i] == r;
      assert b.rows[i] == r;
    }
  }

  lemma KeepsItself(d: Disk, limit: Option<nat>)
    requires DiskOk(d, limit)
    ensures Keeps(d, d)
  {
    forall r | r in d.rows ensures Intact(d.files, r) {
    }
  }

  lemma ChronicleGrows(limit: Option<nat>, h: seq<Disk>, d: Disk)
    requires Chronicle(h, limit) && DiskOk(d, limit) && Stamped(d) && Keeps(h[|h| - 1], d)
    ensures Chronicle(h + [d], limit)
  {
    hide DiskOk, Stamped;
    KeepsItself(d, limit);
    forall i, j | 0 <= i <= j < |h + [d]| ensures Keeps((h + [d])[i], (h + [d])[j]) {
      if i < |h| && j == |h| { KeepsTransitive(h[i], h[|h| - 1], d); }
    }
  }

  lemma KeepsAnyId(a: Disk, b: Disk, c: Disk)
    requires a == b.(nextId := a.nextId) && Keeps(b, c)
    ensures Keeps(a, c)
  {
  }

  lemma ChronicleCut(limit: Option<nat>, h: seq<Disk>, k: nat)
    requires Chronicle(h, limit) && k < |h|
    ensures Chronicle(h[..k + 1], limit) && h[..k + 1][k] == h[k]
  {
    hide DiskOk, Stamped, Keeps;
  }

  lemma {:induction false} NamedBelowMore(path: Path, a: nat, b: nat)
    requires NamedBelow(path, a) && a <= b
    ensures NamedBelow(path, b)
  {
    if path.Orphan? { NamedBelowMore(path.from, a, b); }
  }

  lemma DrawKeeps(d: Disk, limit: Option<nat>, verified: map<nat, (nat, Digest)>)
    requires Sound(d, limit, verified)
    ensures Sound(d.(nextId := d.nextId + 1), limit, verified)
  {
    forall p | p in d.files ensures NamedBelow(p, d.nextId + 1) {
      NamedBelowMore(p, d.nextId, d.nextId + 1);
    }
  }

  lemma WriteKeeps(d: Disk, limit: Option<nat>, verified: map<nat, (nat, Digest)>, path: Path, bytes: seq<nat>)
    requires Sound(d, limit, verified) && path.Staged? && path.name < d.nextId
    ensures Sound(d.(files := d.files[path := File(bytes, d.nextId)], nextId := d.nextId + 1), limit, verified)
    ensures Keeps(d, d.(files := d.files[path := File(bytes, d.nextId)], nextId := d.nextId + 1))
  {
    DrawKeeps(d, limit, verified);
    forall r | r in d.rows ensures r.path != path && r.path in d.files {
      assert Intact(d.files, r);
    }
  }

  lemma RemoveKeeps(d: Disk, limit: Option<nat>, verified: map<nat, (nat, Digest)>, path: Path)
    requires Sound(d, limit, verified) && path !in Known(d.rows) && Stray(path)
    ensures Sound(d.(files := d.files - {path}), limit, verified)
    ensures Keeps(d, d.(files := d.files - {path}))
  {
    forall r | r in d.rows ensures Intact(d.files - {path}, r) {
      assert Intact(d.files, r) && r.path in Known(d.rows);
    }
  }

  lemma MoveKeeps(d: Disk, limit: Option<nat>, verified: map<nat, (nat, Digest)>, source: Path, destination: Path)
    requires Sound(d, limit, verified) && source in d.files && source !in Known(d.rows) && Stray(source)
    requires destination !in d.files && NamedBelow(destination, d.nextId)
    ensures Sound(d.(files := (d.files - {source})[destination := d.files[source]]), limit, verified)
    ensures Keeps(d, d.(files := (d.files - {source})[destination := d.files[source]]))
  {
    var e := d.(files := (d.files - {source})[destination := d.files[source]]);
    forall r | r in d.rows ensures Intact(e.files, r) {
      assert Intact(d.files, r) && r.path in Known(d.rows);
    }
  }

  lemma RegisterKeeps(d: Disk, limit: Option<nat>, verified: map<nat, (nat, Digest)>, row: Row)
    requires Sound(d, limit, verified) && Intact(d.files, row) && row.path == Object(row.digest, row.id)
    requires limit.Some? ==> Usage(d.rows) + row.size <= limit.value
    ensures Sound(d.(rows := d.rows + [row]), limit, verified) && Keeps(d, d.(rows := d.rows + [row]))
    ensures Sound(d.(rows := d.rows + [row]), limit, verified[row.id := (d.files[row.path].stamp, row.digest)])
  {
    assert (d.rows + [row])[..|d.rows|] == d.rows;
    KeepsItself(d, limit);
  }

  lemma FreshObject(d: Disk, limit: Option<nat>, id: nat, digest: Digest)
    requires DiskOk(d, limit) && id >= d.nextId
    ensures Object(digest, id) !in d.files && Object(digest, id) !in Known(d.rows)
    ensures Staged(id) !in d.files
    ensures forall p | p in d.files :: Orphan(p, Some(id)) !in d.files
  {
    assert forall p | p in d.files :: NamedBelow(p, d.nextId);
    forall r | r in d.rows ensures r.path in d.files {
      assert Intact(d.files, r);
    }
  }

  lemma StagedIsUnknown(d: Disk, limit: Option<nat>, name: nat)
    requires DiskOk(d, limit)
    ensures Staged(name) !in Known(d.rows)
  {
  }

  // The place for a stray file, or else a fresh one beside it.
  lemma OrphanPlace(d: Disk, limit: Option<nat>, path: Path)
    requires DiskOk(d, limit) && path in d.files
    ensures NamedBelow(Orphan(path, None), d.nextId)
    ensures NamedBelow(Orphan(path, Some(d.nextId)), d.nextId + 1) && Orphan(path, Some(d.nextId)) !in d.files
  {
    assert NamedBelow(path, d.nextId);
    NamedBelowMore(path, d.nextId, d.nextId + 1);
    FreshObject(d, limit, d.nextId, OfBytes([]));
  }

  lemma KnownIsThere(d: Disk, limit: Option<nat>)
    requires DiskOk(d, limit)
    ensures forall p | p in Known(d.rows) :: p in d.files && p.Object?
  {
    forall r | r in d.rows ensures r.path in d.files {
      assert Intact(d.files, r);
    }
  }

  function Least(a: nat, b: nat): nat
  {
    if a < b then a else b
  }

  // One read: some of what is left, nothing only at the end.
  function ReadChunk(stream: seq<nat>, at: nat, want: nat, cut: nat, breaksAt: Option<nat>): (r: seq<nat>)
    requires at <= |stream| && want > 0 && (breaksAt.Some? ==> at < breaksAt.value)
    ensures |r| <= want && at + |r| <= |stream| && r == stream[at..at + |r|]
    ensures r == [] <==> at == |stream|
    ensures breaksAt.Some? ==> at + |r| <= breaksAt.value
  {
    var left := Least(|stream| - at, Least(want, if breaksAt.Some? then breaksAt.value - at else want));
    stream[at..at + (if left == 0 || (0 < cut < left) then Least(cut, left) else left)]
  }

  lemma PreservedSame(files: map<Path, File>)
    ensures Preserved(files, files)
  {
  }

  lemma MovePreserves(a: map<Path, File>, b: map<Path, File>, c: map<Path, File>, path: Path, destination: Path)
    requires Preserved(a, b) && path in b && Stray(path)
    requires destination.Orphan? && destination.from == path && destination !in b
    requires c == (b - {path})[destination := b[path]]
    ensures Preserved(a, c)
  {
    assert path in a && a[path] == b[path];
    assert destination !in a;
    assert MovedTo(a, c, path, destination.suffix);
    forall p | p in a ensures (p in c && c[p] == a[p]) || (exists s :: MovedTo(a, c, p, s)) {
      if p != path && p !in c {
        var s :| MovedTo(a, b, p, s);
        assert MovedTo(a, c, p, s);
      }
    }
    forall q | q in c ensures (q in a && a[q] == c[q]) || (q.Orphan? && MovedTo(a, c, q.from, q.suffix)) {
      if q != destination && !(q in a && a[q] == c[q]) {
        assert MovedTo(a, b, q.from, q.suffix);
      }
    }
  }

  class ArtifactRegistry {
    const maxUpload: nat
    const maxStorage: Option<nat>
    var files: map<Path, File>
    var rows: seq<Row>
    var nextId: nat                        // identifiers, staging names and stamps
    var verified: map<nat, (nat, Digest)>   // in memory: an artifact's stamp and digest
    var history: seq<Disk>

    function D(): Disk
      reads this
    {
      Disk(files, rows, nextId)
    }

    // The disk is sound, and so is every state a crash can leave behind; none takes back
    // what an earlier one held.
    ghost predicate Consistent()
      reads this
    {
      && Sound(D(), maxStorage, verified)
      && Chronicle(history, maxStorage)
      && history[|history| - 1] == D().(nextId := history[|history| - 1].nextId)
    }

    // The process starts over whatever an earlier one left behind.
    constructor (maxUpload: nat, maxStorage: Option<nat>, earlier: seq<Disk>)
      requires Chronicle(earlier, maxStorage)
      ensures D() == earlier[|earlier| - 1] && history == earlier && Consistent()
      ensures this.maxUpload == maxUpload && this.maxStorage == maxStorage
    {
      this.maxUpload, this.maxStorage := maxUpload, maxStorage;
      var left := earlier[|earlier| - 1];
      files, rows, nextId := left.files, left.rows, left.nextId;
      verified, history := map[], earlier;
    }

    lemma Recorded(before: seq<Disk>, d: Disk)
      requires Chronicle(before, maxStorage) && before[|before| - 1] == d.(nextId := before[|before| - 1].nextId)
      requires Sound(D(), maxStorage, verified) && Keeps(d, D()) && history == before + [D()]
      ensures Consistent()
    {
      assert before != [];
      hide Chronicle, DiskOk, Stamped, CacheFits, Keeps;
      KeepsAnyId(before[|before| - 1], d, D());
      ChronicleGrows(maxStorage, before, D());
    }

    method WriteFile(path: Path, bytes: seq<nat>)
      modifies this`files, this`nextId, this`history
      ensures nextId == old(nextId) + 1 && files == old(files)[path := File(bytes, old(nextId))]
      ensures history == old(history) + [D()]
    {
      files := files[path := File(bytes, nextId)];
      nextId := nextId + 1;
      history := history + [D()];
    }

    method WriteStaged(name: nat, bytes: seq<nat>)
      requires Consistent() && name < nextId
      modifies this`files, this`nextId, this`history
      ensures Consistent()
      ensures nextId == old(nextId) + 1 && files == old(files)[Staged(name) := File(bytes, old(nextId))]
      ensures old(history) <= history
    {
      hide Chronicle, Keeps, DiskOk, Stamped, CacheFits;
      WriteKeeps(D(), maxStorage, verified, Staged(name), bytes);
      ghost var before, d := history, D();
      WriteFile(Staged(name), bytes);
      Recorded(before, d);
    }

    method Draw() returns (id: nat)
      requires Consistent()
      modifies this`nextId
      ensures Consistent() && id == old(nextId) && nextId == id + 1
    {
      DrawKeeps(D(), maxStorage, verified);
      id := nextId;
      nextId := nextId + 1;
    }

    method Unlink(path: Path)
      requires Consistent() && path !in Known(rows) && Stray(path)
      modifies this`files, this`history
      ensures Consistent() && files == old(files) - {path} && old(history) <= history
    {
      hide Chronicle, Keeps, DiskOk, Stamped, CacheFits;
      RemoveKeeps(D(), maxStorage, verified, path);
      ghost var before, d := history, D();
      files := files - {path};
      history := history + [D()];
      Recorded(before, d);
    }

    method Move(source: Path, destination: Path)
      requires Consistent() && source in files && source !in Known(rows) && Stray(source)
      requires destination !in files && NamedBelow(destination, nextId)
      modifies this`files, this`history
      ensures Consistent() && files == (old(files) - {source})[destination := old(files)[source]]
      ensures history == old(history) + [D()]
    {
      hide Chronicle, Keeps, DiskOk, Stamped, CacheFits;
      MoveKeeps(D(), maxStorage, verified, source, destination);
      ghost var before, d := history, D();
      files := (files - {source})[destination := files[source]];
      history := history + [D()];
      Recorded(before, d);
    }

    // import_stream. A read may return fewer bytes than asked (`cuts`), and may raise.
    method ImportStream(stream: seq<nat>, size: int, cuts: seq<nat>, breaksAt: Option<nat>,
                        expected: Option<Digest>, addFails: bool)
      returns (r: Result<Row>)
      requires Consistent()
      modifies this
      ensures Consistent() && old(history) <= history
      ensures r.Ok? <==>
        && 0 <= size <= maxUpload
        && size <= |stream| && (breaksAt.Some? ==> size <= breaksAt.value)
        && (expected.Some? ==> expected.value == OfBytes(stream[..size]))
        && (maxStorage.Some? ==> Usage(old(rows)) + size <= maxStorage.value)
        && !addFails
      ensures r.Err? ==> rows == old(rows) && files == old(files)
      ensures r.Ok? ==>
        && rows == old(rows) + [r.value]
        && r.value.size == size && r.value.digest == OfBytes(stream[..size])
        && r.value.path !in old(files) && r.value.path in files
        && files == old(files)[r.value.path := files[r.value.path]]
        && files[r.value.path].bytes == stream[..size]
    {
      if size < 0 || size > maxUpload { return Err("artifact size"); }
      hide Chronicle, Keeps, DiskOk, Stamped, CacheFits;
      FreshObject(D(), maxStorage, nextId, OfBytes([]));
      var name := Draw();
      var staging := Staged(name);
      WriteStaged(name, []);
      var readBytes, broken := Receive(name, stream, size, cuts, breaksAt, old(files));
      if broken {
        RemoveStaging(staging, old(files));
        return Err("stream");
      }
      if readBytes != size {
        RemoveStaging(staging, old(files));
        return Err("short stream");
      }
      r := Accept(staging, size, expected, addFails, old(files));
    }

    // What was received is committed if it has the digest asked for.
    method Accept(staging: Path, size: nat, expected: Option<Digest>, addFails: bool, ghost before: map<Path, File>)
      returns (r: Result<Row>)
      requires Consistent() && staging.Staged? && staging !in before
      requires staging in files && files == before[staging := files[staging]] && size == |files[staging].bytes|
      modifies this
      ensures Consistent() && old(history) <= history
      ensures r.Ok? <==>
        && (expected.Some? ==> expected.value == OfBytes(old(files)[staging].bytes))
        && (maxStorage.Some? ==> Usage(old(rows)) + size <= maxStorage.value)
        && !addFails
      ensures r.Err? ==> rows == old(rows) && files == before
      ensures r.Ok? ==>
        && rows == old(rows) + [r.value] && r.value.size == size && r.value.digest == OfBytes(old(files)[staging].bytes)
        && r.value.path !in before && files == before[r.value.path := old(files)[staging]]
    {
      hide Chronicle, Keeps, DiskOk, Stamped, CacheFits;
      var digest := OfBytes(files[staging].bytes);
      if expected.Some? && expected.value != digest {
        RemoveStaging(staging, before);
        return Err("hash mismatch");
      }
      r := Commit(staging, digest, size, addFails, before);
    }

    // The read loop: the staging file ends up with the first `size` bytes, or with fewer if
    // the stream ends or raises before.
    method Receive(name: nat, stream: seq<nat>, size: nat, cuts: seq<nat>, breaksAt: Option<nat>, ghost before: map<Path, File>)
      returns (readBytes: nat, broken: bool)
      requires Consistent() && name < nextId && Staged(name) !in before
      requires Staged(name) in files && files == before[Staged(name) := files[Staged(name)]] && files[Staged(name)].bytes == []
      modifies this
      ensures Consistent() && rows == old(rows) && old(history) <= history
      ensures Staged(name) in files && files == before[Staged(name) := files[Staged(name)]]
      ensures readBytes <= size && readBytes <= |stream| && files[Staged(name)].bytes == stream[..readBytes]
      ensures breaksAt.Some? ==> readBytes <= breaksAt.value
      ensures broken ==> readBytes < size && breaksAt == Some(readBytes)
      ensures !broken && readBytes < size ==> readBytes == |stream|
    {
      hide Chronicle, Keeps, DiskOk, Stamped, CacheFits;
      readBytes, broken := 0, false;
      var turn := 0;
      while readBytes < size
        invariant readBytes <= size && readBytes <= |stream|
        invariant breaksAt.Some? ==> readBytes <= breaksAt.value
        invariant Consistent() && rows == old(rows) && old(history) <= history && name < nextId
        invariant Staged(name) in files && files == before[Staged(name) := files[Staged(name)]]
        invariant files[Staged(name)].bytes == stream[..readBytes]
      {
        if breaksAt.Some? && breaksAt.value == readBytes { return readBytes, true; }
        var chunk := ReadChunk(stream, readBytes, size - readBytes, if turn < |cuts| then cuts[turn] else size, breaksAt);
        if chunk == [] { return; }
        assert stream[..readBytes] + chunk == stream[..readBytes + |chunk|];
        WriteStaged(name, stream[..readBytes] + chunk);
        readBytes := readBytes + |chunk|;
        turn := turn + 1;
      }
    }

    method RemoveStaging(staging: Path, ghost before: map<Path, File>)
      requires Consistent() && staging.Staged? && staging !in before
      requires staging in files && files == before[staging := files[staging]]
      modifies this`files, this`history
      ensures Consistent() && files == before && old(history) <= history
    {
      StagedIsUnknown(D(), maxStorage, staging.name);
      Unlink(staging);
      assert files == before;
    }

    // _commit: the quota, the move and the row, in that order, under one lock
    method Commit(staging: Path, digest: Digest, size: nat, addFails: bool, ghost before: map<Path, File>)
      returns (r: Result<Row>)
      requires Consistent() && staging.Staged? && staging !in before
      requires staging in files && files == before[staging := files[staging]]
      requires digest == OfBytes(files[staging].bytes) && size == |files[staging].bytes|
      modifies this
      ensures Consistent() && old(history) <= history
      ensures r.Ok? <==> !addFails && (maxStorage.Some? ==> Usage(old(rows)) + size <= maxStorage.value)
      ensures r.Err? ==> rows == old(rows) && files == before
      ensures r.Ok? ==>
        && rows == old(rows) + [r.value] && r.value.size == size && r.value.digest == digest
        && r.value.path !in before && files == before[r.value.path := old(files)[staging]]
    {
      hide Chronicle, Keeps, DiskOk, Stamped, CacheFits;
      FreshObject(D(), maxStorage, nextId, digest);
      var id := Draw();
      var row := Row(id, Object(digest, id), digest, size);
      if maxStorage.Some? && Usage(rows) + size > maxStorage.value {
        RemoveStaging(staging, before);
        return Err("quota");
      }
      StagedIsUnknown(D(), maxStorage, staging.name);
      Move(staging, row.path);
      assert files == before[row.path := old(files)[staging]];
      if addFails {
        Unlink(row.path);
        assert files == before;
        return Err("registry");
      }
      Register(row);
      return Ok(row);
    }

    // The row, and then the cache entry.
    method Register(row: Row)
      requires Consistent() && Intact(files, row) && row.path == Object(row.digest, row.id)
      requires maxStorage.Some? ==> Usage(rows) + row.size <= maxStorage.value
      modifies this`rows, this`verified, this`history
      ensures Consistent() && rows == old(rows) + [row] && old(history) <= history
    {
      hide Chronicle, Keeps, DiskOk, Stamped, CacheFits;
      RegisterKeeps(D(), maxStorage, verified, row);
      ghost var before, d := history, D();
      rows := rows + [row];
      history := history + [D()];
      Recorded(before, d);
      verified := verified[row.id := (files[row.path].stamp, row.digest)];
    }

    // clean_staging: afterwards the object files are exactly the registered ones, staging is
    // empty, and everything else is in `.orphaned`, byte for byte.
    method CleanStaging()
      requires Consistent()
      modifies this
      ensures Consistent() && rows == old(rows) && old(history) <= history
      ensures Preserved(old(files), files)
      ensures forall k | |old(history)| <= k < |history| :: Preserved(old(files), history[k].files)
      ensures forall p | p in files && !p.Orphan? :: p in Known(rows)
      ensures forall p | p in Known(rows) :: p in files && files[p] == old(files)[p]
    {
      hide Preserved, DiskOk, Stamped, CacheFits;
      KnownIsThere(D(), maxStorage);
      PreservedSame(files);
      QuarantineAll(set p | p in files && p.Staged?, old(files));
      QuarantineAll(set p | p in files && p.Object? && p !in Known(rows), old(files));
    }

    method QuarantineAll(paths: set<Path>, ghost before: map<Path, File>)
      requires Consistent() && Preserved(before, files)
      requires forall p | p in paths :: p in files && Stray(p) && p !in Known(rows)
      modifies this
      ensures Consistent() && rows == old(rows) && Preserved(before, files) && old(history) <= history
      ensures forall k | |old(history)| <= k < |history| :: Preserved(before, history[k].files)
      ensures forall p | Stray(p) :: (p in files <==> p in old(files) && p !in paths)
      ensures forall p | Stray(p) && p in files :: files[p] == old(files)[p]
    {
      hide Preserved, DiskOk, Stamped, CacheFits;
      var left := paths;
      while left != {}
        invariant Consistent() && rows == old(rows) && Preserved(before, files) && old(history) <= history
        invariant forall k | |old(history)| <= k < |history| :: Preserved(before, history[k].files)
        invariant left <= paths && forall p | p in left :: p in files
        invariant forall p | Stray(p) :: (p in files <==> p in old(files) && (p in paths ==> p in left))
        invariant forall p | Stray(p) && p in files :: files[p] == old(files)[p]
        decreases |left|
      {
        var path :| path in left;
        Quarantine(path, before);
        left := left - {path};
      }
    }

    // _quarantine: never onto a file that is there
    method Quarantine(path: Path, ghost before: map<Path, File>)
      requires Consistent() && path in files && Stray(path) && path !in Known(rows)
      requires Preserved(before, files)
      modifies this
      ensures Consistent() && rows == old(rows) && Preserved(before, files) && old(history) <= history
      ensures forall k | |old(history)| <= k < |history| :: Preserved(before, history[k].files)
      ensures forall p | Stray(p) :: (p in files <==> p in old(files) && p != path)
      ensures forall p | Stray(p) && p in files :: files[p] == old(files)[p]
    {
      hide Chronicle, Keeps, DiskOk, Stamped, CacheFits, Preserved, NamedBelow, Known;
      OrphanPlace(D(), maxStorage, path);
      var destination := Orphan(path, None);
      if destination in files {
        var suffix := Draw();
        destination := Orphan(path, Some(suffix));
      }
      ghost var now := files;
      Move(path, destination);
      MovePreserves(before, now, files, path, destination);
    }

    // _verify: exactly what hashing the object would answer, whether or not the cache is
    // hit; a hit reads nothing, so nothing can interfere with it. A write that lands while
    // the object is being read is noticed.
    method Verify(row: Row, interference: Option<seq<nat>>) returns (ok: bool)
      requires Stamped(D()) && CacheFits(D(), verified) && row.digest.OfBytes? && |row.digest.bytes| == row.size
      modifies this
      ensures Stamped(D()) && CacheFits(D(), verified) && rows == old(rows)
      ensures interference.None? ==> D() == old(D()) && history == old(history)
      ensures interference.None? ==> (ok <==> Intact(files, row))
      ensures interference.Some? && ok ==> files == old(files) && Intact(files, row)
      ensures row.path in old(files) && row.id in old(verified) && old(verified)[row.id] == (old(files)[row.path].stamp, row.digest) ==>
                ok && D() == old(D()) && history == old(history) && verified == old(verified)
      ensures ok ==> row.id in verified && verified[row.id] == (files[row.path].stamp, row.digest)
      ensures forall id | id != row.id :: (id in verified <==> id in old(verified)) && (id in verified ==> verified[id] == old(verified)[id])
    {
      if row.path !in files { return false; }
      var before := files[row.path];
      if row.id in verified && verified[row.id] == (before.stamp, row.digest) { return true; }
      var digest := OfBytes(before.bytes);
      if interference.Some? { WriteFile(row.path, interference.value); }
      var after := files[row.path];
      if after.stamp != before.stamp || |after.bytes| != row.size || digest != row.digest { return false; }
      verified := verified[row.id := (after.stamp, row.digest)];
      return true;
    }
  }

  // ------------------------------------------------------------------ whole runs

  // One thing the registry is asked to do, or a crash after the given durable step.
  datatype Act =
    | Import(stream: seq<nat>, size: int, cuts: seq<nat>, breaksAt: Option<nat>, expected: Option<Digest>, addFails: bool)
    | Check(row: nat)
    | Crash(at: nat)

  // Every file is where it was, or set aside under its own path, byte for byte.
  ghost predicate AllSurvive(a: map<Path, File>, b: map<Path, File>)
  {
    forall p | p in a :: Survives(a, b, p)
  }

  ghost predicate Survives(a: map<Path, File>, b: map<Path, File>, p: Path)
  {
    p in a ==> (p in b && b[p] == a[p]) || (exists s :: Orphan(p, s) in b && b[Orphan(p, s)] == a[p])
  }

  // Every file is a registered object or set aside.
  predicate Tidy(d: Disk)
  {
    forall p | p in d.files && !p.Orphan? :: p in Known(d.rows)
  }

  lemma SurviveTidying(a: map<Path, File>, b: Disk, c: Disk)
    requires AllSurvive(a, b.files) && Preserved(b.files, c.files) && Keeps(b, c)
    ensures AllSurvive(a, c.files)
  {
    forall p | p in a ensures Survives(a, c.files, p) {
      assert Survives(a, b.files, p);
      if p in b.files && b.files[p] == a[p] {
        if !(p in c.files && c.files[p] == b.files[p]) {
          var s :| MovedTo(b.files, c.files, p, s);
          assert Orphan(p, s) in c.files;
        }
      } else {
        var s :| Orphan(p, s) in b.files && b.files[Orphan(p, s)] == a[p];
        assert Orphan(p, s) in c.files;
      }
    }
  }

  lemma SurviveService(a: map<Path, File>, b: Disk, c: Disk)
    requires AllSurvive(a, b.files) && Tidy(b) && Keeps(b, c)
    ensures AllSurvive(a, c.files)
  {
    forall p | p in a ensures Survives(a, c.files, p) {
      assert Survives(a, b.files, p);
      if p in b.files && b.files[p] == a[p] {
        assert p.Orphan? || p in Known(b.rows);
      } else {
        var s :| Orphan(p, s) in b.files && b.files[Orphan(p, s)] == a[p];
        assert Orphan(p, s) in c.files;
      }
    }
  }

  lemma AllSurviveHere(a: map<Path, File>)
    ensures AllSurvive(a, a)
  {
  }

  // A new process over what is left, tidied up before it serves.
  method Restart(maxUpload: nat, maxStorage: Option<nat>, earlier: seq<Disk>) returns (registry: ArtifactRegistry)
    requires Chronicle(earlier, maxStorage)
    ensures fresh(registry) && registry.Consistent() && registry.maxStorage == maxStorage && registry.maxUpload == maxUpload
    ensures earlier <= registry.history && Tidy(registry.history[|registry.history| - 1])
    ensures forall k | |earlier| <= k < |registry.history| ::
              Preserved(earlier[|earlier| - 1].files, registry.history[k].files)
  {
    hide Chronicle, Preserved, DiskOk, Stamped, CacheFits, Keeps;
    registry := new ArtifactRegistry(maxUpload, maxStorage, earlier);
    registry.CleanStaging();
  }

  // From state `from` on nothing of `a` is lost, and in state `tidy` all was tidied up.
  ghost predicate Unlost(a: map<Path, File>, h: seq<Disk>, from: nat, tidy: nat)
  {
    && from <= tidy < |h| && Tidy(h[tidy])
    && forall k | from <= k <= tidy :: AllSurvive(a, h[k].files)
  }

  lemma UnlostAt(a: map<Path, File>, limit: Option<nat>, h: seq<Disk>, from: nat, tidy: nat, k: nat)
    requires Chronicle(h, limit) && Unlost(a, h, from, tidy) && from <= k < |h|
    ensures AllSurvive(a, h[k].files)
  {
    hide AllSurvive, Tidy, Keeps, DiskOk, Stamped;
    if k > tidy { SurviveService(a, h[tidy], h[k]); }
  }

  lemma UnlostAfterRestart(a: map<Path, File>, limit: Option<nat>, h: seq<Disk>, g: seq<Disk>, from: nat)
    requires h != [] && h <= g && Chronicle(g, limit) && Tidy(g[|g| - 1]) && from < |h|
    requires forall k | from <= k < |h| :: AllSurvive(a, h[k].files)
    requires forall k | |h| <= k < |g| :: Preserved(h[|h| - 1].files, g[k].files)
    ensures Unlost(a, g, from, |g| - 1)
  {
    hide AllSurvive, Tidy, Keeps, DiskOk, Stamped, Preserved;
    forall k | from <= k < |g| ensures AllSurvive(a, g[k].files) {
      if k >= |h| { SurviveTidying(a, h[|h| - 1], g[k]); }
    }
  }

  lemma CutUnlost(a: map<Path, File>, limit: Option<nat>, h: seq<Disk>, from: nat, tidy: nat, k: nat)
    requires Chronicle(h, limit) && Unlost(a, h, from, tidy) && from <= k < |h|
    ensures Chronicle(h[..k + 1], limit)
    ensures var g := h[..k + 1];
      forall j | from <= j < |g| :: AllSurvive(a, g[j].files)
  {
    ChronicleCut(limit, h, k);
    hide AllSurvive, Tidy, Chronicle;
    var g := h[..k + 1];
    forall j | from <= j < |g| ensures AllSurvive(a, g[j].files) {
      UnlostAt(a, limit, h, from, tidy, j);
    }
  }

  lemma UnlostMore(a: map<Path, File>, h: seq<Disk>, g: seq<Disk>, from: nat, tidy: nat)
    requires Unlost(a, h, from, tidy) && h <= g
    ensures Unlost(a, g, from, tidy)
  {
    hide AllSurvive, Tidy;
    assert forall k | from <= k <= tidy :: g[k] == h[k];
  }

  // From whatever a crash left behind: any imports and verifications, with crashes after
  // any durable step, of the tidying up as well, and restarts. Every file that was on disk
  // is still there at the end, where it was or set aside, byte for byte; and every object
  // ever registered is still registered and whole. `history` is the whole run, after what
  // came before it.
  method Run(maxUpload: nat, maxStorage: Option<nat>, earlier: seq<Disk>, script: seq<Act>) returns (registry: ArtifactRegistry)
    requires Chronicle(earlier, maxStorage)
    ensures registry.Consistent() && earlier <= registry.history
    ensures AllSurvive(earlier[|earlier| - 1].files, registry.files)
    ensures forall i, row | 0 <= i < |registry.history| && row in registry.history[i].rows ::
              row in registry.rows && Intact(registry.files, row)
              && registry.files[row.path] == registry.history[i].files[row.path]
  {
    hide Chronicle, DiskOk, Stamped, CacheFits, Keeps, Tidy, AllSurvive, Intact, Unlost, Preserved;
    IsNotEmpty(earlier, maxStorage);
    var from: nat := |earlier| - 1;
    ghost var a := earlier[from].files;
    AllSurviveHere(a);
    registry := Restart(maxUpload, maxStorage, earlier);
    ghost var tidy: nat := |registry.history| - 1;
    UnlostAfterRestart(a, maxStorage, earlier, registry.history, from);
    for n := 0 to |script|
      invariant fresh(registry) && registry.Consistent() && earlier <= registry.history
      invariant registry.maxStorage == maxStorage && Unlost(a, registry.history, from, tidy)
    {
      ghost var h := registry.history;
      match script[n] {
        case Import(stream, size, cuts, breaksAt, expected, addFails) =>
          var imported := registry.ImportStream(stream, size, cuts, breaksAt, expected, addFails);
          UnlostMore(a, h, registry.history, from, tidy);
        case Check(row) =>
          if row < |registry.rows| {
            var whole := VerifyOne(registry, registry.rows[row]);
          }
        case Crash(k) =>
          if from <= k < |registry.history| {
            CutUnlost(a, maxStorage, h, from, tidy, k);
            var cut := registry.history[..k + 1];
            registry := Restart(maxUpload, maxStorage, cut);
            UnlostAfterRestart(a, maxStorage, cut, registry.history, from);
            tidy := |registry.history| - 1;
          }
      }
    }
    UnlostAt(a, maxStorage, registry.history, from, tidy, |registry.history| - 1);
    RowsStayWhole(registry.history, maxStorage, registry.files, registry.rows);
  }

  method VerifyOne(registry: ArtifactRegistry, row: Row) returns (ok: bool)
    requires registry.Consistent() && row in registry.rows
    modifies registry
    ensures registry.Consistent() && registry.history == old(registry.history)
    ensures ok && Intact(registry.files, row)
  {
    hide Chronicle, DiskOk, Stamped, CacheFits;
    RowsAreWhole(registry.D(), registry.maxStorage, row);
    ok := registry.Verify(row, None);
  }

  lemma IsNotEmpty(h: seq<Disk>, limit: Option<nat>)
    requires Chronicle(h, limit)
    ensures h != []
  {
  }

  lemma RowsAreWhole(d: Disk, limit: Option<nat>, row: Row)
    requires DiskOk(d, limit) && row in d.rows
    ensures Intact(d.files, row)
    ensures row.digest.OfBytes? && |row.digest.bytes| == row.size
  {
    assert Intact(d.files, row);
  }

  lemma RowsStayWhole(h: seq<Disk>, limit: Option<nat>, files: map<Path, File>, rows: seq<Row>)
    requires Chronicle(h, limit) && files == h[|h| - 1].files && rows == h[|h| - 1].rows
    ensures forall i, row | 0 <= i < |h| && row in h[i].rows ::
              row in rows && Intact(files, row) && row.path in h[i].files && files[row.path] == h[i].files[row.path]
  {
    var d := h[|h| - 1];
    forall i, row | 0 <= i < |h| && row in h[i].rows
      ensures row in rows && Intact(files, row) && row.path in h[i].files && files[row.path] == h[i].files[row.path]
    {
      assert Keeps(h[i], d) && DiskOk(d, limit);
      var j :| 0 <= j < |h[i].rows| && h[i].rows[j] == row;
      assert d.rows[j] == row;
    }
  }
}
