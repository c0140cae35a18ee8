/** The filesystem blob store: a bounded streaming copy into a temporary file, a check,
    and a rename; and files listed back as keys. */
module FsBlob {
  import opened Records
  import opened Text
  import opened BlobOutcome
  import opened Paths

  // ------------------------------------------------------------------ the byte stream

  datatype ReadStatus = More | Eof | Broken

  /** Any io.Reader: it delivers `data` in pieces of its own choosing, then ends or fails,
      perhaps together with the last bytes. */
  class Reader {
    const data: Bytes
    const fails: bool
    const eager: bool
    var pos: nat
    var schedule: seq<nat>  // how much each Read is willing to deliver

    ghost predicate Valid() reads this {
      pos <= |data|
    }

    constructor (data: Bytes, fails: bool, eager: bool, schedule: seq<nat>)
      ensures Valid() && pos == 0 && this.data == data && this.fails == fails && this.eager == eager
    {
      this.data, this.fails, this.eager, this.schedule := data, fails, eager, schedule;
      pos := 0;
    }

    method Read(max: nat) returns (chunk: Bytes, status: ReadStatus)
      requires Valid() && max > 0
      modifies this`pos, this`schedule
      ensures Valid() && old(pos) <= pos && chunk == data[old(pos)..pos] && |chunk| <= max
      ensures status.More? ==> !(eager && pos == |data|) && (pos > old(pos) || |schedule| < |old(schedule)|)
      ensures !status.More? ==> pos == |data| && (eager || pos == old(pos)) && status == if fails then Broken else Eof
      ensures |schedule| <= |old(schedule)|
    {
      var end := if fails then Broken else Eof;
      if pos == |data| { return [], end; }
      var want := max;
      if |schedule| > 0 {
        want := if schedule[0] < max then schedule[0] else max;
        schedule := schedule[1..];
      }
      var n := if want < |data| - pos then want else |data| - pos;
      chunk := data[pos..pos + n];
      pos := pos + n;
      status := if eager && pos == |data| then end else More;
    }
  }

  // --------------------------------------------------------------- the specification

  /** The most bytes the copy takes from the stream. */
  function Most(limit: int): nat {
    var m := Wrap64(limit + 1); if m <= 0 then 0 else m
  }

  /** The copy fails when the stream breaks before the limit stops it. */
  predicate CopyBreaks(data: Bytes, fails: bool, eager: bool, limit: int) {
    fails && (|data| < Most(limit) || (eager && |data| == Most(limit) > 0))
  }

  /** I/O errors around the copy. */
  datatype Faults = Faults(mkdir: bool, create: bool, chmod: bool, close: bool, rename: bool)

  const NO_FAULTS := Faults(false, false, false, false, false)

  /** What Put decides for a whole stream. */
  function PutSpec(sha: Bytes -> string, data: Bytes, fails: bool, eager: bool, want: PartMeta, limit: int,
      io: Faults): PutResult {
    if io.mkdir || io.create || CopyBreaks(data, fails, eager, limit) then Rejected(ErrStorage)
    else match PutOutcome(sha, data, want, limit)
      case Rejected(e) => Rejected(e)
      case Accepted(d) => if io.chmod || io.close || io.rename then Rejected(ErrStorage) else Accepted(d)
  }

  /** For every limit below the largest int64, and an undisturbed stream, this is the
      simple rule: too large exactly when the stream exceeds the limit, accepted exactly
      when it does not and its size and hash are the declared ones. */
  lemma PutIsSimple(sha: Bytes -> string, data: Bytes, eager: bool, want: PartMeta, limit: int)
    requires 0 <= limit < MAX_INT64
    ensures var r := PutSpec(sha, data, false, eager, want, limit, NO_FAULTS);
            && (r == Rejected(ErrPartTooLarge) <==> |data| > limit)
            && (r == Accepted(data) <==> |data| <= limit && |data| == want.encryptedSize && sha(data) == want.sha256)
            && (r.Accepted? ==> r == Accepted(data))
            && (r.Rejected? && |data| <= limit ==> r == Rejected(ErrIntegrity))
  {
  }

  /** And a stream that breaks is too large if more than the limit had been read, which takes
      one byte more than the limit before the break is seen; otherwise it is an I/O error. */
  lemma BrokenStream(sha: Bytes -> string, data: Bytes, eager: bool, want: PartMeta, limit: int)
    requires 0 <= limit < MAX_INT64
    ensures PutSpec(sha, data, true, eager, want, limit, NO_FAULTS) ==
              if |data| <= limit || (eager && |data| == limit + 1) then Rejected(ErrStorage)
              else Rejected(ErrPartTooLarge)
  {
  }

  /** Something is published only if nothing else went wrong, and then it is what would be
      published without any fault; before or around the copy every fault is an I/O error. */
  lemma FaultsReject(sha: Bytes -> string, data: Bytes, fails: bool, eager: bool, want: PartMeta, limit: int,
      io: Faults)
    ensures var r, clean := PutSpec(sha, data, fails, eager, want, limit, io),
                            PutSpec(sha, data, fails, eager, want, limit, NO_FAULTS);
            && (r.Accepted? <==> clean.Accepted? && !io.mkdir && !io.create && !io.chmod && !io.close && !io.rename)
            && (r.Accepted? ==> r == clean)
            && (io.mkdir || io.create ==> r == Rejected(ErrStorage))
            && (!io.mkdir && !io.create ==> r == if clean.Accepted? && r.Rejected? then Rejected(ErrStorage) else clean)
  {
  }

  /** A stream within the limit, declared truthfully, is published. */
  predicate PublishesWhatFits(sha: Bytes -> string, limit: int, data: Bytes, eager: bool) {
    var want := PartMeta("", |data|, sha(data));
    |data| <= limit ==> PutSpec(sha, data, false, eager, want, limit, NO_FAULTS) == Accepted(data)
  }

  /** At the largest int64 the bound wraps around: nothing is read, and a stream that
      matches its declaration is refused unless it is empty. So every truthful stream
      within the limit is published if and only if the limit is below the largest int64. */
  lemma SimpleRuleIff(sha: Bytes -> string, limit: int)
    requires 0 <= limit <= MAX_INT64
    ensures (forall data: Bytes, eager: bool :: PublishesWhatFits(sha, limit, data, eager)) <==> limit < MAX_INT64
  {
    if limit == MAX_INT64 {
      var data: Bytes := [0];
      assert Most(limit) == 0 && Copied(data, limit) == [];
      assert !PublishesWhatFits(sha, limit, data, false);
    }
  }

  // ----------------------------------------------------------------------- the object

  const BUFFER := 32 * 1024

  predicate IsTemp(path: string) {
    var es := Split('/', path); HasPrefix(es[|es| - 1], ".tmp-")
  }

  /** A file is temporary exactly when its name, the last element of its path, begins so. */
  lemma TempIff(path: string)
    ensures IsTemp(path) <==>
              exists a: string, b: string ::
                Free('/', b) && (a == "" || a[|a| - 1] == '/') && path == a + ".tmp-" + b
  {
    if IsTemp(path) {
      var a, b := SplitName(path);
      assert path == a + ".tmp-" + b;
    }
    if a: string, b: string :| Free('/', b) && (a == "" || a[|a| - 1] == '/') && path == a + ".tmp-" + b {
      assert path == a + (".tmp-" + b);
      LastPiece(a, ".tmp-" + b);
    }
  }

  lemma SplitName(path: string) returns (a: string, b: string)
    requires IsTemp(path)
    ensures Free('/', b) && (a == "" || a[|a| - 1] == '/') && path == a + ".tmp-" + b
  {
    var es := Split('/', path);
    SplitFree('/', path);
    JoinSplit('/', path);
    LastElement(es);
    hide Split, Join;
    var name := es[|es| - 1];
    a := if |es| == 1 then "" else Join('/', es[..|es| - 1]) + "/";
    b := AfterTemp(a, name);
  }

  lemma AfterTemp(a: string, name: string) returns (b: string)
    requires HasPrefix(name, ".tmp-") && Free('/', name)
    ensures Free('/', b) && a + name == a + ".tmp-" + b
  {
    b := name[5..];
    assert name == ".tmp-" + b;
  }

  lemma LastPiece(a: string, last: string)
    requires Free('/', last) && (a == "" || a[|a| - 1] == '/')
    ensures var es := Split('/', a + last); es[|es| - 1] == last
  {
    SplitPrefix('/', last, "");
    assert last + "" == last;
    if a == "" {
      assert a + last == last;
    } else {
      assert a + last == a[..|a| - 1] + ['/'] + last;
      SplitAt('/', a[..|a| - 1], last);
    }
  }

  lemma LastElement(es: seq<string>)
    requires |es| > 0
    ensures Join('/', es) == (if |es| == 1 then "" else Join('/', es[..|es| - 1]) + "/") + es[|es| - 1]
  {
    hide Join;
    var init, last := es[..|es| - 1], es[|es| - 1];
    JoinOne(last);
    if |es| > 1 {
      JoinAppend('/', init, [last]);
      assert es == init + [last];
    } else {
      assert es == [last] && "" + last == last;
    }
  }

  lemma JoinOne(e: string)
    ensures Join('/', [e]) == e
  {
  }

  /** The files that List turns into keys. */
  predicate Listed(dir: string, path: string) {
    HasPrefix(path, Below(dir)) && !IsTemp(path)
  }

  lemma RelBack(dir: string, path: string)
    requires HasPrefix(path, Below(dir))
    ensures path == Below(dir) + Rel(dir, path)
  {
    assert path == path[..|Below(dir)|] + path[|Below(dir)|..];
  }

  function ListedKeys(dir: string, files: map<string, Bytes>): set<string> {
    RelsOf(dir, files.Keys)
  }

  function RelsOf(dir: string, paths: set<string>): set<string> {
    set path | path in paths && Listed(dir, path) :: Rel(dir, path)
  }

  lemma ListedIff(dir: string, files: map<string, Bytes>, k: string)
    ensures k in ListedKeys(dir, files) <==> Below(dir) + k in files && !IsTemp(Below(dir) + k)
  {
    hide IsTemp;
    var path := Below(dir) + k;
    assert path[..|Below(dir)|] == Below(dir) && Rel(dir, path) == k;
    if k in ListedKeys(dir, files) {
      var other :| other in files && Listed(dir, other) && Rel(dir, other) == k;
      RelBack(dir, other);
    }
  }

  /** Different files give different keys. */
  lemma NextRel(dir: string, paths: set<string>, path: string)
    requires path !in paths
    ensures RelsOf(dir, paths + {path}) == RelsOf(dir, paths) + if Listed(dir, path) then {Rel(dir, path)} else {}
    ensures Listed(dir, path) ==> Rel(dir, path) !in RelsOf(dir, paths)
  {
    forall other | other in paths && Listed(dir, other) && Listed(dir, path)
      ensures Rel(dir, other) != Rel(dir, path)
    {
      RelBack(dir, other);
      RelBack(dir, path);
    }
  }

  /** The store by key: what a caller that only knows keys can observe. */
  ghost function View(dir: string, files: map<string, Bytes>): map<string, Bytes> {
    map key | key in ListedKeys(dir, files) :: files[PathOf(dir, files, key)]
  }

  ghost function PathOf(dir: string, files: map<string, Bytes>, key: string): string
    requires key in ListedKeys(dir, files)
    ensures PathOf(dir, files, key) in files
  {
    var path :| path in files && Listed(dir, path) && Rel(dir, path) == key;
    path
  }

  class FilesystemBlob {
    var files: map<string, Bytes>  // the files under the directory, by absolute path
    const dir: string
    const sha: Bytes -> string

    constructor (dir: string, sha: Bytes -> string)
      requires IsCleanDir(dir)
      ensures this.dir == dir && this.sha == sha && files == map[]
    {
      this.dir, this.sha := dir, sha;
      files := map[];
    }

    /** Streams into a temporary file, never reading more than limit+1 bytes, verifies,
        and only then renames it into place. `tmpName` is the fresh name. Every failure
        removes the temporary file and leaves the stored files as they were. */
    method Put(key: string, r: Reader, want: PartMeta, limit: int, io: Faults, tmpName: string) returns (res: PutResult)
      requires r.Valid() && r.pos == 0 && tmpName !in files
      modifies this`files, r
      ensures r.Valid() && r.pos <= Most(limit)
      ensures Resolve(dir, key).None? ==> res == Rejected(ErrStorage) && files == old(files)
      ensures Resolve(dir, key).Some? && Resolve(dir, key).value != tmpName ==>
                && res == PutSpec(sha, r.data, r.fails, r.eager, want, limit, io)
                && files == match res
                            case Accepted(d) => old(files)[Resolve(dir, key).value := d]
                            case Rejected(_) => old(files)
    {
      var p := Resolve(dir, key);
      if p.None? { return Rejected(ErrStorage); }
      if io.mkdir || io.create { return Rejected(ErrStorage); }
      files := files[tmpName := []];
      var n, remaining := 0, Wrap64(limit + 1);
      var tmp: Bytes := [];
      var status := More;
      while status.More? && remaining > 0
        invariant r.Valid() && r.pos <= Most(limit) && n == r.pos && tmp == r.data[..r.pos]
        invariant remaining > 0 || Most(limit) == 0 || r.pos == Most(limit)
        invariant Most(limit) > 0 ==> remaining == Most(limit) - r.pos
        invariant Most(limit) == 0 ==> remaining <= 0
        invariant !status.More? ==> r.pos == |r.data| && Most(limit) > 0 && (r.eager || r.pos < Most(limit))
        invariant !status.More? ==> status == if r.fails then Broken else Eof
        invariant status.More? && r.eager && Most(limit) > 0 ==> r.pos < |r.data| || r.pos == 0
        invariant status.More? && r.eager && r.pos == |r.data| ==> r.pos == 0
        invariant files == old(files)[tmpName := tmp]
        decreases |r.data| - r.pos, |r.schedule|, if status.More? then 1 else 0
      {
        var max := if remaining < BUFFER then remaining else BUFFER;
        var chunk: Bytes;
        chunk, status := r.Read(max);
        tmp := tmp + chunk;
        files := files[tmpName := tmp];
        n := n + |chunk|;
        remaining := remaining - |chunk|;
      }
      if status.Broken? {
        files := files - {tmpName};
        assert files == old(files);
        return Rejected(ErrStorage);
      }
      assert tmp == Copied(r.data, limit);
      if n > limit {
        files := files - {tmpName};
        assert files == old(files);
        return Rejected(ErrPartTooLarge);
      }
      if n != want.encryptedSize || sha(tmp) != want.sha256 {
        files := files - {tmpName};
        assert files == old(files);
        return Rejected(ErrIntegrity);
      }
      if io.chmod || io.close || io.rename {
        files := files - {tmpName};
        assert files == old(files);
        return Rejected(ErrStorage);
      }
      files := (files - {tmpName})[p.value := tmp];
      assert p.value != tmpName ==> files == old(files)[p.value := tmp];
      res := Accepted(tmp);
    }

    method Open(key: string) returns (r: Option<Bytes>)
      ensures r == match Resolve(dir, key)
                   case None => None
                   case Some(p) => if p in files then Some(files[p]) else None
    {
      var p := Resolve(dir, key);
      if p.None? || p.value !in files { return None; }
      r := Some(files[p.value]);
    }

    method Delete(key: string)
      modifies this`files
      ensures files == match Resolve(dir, key) case None => old(files) case Some(p) => old(files) - {p}
    {
      var p := Resolve(dir, key);
      if p.Some? { files := files - {p.value}; }
    }

    /** Walks the files, skips the temporary ones, and gives back each path below the
        directory as a key. */
    method List() returns (keys: seq<string>)
      ensures forall k :: k in keys <==> k in ListedKeys(dir, files)
      ensures forall k :: k in keys <==>
        var path := (if dir == "/" then dir else dir + "/") + k; path in files && !IsTemp(path)
      ensures forall i, j :: 0 <= i < j < |keys| ==> keys[i] != keys[j]
    {
      keys := [];
      var left := files.Keys;
      ghost var seen: set<string> := {};
      while left != {}
        invariant left !! seen && left + seen == files.Keys
        invariant (set k | k in keys) == RelsOf(dir, seen)
        invariant forall i, j :: 0 <= i < j < |keys| ==> keys[i] != keys[j]
      {
        var path :| path in left;
        NextRel(dir, seen, path);
        if Listed(dir, path) { keys := keys + [Rel(dir, path)]; }
        left, seen := left - {path}, seen + {path};
      }
      forall k ensures k in keys <==> Below(dir) + k in files && !IsTemp(Below(dir) + k) {
        ListedIff(dir, files, k);
      }
    }
  }

  // ------------------------------------------------------- files refine keys to blobs

  /** Keys the store keeps apart: literal, and not hidden by the temporary-file rule. */
  predicate Canonical(key: string) {
    Literal(key) && !IsTemp(key)
  }

  lemma CanonicalPath(dir: string, key: string)
    requires IsCleanDir(dir) && dir != "/" && Canonical(key)
    ensures Resolve(dir, key) == Some(dir + "/" + key)
    ensures Listed(dir, dir + "/" + key) && Rel(dir, dir + "/" + key) == key
  {
    ListedBackIff(dir, key);
    var path := dir + "/" + key;
    assert path[..|dir| + 1] == dir + "/";
    SplitAt('/', dir, key);
    assert path == dir + ['/'] + key;
    var es, ks := Split('/', path), Split('/', key);
    assert es[|es| - 1] == ks[|ks| - 1];
  }

  lemma ViewAt(dir: string, files: map<string, Bytes>, key: string)
    ensures key in View(dir, files) <==>
        Below(dir) + key in files && Listed(dir, Below(dir) + key) && Rel(dir, Below(dir) + key) == key
    ensures key in View(dir, files) ==> View(dir, files)[key] == files[Below(dir) + key]
  {
    if key in ListedKeys(dir, files) {
      RelBack(dir, PathOf(dir, files, key));
    }
  }

  lemma ViewKeys(dir: string, files: map<string, Bytes>)
    ensures View(dir, files).Keys == ListedKeys(dir, files)
  {
  }

  lemma OtherPath(dir: string, key: string, k: string)
    requires k != key
    ensures dir + "/" + k != dir + "/" + key
  {
    SameTail(dir + "/", k, key);
  }

  lemma ViewPutAt(dir: string, files: map<string, Bytes>, key: string, data: Bytes, k: string)
    requires IsCleanDir(dir) && dir != "/" && Canonical(key)
    ensures var after := View(dir, files[dir + "/" + key := data]);
            && (k in after <==> k == key || k in View(dir, files))
            && (k in after ==> after[k] == if k == key then data else View(dir, files)[k])
  {
    CanonicalPath(dir, key);
    ViewAt(dir, files, k);
    ViewAt(dir, files[dir + "/" + key := data], k);
    if k != key { OtherPath(dir, key, k); }
  }

  lemma ViewDeleteAt(dir: string, files: map<string, Bytes>, key: string, k: string)
    requires IsCleanDir(dir) && dir != "/" && Canonical(key)
    ensures var after := View(dir, files - {dir + "/" + key});
            && (k in after <==> k != key && k in View(dir, files))
            && (k in after ==> after[k] == View(dir, files)[k])
  {
    CanonicalPath(dir, key);
    ViewAt(dir, files, k);
    ViewAt(dir, files - {dir + "/" + key}, k);
    if k != key { OtherPath(dir, key, k); }
  }

  /** On canonical keys the filesystem store is the store by key: publishing, opening,
      unlinking and listing by path are publishing, opening, unlinking and listing by key.
      In particular a published canonical key is always listed back as itself, and only
      it, which is what the sweep's comparison of listed and live keys relies on. */
  lemma FilesRefineKeys(dir: string, files: map<string, Bytes>, key: string, data: Bytes)
    requires IsCleanDir(dir) && dir != "/" && Canonical(key)
    ensures Resolve(dir, key).Some?
    ensures var p := Resolve(dir, key).value;
            && View(dir, files[p := data]) == View(dir, files)[key := data]
            && View(dir, files - {p}) == View(dir, files) - {key}
            && (p in files <==> key in View(dir, files))
            && (p in files ==> files[p] == View(dir, files)[key])
            && View(dir, files).Keys == ListedKeys(dir, files)
  {
    hide View, Canonical;
    CanonicalPath(dir, key);
    var p := dir + "/" + key;
    ViewAt(dir, files, key);
    var put, put' := View(dir, files[p := data]), View(dir, files)[key := data];
    assert put == put' by {
      forall k | k in put.Keys + put'.Keys ensures k in put && k in put' && put[k] == put'[k] {
        ViewPutAt(dir, files, key, data, k);
      }
    }
    var del, del' := View(dir, files - {p}), View(dir, files) - {key};
    assert del == del' by {
      forall k | k in del.Keys + del'.Keys ensures k in del && k in del' && del[k] == del'[k] {
        ViewDeleteAt(dir, files, key, k);
      }
    }
    ViewKeys(dir, files);
  }

  /** The storage keys of sends whose part ids are canonical are canonical. */
  lemma StorageKeysAreCanonical(sendId: string, partId: string)
    requires Proper(sendId) && !HasDotDot(sendId) && sendId[0] != '/' && Canonical(partId)
    ensures Canonical(StorageKey(sendId, partId))
  {
    var key := StorageKey(sendId, partId);
    assert key == sendId + ['/'] + partId;
    SplitAt('/', sendId, partId);
    SplitPrefix('/', sendId, "");
    assert sendId + "" == sendId;
    assert Split('/', key) == [sendId] + Split('/', partId);
    forall i | 0 <= i && i + 1 < |key| ensures !(key[i] == '.' && key[i + 1] == '.') {
      if i + 1 < |sendId| {
        assert key[i] == sendId[i] && key[i + 1] == sendId[i + 1];
      } else if i > |sendId| {
        assert key[i] == partId[i - |sendId| - 1] && key[i + 1] == partId[i - |sendId|];
      }
    }
  }
}
