/** The orphan sweep and the protocol over files. By key a sweep compares like with like;
    over files it compares what the listing makes of a path with what the database holds. */
module FileSweep {
  import opened Records
  import opened Text
  import opened BlobOutcome
  import opened Paths
  import opened FsBlob
  import opened Sql
  import opened Protocol
  import opened Invariants
  import opened Steps
  import opened Later
  import opened Publication

  // ------------------------------------------------------------ names that were resolved

  /** Every listed file has a name that resolves back to it. */
  predicate AtHome(dir: string, files: map<string, Bytes>) {
    forall path :: path in files && Listed(dir, path) ==> Literal(Rel(dir, path))
  }

  lemma {:induction false} JoinedNames(es: seq<string>)
    requires AllProper(es) && |es| > 0 && forall i :: 0 <= i < |es| ==> !HasDotDot(es[i])
    ensures Literal(Join('/', es)) && Split('/', Join('/', es)) == es
  {
    SplitJoin('/', es);
    JoinedDots(es);
    assert Proper(es[0]);
  }

  lemma {:induction false} JoinedDots(es: seq<string>)
    requires |es| > 0 && forall i :: 0 <= i < |es| ==> !HasDotDot(es[i])
    ensures !HasDotDot(Join('/', es))
  {
    if |es| > 1 {
      JoinedDots(es[1..]);
      var head, rest, s := es[0], Join('/', es[1..]), Join('/', es);
      assert s == head + ['/'] + rest;
      forall i | 0 <= i && i + 1 < |s| ensures !(s[i] == '.' && s[i + 1] == '.') {
        if i + 1 < |head| {
          assert s[i] == head[i] && s[i + 1] == head[i + 1];
        } else if i > |head| {
          assert s[i] == rest[i - |head| - 1] && s[i + 1] == rest[i - |head|];
        }
      }
    }
  }

  lemma {:induction false} NamesAre(es: seq<string>)
    ensures forall e :: e in Names(es) ==> e in es
  {
    if |es| > 0 {
      NamesAre(es[..|es| - 1]);
      assert forall e :: e in es[..|es| - 1] ==> e in es;
    }
  }

  /** What an admitted key's file is listed as: the key without its empty elements and its
      dots, which is a literal key, and the file is hidden only by the temporary rule. */
  lemma ListedAs(dir: string, key: string)
    requires IsCleanDir(dir) && dir != "/" && Admitted(key) && KeyElements(key) != []
    ensures Resolve(dir, key).Some? && HasPrefix(Resolve(dir, key).value, Below(dir))
    ensures var path := Resolve(dir, key).value;
            && Rel(dir, path) == Join('/', KeyElements(key)) && Literal(Rel(dir, path))
            && (Listed(dir, path) <==> !IsTemp(path))
            && (Literal(key) ==> Rel(dir, path) == key)
  {
    AdmittedElements(key);
    NoDotDotElement(key);
    NamesAre(Split('/', key));
    ResolvedPath(dir, key);
    ListedBackIff(dir, key);
    hide Resolve, KeyElements, Names, Literal, HasDotDot;
    var es := KeyElements(key);
    forall i | 0 <= i < |es| ensures !HasDotDot(es[i]) { assert es[i] in Split('/', key); }
    JoinedNames(es);
    var path := dir + "/" + Join('/', es);
    assert path[..|dir| + 1] == dir + "/" && path[|dir| + 1..] == Join('/', es);
  }

  /** Publishing under any admitted key, literal or not, keeps every listed file at home. */
  lemma PutStaysHome(dir: string, files: map<string, Bytes>, key: string, data: Bytes)
    requires IsCleanDir(dir) && dir != "/" && Admitted(key) && AtHome(dir, files)
    ensures Resolve(dir, key).Some? && AtHome(dir, files[Resolve(dir, key).value := data])
  {
    ResolvedPath(dir, key);
    if KeyElements(key) != [] { ListedAs(dir, key); }
  }

  lemma HomeAgain(dir: string, path: string)
    requires IsCleanDir(dir) && dir != "/" && Listed(dir, path) && Literal(Rel(dir, path))
    ensures Resolve(dir, Rel(dir, path)) == Some(path)
  {
    RelBack(dir, path);
    ListedBackIff(dir, Rel(dir, path));
  }

  // ----------------------------------------------------------------- a sweep over files

  /** The files that the sweep's loop removes: where the listed keys that are not live
      resolve to. */
  function Unlinked(dir: string, files: map<string, Bytes>, live: set<string>): set<string> {
    set key | key in ListedKeys(dir, files) && key !in live && Resolve(dir, key).Some? :: Resolve(dir, key).value
  }

  function SweptFiles(dir: string, files: map<string, Bytes>, live: set<string>): map<string, Bytes> {
    files - Unlinked(dir, files, live)
  }

  function Gone(dir: string, keys: seq<string>, live: set<string>): set<string> {
    set key | key in keys && key !in live && Resolve(dir, key).Some? :: Resolve(dir, key).value
  }

  function Orphans(keys: seq<string>, live: set<string>): set<string> {
    set key | key in keys && key !in live
  }

  lemma NextKey(dir: string, keys: seq<string>, i: nat, live: set<string>)
    requires i < |keys| && forall j :: 0 <= j < i ==> keys[j] != keys[i]
    ensures var gone, next := Gone(dir, keys[..i], live), Gone(dir, keys[..i + 1], live);
            next == gone + if keys[i] !in live && Resolve(dir, keys[i]).Some? then {Resolve(dir, keys[i]).value} else {}
    ensures var n, next := Orphans(keys[..i], live), Orphans(keys[..i + 1], live);
            next == (n + if keys[i] in live then {} else {keys[i]}) && keys[i] !in n
  {
    hide Resolve;
    assert keys[..i + 1] == keys[..i] + [keys[i]];
  }

  /** The coordinator's loop with the filesystem store behind it. */
  method OrphanSweep(blob: FilesystemBlob, live: seq<string>) returns (n: nat)
    modifies blob
    ensures blob.files == SweptFiles(blob.dir, old(blob.files), set k | k in live)
    ensures n == |ListedKeys(blob.dir, old(blob.files)) - set k | k in live|
  {
    hide Resolve, Gone, Orphans;
    var stored := blob.List();
    var liveSet := set k | k in live;
    n := 0;
    SweepEnds(blob.dir, old(blob.files), stored, liveSet);
    for i := 0 to |stored|
      invariant blob.files == old(blob.files) - Gone(blob.dir, stored[..i], liveSet)
      invariant n == |Orphans(stored[..i], liveSet)|
    {
      NextKey(blob.dir, stored, i, liveSet);
      if stored[i] !in liveSet {
        blob.Delete(stored[i]);
        n := n + 1;
      }
    }
  }

  lemma SweepEnds(dir: string, files: map<string, Bytes>, keys: seq<string>, live: set<string>)
    requires forall k :: k in keys <==> k in ListedKeys(dir, files)
    ensures Gone(dir, keys[..0], live) == {} && Orphans(keys[..0], live) == {}
    ensures Gone(dir, keys[..|keys|], live) == Unlinked(dir, files, live)
    ensures Orphans(keys[..|keys|], live) == ListedKeys(dir, files) - live
  {
    hide Resolve, ListedKeys;
    assert keys[..|keys|] == keys;
  }

  /** Of files that are at home the sweep keeps exactly the unlisted ones and the ones
      listed as a live key. */
  lemma SweptFilesAre(dir: string, files: map<string, Bytes>, live: set<string>, path: string)
    requires IsCleanDir(dir) && dir != "/" && AtHome(dir, files) && path in files
    ensures path in SweptFiles(dir, files, live) <==> !Listed(dir, path) || Rel(dir, path) in live
    ensures path in SweptFiles(dir, files, live) ==> SweptFiles(dir, files, live)[path] == files[path]
  {
    if Listed(dir, path) {
      HomeAgain(dir, path);
      assert Rel(dir, path) in ListedKeys(dir, files);
    }
    if path in Unlinked(dir, files, live) {
      var key :| key in ListedKeys(dir, files) && key !in live && Resolve(dir, key) == Some(path);
      var other :| other in files && Listed(dir, other) && Rel(dir, other) == key;
      HomeAgain(dir, other);
    }
  }

  /** Exactly when a sweep with a current snapshot spares the blob of a live key: when the
      file is temporary by name, or what it is listed as is itself a live key. */
  lemma LiveSurvivesIff(dir: string, files: map<string, Bytes>, live: set<string>, key: string)
    requires IsCleanDir(dir) && dir != "/" && AtHome(dir, files)
    requires key in live && Admitted(key) && KeyElements(key) != []
    requires Resolve(dir, key).Some? && Resolve(dir, key).value in files
    ensures var path := Resolve(dir, key).value;
            && HasPrefix(path, Below(dir)) && Rel(dir, path) == Join('/', KeyElements(key))
            && (path in SweptFiles(dir, files, live) <==> IsTemp(path) || Rel(dir, path) in live)
  {
    ListedAs(dir, key);
    SweptFilesAre(dir, files, live, Resolve(dir, key).value);
  }

  /** If all live keys are literal, and so in particular if all are canonical, a sweep
      spares every live blob. */
  lemma LiteralLiveKeysSurvive(dir: string, files: map<string, Bytes>, live: set<string>)
    requires IsCleanDir(dir) && dir != "/" && AtHome(dir, files)
    requires forall key :: key in live ==> Literal(key)
    ensures forall key :: key in live && Resolve(dir, key).Some? && Resolve(dir, key).value in files ==>
              Resolve(dir, key).value in SweptFiles(dir, files, live)
    ensures (forall key :: Canonical(key) ==> Literal(key))
  {
    forall key | key in live && Resolve(dir, key).Some? && Resolve(dir, key).value in files
      ensures Resolve(dir, key).value in SweptFiles(dir, files, live)
    {
      KeptElements(key);
      ListedAs(dir, key);
      LiveSurvivesIff(dir, files, live, key);
    }
  }

  lemma PlainIsCanonical()
    ensures Canonical("a/b")
  {
    assert "a/b" == "a" + ['/'] + "b";
    SplitAt('/', "a", "b");
    SplitPrefix('/', "a", "");
    SplitPrefix('/', "b", "");
    assert "a" + "" == "a" && "b" + "" == "b" && Split('/', "a/b") == ["a", "b"];
  }

  lemma SameStrings(sendId: string)
    ensures StorageKey(sendId, "a/b") == (sendId + "/a") + "/" + "b"
    ensures StorageKey(sendId, "a//b") == (sendId + "/a") + "//" + "b"
  {
  }

  /** The part ids "a//b" and "a/b" of one send are two keys with one file. */
  lemma OneFile(dir: string, sendId: string)
    requires IsCleanDir(dir) && dir != "/" && Proper(sendId) && !HasDotDot(sendId)
    ensures var key, plain := StorageKey(sendId, "a//b"), StorageKey(sendId, "a/b");
            && key != plain && Admitted(key) && Canonical(plain)
            && Resolve(dir, key) == Resolve(dir, plain) == Some(dir + "/" + plain)
  {
    hide Resolve, Canonical, Admitted, StorageKey;
    PlainIsCanonical();
    StorageKeysAreCanonical(sendId, "a/b");
    CanonicalPath(dir, StorageKey(sendId, "a/b"));
    CanonicalIsAdmitted(StorageKey(sendId, "a/b"));
    SameStrings(sendId);
    NonLiteralKeysCollide(dir, sendId + "/a", "b");
  }

  lemma CanonicalIsAdmitted(key: string)
    requires Canonical(key)
    ensures Admitted(key)
  {
  }

  /** A live blob is lost: for any directory but the root, any send and any files, a blob
      published under the part id "a//b" is removed by a sweep that has just read its key
      among the live ones. */
  lemma DoubledSlashIsLost(dir: string, files: map<string, Bytes>, live: set<string>, sendId: string, data: Bytes)
    requires IsCleanDir(dir) && dir != "/" && AtHome(dir, files) && Proper(sendId) && !HasDotDot(sendId)
    requires StorageKey(sendId, "a//b") in live && StorageKey(sendId, "a/b") !in live
    ensures var path := dir + "/" + StorageKey(sendId, "a/b");
            && Resolve(dir, StorageKey(sendId, "a//b")) == Some(path)
            && path !in SweptFiles(dir, files[path := data], live)
  {
    hide Resolve, Canonical, SweptFiles, Admitted;
    OneFile(dir, sendId);
    var key, plain := StorageKey(sendId, "a//b"), StorageKey(sendId, "a/b");
    CanonicalPath(dir, plain);
    PutStaysHome(dir, files, key, data);
    SweptFilesAre(dir, files[dir + "/" + plain := data], live, dir + "/" + plain);
  }

  /** The other harm: with both part ids declared, the second upload replaces the bytes
      that a download of the first will be given. */
  lemma DoubledSlashOverwrites(dir: string, files: map<string, Bytes>, sendId: string, first: Bytes, second: Bytes)
    requires IsCleanDir(dir) && dir != "/" && Proper(sendId) && !HasDotDot(sendId)
    ensures var p, q := Resolve(dir, StorageKey(sendId, "a//b")), Resolve(dir, StorageKey(sendId, "a/b"));
            p.Some? && q.Some? && files[p.value := first][q.value := second][p.value] == second
  {
    hide Resolve;
    OneFile(dir, sendId);
  }

  // ------------------------------------------------------------- whole runs over files

  /** What one step of a call does to the files. */
  function FilesAfterCall(cfg: Config, dir: string, files: map<string, Bytes>, call: Call, pick: string):
    map<string, Bytes>
  {
    match call
    case PutPublish(id, p, body, want) => (
      match PutOutcome(cfg.sha, body, want, cfg.maxPartBytes)
      case Accepted(data) => Written(dir, files, StorageKey(id, p), data)
      case Rejected(_) => files)
    case ReapBlobs(keys, _) => if keys == {} then files else Erased(dir, files, pick)
    case SweepBlobs(todo, _, _) => if todo == {} then files else Erased(dir, files, pick)
    case _ => files
  }

  function FilesAfter(cfg: Config, dir: string, s: State, files: map<string, Bytes>, a: Action): map<string, Bytes>
    requires Enabled(s, a)
  {
    if a.Advance? then FilesAfterCall(cfg, dir, files, s.calls[a.c], a.pick) else files
  }

  function Written(dir: string, files: map<string, Bytes>, key: string, data: Bytes): map<string, Bytes> {
    match Resolve(dir, key) case Some(p) => files[p := data] case None => files
  }

  function Erased(dir: string, files: map<string, Bytes>, key: string): map<string, Bytes> {
    match Resolve(dir, key) case Some(p) => files - {p} case None => files
  }

  /** All part ids declared so far make canonical keys. */
  ghost predicate CanonicalKeys(created: CreatedMap) {
    forall id, p :: id in created && p in Declared(created, id) ==> Canonical(StorageKey(id, p))
  }

  /** The files hold the blobs, and nothing else is listed. */
  ghost predicate Holds(dir: string, files: map<string, Bytes>, blobs: map<string, Bytes>) {
    View(dir, files) == blobs
  }

  lemma WriteHolds(dir: string, files: map<string, Bytes>, blobs: map<string, Bytes>, key: string, data: Bytes)
    requires IsCleanDir(dir) && dir != "/" && Canonical(key) && Holds(dir, files, blobs)
    ensures Holds(dir, Written(dir, files, key, data), blobs[key := data])
    ensures Holds(dir, Erased(dir, files, key), blobs - {key})
  {
    hide View, Canonical, Resolve;
    FilesRefineKeys(dir, files, key, data);
  }

  lemma KnownIsCanonical(created: CreatedMap, key: string)
    requires CanonicalKeys(created) && KnownKey(created, key)
    ensures Canonical(key)
  {
    hide Canonical;
  }

  /** Over canonical keys one step over files is one step over keys. */
  lemma FileStep(cfg: Config, dir: string, s: State, files: map<string, Bytes>, a: Action)
    requires IsCleanDir(dir) && dir != "/" && Inv(cfg, s) && Enabled(s, a)
    requires CanonicalKeys(s.sh.hist.created) && Holds(dir, files, s.sh.blobs)
    ensures Holds(dir, FilesAfter(cfg, dir, s, files, a), Apply(cfg, s, a).sh.blobs)
  {
    hide Holds, FilesAfterCall, CanonicalKeys, InvShared, InvCall, Exec, IsCleanDir;
    if a.Advance? { FileCall(cfg, dir, s.sh, files, a.c, s.calls[a.c], a.pick); }
  }

  lemma FileCall(cfg: Config, dir: string, sh: Shared, files: map<string, Bytes>, c: CallId, call: Call, pick: string)
    requires IsCleanDir(dir) && dir != "/" && Ready(call, pick) && InvCall(cfg, sh, c, call)
    requires CanonicalKeys(sh.hist.created) && Holds(dir, files, sh.blobs)
    ensures Holds(dir, FilesAfterCall(cfg, dir, files, call, pick), Exec(cfg, sh, c, call, pick).sh.blobs)
  {
    hide Holds, Written, Erased, Canonical, InvShared, IsCleanDir, CreateTransaction, DeleteSends, PutOutcome;
    if call.PutPublish? {
      var key := StorageKey(call.sendId, call.partId);
      assert Canonical(key);
      match PutOutcome(cfg.sha, call.body, call.want, cfg.maxPartBytes) {
        case Accepted(data) => WriteHolds(dir, files, sh.blobs, key, data);
        case Rejected(_) =>
      }
    } else if (call.ReapBlobs? && call.keys != {}) || (call.SweepBlobs? && call.todo != {}) {
      KnownIsCanonical(sh.hist.created, pick);
      WriteHolds(dir, files, sh.blobs, pick, []);
    } else {
      BlobsStay(cfg, sh, c, call, pick);
    }
  }

  lemma BlobsStay(cfg: Config, sh: Shared, c: CallId, call: Call, pick: string)
    requires Ready(call, pick) && !call.PutPublish?
    requires (call.ReapBlobs? ==> call.keys == {}) && (call.SweepBlobs? ==> call.todo == {})
    ensures Exec(cfg, sh, c, call, pick).sh.blobs == sh.blobs
  {
  }

  /** The files after the first `i` actions of a run, from an empty directory. */
  function FilesAt(cfg: Config, dir: string, ss: seq<State>, acts: seq<Action>, i: nat): map<string, Bytes>
    requires i <= |acts| < |ss| && forall j :: 0 <= j < |acts| ==> Enabled(ss[j], acts[j])
  {
    if i == 0 then map[]
    else FilesAfter(cfg, dir, ss[i - 1], FilesAt(cfg, dir, ss, acts, i - 1), acts[i - 1])
  }

  /** For runs whose declared part ids are canonical, the store over files is the store by
      key in every state, however the calls interleave and wherever they crash: its files
      hold the blobs, its listing is their keys, and opening a declared part's key opens
      its blob. So every theorem about runs by key is one about runs over files. */
  lemma {:induction false} FilesOfRun(cfg: Config, dir: string, ss: seq<State>, acts: seq<Action>, i: nat)
    requires IsRun(cfg, ss, acts) && i < |ss| && IsCleanDir(dir) && dir != "/"
    requires CanonicalKeys(ss[i].sh.hist.created)
    ensures Holds(dir, FilesAt(cfg, dir, ss, acts, i), ss[i].sh.blobs)
    ensures ListedKeys(dir, FilesAt(cfg, dir, ss, acts, i)) == ss[i].sh.blobs.Keys
    ensures forall id, p :: id in ss[i].sh.hist.created && p in Declared(ss[i].sh.hist.created, id) ==>
              var key, files := StorageKey(id, p), FilesAt(cfg, dir, ss, acts, i);
              && Resolve(dir, key).Some? && (Resolve(dir, key).value in files <==> key in ss[i].sh.blobs)
              && (key in ss[i].sh.blobs ==> files[Resolve(dir, key).value] == ss[i].sh.blobs[key])
  {
    hide Holds, CanonicalKeys, Apply, FilesAfter, InvShared, InvCalls, View, ListedKeys, Resolve;
    if i == 0 {
      EmptyHolds(dir);
    } else {
      RunLater(cfg, ss, acts, i - 1, i);
      EarlierCanonical(ss[i - 1].sh, ss[i].sh);
      FilesOfRun(cfg, dir, ss, acts, i - 1);
      RunOk(cfg, ss, acts, i - 1);
      FileStep(cfg, dir, ss[i - 1], FilesAt(cfg, dir, ss, acts, i - 1), acts[i - 1]);
    }
    HoldsMeans(dir, FilesAt(cfg, dir, ss, acts, i), ss[i].sh);
  }

  lemma EmptyHolds(dir: string)
    ensures Holds(dir, map[], INIT.sh.blobs)
  {
  }

  lemma EarlierCanonical(sh: Shared, sh': Shared)
    requires IsLater(sh, sh') && CanonicalKeys(sh'.hist.created)
    ensures CanonicalKeys(sh.hist.created)
  {
    hide Canonical;
  }

  lemma HoldsMeans(dir: string, files: map<string, Bytes>, sh: Shared)
    requires IsCleanDir(dir) && dir != "/" && Holds(dir, files, sh.blobs) && CanonicalKeys(sh.hist.created)
    ensures ListedKeys(dir, files) == sh.blobs.Keys
    ensures forall id, p :: id in sh.hist.created && p in Declared(sh.hist.created, id) ==>
              var key := StorageKey(id, p);
              && Resolve(dir, key).Some? && (Resolve(dir, key).value in files <==> key in sh.blobs)
              && (key in sh.blobs ==> files[Resolve(dir, key).value] == sh.blobs[key])
  {
    hide Canonical, Resolve, View, ListedKeys;
    ViewKeys(dir, files);
    forall id, p | id in sh.hist.created && p in Declared(sh.hist.created, id)
      ensures var key := StorageKey(id, p);
              && Resolve(dir, key).Some? && (Resolve(dir, key).value in files <==> key in sh.blobs)
              && (key in sh.blobs ==> files[Resolve(dir, key).value] == sh.blobs[key])
    {
      FilesRefineKeys(dir, files, StorageKey(id, p), []);
    }
  }

  /** Publish-before-record over files: with canonical part ids and no stale listing, in
      every state of every run a part marked uploaded has a file of its declared size and
      hash. */
  lemma FilesPublished(cfg: Config, dir: string, ss: seq<State>, acts: seq<Action>, i: nat, k: PartKey)
    requires IsRun(cfg, ss, acts) && i < |ss| && IsCleanDir(dir) && dir != "/"
    requires CanonicalKeys(ss[i].sh.hist.created) && forall j :: 0 <= j < i ==> Guarded(ss[j], acts[j])
    requires k in ss[i].sh.db.parts && ss[i].sh.db.parts[k].uploadedAt.Some?
    ensures var path, files := Resolve(dir, StorageKey(k.0, k.1)), FilesAt(cfg, dir, ss, acts, i);
            && path.Some? && path.value in files
            && |files[path.value]| == ss[i].sh.db.parts[k].encryptedSize
            && cfg.sha(files[path.value]) == ss[i].sh.db.parts[k].sha256
  {
    FilesOfRun(cfg, dir, ss, acts, i);
    RunPublished(cfg, ss, acts, i);
    RunOk(cfg, ss, acts, i);
    hide Resolve, Apply, Guarded, FilesAt, IsRun, CanonicalKeys;
    assert PartOk(ss[i].sh.db.parts, k, ss[i].sh.hist.created);
  }
}
