/** Publish-before-record: a part row marked uploaded has its blob. The only step that
    can break this is a blob listing taken against an out-of-date live-key snapshot. */
module Publication {
  import opened Records
  import opened Sql
  import opened BlobOutcome
  import opened Protocol
  import opened Invariants
  import opened Steps

  /** Every part marked uploaded has a published blob under its key. */
  ghost predicate Published(sh: Shared) {
    forall k :: k in sh.db.parts && sh.db.parts[k].uploadedAt.Some? ==> StorageKey(k.0, k.1) in sh.blobs
  }

  /** A blob would be accepted again if it were uploaded again. */
  predicate Fits(cfg: Config, data: Bytes) {
    |data| <= cfg.maxPartBytes && Copied(data, cfg.maxPartBytes) == data
  }

  ghost predicate PubCall(sh: Shared, call: Call) {
    match call
    case PutMark(s, p, _) => (s, p) in sh.db.parts ==> StorageKey(s, p) in sh.blobs
    case SweepBlobs(todo, _, _) => forall k :: k in todo ==> KeyOwner(k) !in sh.db.parts
    case _ => true
  }

  ghost predicate Pub(cfg: Config, s: State) {
    && Published(s.sh)
    && (forall k :: k in s.sh.blobs ==> Fits(cfg, s.sh.blobs[k]))
    && (forall c :: c in s.calls ==> PubCall(s.sh, s.calls[c]))
  }

  /** The listing sees no blob of a live part that its snapshot of live keys lacks. */
  ghost predicate SnapshotCurrent(sh: Shared, live: set<string>) {
    forall k :: k in sh.blobs && k in LiveKeys(sh.db) ==> k in live
  }

  ghost predicate Guarded(s: State, a: Action)
    requires Enabled(s, a)
  {
    a.Advance? && s.calls[a.c].SweepList? ==> SnapshotCurrent(s.sh, s.calls[a.c].live)
  }

  // ----------------------------------------------------------------- preservation

  /** Blobs of parts that have a row are not unlinked. */
  ghost predicate BlobsRely(sh: Shared, sh': Shared) {
    forall k :: k in sh.blobs && k !in sh'.blobs ==> KeyOwner(k) !in sh'.db.parts
  }

  /** A part row that appears is not marked, and its key is not one of `keys`. */
  ghost predicate PartsAppear(sh: Shared, sh': Shared) {
    forall k :: k in sh'.db.parts && k !in sh.db.parts ==> k.0 !in sh.hist.created && sh'.db.parts[k].uploadedAt.None?
  }

  lemma PubStable(cfg: Config, sh: Shared, sh': Shared, call: Call, c: CallId)
    requires InvShared(cfg, sh) && InvCall(cfg, sh, c, call) && PubCall(sh, call)
    requires BlobsRely(sh, sh') && PartsAppear(sh, sh')
    ensures PubCall(sh', call)
  {
    match call
    case PutMark(s, p, _) => KeyOwnerOfStorageKey(s, p);
    case _ =>
  }

  lemma PublishedKept(cfg: Config, sh: Shared, sh': Shared)
    requires InvShared(cfg, sh) && Published(sh) && BlobsRely(sh, sh') && PartsAppear(sh, sh')
    requires forall k :: k in sh'.db.parts && k in sh.db.parts && sh'.db.parts[k].uploadedAt.Some? ==>
        sh.db.parts[k].uploadedAt.Some?
    ensures Published(sh')
  {
    forall k | k in sh'.db.parts && sh'.db.parts[k].uploadedAt.Some? ensures StorageKey(k.0, k.1) in sh'.blobs {
      KeyOwnerOfStorageKey(k.0, k.1);
    }
  }

  /** What one step must establish for publication. */
  ghost predicate PubGood(cfg: Config, sh: Shared, n: Next) {
    && Published(n.sh) && (forall k :: k in n.sh.blobs ==> Fits(cfg, n.sh.blobs[k]))
    && PubCall(n.sh, n.call) && BlobsRely(sh, n.sh) && PartsAppear(sh, n.sh)
  }

  ghost predicate PubReady(cfg: Config, sh: Shared, c: CallId, call: Call) {
    && InvShared(cfg, sh) && InvCall(cfg, sh, c, call) && PubCall(sh, call)
    && Published(sh) && (forall k :: k in sh.blobs ==> Fits(cfg, sh.blobs[k]))
    && (call.SweepList? ==> SnapshotCurrent(sh, call.live))
  }

  lemma PubExec(cfg: Config, sh: Shared, c: CallId, call: Call, pick: string)
    requires Ready(call, pick) && PubReady(cfg, sh, c, call)
    ensures PubGood(cfg, sh, Exec(cfg, sh, c, call, pick))
  {
    hide InvShared;
    if call.CreateTx? { PubCreate(cfg, sh, c, call); }
    else if call.PutPublish? { PubPublish(cfg, sh, c, call); }
    else if call.PutMark? { PubMark(cfg, sh, c, call); }
    else if call.ReapBlobs? { PubUnlink(cfg, sh, c, call, pick); }
    else if call.SweepList? { PubList(cfg, sh, c, call, pick); }
    else if call.SweepBlobs? { PubSweep(cfg, sh, c, call, pick); }
    else { PubOther(cfg, sh, c, call, pick); }
  }

  lemma PubCreate(cfg: Config, sh: Shared, c: CallId, call: Call)
    requires call.CreateTx? && PubReady(cfg, sh, c, call)
    ensures PubGood(cfg, sh, ExecCreate(sh, call))
  {
    var n := ExecCreate(sh, call);
    if call.id !in sh.db.sends && DistinctIds(call.input.parts) {
      CreateRows(cfg, sh, c, call);
      PublishedKept(cfg, sh, n.sh);
    } else {
      CreateFails(cfg, sh, call);
    }
  }

  lemma CopiedAgain(body: Bytes, limit: int)
    ensures Copied(Copied(body, limit), limit) == Copied(body, limit)
  {
  }

  lemma PubPublish(cfg: Config, sh: Shared, c: CallId, call: Call)
    requires call.PutPublish? && PubReady(cfg, sh, c, call)
    ensures PubGood(cfg, sh, ExecPut(cfg, sh, call))
  {
    CopiedAgain(call.body, cfg.maxPartBytes);
  }

  lemma PubMark(cfg: Config, sh: Shared, c: CallId, call: Call)
    requires call.PutMark? && PubReady(cfg, sh, c, call)
    ensures PubGood(cfg, sh, ExecPut(cfg, sh, call))
  {
    hide InvShared;
  }

  /** Unlinking a blob whose part has no row. */
  lemma UnlinkDead(cfg: Config, sh: Shared, blobs': map<string, Bytes>)
    requires InvShared(cfg, sh) && Published(sh)
    requires forall k :: k in blobs' ==> k in sh.blobs
    requires forall k :: k in sh.blobs && k !in blobs' ==> KeyOwner(k) !in sh.db.parts
    ensures var sh' := sh.(blobs := blobs'); Published(sh') && BlobsRely(sh, sh') && PartsAppear(sh, sh')
  {
    PublishedKept(cfg, sh, sh.(blobs := blobs'));
  }

  lemma PartsHaveSends(cfg: Config, sh: Shared)
    requires InvShared(cfg, sh)
    ensures forall k :: k in sh.db.parts ==> k.0 in sh.db.sends
  {
  }

  lemma PubUnlink(cfg: Config, sh: Shared, c: CallId, call: Call, pick: string)
    requires call.ReapBlobs? && Ready(call, pick) && PubReady(cfg, sh, c, call)
    ensures PubGood(cfg, sh, ExecReap(cfg, sh, call, pick))
  {
    hide InvShared;
    var n := ExecReap(cfg, sh, call, pick);
    PartsHaveSends(cfg, sh);
    assert n.sh == sh.(blobs := n.sh.blobs);
    assert forall k :: k in sh.blobs && k !in n.sh.blobs ==> k == pick && pick in call.keys;
    UnlinkDead(cfg, sh, n.sh.blobs);
  }

  /** A published key is live exactly when the part that owns it has a row. */
  lemma LiveIffRow(cfg: Config, sh: Shared, key: string)
    requires InvShared(cfg, sh) && key in sh.blobs
    ensures key in LiveKeys(sh.db) <==> KeyOwner(key) in sh.db.parts
  {
    assert BlobMatches(cfg, sh.hist.created, key, sh.blobs[key]);
    if KeyOwner(key) in sh.db.parts {
      assert PartOk(sh.db.parts, KeyOwner(key), sh.hist.created);
    }
    if key in LiveKeys(sh.db) {
      var k :| k in sh.db.parts && sh.db.parts[k].storageKey == key;
      assert PartOk(sh.db.parts, k, sh.hist.created);
      KeyOwnerOfStorageKey(k.0, k.1);
    }
  }

  lemma PubList(cfg: Config, sh: Shared, c: CallId, call: Call, pick: string)
    requires call.SweepList? && PubReady(cfg, sh, c, call)
    ensures PubGood(cfg, sh, ExecSweep(sh, call, pick))
  {
    forall k | k in sh.blobs.Keys - call.live ensures KeyOwner(k) !in sh.db.parts {
      LiveIffRow(cfg, sh, k);
    }
  }

  lemma PubSweep(cfg: Config, sh: Shared, c: CallId, call: Call, pick: string)
    requires call.SweepBlobs? && Ready(call, pick) && PubReady(cfg, sh, c, call)
    ensures PubGood(cfg, sh, ExecSweep(sh, call, pick))
  {
    hide InvShared;
    var n := ExecSweep(sh, call, pick);
    assert n.sh == sh.(blobs := n.sh.blobs);
    assert forall k :: k in sh.blobs && k !in n.sh.blobs ==> k == pick && pick in call.todo;
    UnlinkDead(cfg, sh, n.sh.blobs);
  }

  /** The other steps leave blobs alone and add and mark no part. */
  lemma PubOther(cfg: Config, sh: Shared, c: CallId, call: Call, pick: string)
    requires Ready(call, pick) && PubReady(cfg, sh, c, call)
    requires !call.CreateTx? && !call.PutPublish? && !call.PutMark? && !call.ReapBlobs? && !call.SweepList?
        && !call.SweepBlobs?
    ensures PubGood(cfg, sh, Exec(cfg, sh, c, call, pick))
  {
    var n := Exec(cfg, sh, c, call, pick);
    OtherEffect(cfg, sh, c, call, pick);
    assert BlobsRely(sh, n.sh) && PartsAppear(sh, n.sh);
    PublishedKept(cfg, sh, n.sh);
  }

  lemma OtherEffect(cfg: Config, sh: Shared, c: CallId, call: Call, pick: string)
    requires Ready(call, pick)
    requires !call.CreateTx? && !call.PutPublish? && !call.PutMark? && !call.ReapBlobs? && !call.SweepList?
        && !call.SweepBlobs?
    ensures var n := Exec(cfg, sh, c, call, pick);
            && n.sh.blobs == sh.blobs && !n.call.PutMark? && !n.call.SweepBlobs?
            && forall k :: k in n.sh.db.parts ==> k in sh.db.parts && n.sh.db.parts[k] == sh.db.parts[k]
  {
  }

  /** Publish-before-record is kept by every step, provided that a listing step is
      taken with a current snapshot. */
  lemma PubStep(cfg: Config, s: State, a: Action)
    requires Inv(cfg, s) && Pub(cfg, s) && Enabled(s, a) && Guarded(s, a)
    ensures Pub(cfg, Apply(cfg, s, a))
  {
    hide InvShared;
    var s' := Apply(cfg, s, a);
    if a.Advance? {
      PubExec(cfg, s.sh, a.c, s.calls[a.c], a.pick);
      forall d | d in s'.calls ensures PubCall(s'.sh, s'.calls[d]) {
        if d != a.c { PubStable(cfg, s.sh, s'.sh, s.calls[d], d); }
      }
    } else {
      assert s'.sh.db == s.sh.db && s'.sh.blobs == s.sh.blobs;
      forall d | d in s'.calls ensures PubCall(s'.sh, s'.calls[d]) {
        if d in s.calls { assert PubCall(s.sh, s.calls[d]); }
      }
    }
  }

  /** Publish-before-record, over whole runs with crashes anywhere: if every listing of
      the run has a current snapshot, then in every state each part marked uploaded has a
      published blob of exactly the declared size and hash. */
  lemma {:induction false} RunPublished(cfg: Config, ss: seq<State>, acts: seq<Action>, i: nat)
    requires IsRun(cfg, ss, acts) && i < |ss|
    requires forall j :: 0 <= j < i ==> Guarded(ss[j], acts[j])
    ensures Pub(cfg, ss[i])
    ensures forall k :: k in ss[i].sh.db.parts && ss[i].sh.db.parts[k].uploadedAt.Some? ==>
              && StorageKey(k.0, k.1) in ss[i].sh.blobs
              && |ss[i].sh.blobs[StorageKey(k.0, k.1)]| == ss[i].sh.db.parts[k].encryptedSize
              && cfg.sha(ss[i].sh.blobs[StorageKey(k.0, k.1)]) == ss[i].sh.db.parts[k].sha256
  {
    if i > 0 {
      RunPublished(cfg, ss, acts, i - 1);
      RunOk(cfg, ss, acts, i - 1);
      PubStep(cfg, ss[i - 1], acts[i - 1]);
    }
    RunOk(cfg, ss, acts, i);
    PublishedMatches(cfg, ss[i].sh);
  }

  lemma PublishedMatches(cfg: Config, sh: Shared)
    requires InvShared(cfg, sh) && Published(sh)
    ensures forall k :: k in sh.db.parts && sh.db.parts[k].uploadedAt.Some? ==>
              && StorageKey(k.0, k.1) in sh.blobs
              && |sh.blobs[StorageKey(k.0, k.1)]| == sh.db.parts[k].encryptedSize
              && cfg.sha(sh.blobs[StorageKey(k.0, k.1)]) == sh.db.parts[k].sha256
  {
    forall k | k in sh.db.parts && sh.db.parts[k].uploadedAt.Some?
      ensures && StorageKey(k.0, k.1) in sh.blobs
              && |sh.blobs[StorageKey(k.0, k.1)]| == sh.db.parts[k].encryptedSize
              && cfg.sha(sh.blobs[StorageKey(k.0, k.1)]) == sh.db.parts[k].sha256
    {
      assert PartOk(sh.db.parts, k, sh.hist.created);
      KeyOwnerOfStorageKey(k.0, k.1);
      assert BlobMatches(cfg, sh.hist.created, StorageKey(k.0, k.1), sh.blobs[StorageKey(k.0, k.1)]);
    }
  }
}
