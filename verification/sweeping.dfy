/** The orphan sweep under interleaving: what makes a listing safe, exactly. */
module Sweeping {
  import opened Records
  import opened Sql
  import opened Protocol
  import opened Invariants
  import opened Steps
  import opened Later
  import opened Publication

  // ---------------------------------------------------- a current snapshot suffices

  ghost predicate AllGuarded(cfg: Config, s: State, acts: seq<Action>)
    requires CanRun(cfg, s, acts)
    decreases |acts|
  {
    |acts| == 0 || (Guarded(s, acts[0]) && AllGuarded(cfg, Apply(cfg, s, acts[0]), acts[1..]))
  }

  lemma {:induction false} GuardedRunKeeps(cfg: Config, s: State, acts: seq<Action>)
    requires Inv(cfg, s) && Pub(cfg, s) && CanRun(cfg, s, acts) && AllGuarded(cfg, s, acts)
    ensures Published(RunFrom(cfg, s, acts).sh)
    decreases |acts|
  {
    hide Inv, Apply, Guarded;
    if |acts| > 0 {
      StepOk(cfg, s, acts[0]);
      PubStep(cfg, s, acts[0]);
      GuardedRunKeeps(cfg, Apply(cfg, s, acts[0]), acts[1..]);
    }
  }

  // ------------------------------------------------------------- and it is necessary

  /** Whatever happens from `s` on, publish-before-record holds, as long as the listings
      taken are taken with current snapshots. */
  ghost predicate AlwaysPublished(cfg: Config, s: State) {
    forall acts :: CanRun(cfg, s, acts) && AllGuarded(cfg, s, acts) ==> Published(RunFrom(cfg, s, acts).sh)
  }

  lemma Cons(cfg: Config, s: State, a: Action, acts: seq<Action>)
    requires Enabled(s, a) && Guarded(s, a)
    requires CanRun(cfg, Apply(cfg, s, a), acts) && AllGuarded(cfg, Apply(cfg, s, a), acts)
    ensures CanRun(cfg, s, [a] + acts) && AllGuarded(cfg, s, [a] + acts)
    ensures RunFrom(cfg, s, [a] + acts) == RunFrom(cfg, Apply(cfg, s, a), acts)
  {
    hide Apply, Guarded, Enabled;
    assert ([a] + acts)[1..] == acts;
  }

  /** A whole upload of `data` by a new call, step by step. */
  lemma UploadSteps(cfg: Config, s: State, u: string, p: string, data: Bytes)
    returns (acts: seq<Action>)
    requires (u, p) in s.sh.db.parts && u in s.sh.db.sends && s.sh.db.sends[u].status.Creating?
    requires var row := s.sh.db.parts[(u, p)]; |data| == row.encryptedSize && cfg.sha(data) == row.sha256
    requires Fits(cfg, data) && s.next !in s.calls
    ensures CanRun(cfg, s, acts) && AllGuarded(cfg, s, acts)
    ensures var t := RunFrom(cfg, s, acts);
            && t.sh.db.parts == s.sh.db.parts[(u, p) := s.sh.db.parts[(u, p)].(uploadedAt := Some(Unix(s.sh.clock)))]
            && t.sh.db == s.sh.db.(parts := t.sh.db.parts) && t.sh.clock == s.sh.clock && t.sh.hist == s.sh.hist
            && t.sh.blobs == s.sh.blobs[StorageKey(u, p) := data]
            && t.next == s.next + 1 && t.calls.Keys == s.calls.Keys + {s.next}
            && (forall c :: c in s.calls ==> t.calls[c] == s.calls[c])
  {
    var d := s.next;
    var go := Advance(d, "");
    var begin := Begin(ReqPut(u, p, data, ""));
    var s1 := Apply(cfg, s, begin);
    assert s1.calls[d] == PutStatus(u, p, data, "");
    var s2 := Apply(cfg, s1, go);
    assert s2.calls[d] == PutDeclared(u, p, data, "");
    var s3 := Apply(cfg, s2, go);
    var row := s.sh.db.parts[(u, p)];
    assert s3.calls[d] == PutPublish(u, p, data, PartMeta(p, row.encryptedSize, row.sha256));
    var s4 := Apply(cfg, s3, go);
    assert s4.calls[d] == PutMark(u, p, |data|);
    assert s4.sh.blobs == s.sh.blobs[StorageKey(u, p) := data];
    var s5 := Apply(cfg, s4, go);
    Cons(cfg, s4, go, []);
    Cons(cfg, s3, go, [go]);
    Cons(cfg, s2, go, [go] + [go]);
    Cons(cfg, s1, go, [go] + ([go] + [go]));
    Cons(cfg, s, begin, [go] + ([go] + ([go] + [go])));
    acts := [begin] + ([go] + ([go] + ([go] + [go])));
  }

  lemma {:induction false} Append(cfg: Config, s: State, xs: seq<Action>, a: Action)
    requires CanRun(cfg, s, xs) && AllGuarded(cfg, s, xs)
    requires Enabled(RunFrom(cfg, s, xs), a) && Guarded(RunFrom(cfg, s, xs), a)
    ensures CanRun(cfg, s, xs + [a]) && AllGuarded(cfg, s, xs + [a])
    ensures RunFrom(cfg, s, xs + [a]) == Apply(cfg, RunFrom(cfg, s, xs), a)
    decreases |xs|
  {
    hide Apply, Guarded, Enabled;
    if |xs| == 0 {
      Cons(cfg, s, a, []);
      assert xs + [a] == [a] + [];
    } else {
      Append(cfg, Apply(cfg, s, xs[0]), xs[1..], a);
      assert (xs + [a])[1..] == xs[1..] + [a];
    }
  }

  /** A sweep about to unlink the blob of a live part can be continued to a state where
      that part is marked uploaded and its blob is gone. */
  lemma DeletionBreaks(cfg: Config, s: State, c: CallId, key: string)
    requires c in s.calls && s.calls[c].SweepBlobs? && key in s.calls[c].todo && s.next !in s.calls
    requires key in s.sh.blobs && LiveOwner(cfg, s.sh, key) && Fits(cfg, s.sh.blobs[key])
    ensures !AlwaysPublished(cfg, s)
  {
    var (u, p) := KeyOwner(key);
    var mid := [];
    if s.sh.db.parts[(u, p)].uploadedAt.None? {
      mid := UploadSteps(cfg, s, u, p, s.sh.blobs[key]);
      assert s.sh.blobs[key := s.sh.blobs[key]] == s.sh.blobs;
    }
    var t, last := RunFrom(cfg, s, mid), Advance(c, key);
    UnlinkStep(cfg, t, c, key, (u, p));
    Append(cfg, s, mid, last);
    assert !Published(RunFrom(cfg, s, mid + [last]).sh);
  }

  lemma UnlinkStep(cfg: Config, t: State, c: CallId, key: string, k: PartKey)
    requires c in t.calls && t.calls[c].SweepBlobs? && key in t.calls[c].todo
    requires key == StorageKey(k.0, k.1) && k in t.sh.db.parts && t.sh.db.parts[k].uploadedAt.Some?
    ensures Enabled(t, Advance(c, key)) && Guarded(t, Advance(c, key))
    ensures !Published(Apply(cfg, t, Advance(c, key)).sh)
  {
  }

  /** The blob under `key` belongs to a part that has a row and could be uploaded again
      if it is not marked yet. */
  ghost predicate LiveOwner(cfg: Config, sh: Shared, key: string)
    requires key in sh.blobs
  {
    var (u, p) := KeyOwner(key);
    && key == StorageKey(u, p) && (u, p) in sh.db.parts && u in sh.db.sends
    && |sh.blobs[key]| == sh.db.parts[(u, p)].encryptedSize
    && cfg.sha(sh.blobs[key]) == sh.db.parts[(u, p)].sha256
    && (sh.db.parts[(u, p)].uploadedAt.None? ==> sh.db.sends[u].status.Creating?)
  }

  lemma LiveHasOwner(cfg: Config, sh: Shared, key: string)
    requires InvShared(cfg, sh) && key in sh.blobs && key in LiveKeys(sh.db)
    ensures LiveOwner(cfg, sh, key)
  {
    LiveIffRow(cfg, sh, key);
    assert BlobMatches(cfg, sh.hist.created, key, sh.blobs[key]);
    assert PartOk(sh.db.parts, KeyOwner(key), sh.hist.created);
  }

  lemma ListStep(cfg: Config, s: State, c: CallId, key: string)
    requires InvCalls(cfg, s) && c in s.calls && s.calls[c].SweepList?
    requires key in s.sh.blobs && key !in s.calls[c].live
    ensures var s' := Apply(cfg, s, Advance(c, ""));
            && s'.sh == s.sh && c in s'.calls && s'.calls[c].SweepBlobs? && key in s'.calls[c].todo
            && s'.next !in s'.calls
  {
    hide InvCall;
  }

  /** The exact condition: a listing step can do no harm if and only if no live key that
      it sees is missing from the snapshot read before it. */
  lemma ListingSafeIff(cfg: Config, s: State, c: CallId)
    requires Inv(cfg, s) && Pub(cfg, s) && c in s.calls && s.calls[c].SweepList?
    ensures AlwaysPublished(cfg, Apply(cfg, s, Advance(c, ""))) <==> SnapshotCurrent(s.sh, s.calls[c].live)
  {
    hide InvShared, InvNext, PubCall, Apply, LiveOwner;
    var a := Advance(c, "");
    var s' := Apply(cfg, s, a);
    if SnapshotCurrent(s.sh, s.calls[c].live) {
      StepOk(cfg, s, a);
      PubStep(cfg, s, a);
      forall acts | CanRun(cfg, s', acts) && AllGuarded(cfg, s', acts)
        ensures Published(RunFrom(cfg, s', acts).sh)
      {
        GuardedRunKeeps(cfg, s', acts);
      }
    } else {
      var key :| key in s.sh.blobs && key in LiveKeys(s.sh.db) && key !in s.calls[c].live;
      LiveHasOwner(cfg, s.sh, key);
      ListStep(cfg, s, c, key);
      DeletionBreaks(cfg, s', c, key);
    }
  }

  // ------------------------------------------------------------ when it is the case

  ghost predicate SweepProgress(s: State, c: CallId, live: set<string>) {
    c in s.calls ==> s.calls[c] == SweepList(live) || s.calls[c].SweepBlobs? || s.calls[c].Done?
  }

  lemma SweepProgresses(cfg: Config, s: State, a: Action, c: CallId, live: set<string>)
    requires Enabled(s, a) && SweepProgress(s, c, live) && c < s.next
    ensures SweepProgress(Apply(cfg, s, a), c, live) && c < Apply(cfg, s, a).next
  {
    if a.Advance? && a.c == c {
      var call := s.calls[c];
      assert Exec(cfg, s.sh, c, call, a.pick) == ExecSweep(s.sh, call, a.pick);
    }
  }

  lemma {:induction false} SnapshotOf(cfg: Config, ss: seq<State>, acts: seq<Action>, c: CallId, j: nat, i: nat)
    requires IsRun(cfg, ss, acts) && j < i < |ss|
    requires acts[j].Advance? && acts[j].c == c && ss[j].calls[c].SweepLive?
    ensures SweepProgress(ss[i], c, LiveKeys(ss[j].sh.db)) && c < ss[i].next
    decreases i - j
  {
    if i == j + 1 {
      RunOk(cfg, ss, acts, j);
      FirstRead(cfg, ss[j], acts[j]);
    } else {
      hide Apply, SweepProgress;
      SnapshotOf(cfg, ss, acts, c, j, i - 1);
      SweepProgresses(cfg, ss[i - 1], acts[i - 1], c, LiveKeys(ss[j].sh.db));
    }
  }

  lemma FirstRead(cfg: Config, s: State, a: Action)
    requires InvCalls(cfg, s) && Enabled(s, a) && a.Advance? && s.calls[a.c].SweepLive?
    ensures SweepProgress(Apply(cfg, s, a), a.c, LiveKeys(s.sh.db)) && a.c < Apply(cfg, s, a).next
  {
    hide InvCall;
  }

  /** If no send is created between a sweep's two reads, its snapshot is current. */
  lemma NoCreationMeansCurrent(cfg: Config, ss: seq<State>, acts: seq<Action>, c: CallId, j: nat, i: nat)
    requires IsRun(cfg, ss, acts) && j < i < |ss|
    requires acts[j].Advance? && acts[j].c == c && ss[j].calls[c].SweepLive?
    requires c in ss[i].calls && ss[i].calls[c].SweepList?
    requires ss[i].sh.hist.created == ss[j].sh.hist.created
    ensures SnapshotCurrent(ss[i].sh, ss[i].calls[c].live)
  {
    hide Apply, InvShared, InvCalls;
    SnapshotOf(cfg, ss, acts, c, j, i);
    RunLater(cfg, ss, acts, j, i);
    RunOk(cfg, ss, acts, i);
    LiveBefore(cfg, ss[j].sh, ss[i].sh);
  }

  lemma LiveBefore(cfg: Config, sh: Shared, sh': Shared)
    requires InvShared(cfg, sh') && IsLater(sh, sh') && sh'.hist.created == sh.hist.created
    ensures LiveKeys(sh'.db) <= LiveKeys(sh.db)
  {
    hide IdsOk, SendsOk, CompleteOk, WinnerOk, EventsOk, GrantsOk, BlobsOk, DeliveredOk;
    forall key | key in LiveKeys(sh'.db) ensures key in LiveKeys(sh.db) {
      var k :| k in sh'.db.parts && sh'.db.parts[k].storageKey == key;
      assert PartOk(sh'.db.parts, k, sh'.hist.created);
      assert k in sh.db.parts && sh.db.parts[k].storageKey == key;
    }
  }

  // ------------------------------------------------------------- what is unlinked

  /** A key of a created send that has no row never has one again. */
  lemma DeadKeyStaysDead(cfg: Config, ss: seq<State>, acts: seq<Action>, i: nat, j: nat, key: string)
    requires IsRun(cfg, ss, acts) && i <= j < |ss|
    requires KnownKey(ss[i].sh.hist.created, key) && key !in LiveKeys(ss[i].sh.db)
    ensures key !in LiveKeys(ss[j].sh.db)
  {
    RunLater(cfg, ss, acts, i, j);
    RunOk(cfg, ss, acts, j);
    DeadPart(cfg, ss[i].sh, ss[j].sh, key);
  }

  lemma DeadPart(cfg: Config, sh: Shared, sh': Shared, key: string)
    requires InvShared(cfg, sh') && IsLater(sh, sh') && KnownKey(sh.hist.created, key)
    ensures key in LiveKeys(sh'.db) ==> key in LiveKeys(sh.db)
  {
    hide SendsOk, CompleteOk, WinnerOk, EventsOk, GrantsOk, BlobsOk, DeliveredOk;
    if key in LiveKeys(sh'.db) {
      var k :| k in sh'.db.parts && sh'.db.parts[k].storageKey == key;
      assert PartOk(sh'.db.parts, k, sh'.hist.created);
      KeyOwnerOfStorageKey(k.0, k.1);
      assert k in sh.db.parts && sh.db.parts[k].storageKey == key;
    }
  }

  /** What a sweep unlinks: never a key of its live snapshot; and if the snapshot was
      current at the listing, only keys that have no part row then or ever after. */
  lemma SweptKeysAreOrphans(cfg: Config, ss: seq<State>, acts: seq<Action>, c: CallId, i: nat, j: nat, key: string)
    requires IsRun(cfg, ss, acts) && i < j < |ss|
    requires acts[i].Advance? && acts[i].c == c && ss[i].calls[c].SweepList?
    requires key in ss[i + 1].calls[c].todo
    ensures key !in ss[i].calls[c].live
    ensures SnapshotCurrent(ss[i].sh, ss[i].calls[c].live) ==>
        key !in LiveKeys(ss[i].sh.db) && key !in LiveKeys(ss[j].sh.db)
  {
    RunOk(cfg, ss, acts, i);
    assert BlobMatches(cfg, ss[i].sh.hist.created, key, ss[i].sh.blobs[key]);
    if SnapshotCurrent(ss[i].sh, ss[i].calls[c].live) {
      DeadKeyStaysDead(cfg, ss, acts, i, j, key);
    }
  }

  predicate SweepsOn(s: State, c: CallId, live: set<string>, todo: set<string>) {
    c in s.calls ==>
      (s.calls[c].SweepBlobs? && s.calls[c].live == live && s.calls[c].todo <= todo) || s.calls[c].Done?
  }

  lemma SweepGoesOn(cfg: Config, s: State, a: Action, c: CallId, live: set<string>, todo: set<string>)
    requires Enabled(s, a) && SweepsOn(s, c, live, todo) && c < s.next
    ensures SweepsOn(Apply(cfg, s, a), c, live, todo) && c < Apply(cfg, s, a).next
  {
    if a.Advance? && a.c == c {
      var call := s.calls[c];
      assert Exec(cfg, s.sh, c, call, a.pick) == ExecSweep(s.sh, call, a.pick);
    }
  }

  /** A sweep works off the list it made: what it has left was on it. */
  lemma {:induction false} LeftOfList(cfg: Config, ss: seq<State>, acts: seq<Action>, i: nat, k: nat)
    requires IsRun(cfg, ss, acts) && i < k < |ss|
    requires acts[i].Advance? && ss[i].calls[acts[i].c].SweepList?
    ensures var c := acts[i].c;
            && c in ss[i + 1].calls && ss[i + 1].calls[c].SweepBlobs?
            && SweepsOn(ss[k], c, ss[i].calls[c].live, ss[i + 1].calls[c].todo)
            && c < ss[k].next
    decreases k - i
  {
    var c := acts[i].c;
    ListStart(cfg, ss, acts, i);
    if k > i + 1 {
      hide Apply, SweepsOn;
      LeftOfList(cfg, ss, acts, i, k - 1);
      SweepGoesOn(cfg, ss[k - 1], acts[k - 1], c, ss[i].calls[c].live, ss[i + 1].calls[c].todo);
    }
  }

  lemma ListStart(cfg: Config, ss: seq<State>, acts: seq<Action>, i: nat)
    requires IsRun(cfg, ss, acts) && i < |acts|
    requires acts[i].Advance? && ss[i].calls[acts[i].c].SweepList?
    ensures var c := acts[i].c;
            && c in ss[i + 1].calls && ss[i + 1].calls[c].SweepBlobs?
            && SweepsOn(ss[i + 1], c, ss[i].calls[c].live, ss[i + 1].calls[c].todo)
            && c < ss[i + 1].next
  {
    RunOk(cfg, ss, acts, i);
    hide InvShared, InvCall;
    assert Exec(cfg, ss[i].sh, acts[i].c, ss[i].calls[acts[i].c], acts[i].pick)
        == ExecSweep(ss[i].sh, ss[i].calls[acts[i].c], acts[i].pick);
  }

  /** The unlink itself, however long after the listing and whatever happened in between:
      it removes one blob, whose key is not in the snapshot, and which, if the snapshot was
      current at the listing, has no part row at that moment or at any other from the
      listing on. */
  lemma UnlinksOrphansOnly(cfg: Config, ss: seq<State>, acts: seq<Action>, i: nat, k: nat, j: nat)
    requires IsRun(cfg, ss, acts) && i < k < |acts| && i < j < |ss|
    requires acts[i].Advance? && ss[i].calls[acts[i].c].SweepList?
    requires acts[k].Advance? && acts[k].c == acts[i].c && ss[k].calls[acts[k].c].SweepBlobs?
    requires ss[k].calls[acts[k].c].todo != {}
    ensures ss[k + 1].sh == ss[k].sh.(blobs := ss[k].sh.blobs - {acts[k].pick})
    ensures acts[k].pick !in ss[i].calls[acts[i].c].live
    ensures SnapshotCurrent(ss[i].sh, ss[i].calls[acts[i].c].live) ==> acts[k].pick !in LiveKeys(ss[j].sh.db)
  {
    UnlinkEffect(cfg, ss[k], acts[k]);
    hide Apply, SnapshotCurrent, LiveKeys;
    LeftOfList(cfg, ss, acts, i, k);
    SweptKeysAreOrphans(cfg, ss, acts, acts[i].c, i, j, acts[k].pick);
  }

  lemma UnlinkEffect(cfg: Config, s: State, a: Action)
    requires Enabled(s, a) && a.Advance? && s.calls[a.c].SweepBlobs? && s.calls[a.c].todo != {}
    ensures a.pick in s.calls[a.c].todo && Apply(cfg, s, a).sh == s.sh.(blobs := s.sh.blobs - {a.pick})
  {
  }

  /** Reading in the other order, blobs first and live keys second, needs no condition:
      a key seen in the earlier listing and absent from the later live keys is dead for
      good, whatever was created in between. */
  lemma ListFirstNeedsNoCondition(cfg: Config, ss: seq<State>, acts: seq<Action>, i: nat, j: nat, l: nat, key: string)
    requires IsRun(cfg, ss, acts) && i <= j <= l < |ss|
    requires key in ss[i].sh.blobs && key !in LiveKeys(ss[j].sh.db)
    ensures key !in LiveKeys(ss[l].sh.db)
  {
    RunOk(cfg, ss, acts, i);
    RunLater(cfg, ss, acts, i, j);
    assert BlobMatches(cfg, ss[i].sh.hist.created, key, ss[i].sh.blobs[key]);
    DeadKeyStaysDead(cfg, ss, acts, j, l, key);
  }
}
