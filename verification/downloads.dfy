/** What a successful download proves about the whole run before it, and when a
    download is bound to succeed. */
module Downloads {
  import opened Records
  import opened Sql
  import opened Protocol
  import opened Invariants
  import opened Steps
  import opened Later
  import opened Publication

  /** Step `j` committed the creation of `id` with the declaration `m` for part `p`. */
  ghost predicate CreatedAt(cfg: Config, s: State, a: Action, id: string, p: string, m: PartMeta) {
    && a.Advance? && a.c in s.calls && s.calls[a.c].CreateTx? && s.calls[a.c].id == id
    && ExecCreate(s.sh, s.calls[a.c]).call.reply.Created?
    && m.partId == p && m in s.calls[a.c].input.parts
  }

  /** `id` is finalized and every part row it has is marked uploaded, with one row for
      each declared part. */
  ghost predicate CompleteAt(s: State, id: string) {
    && id in s.sh.db.sends && s.sh.db.sends[id].status.Finalized? && id in s.sh.hist.created
    && forall p :: p in Declared(s.sh.hist.created, id) ==>
         (id, p) in s.sh.db.parts && s.sh.db.parts[(id, p)].uploadedAt.Some?
  }

  /** The step is the grant insertion of a RedeemSend of `id`, for a token with the
      presented token's hash. */
  ghost predicate IssuedAt(cfg: Config, s: State, a: Action, id: string, token: string) {
    && a.Advance? && a.c in s.calls && s.calls[a.c].RedInsert? && s.calls[a.c].sendId == id
    && cfg.tokenSha(s.calls[a.c].token) == cfg.tokenSha(token)
    && InsertGrant(s.sh.db, cfg.tokenSha(token), NewGrantRow(id, s.calls[a.c].now, cfg.grantTtl)).Some?
  }

  // ------------------------------------------- where each piece of history came from

  predicate Creates(s: State, a: Action, id: string, d: Declaration) {
    && a.Advance? && a.c in s.calls && s.calls[a.c].CreateTx? && s.calls[a.c].id == id
    && ExecCreate(s.sh, s.calls[a.c]).call.reply.Created?
    && d == Declaration(s.calls[a.c].input, s.calls[a.c].now)
  }

  lemma HistoryStep(cfg: Config, s: State, a: Action)
    requires Enabled(s, a)
    ensures var h, h' := s.sh.hist, Apply(cfg, s, a).sh.hist;
            && (forall id :: id in h'.created && id !in h.created ==> Creates(s, a, id, h'.created[id]))
            && (forall id :: id in h'.complete && id !in h.complete ==>
                  a.Advance? && s.calls[a.c].FinUpdate? && s.calls[a.c].sendId == id)
            && (forall e :: e in h'.granted && e !in h.granted ==> IssuedAt(cfg, s, a, e.sendId, e.token))
  {
  }

  lemma {:induction false} ByIdFrom(parts: seq<PartMeta>, p: string)
    requires p in ById(parts)
    ensures ById(parts)[p] in parts && ById(parts)[p].partId == p
  {
    if parts[|parts| - 1].partId != p {
      ByIdFrom(parts[..|parts| - 1], p);
    }
  }

  lemma {:induction false} CreatedBefore(cfg: Config, ss: seq<State>, acts: seq<Action>, i: nat, id: string, p: string)
    returns (j: nat)
    requires IsRun(cfg, ss, acts) && i < |ss| && id in ss[i].sh.hist.created && p in Declared(ss[i].sh.hist.created, id)
    ensures j < i && CreatedAt(cfg, ss[j], acts[j], id, p, Declared(ss[i].sh.hist.created, id)[p])
  {
    hide Apply, ExecCreate;
    assert ss[0].sh.hist.created == map[];
    var h, h' := ss[i - 1].sh.hist, ss[i].sh.hist;
    if id in h.created {
      RunLater(cfg, ss, acts, i - 1, i);
      j := CreatedBefore(cfg, ss, acts, i - 1, id, p);
    } else {
      HistoryStep(cfg, ss[i - 1], acts[i - 1]);
      ByIdFrom(h'.created[id].input.parts, p);
      j := i - 1;
    }
  }

  lemma {:induction false} CompleteBefore(cfg: Config, ss: seq<State>, acts: seq<Action>, i: nat, id: string)
    returns (j: nat)
    requires IsRun(cfg, ss, acts) && i < |ss| && id in ss[i].sh.hist.complete
    ensures j <= i && CompleteAt(ss[j], id)
  {
    hide Apply, InvShared, InvCalls, CompleteAt;
    assert ss[0].sh.hist.complete == map[];
    if id in ss[i - 1].sh.hist.complete {
      j := CompleteBefore(cfg, ss, acts, i - 1, id);
    } else {
      RunOk(cfg, ss, acts, i - 1);
      RunOk(cfg, ss, acts, i);
      HistoryStep(cfg, ss[i - 1], acts[i - 1]);
      JustFinalized(cfg, ss[i - 1], acts[i - 1], id);
      j := i;
    }
  }

  lemma JustFinalized(cfg: Config, s: State, a: Action, id: string)
    requires Enabled(s, a) && Inv(cfg, Apply(cfg, s, a)) && a.Advance? && s.calls[a.c].FinUpdate?
        && s.calls[a.c].sendId == id
    requires id !in s.sh.hist.complete && id in Apply(cfg, s, a).sh.hist.complete
    ensures CompleteAt(Apply(cfg, s, a), id)
  {
    var s' := Apply(cfg, s, a);
    assert Exec(cfg, s.sh, a.c, s.calls[a.c], a.pick) == ExecFinalize(s.sh, s.calls[a.c]);
    hide InvCalls, InvNext, IdsOk, SendsOk, WinnerOk, EventsOk, GrantsOk, BlobsOk, DeliveredOk, Exec;
    assert id in s'.sh.db.sends;
  }

  lemma {:induction false} IssuedBefore(cfg: Config, ss: seq<State>, acts: seq<Action>, i: nat, e: GrantEvent)
    returns (j: nat)
    requires IsRun(cfg, ss, acts) && i < |ss| && e in ss[i].sh.hist.granted
    ensures j < i && IssuedAt(cfg, ss[j], acts[j], e.sendId, e.token)
  {
    hide Apply;
    assert ss[0].sh.hist.granted == {};
    if e in ss[i - 1].sh.hist.granted {
      j := IssuedBefore(cfg, ss, acts, i - 1, e);
    } else {
      HistoryStep(cfg, ss[i - 1], acts[i - 1]);
      j := i - 1;
    }
  }

  // ------------------------------------------------------------------ the theorems

  /** A redemption inserts its grant only once the send is complete. */
  lemma IssuedWhenComplete(cfg: Config, s: State, a: Action, id: string, token: string)
    requires Inv(cfg, s) && IssuedAt(cfg, s, a, id, token)
    ensures id in s.sh.hist.complete
  {
    hide InvShared;
    assert InvCall(cfg, s.sh, a.c, s.calls[a.c]);
  }

  /** Download safety over whole runs. When a GetPart opens the blob at step `i`, the
      bytes it returns have exactly the size and hash that the creation of the send
      declared for the part, at some earlier step; after that the send was finalized with
      every declared part uploaded; and after that a RedeemSend of this same send issued a
      token with the presented token's hash. No condition on sweeps or crashes. */
  lemma DownloadSafety(cfg: Config, ss: seq<State>, acts: seq<Action>, i: nat, id: string, p: string, token: string,
      data: Bytes)
    returns (born: nat, complete: nat, issued: nat, m: PartMeta)
    requires IsRun(cfg, ss, acts) && i < |acts|
    requires acts[i].Advance? && ss[i].calls[acts[i].c] == GetOpen(id, p, token)
    requires ss[i + 1].calls[acts[i].c] == Done(Data(data))
    ensures born < complete <= issued < i
    ensures CreatedAt(cfg, ss[born], acts[born], id, p, m)
    ensures |data| == m.encryptedSize && cfg.sha(data) == m.sha256
    ensures CompleteAt(ss[complete], id)
    ensures IssuedAt(cfg, ss[issued], acts[issued], id, token)
  {
    RunOk(cfg, ss, acts, i);
    var sh, c := ss[i].sh, acts[i].c;
    assert InvCall(cfg, sh, c, ss[i].calls[c]);
    assert Exec(cfg, sh, c, ss[i].calls[c], acts[i].pick) == ExecGet(cfg, sh, ss[i].calls[c]);
    hide Apply, Exec, InvShared, InvCalls, InvCall, IssuedAt;
    OpenedData(cfg, sh, id, p, data);
    m := Declared(sh.hist.created, id)[p];
    var e :| e in sh.hist.granted && e.sendId == id && cfg.tokenSha(e.token) == cfg.tokenSha(token);
    issued := IssuedBefore(cfg, ss, acts, i, e);
    SameToken(cfg, ss[issued], acts[issued], id, e.token, token);
    RunOk(cfg, ss, acts, issued);
    IssuedWhenComplete(cfg, ss[issued], acts[issued], id, token);
    complete := CompleteBefore(cfg, ss, acts, issued, id);
    RunLater(cfg, ss, acts, complete, i);
    born := CreatedBefore(cfg, ss, acts, complete, id, p);
  }

  lemma SameToken(cfg: Config, s: State, a: Action, id: string, token: string, other: string)
    requires IssuedAt(cfg, s, a, id, token) && cfg.tokenSha(token) == cfg.tokenSha(other)
    ensures IssuedAt(cfg, s, a, id, other)
  {
  }

  lemma OpenedData(cfg: Config, sh: Shared, id: string, p: string, data: Bytes)
    requires InvShared(cfg, sh) && id in sh.hist.created && p in Declared(sh.hist.created, id)
    requires StorageKey(id, p) in sh.blobs && sh.blobs[StorageKey(id, p)] == data
    ensures |data| == Declared(sh.hist.created, id)[p].encryptedSize
    ensures cfg.sha(data) == Declared(sh.hist.created, id)[p].sha256
  {
    assert NoSlash(id);
    KeyOwnerOfStorageKey(id, p);
    assert BlobMatches(cfg, sh.hist.created, StorageKey(id, p), data);
  }

  /** The other half: where publish-before-record holds, a finalized send that still has
      its row can be downloaded in full. Opening any declared part of it succeeds and
      returns bytes of the declared size and hash. */
  lemma FinalizedIsDownloadable(cfg: Config, s: State, id: string, p: string, token: string)
    requires Inv(cfg, s) && Pub(cfg, s)
    requires id in s.sh.db.sends && s.sh.db.sends[id].status.Finalized? && (id, p) in s.sh.db.parts
    ensures var n, row := ExecGet(cfg, s.sh, GetOpen(id, p, token)), s.sh.db.parts[(id, p)];
            && n.call.Done? && n.call.reply.Data?
            && |n.call.reply.data| == row.encryptedSize && cfg.sha(n.call.reply.data) == row.sha256
  {
    hide InvShared, InvCalls, InvNext, PubCall;
    FinalizedIsMarked(cfg, s.sh, id, p);
    PublishedMatches(cfg, s.sh);
  }

  lemma FinalizedIsMarked(cfg: Config, sh: Shared, id: string, p: string)
    requires InvShared(cfg, sh) && id in sh.db.sends && sh.db.sends[id].status.Finalized? && (id, p) in sh.db.parts
    ensures sh.db.parts[(id, p)].uploadedAt.Some?
  {
  }

  // ------------------------------------------------------- the counters of a send row

  function PartKeysOf(db: Db, id: string): set<PartKey> {
    set k | k in db.parts && k.0 == id
  }

  /** The sum of the sizes of a set of part rows. */
  ghost function SumSizes(parts: map<PartKey, PartRow>, ks: set<PartKey>): int
    requires ks <= parts.Keys
    decreases ks
  {
    if ks == {} then 0 else var k :| k in ks; parts[k].encryptedSize + SumSizes(parts, ks - {k})
  }

  lemma {:induction false} SumSizesMinus(parts: map<PartKey, PartRow>, ks: set<PartKey>, k: PartKey)
    requires ks <= parts.Keys && k in ks
    ensures SumSizes(parts, ks) == parts[k].encryptedSize + SumSizes(parts, ks - {k})
    decreases ks
  {
    var j :| j in ks && SumSizes(parts, ks) == parts[j].encryptedSize + SumSizes(parts, ks - {j});
    if j != k {
      SumSizesMinus(parts, ks - {j}, k);
      SumSizesMinus(parts, ks - {k}, j);
      assert ks - {j} - {k} == ks - {k} - {j};
    }
  }

  function KeysFor(id: string, parts: seq<PartMeta>): set<PartKey> {
    set p | p in ById(parts) :: (id, p)
  }

  lemma {:induction false} RowsOfDeclaration(rows: map<PartKey, PartRow>, id: string, parts: seq<PartMeta>)
    requires DistinctIds(parts)
    requires forall p :: p in ById(parts) ==>
        (id, p) in rows && rows[(id, p)].encryptedSize == ById(parts)[p].encryptedSize
    ensures |KeysFor(id, parts)| == |parts|
    ensures SumSizes(rows, KeysFor(id, parts)) == TotalSize(parts)
  {
    if |parts| == 0 {
      assert KeysFor(id, parts) == {};
    } else {
      var init, last := parts[..|parts| - 1], parts[|parts| - 1];
      DistinctIdsStep(parts);
      RowsOfDeclaration(rows, id, init);
      var k := (id, last.partId);
      assert KeysFor(id, parts) == KeysFor(id, init) + {k};
      SumSizesMinus(rows, KeysFor(id, parts), k);
      assert KeysFor(id, parts) - {k} == KeysFor(id, init);
    }
  }

  /** In every reachable state part_count is the number of part rows of the send and
      total_encrypted_size the sum of their sizes, as an int64. */
  lemma CountersMatchRows(cfg: Config, s: State, id: string)
    requires Inv(cfg, s) && id in s.sh.db.sends
    ensures var db := s.sh.db;
            && db.sends[id].partCount == |PartKeysOf(db, id)|
            && db.sends[id].totalEncryptedSize == Wrap64(SumSizes(db.parts, PartKeysOf(db, id)))
  {
    var db, parts := s.sh.db, s.sh.hist.created[id].input.parts;
    assert PartKeysOf(db, id) == KeysFor(id, parts) by {
      forall k | k in PartKeysOf(db, id) ensures k in KeysFor(id, parts) {
        assert PartOk(db.parts, k, s.sh.hist.created);
      }
    }
    forall p | p in ById(parts)
      ensures (id, p) in db.parts && db.parts[(id, p)].encryptedSize == ById(parts)[p].encryptedSize
    {
      assert PartOk(db.parts, (id, p), s.sh.hist.created);
    }
    RowsOfDeclaration(db.parts, id, parts);
  }
}
