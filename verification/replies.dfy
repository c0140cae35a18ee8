/** What a caller may conclude from a reply: each is explained by requests that were made
    before it, by the clock when they began, and by what they asked for. */
module Replies {
  import opened Records
  import opened Sql
  import opened BlobOutcome
  import opened Protocol
  import opened Invariants
  import opened Steps
  import opened Later
  import opened Redemption
  import opened Downloads
  import opened Origins
  import opened Acceptance

  /** Step `i` ends the call that step `b` began for `req`, with `reply`. */
  ghost predicate Ends(ss: seq<State>, acts: seq<Action>, b: nat, i: nat, req: Request, reply: Reply) {
    && b < i < |acts| < |ss| && acts[i].Advance?
    && Begins(ss, acts, b, acts[i].c, req)
    && acts[i].c in ss[i + 1].calls && ss[i + 1].calls[acts[i].c] == Done(reply)
  }

  /** The last step of a call: from where, and what for. */
  lemma LastStep(cfg: Config, ss: seq<State>, acts: seq<Action>, b: nat, i: nat, req: Request, reply: Reply)
    requires IsRun(cfg, ss, acts) && Ends(ss, acts, b, i, req, reply)
    ensures acts[i].c in ss[i].calls && Ready(ss[i].calls[acts[i].c], acts[i].pick)
    ensures var call := ss[i].calls[acts[i].c];
            && StemsFrom(call, req, ss[b].sh.clock)
            && Exec(cfg, ss[i].sh, acts[i].c, call, acts[i].pick) == Next(ss[i + 1].sh, Done(reply))
            && Inv(cfg, ss[i]) && InvCall(cfg, ss[i].sh, acts[i].c, call)
  {
    hide Exec, StemsFrom, InvCall, InvShared, InvNext;
    RunOk(cfg, ss, acts, i);
    var b', req' := Origin(cfg, ss, acts, i, acts[i].c);
    BeganOnce(cfg, ss, acts, b, b', acts[i].c, req, req');
  }

  // --------------------------------------------------------------------- redemptions

  /** A grant on record was inserted by its caller. */
  lemma {:induction false} EventIssued(cfg: Config, ss: seq<State>, acts: seq<Action>, i: nat, e: GrantEvent)
    returns (b: nat, j: nat)
    requires IsRun(cfg, ss, acts) && i < |ss| && e in ss[i].sh.hist.granted
    ensures j < i && Issues(cfg, ss, acts, b, j, e.sendId, cfg.tokenSha(e.token)) && ss[b].next == e.caller
  {
    hide Exec, StemsFrom;
    assert i > 0;
    if e in ss[i - 1].sh.hist.granted {
      b, j := EventIssued(cfg, ss, acts, i - 1, e);
    } else {
      var req;
      b, req := Origin(cfg, ss, acts, i - 1, acts[i - 1].c);
      j := i - 1;
      NewEvent(cfg, ss[j], acts[j], e, req, ss[b].sh.clock);
    }
  }

  lemma NewEvent(cfg: Config, s: State, a: Action, e: GrantEvent, req: Request, t: int)
    requires Enabled(s, a) && a.Advance? && StemsFrom(s.calls[a.c], req, t)
    requires e !in s.sh.hist.granted && e in Apply(cfg, s, a).sh.hist.granted
    ensures req.ReqRedeem? && req == ReqRedeem(e.sendId, e.token) && e.now == t && e.caller == a.c
    ensures var h := cfg.tokenSha(e.token); h !in s.sh.db.grants && h in Apply(cfg, s, a).sh.db.grants
  {
  }

  /** The part list of a reply: the declared part ids, each with its declared size. */
  ghost predicate Lists(input: CreateInput, parts: map<string, int>) {
    && (forall p :: p in parts <==> exists m :: m in input.parts && m.partId == p)
    && (forall m :: m in input.parts ==> parts[m.partId] == m.encryptedSize)
  }

  /** A grant is explained by the redemption and by the creation of its send: it is for the
      token that was asked for, runs for the grant TTL from the instant the redemption
      began, has its row in the table by then, and, unless the send is reaped before the
      list is read, lists every declared part with its declared size. */
  lemma GrantedReply(cfg: Config, ss: seq<State>, acts: seq<Action>, b: nat, i: nat, id: string, token: string,
      reply: Reply)
    returns (a: nat, j: nat, input: CreateInput)
    requires IsRun(cfg, ss, acts) && Ends(ss, acts, b, i, ReqRedeem(id, token), reply) && reply.Granted?
    ensures reply.token == token && reply.expiresAt == ss[b].sh.clock + cfg.grantTtl
    ensures b < j < i && Issues(cfg, ss, acts, b, j, id, cfg.tokenSha(token))
    ensures a < i && acts[a] == Begin(ReqCreate(id, input))
    ensures if id in ss[i].sh.db.sends then Lists(input, reply.parts) else reply.parts == map[]
  {
    hide Exec, InvShared, InvCalls, InvNext, Issues, Lists;
    LastStep(cfg, ss, acts, b, i, ReqRedeem(id, token), reply);
    var sh, c, t := ss[i].sh, acts[i].c, ss[b].sh.clock;
    LastOfRedeem(cfg, sh, c, ss[i].calls[c], acts[i].pick, ss[i + 1].sh, reply, ReqRedeem(id, token), t);
    var b';
    b', j := EventIssued(cfg, ss, acts, i, GrantEvent(c, id, token, t));
    assert acts[b'].Begin? && ss[b'].next == c && b' < |acts| by { IssuesBegins(cfg, ss, acts, b', j, id, token); }
    BeganOnce(cfg, ss, acts, b, b', c, acts[b].req, acts[b'].req);
    ListedParts(cfg, sh, GrantEvent(c, id, token, t));
    input := sh.hist.created[id].input;
    a := CreationOf(cfg, ss, acts, i, id);
    IssuesBegins(cfg, ss, acts, b', j, id, token);
  }

  lemma IssuesBegins(cfg: Config, ss: seq<State>, acts: seq<Action>, b: nat, j: nat, id: string, token: string)
    requires Issues(cfg, ss, acts, b, j, id, cfg.tokenSha(token))
    ensures b < j < |acts| < |ss| && acts[b].Begin? && acts[j].Advance? && acts[j].c == ss[b].next
  {
  }

  lemma LastOfRedeem(cfg: Config, sh: Shared, c: CallId, call: Call, pick: string, sh': Shared, reply: Reply,
      req: Request, t: int)
    requires Ready(call, pick) && Exec(cfg, sh, c, call, pick) == Next(sh', Done(reply)) && reply.Granted?
    requires req.ReqRedeem? && StemsFrom(call, req, t)
    ensures call == RedParts(req.sendId, req.token, t)
    ensures reply == Granted(req.token, t + cfg.grantTtl, PartsBrief(sh.db, req.sendId))
  {
    hide InsertGrant, PartsBrief, ConsumeUpdate;
  }

  lemma ListedParts(cfg: Config, sh: Shared, e: GrantEvent)
    requires InvShared(cfg, sh) && e in sh.hist.granted
    ensures e.sendId in sh.hist.created
    ensures if e.sendId in sh.db.sends then Lists(sh.hist.created[e.sendId].input, PartsBrief(sh.db, e.sendId))
            else PartsBrief(sh.db, e.sendId) == map[]
  {
    hide *;
    var id := e.sendId;
    EventCreated(cfg, sh, e);
    if id in sh.db.sends {
      RowsAsDeclared(cfg, sh, id);
      BriefLists(sh.db, id, sh.hist.created[id].input);
    } else {
      RowsHaveSends(cfg, sh, id);
      NothingListed(sh.db, id);
    }
  }

  lemma BriefLists(db: Db, id: string, input: CreateInput)
    requires forall p :: (id, p) in db.parts <==> exists m :: m in input.parts && m.partId == p
    requires forall m :: m in input.parts ==> db.parts[(id, m.partId)].encryptedSize == m.encryptedSize
    ensures Lists(input, PartsBrief(db, id))
  {
    BriefMeans(db, id);
    hide PartsBrief;
  }

  lemma NothingListed(db: Db, id: string)
    requires forall p :: (id, p) !in db.parts
    ensures PartsBrief(db, id) == map[]
  {
    BriefMeans(db, id);
    hide PartsBrief;
  }

  lemma EventCreated(cfg: Config, sh: Shared, e: GrantEvent)
    requires InvShared(cfg, sh) && e in sh.hist.granted
    ensures e.sendId in sh.hist.created
  {
    hide WinnerOk, GrantsOk, BlobsOk, DeliveredOk, IdsOk, SendsOk, PartsOk;
  }

  lemma RowsHaveSends(cfg: Config, sh: Shared, id: string)
    requires InvShared(cfg, sh) && id !in sh.db.sends
    ensures forall p :: (id, p) !in sh.db.parts
  {
    hide WinnerOk, GrantsOk, BlobsOk, DeliveredOk, IdsOk, SendsOk, EventsOk, CompleteOk;
  }

  /** The part rows of a send are its declared parts. */
  lemma RowsAsDeclared(cfg: Config, sh: Shared, id: string)
    requires InvShared(cfg, sh) && id in sh.db.sends
    ensures id in sh.hist.created
    ensures var parts := sh.hist.created[id].input.parts;
            && (forall p :: (id, p) in sh.db.parts <==> exists m :: m in parts && m.partId == p)
            && (forall m :: m in parts ==>
                  sh.db.parts[(id, m.partId)].encryptedSize == m.encryptedSize
                  && sh.db.parts[(id, m.partId)].sha256 == m.sha256)
  {
    hide CompleteOk, WinnerOk, EventsOk, GrantsOk, BlobsOk, DeliveredOk;
    var parts := sh.hist.created[id].input.parts;
    hide IdsOk, SendsOk, PartOk;
    assert DistinctIds(parts) by { DistinctDeclared(cfg, sh, id); }
    ByIdHolds(parts);
    forall p ensures (id, p) in sh.db.parts <==> exists m :: m in parts && m.partId == p {
      if (id, p) in sh.db.parts { PartRowDeclared(cfg, sh, id, p); }
    }
    forall m | m in parts
      ensures sh.db.parts[(id, m.partId)].encryptedSize == m.encryptedSize
           && sh.db.parts[(id, m.partId)].sha256 == m.sha256
    {
      PartRowDeclared(cfg, sh, id, m.partId);
    }
  }

  lemma DistinctDeclared(cfg: Config, sh: Shared, id: string)
    requires InvShared(cfg, sh) && id in sh.hist.created
    ensures DistinctIds(sh.hist.created[id].input.parts)
  {
  }

  lemma PartRowDeclared(cfg: Config, sh: Shared, id: string, p: string)
    requires InvShared(cfg, sh) && (id, p) in sh.db.parts
    ensures id in sh.hist.created && p in Declared(sh.hist.created, id)
    ensures PartFrom(sh.db.parts[(id, p)], id, p, Declared(sh.hist.created, id)[p])
  {
    assert PartOk(sh.db.parts, (id, p), sh.hist.created);
  }

  lemma {:induction false} ByIdHolds(parts: seq<PartMeta>)
    requires DistinctIds(parts)
    ensures forall p :: p in ById(parts) <==> exists m :: m in parts && m.partId == p
    ensures forall m :: m in parts ==> ById(parts)[m.partId] == m
  {
    if |parts| > 0 {
      var init, last := parts[..|parts| - 1], parts[|parts| - 1];
      ByIdHolds(init);
      assert parts == init + [last];
    }
  }

  lemma {:induction false} DoneStays(cfg: Config, ss: seq<State>, acts: seq<Action>, i: nat, j: nat, c: CallId)
    requires IsRun(cfg, ss, acts) && i <= j < |ss| && c in ss[i].calls && ss[i].calls[c].Done?
    ensures c in ss[j].calls ==> ss[j].calls[c].Done?
    decreases j - i
  {
    hide Exec, InvShared, InvCall, InvNext;
    if i < j {
      DoneStays(cfg, ss, acts, i, j - 1, c);
      RunOk(cfg, ss, acts, i);
      NextGrows(cfg, ss, acts, i, j - 1);
    }
  }

  lemma {:induction false} ReservedStays(cfg: Config, ss: seq<State>, acts: seq<Action>, i: nat, j: nat, id: string)
    requires IsRun(cfg, ss, acts) && i <= j < |ss| && id in ss[i].sh.hist.reserved
    ensures id in ss[j].sh.hist.reserved
    decreases j - i
  {
    hide Exec;
    if i < j {
      ReservedStays(cfg, ss, acts, i, j - 1, id);
      var s, a := ss[j - 1], acts[j - 1];
      if a.Advance? { ReservedSame(cfg, s.sh, a.c, s.calls[a.c], a.pick); }
    }
  }

  lemma ReservedSame(cfg: Config, sh: Shared, c: CallId, call: Call, pick: string)
    requires Ready(call, pick)
    ensures Exec(cfg, sh, c, call, pick).sh.hist.reserved == sh.hist.reserved
  {
    hide ExecCreate, ExecPut, ExecFinalize, ExecRedeem, ExecGet, ExecReap, ExecSweep;
    if call.ReapSelect? || call.ReapKeys? || call.ReapDelete? || call.ReapBlobs? {
      ReapReserves(cfg, sh, call, pick);
    } else if call.SweepLive? || call.SweepList? || call.SweepBlobs? {
      SweepReserves(sh, call, pick);
    } else if call.GetValidate? || call.GetDeclared? || call.GetOpen? {
      GetReserves(cfg, sh, call);
    } else if call.PutStatus? || call.PutDeclared? || call.PutPublish? || call.PutMark? {
      PutReserves(cfg, sh, call);
    } else if call.RedLoad? || call.RedConsume? || call.RedInsert? || call.RedParts? {
      RedeemReserves(cfg, sh, c, call);
    } else {
      OthersReserve(cfg, sh, c, call, pick);
    }
  }

  lemma PutReserves(cfg: Config, sh: Shared, call: Call)
    requires call.PutStatus? || call.PutDeclared? || call.PutPublish? || call.PutMark?
    ensures ExecPut(cfg, sh, call).sh.hist == sh.hist
  {
    hide PutOutcome, MarkUploaded;
  }

  lemma RedeemReserves(cfg: Config, sh: Shared, c: CallId, call: Call)
    requires call.RedLoad? || call.RedConsume? || call.RedInsert? || call.RedParts?
    ensures ExecRedeem(cfg, sh, c, call).sh.hist.reserved == sh.hist.reserved
  {
    hide ConsumeUpdate, PartsBrief, InsertGrant, ConsumeMatches;
  }

  lemma OthersReserve(cfg: Config, sh: Shared, c: CallId, call: Call, pick: string)
    requires call.CreateTx? || call.FinStatus? || call.FinCount? || call.FinUpdate?
    ensures Ready(call, pick) ==> Exec(cfg, sh, c, call, pick).sh.hist.reserved == sh.hist.reserved
  {
    hide CreateTransaction, UploadedParts, FinalizeUpdate, Missing;
  }

  lemma ReapReserves(cfg: Config, sh: Shared, call: Call, pick: string)
    requires call.ReapSelect? || call.ReapKeys? || call.ReapDelete? || call.ReapBlobs?
    requires Ready(call, pick)
    ensures ExecReap(cfg, sh, call, pick).sh.hist == sh.hist
  {
    hide DeleteSends, KeysOf, SelectReapable;
  }

  lemma SweepReserves(sh: Shared, call: Call, pick: string)
    requires (call.SweepLive? || call.SweepList? || call.SweepBlobs?) && Ready(call, pick)
    ensures ExecSweep(sh, call, pick).sh.hist == sh.hist
  {
    hide LiveKeys;
  }

  lemma GetReserves(cfg: Config, sh: Shared, call: Call)
    requires call.GetValidate? || call.GetDeclared? || call.GetOpen?
    ensures ExecGet(cfg, sh, call).sh.hist.reserved == sh.hist.reserved
  {
    hide GrantAccepted;
  }

  /** The id of a send is handed out once. */
  lemma CreatedOnce(cfg: Config, ss: seq<State>, acts: seq<Action>, a: nat, b: nat, id: string, x: CreateInput,
      y: CreateInput)
    requires IsRun(cfg, ss, acts) && a < |acts| && b < |acts|
    requires acts[a] == Begin(ReqCreate(id, x)) && acts[b] == Begin(ReqCreate(id, y))
    ensures a == b && x == y
  {
    hide Exec;
    if a < b { ReservedStays(cfg, ss, acts, a + 1, b, id); }
    if b < a { ReservedStays(cfg, ss, acts, b + 1, a, id); }
  }

  /** Of all redemptions of a send that was created as one-time, in the whole run, at most
      one is ever answered with a grant. */
  lemma OneGrantedReply(cfg: Config, ss: seq<State>, acts: seq<Action>, a: nat, id: string, input: CreateInput,
      b: nat, i: nat, token: string, r: Reply, b': nat, i': nat, token': string, r': Reply)
    requires IsRun(cfg, ss, acts) && a < |acts| && acts[a] == Begin(ReqCreate(id, input)) && input.oneTime
    requires Ends(ss, acts, b, i, ReqRedeem(id, token), r) && r.Granted?
    requires Ends(ss, acts, b', i', ReqRedeem(id, token'), r') && r'.Granted?
    ensures b == b' && i == i'
  {
    if i <= i' {
      LaterGrantedReply(cfg, ss, acts, a, id, input, b, i, token, r, b', i', token', r');
    } else {
      LaterGrantedReply(cfg, ss, acts, a, id, input, b', i', token', r', b, i, token, r);
    }
  }

  lemma LaterGrantedReply(cfg: Config, ss: seq<State>, acts: seq<Action>, a: nat, id: string, input: CreateInput,
      b: nat, i: nat, token: string, r: Reply, b': nat, i': nat, token': string, r': Reply)
    requires IsRun(cfg, ss, acts) && a < |acts| && acts[a] == Begin(ReqCreate(id, input)) && input.oneTime
    requires Ends(ss, acts, b, i, ReqRedeem(id, token), r) && r.Granted?
    requires Ends(ss, acts, b', i', ReqRedeem(id, token'), r') && r'.Granted? && i <= i'
    ensures b == b' && i == i'
  {
    hide Exec, InvShared, InvCalls, InvNext, Apply, Ends;
    var c := GrantOnRecord(cfg, ss, acts, b, i, id, token, r);
    var c' := GrantOnRecord(cfg, ss, acts, b', i', id, token', r');
    RunLater(cfg, ss, acts, i, i');
    RunOk(cfg, ss, acts, i');
    var e, e' := GrantEvent(c, id, token, ss[b].sh.clock), GrantEvent(c', id, token', ss[b'].sh.clock);
    EventCreated(cfg, ss[i'].sh, e');
    var a' := CreationOf(cfg, ss, acts, i', id);
    CreatedOnce(cfg, ss, acts, a, a', id, input, ss[i'].sh.hist.created[id].input);
    OneEvent(cfg, ss[i'].sh, id, e, e');
    BeganOnce(cfg, ss, acts, b, b', c, ReqRedeem(id, token), ReqRedeem(id, token'));
    if i < i' { DoneStays(cfg, ss, acts, i + 1, i', c); }
  }

  lemma GrantOnRecord(cfg: Config, ss: seq<State>, acts: seq<Action>, b: nat, i: nat, id: string, token: string,
      r: Reply)
    returns (c: CallId)
    requires IsRun(cfg, ss, acts) && Ends(ss, acts, b, i, ReqRedeem(id, token), r) && r.Granted?
    ensures Begins(ss, acts, b, c, ReqRedeem(id, token)) && i < |acts|
    ensures c in ss[i].calls && ss[i].calls[c].RedParts? && c in ss[i + 1].calls && ss[i + 1].calls[c].Done?
    ensures GrantEvent(c, id, token, ss[b].sh.clock) in ss[i].sh.hist.granted
  {
    hide Exec, InvShared, InvCalls, InvNext, Apply;
    c := acts[i].c;
    LastStep(cfg, ss, acts, b, i, ReqRedeem(id, token), r);
    LastOfRedeem(cfg, ss[i].sh, c, ss[i].calls[c], acts[i].pick, ss[i + 1].sh, r, ReqRedeem(id, token), ss[b].sh.clock);
  }

  // ------------------------------------------------------------------------ creation

  /** A creation succeeds exactly when the declared part ids are distinct, and then adds
      one send row and one unmarked row for each declaration. */
  lemma CreateReply(cfg: Config, ss: seq<State>, acts: seq<Action>, b: nat, i: nat, id: string, input: CreateInput,
      reply: Reply)
    requires IsRun(cfg, ss, acts) && Ends(ss, acts, b, i, ReqCreate(id, input), reply)
    ensures reply == if DistinctIds(input.parts) then Created(id, input.oneTime, ss[b].sh.clock + input.ttl)
                     else Failed(ErrStorage)
    ensures DistinctIds(input.parts) ==>
              && id !in ss[i].sh.db.sends
              && ss[i + 1].sh.db.sends == ss[i].sh.db.sends[id :=
                   SendRow(Creating, input.oneTime, ss[b].sh.clock / 1_000_000_000, None,
                           (ss[b].sh.clock + input.ttl) / 1_000_000_000, None,
                           Wrap64(TotalSize(input.parts)), |input.parts|)]
              && RowsAdded(ss[i].sh.db.(sends := ss[i + 1].sh.db.sends), id, input.parts, ss[i + 1].sh.db)
    ensures !DistinctIds(input.parts) ==> ss[i + 1].sh.db == ss[i].sh.db
  {
    hide InvCalls, InvNext, InvShared, Wrap64, TotalSize;
    LastStep(cfg, ss, acts, b, i, ReqCreate(id, input), reply);
    NewIdIsFree(cfg, ss[i].sh, acts[i].c, ss[i].calls[acts[i].c]);
    CreatedTables(ss[i].sh.db, id, input, ss[b].sh.clock);
    hide CreateTransaction, RowsAdded, DistinctIds;
  }

  lemma NewIdIsFree(cfg: Config, sh: Shared, c: CallId, call: Call)
    requires InvShared(cfg, sh) && InvCall(cfg, sh, c, call) && call.CreateTx?
    ensures call.id !in sh.db.sends && forall p :: (call.id, p) !in sh.db.parts
  {
    hide CompleteOk, WinnerOk, EventsOk, GrantsOk, BlobsOk, DeliveredOk;
  }

  // ------------------------------------------------------------------------- uploads

  /** The publication behind an upload that is about to mark its part. */
  lemma {:induction false} PublishedBefore(cfg: Config, ss: seq<State>, acts: seq<Action>, i: nat, c: CallId)
    returns (k: nat)
    requires IsRun(cfg, ss, acts) && i < |ss| && c in ss[i].calls && ss[i].calls[c].PutMark?
    ensures k < i && acts[k].Advance? && acts[k].c == c && c in ss[k].calls && ss[k].calls[c].PutPublish?
    ensures var call, mark := ss[k].calls[c], ss[i].calls[c];
            && call.sendId == mark.sendId && call.partId == mark.partId
            && var r := PutOutcome(cfg.sha, call.body, call.want, cfg.maxPartBytes);
               && r.Accepted? && |r.data| == mark.n
               && StorageKey(call.sendId, call.partId) in ss[k + 1].sh.blobs
               && ss[k + 1].sh.blobs[StorageKey(call.sendId, call.partId)] == r.data
  {
    hide Exec, PutOutcome;
    assert i > 0;
    var s, a := ss[i - 1], acts[i - 1];
    if c in s.calls && s.calls[c].PutMark? && s.calls[c] == ss[i].calls[c] {
      k := PublishedBefore(cfg, ss, acts, i - 1, c);
    } else {
      k := i - 1;
      BecomesMark(cfg, s, a, c);
    }
  }

  lemma BecomesMark(cfg: Config, s: State, a: Action, c: CallId)
    requires Enabled(s, a) && c in Apply(cfg, s, a).calls && Apply(cfg, s, a).calls[c].PutMark?
    requires c in s.calls ==> s.calls[c] != Apply(cfg, s, a).calls[c]
    ensures a.Advance? && a.c == c && s.calls[c].PutPublish?
    ensures Exec(cfg, s.sh, c, s.calls[c], a.pick) == ExecPut(cfg, s.sh, s.calls[c])
  {
    hide PutOutcome, CreateTransaction, MarkUploaded, DeleteSends, InsertGrant, PartsBrief;
  }

  /** A stored part is explained by the upload that was asked for and by the creation of its
      send: the published bytes are the body's, of the declared size and hash, which is also
      the hash the client named, if it named one; and the part's row, if it is still there,
      is marked with the time of the reply. */
  lemma StoredReply(cfg: Config, ss: seq<State>, acts: seq<Action>, b: nat, i: nat, id: string, p: string, body: Bytes,
      sha: string, n: int)
    returns (a: nat, k: nat, input: CreateInput, m: PartMeta)
    requires IsRun(cfg, ss, acts) && Ends(ss, acts, b, i, ReqPut(id, p, body, sha), Stored(n))
    ensures a < i && acts[a] == Begin(ReqCreate(id, input)) && m in input.parts && m.partId == p
    ensures n == m.encryptedSize && (sha == "" || sha == m.sha256)
    ensures k < i && id + "/" + p in ss[k + 1].sh.blobs
    ensures var data := ss[k + 1].sh.blobs[id + "/" + p];
            && |data| == n <= |body| && data == body[..n] && cfg.sha(data) == m.sha256
            && (cfg.maxPartBytes < MAX_INT64 ==> data == body)
    ensures (id, p) in ss[i + 1].sh.db.parts ==>
              ss[i + 1].sh.db.parts[(id, p)].uploadedAt == Some(ss[i].sh.clock / 1_000_000_000)
  {
    hide InvCalls, InvNext, InvShared, PutOutcome, Apply, Exec;
    var c := acts[i].c;
    LastOfPut(cfg, ss, acts, b, i, id, p, body, sha, n);
    k := PublishedBefore(cfg, ss, acts, i, c);
    var b', req := Origin(cfg, ss, acts, k, c);
    BeganOnce(cfg, ss, acts, b, b', c, ReqPut(id, p, body, sha), req);
    AcceptedIsPrefix(cfg, ss[k].calls[c].body, ss[k].calls[c].want);
    RunOk(cfg, ss, acts, k);
    assert InvCall(cfg, ss[k].sh, c, ss[k].calls[c]) by { assert InvCalls(cfg, ss[k]); CallsOk(cfg, ss[k], c); }
    input := ss[k].sh.hist.created[id].input;
    m := ById(input.parts)[p];
    ByIdFrom(input.parts, p);
    a := CreationOf(cfg, ss, acts, k, id);
  }

  lemma CallsOk(cfg: Config, s: State, c: CallId)
    requires InvCalls(cfg, s) && c in s.calls
    ensures InvCall(cfg, s.sh, c, s.calls[c])
  {
    hide InvCall;
  }

  lemma LastOfPut(cfg: Config, ss: seq<State>, acts: seq<Action>, b: nat, i: nat, id: string, p: string, body: Bytes,
      sha: string, n: int)
    requires IsRun(cfg, ss, acts) && Ends(ss, acts, b, i, ReqPut(id, p, body, sha), Stored(n))
    ensures acts[i].c in ss[i].calls && ss[i].calls[acts[i].c] == PutMark(id, p, n)
    ensures Begins(ss, acts, b, acts[i].c, ReqPut(id, p, body, sha))
    ensures (id, p) in ss[i + 1].sh.db.parts ==>
              ss[i + 1].sh.db.parts[(id, p)].uploadedAt == Some(ss[i].sh.clock / 1_000_000_000)
  {
    hide InvCalls, InvNext, InvShared, PutOutcome;
    LastStep(cfg, ss, acts, b, i, ReqPut(id, p, body, sha), Stored(n));
  }

  /** Every blob is the body of an upload, as far as it was read, for the send and the part
      of its key. */
  lemma {:induction false} BlobOrigin(cfg: Config, ss: seq<State>, acts: seq<Action>, i: nat, key: string)
    returns (u: nat, id: string, p: string, body: Bytes, sha: string)
    requires IsRun(cfg, ss, acts) && i < |ss| && key in ss[i].sh.blobs
    ensures u < i && acts[u] == Begin(ReqPut(id, p, body, sha)) && key == StorageKey(id, p) && NoSlash(id)
    ensures var data := ss[i].sh.blobs[key];
            && |data| <= |body| && data == body[..|data|]
            && (cfg.maxPartBytes < MAX_INT64 ==> data == body)
  {
    hide Exec, InvShared, InvCalls, InvNext;
    assert i > 0;
    var s, a := ss[i - 1], acts[i - 1];
    if key in s.sh.blobs && s.sh.blobs[key] == ss[i].sh.blobs[key] {
      u, id, p, body, sha := BlobOrigin(cfg, ss, acts, i - 1, key);
    } else {
      var req;
      u, req := Origin(cfg, ss, acts, i - 1, a.c);
      NewBlob(cfg, s, a, key);
      var call := s.calls[a.c];
      id, p, body, sha := call.sendId, call.partId, call.body, req.sha;
      RunOk(cfg, ss, acts, i - 1);
      CallsOk(cfg, s, a.c);
      SlashFree(cfg, s.sh, id);
    }
  }

  lemma SlashFree(cfg: Config, sh: Shared, id: string)
    requires InvShared(cfg, sh) && id in sh.hist.created
    ensures NoSlash(id)
  {
    hide SendsOk, PartsOk, CompleteOk, WinnerOk, EventsOk, GrantsOk, BlobsOk, DeliveredOk;
  }

  lemma NewBlob(cfg: Config, s: State, a: Action, key: string)
    requires Enabled(s, a) && a.Advance? && key in Apply(cfg, s, a).sh.blobs
    requires key in s.sh.blobs ==> s.sh.blobs[key] != Apply(cfg, s, a).sh.blobs[key]
    ensures var call := s.calls[a.c];
            && call.PutPublish? && key == StorageKey(call.sendId, call.partId)
            && var data := Apply(cfg, s, a).sh.blobs[key];
               && |data| <= |call.body| && data == call.body[..|data|]
               && (cfg.maxPartBytes < MAX_INT64 ==> data == call.body)
  {
    hide PutOutcome, CreateTransaction, MarkUploaded, DeleteSends, InsertGrant, PartsBrief;
    var call := s.calls[a.c];
    if call.PutPublish? { AcceptedIsPrefix(cfg, call.body, call.want); }
  }

  // -------------------------------------------------------------------- finalization

  /** A send is reported finalized only when, by then, it was finalized with every declared
      part uploaded. */
  lemma FinalizedReply(cfg: Config, ss: seq<State>, acts: seq<Action>, b: nat, i: nat, id: string)
    returns (j: nat)
    requires IsRun(cfg, ss, acts) && Ends(ss, acts, b, i, ReqFinalize(id), FinalizedOk)
    ensures j <= i + 1 && CompleteAt(ss[j], id)
  {
    hide Apply, CompleteAt;
    LastStep(cfg, ss, acts, b, i, ReqFinalize(id), FinalizedOk);
    RunOk(cfg, ss, acts, i + 1);
    FinalizedOnRecord(cfg, ss[i].sh, acts[i].c, ss[i].calls[acts[i].c], acts[i].pick, ss[i + 1].sh, id, ss[b].sh.clock);
    hide InvShared, InvCalls, InvNext, Exec;
    j := CompleteBefore(cfg, ss, acts, i + 1, id);
  }

  lemma FinalizedOnRecord(cfg: Config, sh: Shared, c: CallId, call: Call, pick: string, sh': Shared, id: string, t: int)
    requires Ready(call, pick) && Exec(cfg, sh, c, call, pick) == Next(sh', Done(FinalizedOk)) && InvShared(cfg, sh)
    requires StemsFrom(call, ReqFinalize(id), t)
    ensures id in sh'.hist.complete
  {
    hide IdsOk, SendsOk, PartsOk, WinnerOk, EventsOk, GrantsOk, BlobsOk, DeliveredOk, UploadedParts, Missing,
         FinalizeUpdate;
  }

  /** Counting the missing parts ends a FinalizeSend with ErrIncomplete if and only if some
      part row is not marked as uploaded; otherwise the call goes on. */
  lemma IncompleteIff(cfg: Config, ss: seq<State>, acts: seq<Action>, i: nat, id: string)
    requires IsRun(cfg, ss, acts) && i < |acts| && acts[i].Advance?
    requires acts[i].c in ss[i].calls && ss[i].calls[acts[i].c] == FinCount(id)
    ensures acts[i].c in ss[i + 1].calls && ss[i + 1].sh == ss[i].sh
    ensures ss[i + 1].calls[acts[i].c] ==
              if exists p :: (id, p) in ss[i].sh.db.parts && ss[i].sh.db.parts[(id, p)].uploadedAt.None?
              then Done(Failed(ErrIncomplete)) else FinUpdate(id)
  {
    MissingMeans(ss[i].sh.db, id);
    hide Missing;
  }

  // ----------------------------------------------------------------------- downloads

  /** The validation behind a GetPart that has got past it. */
  lemma {:induction false} ValidatedBefore(cfg: Config, ss: seq<State>, acts: seq<Action>, i: nat, c: CallId,
      id: string, p: string, token: string)
    returns (v: nat)
    requires IsRun(cfg, ss, acts) && i < |ss| && c in ss[i].calls
    requires ss[i].calls[c] in {GetDeclared(id, p, token), GetOpen(id, p, token)}
    ensures v < i && acts[v].Advance? && acts[v].c == c && c in ss[v].calls
    ensures ss[v].calls[c] == GetValidate(id, p, token) && ss[v + 1].calls[c] == GetDeclared(id, p, token)
  {
    hide Exec;
    assert i > 0;
    var s, a := ss[i - 1], acts[i - 1];
    if c in s.calls && s.calls[c] in {GetDeclared(id, p, token), GetOpen(id, p, token)} {
      v := ValidatedBefore(cfg, ss, acts, i - 1, c, id, p, token);
    } else {
      v := i - 1;
      GetsOn(cfg, s, a, c, id, p, token);
    }
  }

  lemma GetsOn(cfg: Config, s: State, a: Action, c: CallId, id: string, p: string, token: string)
    requires Enabled(s, a) && c in Apply(cfg, s, a).calls
    requires Apply(cfg, s, a).calls[c] in {GetDeclared(id, p, token), GetOpen(id, p, token)}
    requires c in s.calls ==> s.calls[c] !in {GetDeclared(id, p, token), GetOpen(id, p, token)}
    ensures a.Advance? && a.c == c && s.calls[c] == GetValidate(id, p, token)
    ensures Apply(cfg, s, a).calls[c] == GetDeclared(id, p, token)
  {
    hide ExecCreate, ExecPut, ExecFinalize, ExecRedeem, ExecReap, ExecSweep, GrantAccepted;
    if a.Advance? && a.c == c && !s.calls[c].GetValidate? && !s.calls[c].GetDeclared? {
      OthersDoNotGet(cfg, s.sh, c, s.calls[c], a.pick);
    }
  }

  lemma OthersDoNotGet(cfg: Config, sh: Shared, c: CallId, call: Call, pick: string)
    requires Ready(call, pick) && !call.GetValidate? && !call.GetDeclared?
    ensures !Exec(cfg, sh, c, call, pick).call.GetDeclared? && !Exec(cfg, sh, c, call, pick).call.GetOpen?
  {
    hide PutOutcome, CreateTransaction, MarkUploaded, DeleteSends, InsertGrant, PartsBrief;
  }

  /** Downloaded bytes are explained from end to end: by the creation that declared the part
      with their size and hash, by the upload whose body they are, and by the redemption
      that issued a token with the presented token's hash and whose grant, at the step at
      which this very call validated it, was in the table and had not run out. */
  lemma DataReply(cfg: Config, ss: seq<State>, acts: seq<Action>, g: nat, i: nat, id: string, p: string, token: string,
      data: Bytes)
    returns (a: nat, m: PartMeta, input: CreateInput, u: nat, body: Bytes, sha: string, v: nat, b: nat, j: nat)
    requires IsRun(cfg, ss, acts) && Ends(ss, acts, g, i, ReqGet(id, p, token), Data(data))
    ensures a < i && acts[a] == Begin(ReqCreate(id, input)) && m in input.parts && m.partId == p
    ensures |data| == m.encryptedSize && cfg.sha(data) == m.sha256
    ensures u < i && acts[u] == Begin(ReqPut(id, p, body, sha))
    ensures |data| <= |body| && data == body[..|data|] && (cfg.maxPartBytes < MAX_INT64 ==> data == body)
    ensures g < v < i && Vouches(cfg, ss, acts, b, j, v, id, cfg.tokenSha(token))
  {
    hide Apply, Exec, InvShared, InvCalls, InvNext, InvCall, Vouches;
    var c, sh := acts[i].c, ss[i].sh;
    LastOfGet(cfg, ss, acts, g, i, id, p, token, data);
    OpenedData(cfg, sh, id, p, data);
    input := sh.hist.created[id].input;
    m := ById(input.parts)[p];
    ByIdFrom(input.parts, p);
    a := CreationOf(cfg, ss, acts, i, id);
    var id', p';
    u, id', p', body, sha := BlobOrigin(cfg, ss, acts, i, StorageKey(id, p));
    SlashFree(cfg, sh, id);
    KeyOwnerOfStorageKey(id, p);
    KeyOwnerOfStorageKey(id', p');
    v := ValidatedBefore(cfg, ss, acts, i, c, id, p, token);
    var g', req := Origin(cfg, ss, acts, v, c);
    BeganOnce(cfg, ss, acts, g, g', c, ReqGet(id, p, token), req);
    AcceptedIff(cfg, ss, acts, v, id, p, token);
    b, j :| Vouches(cfg, ss, acts, b, j, v, id, cfg.tokenSha(token));
  }

  lemma LastOfGet(cfg: Config, ss: seq<State>, acts: seq<Action>, g: nat, i: nat, id: string, p: string, token: string,
      data: Bytes)
    requires IsRun(cfg, ss, acts) && Ends(ss, acts, g, i, ReqGet(id, p, token), Data(data))
    ensures acts[i].c in ss[i].calls && ss[i].calls[acts[i].c] == GetOpen(id, p, token)
    ensures StorageKey(id, p) in ss[i].sh.blobs && ss[i].sh.blobs[StorageKey(id, p)] == data
    ensures InvShared(cfg, ss[i].sh) && id in ss[i].sh.hist.created && p in Declared(ss[i].sh.hist.created, id)
  {
    hide InvShared, InvCalls, InvNext, PutOutcome;
    LastStep(cfg, ss, acts, g, i, ReqGet(id, p, token), Data(data));
  }
}
