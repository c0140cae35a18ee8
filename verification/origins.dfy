/** Where the steps of a run come from: every call in flight and every send is traced back
    to the request that began it and the clock at that instant. */
module Origins {
  import opened Records
  import opened Sql
  import opened BlobOutcome
  import opened Protocol

  /** What a call begun at `t` for `req` can look like until it ends. */
  predicate StemsFrom(call: Call, req: Request, t: int) {
    match call
    case CreateTx(id, input, now) => req == ReqCreate(id, input) && now == t
    case PutStatus(s, p, body, sha) => req == ReqPut(s, p, body, sha)
    case PutDeclared(s, p, body, sha) => req == ReqPut(s, p, body, sha)
    case PutPublish(s, p, body, want) =>
      req.ReqPut? && req == ReqPut(s, p, body, req.sha) && (req.sha == "" || req.sha == want.sha256)
    case PutMark(s, p, _) => req.ReqPut? && req == ReqPut(s, p, req.body, req.sha)
    case FinStatus(s) => req == ReqFinalize(s)
    case FinCount(s) => req == ReqFinalize(s)
    case FinUpdate(s) => req == ReqFinalize(s)
    case RedLoad(s, token, now) => req == ReqRedeem(s, token) && now == t
    case RedConsume(s, token, now) => req == ReqRedeem(s, token) && now == t
    case RedInsert(s, token, now) => req == ReqRedeem(s, token) && now == t
    case RedParts(s, token, now) => req == ReqRedeem(s, token) && now == t
    case GetValidate(s, p, token) => req == ReqGet(s, p, token)
    case GetDeclared(s, p, token) => req == ReqGet(s, p, token)
    case GetOpen(s, p, token) => req == ReqGet(s, p, token)
    case ReapSelect(now) => req == ReqReap && now == t
    case ReapKeys(now, _) => req == ReqReap && now == t
    case ReapDelete(now, _, _) => req == ReqReap && now == t
    case ReapBlobs(_, _) => req == ReqReap
    case SweepLive => req == ReqSweep
    case SweepList(_) => req == ReqSweep
    case SweepBlobs(_, _, _) => req == ReqSweep
    case Done(_) => true
  }

  lemma PutStems(cfg: Config, sh: Shared, call: Call, req: Request, t: int)
    requires call.PutStatus? || call.PutDeclared? || call.PutPublish? || call.PutMark?
    requires StemsFrom(call, req, t)
    ensures StemsFrom(ExecPut(cfg, sh, call).call, req, t)
  {
  }

  /** An accepted stream is published in full, or as the part of it that was read. */
  lemma AcceptedIsPrefix(cfg: Config, body: Bytes, want: PartMeta)
    ensures var r := PutOutcome(cfg.sha, body, want, cfg.maxPartBytes);
            r.Accepted? ==>
              && |r.data| <= |body| && r.data == body[..|r.data|] && |r.data| <= cfg.maxPartBytes
              && |r.data| == want.encryptedSize && cfg.sha(r.data) == want.sha256
              && (cfg.maxPartBytes < MAX_INT64 ==> r.data == body)
  {
  }

  lemma StemsStep(cfg: Config, sh: Shared, c: CallId, call: Call, pick: string, req: Request, t: int)
    requires Ready(call, pick) && StemsFrom(call, req, t)
    ensures StemsFrom(Exec(cfg, sh, c, call, pick).call, req, t)
  {
    hide ExecCreate, ExecPut, ExecRedeem, ExecReap, StemsFrom;
    if call.PutStatus? || call.PutDeclared? || call.PutPublish? || call.PutMark? {
      PutStems(cfg, sh, call, req, t);
    } else if call.RedLoad? || call.RedConsume? || call.RedInsert? || call.RedParts? {
      RedeemStems(cfg, sh, c, call, req, t);
    } else if call.ReapSelect? || call.ReapKeys? || call.ReapDelete? || call.ReapBlobs? {
      ReapStems(cfg, sh, call, pick, req, t);
    } else {
      OtherStems(cfg, sh, c, call, pick, req, t);
    }
  }

  lemma RedeemStems(cfg: Config, sh: Shared, c: CallId, call: Call, req: Request, t: int)
    requires call.RedLoad? || call.RedConsume? || call.RedInsert? || call.RedParts?
    requires StemsFrom(call, req, t)
    ensures StemsFrom(ExecRedeem(cfg, sh, c, call).call, req, t)
  {
    hide ConsumeUpdate, PartsBrief, InsertGrant, ConsumeMatches;
  }

  lemma ReapStems(cfg: Config, sh: Shared, call: Call, pick: string, req: Request, t: int)
    requires call.ReapSelect? || call.ReapKeys? || call.ReapDelete? || call.ReapBlobs?
    requires Ready(call, pick) && StemsFrom(call, req, t)
    ensures StemsFrom(ExecReap(cfg, sh, call, pick).call, req, t)
  {
    hide DeleteSends, KeysOf, SelectReapable;
  }

  lemma OtherStems(cfg: Config, sh: Shared, c: CallId, call: Call, pick: string, req: Request, t: int)
    requires !call.PutStatus? && !call.PutDeclared? && !call.PutPublish? && !call.PutMark?
    requires !call.RedLoad? && !call.RedConsume? && !call.RedInsert? && !call.RedParts?
    requires !call.ReapSelect? && !call.ReapKeys? && !call.ReapDelete? && !call.ReapBlobs?
    requires Ready(call, pick) && StemsFrom(call, req, t)
    ensures StemsFrom(Exec(cfg, sh, c, call, pick).call, req, t)
  {
    hide FinalizeUpdate, LiveKeys, Missing, UploadedParts, CreateTransaction, GrantAccepted;
  }

  /** Step `b` begins the call `c` for `req`. */
  ghost predicate Begins(ss: seq<State>, acts: seq<Action>, b: nat, c: CallId, req: Request) {
    b < |acts| < |ss| && acts[b] == Begin(req) && ss[b].next == c
  }

  lemma {:induction false} NextGrows(cfg: Config, ss: seq<State>, acts: seq<Action>, i: nat, j: nat)
    requires IsRun(cfg, ss, acts) && i <= j < |ss|
    ensures ss[i].next <= ss[j].next
    decreases j - i
  {
    hide Exec;
    if i < j { NextGrows(cfg, ss, acts, i, j - 1); }
  }

  /** A call was begun once. */
  lemma BeganOnce(cfg: Config, ss: seq<State>, acts: seq<Action>, b: nat, b': nat, c: CallId, req: Request,
      req': Request)
    requires IsRun(cfg, ss, acts) && Begins(ss, acts, b, c, req) && Begins(ss, acts, b', c, req')
    ensures b == b' && req == req'
  {
    if b < b' { NextGrows(cfg, ss, acts, b + 1, b'); }
    if b' < b { NextGrows(cfg, ss, acts, b' + 1, b); }
  }

  /** Every call there is was begun at an earlier step, and still says what was asked of it
      and, where it has read the clock, the time at that step. */
  lemma {:induction false} Origin(cfg: Config, ss: seq<State>, acts: seq<Action>, i: nat, c: CallId)
    returns (b: nat, req: Request)
    requires IsRun(cfg, ss, acts) && i < |ss| && c in ss[i].calls
    ensures b < i && Begins(ss, acts, b, c, req) && StemsFrom(ss[i].calls[c], req, ss[b].sh.clock)
  {
    hide Exec, StemsFrom;
    assert i > 0;
    var s, a := ss[i - 1], acts[i - 1];
    if a.Begin? && s.next == c {
      b, req := i - 1, a.req;
      StartStems(req, s.sh.clock);
    } else {
      b, req := Origin(cfg, ss, acts, i - 1, c);
      if a.Advance? && a.c == c {
        StemsStep(cfg, s.sh, c, s.calls[c], a.pick, req, ss[b].sh.clock);
      }
    }
  }

  lemma StartStems(req: Request, t: int)
    ensures StemsFrom(Start(req, t), req, t)
  {
  }

  // ------------------------------------------------------------------------- sends

  /** The transaction of a send was begun once, for the declaration that is on record. */
  lemma {:induction false} CreationOf(cfg: Config, ss: seq<State>, acts: seq<Action>, i: nat, id: string)
    returns (b: nat)
    requires IsRun(cfg, ss, acts) && i < |ss| && id in ss[i].sh.hist.created
    ensures b < i < |ss| && acts[b] == Begin(ReqCreate(id, ss[i].sh.hist.created[id].input))
    ensures ss[i].sh.hist.created[id].now == ss[b].sh.clock
  {
    assert i > 0;
    var s, a := ss[i - 1], acts[i - 1];
    assert a.Advance? && a.c in s.calls && !s.calls[a.c].CreateTx? ==>
        Apply(cfg, s, a).sh.hist.created == s.sh.hist.created;
    hide Exec, StemsFrom;
    if id in s.sh.hist.created && s.sh.hist.created[id] == ss[i].sh.hist.created[id] {
      b := CreationOf(cfg, ss, acts, i - 1, id);
    } else {
      var req;
      b, req := Origin(cfg, ss, acts, i - 1, a.c);
      CreateStems(s.sh, s.calls[a.c], req, ss[b].sh.clock);
    }
  }

  lemma CreateStems(sh: Shared, call: Call, req: Request, t: int)
    requires call.CreateTx? && StemsFrom(call, req, t)
    ensures req == ReqCreate(call.id, call.input) && call.now == t
    ensures var h := ExecCreate(sh, call).sh.hist.created;
            h == sh.hist.created || h == sh.hist.created[call.id := Declaration(call.input, t)]
  {
    hide CreateTransaction;
  }
}
