/** What a reaping call picks, in terms of the instants at which requests began. */
module Reaping {
  import opened Records
  import opened Sql
  import opened BlobOutcome
  import opened Protocol
  import opened Invariants
  import opened Steps
  import opened Origins
  import opened Acceptance
  import opened Solo
  import opened GrantLife

  /** Step `j` consumes the send `id`, in a RedeemSend that step `r` began. */
  ghost predicate Consumes(ss: seq<State>, acts: seq<Action>, r: nat, j: nat, id: string) {
    && r < j < |acts| < |ss|
    && acts[r].Begin? && acts[r].req.ReqRedeem? && acts[r].req.sendId == id
    && acts[j].Advance? && acts[j].c == ss[r].next
    && id in ss[j].sh.db.sends && ss[j].sh.db.sends[id].consumedAt.None?
    && id in ss[j + 1].sh.db.sends && ss[j + 1].sh.db.sends[id].consumedAt == Some(ss[r].sh.clock / 1_000_000_000)
  }

  /** The redemption that consumed a send, and its time. */
  lemma {:induction false} ConsumerOf(cfg: Config, ss: seq<State>, acts: seq<Action>, i: nat, id: string)
    returns (r: nat, j: nat)
    requires IsRun(cfg, ss, acts) && i < |ss| && id in ss[i].sh.hist.winner
    ensures j < i && Consumes(ss, acts, r, j, id) && ss[i].sh.hist.winner[id].1 == ss[r].sh.clock
  {
    hide Exec, StemsFrom, Consumes, Inv;
    assert i > 0;
    var s, a := ss[i - 1], acts[i - 1];
    if id in s.sh.hist.winner && s.sh.hist.winner[id] == ss[i].sh.hist.winner[id] {
      r, j := ConsumerOf(cfg, ss, acts, i - 1, id);
    } else {
      var req;
      r, req := Origin(cfg, ss, acts, i - 1, a.c);
      j := i - 1;
      RunOk(cfg, ss, acts, j);
      BecomesConsumed(cfg, s, a, id, req, ss[r].sh.clock);
      assert Consumes(ss, acts, r, j, id) by { ConsumesNow(ss, acts, r, j, id); }
    }
  }

  lemma ConsumesNow(ss: seq<State>, acts: seq<Action>, r: nat, j: nat, id: string)
    requires r < j < |acts| < |ss|
    requires acts[r].Begin? && acts[r].req.ReqRedeem? && acts[r].req.sendId == id
    requires acts[j].Advance? && acts[j].c == ss[r].next
    requires id in ss[j].sh.db.sends && ss[j].sh.db.sends[id].consumedAt.None?
    requires id in ss[j + 1].sh.db.sends
    requires ss[j + 1].sh.db.sends[id].consumedAt == Some(ss[r].sh.clock / 1_000_000_000)
    ensures Consumes(ss, acts, r, j, id)
  {
  }

  lemma BecomesConsumed(cfg: Config, s: State, a: Action, id: string, req: Request, t: int)
    requires Enabled(s, a) && a.Advance? && StemsFrom(s.calls[a.c], req, t)
    requires id in Apply(cfg, s, a).sh.hist.winner
    requires id in s.sh.hist.winner ==> s.sh.hist.winner[id] != Apply(cfg, s, a).sh.hist.winner[id]
    ensures req.ReqRedeem? && req.sendId == id && Apply(cfg, s, a).sh.hist.winner[id].1 == t
    ensures id in s.sh.db.sends && s.sh.db.sends[id].consumedAt.None?
    ensures id in Apply(cfg, s, a).sh.db.sends
    ensures Apply(cfg, s, a).sh.db.sends[id].consumedAt == Some(t / 1_000_000_000)
  {
    hide CreateTransaction, MarkUploaded, DeleteSends, InsertGrant, PartsBrief, LiveKeys, KeysOf, SelectReapable,
         Missing, UploadedParts, PutOutcome, FinalizeUpdate, GrantAccepted;
  }

  /** The reaping SELECT picks a send if and only if, by the clock at which the reaping call
      began, its declared time-to-live has run out since its creation began; or it is a
      one-time send, consumed by a redemption that began a grant TTL ago or more; or it is
      an upload whose creation began 900 seconds ago or more. In whole seconds. */
  lemma PicksIff(cfg: Config, ss: seq<State>, acts: seq<Action>, i: nat, id: string)
    returns (a: nat, input: CreateInput, b: nat, r: nat)
    requires IsRun(cfg, ss, acts) && i < |acts| && acts[i].Advance?
    requires acts[i].c in ss[i].calls && ss[i].calls[acts[i].c].ReapSelect?
    requires id in ss[i].sh.db.sends
    ensures a < i && acts[a] == Begin(ReqCreate(id, input))
    ensures b < i && Begins(ss, acts, b, acts[i].c, ReqReap)
    ensures ss[i].sh.db.sends[id].consumedAt.Some? ==>
              r < i && acts[r].Begin? && acts[r].req.ReqRedeem? && acts[r].req.sendId == id
    ensures acts[i].c in ss[i + 1].calls
    ensures var now, row, next := ss[b].sh.clock, ss[i].sh.db.sends[id], ss[i + 1].calls[acts[i].c];
            (next.ReapKeys? && id in next.picked) <==>
              || (ss[a].sh.clock + input.ttl) / 1_000_000_000 <= now / 1_000_000_000
              || (input.oneTime && row.consumedAt.Some?
                  && ss[r].sh.clock / 1_000_000_000 <= (now - cfg.grantTtl) / 1_000_000_000)
              || (row.status.Creating? && ss[a].sh.clock / 1_000_000_000 + 900 <= now / 1_000_000_000)
  {
    hide InvShared, InvCalls, InvNext, Exec, Outlives;
    var c, sh, now := acts[i].c, ss[i].sh, ss[i].calls[acts[i].c].now;
    RunOk(cfg, ss, acts, i);
    var req;
    b, req := Origin(cfg, ss, acts, i, c);
    RowFacts(cfg, sh, id);
    input := sh.hist.created[id].input;
    a := CreationOf(cfg, ss, acts, i, id);
    r := 0;
    if sh.db.sends[id].consumedAt.Some? {
      var j;
      r, j := ConsumerOf(cfg, ss, acts, i, id);
    }
    Selected(cfg, ss[i], acts[i], id);
    OutlivesMeans(sh.db.sends[id], now, cfg.grantTtl);
  }

  /** So no reaping call that began within 900 seconds of the creation's beginning picks an
      unfinished send before its time-to-live is over, and any later one does. */
  lemma UnfinishedPickedIff(cfg: Config, ss: seq<State>, acts: seq<Action>, i: nat, id: string)
    returns (a: nat, input: CreateInput, b: nat)
    requires IsRun(cfg, ss, acts) && i < |acts| && acts[i].Advance?
    requires acts[i].c in ss[i].calls && ss[i].calls[acts[i].c].ReapSelect?
    requires id in ss[i].sh.db.sends && ss[i].sh.db.sends[id].status.Creating?
    ensures a < i && acts[a] == Begin(ReqCreate(id, input))
    ensures b < i && Begins(ss, acts, b, acts[i].c, ReqReap)
    ensures acts[i].c in ss[i + 1].calls
    ensures var now, next := ss[b].sh.clock / 1_000_000_000, ss[i + 1].calls[acts[i].c];
            now < (ss[a].sh.clock + input.ttl) / 1_000_000_000 ==>
              ((next.ReapKeys? && id in next.picked) <==> now - ss[a].sh.clock / 1_000_000_000 >= 900)
  {
    hide InvShared, InvCalls, InvNext, Apply;
    var r;
    RunOk(cfg, ss, acts, i);
    UnfinishedIsUnconsumed(cfg, ss[i].sh, id);
    a, input, b, r := PicksIff(cfg, ss, acts, i, id);
  }

  lemma OutlivesMeans(row: SendRow, now: int, grantTtl: int)
    ensures !Outlives(row, now, grantTtl) <==>
              || row.expiresAt <= now / 1_000_000_000
              || (row.oneTime && row.consumedAt.Some? && row.consumedAt.value <= (now - grantTtl) / 1_000_000_000)
              || (row.status.Creating? && row.createdAt + 900 <= now / 1_000_000_000)
  {
  }

  lemma Selected(cfg: Config, s: State, a: Action, id: string)
    requires Enabled(s, a) && a.Advance? && s.calls[a.c].ReapSelect? && id in s.sh.db.sends
    ensures var next := Apply(cfg, s, a).calls[a.c];
            (next.ReapKeys? && id in next.picked) <==> !Outlives(s.sh.db.sends[id], s.calls[a.c].now, cfg.grantTtl)
  {
    ReapedIffOutlived(cfg, s.sh.db, s.calls[a.c].now, id);
    hide Outlives, Reapable;
    var picked := SelectReapable(s.sh.db, s.calls[a.c].now, cfg.grantTtl);
    assert Exec(cfg, s.sh, a.c, s.calls[a.c], a.pick) == ExecReap(cfg, s.sh, s.calls[a.c], a.pick);
  }

  lemma RowFacts(cfg: Config, sh: Shared, id: string)
    requires InvShared(cfg, sh) && id in sh.db.sends
    ensures id in sh.hist.created && RowFrom(sh.db.sends[id], sh.hist.created[id])
    ensures sh.db.sends[id].consumedAt.Some? ==>
              id in sh.hist.winner && sh.db.sends[id].consumedAt == Some(Unix(sh.hist.winner[id].1))
  {
    hide IdsOk, PartsOk, EventsOk, GrantsOk, BlobsOk, DeliveredOk;
  }

  /** The two instants that `GrantLife` compares are those of runs: as long as a grant's row
      is in the table, validation refuses its token exactly when `GrantRejected` says so of
      the instant at which its redemption began. */
  lemma RejectedIsRefused(cfg: Config, ss: seq<State>, acts: seq<Action>, b: nat, j: nat, i: nat, id: string,
      p: string, token: string)
    requires IsRun(cfg, ss, acts) && j < i < |acts| && acts[i].Advance?
    requires acts[i].c in ss[i].calls && ss[i].calls[acts[i].c] == GetValidate(id, p, token)
    requires Issues(cfg, ss, acts, b, j, id, cfg.tokenSha(token)) && Stays(ss, j, i, cfg.tokenSha(token))
    ensures acts[i].c in ss[i + 1].calls
    ensures ss[i + 1].calls[acts[i].c] == Done(Failed(ErrInvalidGrant)) <==>
              GrantRejected(ss[b].sh.clock, cfg.grantTtl, ss[i].sh.clock)
  {
    assert b < |ss|;
    hide Apply, Issues, Stays;
    var h := cfg.tokenSha(token);
    AcceptedIff(cfg, ss, acts, i, id, p, token);
    if !GrantRejected(ss[b].sh.clock, cfg.grantTtl, ss[i].sh.clock) {
      assert Vouches(cfg, ss, acts, b, j, i, id, h) by { StillVouches(cfg, ss, acts, b, j, i, id, h); }
    } else if b', j' :| Vouches(cfg, ss, acts, b', j', i, id, h) {
      IssuedOnce(cfg, ss, acts, b, j, b', j', i, id, id, h);
    }
  }

  lemma StillVouches(cfg: Config, ss: seq<State>, acts: seq<Action>, b: nat, j: nat, i: nat, id: string, h: string)
    requires j < i && Issues(cfg, ss, acts, b, j, id, h) && Stays(ss, j, i, h)
    requires !GrantRejected(ss[b].sh.clock, cfg.grantTtl, ss[i].sh.clock)
    ensures Vouches(cfg, ss, acts, b, j, i, id, h)
  {
  }
}
