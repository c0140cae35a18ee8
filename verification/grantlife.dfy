/** How long a grant lives: the reaping clause for consumed sends against the expiry
    test for grants, and what reaping can do to a grant that is still good. */
module GrantLife {
  import opened Records
  import opened Sql
  import opened Protocol
  import opened Invariants
  import opened Redemption
  import opened Steps

  /** Reaping at `t` matches the consumed clause of a send redeemed at `now`. */
  predicate ClauseMatches(now: int, ttl: int, t: int) {
    Unix(now) <= Unix(t - ttl)
  }

  /** Validation at `t` rejects the grant issued by the redemption at `now`. */
  predicate GrantRejected(now: int, ttl: int, t: int) {
    Unix(now + ttl) <= Unix(t)
  }

  /** The two tests agree at every instant exactly when the grant TTL is a whole number
      of seconds: reaping a consumed send never cuts its grant short, and never leaves a
      dead one behind, for precisely those TTLs. */
  lemma ClausesAgreeIff(ttl: int)
    ensures (forall now, t :: ClauseMatches(now, ttl, t) <==> GrantRejected(now, ttl, t)) <==> ttl % SECOND == 0
  {
    if ttl % SECOND != 0 {
      // redeemed on the second: the grant's expiry is rounded down, the clause is not
      assert GrantRejected(0, ttl, Unix(ttl) * SECOND);
      assert !ClauseMatches(0, ttl, Unix(ttl) * SECOND);
    }
  }

  /** For any TTL the two tests change over within one second of each other. */
  lemma ClausesWithinASecond(now: int, ttl: int, t: int)
    ensures ClauseMatches(now, ttl, t) ==> GrantRejected(now, ttl, t + SECOND - 1)
    ensures GrantRejected(now, ttl, t) ==> ClauseMatches(now, ttl, t + SECOND - 1)
  {
  }

  // ------------------------------------------------------------- over the protocol

  /** The step removes the grant `h`. */
  predicate Removes(s: State, s': State, h: string) {
    h in s.sh.db.grants && h !in s'.sh.db.grants
  }

  /** The send was selected only as an unfinished upload, and was finalized between the
      SELECT and the DELETE of the same reaping call. */
  predicate FinalizedMeanwhile(cfg: Config, s: State, c: CallId, id: string)
    requires c in s.calls && s.calls[c].ReapDelete?
  {
    && id in s.calls[c].picked && id in s.sh.db.sends
    && s.calls[c].picked[id].status.Creating? && s.sh.db.sends[id].status.Finalized?
  }

  /** Only the DELETE of a reaping call removes a grant, and then, at the instant the
      reaping call started with, the grant itself is rejected, or its send has expired, or
      the send was selected as unfinished and finalized before the DELETE. A grant TTL
      that is not a whole number of seconds costs less than one second. */
  lemma GrantSurvival(cfg: Config, s: State, a: Action, h: string)
    requires Inv(cfg, s) && Enabled(s, a) && Removes(s, Apply(cfg, s, a), h)
    ensures a.Advance? && s.calls[a.c].ReapDelete?
    ensures var g, call := s.sh.db.grants[h], s.calls[a.c];
            && g.sendId in s.sh.db.sends && call.now <= s.sh.clock
            && (|| g.expiresAt <= Unix(if cfg.grantTtl % SECOND == 0 then call.now else call.now + SECOND - 1)
                || s.sh.db.sends[g.sendId].expiresAt <= Unix(call.now)
                || FinalizedMeanwhile(cfg, s, a.c, g.sendId))
  {
    hide InvShared, Exec;
    GrantRows(cfg, s.sh, a.c, s.calls[a.c], a.pick);
    PickedGrant(cfg, s.sh, a.c, s.calls[a.c], h);
  }

  lemma PickedGrant(cfg: Config, sh: Shared, c: CallId, call: Call, h: string)
    requires InvShared(cfg, sh) && InvCall(cfg, sh, c, call) && call.ReapDelete?
    requires h in sh.db.grants && sh.db.grants[h].sendId in call.picked
    ensures var g, now := sh.db.grants[h], call.now;
            && g.sendId in sh.db.sends && now <= sh.clock
            && (|| g.expiresAt <= Unix(if cfg.grantTtl % SECOND == 0 then now else now + SECOND - 1)
                || sh.db.sends[g.sendId].expiresAt <= Unix(now)
                || (call.picked[g.sendId].status.Creating? && sh.db.sends[g.sendId].status.Finalized?))
  {
    hide InvShared;
    var g, id := sh.db.grants[h], sh.db.grants[h].sendId;
    var now := GrantOfRow(cfg, sh, h);
    var row := call.picked[id];
    if PastConsumption(row, call.now, cfg.grantTtl) {
      ClausesWithinASecond(now, cfg.grantTtl, call.now);
      ClausesAgreeIff(cfg.grantTtl);
      assert ClauseMatches(now, cfg.grantTtl, call.now);
    }
  }

  /** At `now` the grant is accepted, with the second that a fractional TTL may cost, and
      its send has not expired. */
  predicate StillGood(cfg: Config, db: Db, h: string, now: int) {
    && h in db.grants && db.grants[h].sendId in db.sends
    && db.grants[h].expiresAt > Unix(if cfg.grantTtl % SECOND == 0 then now else now + SECOND - 1)
    && db.sends[db.grants[h].sendId].expiresAt > Unix(now)
  }

  /** Exactly when reaping takes a grant that is still good: the DELETE removes it if and
      only if its send was selected as unfinished and finalized before the DELETE. */
  lemma GrantLostIff(cfg: Config, s: State, c: CallId, pick: string, h: string)
    requires Inv(cfg, s) && Enabled(s, Advance(c, pick)) && s.calls[c].ReapDelete?
    requires StillGood(cfg, s.sh.db, h, s.calls[c].now)
    ensures Removes(s, Apply(cfg, s, Advance(c, pick)), h) <==> FinalizedMeanwhile(cfg, s, c, s.sh.db.grants[h].sendId)
  {
    hide InvShared;
    var a := Advance(c, pick);
    assert Apply(cfg, s, a).sh.db == DeleteSends(s.sh.db, s.calls[c].picked.Keys);
    hide Apply;
    if Removes(s, Apply(cfg, s, a), h) { GrantSurvival(cfg, s, a, h); }
  }

  /** The same for any row: the DELETE takes a send that matches none of the three clauses
      any more if and only if it was selected as unfinished, has been finalized since, and
      is neither expired nor past its consumption. */
  lemma SparedRowIff(cfg: Config, sh: Shared, c: CallId, call: Call, id: string)
    requires InvShared(cfg, sh) && InvCall(cfg, sh, c, call) && call.ReapDelete?
    requires id in call.picked && id in sh.db.sends
    ensures id !in DeleteSends(sh.db, call.picked.Keys).sends
    ensures var row := sh.db.sends[id];
            !Reapable(row, call.now, cfg.grantTtl) <==>
              && call.picked[id].status.Creating? && row.status.Finalized?
              && !PastExpiry(row, call.now) && !PastConsumption(row, call.now, cfg.grantTtl)
  {
    hide IdsOk, PartsOk, CompleteOk, WinnerOk, EventsOk, GrantsOk, BlobsOk, DeliveredOk;
  }

  // ------------------------------------------------------ from the SELECT to the DELETE

  /** What the call `c` selected at `now` is what it will delete. */
  predicate ReapProgress(s: State, c: CallId, now: int, picked: map<string, SendRow>) {
    c in s.calls ==>
      || s.calls[c] == ReapKeys(now, picked)
      || (s.calls[c].ReapDelete? && s.calls[c].now == now && s.calls[c].picked == picked)
      || s.calls[c].ReapBlobs? || s.calls[c].Done?
  }

  lemma ReapProgresses(cfg: Config, s: State, a: Action, c: CallId, now: int, picked: map<string, SendRow>)
    requires Enabled(s, a) && ReapProgress(s, c, now, picked) && c < s.next
    ensures ReapProgress(Apply(cfg, s, a), c, now, picked) && c < Apply(cfg, s, a).next
  {
    hide SelectReapable, KeysOf, DeleteSends, ExecCreate, ExecPut, ExecFinalize, ExecRedeem, ExecGet, ExecSweep;
    if a.Advance? && a.c == c {
      var call := s.calls[c];
      assert Exec(cfg, s.sh, c, call, a.pick) == ExecReap(cfg, s.sh, call, a.pick);
    }
  }

  lemma FirstSelect(cfg: Config, s: State, a: Action)
    requires InvCalls(cfg, s) && Enabled(s, a) && a.Advance? && s.calls[a.c].ReapSelect?
    ensures var now := s.calls[a.c].now;
            ReapProgress(Apply(cfg, s, a), a.c, now, SelectReapable(s.sh.db, now, cfg.grantTtl))
    ensures a.c < Apply(cfg, s, a).next
  {
    hide InvCall;
  }

  lemma {:induction false} SelectionOf(cfg: Config, ss: seq<State>, acts: seq<Action>, i: nat, j: nat)
    requires IsRun(cfg, ss, acts) && i < j < |ss|
    requires acts[i].Advance? && ss[i].calls[acts[i].c].ReapSelect?
    ensures var c := acts[i].c;
            var now := ss[i].calls[c].now;
            && ReapProgress(ss[j], c, now, SelectReapable(ss[i].sh.db, now, cfg.grantTtl))
            && c < ss[j].next
    decreases j - i
  {
    if j == i + 1 {
      RunOk(cfg, ss, acts, i);
      FirstSelect(cfg, ss[i], acts[i]);
    } else {
      hide Apply, ReapProgress;
      SelectionOf(cfg, ss, acts, i, j - 1);
      var now := ss[i].calls[acts[i].c].now;
      ReapProgresses(cfg, ss[j - 1], acts[j - 1], acts[i].c, now, SelectReapable(ss[i].sh.db, now, cfg.grantTtl));
    }
  }

  /** Over a whole run: of a reaping call that selects at step `i` and deletes at step `j`,
      the DELETE removes a grant that is still good if and only if at the SELECT the send
      was an upload begun 900 seconds ago or more. */
  lemma LostAcrossRunIff(cfg: Config, ss: seq<State>, acts: seq<Action>, i: nat, j: nat, h: string)
    requires IsRun(cfg, ss, acts) && i < j < |acts|
    requires acts[i].Advance? && ss[i].calls[acts[i].c].ReapSelect?
    requires acts[j].Advance? && acts[j].c == acts[i].c && ss[j].calls[acts[i].c].ReapDelete?
    requires StillGood(cfg, ss[j].sh.db, h, ss[j].calls[acts[j].c].now)
    ensures var id, sends := ss[j].sh.db.grants[h].sendId, ss[i].sh.db.sends;
            Removes(ss[j], ss[j + 1], h) <==>
              id in sends && sends[id].status.Creating?
              && sends[id].createdAt <= ss[i].calls[acts[i].c].now / 1_000_000_000 - 900
  {
    hide InvShared, Apply, Exec;
    SelectionOf(cfg, ss, acts, i, j);
    RunOk(cfg, ss, acts, i);
    RunOk(cfg, ss, acts, j);
    GrantLostIff(cfg, ss[j], acts[j].c, acts[j].pick, h);
    assert acts[j] == Advance(acts[j].c, acts[j].pick);
    var now := GrantOfRow(cfg, ss[j].sh, h);
    var id := ss[j].sh.db.grants[h].sendId;
    if id in ss[i].sh.db.sends && ss[i].sh.db.sends[id].status.Creating? {
      UnfinishedIsUnconsumed(cfg, ss[i].sh, id);
    }
  }

  lemma UnfinishedIsUnconsumed(cfg: Config, sh: Shared, id: string)
    requires InvShared(cfg, sh) && id in sh.db.sends && sh.db.sends[id].status.Creating?
    ensures sh.db.sends[id].consumedAt.None?
  {
    hide IdsOk, PartsOk, EventsOk, GrantsOk, BlobsOk, DeliveredOk;
  }

  /** The SELECT only reads, and a call that goes on after it reads the keys next. */
  lemma SelectReads(cfg: Config, s: State, a: Action, b: Action)
    requires Enabled(s, a) && a.Advance? && s.calls[a.c].ReapSelect?
    requires b.Advance? && b.c == a.c && Enabled(Apply(cfg, s, a), b)
    ensures Apply(cfg, s, a).sh == s.sh && Apply(cfg, s, a).calls[a.c].ReapKeys?
  {
  }

  /** The keys are only read, and the DELETE is next. */
  lemma KeysRead(cfg: Config, s: State, a: Action)
    requires Enabled(s, a) && a.Advance? && s.calls[a.c].ReapKeys?
    ensures Apply(cfg, s, a).sh == s.sh && Apply(cfg, s, a).calls[a.c].ReapDelete?
    ensures Apply(cfg, s, a).calls[a.c].now == s.calls[a.c].now
  {
  }

  /** With the SELECT and the DELETE of a reaping call adjacent, no grant that is still
      good is removed: it lives until it or its send expires. */
  lemma AdjacentReapSpares(cfg: Config, ss: seq<State>, acts: seq<Action>, i: nat, h: string)
    requires IsRun(cfg, ss, acts) && i + 2 < |acts|
    requires acts[i].Advance? && ss[i].calls[acts[i].c].ReapSelect?
    requires acts[i + 1].Advance? && acts[i + 2].Advance? && acts[i + 1].c == acts[i + 2].c == acts[i].c
    requires StillGood(cfg, ss[i].sh.db, h, ss[i].calls[acts[i].c].now)
    ensures h in ss[i + 3].sh.db.grants
  {
    hide InvShared, Apply, Exec, StillGood;
    var c := acts[i].c;
    SelectReads(cfg, ss[i], acts[i], acts[i + 1]);
    KeysRead(cfg, ss[i + 1], acts[i + 1]);
    SelectionOf(cfg, ss, acts, i, i + 2);
    RunOk(cfg, ss, acts, i);
    LostAcrossRunIff(cfg, ss, acts, i, i + 2, h);
    assert h in ss[i].sh.db.grants by { GoodIsThere(cfg, ss[i].sh.db, h, ss[i].calls[c].now); }
    var now := GrantOfRow(cfg, ss[i].sh, h);
  }

  lemma GoodIsThere(cfg: Config, db: Db, h: string, now: int)
    requires StillGood(cfg, db, h, now)
    ensures h in db.grants
  {
  }

  /** The redemption behind a grant row. */
  lemma GrantOfRow(cfg: Config, sh: Shared, h: string) returns (now: int)
    requires InvShared(cfg, sh) && h in sh.db.grants
    ensures var g := sh.db.grants[h];
            && g == NewGrantRow(g.sendId, now, cfg.grantTtl) && g.sendId in sh.db.sends
            && var row := sh.db.sends[g.sendId];
               row.status.Finalized? && (row.oneTime ==> row.consumedAt == Some(Unix(now)))
  {
    hide IdsOk, PartsOk, BlobsOk, DeliveredOk;
    var g := sh.db.grants[h];
    var e :| e in sh.hist.granted && GrantFrom(cfg, h, g, e);
    now := e.now;
  }
}
