/** When a token is accepted, over runs: by the redemption that issued its grant, and the
    clock when that redemption began. */
module Acceptance {
  import opened Records
  import opened Sql
  import opened Protocol
  import opened Invariants
  import opened Steps
  import opened Redemption
  import opened Origins

  // ------------------------------------------------------------------- grant rows

  /** Step `j` inserts the grant row of the hash `h` for the send `id`, in a RedeemSend that
      step `b` began. */
  ghost predicate Issues(cfg: Config, ss: seq<State>, acts: seq<Action>, b: nat, j: nat, id: string, h: string) {
    && b < j < |acts| < |ss|
    && acts[b].Begin? && acts[b].req.ReqRedeem? && acts[b].req.sendId == id && cfg.tokenSha(acts[b].req.token) == h
    && acts[j].Advance? && acts[j].c == ss[b].next
    && h !in ss[j].sh.db.grants && h in ss[j + 1].sh.db.grants
  }

  /** The row is in the table in every state after step `j` up to state `i`. */
  ghost predicate Stays(ss: seq<State>, j: nat, i: nat, h: string) {
    i < |ss| && forall k :: j < k <= i ==> h in ss[k].sh.db.grants
  }

  lemma InsertedRow(cfg: Config, s: State, a: Action, h: string)
    requires Enabled(s, a) && a.Advance? && s.calls[a.c].RedInsert?
    requires h !in s.sh.db.grants && h in Apply(cfg, s, a).sh.db.grants
    ensures var call := s.calls[a.c];
            && h == cfg.tokenSha(call.token)
            && Apply(cfg, s, a).sh.db.grants[h] ==
               GrantRow(call.sendId, call.now / 1_000_000_000, (call.now + cfg.grantTtl) / 1_000_000_000)
  {
    assert Exec(cfg, s.sh, a.c, s.calls[a.c], a.pick) == ExecRedeem(cfg, s.sh, a.c, s.calls[a.c]);
  }

  /** Every grant row was inserted by a RedeemSend of its send, has not been away since, and
      holds the times of that call's beginning. */
  lemma {:induction false} GrantIssued(cfg: Config, ss: seq<State>, acts: seq<Action>, i: nat, h: string)
    returns (b: nat, j: nat)
    requires IsRun(cfg, ss, acts) && i < |ss| && h in ss[i].sh.db.grants
    ensures j < i && Issues(cfg, ss, acts, b, j, ss[i].sh.db.grants[h].sendId, h) && Stays(ss, j, i, h)
    ensures ss[i].sh.db.grants[h] ==
              GrantRow(ss[i].sh.db.grants[h].sendId, ss[b].sh.clock / 1_000_000_000,
                       (ss[b].sh.clock + cfg.grantTtl) / 1_000_000_000)
  {
    hide Exec, Inv;
    assert i > 0;
    var s, a := ss[i - 1], acts[i - 1];
    RunOk(cfg, ss, acts, i - 1);
    if a.Advance? { GrantRowsInv(cfg, s, a); }
    if h in s.sh.db.grants {
      b, j := GrantIssued(cfg, ss, acts, i - 1, h);
    } else {
      InsertedRow(cfg, s, a, h);
      var req;
      b, req := Origin(cfg, ss, acts, i - 1, a.c);
      j := i - 1;
    }
  }

  lemma GrantRowsInv(cfg: Config, s: State, a: Action)
    requires Inv(cfg, s) && Enabled(s, a) && a.Advance?
    ensures GrantEffect(cfg, s.sh, a.c, s.calls[a.c], Exec(cfg, s.sh, a.c, s.calls[a.c], a.pick))
  {
    GrantRows(cfg, s.sh, a.c, s.calls[a.c], a.pick);
  }

  // ---------------------------------------------------------------- when a grant counts

  /** A token with the hash `h`, presented for the send `id` at step `i`: its grant, begun at
      step `b` and inserted at step `j`, is still there and has not run out. */
  ghost predicate Vouches(cfg: Config, ss: seq<State>, acts: seq<Action>, b: nat, j: nat, i: nat, id: string,
      h: string) {
    && j < i && Issues(cfg, ss, acts, b, j, id, h) && Stays(ss, j, i, h)
    && ss[i].sh.clock / 1_000_000_000 < (ss[b].sh.clock + cfg.grantTtl) / 1_000_000_000
  }

  /** A GetPart passes the validation of its token if and only if a RedeemSend of the same
      send inserted a grant for a token with that hash, no reaping has removed it since, and
      the clock is still before the grant TTL from the instant that RedeemSend began, both
      in whole seconds. Otherwise it ends with ErrInvalidGrant. */
  lemma AcceptedIff(cfg: Config, ss: seq<State>, acts: seq<Action>, i: nat, id: string, p: string, token: string)
    requires IsRun(cfg, ss, acts) && i < |acts| && acts[i].Advance?
    requires acts[i].c in ss[i].calls && ss[i].calls[acts[i].c] == GetValidate(id, p, token)
    ensures acts[i].c in ss[i + 1].calls
    ensures ss[i + 1].calls[acts[i].c] == GetDeclared(id, p, token) <==>
        exists b: nat, j: nat :: Vouches(cfg, ss, acts, b, j, i, id, cfg.tokenSha(token))
    ensures ss[i + 1].calls[acts[i].c] in {GetDeclared(id, p, token), Done(Failed(ErrInvalidGrant))}
  {
    var h, sh, c := cfg.tokenSha(token), ss[i].sh, acts[i].c;
    var next := ExecGet(cfg, sh, GetValidate(id, p, token)).call;
    assert ss[i + 1].calls[c] == next;
    hide Exec, Issues, Stays, Apply;
    if h in sh.db.grants {
      var b, j := GrantIssued(cfg, ss, acts, i, h);
      if next.GetDeclared? {
        assert Vouches(cfg, ss, acts, b, j, i, id, h);
      } else if b', j' :| Vouches(cfg, ss, acts, b', j', i, id, h) {
        IssuedOnce(cfg, ss, acts, b, j, b', j', i, sh.db.grants[h].sendId, id, h);
      }
    } else if b', j' :| Vouches(cfg, ss, acts, b', j', i, id, h) {
      IsThere(ss, j', i, h);
    }
  }

  lemma IsThere(ss: seq<State>, j: nat, i: nat, h: string)
    requires j < i && Stays(ss, j, i, h)
    ensures h in ss[i].sh.db.grants
  {
  }

  lemma IssuedOnce(cfg: Config, ss: seq<State>, acts: seq<Action>, b: nat, j: nat, b': nat, j': nat, i: nat,
      id: string, id': string, h: string)
    requires IsRun(cfg, ss, acts) && j < i && j' < i
    requires Issues(cfg, ss, acts, b, j, id, h) && Stays(ss, j, i, h)
    requires Issues(cfg, ss, acts, b', j', id', h) && Stays(ss, j', i, h)
    ensures b == b' && j == j' && id == id'
  {
    assert j == j';
    BeganOnce(cfg, ss, acts, b, b', acts[j].c, acts[b].req, acts[b'].req);
  }
}
