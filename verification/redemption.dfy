/** One-time redemption under any number of concurrent calls, crashes and sweeps. */
module Redemption {
  import opened Records
  import opened Sql
  import opened Protocol
  import opened Invariants
  import opened Steps
  import opened Later

  // ------------------------------------------------------------ at most one grant

  /** The step from `s` to `s'` inserts a grant for `id`. */
  ghost predicate InsertsGrant(s: State, s': State, id: string) {
    exists h :: h in s'.sh.db.grants && h !in s.sh.db.grants && s'.sh.db.grants[h].sendId == id
  }

  /** Only a redemption's INSERT adds a grant, and it is logged; only a reaping DELETE of
      its send removes one; and none is ever altered. */
  ghost predicate GrantEffect(cfg: Config, sh: Shared, c: CallId, call: Call, n: Next) {
    && (forall h :: h in n.sh.db.grants && h !in sh.db.grants ==>
          && call.RedInsert? && h == cfg.tokenSha(call.token) && n.sh.db.grants[h].sendId == call.sendId
          && n.sh.hist.granted == sh.hist.granted + {GrantEvent(c, call.sendId, call.token, call.now)})
    && (forall h :: h in sh.db.grants && h !in n.sh.db.grants ==>
        call.ReapDelete? && sh.db.grants[h].sendId in call.picked)
    && (forall h :: h in sh.db.grants && h in n.sh.db.grants ==> n.sh.db.grants[h] == sh.db.grants[h])
  }

  lemma GrantRows(cfg: Config, sh: Shared, c: CallId, call: Call, pick: string)
    requires Ready(call, pick) && InvShared(cfg, sh)
    ensures GrantEffect(cfg, sh, c, call, Exec(cfg, sh, c, call, pick))
  {
    hide InvShared, GrantEffect, ExecCreate, ExecRedeem, ExecReap;
    if call.CreateTx? {
      CreateGrants(cfg, sh, call);
      SameGrants(cfg, sh, c, call, ExecCreate(sh, call));
    } else if call.RedLoad? || call.RedConsume? || call.RedInsert? || call.RedParts? {
      RedeemGrants(cfg, sh, c, call);
    } else if call.ReapSelect? || call.ReapKeys? || call.ReapDelete? || call.ReapBlobs? {
      ReapGrants(cfg, sh, c, call, pick);
    } else {
      OtherGrants(cfg, sh, c, call, pick);
      SameGrants(cfg, sh, c, call, Exec(cfg, sh, c, call, pick));
    }
  }

  lemma SameGrants(cfg: Config, sh: Shared, c: CallId, call: Call, n: Next)
    requires n.sh.db.grants == sh.db.grants
    ensures GrantEffect(cfg, sh, c, call, n)
  {
  }

  lemma RedeemGrants(cfg: Config, sh: Shared, c: CallId, call: Call)
    requires call.RedLoad? || call.RedConsume? || call.RedInsert? || call.RedParts?
    ensures GrantEffect(cfg, sh, c, call, ExecRedeem(cfg, sh, c, call))
  {
  }

  lemma ReapGrants(cfg: Config, sh: Shared, c: CallId, call: Call, pick: string)
    requires call.ReapSelect? || call.ReapKeys? || call.ReapDelete? || call.ReapBlobs?
    requires Ready(call, pick)
    ensures GrantEffect(cfg, sh, c, call, ExecReap(cfg, sh, call, pick))
  {
    hide SelectReapable, KeysOf;
  }

  lemma OtherGrants(cfg: Config, sh: Shared, c: CallId, call: Call, pick: string)
    requires Ready(call, pick) && !call.CreateTx?
    requires !call.RedLoad? && !call.RedConsume? && !call.RedInsert? && !call.RedParts?
    requires !call.ReapSelect? && !call.ReapKeys? && !call.ReapDelete? && !call.ReapBlobs?
    ensures Exec(cfg, sh, c, call, pick).sh.db.grants == sh.db.grants
  {
    hide UploadedParts, LiveKeys, Missing;
  }

  lemma CreateGrants(cfg: Config, sh: Shared, call: Call)
    requires call.CreateTx? && InvShared(cfg, sh)
    ensures ExecCreate(sh, call).sh.db.grants == sh.db.grants
  {
    if call.id !in sh.db.sends && DistinctIds(call.input.parts) {
      var d := InsertSend(sh.db, call.id, NewSendRow(call.input, call.now)).value;
      assert forall k :: k in sh.db.parts ==> k.0 in sh.db.sends;
      InsertPartsEffect(d, call.id, call.input.parts);
    } else {
      CreateFails(cfg, sh, call);
    }
  }

  /** A step that inserts a grant adds a new event for its send. */
  lemma InsertIsLogged(cfg: Config, s: State, a: Action, id: string) returns (e: GrantEvent)
    requires Inv(cfg, s) && Enabled(s, a) && InsertsGrant(s, Apply(cfg, s, a), id)
    ensures e in Apply(cfg, s, a).sh.hist.granted && e !in s.sh.hist.granted && e.sendId == id
  {
    hide InvShared, Exec;
    var h :| h in Apply(cfg, s, a).sh.db.grants && h !in s.sh.db.grants
        && Apply(cfg, s, a).sh.db.grants[h].sendId == id;
    GrantRows(cfg, s.sh, a.c, s.calls[a.c], a.pick);
    e := GrantEvent(a.c, id, s.calls[a.c].token, s.calls[a.c].now);
  }

  /** A one-time send is granted at most once, ever: in no run, however its calls
      interleave and wherever it crashes, do two different steps insert a grant for the
      same one-time send. */
  lemma AtMostOneGrant(cfg: Config, ss: seq<State>, acts: seq<Action>, i: nat, j: nat, id: string)
    requires IsRun(cfg, ss, acts) && i <= j < |acts|
    requires OneTime(ss[j].sh.hist.created, id)
    requires InsertsGrant(ss[i], ss[i + 1], id) && InsertsGrant(ss[j], ss[j + 1], id)
    ensures i == j
  {
    hide InvShared, InvCalls, Apply, InsertsGrant;
    if i < j {
      RunOk(cfg, ss, acts, i);
      RunOk(cfg, ss, acts, j);
      RunOk(cfg, ss, acts, j + 1);
      var e := InsertIsLogged(cfg, ss[i], acts[i], id);
      var f := InsertIsLogged(cfg, ss[j], acts[j], id);
      RunLater(cfg, ss, acts, i + 1, j);
      RunLater(cfg, ss, acts, j, j + 1);
      OneEvent(cfg, ss[j + 1].sh, id, e, f);
    }
  }

  lemma OneEvent(cfg: Config, sh: Shared, id: string, e: GrantEvent, f: GrantEvent)
    requires InvShared(cfg, sh) && OneTime(sh.hist.created, id)
    requires e in sh.hist.granted && f in sh.hist.granted && e.sendId == id && f.sendId == id
    ensures e == f
  {
  }

  // ----------------------------------------------------------- exactly one of many

  predicate Redeeming(call: Call, id: string) {
    (call.RedLoad? || call.RedConsume? || call.RedInsert? || call.RedParts?) && call.sendId == id
  }

  predicate Waiting(call: Call, id: string, expiresAt: int) {
    (call.RedLoad? || call.RedConsume?) && call.sendId == id && Unix(call.now) < expiresAt
  }

  predicate Winning(call: Call, id: string) {
    || ((call.RedInsert? || call.RedParts?) && call.sendId == id)
    || (call.Done? && call.reply.Granted?)
  }

  predicate Lost(call: Call) {
    call == Done(Failed(ErrAlreadyRedeemed))
  }

  /** The race of the redemptions `r` for `id`: nobody has consumed the send and all are
      still waiting, or exactly one has and the rest are waiting or have been refused. */
  ghost predicate Race(s: State, id: string, r: set<CallId>) {
    && id in s.sh.db.sends
    && (forall c :: c in r ==> c in s.calls)
    && (forall c :: c in s.calls && Redeeming(s.calls[c], id) ==> c in r)
    && var row := s.sh.db.sends[id];
    && row.status.Finalized? && row.oneTime && Unix(s.sh.clock) < row.expiresAt
    && (if row.consumedAt.None? then forall c :: c in r ==> Waiting(s.calls[c], id, row.expiresAt)
        else exists w :: WonBy(s, id, r, w))
  }

  ghost predicate WonBy(s: State, id: string, r: set<CallId>, w: CallId)
    requires id in s.sh.db.sends && forall c :: c in r ==> c in s.calls
  {
    && w in r && Winning(s.calls[w], id)
    && forall c :: c in r && c != w ==> Waiting(s.calls[c], id, s.sh.db.sends[id].expiresAt) || Lost(s.calls[c])
  }

  /** No crash, no cancelled redemption, no reaping and no expiry of this send, and a
      token hash that is not in the table yet. */
  ghost predicate Undisturbed(cfg: Config, s: State, a: Action, id: string, r: set<CallId>)
    requires Enabled(s, a) && id in s.sh.db.sends
  {
    match a
    case Tick(clock) => Unix(clock) < s.sh.db.sends[id].expiresAt
    case Crash => false
    case Drop(c) => c !in r
    case Begin(_) => true
    case Advance(c, _) =>
      && (s.calls[c].ReapDelete? ==> id !in s.calls[c].picked)
      && (s.calls[c].RedInsert? ==> cfg.tokenSha(s.calls[c].token) !in s.sh.db.grants)
  }

  function Joined(s: State, a: Action, id: string, r: set<CallId>): set<CallId> {
    if a.Begin? && a.req.ReqRedeem? && a.req.sendId == id then r + {s.next} else r
  }

  /** Only its own redemption consumes a finalized send, and only reaping deletes it. */
  lemma RowUntouched(cfg: Config, sh: Shared, c: CallId, call: Call, pick: string, id: string)
    requires Ready(call, pick) && InvShared(cfg, sh)
    requires id in sh.db.sends && sh.db.sends[id].status.Finalized?
    requires !(call.RedConsume? && call.sendId == id) && (call.ReapDelete? ==> id !in call.picked)
    ensures var n := Exec(cfg, sh, c, call, pick);
            id in n.sh.db.sends && n.sh.db.sends[id] == sh.db.sends[id] && n.sh.clock == sh.clock
  {
    hide IdsOk, SendsOk, PartsOk, CompleteOk, WinnerOk, EventsOk, GrantsOk, BlobsOk, DeliveredOk;
    if call.CreateTx? { CreateSends(cfg, sh, call); }
  }

  lemma CreateSends(cfg: Config, sh: Shared, call: Call)
    requires call.CreateTx? && InvShared(cfg, sh)
    ensures forall id :: id in sh.db.sends ==>
              id in ExecCreate(sh, call).sh.db.sends && ExecCreate(sh, call).sh.db.sends[id] == sh.db.sends[id]
    ensures ExecCreate(sh, call).sh.clock == sh.clock
  {
    if call.id !in sh.db.sends && DistinctIds(call.input.parts) {
      var d := InsertSend(sh.db, call.id, NewSendRow(call.input, call.now)).value;
      assert forall k :: k in sh.db.parts ==> k.0 in sh.db.sends;
      InsertPartsEffect(d, call.id, call.input.parts);
    } else {
      CreateFails(cfg, sh, call);
    }
  }

  /** A call that is not redeeming `id` does not start to. */
  lemma NotRedeeming(cfg: Config, sh: Shared, c: CallId, call: Call, pick: string, id: string)
    requires Ready(call, pick)
    ensures Redeeming(Exec(cfg, sh, c, call, pick).call, id) ==> Redeeming(call, id)
  {
  }

  lemma RaceStep(cfg: Config, s: State, a: Action, id: string, r: set<CallId>)
    requires Inv(cfg, s) && Race(s, id, r) && Enabled(s, a) && Undisturbed(cfg, s, a, id, r)
    ensures Race(Apply(cfg, s, a), id, Joined(s, a, id, r))
  {
    hide InvShared, Exec;
    if a.Advance? {
      var c, call := a.c, s.calls[a.c];
      NotRedeeming(cfg, s.sh, c, call, a.pick, id);
      if c in r && call.RedConsume? {
        RaceConsume(cfg, s, a, id, r);
      } else {
        RowUntouched(cfg, s.sh, c, call, a.pick, id);
        RaceOther(cfg, s, a, id, r);
      }
    } else {
      RaceQuiet(cfg, s, a, id, r);
    }
  }

  lemma RaceQuiet(cfg: Config, s: State, a: Action, id: string, r: set<CallId>)
    requires InvCalls(cfg, s) && Race(s, id, r) && Enabled(s, a) && Undisturbed(cfg, s, a, id, r) && !a.Advance?
    ensures Race(Apply(cfg, s, a), id, Joined(s, a, id, r))
  {
    hide InvCall;
    var s', row := Apply(cfg, s, a), s.sh.db.sends[id];
    if row.consumedAt.Some? {
      var w :| WonBy(s, id, r, w);
      assert WonBy(s', id, Joined(s, a, id, r), w);
    }
  }

  /** The conditional UPDATE: the first one through wins, the others are refused. */
  lemma RaceConsume(cfg: Config, s: State, a: Action, id: string, r: set<CallId>)
    requires Race(s, id, r) && Enabled(s, a) && a.Advance? && a.c in r && s.calls[a.c].RedConsume?
    ensures Race(Apply(cfg, s, a), id, r)
  {
    var s', row, call := Apply(cfg, s, a), s.sh.db.sends[id], s.calls[a.c];
    assert Exec(cfg, s.sh, a.c, call, a.pick) == ExecRedeem(cfg, s.sh, a.c, call);
    if row.consumedAt.None? {
      assert WonBy(s', id, r, a.c);
    } else {
      var w :| WonBy(s, id, r, w);
      assert WonBy(s', id, Joined(s, a, id, r), w);
    }
  }

  lemma RaceOther(cfg: Config, s: State, a: Action, id: string, r: set<CallId>)
    requires Race(s, id, r) && Enabled(s, a) && Undisturbed(cfg, s, a, id, r) && a.Advance?
    requires !(a.c in r && s.calls[a.c].RedConsume?)
    requires InvShared(cfg, s.sh) && InvCall(cfg, s.sh, a.c, s.calls[a.c])
    requires var n := Exec(cfg, s.sh, a.c, s.calls[a.c], a.pick);
             && id in n.sh.db.sends && n.sh.db.sends[id] == s.sh.db.sends[id] && n.sh.clock == s.sh.clock
             && (Redeeming(n.call, id) ==> Redeeming(s.calls[a.c], id))
    ensures Race(Apply(cfg, s, a), id, r)
  {
    hide InvShared;
    var s', row, call := Apply(cfg, s, a), s.sh.db.sends[id], s.calls[a.c];
    if a.c in r {
      RedeemStep(cfg, s.sh, a.c, call, id);
      assert Exec(cfg, s.sh, a.c, call, a.pick) == ExecRedeem(cfg, s.sh, a.c, call);
    }
    hide Exec, Undisturbed, InvCall;
    if row.consumedAt.Some? {
      var w :| WonBy(s, id, r, w);
      assert WonBy(s', id, Joined(s, a, id, r), w);
    }
  }

  /** The steps of a redemption of this send other than the UPDATE. */
  lemma RedeemStep(cfg: Config, sh: Shared, c: CallId, call: Call, id: string)
    requires call.RedLoad? || call.RedInsert? || call.RedParts?
    requires call.sendId == id && id in sh.db.sends && sh.db.sends[id].status.Finalized? && sh.db.sends[id].oneTime
    requires call.RedInsert? ==> cfg.tokenSha(call.token) !in sh.db.grants
    ensures var n := ExecRedeem(cfg, sh, c, call);
            && (Waiting(call, id, sh.db.sends[id].expiresAt) ==> Waiting(n.call, id, sh.db.sends[id].expiresAt))
            && (Winning(call, id) ==> Winning(n.call, id))
  {
  }

  /** The redemptions of `id` that were started in the first `i` steps. */
  function Starters(ss: seq<State>, acts: seq<Action>, id: string, i: nat): set<CallId>
    requires i <= |acts| < |ss|
  {
    if i == 0 then {} else Joined(ss[i - 1], acts[i - 1], id, Starters(ss, acts, id, i - 1))
  }

  /** From a state with a finalized, unconsumed, unexpired one-time send and no redemption
      of it under way, let any number of redemptions run in any interleaving with anything
      else, undisturbed. Once all of them are done, and there was at least one, exactly one
      holds a grant and every other was refused as already redeemed. */
  lemma ExactlyOneWins(cfg: Config, ss: seq<State>, acts: seq<Action>, id: string)
    requires |ss| == |acts| + 1 && Inv(cfg, ss[0])
    requires forall i :: 0 <= i < |acts| ==> Enabled(ss[i], acts[i]) && ss[i + 1] == Apply(cfg, ss[i], acts[i])
    requires Race(ss[0], id, {}) && ss[0].sh.db.sends[id].consumedAt.None?
    requires forall i :: 0 <= i < |acts| ==>
               id in ss[i].sh.db.sends && Undisturbed(cfg, ss[i], acts[i], id, Starters(ss, acts, id, i))
    requires var r := Starters(ss, acts, id, |acts|);
             r != {} && forall c :: c in r && c in ss[|acts|].calls ==> ss[|acts|].calls[c].Done?
    ensures var r, calls := Starters(ss, acts, id, |acts|), ss[|acts|].calls;
            exists w :: w in r && w in calls && calls[w].Done? && calls[w].reply.Granted? &&
              (forall c :: c in r && c != w ==> c in calls && calls[c] == Done(Failed(ErrAlreadyRedeemed)))
  {
    hide Inv, Race, Apply, Undisturbed;
    RaceRuns(cfg, ss, acts, id, |acts|);
    RaceOver(ss[|acts|], id, Starters(ss, acts, id, |acts|));
  }

  lemma RaceOver(s: State, id: string, r: set<CallId>)
    requires Race(s, id, r) && r != {} && forall c :: c in r && c in s.calls ==> s.calls[c].Done?
    ensures exists w :: w in r && w in s.calls && s.calls[w].Done? && s.calls[w].reply.Granted? &&
              (forall c :: c in r && c != w ==> c in s.calls && s.calls[c] == Done(Failed(ErrAlreadyRedeemed)))
  {
    var c :| c in r;
    assert s.calls[c].Done?;
    assert s.sh.db.sends[id].consumedAt.Some?;
    var w :| WonBy(s, id, r, w);
    assert s.calls[w].reply.Granted?;
  }

  lemma {:induction false} RaceRuns(cfg: Config, ss: seq<State>, acts: seq<Action>, id: string, i: nat)
    requires |ss| == |acts| + 1 && i <= |acts| && Inv(cfg, ss[0])
    requires forall k :: 0 <= k < |acts| ==> Enabled(ss[k], acts[k]) && ss[k + 1] == Apply(cfg, ss[k], acts[k])
    requires Race(ss[0], id, {})
    requires forall k :: 0 <= k < |acts| ==>
               id in ss[k].sh.db.sends && Undisturbed(cfg, ss[k], acts[k], id, Starters(ss, acts, id, k))
    ensures Inv(cfg, ss[i]) && Race(ss[i], id, Starters(ss, acts, id, i))
  {
    hide Inv, Race, Apply, Undisturbed;
    if i > 0 {
      RaceRuns(cfg, ss, acts, id, i - 1);
      StepOk(cfg, ss[i - 1], acts[i - 1]);
      RaceStep(cfg, ss[i - 1], acts[i - 1], id, Starters(ss, acts, id, i - 1));
    }
  }
}
