/** Concrete runs from the empty server: the two interleavings that other theorems exclude
    by hypothesis can happen, and so can the race that redemption is proved to survive. */
module Gaps {
  import opened Records
  import opened Sql
  import opened Protocol
  import opened Publication
  import opened Sweeping

  lemma {:induction false} Then(cfg: Config, s: State, xs: seq<Action>, ys: seq<Action>)
    requires CanRun(cfg, s, xs) && CanRun(cfg, RunFrom(cfg, s, xs), ys)
    ensures CanRun(cfg, s, xs + ys) && RunFrom(cfg, s, xs + ys) == RunFrom(cfg, RunFrom(cfg, s, xs), ys)
    decreases |xs|
  {
    hide Apply, Enabled;
    if |xs| == 0 {
      assert xs + ys == ys;
    } else {
      Then(cfg, Apply(cfg, s, xs[0]), xs[1..], ys);
      assert (xs + ys)[1..] == xs[1..] + ys;
    }
  }

  lemma One(cfg: Config, s: State, a: Action)
    requires Enabled(s, a)
    ensures CanRun(cfg, s, [a]) && RunFrom(cfg, s, [a]) == Apply(cfg, s, a)
  {
    hide Apply, Enabled;
    assert [a][1..] == [];
  }

  lemma Two(cfg: Config, s: State, a: Action, b: Action)
    requires Enabled(s, a) && Enabled(Apply(cfg, s, a), b)
    ensures CanRun(cfg, s, [a, b]) && RunFrom(cfg, s, [a, b]) == Apply(cfg, Apply(cfg, s, a), b)
  {
    hide Apply, Enabled;
    One(cfg, s, a);
    One(cfg, Apply(cfg, s, a), b);
    Then(cfg, s, [a], [b]);
    assert [a] + [b] == [a, b];
  }

  /** The calls that `s` has in flight are still where they were in `t`. */
  ghost predicate Left(s: State, t: State) {
    && t.next > s.next && t.sh.clock == s.sh.clock
    && (forall c :: c in t.calls ==> c in s.calls || c < t.next)
    && (forall c :: c in s.calls ==> c in t.calls && t.calls[c] == s.calls[c])
  }

  /** Call identities in use are below the next one. */
  ghost predicate Numbered(s: State) {
    forall c :: c in s.calls ==> c < s.next
  }

  const ID := "a"
  const PART := "p"
  const TOKEN := "t"

  function Sample(cfg: Config): PartMeta {
    PartMeta(PART, 1, cfg.sha([0]))
  }

  function SampleInput(cfg: Config): CreateInput {
    CreateInput(true, HOUR, [Sample(cfg)])
  }

  lemma SampleInserted(cfg: Config, now: int)
    ensures CreateTransaction(EMPTY_DB, ID, SampleInput(cfg), now) ==
              Some(Db(map[ID := NewSendRow(SampleInput(cfg), now)],
                      map[(ID, PART) := NewPartRow(ID, Sample(cfg))],
                      map[]))
  {
    var parts := SampleInput(cfg).parts;
    assert parts[..0] == [] && parts[..|parts| - 1] == [];
    var d := InsertSend(EMPTY_DB, ID, NewSendRow(SampleInput(cfg), now)).value;
    assert InsertParts(d, ID, []) == Some(d);
  }

  /** The sample send is created on an empty server. */
  lemma CreateSteps(cfg: Config, s: State)
    requires s.sh.db == EMPTY_DB && s.sh.hist == NO_HISTORY && Numbered(s)
    ensures var acts := [Begin(ReqCreate(ID, SampleInput(cfg))), Advance(s.next, "")];
            && CanRun(cfg, s, acts)
            && var t := RunFrom(cfg, s, acts);
               && t.sh.db.sends == map[ID := NewSendRow(SampleInput(cfg), s.sh.clock)]
               && t.sh.db.parts == map[(ID, PART) := NewPartRow(ID, Sample(cfg))] && t.sh.db.grants == map[]
               && t.sh.blobs == s.sh.blobs && Left(s, t) && Numbered(t)
  {
    var a, b := Begin(ReqCreate(ID, SampleInput(cfg))), Advance(s.next, "");
    SampleInserted(cfg, s.sh.clock);
    var s1 := Apply(cfg, s, a);
    assert s1.calls[s.next] == CreateTx(ID, SampleInput(cfg), s.sh.clock);
    hide CreateTransaction;
    Two(cfg, s, a, b);
  }

  /** A sweep starts on the empty server and reads no live key. */
  lemma SweepSteps(cfg: Config)
    ensures var acts := [Begin(ReqSweep), Advance(0, "")];
            && CanRun(cfg, INIT, acts)
            && var t := RunFrom(cfg, INIT, acts); t.sh == INIT.sh && t.calls == map[0 := SweepList({})] && t.next == 1
  {
    assert LiveKeys(EMPTY_DB) == {};
    Two(cfg, INIT, Begin(ReqSweep), Advance(0, ""));
  }

  /** The sample part is uploaded to the send just created. */
  lemma SampleUploaded(cfg: Config, s: State) returns (acts: seq<Action>)
    requires 1 <= cfg.maxPartBytes < MAX_INT64 && Numbered(s)
    requires s.sh.db.parts == map[(ID, PART) := NewPartRow(ID, Sample(cfg))]
    requires ID in s.sh.db.sends && s.sh.db.sends[ID].status.Creating? && s.sh.blobs == map[]
    ensures CanRun(cfg, s, acts)
    ensures var t := RunFrom(cfg, s, acts);
            && t.sh.db.sends == s.sh.db.sends && t.sh.db.grants == s.sh.db.grants
            && (forall k :: k in t.sh.db.parts <==> k == (ID, PART))
            && t.sh.db.parts[(ID, PART)].uploadedAt.Some?
            && t.sh.blobs == map[StorageKey(ID, PART) := [0]] && Left(s, t) && Numbered(t)
  {
    assert Fits(cfg, [0]);
    hide Apply, Enabled, Guarded, Fits;
    acts := UploadSteps(cfg, s, ID, PART, [0]);
  }

  /** A sweep that reads the live keys before the send is created, and lists the blobs
      after its part is uploaded, leaves a part marked uploaded without its blob. */
  lemma StaleListingLosesUpload(cfg: Config) returns (acts: seq<Action>)
    requires 1 <= cfg.maxPartBytes < MAX_INT64
    ensures CanRun(cfg, INIT, acts) && !Published(RunFrom(cfg, INIT, acts).sh)
  {
    hide Apply, Enabled;
    var key := StorageKey(ID, PART);
    var sweep := [Begin(ReqSweep), Advance(0, "")];
    SweepSteps(cfg);
    var s1 := RunFrom(cfg, INIT, sweep);
    CreateSteps(cfg, s1);
    var create := [Begin(ReqCreate(ID, SampleInput(cfg))), Advance(1, "")];
    var s2 := RunFrom(cfg, s1, create);
    var upload := SampleUploaded(cfg, s2);
    var s3 := RunFrom(cfg, s2, upload);
    var unlink := [Advance(0, ""), Advance(0, key)];
    LateUnlink(cfg, s3, key);
    hide RunFrom, CanRun;
    Then(cfg, INIT, sweep, create);
    Then(cfg, INIT, sweep + create, upload);
    Then(cfg, INIT, sweep + create + upload, unlink);
    acts := sweep + create + upload + unlink;
  }

  lemma LateUnlink(cfg: Config, s: State, key: string)
    requires 0 in s.calls && s.calls[0] == SweepList({}) && key in s.sh.blobs
    ensures var acts := [Advance(0, ""), Advance(0, key)];
            && CanRun(cfg, s, acts)
            && RunFrom(cfg, s, acts).sh == s.sh.(blobs := s.sh.blobs - {key})
  {
    var s1 := Apply(cfg, s, Advance(0, ""));
    assert s1.calls[0] == SweepBlobs(s.sh.blobs.Keys, {}, 0);
    Two(cfg, s, Advance(0, ""), Advance(0, key));
  }

  // ------------------------------------------------------------- a reap that is late

  function Moved(s: State, c: CallId, n: Next): State {
    s.(sh := n.sh, calls := s.calls[c := n.call])
  }

  lemma Stepped(cfg: Config, s: State, c: CallId, call: Call, n: Next)
    requires c in s.calls && s.calls[c] == call && Ready(call, "") && n == Exec(cfg, s.sh, c, call, "")
    ensures Enabled(s, Advance(c, "")) && Apply(cfg, s, Advance(c, "")) == Moved(s, c, n)
  {
    hide Exec;
  }

  /** A new call and its first three steps. */
  lemma ThreeSteps(cfg: Config, s: State, req: Request, n1: Next, n2: Next, n3: Next)
    requires Numbered(s) && !req.ReqCreate?
    requires Ready(Start(req, s.sh.clock), "") && Ready(n1.call, "") && Ready(n2.call, "")
    requires n1 == Exec(cfg, s.sh, s.next, Start(req, s.sh.clock), "")
    requires n2 == Exec(cfg, n1.sh, s.next, n1.call, "")
    requires n3 == Exec(cfg, n2.sh, s.next, n2.call, "")
    requires n3.sh.clock == s.sh.clock
    ensures var acts := [Begin(req), Advance(s.next, "")] + [Advance(s.next, ""), Advance(s.next, "")];
            && CanRun(cfg, s, acts)
            && var t := RunFrom(cfg, s, acts); t.sh == n3.sh && Left(s, t) && Numbered(t)
  {
    hide Exec, Start, Ready;
    var begin, go, c := Begin(req), Advance(s.next, ""), s.next;
    var s1 := Apply(cfg, s, begin);
    assert Enabled(s, begin) && s1.calls == s.calls[c := Start(req, s.sh.clock)] && s1.sh == s.sh;
    hide Apply, Enabled;
    Stepped(cfg, s1, c, Start(req, s.sh.clock), n1);
    var s2 := Moved(s1, c, n1);
    Stepped(cfg, s2, c, n1.call, n2);
    var s3 := Moved(s2, c, n2);
    Stepped(cfg, s3, c, n2.call, n3);
    Two(cfg, s, begin, go);
    Two(cfg, s2, go, go);
    Then(cfg, s, [begin, go], [go, go]);
  }

  /** The sample send, complete, is finalized. */
  lemma FinalizeSteps(cfg: Config, s: State) returns (acts: seq<Action>)
    requires Numbered(s) && ID in s.sh.db.sends && s.sh.db.sends[ID].status.Creating?
    requires forall k :: k in s.sh.db.parts ==> s.sh.db.parts[k].uploadedAt.Some?
    ensures CanRun(cfg, s, acts)
    ensures var t := RunFrom(cfg, s, acts);
            && t.sh.db == FinalizeUpdate(s.sh.db, ID, s.sh.clock) && Left(s, t) && Numbered(t)
  {
    assert Missing(s.sh.db, ID) == {};
    var hist := s.sh.hist.(complete := s.sh.hist.complete[ID := UploadedParts(s.sh.db, ID)]);
    var done := s.sh.(db := FinalizeUpdate(s.sh.db, ID, s.sh.clock), hist := hist);
    hide FinalizeUpdate, Missing, UploadedParts, Apply, Enabled;
    ThreeSteps(cfg, s, ReqFinalize(ID),
               Next(s.sh, FinCount(ID)), Next(s.sh, FinUpdate(ID)), Next(done, Done(FinalizedOk)));
    acts := [Begin(ReqFinalize(ID)), Advance(s.next, "")] + [Advance(s.next, ""), Advance(s.next, "")];
  }

  /** The sample send, finalized, is redeemed: the grant is in the table. */
  lemma RedeemSteps(cfg: Config, s: State) returns (acts: seq<Action>)
    requires Numbered(s) && ConsumeMatches(s.sh.db, ID, s.sh.clock) && s.sh.db.grants == map[]
    ensures CanRun(cfg, s, acts)
    ensures var t := RunFrom(cfg, s, acts);
            && t.sh.db.sends == ConsumeUpdate(s.sh.db, ID, s.sh.clock).sends && t.sh.db.parts == s.sh.db.parts
            && t.sh.db.grants == map[cfg.tokenSha(TOKEN) := NewGrantRow(ID, s.sh.clock, cfg.grantTtl)]
            && Left(s, t) && Numbered(t)
  {
    hide Apply, Enabled;
    var c, now := s.next, s.sh.clock;
    var n1 := Exec(cfg, s.sh, c, RedLoad(ID, TOKEN, now), "");
    assert n1 == Next(s.sh, RedConsume(ID, TOKEN, now));
    var n2 := Exec(cfg, s.sh, c, n1.call, "");
    assert n2.call == RedInsert(ID, TOKEN, now) && n2.sh.db == ConsumeUpdate(s.sh.db, ID, now) && n2.sh.clock == now;
    var n3 := Exec(cfg, n2.sh, c, n2.call, "");
    assert n3.sh.db == n2.sh.db.(grants := map[cfg.tokenSha(TOKEN) := NewGrantRow(ID, now, cfg.grantTtl)])
        && n3.sh.clock == now;
    ThreeSteps(cfg, s, ReqRedeem(ID, TOKEN), n1, n2, n3);
    acts := [Begin(ReqRedeem(ID, TOKEN)), Advance(c, "")] + [Advance(c, ""), Advance(c, "")];
  }

  /** A reaping call selects the sample send while it is unfinished and too old. */
  lemma SelectSteps(cfg: Config, s: State)
    requires Numbered(s) && s.sh.clock == 0
    requires s.sh.db.sends == map[ID := NewSendRow(SampleInput(cfg), 0)]
    ensures var acts := [Tick(CREATING_MAX_AGE), Begin(ReqReap)] + [Advance(s.next, "")];
            && CanRun(cfg, s, acts)
            && var t := RunFrom(cfg, s, acts);
               && t.sh == s.sh.(clock := CREATING_MAX_AGE) && Numbered(t) && s.next in t.calls
               && t.calls[s.next] == ReapKeys(CREATING_MAX_AGE, s.sh.db.sends)
  {
    var tick, begin, go := Tick(CREATING_MAX_AGE), Begin(ReqReap), Advance(s.next, "");
    var s1 := Apply(cfg, s, tick);
    var s2 := Apply(cfg, s1, begin);
    var row := s.sh.db.sends[ID];
    assert StaleCreating(row, CREATING_MAX_AGE);
    assert SelectReapable(s.sh.db, CREATING_MAX_AGE, cfg.grantTtl) == s.sh.db.sends;
    assert |s.sh.db.sends| == 1;
    Two(cfg, s, tick, begin);
    One(cfg, s2, go);
    Then(cfg, s, [tick, begin], [go]);
  }

  /** The rest of the reaping call deletes the send whatever has become of it. */
  lemma DeleteSteps(cfg: Config, s: State, c: CallId, picked: map<string, SendRow>)
    requires c in s.calls && s.calls[c] == ReapKeys(CREATING_MAX_AGE, picked)
    ensures var acts := [Advance(c, ""), Advance(c, "")];
            CanRun(cfg, s, acts) && RunFrom(cfg, s, acts).sh == s.sh.(db := DeleteSends(s.sh.db, picked.Keys))
  {
    var s1 := Apply(cfg, s, Advance(c, ""));
    assert s1.calls[c] == ReapDelete(CREATING_MAX_AGE, picked, KeysOf(s.sh.db, picked.Keys));
    Two(cfg, s, Advance(c, ""), Advance(c, ""));
  }

  /** A send that is selected as an abandoned upload, and then finished and redeemed
      before the DELETE, is deleted with a grant that was just issued: the token is valid,
      no time passes, and two steps later it is refused. */
  lemma LateReapLosesGrant(cfg: Config) returns (acts: seq<Action>, last: seq<Action>)
    requires 1 <= cfg.maxPartBytes < MAX_INT64 && cfg.grantTtl >= SECOND
    ensures CanRun(cfg, INIT, acts)
    ensures var t := RunFrom(cfg, INIT, acts);
            && GrantAccepted(t.sh.db, ID, cfg.tokenSha(TOKEN), t.sh.clock)
            && ID in t.sh.db.sends && t.sh.db.sends[ID].expiresAt > Unix(t.sh.clock)
            && CanRun(cfg, t, last) && |last| == 2
            && var u := RunFrom(cfg, t, last);
               u.sh.clock == t.sh.clock && !GrantAccepted(u.sh.db, ID, cfg.tokenSha(TOKEN), u.sh.clock)
  {
    hide Apply, Enabled;
    CreateSteps(cfg, INIT);
    var create := [Begin(ReqCreate(ID, SampleInput(cfg))), Advance(0, "")];
    var s1 := RunFrom(cfg, INIT, create);
    var c, picked := s1.next, s1.sh.db.sends;
    SelectSteps(cfg, s1);
    var select := [Tick(CREATING_MAX_AGE), Begin(ReqReap)] + [Advance(c, "")];
    var s2 := RunFrom(cfg, s1, select);
    var upload := SampleUploaded(cfg, s2);
    var s3 := RunFrom(cfg, s2, upload);
    var finalize := FinalizeSteps(cfg, s3);
    var s4 := RunFrom(cfg, s3, finalize);
    var redeem := RedeemSteps(cfg, s4);
    var s5 := RunFrom(cfg, s4, redeem);
    last := [Advance(c, ""), Advance(c, "")];
    DeleteSteps(cfg, s5, c, picked);
    hide RunFrom, CanRun;
    Then(cfg, INIT, create, select);
    Then(cfg, INIT, create + select, upload);
    Then(cfg, INIT, create + select + upload, finalize);
    Then(cfg, INIT, create + select + upload + finalize, redeem);
    acts := create + select + upload + finalize + redeem;
  }

  // ------------------------------------------------------- two redemptions that race

  /** A call that begins. */
  function Entered(s: State, call: Call): State {
    State(s.sh, s.calls[s.next := call], s.next + 1)
  }

  lemma Began(cfg: Config, s: State, token: string)
    ensures var req := ReqRedeem(ID, token);
            Enabled(s, Begin(req)) && Apply(cfg, s, Begin(req)) == Entered(s, RedLoad(ID, token, s.sh.clock))
  {
  }

  /** The steps of two redemptions of the sample send, the second always one behind. */
  lemma RaceNexts(cfg: Config, sh: Shared, c: CallId, d: CallId)
    requires ConsumeMatches(sh.db, ID, sh.clock) && sh.db.grants == map[]
    ensures var now := sh.clock;
            && (forall t: string, b: CallId ::
                  Exec(cfg, sh, b, RedLoad(ID, t, now), "") == Next(sh, RedConsume(ID, t, now)))
            && var won := Exec(cfg, sh, c, RedConsume(ID, TOKEN, now), "");
            && won.call == RedInsert(ID, TOKEN, now)
            && Exec(cfg, won.sh, d, RedConsume(ID, "u", now), "") == Fail(won.sh, ErrAlreadyRedeemed)
            && var put := Exec(cfg, won.sh, c, won.call, "");
            && put.call == RedParts(ID, TOKEN, now)
            && var end := Exec(cfg, put.sh, c, put.call, ""); end.call.Done? && end.call.reply.Granted?
  {
  }

  function BothEntered(s: State): State {
    Entered(Entered(s, RedLoad(ID, TOKEN, s.sh.clock)), RedLoad(ID, "u", s.sh.clock))
  }

  lemma BothBegin(cfg: Config, s: State)
    ensures var acts := [Begin(ReqRedeem(ID, TOKEN)), Begin(ReqRedeem(ID, "u"))];
            CanRun(cfg, s, acts) && RunFrom(cfg, s, acts) == BothEntered(s)
  {
    hide Apply, Enabled;
    Began(cfg, s, TOKEN);
    Began(cfg, Entered(s, RedLoad(ID, TOKEN, s.sh.clock)), "u");
    Two(cfg, s, Begin(ReqRedeem(ID, TOKEN)), Begin(ReqRedeem(ID, "u")));
  }

  lemma BothLoad(cfg: Config, s: State, c: CallId, d: CallId)
    requires ConsumeMatches(s.sh.db, ID, s.sh.clock) && s.sh.db.grants == map[]
    requires c != d && c in s.calls && d in s.calls
    requires s.calls[c] == RedLoad(ID, TOKEN, s.sh.clock) && s.calls[d] == RedLoad(ID, "u", s.sh.clock)
    ensures var acts := [Advance(c, ""), Advance(d, "")];
            && CanRun(cfg, s, acts)
            && var m := RunFrom(cfg, s, acts);
            && m.sh == s.sh && c in m.calls && d in m.calls
            && m.calls[c] == RedConsume(ID, TOKEN, s.sh.clock) && m.calls[d] == RedConsume(ID, "u", s.sh.clock)
  {
    var now := s.sh.clock;
    RaceNexts(cfg, s.sh, c, d);
    hide Apply, Enabled, Exec, ConsumeMatches;
    Stepped(cfg, s, c, s.calls[c], Next(s.sh, RedConsume(ID, TOKEN, now)));
    var s1 := Moved(s, c, Next(s.sh, RedConsume(ID, TOKEN, now)));
    Stepped(cfg, s1, d, s.calls[d], Next(s.sh, RedConsume(ID, "u", now)));
    Two(cfg, s, Advance(c, ""), Advance(d, ""));
  }

  /** Two new redemptions, both past their reads. */
  lemma BothRead(cfg: Config, s: State) returns (acts: seq<Action>)
    requires Numbered(s) && ConsumeMatches(s.sh.db, ID, s.sh.clock) && s.sh.db.grants == map[]
    ensures CanRun(cfg, s, acts)
    ensures var m, c, d := RunFrom(cfg, s, acts), s.next, s.next + 1;
            && m.sh == s.sh && c in m.calls && d in m.calls
            && m.calls[c] == RedConsume(ID, TOKEN, s.sh.clock) && m.calls[d] == RedConsume(ID, "u", s.sh.clock)
  {
    hide Apply, Enabled, CanRun, RunFrom, ConsumeMatches;
    var begin := [Begin(ReqRedeem(ID, TOKEN)), Begin(ReqRedeem(ID, "u"))];
    var load := [Advance(s.next, ""), Advance(s.next + 1, "")];
    BothBegin(cfg, s);
    BothLoad(cfg, BothEntered(s), s.next, s.next + 1);
    Then(cfg, s, begin, load);
    acts := begin + load;
  }

  /** The first to run its UPDATE gets the grant, and the other is refused. */
  lemma OneIsRefused(cfg: Config, s: State, c: CallId, d: CallId) returns (acts: seq<Action>)
    requires ConsumeMatches(s.sh.db, ID, s.sh.clock) && s.sh.db.grants == map[]
    requires c != d && c in s.calls && d in s.calls
    requires s.calls[c] == RedConsume(ID, TOKEN, s.sh.clock) && s.calls[d] == RedConsume(ID, "u", s.sh.clock)
    ensures CanRun(cfg, s, acts)
    ensures var t := RunFrom(cfg, s, acts);
            && c in t.calls && d in t.calls
            && t.calls[c].Done? && t.calls[c].reply.Granted? && t.calls[d] == Done(Failed(ErrAlreadyRedeemed))
  {
    RaceNexts(cfg, s.sh, c, d);
    var won := Exec(cfg, s.sh, c, s.calls[c], "");
    var put := Exec(cfg, won.sh, c, won.call, "");
    var end := Exec(cfg, put.sh, c, put.call, "");
    hide Apply, Enabled, Exec, ConsumeMatches;
    Stepped(cfg, s, c, s.calls[c], won);
    var s1 := Moved(s, c, won);
    Stepped(cfg, s1, d, s.calls[d], Fail(won.sh, ErrAlreadyRedeemed));
    var s2 := Moved(s1, d, Fail(won.sh, ErrAlreadyRedeemed));
    Two(cfg, s, Advance(c, ""), Advance(d, ""));
    Stepped(cfg, s2, c, won.call, put);
    Stepped(cfg, Moved(s2, c, put), c, put.call, end);
    Two(cfg, s2, Advance(c, ""), Advance(c, ""));
    hide CanRun, RunFrom;
    Then(cfg, s, [Advance(c, ""), Advance(d, "")], [Advance(c, ""), Advance(c, "")]);
    acts := [Advance(c, ""), Advance(d, "")] + [Advance(c, ""), Advance(c, "")];
  }

  /** The race happens: from the empty server two redemptions of one send can both have
      read it as open to them, and then one is granted and the other gets
      ErrAlreadyRedeemed. */
  lemma RedemptionsRace(cfg: Config) returns (acts: seq<Action>, rest: seq<Action>, c: CallId, d: CallId)
    requires 1 <= cfg.maxPartBytes < MAX_INT64
    ensures CanRun(cfg, INIT, acts)
    ensures var m := RunFrom(cfg, INIT, acts);
            && c != d && c in m.calls && d in m.calls && m.calls[c].RedConsume? && m.calls[d].RedConsume?
            && CanRun(cfg, m, rest)
            && var t := RunFrom(cfg, m, rest);
            && c in t.calls && d in t.calls
            && t.calls[c].Done? && t.calls[c].reply.Granted? && t.calls[d] == Done(Failed(ErrAlreadyRedeemed))
  {
    hide Apply, Enabled;
    CreateSteps(cfg, INIT);
    var create := [Begin(ReqCreate(ID, SampleInput(cfg))), Advance(0, "")];
    var s1 := RunFrom(cfg, INIT, create);
    var upload := SampleUploaded(cfg, s1);
    var s2 := RunFrom(cfg, s1, upload);
    var finalize := FinalizeSteps(cfg, s2);
    var s3 := RunFrom(cfg, s2, finalize);
    var read := BothRead(cfg, s3);
    c, d := s3.next, s3.next + 1;
    rest := OneIsRefused(cfg, RunFrom(cfg, s3, read), c, d);
    hide RunFrom, CanRun;
    Then(cfg, INIT, create, upload);
    Then(cfg, INIT, create + upload, finalize);
    Then(cfg, INIT, create + upload + finalize, read);
    acts := create + upload + finalize + read;
  }
}
