/** The abstract mailbox that the protocol refines. A send is being filled, or finalized,
    or consumed, or gone; nobody can see anything in between. */
module Mailbox {
  import opened Records
  import opened Sql
  import opened Protocol
  import opened Invariants
  import opened Steps

  datatype Box =
    | Filling(uploaded: set<string>)  // parts uploaded so far
    | Sealed(grants: set<string>)     // finalized; grants of a send that may be opened often
    | Opened(grants: set<string>)     // consumed; at most one grant
    | Gone

  datatype Entry = Entry(oneTime: bool, parts: map<string, PartMeta>, box: Box)

  type Boxes = map<string, Entry>

  datatype Move =
    | Idle
    | Create(id: string, oneTime: bool, parts: map<string, PartMeta>)
    | Change(id: string, box: Box)
    | Reap(ids: set<string>)

  /** The only ways one send may change. */
  predicate BoxStep(e: Entry, b: Box) {
    match e.box
    case Filling(u) =>
      || (b.Filling? && exists p :: p in e.parts && b.uploaded == u + {p})
      || (b == Sealed({}) && u == e.parts.Keys)
    case Sealed(g) =>
      if e.oneTime then g == {} && b == Opened({}) else b.Sealed? && g < b.grants && |b.grants| == |g| + 1
    case Opened(g) => g == {} && b.Opened? && |b.grants| == 1
    case Gone => false
  }

  predicate CanMove(m: Boxes, a: Move) {
    match a
    case Idle => true
    case Create(id, _, _) => id !in m
    case Change(id, b) => id in m && BoxStep(m[id], b)
    case Reap(ids) => ids <= m.Keys
  }

  function DoMove(m: Boxes, a: Move): Boxes
    requires CanMove(m, a)
  {
    match a
    case Idle => m
    case Create(id, oneTime, parts) => m[id := Entry(oneTime, parts, Filling({}))]
    case Change(id, b) => m[id := m[id].(box := b)]
    case Reap(ids) => map id | id in m :: if id in ids then m[id].(box := Gone) else m[id]
  }

  // ----------------------------------------------------------------- the abstraction

  function GrantsOf(db: Db, id: string): set<string> {
    set h | h in db.grants && db.grants[h].sendId == id
  }

  function BoxOf(db: Db, id: string): Box {
    if id !in db.sends then Gone
    else if db.sends[id].status.Creating? then Filling(UploadedParts(db, id))
    else if db.sends[id].consumedAt.None? then Sealed(GrantsOf(db, id))
    else Opened(GrantsOf(db, id))
  }

  function Abs(sh: Shared): Boxes {
    map id | id in sh.hist.created ::
      Entry(sh.hist.created[id].input.oneTime, Declared(sh.hist.created, id), BoxOf(sh.db, id))
  }

  /** Nothing the mailbox can see changed. */
  lemma SameBoxes(sh: Shared, sh': Shared)
    requires sh'.db == sh.db && sh'.hist.created == sh.hist.created
    ensures Abs(sh') == Abs(sh)
  {
  }

  /** Only the send `id` changed. */
  lemma OneChanged(sh: Shared, sh': Shared, id: string)
    requires id in sh.hist.created && sh'.hist.created == sh.hist.created
    requires forall i :: i != id && i in sh.hist.created ==> BoxOf(sh'.db, i) == BoxOf(sh.db, i)
    ensures Abs(sh') == Abs(sh)[id := Abs(sh)[id].(box := BoxOf(sh'.db, id))]
  {
  }

  lemma SameUploads(db: Db, db': Db, id: string)
    requires forall k: PartKey :: k.0 == id ==> (k in db.parts <==> k in db'.parts)
    requires forall k: PartKey :: k.0 == id && k in db.parts ==>
        db'.parts[k].uploadedAt.Some? == db.parts[k].uploadedAt.Some?
    ensures UploadedParts(db', id) == UploadedParts(db, id)
  {
    forall p ensures p in UploadedParts(db, id) <==> p in UploadedParts(db', id) {
      if p in UploadedParts(db, id) { assert (id, p) in db.parts; assert (id, p) in db'.parts; }
      if p in UploadedParts(db', id) { assert (id, p) in db'.parts; assert (id, p) in db.parts; }
    }
  }

  // ------------------------------------------------------------- step by step

  ghost predicate Refines(sh: Shared, sh': Shared, m: Move) {
    CanMove(Abs(sh), m) && Abs(sh') == DoMove(Abs(sh), m)
  }

  /** One send takes one of the allowed steps and the others stay as they are. */
  lemma ChangeRefines(sh: Shared, sh': Shared, id: string, b: Box)
    requires id in sh.hist.created && sh'.hist.created == sh.hist.created
    requires forall i :: i != id && i in sh.hist.created ==> BoxOf(sh'.db, i) == BoxOf(sh.db, i)
    requires b == BoxOf(sh'.db, id)
    requires BoxStep(Entry(sh.hist.created[id].input.oneTime, Declared(sh.hist.created, id), BoxOf(sh.db, id)), b)
    ensures Refines(sh, sh', Change(id, b))
  {
    hide BoxOf, BoxStep;
    OneChanged(sh, sh', id);
  }

  lemma CreateRefines(cfg: Config, sh: Shared, c: CallId, call: Call) returns (m: Move)
    requires call.CreateTx? && InvShared(cfg, sh) && InvCall(cfg, sh, c, call)
    ensures Refines(sh, ExecCreate(sh, call).sh, m)
  {
    if call.id !in sh.db.sends && DistinctIds(call.input.parts) {
      m := Create(call.id, call.input.oneTime, ById(call.input.parts));
      CreateRows(cfg, sh, c, call);
      NewBox(cfg, sh, ExecCreate(sh, call).sh, call.id, Declaration(call.input, call.now));
    } else {
      m := Idle;
      CreateFails(cfg, sh, call);
    }
  }

  lemma NewBox(cfg: Config, sh: Shared, sh': Shared, id: string, d: Declaration)
    requires InvShared(cfg, sh) && CreatedState(sh, sh', id, d) && id !in sh.hist.created
    ensures Abs(sh') == Abs(sh)[id := Entry(d.input.oneTime, ById(d.input.parts), Filling({}))]
  {
    hide InvShared, BoxOf;
    NewBoxes(cfg, sh, sh', id, d);
  }

  lemma NewBoxes(cfg: Config, sh: Shared, sh': Shared, id: string, d: Declaration)
    requires InvShared(cfg, sh) && CreatedState(sh, sh', id, d) && id !in sh.hist.created
    ensures BoxOf(sh'.db, id) == Filling({})
    ensures forall i :: i in sh.hist.created ==> BoxOf(sh'.db, i) == BoxOf(sh.db, i)
  {
    hide IdsOk, CompleteOk, WinnerOk, EventsOk, GrantsOk, BlobsOk, DeliveredOk, PartOk;
    assert UploadedParts(sh'.db, id) == {};
    forall i | i in sh.hist.created ensures BoxOf(sh'.db, i) == BoxOf(sh.db, i) {
      SameUploads(sh.db, sh'.db, i);
    }
  }

  lemma MarkRefines(cfg: Config, sh: Shared, c: CallId, call: Call) returns (m: Move)
    requires call.PutMark? && InvShared(cfg, sh) && InvCall(cfg, sh, c, call)
    ensures Refines(sh, ExecPut(cfg, sh, call).sh, m)
  {
    var s, p, sh' := call.sendId, call.partId, ExecPut(cfg, sh, call).sh;
    assert sh' == sh.(db := MarkUploaded(sh.db, s, p, sh.clock));
    if (s, p) in sh.db.parts { PartIsDeclared(cfg, sh, s, p); }
    hide InvShared, InvCall, ExecPut;
    m := MarkMoves(sh, sh', s, p);
  }

  lemma MarkMoves(sh: Shared, sh': Shared, s: string, p: string) returns (m: Move)
    requires sh' == sh.(db := MarkUploaded(sh.db, s, p, sh.clock))
    requires (s, p) in sh.db.parts ==> s in sh.db.sends && s in sh.hist.created && p in Declared(sh.hist.created, s)
    ensures Refines(sh, sh', m)
  {
    MarkedBoxes(sh.db, s, p, sh.clock);
    hide MarkUploaded, Declared;
    if (s, p) in sh.db.parts && sh.db.sends[s].status.Creating? {
      m := Change(s, Filling(UploadedParts(sh.db, s) + {p}));
      hide Refines, UploadedParts;
      ChangeRefines(sh, sh', s, m.box);
    } else {
      m := Idle;
      assert forall i :: BoxOf(sh'.db, i) == BoxOf(sh.db, i);
      hide BoxOf;
    }
  }

  lemma PartIsDeclared(cfg: Config, sh: Shared, s: string, p: string)
    requires InvShared(cfg, sh) && (s, p) in sh.db.parts
    ensures s in sh.db.sends && s in sh.hist.created && p in Declared(sh.hist.created, s)
  {
    assert PartOk(sh.db.parts, (s, p), sh.hist.created);
  }

  lemma MarkedBoxes(db: Db, s: string, p: string, clock: int)
    ensures var db' := MarkUploaded(db, s, p, clock);
            && (forall i :: i != s ==> BoxOf(db', i) == BoxOf(db, i))
            && ((s, p) in db.parts && s in db.sends && db.sends[s].status.Creating? ==>
                  BoxOf(db', s) == Filling(UploadedParts(db, s) + {p}))
            && ((s, p) !in db.parts || s !in db.sends || !db.sends[s].status.Creating? ==>
                BoxOf(db', s) == BoxOf(db, s))
  {
    var db' := MarkUploaded(db, s, p, clock);
    forall i | i != s ensures BoxOf(db', i) == BoxOf(db, i) { SameUploads(db, db', i); }
    if (s, p) in db.parts { MarkedUploads(db, s, p, clock); }
  }

  lemma MarkedUploads(db: Db, s: string, p: string, clock: int)
    requires (s, p) in db.parts
    ensures UploadedParts(MarkUploaded(db, s, p, clock), s) == UploadedParts(db, s) + {p}
  {
    var db' := MarkUploaded(db, s, p, clock);
    forall q ensures q in UploadedParts(db', s) <==> q in UploadedParts(db, s) + {p} {
      if q in UploadedParts(db, s) + {p} { assert (s, q) in db'.parts && db'.parts[(s, q)].uploadedAt.Some?; }
      if q in UploadedParts(db', s) && q != p { assert (s, q) in db.parts && db.parts[(s, q)].uploadedAt.Some?; }
    }
  }

  lemma FinalizeRefines(cfg: Config, sh: Shared, c: CallId, call: Call) returns (m: Move)
    requires call.FinUpdate? && InvShared(cfg, sh) && InvCall(cfg, sh, c, call)
    ensures Refines(sh, ExecFinalize(sh, call).sh, m)
  {
    var s, sh' := call.sendId, ExecFinalize(sh, call).sh;
    if FinalizeMatches(sh.db, s) {
      AllUploaded(sh, s);
      NoGrants(cfg, sh, s);
      hide InvShared, InvCall;
      var row := sh.db.sends[s].(status := Finalized, finalizedAt := Some(Unix(sh.clock)));
      assert sh'.db == sh.db.(sends := sh.db.sends[s := row]);
      RowBoxes(sh.db, s, row);
      ChangeRefines(sh, sh', s, Sealed({}));
      m := Change(s, Sealed({}));
    } else {
      m := Idle;
    }
  }

  /** Replacing a row changes the box of that send only. */
  lemma RowBoxes(db: Db, s: string, row: SendRow)
    requires s in db.sends
    ensures var db' := db.(sends := db.sends[s := row]);
            && UploadedParts(db', s) == UploadedParts(db, s) && GrantsOf(db', s) == GrantsOf(db, s)
            && forall i :: i != s ==> BoxOf(db', i) == BoxOf(db, i)
  {
  }

  /** A send that was never finalized has no grant and is not consumed. */
  lemma NoGrants(cfg: Config, sh: Shared, s: string)
    requires InvShared(cfg, sh) && FinalizeMatches(sh.db, s)
    ensures GrantsOf(sh.db, s) == {} && sh.db.sends[s].consumedAt.None?
  {
    hide IdsOk, PartsOk, BlobsOk, DeliveredOk;
    forall h | h in sh.db.grants ensures sh.db.grants[h].sendId != s {
      var e :| e in sh.hist.granted && GrantFrom(cfg, h, sh.db.grants[h], e);
    }
  }

  lemma ConsumeRefines(cfg: Config, sh: Shared, c: CallId, call: Call) returns (m: Move)
    requires call.RedConsume? && InvShared(cfg, sh) && InvCall(cfg, sh, c, call)
    ensures Refines(sh, ExecRedeem(cfg, sh, c, call).sh, m)
  {
    var s, sh' := call.sendId, ExecRedeem(cfg, sh, c, call).sh;
    if ConsumeMatches(sh.db, s, call.now) {
      UnconsumedHasNoGrant(cfg, sh, s);
      assert s in sh.hist.created && sh.hist.created[s].input.oneTime;
      hide InvShared, InvCall;
      var row := sh.db.sends[s].(consumedAt := Some(Unix(call.now)));
      assert sh'.db == sh.db.(sends := sh.db.sends[s := row]);
      RowBoxes(sh.db, s, row);
      ChangeRefines(sh, sh', s, Opened({}));
      m := Change(s, Opened({}));
    } else {
      m := Idle;
    }
  }

  lemma UnconsumedHasNoGrant(cfg: Config, sh: Shared, s: string)
    requires InvShared(cfg, sh) && s in sh.db.sends && sh.db.sends[s].oneTime && sh.db.sends[s].consumedAt.None?
    ensures GrantsOf(sh.db, s) == {}
  {
    hide IdsOk, PartsOk, BlobsOk, DeliveredOk;
    forall h | h in sh.db.grants ensures sh.db.grants[h].sendId != s {
      var e :| e in sh.hist.granted && GrantFrom(cfg, h, sh.db.grants[h], e);
    }
  }

  lemma InsertRefines(cfg: Config, sh: Shared, c: CallId, call: Call) returns (m: Move)
    requires call.RedInsert? && InvShared(cfg, sh) && InvCall(cfg, sh, c, call)
    ensures Refines(sh, ExecRedeem(cfg, sh, c, call).sh, m)
  {
    var s, h, sh' := call.sendId, cfg.tokenSha(call.token), ExecRedeem(cfg, sh, c, call).sh;
    if h in sh.db.grants || s !in sh.db.sends {
      m := Idle;
    } else {
      GrantedRow(cfg, sh, c, call);
      if OneTime(sh.hist.created, s) { WinnerHasNoGrant(cfg, sh, c, s); }
      hide InvShared, InvCall;
      m := GrantRefines(sh, sh', s, h, NewGrantRow(s, call.now, cfg.grantTtl));
    }
  }

  lemma GrantRefines(sh: Shared, sh': Shared, s: string, h: string, g: GrantRow) returns (m: Move)
    requires h !in sh.db.grants && g.sendId == s && s in sh.db.sends && s in sh.hist.created
    requires sh.db.sends[s].status.Finalized?
    requires sh.db.sends[s].consumedAt.Some? == sh.hist.created[s].input.oneTime
    requires sh.hist.created[s].input.oneTime ==> GrantsOf(sh.db, s) == {}
    requires sh'.hist.created == sh.hist.created && sh'.db == sh.db.(grants := sh.db.grants[h := g])
    ensures Refines(sh, sh', m)
  {
    GrantAdded(sh.db, s, h, g);
    assert h !in GrantsOf(sh.db, s);
    m := Change(s, BoxOf(sh'.db, s));
    hide Refines;
    ChangeRefines(sh, sh', s, BoxOf(sh'.db, s));
  }

  /** The state of the send a grant is about to be inserted for. */
  lemma GrantedRow(cfg: Config, sh: Shared, c: CallId, call: Call)
    requires call.RedInsert? && InvShared(cfg, sh) && InvCall(cfg, sh, c, call) && call.sendId in sh.db.sends
    ensures var s := call.sendId;
            && s in sh.hist.created && sh.db.sends[s].status.Finalized?
            && sh.db.sends[s].consumedAt.Some? == sh.hist.created[s].input.oneTime
  {
    hide IdsOk, PartsOk, EventsOk, GrantsOk, BlobsOk, DeliveredOk;
  }

  lemma WinnerHasNoGrant(cfg: Config, sh: Shared, c: CallId, s: string)
    requires InvShared(cfg, sh) && NoGrantYet(sh.hist.granted, c) && OneTime(sh.hist.created, s)
    requires s in sh.hist.winner && sh.hist.winner[s].0 == c
    ensures GrantsOf(sh.db, s) == {}
  {
    hide IdsOk, PartsOk, BlobsOk, DeliveredOk;
    forall h | h in sh.db.grants ensures sh.db.grants[h].sendId != s {
      var e :| e in sh.hist.granted && GrantFrom(cfg, h, sh.db.grants[h], e);
    }
  }

  lemma GrantAdded(db: Db, s: string, h: string, g: GrantRow)
    requires h !in db.grants && g.sendId == s
    ensures var db' := db.(grants := db.grants[h := g]);
            && GrantsOf(db', s) == GrantsOf(db, s) + {h}
            && UploadedParts(db', s) == UploadedParts(db, s)
            && forall i :: i != s ==> BoxOf(db', i) == BoxOf(db, i)
  {
    var db' := db.(grants := db.grants[h := g]);
    forall i | i != s ensures BoxOf(db', i) == BoxOf(db, i) {
      assert GrantsOf(db', i) == GrantsOf(db, i);
    }
  }

  lemma DeleteRefines(cfg: Config, sh: Shared, c: CallId, call: Call, pick: string) returns (m: Move)
    requires call.ReapDelete? && InvShared(cfg, sh) && InvCall(cfg, sh, c, call)
    ensures Refines(sh, ExecReap(cfg, sh, call, pick).sh, m)
  {
    hide InvShared, InvCall, BoxOf;
    var ids, sh' := call.picked.Keys, ExecReap(cfg, sh, call, pick).sh;
    m := Reap(ids * sh.hist.created.Keys);
    DeletedBoxes(sh.db, ids);
    assert sh' == sh.(db := DeleteSends(sh.db, ids));
    hide ExecReap, DeleteSends;
  }

  lemma DeletedBoxes(db: Db, ids: set<string>)
    ensures forall i :: BoxOf(DeleteSends(db, ids), i) == if i in ids then Gone else BoxOf(db, i)
  {
    var db' := DeleteSends(db, ids);
    forall i | i !in ids ensures BoxOf(db', i) == BoxOf(db, i) {
      SameUploads(db, db', i);
      assert GrantsOf(db', i) == GrantsOf(db, i);
    }
  }

  lemma QuietCall(cfg: Config, sh: Shared, c: CallId, call: Call, pick: string)
    requires Ready(call, pick)
    requires !call.CreateTx? && !call.PutMark? && !call.FinUpdate? && !call.RedConsume? && !call.RedInsert?
        && !call.ReapDelete?
    ensures var sh' := Exec(cfg, sh, c, call, pick).sh; sh'.db == sh.db && sh'.hist.created == sh.hist.created
  {
  }

  lemma CallRefines(cfg: Config, sh: Shared, c: CallId, call: Call, pick: string) returns (m: Move)
    requires Ready(call, pick) && InvShared(cfg, sh) && InvCall(cfg, sh, c, call)
    ensures Refines(sh, Exec(cfg, sh, c, call, pick).sh, m)
  {
    hide InvShared, InvCall;
    if call.CreateTx? { m := CreateRefines(cfg, sh, c, call); }
    else if call.PutMark? { m := MarkRefines(cfg, sh, c, call); }
    else if call.FinUpdate? { m := FinalizeRefines(cfg, sh, c, call); }
    else if call.RedConsume? { m := ConsumeRefines(cfg, sh, c, call); }
    else if call.RedInsert? { m := InsertRefines(cfg, sh, c, call); }
    else if call.ReapDelete? { m := DeleteRefines(cfg, sh, c, call, pick); }
    else {
      QuietCall(cfg, sh, c, call, pick);
      SameBoxes(sh, Exec(cfg, sh, c, call, pick).sh);
      m := Idle;
    }
  }

  /** Forward simulation: every step of every interleaved, crash-prone run is one move of
      the mailbox or none at all. */
  lemma StepRefines(cfg: Config, s: State, a: Action) returns (m: Move)
    requires Inv(cfg, s) && Enabled(s, a)
    ensures Refines(s.sh, Apply(cfg, s, a).sh, m)
  {
    hide InvShared, InvCall, Refines, Exec;
    if a.Advance? {
      m := CallRefines(cfg, s.sh, a.c, s.calls[a.c], a.pick);
    } else {
      m := Idle;
      IdleRefines(s.sh, Apply(cfg, s, a).sh);
    }
  }

  lemma IdleRefines(sh: Shared, sh': Shared)
    requires sh'.db == sh.db && sh'.hist.created == sh.hist.created
    ensures Refines(sh, sh', Idle)
  {
    SameBoxes(sh, sh');
  }

  ghost predicate IsMailboxRun(ms: seq<Boxes>, moves: seq<Move>) {
    && |ms| == |moves| + 1 && ms[0] == map[]
    && forall i :: 0 <= i < |moves| ==> CanMove(ms[i], moves[i]) && ms[i + 1] == DoMove(ms[i], moves[i])
  }

  function AbsRun(ss: seq<State>): seq<Boxes> {
    seq(|ss|, i requires 0 <= i < |ss| => Abs(ss[i].sh))
  }

  /** Every run of the protocol is a run of the mailbox. */
  lemma {:induction false} RunRefines(cfg: Config, ss: seq<State>, acts: seq<Action>) returns (moves: seq<Move>)
    requires IsRun(cfg, ss, acts)
    ensures IsMailboxRun(AbsRun(ss), moves)
    decreases |acts|
  {
    hide Abs, Apply, Enabled, CanMove, DoMove;
    var n := |acts|;
    if n == 0 {
      InitialBoxes();
      moves := [];
    } else {
      moves := RunRefines(cfg, ss[..n], acts[..n - 1]);
      RunOk(cfg, ss, acts, n - 1);
      var m := StepRefines(cfg, ss[n - 1], acts[n - 1]);
      assert AbsRun(ss)[..n] == AbsRun(ss[..n]);
      moves := moves + [m];
    }
  }

  lemma InitialBoxes()
    ensures Abs(INIT.sh) == map[]
  {
  }
}
