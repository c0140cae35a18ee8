/** The send protocol as a transition system. Any number of calls are in flight; one
    step runs one SQL statement (or the creating transaction), one rename, one unlink,
    one directory listing or one open of one call. */
module Protocol {
  import opened Records
  import opened Sql
  import opened BlobOutcome

  type CallId = nat

  // ------------------------------------------------------------------- history

  /** What was declared when a send was created. */
  datatype Declaration = Declaration(input: CreateInput, now: int)

  datatype GrantEvent = GrantEvent(caller: CallId, sendId: string, token: string, now: int)

  datatype Delivery = Delivery(sendId: string, partId: string, token: string, data: Bytes)

  /** Facts about the past that no row or blob records. No step reads them. */
  datatype History = History(
    reserved: map<string, CallId>,        // send ids handed out, and to which call
    created: map<string, Declaration>,    // sends whose creating transaction committed
    complete: map<string, set<string>>,   // part ids marked uploaded when the send was finalized
    winner: map<string, (CallId, int)>,   // the call, and its time, that consumed the send
    granted: set<GrantEvent>,             // grants inserted
    delivered: set<Delivery>)             // downloads served

  const NO_HISTORY := History(map[], map[], map[], map[], {}, {})

  datatype Shared = Shared(db: Db, blobs: map<string, Bytes>, clock: int, hist: History)

  // --------------------------------------------------------------------- calls

  datatype Request =
    | ReqCreate(id: string, input: CreateInput)
    | ReqPut(sendId: string, partId: string, body: Bytes, sha: string)
    | ReqFinalize(sendId: string)
    | ReqRedeem(sendId: string, token: string)
    | ReqGet(sendId: string, partId: string, token: string)
    | ReqReap
    | ReqSweep

  datatype Reply =
    | Created(id: string, oneTime: bool, expiresAt: int)
    | Stored(n: int)
    | FinalizedOk
    | Granted(token: string, expiresAt: int, parts: map<string, int>)
    | Data(data: Bytes)
    | Reaped(sends: int)
    | Swept(orphans: int)
    | Failed(error: Error)

  /** The control points of the calls, each named after the statement it runs next. */
  datatype Call =
    | CreateTx(id: string, input: CreateInput, now: int)
    | PutStatus(sendId: string, partId: string, body: Bytes, sha: string)
    | PutDeclared(sendId: string, partId: string, body: Bytes, sha: string)
    | PutPublish(sendId: string, partId: string, body: Bytes, want: PartMeta)
    | PutMark(sendId: string, partId: string, n: int)
    | FinStatus(sendId: string)
    | FinCount(sendId: string)
    | FinUpdate(sendId: string)
    | RedLoad(sendId: string, token: string, now: int)
    | RedConsume(sendId: string, token: string, now: int)
    | RedInsert(sendId: string, token: string, now: int)
    | RedParts(sendId: string, token: string, now: int)
    | GetValidate(sendId: string, partId: string, token: string)
    | GetDeclared(sendId: string, partId: string, token: string)
    | GetOpen(sendId: string, partId: string, token: string)
    | ReapSelect(now: int)
    | ReapKeys(now: int, picked: map<string, SendRow>)
    | ReapDelete(now: int, picked: map<string, SendRow>, keys: set<string>)
    | ReapBlobs(keys: set<string>, sends: int)
    | SweepLive
    | SweepList(live: set<string>)
    | SweepBlobs(todo: set<string>, live: set<string>, orphans: int)
    | Done(reply: Reply)

  /** The first control point. CreateSend, RedeemSend and the worker read the clock first. */
  function Start(req: Request, clock: int): Call {
    match req
    case ReqCreate(id, input) => CreateTx(id, input, clock)
    case ReqPut(s, p, body, sha) => PutStatus(s, p, body, sha)
    case ReqFinalize(s) => FinStatus(s)
    case ReqRedeem(s, t) => RedLoad(s, t, clock)
    case ReqGet(s, p, t) => GetValidate(s, p, t)
    case ReqReap => ReapSelect(clock)
    case ReqSweep => SweepLive
  }

  datatype Next = Next(sh: Shared, call: Call)

  function Fail(sh: Shared, e: Error): Next {
    Next(sh, Done(Failed(e)))
  }

  /** `pick` is the blob the two deletion loops handle next. */
  predicate Ready(call: Call, pick: string) {
    && !call.Done?
    && (call.ReapBlobs? ==> call.keys == {} || pick in call.keys)
    && (call.SweepBlobs? ==> call.todo == {} || pick in call.todo)
  }

  // ------------------------------------------------------- one step of one call

  function ExecCreate(sh: Shared, call: Call): Next
    requires call.CreateTx?
  {
    match CreateTransaction(sh.db, call.id, call.input, call.now)
    case None => Fail(sh, ErrStorage)
    case Some(db) =>
      var hist := sh.hist.(created := sh.hist.created[call.id := Declaration(call.input, call.now)]);
      Next(sh.(db := db, hist := hist),
           Done(Created(call.id, call.input.oneTime, call.now + call.input.ttl)))
  }

  function ExecPut(cfg: Config, sh: Shared, call: Call): Next
    requires call.PutStatus? || call.PutDeclared? || call.PutPublish? || call.PutMark?
  {
    var s, p := call.sendId, call.partId;
    match call
    case PutStatus(_, _, body, sha) =>
      if s !in sh.db.sends then Fail(sh, ErrNotFound)
      else if !sh.db.sends[s].status.Creating? then Fail(sh, ErrConflict)
      else Next(sh, PutDeclared(s, p, body, sha))
    case PutDeclared(_, _, body, sha) =>
      if (s, p) !in sh.db.parts then Fail(sh, ErrUnknownPart)
      else
        var row := sh.db.parts[(s, p)];
        if sha != "" && sha != row.sha256 then Fail(sh, ErrIntegrity)
        else Next(sh, PutPublish(s, p, body, PartMeta(p, row.encryptedSize, row.sha256)))
    case PutPublish(_, _, body, want) =>
      match PutOutcome(cfg.sha, body, want, cfg.maxPartBytes) {
        case Rejected(e) => Fail(sh, e)
        case Accepted(data) => Next(sh.(blobs := sh.blobs[StorageKey(s, p) := data]), PutMark(s, p, |data|))
      }
    case PutMark(_, _, n) =>
      Next(sh.(db := MarkUploaded(sh.db, s, p, sh.clock)), Done(Stored(n)))
  }

  function UploadedParts(db: Db, s: string): set<string> {
    set k | k in db.parts && k.0 == s && db.parts[k].uploadedAt.Some? :: k.1
  }

  function ExecFinalize(sh: Shared, call: Call): Next
    requires call.FinStatus? || call.FinCount? || call.FinUpdate?
  {
    var s := call.sendId;
    match call
    case FinStatus(_) =>
      if s !in sh.db.sends then Fail(sh, ErrNotFound)
      else (match sh.db.sends[s].status
        case Finalized => Next(sh, Done(FinalizedOk))
        case Creating => Next(sh, FinCount(s))
        case _ => Fail(sh, ErrConflict))
    case FinCount(_) =>
      if |Missing(sh.db, s)| > 0 then Fail(sh, ErrIncomplete) else Next(sh, FinUpdate(s))
    case FinUpdate(_) =>
      if !FinalizeMatches(sh.db, s) then Fail(sh, ErrConflict)
      else
        var hist := sh.hist.(complete := sh.hist.complete[s := UploadedParts(sh.db, s)]);
        Next(sh.(db := FinalizeUpdate(sh.db, s, sh.clock), hist := hist), Done(FinalizedOk))
  }

  function ExecRedeem(cfg: Config, sh: Shared, c: CallId, call: Call): Next
    requires call.RedLoad? || call.RedConsume? || call.RedInsert? || call.RedParts?
  {
    var s, t, now := call.sendId, call.token, call.now;
    match call
    case RedLoad(_, _, _) =>
      if s !in sh.db.sends then Fail(sh, ErrNotFound)
      else
        var row := sh.db.sends[s];
        if !row.status.Finalized? then Fail(sh, ErrNotFinalized)
        else if row.expiresAt <= Unix(now) then Fail(sh, ErrExpired)
        else if row.oneTime then Next(sh, RedConsume(s, t, now))
        else Next(sh, RedInsert(s, t, now))
    case RedConsume(_, _, _) =>
      if !ConsumeMatches(sh.db, s, now) then Fail(sh, ErrAlreadyRedeemed)
      else
        var hist := sh.hist.(winner := sh.hist.winner[s := (c, now)]);
        Next(sh.(db := ConsumeUpdate(sh.db, s, now), hist := hist), RedInsert(s, t, now))
    case RedInsert(_, _, _) =>
      (match InsertGrant(sh.db, cfg.tokenSha(t), NewGrantRow(s, now, cfg.grantTtl))
       case None => Fail(sh, ErrStorage)
       case Some(db) =>
         var hist := sh.hist.(granted := sh.hist.granted + {GrantEvent(c, s, t, now)});
         Next(sh.(db := db, hist := hist), RedParts(s, t, now)))
    case RedParts(_, _, _) =>
      Next(sh, Done(Granted(t, now + cfg.grantTtl, PartsBrief(sh.db, s))))
  }

  function ExecGet(cfg: Config, sh: Shared, call: Call): Next
    requires call.GetValidate? || call.GetDeclared? || call.GetOpen?
  {
    var s, p, t := call.sendId, call.partId, call.token;
    match call
    case GetValidate(_, _, _) =>
      if !GrantAccepted(sh.db, s, cfg.tokenSha(t), sh.clock) then Fail(sh, ErrInvalidGrant)
      else Next(sh, GetDeclared(s, p, t))
    case GetDeclared(_, _, _) =>
      if (s, p) !in sh.db.parts then Fail(sh, ErrUnknownPart) else Next(sh, GetOpen(s, p, t))
    case GetOpen(_, _, _) =>
      if StorageKey(s, p) !in sh.blobs then Fail(sh, ErrNotFound)
      else
        var data := sh.blobs[StorageKey(s, p)];
        var hist := sh.hist.(delivered := sh.hist.delivered + {Delivery(s, p, t, data)});
        Next(sh.(hist := hist), Done(Data(data)))
  }

  /** DeleteExpired of both stores. The selected rows are kept beside the selected ids
      so that proofs can compare them with the rows at deletion time. */
  function ExecReap(cfg: Config, sh: Shared, call: Call, pick: string): Next
    requires call.ReapSelect? || call.ReapKeys? || call.ReapDelete? || call.ReapBlobs?
    requires Ready(call, pick)
  {
    match call
    case ReapSelect(now) =>
      var picked := SelectReapable(sh.db, now, cfg.grantTtl);
      if |picked| == 0 then Next(sh, Done(Reaped(0))) else Next(sh, ReapKeys(now, picked))
    case ReapKeys(now, picked) =>
      Next(sh, ReapDelete(now, picked, KeysOf(sh.db, picked.Keys)))
    case ReapDelete(now, picked, keys) =>
      Next(sh.(db := DeleteSends(sh.db, picked.Keys)), ReapBlobs(keys, |picked|))
    case ReapBlobs(keys, n) =>
      if keys == {} then Next(sh, Done(Reaped(n)))
      else Next(sh.(blobs := sh.blobs - {pick}), ReapBlobs(keys - {pick}, n))
  }

  function ExecSweep(sh: Shared, call: Call, pick: string): Next
    requires call.SweepLive? || call.SweepList? || call.SweepBlobs?
    requires Ready(call, pick)
  {
    match call
    case SweepLive => Next(sh, SweepList(LiveKeys(sh.db)))
    case SweepList(live) => Next(sh, SweepBlobs(sh.blobs.Keys - live, live, 0))
    case SweepBlobs(todo, live, n) =>
      if todo == {} then Next(sh, Done(Swept(n)))
      else Next(sh.(blobs := sh.blobs - {pick}), SweepBlobs(todo - {pick}, live, n + 1))
  }

  function Exec(cfg: Config, sh: Shared, c: CallId, call: Call, pick: string): Next
    requires Ready(call, pick)
  {
    if call.CreateTx? then ExecCreate(sh, call)
    else if call.PutStatus? || call.PutDeclared? || call.PutPublish? || call.PutMark? then ExecPut(cfg, sh, call)
    else if call.FinStatus? || call.FinCount? || call.FinUpdate? then ExecFinalize(sh, call)
    else if call.RedLoad? || call.RedConsume? || call.RedInsert? || call.RedParts? then ExecRedeem(cfg, sh, c, call)
    else if call.GetValidate? || call.GetDeclared? || call.GetOpen? then ExecGet(cfg, sh, call)
    else if call.ReapSelect? || call.ReapKeys? || call.ReapDelete? || call.ReapBlobs? then ExecReap(cfg, sh, call, pick)
    else ExecSweep(sh, call, pick)
  }

  // -------------------------------------------------------------- global steps

  datatype State = State(sh: Shared, calls: map<CallId, Call>, next: CallId)

  datatype Action =
    | Tick(clock: int)                 // time passes
    | Crash                            // the process dies: every call in flight is lost
    | Drop(c: CallId)                  // one call ends early: cancelled, or an I/O error
    | Begin(req: Request)
    | Advance(c: CallId, pick: string) // one step of one call

  const INIT := State(Shared(EMPTY_DB, map[], 0, NO_HISTORY), map[], 0)

  predicate Enabled(s: State, a: Action) {
    match a
    case Tick(clock) => s.sh.clock <= clock
    case Crash => true
    case Drop(c) => c in s.calls
    case Begin(req) => req.ReqCreate? ==> req.id !in s.sh.hist.reserved && NoSlash(req.id)
    case Advance(c, pick) => c in s.calls && Ready(s.calls[c], pick)
  }

  function Apply(cfg: Config, s: State, a: Action): State
    requires Enabled(s, a)
  {
    match a
    case Tick(clock) => s.(sh := s.sh.(clock := clock))
    case Crash => s.(calls := map[])
    case Drop(c) => s.(calls := s.calls - {c})
    case Begin(req) =>
      var hist := if req.ReqCreate? then s.sh.hist.(reserved := s.sh.hist.reserved[req.id := s.next]) else s.sh.hist;
      State(s.sh.(hist := hist), s.calls[s.next := Start(req, s.sh.clock)], s.next + 1)
    case Advance(c, pick) =>
      var n := Exec(cfg, s.sh, c, s.calls[c], pick);
      s.(sh := n.sh, calls := s.calls[c := n.call])
  }

  /** `ss` is a run of the protocol under the actions `acts`. */
  ghost predicate IsRun(cfg: Config, ss: seq<State>, acts: seq<Action>) {
    && |ss| == |acts| + 1
    && ss[0] == INIT
    && forall i :: 0 <= i < |acts| ==> Enabled(ss[i], acts[i]) && ss[i + 1] == Apply(cfg, ss[i], acts[i])
  }

  /** `acts` can be taken one after the other from `s`. */
  ghost predicate CanRun(cfg: Config, s: State, acts: seq<Action>)
    decreases |acts|
  {
    |acts| == 0 || (Enabled(s, acts[0]) && CanRun(cfg, Apply(cfg, s, acts[0]), acts[1..]))
  }

  function RunFrom(cfg: Config, s: State, acts: seq<Action>): State
    requires CanRun(cfg, s, acts)
    decreases |acts|
  {
    if |acts| == 0 then s else RunFrom(cfg, Apply(cfg, s, acts[0]), acts[1..])
  }
}
