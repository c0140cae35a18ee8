/** Every step of every call keeps the invariants and the relation. */
module Steps {
  import opened Records
  import opened Sql
  import opened BlobOutcome
  import opened Protocol
  import opened Invariants

  /** Inserting the declared parts of a new send succeeds exactly when the part ids are
      distinct, and then adds one row per declaration and touches no other row. */
  lemma {:induction false} InsertPartsEffect(db: Db, id: string, parts: seq<PartMeta>)
    requires id in db.sends && forall k :: k in db.parts ==> k.0 != id
    ensures InsertParts(db, id, parts).Some? <==> DistinctIds(parts)
    ensures DistinctIds(parts) ==>
              var d := InsertParts(db, id, parts).value;
              && d.sends == db.sends && d.grants == db.grants
              && (forall k :: k in d.parts <==> k in db.parts || (k.0 == id && k.1 in ById(parts)))
              && (forall k :: k in db.parts ==> d.parts[k] == db.parts[k])
              && (forall p :: p in ById(parts) ==>
                  d.parts[(id, p)] == NewPartRow(id, ById(parts)[p]) && ById(parts)[p].partId == p)
  {
    if |parts| > 0 {
      InsertPartsEffect(db, id, parts[..|parts| - 1]);
      DistinctIdsStep(parts);
    }
  }

  /** What a step of call `c` must establish. */
  ghost predicate Good(cfg: Config, sh: Shared, c: CallId, n: Next) {
    InvShared(cfg, n.sh) && InvCall(cfg, n.sh, c, n.call) && Rely(sh, c, n.sh)
  }

  lemma RelyRefl(sh: Shared, c: CallId)
    ensures Rely(sh, c, sh)
  {
  }

  /** A step that only reads. */
  lemma ReadOnly(cfg: Config, sh: Shared, c: CallId, n: Next)
    requires InvShared(cfg, sh) && n.sh == sh && InvCall(cfg, sh, c, n.call)
    ensures Good(cfg, sh, c, n)
  {
    RelyRefl(sh, c);
  }

  /** A step that changes tables and history. */
  lemma Assemble(cfg: Config, sh: Shared, c: CallId, n: Next)
    requires InvShared(cfg, sh) && n.sh.blobs == sh.blobs && n.sh.clock == sh.clock
    requires n.sh.hist.created == sh.hist.created && n.sh.hist.reserved == sh.hist.reserved
        && n.sh.hist.delivered == sh.hist.delivered
    requires SendsOk(n.sh.db.sends, n.sh.hist.created)
    requires PartsOk(n.sh.db.sends, n.sh.db.parts, n.sh.hist.created)
    requires CompleteOk(n.sh.db.sends, n.sh.db.parts, n.sh.hist.created, n.sh.hist.complete)
    requires WinnerOk(n.sh.db.sends, n.sh.hist.created, n.sh.hist.complete, n.sh.hist.winner)
    requires EventsOk(n.sh.hist.created, n.sh.hist.complete, n.sh.hist.winner, n.sh.hist.granted)
    requires GrantsOk(cfg, n.sh.db.sends, n.sh.db.grants, n.sh.hist.granted)
    requires InvCall(cfg, n.sh, c, n.call)
    requires HistoryGrows(sh.hist, c, n.sh.hist)
    requires SendsAdvance(sh.db.sends, sh.hist.created, n.sh.db.sends)
    requires PartsAdvance(sh.db.parts, sh.hist.created, n.sh.db.parts)
    ensures Good(cfg, sh, c, n)
  {
    DeliveredKept(cfg, sh, n.sh);
  }

  lemma HistoryRefl(h: History, c: CallId)
    ensures HistoryGrows(h, c, h)
  {
  }

  lemma SendsRefl(sends: map<string, SendRow>, created: CreatedMap)
    ensures SendsAdvance(sends, created, sends)
  {
  }

  lemma PartsRefl(parts: map<PartKey, PartRow>, created: CreatedMap)
    ensures PartsAdvance(parts, created, parts)
  {
  }

  // -------------------------------------------------------------------- CreateSend

  lemma CreateOk(cfg: Config, sh: Shared, c: CallId, call: Call)
    requires call.CreateTx? && InvShared(cfg, sh) && InvCall(cfg, sh, c, call)
    ensures Good(cfg, sh, c, ExecCreate(sh, call))
  {
    hide InvShared, Rely;
    var n := ExecCreate(sh, call);
    if call.id !in sh.db.sends && DistinctIds(call.input.parts) {
      CreateRows(cfg, sh, c, call);
      CreateFrame(cfg, sh, c, n.sh, call.id, Declaration(call.input, call.now));
    } else {
      CreateFails(cfg, sh, call);
      ReadOnly(cfg, sh, c, n);
    }
  }

  lemma CreateFails(cfg: Config, sh: Shared, call: Call)
    requires call.CreateTx? && InvShared(cfg, sh)
    requires call.id in sh.db.sends || !DistinctIds(call.input.parts)
    ensures ExecCreate(sh, call) == Fail(sh, ErrStorage)
  {
    assert forall k :: k in sh.db.parts ==> k.0 in sh.db.sends;
    var d := InsertSend(sh.db, call.id, NewSendRow(call.input, call.now));
    if d.Some? { InsertPartsEffect(d.value, call.id, call.input.parts); }
  }

  /** The state after a committed creation. */
  ghost predicate CreatedState(sh: Shared, sh': Shared, id: string, d: Declaration) {
    && sh'.blobs == sh.blobs && sh'.clock == sh.clock
    && sh'.hist == sh.hist.(created := sh.hist.created[id := d])
    && sh'.db.sends == sh.db.sends[id := NewSendRow(d.input, d.now)]
    && sh'.db.grants == sh.db.grants
    && (forall k :: k in sh'.db.parts <==> k in sh.db.parts || (k.0 == id && k.1 in ById(d.input.parts)))
    && (forall k :: k in sh.db.parts ==> sh'.db.parts[k] == sh.db.parts[k])
    && (forall p :: p in ById(d.input.parts) ==> sh'.db.parts[(id, p)] == NewPartRow(id, ById(d.input.parts)[p]))
    && (forall p :: p in ById(d.input.parts) ==> ById(d.input.parts)[p].partId == p)
  }

  lemma CreateRows(cfg: Config, sh: Shared, c: CallId, call: Call)
    requires call.CreateTx? && InvShared(cfg, sh) && InvCall(cfg, sh, c, call)
    requires call.id !in sh.db.sends && DistinctIds(call.input.parts)
    ensures CreatedState(sh, ExecCreate(sh, call).sh, call.id, Declaration(call.input, call.now))
    ensures ExecCreate(sh, call).call.Done?
  {
    var row := NewSendRow(call.input, call.now);
    assert forall k :: k in sh.db.parts ==> k.0 in sh.db.sends;
    InsertPartsEffect(InsertSend(sh.db, call.id, row).value, call.id, call.input.parts);
  }

  lemma CreateParts(sh: Shared, sh': Shared, id: string, d: Declaration)
    requires CreatedState(sh, sh', id, d) && PartsOk(sh.db.sends, sh.db.parts, sh.hist.created)
    requires id !in sh.hist.created
    ensures PartsOk(sh'.db.sends, sh'.db.parts, sh'.hist.created)
  {
    forall k | k in sh'.db.parts ensures k.0 in sh'.db.sends && PartOk(sh'.db.parts, k, sh'.hist.created) {
      if k in sh.db.parts { assert PartOk(sh.db.parts, k, sh.hist.created); }
    }
  }

  lemma CreateComplete(sh: Shared, sh': Shared, id: string, d: Declaration)
    requires CreatedState(sh, sh', id, d) && id !in sh.hist.created
    requires CompleteOk(sh.db.sends, sh.db.parts, sh.hist.created, sh.hist.complete)
    requires PartsOk(sh.db.sends, sh.db.parts, sh.hist.created)
    ensures CompleteOk(sh'.db.sends, sh'.db.parts, sh'.hist.created, sh'.hist.complete)
  {
  }

  lemma CreateFrame(cfg: Config, sh: Shared, c: CallId, sh': Shared, id: string, d: Declaration)
    requires InvShared(cfg, sh) && CreatedState(sh, sh', id, d)
    requires id !in sh.hist.created && id in sh.hist.reserved && sh.hist.reserved[id] == c && DistinctIds(d.input.parts)
    ensures InvShared(cfg, sh') && Rely(sh, c, sh')
  {
    hide IdsOk, SendsOk, PartsOk, WinnerOk, EventsOk, BlobsOk, DeliveredOk, HistoryGrows, SendsAdvance;
    CreateParts(sh, sh', id, d);
    CreateComplete(sh, sh', id, d);
    BlobsKept(cfg, sh, sh');
    DeliveredKept(cfg, sh, sh');
    GrantsKept(cfg, sh, sh');
    CreateWinners(sh.db.sends, sh.hist, id, d);
    CreateIds(sh.db.sends, sh.hist, c, id, d);
    assert PartsAdvance(sh.db.parts, sh.hist.created, sh'.db.parts);
  }

  lemma CreateIds(sends: map<string, SendRow>, h: History, c: CallId, id: string, d: Declaration)
    requires IdsOk(h.reserved, h.created) && SendsOk(sends, h.created)
    requires id !in h.created && id in h.reserved && h.reserved[id] == c && DistinctIds(d.input.parts)
    ensures var created, sends' := h.created[id := d], sends[id := NewSendRow(d.input, d.now)];
            && IdsOk(h.reserved, created) && SendsOk(sends', created)
            && SendsAdvance(sends, h.created, sends') && HistoryGrows(h, c, h.(created := created))
  {
  }

  lemma CreateWinners(sends: map<string, SendRow>, h: History, id: string, d: Declaration)
    requires WinnerOk(sends, h.created, h.complete, h.winner) && EventsOk(h.created, h.complete, h.winner, h.granted)
    requires id !in h.created && forall i :: i in h.complete ==> i in h.created
    ensures var created, sends' := h.created[id := d], sends[id := NewSendRow(d.input, d.now)];
            WinnerOk(sends', created, h.complete, h.winner) && EventsOk(created, h.complete, h.winner, h.granted)
  {
  }

  // --------------------------------------------------------- clauses that survive

  lemma BlobsKept(cfg: Config, sh: Shared, sh': Shared)
    requires BlobsOk(cfg, sh.hist.created, sh.blobs)
    requires forall k :: k in sh'.blobs ==> k in sh.blobs && sh'.blobs[k] == sh.blobs[k]
    requires forall id :: id in sh.hist.created ==>
        id in sh'.hist.created && sh'.hist.created[id] == sh.hist.created[id]
    ensures BlobsOk(cfg, sh'.hist.created, sh'.blobs)
  {
  }

  /** What was delivered stays justified when the history only grows. */
  lemma DeliveredKept(cfg: Config, sh: Shared, sh': Shared)
    requires DeliveredOk(cfg, sh.hist.created, sh.hist.granted, sh.hist.delivered)
    requires sh'.hist.delivered == sh.hist.delivered && sh.hist.granted <= sh'.hist.granted
    requires forall id :: id in sh.hist.created ==>
        id in sh'.hist.created && sh'.hist.created[id] == sh.hist.created[id]
    ensures DeliveredOk(cfg, sh'.hist.created, sh'.hist.granted, sh'.hist.delivered)
  {
    forall d | d in sh'.hist.delivered ensures GrantWas(cfg, sh'.hist.granted, d.sendId, d.token) {
      assert GrantWas(cfg, sh.hist.granted, d.sendId, d.token);
    }
  }

  lemma GrantsKept(cfg: Config, sh: Shared, sh': Shared)
    requires GrantsOk(cfg, sh.db.sends, sh.db.grants, sh.hist.granted) && sh.hist.granted <= sh'.hist.granted
    requires forall h :: h in sh'.db.grants ==>
               h in sh.db.grants && sh'.db.grants[h] == sh.db.grants[h] && sh'.db.grants[h].sendId in sh'.db.sends
    ensures GrantsOk(cfg, sh'.db.sends, sh'.db.grants, sh'.hist.granted)
  {
    forall h | h in sh'.db.grants ensures GrantOk(cfg, h, sh'.db.grants[h], sh'.hist.granted) {
      var e :| e in sh.hist.granted && GrantFrom(cfg, h, sh.db.grants[h], e);
      assert e in sh'.hist.granted;
    }
  }

  // ----------------------------------------------------------------------- PutPart

  lemma PutOk(cfg: Config, sh: Shared, c: CallId, call: Call)
    requires call.PutStatus? || call.PutDeclared? || call.PutPublish? || call.PutMark?
    requires InvShared(cfg, sh) && InvCall(cfg, sh, c, call)
    ensures Good(cfg, sh, c, ExecPut(cfg, sh, call))
  {
    hide InvShared, Rely;
    RelyRefl(sh, c);
    if call.PutDeclared? { PutDeclaredOk(cfg, sh, c, call); }
    else if call.PutPublish? { PublishOk(cfg, sh, c, call); }
    else if call.PutMark? { MarkOk(cfg, sh, c, call); }
  }

  lemma PutDeclaredOk(cfg: Config, sh: Shared, c: CallId, call: Call)
    requires call.PutDeclared? && InvShared(cfg, sh)
    ensures Good(cfg, sh, c, ExecPut(cfg, sh, call))
  {
    hide IdsOk, SendsOk, CompleteOk, WinnerOk, EventsOk, GrantsOk, BlobsOk, DeliveredOk, Rely;
    RelyRefl(sh, c);
    var k := (call.sendId, call.partId);
    if k in sh.db.parts {
      assert PartOk(sh.db.parts, k, sh.hist.created);
      ByIdNames(sh.hist.created[k.0].input.parts, k.1);
    }
  }

  lemma PublishOk(cfg: Config, sh: Shared, c: CallId, call: Call)
    requires call.PutPublish? && InvShared(cfg, sh) && InvCall(cfg, sh, c, call)
    ensures Good(cfg, sh, c, ExecPut(cfg, sh, call))
  {
    RelyRefl(sh, c);
    var n := ExecPut(cfg, sh, call);
    var key := StorageKey(call.sendId, call.partId);
    if n.call.PutMark? {
      KeyOwnerOfStorageKey(call.sendId, call.partId);
      assert BlobMatches(cfg, sh.hist.created, key, n.sh.blobs[key]);
      assert BlobsOk(cfg, n.sh.hist.created, n.sh.blobs);
    }
  }

  lemma MarkOk(cfg: Config, sh: Shared, c: CallId, call: Call)
    requires call.PutMark? && InvShared(cfg, sh)
    ensures Good(cfg, sh, c, ExecPut(cfg, sh, call))
  {
    var n := ExecPut(cfg, sh, call);
    var k := (call.sendId, call.partId);
    if k in sh.db.parts {
      MarkRows(sh.db.sends, sh.db.parts, sh.hist.created, sh.hist.complete, k, Some(Unix(sh.clock)));
      assert n.sh == sh.(db := sh.db.(parts := n.sh.db.parts));
      SendsRefl(sh.db.sends, sh.hist.created);
      HistoryRefl(sh.hist, c);
      Assemble(cfg, sh, c, n);
    } else {
      assert n.sh == sh;
      ReadOnly(cfg, sh, c, n);
    }
  }

  lemma MarkRows(sends: map<string, SendRow>, parts: map<PartKey, PartRow>, created: CreatedMap,
                 complete: map<string, set<string>>, k: PartKey, at: Option<int>)
    requires PartsOk(sends, parts, created) && CompleteOk(sends, parts, created, complete)
    requires k in parts && at.Some?
    ensures var parts' := parts[k := parts[k].(uploadedAt := at)];
            && PartsOk(sends, parts', created) && CompleteOk(sends, parts', created, complete)
            && PartsAdvance(parts, created, parts')
  {
    var parts' := parts[k := parts[k].(uploadedAt := at)];
    forall j | j in parts' ensures j.0 in sends && PartOk(parts', j, created) {
      assert PartOk(parts, j, created);
    }
  }

  lemma {:induction false} ByIdNames(parts: seq<PartMeta>, p: string)
    requires p in ById(parts)
    ensures ById(parts)[p].partId == p
  {
    if parts[|parts| - 1].partId != p { ByIdNames(parts[..|parts| - 1], p); }
  }

  // ------------------------------------------------------------------ FinalizeSend

  lemma FinalizeOk(cfg: Config, sh: Shared, c: CallId, call: Call)
    requires call.FinStatus? || call.FinCount? || call.FinUpdate?
    requires InvShared(cfg, sh) && InvCall(cfg, sh, c, call)
    ensures Good(cfg, sh, c, ExecFinalize(sh, call))
  {
    var n, s := ExecFinalize(sh, call), call.sendId;
    if call.FinUpdate? && FinalizeMatches(sh.db, s) {
      FinUpdateOk(cfg, sh, c, call);
    } else {
      assert n.sh == sh;
      if n.call.FinUpdate? { NoneMissing(sh.db, s); }
      ReadOnly(cfg, sh, c, n);
    }
  }

  lemma NoneMissing(db: Db, s: string)
    requires |Missing(db, s)| == 0
    ensures AllMarked(db.parts, s)
  {
    forall k | k in db.parts && k.0 == s ensures db.parts[k].uploadedAt.Some? {
      assert k !in Missing(db, s);
    }
  }

  lemma FinUpdateOk(cfg: Config, sh: Shared, c: CallId, call: Call)
    requires call.FinUpdate? && InvShared(cfg, sh) && InvCall(cfg, sh, c, call) && FinalizeMatches(sh.db, call.sendId)
    ensures Good(cfg, sh, c, ExecFinalize(sh, call))
  {
    var n, s := ExecFinalize(sh, call), call.sendId;
    var row := sh.db.sends[s].(status := Finalized, finalizedAt := Some(Unix(sh.clock)));
    AllUploaded(sh, s);
    FinalizedRows(cfg, sh, s, row);
    FinalizedHistory(sh.hist, c, s, UploadedParts(sh.db, s));
    PartsRefl(sh.db.parts, sh.hist.created);
    assert n.sh == sh.(db := sh.db.(sends := sh.db.sends[s := row]),
                       hist := sh.hist.(complete := sh.hist.complete[s := UploadedParts(sh.db, s)]));
    Assemble(cfg, sh, c, n);
  }

  lemma FinalizedRows(cfg: Config, sh: Shared, s: string, row: SendRow)
    requires InvShared(cfg, sh) && FinalizeMatches(sh.db, s) && AllMarked(sh.db.parts, s)
    requires row == sh.db.sends[s].(status := Finalized, finalizedAt := row.finalizedAt)
    ensures var sends, h := sh.db.sends[s := row], sh.hist;
            var complete := h.complete[s := Declared(h.created, s).Keys];
            && SendsOk(sends, h.created) && PartsOk(sends, sh.db.parts, h.created)
            && CompleteOk(sends, sh.db.parts, h.created, complete)
            && WinnerOk(sends, h.created, complete, h.winner)
            && EventsOk(h.created, complete, h.winner, h.granted)
            && GrantsOk(cfg, sends, sh.db.grants, h.granted)
            && SendsAdvance(sh.db.sends, h.created, sends)
  {
    var db, h := sh.db, sh.hist;
    assert s in h.created && RowLe(db.sends[s], row);
    hide IdsOk, SendsOk, PartsOk, CompleteOk, WinnerOk, EventsOk, GrantsOk, BlobsOk, DeliveredOk, SendsAdvance;
    RowReplaced(cfg, db, h, s, row);
    FinalizedComplete(db.sends, db.parts, h.created, h.complete, s, row);
    FinalizedWinner(db.sends, h.created, h.complete, h.winner, s, row);
    var complete := h.complete[s := Declared(h.created, s).Keys];
    WinnersWiden(db.sends[s := row], h.created, h.complete, complete, h.winner, h.granted);
  }

  lemma FinalizedComplete(sends: map<string, SendRow>, parts: map<PartKey, PartRow>, created: CreatedMap,
                          complete: map<string, set<string>>, s: string, row: SendRow)
    requires CompleteOk(sends, parts, created, complete) && s in sends && sends[s].status.Creating?
    requires row.status.Finalized? && AllMarked(parts, s) && s in created
    ensures CompleteOk(sends[s := row], parts, created, complete[s := Declared(created, s).Keys])
  {
  }

  lemma FinalizedWinner(sends: map<string, SendRow>, created: CreatedMap, complete: map<string, set<string>>,
                        winner: map<string, (CallId, int)>, s: string, row: SendRow)
    requires WinnerOk(sends, created, complete, winner) && s in sends && row.consumedAt == sends[s].consumedAt
    ensures WinnerOk(sends[s := row], created, complete, winner)
  {
  }

  /** What replacing a row by a later version of it keeps. */
  lemma RowReplaced(cfg: Config, db: Db, h: History, s: string, row: SendRow)
    requires SendsOk(db.sends, h.created) && PartsOk(db.sends, db.parts, h.created)
    requires GrantsOk(cfg, db.sends, db.grants, h.granted)
    requires s in db.sends && RowLe(db.sends[s], row)
    ensures SendsOk(db.sends[s := row], h.created)
    ensures PartsOk(db.sends[s := row], db.parts, h.created)
    ensures GrantsOk(cfg, db.sends[s := row], db.grants, h.granted)
    ensures SendsAdvance(db.sends, h.created, db.sends[s := row])
  {
  }

  lemma WinnersWiden(sends: map<string, SendRow>, created: CreatedMap, complete: map<string, set<string>>,
                     complete': map<string, set<string>>, winner: map<string, (CallId, int)>, granted: set<GrantEvent>)
    requires WinnerOk(sends, created, complete, winner) && EventsOk(created, complete, winner, granted)
    requires complete.Keys <= complete'.Keys
    ensures WinnerOk(sends, created, complete', winner) && EventsOk(created, complete', winner, granted)
  {
  }

  lemma FinalizedHistory(h: History, c: CallId, s: string, parts: set<string>)
    requires s in h.complete ==> h.complete[s] == parts
    ensures HistoryGrows(h, c, h.(complete := h.complete[s := parts]))
  {
  }

  lemma AllUploaded(sh: Shared, s: string)
    requires PartsOk(sh.db.sends, sh.db.parts, sh.hist.created) && s in sh.db.sends && s in sh.hist.created
    requires AllMarked(sh.db.parts, s)
    ensures UploadedParts(sh.db, s) == Declared(sh.hist.created, s).Keys
  {
    forall p ensures p in UploadedParts(sh.db, s) <==> p in Declared(sh.hist.created, s) {
      if p in Declared(sh.hist.created, s) { assert (s, p) in sh.db.parts; }
      if p in UploadedParts(sh.db, s) {
        var k :| k in sh.db.parts && k.0 == s && k.1 == p;
        assert PartOk(sh.db.parts, k, sh.hist.created);
      }
    }
  }

  // -------------------------------------------------------------------- RedeemSend

  lemma RedeemOk(cfg: Config, sh: Shared, c: CallId, call: Call)
    requires call.RedLoad? || call.RedConsume? || call.RedInsert? || call.RedParts?
    requires InvShared(cfg, sh) && InvCall(cfg, sh, c, call)
    ensures Good(cfg, sh, c, ExecRedeem(cfg, sh, c, call))
  {
    var n := ExecRedeem(cfg, sh, c, call);
    if call.RedConsume? && ConsumeMatches(sh.db, call.sendId, call.now) { ConsumeOk(cfg, sh, c, call); }
    else if n.call.RedParts? { InsertOk(cfg, sh, c, call); }
    else {
      assert n.sh == sh;
      if call.RedLoad? { RedLoadOk(cfg, sh, c, call); }
      ReadOnly(cfg, sh, c, n);
    }
  }

  lemma RedLoadOk(cfg: Config, sh: Shared, c: CallId, call: Call)
    requires call.RedLoad? && InvShared(cfg, sh) && InvCall(cfg, sh, c, call)
    ensures InvCall(cfg, sh, c, ExecRedeem(cfg, sh, c, call).call)
  {
    hide IdsOk, PartsOk, GrantsOk, BlobsOk, DeliveredOk, EventsOk, WinnerOk;
  }

  lemma ConsumeOk(cfg: Config, sh: Shared, c: CallId, call: Call)
    requires call.RedConsume? && InvShared(cfg, sh) && InvCall(cfg, sh, c, call)
    requires ConsumeMatches(sh.db, call.sendId, call.now)
    ensures Good(cfg, sh, c, ExecRedeem(cfg, sh, c, call))
  {
    var n, s := ExecRedeem(cfg, sh, c, call), call.sendId;
    ConsumedRows(cfg, sh, s, c, call.now);
    ConsumedHistory(sh.hist, c, s, call.now);
    PartsRefl(sh.db.parts, sh.hist.created);
    var row := sh.db.sends[s].(consumedAt := Some(Unix(call.now)));
    assert n.sh == sh.(db := sh.db.(sends := sh.db.sends[s := row]),
                       hist := sh.hist.(winner := sh.hist.winner[s := (c, call.now)]));
    Assemble(cfg, sh, c, n);
  }

  lemma ConsumedRows(cfg: Config, sh: Shared, s: string, c: CallId, now: int)
    requires InvShared(cfg, sh) && ConsumeMatches(sh.db, s, now)
    ensures s !in sh.hist.winner
    ensures var sends, h := sh.db.sends[s := sh.db.sends[s].(consumedAt := Some(Unix(now)))], sh.hist;
            var winner := h.winner[s := (c, now)];
            && SendsOk(sends, h.created) && PartsOk(sends, sh.db.parts, h.created)
            && CompleteOk(sends, sh.db.parts, h.created, h.complete)
            && WinnerOk(sends, h.created, h.complete, winner)
            && EventsOk(h.created, h.complete, winner, h.granted)
            && GrantsOk(cfg, sends, sh.db.grants, h.granted)
            && SendsAdvance(sh.db.sends, h.created, sends)
  {
    var db, h := sh.db, sh.hist;
    RowReplaced(cfg, db, h, s, db.sends[s].(consumedAt := Some(Unix(now))));
  }

  lemma ConsumedHistory(h: History, c: CallId, s: string, now: int)
    requires s !in h.winner
    ensures HistoryGrows(h, c, h.(winner := h.winner[s := (c, now)]))
  {
  }

  lemma InsertOk(cfg: Config, sh: Shared, c: CallId, call: Call)
    requires call.RedInsert? && InvShared(cfg, sh) && InvCall(cfg, sh, c, call)
    requires ExecRedeem(cfg, sh, c, call).call.RedParts?
    ensures Good(cfg, sh, c, ExecRedeem(cfg, sh, c, call))
  {
    hide SendsOk, PartsOk, CompleteOk, WinnerOk, EventsOk, GrantsOk, BlobsOk, DeliveredOk, IdsOk, HistoryGrows,
        SendsAdvance, PartsAdvance;
    var n := ExecRedeem(cfg, sh, c, call);
    var g := GrantEvent(c, call.sendId, call.token, call.now);
    InsertedGrants(cfg, sh, n.sh, cfg.tokenSha(call.token), g);
    GrantedHistory(sh.hist, c, g);
    assert n.sh.hist == sh.hist.(granted := sh.hist.granted + {g});
    SendsRefl(sh.db.sends, sh.hist.created);
    PartsRefl(sh.db.parts, sh.hist.created);
    Assemble(cfg, sh, c, n);
  }

  lemma GrantedHistory(h: History, c: CallId, g: GrantEvent)
    requires EventsOk(h.created, h.complete, h.winner, h.granted)
    requires g.caller == c && NoGrantYet(h.granted, c) && g.sendId in h.complete
    requires OneTime(h.created, g.sendId) ==> g.sendId in h.winner && h.winner[g.sendId] == (g.caller, g.now)
    ensures EventsOk(h.created, h.complete, h.winner, h.granted + {g})
    ensures HistoryGrows(h, c, h.(granted := h.granted + {g}))
  {
  }

  lemma InsertedGrants(cfg: Config, sh: Shared, sh': Shared, hash: string, g: GrantEvent)
    requires GrantsOk(cfg, sh.db.sends, sh.db.grants, sh.hist.granted)
    requires cfg.tokenSha(g.token) == hash && g.sendId in sh.db.sends
    requires sh'.db == sh.db.(grants := sh.db.grants[hash := NewGrantRow(g.sendId, g.now, cfg.grantTtl)])
    requires sh'.hist.granted == sh.hist.granted + {g}
    ensures GrantsOk(cfg, sh'.db.sends, sh'.db.grants, sh'.hist.granted)
  {
    forall h | h in sh'.db.grants ensures GrantOk(cfg, h, sh'.db.grants[h], sh'.hist.granted) {
      if h == hash {
        assert GrantFrom(cfg, h, sh'.db.grants[h], g);
      } else {
        var e :| e in sh.hist.granted && GrantFrom(cfg, h, sh.db.grants[h], e);
        assert e in sh'.hist.granted;
      }
    }
  }

  // ----------------------------------------------------------------------- GetPart

  lemma GetOk(cfg: Config, sh: Shared, c: CallId, call: Call)
    requires call.GetValidate? || call.GetDeclared? || call.GetOpen?
    requires InvShared(cfg, sh) && InvCall(cfg, sh, c, call)
    ensures Good(cfg, sh, c, ExecGet(cfg, sh, call))
  {
    var n := ExecGet(cfg, sh, call);
    if call.GetOpen? { OpenOk(cfg, sh, c, call); }
    else {
      assert n.sh == sh;
      if call.GetDeclared? && n.call.GetOpen? {
        assert PartOk(sh.db.parts, (call.sendId, call.partId), sh.hist.created);
      } else if n.call.GetDeclared? {
        AcceptedWasGranted(cfg, sh, call.sendId, call.token);
      }
      ReadOnly(cfg, sh, c, n);
    }
  }

  lemma AcceptedWasGranted(cfg: Config, sh: Shared, s: string, t: string)
    requires GrantsOk(cfg, sh.db.sends, sh.db.grants, sh.hist.granted)
    requires GrantAccepted(sh.db, s, cfg.tokenSha(t), sh.clock)
    ensures GrantWas(cfg, sh.hist.granted, s, t)
  {
    var h := cfg.tokenSha(t);
    assert GrantOk(cfg, h, sh.db.grants[h], sh.hist.granted);
  }

  lemma OpenOk(cfg: Config, sh: Shared, c: CallId, call: Call)
    requires call.GetOpen? && InvShared(cfg, sh) && InvCall(cfg, sh, c, call)
    ensures Good(cfg, sh, c, ExecGet(cfg, sh, call))
  {
    var n, key := ExecGet(cfg, sh, call), StorageKey(call.sendId, call.partId);
    if key in sh.blobs {
      var d := Delivery(call.sendId, call.partId, call.token, sh.blobs[key]);
      assert n == Next(sh.(hist := sh.hist.(delivered := sh.hist.delivered + {d})), Done(Data(d.data)));
      assert NoSlash(d.sendId);
      DeliveredMore(cfg, sh, c, d);
    } else {
      assert n.sh == sh;
      ReadOnly(cfg, sh, c, n);
    }
  }

  lemma DeliveredMore(cfg: Config, sh: Shared, c: CallId, d: Delivery)
    requires InvShared(cfg, sh) && NoSlash(d.sendId)
    requires BlobMatches(cfg, sh.hist.created, StorageKey(d.sendId, d.partId), d.data)
    requires GrantWas(cfg, sh.hist.granted, d.sendId, d.token)
    ensures Good(cfg, sh, c, Next(sh.(hist := sh.hist.(delivered := sh.hist.delivered + {d})), Done(Data(d.data))))
  {
    hide SendsOk, PartsOk, CompleteOk, WinnerOk, EventsOk, GrantsOk, BlobsOk, DeliveredOk, IdsOk, HistoryGrows,
        SendsAdvance, PartsAdvance, BlobMatches, GrantWas;
    DeliveredSet(cfg, sh.hist, d);
    DeliveredHistory(sh.hist, c, d);
    SendsRefl(sh.db.sends, sh.hist.created);
    PartsRefl(sh.db.parts, sh.hist.created);
  }

  lemma DeliveredSet(cfg: Config, h: History, d: Delivery)
    requires DeliveredOk(cfg, h.created, h.granted, h.delivered) && NoSlash(d.sendId)
    requires BlobMatches(cfg, h.created, StorageKey(d.sendId, d.partId), d.data)
        && GrantWas(cfg, h.granted, d.sendId, d.token)
    ensures DeliveredOk(cfg, h.created, h.granted, h.delivered + {d})
  {
    hide BlobMatches, GrantWas;
  }

  lemma DeliveredHistory(h: History, c: CallId, d: Delivery)
    ensures HistoryGrows(h, c, h.(delivered := h.delivered + {d}))
  {
  }

  // ----------------------------------------------------------------- DeleteExpired

  lemma ReapOk(cfg: Config, sh: Shared, c: CallId, call: Call, pick: string)
    requires call.ReapSelect? || call.ReapKeys? || call.ReapDelete? || call.ReapBlobs?
    requires Ready(call, pick) && InvShared(cfg, sh) && InvCall(cfg, sh, c, call)
    ensures Good(cfg, sh, c, ExecReap(cfg, sh, call, pick))
  {
    hide SendsOk, PartsOk, CompleteOk, WinnerOk, EventsOk, GrantsOk, BlobsOk, DeliveredOk, Rely, PickedOk,
        SelectReapable, KeysOf, DeleteSends;
    var n := ExecReap(cfg, sh, call, pick);
    if call.ReapSelect? {
      SelectedOk(cfg, sh, call.now);
      ReadOnly(cfg, sh, c, n);
    } else if call.ReapKeys? {
      assert n.sh == sh;
      ReapedKeys(sh.db, sh.hist.created, call.picked.Keys);
      ReadOnly(cfg, sh, c, n);
    } else if call.ReapDelete? {
      ReapDeleteOk(cfg, sh, c, call, pick);
    } else {
      Unlinked(cfg, sh, c, n, pick);
    }
  }

  lemma ReapDeleteOk(cfg: Config, sh: Shared, c: CallId, call: Call, pick: string)
    requires call.ReapDelete? && InvShared(cfg, sh) && InvCall(cfg, sh, c, call)
    ensures Good(cfg, sh, c, ExecReap(cfg, sh, call, pick))
  {
    hide IdsOk, SendsOk, PartsOk, CompleteOk, WinnerOk, EventsOk, GrantsOk, BlobsOk, DeliveredOk;
    var n := ExecReap(cfg, sh, call, pick);
    DeletedRows(cfg, sh, call.picked.Keys);
    HistoryRefl(sh.hist, c);
    assert n.sh == sh.(db := DeleteSends(sh.db, call.picked.Keys));
    Assemble(cfg, sh, c, n);
  }

  lemma SelectedOk(cfg: Config, sh: Shared, now: int)
    requires SendsOk(sh.db.sends, sh.hist.created)
    ensures PickedOk(cfg, sh.db.sends, sh.hist.created, now, SelectReapable(sh.db, now, cfg.grantTtl))
  {
  }

  lemma ReapedKeys(db: Db, created: CreatedMap, ids: set<string>)
    requires PartsOk(db.sends, db.parts, created)
    requires forall id :: id in created ==> NoSlash(id)
    ensures forall key :: key in KeysOf(db, ids) ==> KnownKey(created, key) && KeyOwner(key).0 in ids
  {
    forall key | key in KeysOf(db, ids) ensures KnownKey(created, key) && KeyOwner(key).0 in ids {
      var k :| k in db.parts && k.0 in ids && db.parts[k].storageKey == key;
      assert PartOk(db.parts, k, created);
      KeyOwnerOfStorageKey(k.0, k.1);
    }
  }

  lemma DeletedRows(cfg: Config, sh: Shared, ids: set<string>)
    requires InvShared(cfg, sh)
    ensures var db, h := DeleteSends(sh.db, ids), sh.hist;
            && SendsOk(db.sends, h.created) && PartsOk(db.sends, db.parts, h.created)
            && CompleteOk(db.sends, db.parts, h.created, h.complete)
            && WinnerOk(db.sends, h.created, h.complete, h.winner)
            && GrantsOk(cfg, db.sends, db.grants, h.granted)
            && SendsAdvance(sh.db.sends, h.created, db.sends)
            && PartsAdvance(sh.db.parts, h.created, db.parts)
  {
    var db, h := DeleteSends(sh.db, ids), sh.hist;
    forall k | k in db.parts ensures k.0 in db.sends && PartOk(db.parts, k, h.created) {
      assert PartOk(sh.db.parts, k, h.created);
    }
  }

  /** One blob is unlinked. */
  lemma Unlinked(cfg: Config, sh: Shared, c: CallId, n: Next, pick: string)
    requires InvShared(cfg, sh) && InvCall(cfg, sh, c, n.call)
    requires n.sh == sh || n.sh == sh.(blobs := sh.blobs - {pick})
    ensures Good(cfg, sh, c, n)
  {
    RelyRefl(sh, c);
    BlobsKept(cfg, sh, n.sh);
  }

  // ------------------------------------------------------------------- OrphanSweep

  lemma SweepOk(cfg: Config, sh: Shared, c: CallId, call: Call, pick: string)
    requires call.SweepLive? || call.SweepList? || call.SweepBlobs?
    requires Ready(call, pick) && InvShared(cfg, sh) && InvCall(cfg, sh, c, call)
    ensures Good(cfg, sh, c, ExecSweep(sh, call, pick))
  {
    Unlinked(cfg, sh, c, ExecSweep(sh, call, pick), pick);
  }

  lemma ExecOk(cfg: Config, sh: Shared, c: CallId, call: Call, pick: string)
    requires Ready(call, pick) && InvShared(cfg, sh) && InvCall(cfg, sh, c, call)
    ensures Good(cfg, sh, c, Exec(cfg, sh, c, call, pick))
  {
    hide InvShared, InvCall, Rely, ExecCreate, ExecPut, ExecFinalize, ExecRedeem, ExecGet, ExecReap, ExecSweep;
    if call.CreateTx? { CreateOk(cfg, sh, c, call); }
    else if call.PutStatus? || call.PutDeclared? || call.PutPublish? || call.PutMark? { PutOk(cfg, sh, c, call); }
    else if call.FinStatus? || call.FinCount? || call.FinUpdate? { FinalizeOk(cfg, sh, c, call); }
    else if call.RedLoad? || call.RedConsume? || call.RedInsert? || call.RedParts? { RedeemOk(cfg, sh, c, call); }
    else if call.GetValidate? || call.GetDeclared? || call.GetOpen? { GetOk(cfg, sh, c, call); }
    else if call.ReapSelect? || call.ReapKeys? || call.ReapDelete? || call.ReapBlobs? {
      ReapOk(cfg, sh, c, call, pick);
    }
    else { SweepOk(cfg, sh, c, call, pick); }
  }

  // ------------------------------------------------------------ global steps

  /** One step of the whole system keeps the invariant. */
  lemma StepOk(cfg: Config, s: State, a: Action)
    requires Inv(cfg, s) && Enabled(s, a)
    ensures Inv(cfg, Apply(cfg, s, a))
  {
    var s' := Apply(cfg, s, a);
    match a
    case Tick(_) => TickOk(cfg, s, a);
    case Crash =>
    case Drop(_) =>
    case Begin(req) => BeginOk(cfg, s, req);
    case Advance(c, pick) => AdvanceOk(cfg, s, c, pick);
  }

  lemma TickOk(cfg: Config, s: State, a: Action)
    requires a.Tick? && Inv(cfg, s) && Enabled(s, a)
    ensures Inv(cfg, Apply(cfg, s, a))
  {
    var s' := Apply(cfg, s, a);
    DeliveredKept(cfg, s.sh, s'.sh);
    forall c | c in s'.calls ensures InvCall(cfg, s'.sh, c, s'.calls[c]) {
      Stable(cfg, s.sh, s.next, s'.sh, c, s.calls[c]);
    }
  }

  lemma BeginOk(cfg: Config, s: State, req: Request)
    requires Inv(cfg, s) && Enabled(s, Begin(req))
    ensures Inv(cfg, Apply(cfg, s, Begin(req)))
  {
    hide SendsOk, PartsOk, CompleteOk, WinnerOk, EventsOk, GrantsOk, BlobsOk, DeliveredOk, InvCall, SendsAdvance,
        PartsAdvance, HistoryGrows;
    var s' := Apply(cfg, s, Begin(req));
    BegunShared(cfg, s, req);
    BegunOk(cfg, s, req);
    forall c | c in s'.calls ensures InvCall(cfg, s'.sh, c, s'.calls[c]) {
      if c != s.next { Stable(cfg, s.sh, s.next, s'.sh, c, s.calls[c]); }
    }
  }

  lemma BegunShared(cfg: Config, s: State, req: Request)
    requires Inv(cfg, s) && Enabled(s, Begin(req))
    ensures var s' := Apply(cfg, s, Begin(req));
            InvShared(cfg, s'.sh) && InvNext(s'.sh.hist, s'.next) && Rely(s.sh, s.next, s'.sh)
    ensures forall id :: id in s.sh.hist.created ==> id in s.sh.hist.reserved
  {
    hide SendsOk, PartsOk, CompleteOk, WinnerOk, EventsOk, GrantsOk, BlobsOk, DeliveredOk, InvCalls, SendsAdvance,
        PartsAdvance;
    var s' := Apply(cfg, s, Begin(req));
    assert s'.sh.hist.created == s.sh.hist.created && s'.sh.hist.granted == s.sh.hist.granted;
    SendsRefl(s.sh.db.sends, s.sh.hist.created);
    PartsRefl(s.sh.db.parts, s.sh.hist.created);
  }

  lemma BegunOk(cfg: Config, s: State, req: Request)
    requires InvNext(s.sh.hist, s.next) && Enabled(s, Begin(req))
    requires forall id :: id in s.sh.hist.created ==> id in s.sh.hist.reserved
    ensures InvCall(cfg, Apply(cfg, s, Begin(req)).sh, s.next, Start(req, s.sh.clock))
  {
  }

  lemma AdvanceOk(cfg: Config, s: State, c: CallId, pick: string)
    requires Inv(cfg, s) && Enabled(s, Advance(c, pick))
    ensures Inv(cfg, Apply(cfg, s, Advance(c, pick)))
  {
    var s' := Apply(cfg, s, Advance(c, pick));
    ExecOk(cfg, s.sh, c, s.calls[c], pick);
    forall d | d in s'.calls ensures InvCall(cfg, s'.sh, d, s'.calls[d]) {
      if d != c { Stable(cfg, s.sh, c, s'.sh, d, s.calls[d]); }
    }
    ReservedKept(cfg, s.sh, c, s.calls[c], pick);
  }

  lemma ReservedKept(cfg: Config, sh: Shared, c: CallId, call: Call, pick: string)
    requires Ready(call, pick)
    ensures Exec(cfg, sh, c, call, pick).sh.hist.reserved == sh.hist.reserved
  {
    hide PutOutcome, CreateTransaction, DeleteSends, MarkUploaded, FinalizeUpdate, ConsumeUpdate, KeysOf, LiveKeys,
        SelectReapable, Missing, PartsBrief;
  }

  lemma InitOk(cfg: Config)
    ensures Inv(cfg, INIT)
  {
  }

  /** The invariant holds in every state of every run. */
  lemma {:induction false} RunOk(cfg: Config, ss: seq<State>, acts: seq<Action>, i: nat)
    requires IsRun(cfg, ss, acts) && i < |ss|
    ensures Inv(cfg, ss[i])
  {
    hide InvShared, InvCalls, InvNext, Apply;
    if i == 0 {
      InitOk(cfg);
    } else {
      RunOk(cfg, ss, acts, i - 1);
      StepOk(cfg, ss[i - 1], acts[i - 1]);
    }
  }
}
