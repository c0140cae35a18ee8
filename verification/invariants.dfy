/** What every reachable state of the protocol satisfies, whatever the interleaving:
    an invariant of the shared state, an invariant of each control point, and the
    relation that the step of one call keeps for the benefit of all the others. */
module Invariants {
  import opened Records
  import opened Sql
  import opened Protocol

  type CreatedMap = map<string, Declaration>

  function Declared(created: CreatedMap, id: string): map<string, PartMeta>
    requires id in created
  {
    ById(created[id].input.parts)
  }

  predicate OneTime(created: CreatedMap, id: string) {
    id in created && created[id].input.oneTime
  }

  // ------------------------------------------------------------ shared invariant
  // Each clause names exactly the components it speaks of.

  ghost predicate IdsOk(reserved: map<string, CallId>, created: CreatedMap) {
    && (forall id :: id in reserved ==> NoSlash(id))
    && (forall id :: id in created ==> id in reserved && DistinctIds(created[id].input.parts))
  }

  predicate RowFrom(row: SendRow, d: Declaration) {
    && row.oneTime == d.input.oneTime
    && row.createdAt == Unix(d.now)
    && row.expiresAt == Unix(d.now + d.input.ttl)
    && row.partCount == |d.input.parts|
    && row.totalEncryptedSize == Wrap64(TotalSize(d.input.parts))
    && (row.status.Creating? || row.status.Finalized?)
  }

  ghost predicate SendsOk(sends: map<string, SendRow>, created: CreatedMap) {
    forall id :: id in sends ==> id in created && RowFrom(sends[id], created[id])
  }

  predicate PartFrom(row: PartRow, id: string, p: string, m: PartMeta) {
    row.storageKey == StorageKey(id, p) && row.encryptedSize == m.encryptedSize && row.sha256 == m.sha256
  }

  predicate PartOk(parts: map<PartKey, PartRow>, k: PartKey, created: CreatedMap)
    requires k in parts
  {
    k.0 in created && k.1 in Declared(created, k.0) && PartFrom(parts[k], k.0, k.1, Declared(created, k.0)[k.1])
  }

  /** The part rows are exactly the declared parts of the sends that have a row. */
  ghost predicate PartsOk(sends: map<string, SendRow>, parts: map<PartKey, PartRow>, created: CreatedMap) {
    && (forall k :: k in parts ==> k.0 in sends && PartOk(parts, k, created))
    && (forall id, p :: id in sends && id in created && p in Declared(created, id) ==> (id, p) in parts)
  }

  /** A finalized send had all its declared parts uploaded, and still has. */
  ghost predicate CompleteOk(sends: map<string, SendRow>, parts: map<PartKey, PartRow>,
                             created: CreatedMap, complete: map<string, set<string>>) {
    && (forall id :: id in complete ==>
          && id in created && complete[id] == Declared(created, id).Keys
          && (id in sends ==> sends[id].status.Finalized?))
    && (forall id :: id in sends && sends[id].status.Finalized? ==> id in complete)
    && (forall k :: k in parts && k.0 in complete ==> parts[k].uploadedAt.Some?)
  }

  /** A send is marked consumed by exactly the call recorded as its winner. */
  ghost predicate WinnerOk(sends: map<string, SendRow>, created: CreatedMap,
                           complete: map<string, set<string>>, winner: map<string, (CallId, int)>) {
    && (forall id :: id in winner ==>
          && id in complete && OneTime(created, id)
          && (id in sends ==> sends[id].consumedAt == Some(Unix(winner[id].1))))
    && (forall id :: id in sends && sends[id].consumedAt.Some? ==> id in winner)
  }

  ghost predicate EventsOk(created: CreatedMap, complete: map<string, set<string>>,
                           winner: map<string, (CallId, int)>, granted: set<GrantEvent>) {
    && (forall e :: e in granted ==>
          && e.sendId in complete
          && (OneTime(created, e.sendId) ==> e.sendId in winner && winner[e.sendId] == (e.caller, e.now)))
    && (forall e, f :: e in granted && f in granted && e.caller == f.caller ==> e == f)
  }

  predicate GrantFrom(cfg: Config, hash: string, row: GrantRow, e: GrantEvent) {
    cfg.tokenSha(e.token) == hash && row == NewGrantRow(e.sendId, e.now, cfg.grantTtl)
  }

  ghost predicate GrantOk(cfg: Config, hash: string, row: GrantRow, granted: set<GrantEvent>) {
    exists e :: e in granted && GrantFrom(cfg, hash, row, e)
  }

  ghost predicate GrantsOk(cfg: Config, sends: map<string, SendRow>, grants: map<string, GrantRow>,
                           granted: set<GrantEvent>) {
    forall h :: h in grants ==> grants[h].sendId in sends && GrantOk(cfg, h, grants[h], granted)
  }

  /** `data` is what was declared for the part that owns the key. */
  ghost predicate BlobMatches(cfg: Config, created: CreatedMap, key: string, data: Bytes) {
    var (s, p) := KeyOwner(key);
    && key == StorageKey(s, p)
    && s in created && p in Declared(created, s)
    && |data| == Declared(created, s)[p].encryptedSize
    && cfg.sha(data) == Declared(created, s)[p].sha256
  }

  ghost predicate BlobsOk(cfg: Config, created: CreatedMap, blobs: map<string, Bytes>) {
    forall k :: k in blobs ==> BlobMatches(cfg, created, k, blobs[k])
  }

  ghost predicate GrantWas(cfg: Config, granted: set<GrantEvent>, s: string, token: string) {
    exists e :: e in granted && e.sendId == s && cfg.tokenSha(e.token) == cfg.tokenSha(token)
  }

  ghost predicate DeliveredOk(cfg: Config, created: CreatedMap, granted: set<GrantEvent>, delivered: set<Delivery>) {
    forall d :: d in delivered ==>
      && NoSlash(d.sendId)
      && BlobMatches(cfg, created, StorageKey(d.sendId, d.partId), d.data)
      && GrantWas(cfg, granted, d.sendId, d.token)
  }

  ghost predicate InvShared(cfg: Config, sh: Shared) {
    var db, h := sh.db, sh.hist;
    && IdsOk(h.reserved, h.created)
    && SendsOk(db.sends, h.created)
    && PartsOk(db.sends, db.parts, h.created)
    && CompleteOk(db.sends, db.parts, h.created, h.complete)
    && WinnerOk(db.sends, h.created, h.complete, h.winner)
    && EventsOk(h.created, h.complete, h.winner, h.granted)
    && GrantsOk(cfg, db.sends, db.grants, h.granted)
    && BlobsOk(cfg, h.created, sh.blobs)
    && DeliveredOk(cfg, h.created, h.granted, h.delivered)
  }

  // ----------------------------------------------------- control point invariant

  ghost predicate NoGrantYet(granted: set<GrantEvent>, c: CallId) {
    forall e :: e in granted ==> e.caller != c
  }

  /** How a row that was read earlier relates to the same send's row now. */
  predicate RowLe(a: SendRow, b: SendRow) {
    && a.oneTime == b.oneTime && a.createdAt == b.createdAt && a.expiresAt == b.expiresAt
    && a.totalEncryptedSize == b.totalEncryptedSize && a.partCount == b.partCount
    && (a.status == b.status || (a.status.Creating? && b.status.Finalized?))
    && (a.consumedAt.Some? ==> a.consumedAt == b.consumedAt)
  }

  predicate PartLe(a: PartRow, b: PartRow) {
    && a.storageKey == b.storageKey && a.encryptedSize == b.encryptedSize && a.sha256 == b.sha256
    && (a.uploadedAt.Some? ==> b.uploadedAt.Some?)
  }

  ghost predicate PickedOk(cfg: Config, sends: map<string, SendRow>, created: CreatedMap,
                           now: int, picked: map<string, SendRow>) {
    forall id :: id in picked ==>
      && id in created && Reapable(picked[id], now, cfg.grantTtl)
      && (id in sends ==> RowLe(picked[id], sends[id]))
  }

  /** The key of a declared part of a send that was created. */
  predicate KnownKey(created: CreatedMap, key: string) {
    var (s, p) := KeyOwner(key);
    key == StorageKey(s, p) && s in created && p in Declared(created, s)
  }

  ghost predicate AllMarked(parts: map<PartKey, PartRow>, s: string) {
    forall k :: k in parts && k.0 == s ==> parts[k].uploadedAt.Some?
  }

  ghost predicate InvCall(cfg: Config, sh: Shared, c: CallId, call: Call) {
    var db, h := sh.db, sh.hist;
    match call
    case CreateTx(id, _, now) => id in h.reserved && h.reserved[id] == c && id !in h.created && now <= sh.clock
    case PutPublish(s, p, _, want) =>
      s in h.created && p in Declared(h.created, s) && want == Declared(h.created, s)[p]
    case PutMark(s, p, _) => s in h.created && p in Declared(h.created, s)
    case FinCount(s) => s in h.created
    case FinUpdate(s) => s in h.created && AllMarked(db.parts, s)
    case RedLoad(_, _, now) => NoGrantYet(h.granted, c) && now <= sh.clock
    case RedConsume(s, _, now) =>
      NoGrantYet(h.granted, c) && now <= sh.clock && s in h.complete && OneTime(h.created, s)
    case RedInsert(s, _, now) =>
      && NoGrantYet(h.granted, c) && now <= sh.clock && s in h.complete
      && (OneTime(h.created, s) ==> s in h.winner && h.winner[s] == (c, now))
    case RedParts(s, t, now) => GrantEvent(c, s, t, now) in h.granted
    case GetDeclared(s, _, t) => GrantWas(cfg, h.granted, s, t)
    case GetOpen(s, p, t) => GrantWas(cfg, h.granted, s, t) && s in h.created && p in Declared(h.created, s)
    case ReapSelect(now) => now <= sh.clock
    case ReapKeys(now, picked) => now <= sh.clock && PickedOk(cfg, db.sends, h.created, now, picked)
    case ReapDelete(now, picked, keys) =>
      && now <= sh.clock && PickedOk(cfg, db.sends, h.created, now, picked)
      && (forall k :: k in keys ==> KnownKey(h.created, k) && KeyOwner(k).0 in picked)
    case ReapBlobs(keys, _) =>
      forall k :: k in keys ==> KnownKey(h.created, k) && KeyOwner(k).0 !in db.sends
    case SweepBlobs(todo, live, _) => todo !! live && (forall k :: k in todo ==> KnownKey(h.created, k))
    case _ => true
  }

  ghost predicate InvCalls(cfg: Config, s: State) {
    forall c :: c in s.calls ==> c < s.next && InvCall(cfg, s.sh, c, s.calls[c])
  }

  /** Identities of calls are not reused. */
  ghost predicate InvNext(h: History, next: CallId) {
    && (forall e :: e in h.granted ==> e.caller < next)
    && (forall id :: id in h.reserved ==> h.reserved[id] < next)
  }

  ghost predicate Inv(cfg: Config, s: State) {
    InvShared(cfg, s.sh) && InvCalls(cfg, s) && InvNext(s.sh.hist, s.next)
  }

  // ---------------------------------------------------------------- the relation

  ghost predicate HistoryGrows(h: History, c: CallId, h': History) {
    && (forall id :: id in h.reserved ==> id in h'.reserved && h'.reserved[id] == h.reserved[id])
    && (forall id :: id in h.created ==> id in h'.created && h'.created[id] == h.created[id])
    && (forall id :: id in h'.created && id !in h.created ==> id in h.reserved && h.reserved[id] == c)
    && (forall id :: id in h.complete ==> id in h'.complete && h'.complete[id] == h.complete[id])
    && (forall id :: id in h.winner ==> id in h'.winner && h'.winner[id] == h.winner[id])
    && h.granted <= h'.granted && h.delivered <= h'.delivered
    && (forall e :: e in h'.granted && e !in h.granted ==> e.caller == c)
  }

  /** Rows never come back and never go backwards: statuses only advance, a consumed
      send stays consumed, an uploaded part stays uploaded. */
  ghost predicate SendsAdvance(sends: map<string, SendRow>, created: CreatedMap, sends': map<string, SendRow>) {
    forall id :: id in sends' && id in created ==> id in sends && RowLe(sends[id], sends'[id])
  }

  ghost predicate PartsAdvance(parts: map<PartKey, PartRow>, created: CreatedMap, parts': map<PartKey, PartRow>) {
    forall k :: k in parts' && k.0 in created ==> k in parts && PartLe(parts[k], parts'[k])
  }

  ghost predicate Rely(sh: Shared, c: CallId, sh': Shared) {
    && HistoryGrows(sh.hist, c, sh'.hist)
    && SendsAdvance(sh.db.sends, sh.hist.created, sh'.db.sends)
    && PartsAdvance(sh.db.parts, sh.hist.created, sh'.db.parts)
    && sh.clock <= sh'.clock
  }

  predicate Reaping(call: Call) {
    call.ReapSelect? || call.ReapKeys? || call.ReapDelete? || call.ReapBlobs? || call.SweepBlobs?
  }

  predicate Redeeming(call: Call) {
    call.RedLoad? || call.RedConsume? || call.RedInsert? || call.RedParts?
  }

  lemma StableReaping(cfg: Config, sh: Shared, c: CallId, sh': Shared, d: CallId, call: Call)
    requires Rely(sh, c, sh') && InvCall(cfg, sh, d, call) && Reaping(call)
    ensures InvCall(cfg, sh', d, call)
  {
    hide PartsAdvance;
  }

  lemma StableRedeeming(cfg: Config, sh: Shared, c: CallId, sh': Shared, d: CallId, call: Call)
    requires CompleteOk(sh.db.sends, sh.db.parts, sh.hist.created, sh.hist.complete)
    requires Rely(sh, c, sh') && c != d && InvCall(cfg, sh, d, call) && Redeeming(call)
    ensures InvCall(cfg, sh', d, call)
  {
    hide PartsAdvance, SendsAdvance;
  }

  lemma StableOther(cfg: Config, sh: Shared, c: CallId, sh': Shared, d: CallId, call: Call)
    requires Rely(sh, c, sh') && c != d && InvCall(cfg, sh, d, call) && !Reaping(call) && !Redeeming(call)
    ensures InvCall(cfg, sh', d, call)
  {
    hide SendsAdvance;
  }

  /** No step of one call disturbs what another call is counting on. */
  lemma Stable(cfg: Config, sh: Shared, c: CallId, sh': Shared, d: CallId, call: Call)
    requires CompleteOk(sh.db.sends, sh.db.parts, sh.hist.created, sh.hist.complete)
    requires Rely(sh, c, sh') && c != d
    requires InvCall(cfg, sh, d, call)
    ensures InvCall(cfg, sh', d, call)
  {
    hide InvCall, Rely, CompleteOk;
    if Reaping(call) {
      StableReaping(cfg, sh, c, sh', d, call);
    } else if Redeeming(call) {
      StableRedeeming(cfg, sh, c, sh', d, call);
    } else {
      StableOther(cfg, sh, c, sh', d, call);
    }
  }
}
