/** What the create endpoint admits: the time-to-live and size arithmetic in int64, the
    operator's limits that it rests on, and the retention bound that follows. */
module Create {
  import opened Records
  import opened Text
  import opened Sql
  import opened Protocol
  import opened Invariants
  import opened Solo

  // ----------------------------------------------------------------- configuration

  const HARD_MAX_TTL := 7 * 24 * HOUR

  datatype Settings = Settings(
    listen: string, dbPath: string, blobDir: string,
    defaultTtl: int, maxTtl: int, grantTtl: int, gcInterval: int,
    maxTotalBytes: int, maxPartBytes: int, maxPartCount: int, rateWindow: int)
  {
    /** The fields are 64-bit integers. */
    predicate Typed() {
      IsInt64(maxTtl) && IsInt64(maxTotalBytes) && IsInt64(maxPartBytes) && IsInt64(maxPartCount)
    }
  }

  datatype BadSetting =
    | EmptyListen | EmptyDbPath | EmptyBlobDir | NonPositiveTime | TtlAboveCeiling | DefaultAboveMax
    | NonPositiveBytes | PartAboveTotal | NonPositiveCount | NonPositiveWindow

  /** The first check that fails, in the order in which they are made. */
  function Validate(c: Settings): Option<BadSetting> {
    if c.listen == "" then Some(EmptyListen)
    else if c.dbPath == "" then Some(EmptyDbPath)
    else if c.blobDir == "" then Some(EmptyBlobDir)
    else if c.defaultTtl <= 0 || c.maxTtl <= 0 || c.grantTtl <= 0 || c.gcInterval <= 0 then Some(NonPositiveTime)
    else if c.maxTtl > HARD_MAX_TTL then Some(TtlAboveCeiling)
    else if c.defaultTtl > c.maxTtl then Some(DefaultAboveMax)
    else if c.maxTotalBytes <= 0 || c.maxPartBytes <= 0 then Some(NonPositiveBytes)
    else if c.maxPartBytes > c.maxTotalBytes then Some(PartAboveTotal)
    else if c.maxPartCount <= 0 then Some(NonPositiveCount)
    else if c.rateWindow <= 0 then Some(NonPositiveWindow)
    else None
  }

  predicate Runs(c: Settings) {
    c.Typed() && Validate(c) == None
  }

  /** The server starts exactly on such settings; a week is 604800 seconds. */
  lemma RunsIff(c: Settings)
    requires c.Typed()
    ensures Runs(c) <==>
              && c.listen != "" && c.dbPath != "" && c.blobDir != ""
              && 0 < c.defaultTtl <= c.maxTtl <= 604800 * 1_000_000_000
              && c.grantTtl > 0 && c.gcInterval > 0 && c.rateWindow > 0
              && 0 < c.maxPartBytes <= c.maxTotalBytes && c.maxPartCount > 0
  {
  }

  // ----------------------------------------------------------------------- request

  datatype CreateRequest = CreateRequest(version: string, oneTime: Option<bool>, ttlSeconds: int, parts: seq<PartMeta>)
  {
    predicate Typed() {
      IsInt64(ttlSeconds) && forall i :: 0 <= i < |parts| ==> IsInt64(parts[i].encryptedSize)
    }
  }

  datatype Refusal =
    | UnsupportedVersion | NoParts | TooManyParts | TtlTooLong
    | InvalidPart | DuplicatePart | PartTooLarge | TotalTooLarge

  datatype Answer = Admitted(input: CreateInput) | Refused(why: Refusal)

  /** `time.Duration(req.TTLSeconds) * time.Second`, in int64, and the default. */
  function EffectiveTtl(c: Settings, ttlSeconds: int): int {
    var ttl := Wrap64(ttlSeconds * SECOND);
    if ttl <= 0 then c.defaultTtl else ttl
  }

  predicate WellDeclared(c: Settings, p: PartMeta) {
    p.partId != "" && p.sha256 != "" && 0 < p.encryptedSize <= c.maxPartBytes
  }

  function Ids(parts: seq<PartMeta>): set<string> {
    set p | p in parts :: p.partId
  }

  /** What the loop answers for part `i` when all earlier ones passed. */
  function PartRefusal(c: Settings, parts: seq<PartMeta>, i: int): Option<Refusal>
    requires 0 <= i < |parts|
  {
    var p := parts[i];
    if p.partId == "" || p.sha256 == "" || p.encryptedSize <= 0 then Some(InvalidPart)
    else if p.partId in Ids(parts[..i]) then Some(DuplicatePart)
    else if p.encryptedSize > c.maxPartBytes then Some(PartTooLarge)
    else None
  }

  predicate PartsPass(c: Settings, parts: seq<PartMeta>, n: int)
    requires 0 <= n <= |parts|
  {
    forall i :: 0 <= i < n ==> PartRefusal(c, parts, i) == None
  }

  /** `why` is the answer for the first part that does not pass. */
  predicate FirstRefusal(c: Settings, parts: seq<PartMeta>, why: Refusal) {
    exists i :: 0 <= i < |parts| && PartsPass(c, parts, i) && PartRefusal(c, parts, i) == Some(why)
  }

  /** Everything an admitted request satisfies, and nothing else. */
  predicate Admissible(c: Settings, req: CreateRequest) {
    && req.version == "send.v1"
    && 0 < |req.parts| <= c.maxPartCount
    && EffectiveTtl(c, req.ttlSeconds) <= c.maxTtl
    && (forall i :: 0 <= i < |req.parts| ==> WellDeclared(c, req.parts[i]))
    && DistinctIds(req.parts)
    && Wrap64(TotalSize(req.parts)) <= c.maxTotalBytes
  }

  function Input(c: Settings, req: CreateRequest): CreateInput {
    CreateInput(if req.oneTime.Some? then req.oneTime.value else true, EffectiveTtl(c, req.ttlSeconds), req.parts)
  }

  lemma WrapAdds(a: int, b: int)
    ensures Wrap64(Wrap64(a) + b) == Wrap64(a + b)
  {
    var q := (a + MAX_INT64 + 1) / TWO_64;
    assert Wrap64(a) + b + MAX_INT64 + 1 == a + b + MAX_INT64 + 1 - q * TWO_64;
    WrapShift(a + b + MAX_INT64 + 1, q);
  }

  lemma WrapShift(x: int, q: int)
    ensures (x - q * TWO_64) % TWO_64 == x % TWO_64
  {
  }

  lemma RunningTotal(parts: seq<PartMeta>, i: nat)
    requires i < |parts|
    ensures Wrap64(Wrap64(TotalSize(parts[..i])) + parts[i].encryptedSize) == Wrap64(TotalSize(parts[..i + 1]))
  {
    assert parts[..i + 1][..i] == parts[..i];
    WrapAdds(TotalSize(parts[..i]), parts[i].encryptedSize);
  }

  lemma PassIffDistinct(c: Settings, parts: seq<PartMeta>)
    ensures PartsPass(c, parts, |parts|) <==>
        DistinctIds(parts) && forall i :: 0 <= i < |parts| ==> WellDeclared(c, parts[i])
  {
    if PartsPass(c, parts, |parts|) {
      forall i | 0 <= i < |parts| ensures WellDeclared(c, parts[i]) {
        assert PartRefusal(c, parts, i) == None;
      }
      forall i, j | 0 <= i < j < |parts| ensures parts[i].partId != parts[j].partId {
        assert PartRefusal(c, parts, j) == None;
        assert parts[i] in parts[..j];
      }
    }
  }

  lemma PassStep(c: Settings, parts: seq<PartMeta>, i: nat)
    requires i < |parts| && PartsPass(c, parts, i)
    ensures PartRefusal(c, parts, i) == None ==> PartsPass(c, parts, i + 1)
    ensures PartRefusal(c, parts, i).Some? ==>
        FirstRefusal(c, parts, PartRefusal(c, parts, i).value) && !PartsPass(c, parts, |parts|)
  {
    hide PartRefusal;
  }

  lemma IdsStep(parts: seq<PartMeta>, i: nat)
    requires i < |parts|
    ensures Ids(parts[..i + 1]) == Ids(parts[..i]) + {parts[i].partId}
  {
    assert parts[..i + 1] == parts[..i] + [parts[i]];
  }

  /** The handler's loop over the declarations: its set of ids seen and its running int64
      total. It stops at the first part that does not pass. */
  method DeclaredParts(c: Settings, declared: seq<PartMeta>)
    returns (why: Option<Refusal>, parts: seq<PartMeta>, total: int)
    ensures why.None? <==> DistinctIds(declared) && forall i :: 0 <= i < |declared| ==> WellDeclared(c, declared[i])
    ensures why.None? ==> parts == declared && total == Wrap64(TotalSize(declared))
    ensures why.Some? ==> FirstRefusal(c, declared, why.value)
    ensures why.Some? ==> why.value in {InvalidPart, DuplicatePart, PartTooLarge}
  {
    PassIffDistinct(c, declared);
    assert Wrap64(TotalSize([])) == 0 && Ids([]) == {};
    assert PartsPass(c, declared, 0);
    hide Wrap64, TotalSize, DistinctIds, Ids, WellDeclared, PartsPass, FirstRefusal;
    parts, total := [], 0;
    var seen: set<string> := {};
    for i := 0 to |declared|
      invariant parts == declared[..i]
      invariant seen == Ids(declared[..i])
      invariant total == Wrap64(TotalSize(declared[..i]))
      invariant PartsPass(c, declared, i)
    {
      var p := declared[i];
      PassStep(c, declared, i);
      if p.partId == "" || p.sha256 == "" || p.encryptedSize <= 0 { return Some(InvalidPart), parts, total; }
      if p.partId in seen { return Some(DuplicatePart), parts, total; }
      seen := seen + {p.partId};
      if p.encryptedSize > c.maxPartBytes { return Some(PartTooLarge), parts, total; }
      RunningTotal(declared, i);
      IdsStep(declared, i);
      total := Wrap64(total + p.encryptedSize);
      parts := parts + [p];
    }
    assert declared[..|declared|] == declared;
    why := None;
  }

  lemma AdmissibleMeans(c: Settings, req: CreateRequest)
    ensures Admissible(c, req) <==>
              && req.version == "send.v1" && 0 < |req.parts| <= c.maxPartCount
              && EffectiveTtl(c, req.ttlSeconds) <= c.maxTtl
              && (forall m :: m in req.parts ==>
                    m.partId != "" && m.sha256 != "" && 0 < m.encryptedSize <= c.maxPartBytes)
              && (forall i, j :: 0 <= i < j < |req.parts| ==> req.parts[i].partId != req.parts[j].partId)
              && Wrap64(TotalSize(req.parts)) <= c.maxTotalBytes
  {
    hide Wrap64, TotalSize;
  }

  /** What the answer to a bad declaration says: it is about the first one that is not good,
      and tells an empty or sizeless part from a repeated id and from an oversized part. */
  lemma FirstRefusalMeans(c: Settings, parts: seq<PartMeta>, why: Refusal)
    ensures FirstRefusal(c, parts, why) <==>
              exists i :: 0 <= i < |parts|
                && (forall j :: 0 <= j < i ==> WellDeclared(c, parts[j])) && DistinctIds(parts[..i])
                && var p := parts[i];
                   var empty, repeated := p.partId == "" || p.sha256 == "" || p.encryptedSize <= 0,
                                          exists j :: 0 <= j < i && parts[j].partId == p.partId;
                   || (why == InvalidPart && empty)
                   || (why == DuplicatePart && !empty && repeated)
                   || (why == PartTooLarge && !empty && !repeated && p.encryptedSize > c.maxPartBytes)
  {
    hide WellDeclared, DistinctIds;
    forall i | 0 <= i < |parts|
      ensures PartsPass(c, parts, i) <==>
              (forall j :: 0 <= j < i ==> WellDeclared(c, parts[j])) && DistinctIds(parts[..i])
    {
      PassIffDistinct(c, parts[..i]);
      PassPrefix(c, parts, i);
    }
    forall i | 0 <= i < |parts|
      ensures parts[i].partId in Ids(parts[..i]) <==> exists j :: 0 <= j < i && parts[j].partId == parts[i].partId
    {
      IdAmong(parts, i, parts[i].partId);
    }
  }

  lemma IdAmong(parts: seq<PartMeta>, i: nat, id: string)
    requires i <= |parts|
    ensures id in Ids(parts[..i]) <==> exists j :: 0 <= j < i && parts[j].partId == id
  {
    if j :| 0 <= j < i && parts[j].partId == id { assert parts[j] in parts[..i]; }
  }

  lemma PassPrefix(c: Settings, parts: seq<PartMeta>, n: nat)
    requires n <= |parts|
    ensures PartsPass(c, parts[..n], n) <==> PartsPass(c, parts, n)
  {
    forall i | 0 <= i < n ensures PartRefusal(c, parts[..n], i) == PartRefusal(c, parts, i) {
      assert parts[..n][..i] == parts[..i];
    }
  }

  /** The handler's checks, in order. It admits exactly the admissible requests, and a
      refusal names the first check that fails. */
  method HandleCreate(c: Settings, req: CreateRequest) returns (v: Answer)
    ensures v.Admitted? <==> Admissible(c, req)
    ensures v.Admitted? <==>
              && req.version == "send.v1" && 0 < |req.parts| <= c.maxPartCount
              && EffectiveTtl(c, req.ttlSeconds) <= c.maxTtl
              && (forall m :: m in req.parts ==>
                    m.partId != "" && m.sha256 != "" && 0 < m.encryptedSize <= c.maxPartBytes)
              && (forall i, j :: 0 <= i < j < |req.parts| ==> req.parts[i].partId != req.parts[j].partId)
              && Wrap64(TotalSize(req.parts)) <= c.maxTotalBytes
    ensures v.Admitted? ==>
              && (v.input.oneTime <==> req.oneTime != Some(false))
              && v.input.parts == req.parts
              && v.input.ttl == EffectiveTtl(c, req.ttlSeconds)
    ensures v.Admitted? ==> v.input == Input(c, req)
    ensures v == Refused(UnsupportedVersion) <==> req.version != "send.v1"
    ensures v == Refused(NoParts) <==> req.version == "send.v1" && |req.parts| == 0
    ensures v == Refused(TooManyParts) <==> req.version == "send.v1" && |req.parts| > 0 && |req.parts| > c.maxPartCount
    ensures v == Refused(TtlTooLong) <==>
              && req.version == "send.v1" && 0 < |req.parts| <= c.maxPartCount
              && EffectiveTtl(c, req.ttlSeconds) > c.maxTtl
    ensures v.Refused? && v.why in {InvalidPart, DuplicatePart, PartTooLarge} ==> FirstRefusal(c, req.parts, v.why)
    ensures v == Refused(TotalTooLarge) ==>
        DistinctIds(req.parts) && forall i :: 0 <= i < |req.parts| ==> WellDeclared(c, req.parts[i])
  {
    AdmissibleMeans(c, req);
    hide Wrap64, TotalSize, DistinctIds, FirstRefusal, WellDeclared;
    if req.version != "send.v1" { return Refused(UnsupportedVersion); }
    if |req.parts| == 0 { return Refused(NoParts); }
    if |req.parts| > c.maxPartCount { return Refused(TooManyParts); }
    var ttl := Wrap64(req.ttlSeconds * SECOND);
    if ttl <= 0 { ttl := c.defaultTtl; }
    if ttl > c.maxTtl { return Refused(TtlTooLong); }
    var why, parts, total := DeclaredParts(c, req.parts);
    if why.Some? { return Refused(why.value); }
    if total > c.maxTotalBytes { return Refused(TotalTooLarge); }
    var oneTime := true;
    if req.oneTime.Some? { oneTime := req.oneTime.value; }
    v := Admitted(CreateInput(oneTime, ttl, parts));
  }

  // -------------------------------------------------------------- the retention bound

  /** Whatever int64 the client sends, even one whose product with a second wraps around,
      an admitted send lives for a positive time of at most the operator's maximum, and
      its two timestamps are at most seven days apart. */
  lemma RetentionBound(c: Settings, req: CreateRequest, now: int)
    requires Runs(c) && Admissible(c, req)
    ensures 0 < Input(c, req).ttl <= c.maxTtl
    ensures var row := NewSendRow(Input(c, req), now); 0 <= row.expiresAt - row.createdAt <= 604800
  {
    var ttl := Input(c, req).ttl;
    assert now + ttl <= now + 604800 * SECOND;
    assert Unix(now + 604800 * SECOND) == Unix(now) + 604800;
  }

  /** No send that was admitted survives an undisturbed sweep taken seven days or more
      after its creation, whatever happened to it in between, in any reachable state. */
  lemma NothingOutlivesTheWeek(cfg: Config, c: Settings, s: State, id: string, req: CreateRequest, now: int)
    requires Runs(c) && Admissible(c, req)
    requires Inv(cfg, s) && id in s.sh.hist.created && s.sh.hist.created[id].input == Input(c, req)
    requires now >= s.sh.hist.created[id].now + HARD_MAX_TTL
    ensures id !in ReapedDb(cfg, s.sh.db, now).sends
    ensures forall p :: (id, p) !in ReapedDb(cfg, s.sh.db, now).parts
  {
    hide PartsOk, CompleteOk, WinnerOk, EventsOk, GrantsOk, BlobsOk, DeliveredOk, InvCalls;
    RetentionBound(c, req, s.sh.hist.created[id].now);
    SweepConverges(cfg, s.sh, now);
    if id in s.sh.db.sends {
      var t := s.sh.hist.created[id].now;
      assert s.sh.db.sends[id].expiresAt == Unix(t + Input(c, req).ttl);
      assert PastExpiry(s.sh.db.sends[id], now);
    }
  }

  // ----------------------------------------------------------- the time a client asks for

  /** What the client means: its own positive number of seconds, or else the default. */
  function AskedTtl(c: Settings, ttlSeconds: int): int {
    if ttlSeconds <= 0 then c.defaultTtl else ttlSeconds * SECOND
  }

  const MAX_SECONDS := MAX_INT64 / SECOND

  lemma WrapsBack(x: int)
    ensures Wrap64(x) == x <==> IsInt64(x)
    ensures IsInt64(Wrap64(x))
  {
  }

  /** A positive request is either granted as asked or refused as too long, if and only if
      its nanoseconds fit in an int64 or wrap to something above the maximum. Beyond that
      a request for three centuries is admitted, with another lifetime. */
  lemma PositiveTtlIff(c: Settings, ttlSeconds: int)
    requires Runs(c) && 0 < ttlSeconds <= MAX_INT64
    ensures (if AskedTtl(c, ttlSeconds) <= c.maxTtl then EffectiveTtl(c, ttlSeconds) == AskedTtl(c, ttlSeconds)
             else EffectiveTtl(c, ttlSeconds) > c.maxTtl)
            <==> ttlSeconds <= MAX_SECONDS || Wrap64(ttlSeconds * SECOND) > c.maxTtl
  {
    WrapsBack(ttlSeconds * SECOND);
  }

  /** The same for the requests that ask for the default. */
  lemma DefaultTtlIff(c: Settings, ttlSeconds: int)
    requires Runs(c) && -MAX_INT64 - 1 <= ttlSeconds <= 0
    ensures EffectiveTtl(c, ttlSeconds) == c.defaultTtl
            <==> -MAX_SECONDS <= ttlSeconds || Wrap64(ttlSeconds * SECOND) <= 0
                 || Wrap64(ttlSeconds * SECOND) == c.defaultTtl
  {
    WrapsBack(ttlSeconds * SECOND);
  }

  /** A request for 18446744074 seconds is admitted and expires within the second. */
  lemma WrappedTtl(c: Settings)
    requires Runs(c) && c.maxTtl >= SECOND
    ensures EffectiveTtl(c, 18446744074) == 290448384
    ensures AskedTtl(c, 18446744074) > c.maxTtl
    ensures var req := CreateRequest("send.v1", None, 18446744074, [PartMeta("a", 1, "x")]); Admissible(c, req)
  {
    assert 18446744074 * SECOND == TWO_64 + 290448384;
    var one := [PartMeta("a", 1, "x")];
    assert one[..0] == [] && TotalSize(one) == 1;
  }

  // ------------------------------------------------------------------- the total cap

  lemma {:induction false} TotalBounds(c: Settings, parts: seq<PartMeta>)
    requires forall i :: 0 <= i < |parts| ==> WellDeclared(c, parts[i])
    ensures |parts| <= TotalSize(parts) <= |parts| * c.maxPartBytes
  {
    if |parts| > 0 {
      TotalBounds(c, parts[..|parts| - 1]);
      assert |parts| * c.maxPartBytes == (|parts| - 1) * c.maxPartBytes + c.maxPartBytes;
    }
  }

  /** Every admitted request of at most `n` parts stays within the total cap. */
  ghost predicate CapHolds(c: Settings, n: nat) {
    forall req: CreateRequest :: req.Typed() && Admissible(c, req) && |req.parts| <= n ==>
      TotalSize(req.parts) <= c.maxTotalBytes
  }

  /** `n` full parts, numbered. */
  function FullParts(n: nat, size: int): seq<PartMeta> {
    seq(n, i requires 0 <= i < n => PartMeta(Decimal(i), size, "x"))
  }

  lemma {:induction false} FullPartsTotal(n: nat, size: int)
    ensures TotalSize(FullParts(n, size)) == n * size
  {
    if n > 0 {
      var ps := FullParts(n, size);
      assert ps[..n - 1] == FullParts(n - 1, size);
      FullPartsTotal(n - 1, size);
      assert n * size == (n - 1) * size + size;
    }
  }

  /** How many full parts fit in an int64. */
  function {:tailrecursion} Fitting(size: int, n: nat): nat
    requires size > 0 && n * size <= MAX_INT64
    decreases MAX_INT64 - n * size
  {
    if (n + 1) * size <= MAX_INT64 then Fitting(size, n + 1) else n
  }

  lemma {:induction false} FittingIsMost(size: int, n: nat)
    requires size > 0 && n * size <= MAX_INT64
    ensures var k := Fitting(size, n); k * size <= MAX_INT64 < (k + 1) * size
    decreases MAX_INT64 - n * size
  {
    if (n + 1) * size <= MAX_INT64 { FittingIsMost(size, n + 1); }
  }

  /** A request whose parts are each within the part cap and whose sizes add up to 2^63. */
  function Overflowing(c: Settings): CreateRequest
    requires Runs(c)
  {
    var k := Fitting(c.maxPartBytes, 0);
    CreateRequest("send.v1", None, 0,
                  FullParts(k, c.maxPartBytes) + [PartMeta(Decimal(k), MAX_INT64 + 1 - k * c.maxPartBytes, "x")])
  }

  lemma OverflowingParts(c: Settings)
    requires Runs(c)
    ensures var ps, k := Overflowing(c).parts, Fitting(c.maxPartBytes, 0);
            && |ps| == k + 1 && DistinctIds(ps) && TotalSize(ps) == MAX_INT64 + 1
            && forall i :: 0 <= i < |ps| ==> WellDeclared(c, ps[i])
  {
    var size, k, ps := c.maxPartBytes, Fitting(c.maxPartBytes, 0), Overflowing(c).parts;
    FittingIsMost(size, 0);
    assert size <= MAX_INT64;
    hide Fitting, Runs, Decimal, DistinctIds;
    assert (k + 1) * size == k * size + size;
    WithLast(c, k, size, MAX_INT64 + 1 - k * size);
  }

  lemma WithLast(c: Settings, k: nat, size: int, last: int)
    requires 0 < size <= c.maxPartBytes && 0 < last <= c.maxPartBytes
    ensures var ps := FullParts(k, size) + [PartMeta(Decimal(k), last, "x")];
            && |ps| == k + 1 && DistinctIds(ps) && TotalSize(ps) == k * size + last
            && forall i :: 0 <= i < |ps| ==> WellDeclared(c, ps[i])
  {
    hide Decimal, DistinctIds;
    var ps := FullParts(k, size) + [PartMeta(Decimal(k), last, "x")];
    assert ps[..k] == FullParts(k, size);
    NumberedApart(ps);
    FullPartsTotal(k, size);
  }

  lemma NumberedApart(parts: seq<PartMeta>)
    requires forall i :: 0 <= i < |parts| ==> parts[i].partId == Decimal(i)
    ensures DistinctIds(parts)
  {
    hide Decimal, NumberOf;
    forall i, j | 0 <= i < j < |parts| ensures parts[i].partId != parts[j].partId {
      DecimalNumber(i);
      DecimalNumber(j);
    }
  }

  /** When `n` full parts overflow and the part count allows as many, a request of at most
      `n` parts is admitted whose sizes add up to 2^63. */
  lemma OverflowingIsAdmitted(c: Settings, n: nat)
    requires Runs(c) && n <= c.maxPartCount && n * c.maxPartBytes > MAX_INT64
    ensures Overflowing(c).Typed() && Admissible(c, Overflowing(c)) && |Overflowing(c).parts| <= n
    ensures TotalSize(Overflowing(c).parts) == MAX_INT64 + 1
  {
    var size, k := c.maxPartBytes, Fitting(c.maxPartBytes, 0);
    FittingIsMost(size, 0);
    OverflowingParts(c);
    if n < k + 1 { MulMonotone(n, k, size); }
    assert Wrap64(MAX_INT64 + 1) < 0 && EffectiveTtl(c, 0) == c.defaultTtl;
    hide Fitting, TotalSize, Wrap64, DistinctIds, EffectiveTtl, Decimal, FullParts;
  }

  lemma MulMonotone(a: int, b: int, m: int)
    requires a <= b && m >= 0
    ensures a * m <= b * m
  {
  }

  function Fewer(n: nat, count: int): int {
    if n < count then n else count
  }

  /** The running int64 total enforces the cap for every request of at most `n` parts if
      and only if that many parts, or as many as the part count allows if that is fewer,
      of the size allowed for each fit in an int64. How many parts a request can have is
      bounded by the size of the body that the handler reads. */
  lemma CapIff(c: Settings, n: nat)
    requires Runs(c)
    ensures CapHolds(c, n) <==> Fewer(n, c.maxPartCount) * c.maxPartBytes <= MAX_INT64
  {
    var most := Fewer(n, c.maxPartCount);
    if most * c.maxPartBytes <= MAX_INT64 {
      forall req: CreateRequest | req.Typed() && Admissible(c, req) && |req.parts| <= n
        ensures TotalSize(req.parts) <= c.maxTotalBytes
      {
        TotalBounds(c, req.parts);
        MulMonotone(|req.parts|, most, c.maxPartBytes);
        WrapsBack(TotalSize(req.parts));
      }
    } else {
      OverflowingIsAdmitted(c, most);
    }
  }

  /** The most bytes of a body that are read; every part in it takes more than one. */
  const MAX_CREATE_BODY := 0x10_0000

  /** So with parts of at most 8 TiB, whatever the part count, every request that can be
      received stays within the cap. */
  lemma ReceivedStaysWithinCap(c: Settings)
    requires Runs(c) && c.maxPartBytes <= MAX_INT64 / MAX_CREATE_BODY
    ensures CapHolds(c, MAX_CREATE_BODY)
  {
    MulMonotone(Fewer(MAX_CREATE_BODY, c.maxPartCount), MAX_CREATE_BODY, c.maxPartBytes);
    CapIff(c, MAX_CREATE_BODY);
  }

  /** With parts of 2^62 bytes two parts are enough to pass every cap. */
  lemma TwoPartsOverflow(c: Settings)
    requires Runs(c) && c.maxPartBytes >= 0x4000_0000_0000_0000 && c.maxPartCount >= 2
    ensures var half := 0x4000_0000_0000_0000;
            var req := CreateRequest("send.v1", None, 0, [PartMeta("a", half, "x"), PartMeta("b", half, "x")]);
            req.Typed() && Admissible(c, req) && TotalSize(req.parts) == MAX_INT64 + 1 > c.maxTotalBytes
  {
    var half := 0x4000_0000_0000_0000;
    var ps := [PartMeta("a", half, "x"), PartMeta("b", half, "x")];
    assert ps[..1] == [ps[0]] && ps[..1][..0] == [];
    assert TotalSize(ps[..1]) == half;
    assert Wrap64(MAX_INT64 + 1) < 0 && EffectiveTtl(c, 0) == c.defaultTtl;
  }

  /** When the parts of a request cannot overflow, the total that its row records is the
      exact sum of the sizes. */
  lemma RowTotalIsExact(c: Settings, req: CreateRequest, now: int)
    requires Runs(c) && |req.parts| * c.maxPartBytes <= MAX_INT64 && req.Typed() && Admissible(c, req)
    ensures NewSendRow(Input(c, req), now).totalEncryptedSize == TotalSize(req.parts)
    ensures 0 < TotalSize(req.parts) <= c.maxTotalBytes
  {
    TotalBounds(c, req.parts);
    WrapsBack(TotalSize(req.parts));
  }

  // ---------------------------------------------------------------- SHA-256 in hex

  predicate IsHexDigit(ch: char) {
    '0' <= ch <= '9' || 'a' <= ch <= 'f'
  }

  method ValidSHA256Hex(s: string) returns (ok: bool)
    ensures ok <==> exists digest: Bytes :: |digest| == 32 && Hex(digest) == s
    ensures ok <==> |s| == 64 && forall i :: 0 <= i < |s| ==> '0' <= s[i] <= '9' || 'a' <= s[i] <= 'f'
  {
    HexIff(s);
    if |s| != 64 { return false; }
    var i := 0;
    while i < |s|
      invariant 0 <= i <= |s| && forall j :: 0 <= j < i ==> IsHexDigit(s[j])
    {
      var ch := s[i];
      if !(('0' <= ch && ch <= '9') || ('a' <= ch && ch <= 'f')) { return false; }
      i := i + 1;
    }
    ok := true;
  }

  function HexDigit(v: int): (ch: char)
    requires 0 <= v < 16
    ensures IsHexDigit(ch)
  {
    if v < 10 then '0' + v as char else 'a' + (v - 10) as char
  }

  function HexValue(ch: char): (v: int)
    requires IsHexDigit(ch)
    ensures 0 <= v < 16 && HexDigit(v) == ch
  {
    if ch <= '9' then (ch - '0') as int else (ch - 'a') as int + 10
  }

  /** What sha256sum writes for a digest. */
  function Hex(bytes: Bytes): (s: string)
    ensures |s| == 2 * |bytes| && forall i :: 0 <= i < |s| ==> IsHexDigit(s[i])
  {
    if bytes == [] then "" else [HexDigit(bytes[0] / 16), HexDigit(bytes[0] % 16)] + Hex(bytes[1..])
  }

  lemma Nibbles(high: int, low: int)
    requires 0 <= high < 16 && 0 <= low < 16
    ensures 0 <= high * 16 + low < 256 && (high * 16 + low) / 16 == high && (high * 16 + low) % 16 == low
  {
  }

  /** The bytes that a string of hex digits writes. */
  function Unhex(s: string): (bytes: Bytes)
    requires |s| % 2 == 0 && forall i :: 0 <= i < |s| ==> IsHexDigit(s[i])
    ensures 2 * |bytes| == |s| && Hex(bytes) == s
  {
    if s == "" then [] else
      assert s == [s[0], s[1]] + s[2..];
      Nibbles(HexValue(s[0]), HexValue(s[1]));
      [HexValue(s[0]) * 16 + HexValue(s[1])] + Unhex(s[2..])
  }

  /** The strings of 64 lower-case hex digits are exactly the digests written in hex. */
  lemma HexIff(s: string)
    ensures |s| == 64 && (forall i :: 0 <= i < |s| ==> IsHexDigit(s[i]))
            <==> exists digest: Bytes :: |digest| == 32 && Hex(digest) == s
  {
    if |s| == 64 && forall i :: 0 <= i < |s| ==> IsHexDigit(s[i]) {
      assert |Unhex(s)| == 32 && Hex(Unhex(s)) == s;
    }
  }
}
