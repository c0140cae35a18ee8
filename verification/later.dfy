/** How any later state of a run relates to an earlier one. */
module Later {
  import opened Records
  import opened Protocol
  import opened Invariants
  import opened Steps

  /** Everything that never goes backwards, between any two states of a run. */
  ghost predicate IsLater(sh: Shared, sh': Shared) {
    var h, h' := sh.hist, sh'.hist;
    && (forall id :: id in h.created ==> id in h'.created && h'.created[id] == h.created[id])
    && (forall id :: id in h.complete ==> id in h'.complete && h'.complete[id] == h.complete[id])
    && h.granted <= h'.granted && h.delivered <= h'.delivered
    && SendsAdvance(sh.db.sends, h.created, sh'.db.sends)
    && PartsAdvance(sh.db.parts, h.created, sh'.db.parts)
    && sh.clock <= sh'.clock
  }

  lemma StepLater(cfg: Config, s: State, a: Action)
    requires Inv(cfg, s) && Enabled(s, a)
    ensures IsLater(s.sh, Apply(cfg, s, a).sh)
  {
    hide InvShared;
    if a.Advance? {
      ExecOk(cfg, s.sh, a.c, s.calls[a.c], a.pick);
    } else {
      SendsRefl(s.sh.db.sends, s.sh.hist.created);
      PartsRefl(s.sh.db.parts, s.sh.hist.created);
    }
  }

  lemma LaterTransitive(a: Shared, b: Shared, c: Shared)
    requires IsLater(a, b) && IsLater(b, c)
    ensures IsLater(a, c)
  {
  }

  lemma {:induction false} RunLater(cfg: Config, ss: seq<State>, acts: seq<Action>, i: nat, j: nat)
    requires IsRun(cfg, ss, acts) && i <= j < |ss|
    ensures IsLater(ss[i].sh, ss[j].sh)
    decreases j - i
  {
    hide IsLater, Inv, Apply;
    if i == j {
      LaterRefl(ss[i].sh);
    } else {
      RunLater(cfg, ss, acts, i, j - 1);
      RunOk(cfg, ss, acts, j - 1);
      StepLater(cfg, ss[j - 1], acts[j - 1]);
      LaterTransitive(ss[i].sh, ss[j - 1].sh, ss[j].sh);
    }
  }

  lemma LaterRefl(sh: Shared)
    ensures IsLater(sh, sh)
  {
  }

  /** Uploads and finalization are never undone: as long as a send has a row, it keeps
      its declaration, its finalized status, its consumption and its uploaded parts. Only
      row deletion ends them, and a deleted send never comes back. */
  lemma NothingUndone(cfg: Config, ss: seq<State>, acts: seq<Action>, i: nat, j: nat, id: string)
    requires IsRun(cfg, ss, acts) && i <= j < |ss| && id in ss[i].sh.hist.created
    ensures id !in ss[i].sh.db.sends ==> id !in ss[j].sh.db.sends
    ensures id in ss[j].sh.db.sends ==>
              var a, b := ss[i].sh.db.sends[id], ss[j].sh.db.sends[id];
              && (a.status.Finalized? ==> b.status.Finalized?)
              && (a.consumedAt.Some? ==> b.consumedAt == a.consumedAt)
              && (forall p :: (id, p) in ss[i].sh.db.parts <==> (id, p) in ss[j].sh.db.parts)
              && (forall p :: (id, p) in ss[i].sh.db.parts && ss[i].sh.db.parts[(id, p)].uploadedAt.Some? ==>
                    ss[j].sh.db.parts[(id, p)].uploadedAt.Some?)
  {
    RunLater(cfg, ss, acts, i, j);
    RunOk(cfg, ss, acts, i);
    RunOk(cfg, ss, acts, j);
    if id in ss[j].sh.db.sends { SameParts(cfg, ss[i].sh, ss[j].sh, id); }
  }

  lemma SameParts(cfg: Config, sh: Shared, sh': Shared, id: string)
    requires InvShared(cfg, sh) && InvShared(cfg, sh') && IsLater(sh, sh')
    requires id in sh.db.sends && id in sh'.db.sends && id in sh.hist.created
    ensures forall p :: (id, p) in sh.db.parts <==> (id, p) in sh'.db.parts
  {
    hide IdsOk, SendsOk, CompleteOk, WinnerOk, EventsOk, GrantsOk, BlobsOk, DeliveredOk;
    forall p ensures (id, p) in sh.db.parts <==> (id, p) in sh'.db.parts {
      if (id, p) in sh.db.parts { assert PartOk(sh.db.parts, (id, p), sh.hist.created); }
      if (id, p) in sh'.db.parts { assert PartOk(sh'.db.parts, (id, p), sh'.hist.created); }
    }
  }

  /** Late uploads cannot alter a finalized send: whenever the same key is published in
      two states of a run, however many uploads raced in between, the bytes have the same
      size and hash, those declared at creation; with an injective hash they are the same. */
  lemma LateUploadsHarmless(cfg: Config, ss: seq<State>, acts: seq<Action>, i: nat, j: nat, key: string)
    requires IsRun(cfg, ss, acts) && i <= j < |ss| && key in ss[i].sh.blobs && key in ss[j].sh.blobs
    ensures var a, b := ss[i].sh.blobs[key], ss[j].sh.blobs[key];
            && |a| == |b| && cfg.sha(a) == cfg.sha(b)
            && ((forall x, y :: cfg.sha(x) == cfg.sha(y) ==> x == y) ==> a == b)
  {
    RunLater(cfg, ss, acts, i, j);
    RunOk(cfg, ss, acts, i);
    RunOk(cfg, ss, acts, j);
    assert BlobMatches(cfg, ss[i].sh.hist.created, key, ss[i].sh.blobs[key]);
    assert BlobMatches(cfg, ss[j].sh.hist.created, key, ss[j].sh.blobs[key]);
  }
}
