/** A create request that does not refuse it makes a send that is granted once. */
module OneTimeDefault {
  import opened Records
  import opened Protocol
  import opened Invariants
  import opened Steps
  import opened Redemption
  import opened Downloads
  import opened Origins
  import opened Replies
  import opened Create

  /** A send whose creation was admitted from a request that does not say `one_time: false`
      is granted at most once: no two steps of a run insert a grant for it. */
  lemma OneTimeUnlessRefused(cfg: Config, c: Settings, req: CreateRequest, ss: seq<State>, acts: seq<Action>,
      a: nat, id: string, i: nat, j: nat)
    requires IsRun(cfg, ss, acts) && i <= j < |acts| && a < |acts|
    requires acts[a] == Begin(ReqCreate(id, Input(c, req))) && req.oneTime != Some(false)
    requires InsertsGrant(ss[i], ss[i + 1], id) && InsertsGrant(ss[j], ss[j + 1], id)
    ensures i == j
  {
    hide InvShared, InvCalls, Apply, InsertsGrant;
    RunOk(cfg, ss, acts, j);
    var created := ss[j].sh.hist.created;
    GrantedIsCreated(cfg, ss, acts, j, id);
    var b := CreationOf(cfg, ss, acts, j, id);
    CreatedOnce(cfg, ss, acts, a, b, id, Input(c, req), created[id].input);
    AtMostOneGrant(cfg, ss, acts, i, j, id);
  }

  lemma GrantedIsCreated(cfg: Config, ss: seq<State>, acts: seq<Action>, j: nat, id: string)
    requires IsRun(cfg, ss, acts) && j < |acts| && InsertsGrant(ss[j], ss[j + 1], id) && Inv(cfg, ss[j])
    ensures id in ss[j].sh.hist.created
  {
    hide InvShared, Apply;
    RunOk(cfg, ss, acts, j + 1);
    var e := InsertIsLogged(cfg, ss[j], acts[j], id);
    EventCreated(cfg, ss[j + 1].sh, e);
    HistoryStep(cfg, ss[j], acts[j]);
    var h :| h in ss[j + 1].sh.db.grants && h !in ss[j].sh.db.grants && ss[j + 1].sh.db.grants[h].sendId == id;
    GrantRows(cfg, ss[j].sh, acts[j].c, ss[j].calls[acts[j].c], acts[j].pick);
  }
}
