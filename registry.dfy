/** Registry entries of managed bots: the entry a successful deployment
    creates, the health fields a health update rewrites, and the registry
    rebuilt at startup from the stored deployments. */
module Registry {
  import opened Common
  import opened HealthScoring
  import opened Templates
  import opened Deployments

  datatype BotRecord = BotRecord(
    id: string,
    botType: BotType,
    ip: Option<string>,
    instanceId: Option<string>,
    status: BotStatus,
    template: Option<Template>,
    deployedAt: Option<int>,
    healthScore: int,
    lastHealthCheck: Option<int>,
    consecutiveFailures: Option<nat>)

  /** The invariant of a registry entry stored under `id`. */
  predicate WellFormed(id: string, rec: BotRecord)
  {
    rec.id == id && (rec.consecutiveFailures.Some? ==> rec.consecutiveFailures.value <= 5)
  }

  /** The entry a completed deployment registers: online, score 100, with
      the template of its type and the provisioned instance. */
  function OnlineRecord(d: Deployment, inst: Instance, now: int): (r: BotRecord)
    ensures WellFormed(d.botName, r)
    ensures r.status == Online && r.healthScore == 100
    ensures r.ip == Some(inst.publicIp) && r.instanceId == Some(inst.instanceId)
    ensures r.template == Some(TemplateOf(d.botType)) && r.botType == d.botType
  {
    BotRecord(d.botName, d.botType, Some(inst.publicIp), Some(inst.instanceId), Online,
              Some(TemplateOf(d.botType)), Some(now), 100, None, None)
  }

  /** The entry after a health update whose new history is `hist`: the
      sample's score, status and time, and the failure run of `hist`; the
      identity fields stay as they were. */
  function WithHealth(rec: BotRecord, sample: HealthSample, hist: seq<HealthSample>): (r: BotRecord)
    ensures WellFormed(rec.id, rec) ==> WellFormed(rec.id, r)
    ensures r.id == rec.id && r.botType == rec.botType && r.ip == rec.ip && r.instanceId == rec.instanceId
    ensures r.template == rec.template && r.deployedAt == rec.deployedAt
    ensures r.healthScore == sample.score && r.status == sample.status && r.lastHealthCheck == sample.timestamp
    ensures r.consecutiveFailures.Some? && r.consecutiveFailures.value <= 5
  {
    rec.(healthScore := sample.score, status := sample.status, lastHealthCheck := sample.timestamp,
         consecutiveFailures := Some(ConsecutiveFailures(hist)))
  }

  // ----- startup rebuild -----

  /** A stored deployment is re-registered when it completed and has an
      address. */
  predicate Qualifies(d: Deployment)
  {
    d.status == Completed && Present(d.publicIp)
  }

  /** The entry a stored deployment restores: status unknown, score 0. */
  function RestoredRecord(d: Deployment): (r: BotRecord)
    ensures WellFormed(d.botName, r)
    ensures r.status == Unknown && r.healthScore == 0 && r.ip == d.publicIp && r.template.None?
  {
    BotRecord(d.botName, d.botType, d.publicIp, d.instanceId, Unknown, None, d.completedAt, 0, None, None)
  }

  /** The registry after the startup loop over the stored deployments, in
      their stored order. */
  function Rebuilt(reg: map<string, BotRecord>, ds: seq<Deployment>): map<string, BotRecord>
  {
    if ds == [] then reg
    else
      var r := Rebuilt(reg, ds[..|ds| - 1]);
      var d := ds[|ds| - 1];
      if Qualifies(d) then r[d.botName := RestoredRecord(d)] else r
  }

  /** One more stored deployment is one more step of the loop. */
  lemma RebuiltSnoc(reg: map<string, BotRecord>, ds: seq<Deployment>, d: Deployment)
    ensures Rebuilt(reg, ds + [d]) == if Qualifies(d) then Rebuilt(reg, ds)[d.botName := RestoredRecord(d)] else Rebuilt(reg, ds)
  {
    assert (ds + [d])[..|ds|] == ds;
  }

  /** No qualifying deployment after position `k` carries `name`. */
  predicate LastFor(ds: seq<Deployment>, k: int, name: string)
    requires -1 <= k <= |ds|
  {
    forall j :: k < j < |ds| ==> !(Qualifies(ds[j]) && ds[j].botName == name)
  }

  /** The rebuilt registry holds the old entries and one entry per bot name
      of a completed deployment with an address. */
  lemma {:induction false} RebuiltKeys(reg: map<string, BotRecord>, ds: seq<Deployment>)
    ensures forall name :: name in Rebuilt(reg, ds) <==>
      name in reg || exists k :: 0 <= k < |ds| && Qualifies(ds[k]) && ds[k].botName == name
  {
    if ds != [] {
      var front := ds[..|ds| - 1];
      RebuiltKeys(reg, front);
      assert forall k :: 0 <= k < |front| ==> ds[k] == front[k];
    }
  }

  /** The entry the rebuild leaves under `name`: the entry of the last
      completed deployment with an address for that name, in stored order,
      or the old entry when there is none. */
  predicate RestoredFrom(reg: map<string, BotRecord>, ds: seq<Deployment>, name: string, rec: BotRecord)
  {
    || (name in reg && rec == reg[name] && LastFor(ds, -1, name))
    || (exists k :: 0 <= k < |ds| && Qualifies(ds[k]) && ds[k].botName == name && LastFor(ds, k, name)
                    && rec == RestoredRecord(ds[k]))
  }

  lemma {:induction false} RebuiltEntries(reg: map<string, BotRecord>, ds: seq<Deployment>, name: string)
    requires name in Rebuilt(reg, ds)
    ensures RestoredFrom(reg, ds, name, Rebuilt(reg, ds)[name])
  {
    if ds != [] {
      var front := ds[..|ds| - 1];
      var d := ds[|ds| - 1];
      var rec := Rebuilt(reg, ds)[name];
      if Qualifies(d) && d.botName == name {
        assert LastFor(ds, |ds| - 1, name);
      } else {
        RebuiltEntries(reg, front, name);
        assert rec == Rebuilt(reg, front)[name];
        if name in reg && rec == reg[name] && LastFor(front, -1, name) {
          LastForSnoc(front, d, -1, name);
          assert ds == front + [d];
        } else {
          var k :| 0 <= k < |front| && Qualifies(front[k]) && front[k].botName == name && LastFor(front, k, name)
                   && rec == RestoredRecord(front[k]);
          LastForSnoc(front, d, k, name);
          assert ds == front + [d];
          assert ds[k] == front[k];
        }
      }
    }
  }

  /** A deployment that does not restore `name` keeps `LastFor` true. */
  lemma LastForSnoc(front: seq<Deployment>, d: Deployment, k: int, name: string)
    requires -1 <= k <= |front|
    requires LastFor(front, k, name)
    requires !(Qualifies(d) && d.botName == name)
    ensures LastFor(front + [d], k, name)
  {
    var ds := front + [d];
    forall j | k < j < |ds|
      ensures !(Qualifies(ds[j]) && ds[j].botName == name)
    {
      if j < |front| {
        assert ds[j] == front[j];
      }
    }
  }

  /** The rebuild keeps every entry well formed. */
  lemma {:induction false} RebuiltWellFormed(reg: map<string, BotRecord>, ds: seq<Deployment>)
    requires forall id :: id in reg ==> WellFormed(id, reg[id])
    ensures forall id :: id in Rebuilt(reg, ds) ==> WellFormed(id, Rebuilt(reg, ds)[id])
  {
    if ds != [] {
      RebuiltWellFormed(reg, ds[..|ds| - 1]);
    }
  }
}
