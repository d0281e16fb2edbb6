/** `watchdog-bot.js`: the team watchdog. It probes every configured bot's
    mesh health endpoint, restarts the bots that do not answer and clears
    the sessions of those whose context is nearly full. The remote
    commands and the Discord alerts it issues are an append-only log of
    effects; how each probe ended is a parameter. */
module Watchdog {
  import opened Common

  /** The fleet the watchdog watches, as (bot id, address) pairs in the
      configuration's order. */
  const Bots: seq<(string, string)> := [
    ("dan", "54.215.71.171"),
    ("forge", "18.144.25.135"),
    ("forge-jr", "54.193.122.20"),
    ("artdesign", "54.215.251.55"),
    ("marketer", "50.18.68.16"),
    ("franky", "18.144.174.205")]

  const ResponseTimeoutMs := 30000
  const ContextWarningThreshold: real := 85.0
  const RestartPauseMs := 2000

  /** The address configured for `botId`; JavaScript renders the missing
      address of an unknown id as `undefined`. */
  function IpOf(botId: string): string
  {
    IpIn(Bots, botId)
  }

  /** Every configured bot is reached at its own configured address. */
  lemma IpOfConfigured(k: int)
    requires 0 <= k < |Bots|
    ensures IpOf(Bots[k].0) == Bots[k].1 && IpOf(Bots[k].0) != "undefined"
  {
    assert forall j :: 0 <= j < |Bots| ==> Bots[j].1 != "undefined";
    forall j | 0 <= j < k ensures Bots[j].0 != Bots[k].0 {
      assert |Bots[j].0| != |Bots[k].0| || Bots[j].0[0] != Bots[k].0[0];
    }
  }

  function IpIn(bots: seq<(string, string)>, botId: string): (ip: string)
    ensures (forall k :: 0 <= k < |bots| ==> bots[k].1 != "undefined") ==>
      ((exists k :: 0 <= k < |bots| && bots[k].0 == botId) <==> ip != "undefined")
    ensures forall k :: 0 <= k < |bots| && bots[k].0 == botId && (forall j :: 0 <= j < k ==> bots[j].0 != botId) ==> ip == bots[k].1
  {
    if bots == [] then "undefined"
    else if bots[0].0 == botId then bots[0].1
    else
      var ip := IpIn(bots[1..], botId);
      assert forall k :: 1 <= k < |bots| ==> bots[k] == bots[1..][k - 1];
      ip
  }

  /** The parsed health payload: a falsy JSON value (`null`, `false`, `0`,
      `""`), or a truthy one, whose numeric `contextUsage` is `None` when it
      has none. */
  datatype Payload = Falsy | Truthy(contextUsage: Option<real>)

  /** How the probe's `curl` ended: the 30-second timer fired first, the
      command failed, or it printed `stdout`, which parsed as JSON to
      `parsed` (`None` when `JSON.parse` threw). */
  datatype CurlRun = TimerFirst | ExecFailed(message: string) | Printed(stdout: string, parsed: Option<Payload>)

  datatype ProbeStatus = Healthy | Error | Timeout

  /** The object a probe resolves with. */
  datatype ProbeResult = ProbeResult(botId: string, status: ProbeStatus, error: Option<string>, data: Option<Payload>)

  const TimeoutMessage := "Mesh health check timeout (30000ms)"
  const InvalidResponsePrefix := "Invalid response: "

  /** `checkMeshHealth`: the result a probe of `botId` resolves with. */
  function CheckMeshHealth(botId: string, run: CurlRun): ProbeResult
  {
    match run
    case TimerFirst => ProbeResult(botId, Timeout, Some(TimeoutMessage), None)
    case ExecFailed(message) => ProbeResult(botId, Error, Some(message), None)
    case Printed(stdout, None) => ProbeResult(botId, Error, Some(InvalidResponsePrefix + stdout), None)
    case Printed(_, Some(p)) => ProbeResult(botId, Healthy, None, Some(p))
  }

  /** A probe is healthy exactly when `curl` finished in time and printed
      JSON, and then carries that JSON; otherwise it carries an error that
      names the cause, and no data. */
  lemma CheckMeshHealthSpec(botId: string, run: CurlRun)
    ensures var r := CheckMeshHealth(botId, run);
      && r.botId == botId
      && (r.status == Healthy <==> run.Printed? && run.parsed.Some?)
      && (r.status == Healthy ==> r.data == run.parsed && r.error.None?)
      && (r.status != Healthy ==> r.data.None? && r.error.Some?)
      && (r.status == Timeout <==> run.TimerFirst?)
      && (run.Printed? && run.parsed.None? ==> r.error == Some(InvalidResponsePrefix + run.stdout))
  {
  }

  /** What `processHealthResults` does about one result. */
  datatype Action = NoAction | Restart | ClearThenRestart

  function ActionFor(r: ProbeResult): Action
  {
    if r.status == Error || r.status == Timeout then Restart
    else if r.status == Healthy && r.data.Some? && r.data.value.Truthy? then
      var usage := r.data.value.contextUsage;
      if usage.Some? && usage.value != 0.0 && usage.value > ContextWarningThreshold then ClearThenRestart
      else NoAction
    else NoAction
  }

  /** An unanswered probe restarts the bot; a healthy one clears its
      sessions exactly when its payload reports a context usage above 85
      (85 itself does nothing); a healthy probe without a payload or
      without a usage figure does nothing. */
  lemma ActionForSpec(r: ProbeResult)
    ensures ActionFor(r) == Restart <==> r.status != Healthy
    ensures ActionFor(r) == ClearThenRestart <==>
      r.status == Healthy && r.data.Some? && r.data.value.Truthy?
      && r.data.value.contextUsage.Some? && r.data.value.contextUsage.value > 85.0
    ensures r.status == Healthy && r.data.Some? && r.data.value == Truthy(Some(85.0)) ==> ActionFor(r) == NoAction
    ensures r.status == Healthy && (r.data.None? || r.data == Some(Falsy) || r.data == Some(Truthy(None))) ==> ActionFor(r) == NoAction
  {
  }

  /** A probe whose `curl` failed, timed out or printed something that is
      not JSON always leads to a restart. */
  lemma UnansweredProbeRestarts(botId: string, run: CurlRun)
    requires !(run.Printed? && run.parsed.Some?)
    ensures ActionFor(CheckMeshHealth(botId, run)) == Restart
  {
  }

  /** What the watchdog does to the world, in order. */
  datatype Effect = Ssh(ip: string, command: string) | Pause(ms: int) | Discord(message: string)

  const KillCommand := "pkill clawdbot"
  const StartCommand := "cd ~ && nohup clawdbot gateway start > clawdbot.log 2>&1 &"
  const ClearCommand := "rm -rf ~/.clawdbot/agents/main/sessions/*"

  function RestartAlert(botId: string, ip: string): string
  {
    "\U{1F504} **WATCHDOG ACTION**: Restarted " + botId + " bot (" + ip + ")"
  }

  function ClearAlert(botId: string): string
  {
    "\U{1F9F9} **WATCHDOG ACTION**: Cleared sessions for " + botId + " bot (context overflow)"
  }

  /** The effects of `restartBot`. */
  function RestartEffects(botId: string, ip: string): seq<Effect>
  {
    [Ssh(ip, KillCommand), Pause(RestartPauseMs), Ssh(ip, StartCommand), Discord(RestartAlert(botId, ip))]
  }

  /** The effects of `clearBotSessions`. */
  function ClearEffects(botId: string, ip: string): seq<Effect>
  {
    [Ssh(ip, ClearCommand)] + RestartEffects(botId, ip) + [Discord(ClearAlert(botId))]
  }

  /** The effects of one result. */
  function ActionEffects(r: ProbeResult): seq<Effect>
  {
    match ActionFor(r)
    case NoAction => []
    case Restart => RestartEffects(r.botId, IpOf(r.botId))
    case ClearThenRestart => ClearEffects(r.botId, IpOf(r.botId))
  }

  /** The effects of `processHealthResults`: each result's, in input order. */
  function EffectsOf(results: seq<ProbeResult>): seq<Effect>
  {
    if results == [] then [] else EffectsOf(results[..|results| - 1]) + ActionEffects(results[|results| - 1])
  }

  /** The results up to `k` inclusive have the effects of those before
      `k`, then those of result `k`. */
  lemma EffectsOfSnoc(results: seq<ProbeResult>, k: int)
    requires 0 <= k < |results|
    ensures EffectsOf(results[..k + 1]) == EffectsOf(results[..k]) + ActionEffects(results[k])
  {
    assert results[..k + 1][..k] == results[..k];
  }

  lemma Associative(a: seq<Effect>, b: seq<Effect>, c: seq<Effect>)
    ensures a + b + c == a + (b + c)
  {
  }

  /** Processing `a` and then `b` has the effects of processing `a + b`. */
  lemma {:induction false} EffectsOfAppend(a: seq<ProbeResult>, b: seq<ProbeResult>)
    ensures EffectsOf(a + b) == EffectsOf(a) + EffectsOf(b)
    decreases |b|
  {
    if b == [] {
      assert a + b == a;
    } else {
      var b' := b[..|b| - 1];
      var last := b[|b| - 1];
      assert (a + b)[..|a + b| - 1] == a + b';
      assert (a + b)[|a + b| - 1] == last;
      assert EffectsOf(a + b) == EffectsOf(a + b') + ActionEffects(last);
      EffectsOfAppend(a, b');
      Associative(EffectsOf(a), EffectsOf(b'), ActionEffects(last));
    }
  }

  /** A restart kills before it starts and alerts once, last; a session
      clear removes the sessions before that restart and alerts once more
      at the end. */
  lemma RestartOrder(botId: string, ip: string)
    ensures var e := RestartEffects(botId, ip);
      && e[0] == Ssh(ip, KillCommand) && e[2] == Ssh(ip, StartCommand)
      && CountAlerts(e) == 1 && e[|e| - 1].Discord?
    ensures var e := ClearEffects(botId, ip);
      && e[0] == Ssh(ip, ClearCommand) && e[1] == Ssh(ip, KillCommand) && e[3] == Ssh(ip, StartCommand)
      && CountAlerts(e) == 2 && CountKills(e) == 1 && CountKills(RestartEffects(botId, ip)) == 1
  {
    var k, p, st, d := Ssh(ip, KillCommand), Pause(RestartPauseMs), Ssh(ip, StartCommand), Discord(RestartAlert(botId, ip));
    CountsOne(k); CountsOne(p); CountsOne(st); CountsOne(d);
    CountsAppend([k], [p]);
    CountsAppend([k] + [p], [st]);
    CountsAppend([k] + [p] + [st], [d]);
    assert RestartEffects(botId, ip) == [k] + [p] + [st] + [d];
    var c, a := Ssh(ip, ClearCommand), Discord(ClearAlert(botId));
    CountsOne(c); CountsOne(a);
    CountsAppend([c], RestartEffects(botId, ip));
    CountsAppend([c] + RestartEffects(botId, ip), [a]);
  }

  lemma CountsOne(x: Effect)
    ensures CountKills([x]) == if x.Ssh? && x.command == KillCommand then 1 else 0
    ensures CountAlerts([x]) == if x.Discord? then 1 else 0
  {
    assert [x][..0] == [];
  }

  /** The number of kill commands among `e`. */
  function CountKills(e: seq<Effect>): nat
  {
    if e == [] then 0 else CountKills(e[..|e| - 1]) + if e[|e| - 1].Ssh? && e[|e| - 1].command == KillCommand then 1 else 0
  }

  /** The number of Discord alerts among `e`. */
  function CountAlerts(e: seq<Effect>): nat
  {
    if e == [] then 0 else CountAlerts(e[..|e| - 1]) + if e[|e| - 1].Discord? then 1 else 0
  }

  lemma {:induction false} CountsAppend(a: seq<Effect>, b: seq<Effect>)
    ensures CountKills(a + b) == CountKills(a) + CountKills(b)
    ensures CountAlerts(a + b) == CountAlerts(a) + CountAlerts(b)
    decreases |b|
  {
    if b == [] {
      assert a + b == a;
    } else {
      var b' := b[..|b| - 1];
      assert (a + b)[..|a + b| - 1] == a + b';
      CountsAppend(a, b');
    }
  }

  /** The number of results that call for any action, and for a clear. */
  function CountActing(results: seq<ProbeResult>): nat
  {
    if results == [] then 0
    else CountActing(results[..|results| - 1]) + if ActionFor(results[|results| - 1]) != NoAction then 1 else 0
  }

  function CountClears(results: seq<ProbeResult>): nat
  {
    if results == [] then 0
    else CountClears(results[..|results| - 1]) + if ActionFor(results[|results| - 1]) == ClearThenRestart then 1 else 0
  }

  /** Every result that calls for action restarts its bot exactly once,
      and every alert belongs to one restart or one session clear. */
  lemma {:induction false} EffectCounts(results: seq<ProbeResult>)
    ensures CountKills(EffectsOf(results)) == CountActing(results)
    ensures CountAlerts(EffectsOf(results)) == CountActing(results) + CountClears(results)
  {
    if results != [] {
      var front := results[..|results| - 1];
      var r := results[|results| - 1];
      EffectCounts(front);
      CountsAppend(EffectsOf(front), ActionEffects(r));
      RestartOrder(r.botId, IpOf(r.botId));
    }
  }

  /** The watchdog's log of effects. */
  class WatchdogBot {
    var log: seq<Effect>

    constructor()
      ensures log == []
    {
      log := [];
    }

    /** `restartBot`: kill, pause, start, alert, whatever the commands
        answer. */
    method RestartBot(botId: string, ip: string)
      modifies this
      ensures log == old(log) + RestartEffects(botId, ip)
    {
      log := log + [Ssh(ip, KillCommand)];
      log := log + [Pause(RestartPauseMs)];
      log := log + [Ssh(ip, StartCommand)];
      log := log + [Discord(RestartAlert(botId, ip))];
    }

    /** `clearBotSessions`: remove the sessions, restart, alert. */
    method ClearBotSessions(botId: string, ip: string)
      modifies this
      ensures log == old(log) + ClearEffects(botId, ip)
    {
      log := log + [Ssh(ip, ClearCommand)];
      RestartBot(botId, ip);
      log := log + [Discord(ClearAlert(botId))];
    }

    /** `processHealthResults`: one result at a time, in input order. */
    method ProcessHealthResults(results: seq<ProbeResult>)
      modifies this
      ensures log == old(log) + EffectsOf(results)
    {
      ghost var log0 := log;
      var k := 0;
      while k < |results|
        invariant 0 <= k <= |results|
        invariant log == log0 + EffectsOf(results[..k])
      {
        HandleResult(results[k]);
        EffectsOfSnoc(results, k);
        Associative(log0, EffectsOf(results[..k]), ActionEffects(results[k]));
        k := k + 1;
      }
      assert results[..k] == results;
    }

    /** The body of the loop of `processHealthResults`: restart a bot that
        did not answer, clear the sessions of a healthy bot whose context
        usage is above the threshold, leave the others alone. */
    method HandleResult(r: ProbeResult)
      modifies this
      ensures log == old(log) + ActionEffects(r)
    {
      var ip := IpOf(r.botId);
      if r.status == Error || r.status == Timeout {
        RestartBot(r.botId, ip);
      } else if r.status == Healthy && r.data.Some? && r.data.value.Truthy? {
        var usage := r.data.value.contextUsage;
        if usage.Some? && usage.value != 0.0 && usage.value > ContextWarningThreshold {
          ClearBotSessions(r.botId, ip);
        }
      }
    }

    /** `runHealthChecks`: probes every configured bot (`runs[k]` is how
        the probe of the `k`-th bot ended) and processes the results in the
        configuration's order. */
    method RunHealthChecks(runs: seq<CurlRun>)
      requires |runs| == |Bots|
      modifies this
      ensures log == old(log) + EffectsOf(Probed(runs))
    {
      var results: seq<ProbeResult> := [];
      var k := 0;
      while k < |Bots|
        invariant 0 <= k <= |Bots|
        invariant |results| == k
        invariant forall j :: 0 <= j < k ==> results[j] == CheckMeshHealth(Bots[j].0, runs[j])
      {
        results := results + [CheckMeshHealth(Bots[k].0, runs[k])];
        k := k + 1;
      }
      assert results == Probed(runs);
      ProcessHealthResults(results);
    }

    /** `startWatchdog` up to its first round: the startup alert, then
        one round of checks. */
    method StartWatchdog(runs: seq<CurlRun>)
      requires |runs| == |Bots|
      modifies this
      ensures log == old(log) + [Discord(OnlineAlert)] + EffectsOf(Probed(runs))
    {
      log := log + [Discord(OnlineAlert)];
      RunHealthChecks(runs);
    }
  }

  const OnlineAlert := "\U{1F415} **WATCHDOG ONLINE**: Bot health monitoring started. Checking all team bots every 5 minutes."

  /** The probe results of one round, in the configuration's order. */
  function Probed(runs: seq<CurlRun>): (rs: seq<ProbeResult>)
    requires |runs| == |Bots|
    ensures |rs| == |Bots|
    ensures forall j :: 0 <= j < |rs| ==> rs[j] == CheckMeshHealth(Bots[j].0, runs[j]) && rs[j].botId == Bots[j].0
  {
    seq(|Bots|, j requires 0 <= j < |Bots| => CheckMeshHealth(Bots[j].0, runs[j]))
  }

  /** A round in which every probe timed out restarts all six bots, each
      once, and sends six alerts. */
  lemma AllTimedOut(runs: seq<CurlRun>)
    requires |runs| == |Bots|
    requires forall j :: 0 <= j < |runs| ==> runs[j] == TimerFirst
    ensures CountKills(EffectsOf(Probed(runs))) == 6
    ensures CountAlerts(EffectsOf(Probed(runs))) == 6
  {
    var rs := Probed(runs);
    EffectCounts(rs);
    AllActing(rs);
  }

  lemma {:induction false} AllActing(rs: seq<ProbeResult>)
    requires forall j :: 0 <= j < |rs| ==> rs[j].status == Timeout
    ensures CountActing(rs) == |rs| && CountClears(rs) == 0
  {
    if rs != [] {
      AllActing(rs[..|rs| - 1]);
    }
  }
}
