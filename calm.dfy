/** `calm-heartbeat.js`: the bot-side priority-mode ("CALM") controller.
    The state file, the gateway's heartbeat setting and the pending
    auto-cooldown timers are fields of `CalmHeartbeat`; whether a file write
    or a configuration push succeeds, and the clock, are parameters. */
module Calm {
  import opened Common

  /** 30 minutes, in milliseconds. */
  const NormalHeartbeat := 1800000
  /** 1 minute. */
  const PriorityHeartbeat := 60000
  /** 4 hours: the delay of the auto-cooldown and the staleness bound. */
  const MaxPriorityDuration := 14400000

  /** The record kept in `calm-state.json`. Times are milliseconds since
      the epoch; a key the record does not carry is `None`. */
  datatype CalmRecord = CalmRecord(
    priorityMode: bool,
    normalHeartbeat: int,
    priorityHeartbeat: int,
    lastUpdated: int,
    task: Option<string>,
    triggeredBy: Option<string>,
    activatedAt: Option<int>,
    currentHeartbeat: Option<int>,
    deactivatedAt: Option<int>,
    deactivationReason: Option<string>)

  /** `readCalmState`: the stored record, or, when there is no readable
      file (`None`), the normal-mode record stamped `now`. */
  function ReadCalmState(file: Option<CalmRecord>, now: int): CalmRecord
  {
    match file
    case Some(s) => s
    case None => CalmRecord(false, NormalHeartbeat, PriorityHeartbeat, now, None, None, None, None, None, None)
  }

  /** Without a readable file the controller is in normal mode with the
      30-minute and 1-minute intervals and nothing else set. */
  lemma ReadDefaults(now: int)
    ensures var s := ReadCalmState(None, now);
      && !s.priorityMode && s.normalHeartbeat == NormalHeartbeat && s.priorityHeartbeat == PriorityHeartbeat
      && s.lastUpdated == now && s.task.None? && s.activatedAt.None? && s.currentHeartbeat.None?
  {
  }

  /** The record `writeCalmState` stores: `s` stamped with the write time. */
  function Stamped(s: CalmRecord, now: int): CalmRecord
  {
    s.(lastUpdated := now)
  }

  /** The record an activation at `now` derives from `s`. */
  function Activated(s: CalmRecord, task: string, triggeredBy: string, now: int): CalmRecord
  {
    s.(priorityMode := true, task := Some(task), triggeredBy := Some(triggeredBy),
       activatedAt := Some(now), currentHeartbeat := Some(PriorityHeartbeat))
  }

  /** The record a deactivation at `now` derives from `s`. */
  function Deactivated(s: CalmRecord, reason: string, now: int): CalmRecord
  {
    s.(priorityMode := false, deactivatedAt := Some(now), deactivationReason := Some(reason),
       currentHeartbeat := Some(NormalHeartbeat))
  }

  /** A deactivation after an activation returns to normal mode with the
      30-minute interval, but keeps its task, its trigger and its activation
      time, and the configured intervals of the record read at activation. */
  lemma DeactivateAfterActivate(s: CalmRecord, task: string, trigger: string, t: int, reason: string, t': int)
    ensures var a := Stamped(Activated(s, task, trigger, t), t);
      var d := Stamped(Deactivated(a, reason, t'), t');
      && a.priorityMode && a.currentHeartbeat == Some(PriorityHeartbeat)
      && !d.priorityMode && d.currentHeartbeat == Some(NormalHeartbeat)
      && d.task == Some(task) && d.triggeredBy == Some(trigger) && d.activatedAt == Some(t)
      && d.deactivationReason == Some(reason) && d.deactivatedAt == Some(t') && d.lastUpdated == t'
      && d.normalHeartbeat == s.normalHeartbeat && d.priorityHeartbeat == s.priorityHeartbeat
  {
  }

  /** What `checkStatus` reports besides the console text: the record it
      read, and whether it warned that priority mode has lasted too long. */
  datatype StatusReport = StatusReport(state: CalmRecord, staleWarning: bool)

  /** `checkStatus` at time `now`. */
  function CheckStatus(file: Option<CalmRecord>, now: int): StatusReport
  {
    var s := ReadCalmState(file, now);
    StatusReport(s, s.priorityMode && s.activatedAt.Some? && now - s.activatedAt.value > MaxPriorityDuration)
  }

  /** After an activation at `t` the warning appears exactly when more
      than four hours have passed: at exactly four hours it does not. */
  lemma StaleAfterActivation(s: CalmRecord, task: string, trigger: string, t: int, now: int)
    ensures CheckStatus(Some(Stamped(Activated(s, task, trigger, t), t)), now).staleWarning
      <==> now > t + MaxPriorityDuration
    ensures !CheckStatus(Some(Stamped(Activated(s, task, trigger, t), t)), t + MaxPriorityDuration).staleWarning
  {
  }

  /** Normal mode never warns: after a deactivation, or with no file. */
  lemma NormalNeverStale(s: CalmRecord, reason: string, t: int, now: int)
    ensures !CheckStatus(Some(Stamped(Deactivated(s, reason, t), t)), now).staleWarning
    ensures !CheckStatus(None, now).staleWarning
  {
  }

  /** The trigger and reason a mesh message carries. */
  const MeshTrigger := "mesh-message"
  /** The reason the auto-cooldown timer passes. */
  const AutoCooldown := "auto-cooldown"
  const ActivatedMarker := "PRIORITY MODE ACTIVATED"
  const DeactivatedMarker := "PRIORITY MODE DEACTIVATED"
  const TaskLabel := "**Task**: "
  const DefaultTask := "Unspecified urgent task"

  /** The characters a regular expression's `.` does not match. */
  predicate LineTerminator(c: char)
  {
    c == '\n' || c == '\r' || c == '\U{2028}' || c == '\U{2029}'
  }

  /** The pattern `\*\*Task\*\*: (.+)` can match at `p`: the label is
      there and at least one character of its line follows it. */
  predicate MatchAt(m: string, p: nat)
  {
    OccursAt(m, TaskLabel, p) && p + |TaskLabel| < |m| && !LineTerminator(m[p + |TaskLabel|])
  }

  /** The leftmost position at or after `i` where the pattern matches. */
  function FirstMatch(m: string, i: nat): (r: Option<nat>)
    ensures r.Some? ==> i <= r.value && MatchAt(m, r.value)
    ensures r.Some? ==> forall q: nat :: i <= q < r.value ==> !MatchAt(m, q)
    ensures r.None? ==> forall q: nat :: i <= q ==> !MatchAt(m, q)
    decreases |m| - i
  {
    if i + |TaskLabel| >= |m| then None
    else if MatchAt(m, i) then Some(i)
    else FirstMatch(m, i + 1)
  }

  /** The end of the line that position `j` is on. */
  function LineEnd(m: string, j: nat): (e: nat)
    requires j <= |m|
    ensures j <= e <= |m|
    ensures e == |m| || LineTerminator(m[e])
    ensures forall k :: j <= k < e ==> !LineTerminator(m[k])
    decreases |m| - j
  {
    if j == |m| || LineTerminator(m[j]) then j else LineEnd(m, j + 1)
  }

  /** The regular expression's first capture group: the rest of the line
      after the first label that is followed by something. */
  function ExtractTask(m: string): (r: Option<string>)
    ensures r.None? <==> forall q: nat :: !MatchAt(m, q)
    ensures r.Some? ==> r.value != [] && forall k :: 0 <= k < |r.value| ==> !LineTerminator(r.value[k])
    ensures r.Some? ==> exists p: nat ::
      && MatchAt(m, p)
      && (forall q: nat :: q < p ==> !MatchAt(m, q))
      && r.value == m[p + |TaskLabel|..LineEnd(m, p + |TaskLabel|)]
  {
    match FirstMatch(m, 0)
    case None => None
    case Some(p) =>
      var e := LineEnd(m, p + |TaskLabel|);
      var t := m[p + |TaskLabel|..e];
      assert t[0] == m[p + |TaskLabel|];
      assert forall k :: 0 <= k < |t| ==> t[k] == m[p + |TaskLabel| + k];
      Some(t)
  }

  /** A task line after a prefix where the pattern does not match is
      found whole: it is every character up to the end of its line. */
  lemma ExtractTaskFinds(prefix: string, task: string, rest: string)
    requires forall q: nat :: q < |prefix| ==> !MatchAt(prefix + TaskLabel + task + rest, q)
    requires task != [] && forall k :: 0 <= k < |task| ==> !LineTerminator(task[k])
    requires rest == [] || LineTerminator(rest[0])
    ensures ExtractTask(prefix + TaskLabel + task + rest) == Some(task)
  {
    var m := prefix + TaskLabel + task + rest;
    var p := |prefix|;
    var L := |TaskLabel|;
    assert m[p..p + L] == TaskLabel;
    assert m[p + L] == task[0];
    assert MatchAt(m, p);
    assert FirstMatch(m, 0) == Some(p);
    var e := LineEnd(m, p + L);
    forall k | p + L <= k < p + L + |task| ensures !LineTerminator(m[k]) {
      assert m[k] == task[k - p - L];
    }
    if rest == [] {
      assert e == |m|;
    } else {
      assert LineTerminator(m[p + L + |task|]);
      assert e == p + L + |task|;
    }
    assert m[p + L..e] == task;
  }

  /** The label cannot start where the next three characters are not
      `**T`. */
  lemma NoLabelAt(m: string, q: nat)
    requires q + 2 < |m|
    requires m[q] != '*' || m[q + 1] != '*' || m[q + 2] != 'T'
    ensures !MatchAt(m, q)
  {
    if q + |TaskLabel| <= |m| {
      var w := m[q..q + |TaskLabel|];
      assert w[0] == m[q] && w[1] == m[q + 1] && w[2] == m[q + 2];
    }
  }

  /** An activation message with a bold header: the stars of the header
      do not start a match, so the task line is found whole. */
  lemma BoldHeaderTask()
    ensures ExtractTask("**" + ActivatedMarker + "**\n" + TaskLabel + "fix db") == Some("fix db")
  {
    var prefix := "**" + ActivatedMarker + "**\n";
    var m := prefix + TaskLabel + "fix db" + "";
    forall q: nat | q < |prefix| ensures !MatchAt(m, q) {
      if q < 2 {
        assert m[2] == ActivatedMarker[0] == 'P';
        NoLabelAt(m, q);
      } else if q < 2 + |ActivatedMarker| {
        assert m[q] == ActivatedMarker[q - 2];
        NoLabelAt(m, q);
      } else {
        assert m[|prefix| - 1] == '\n';
        NoLabelAt(m, q);
      }
    }
    ExtractTaskFinds(prefix, "fix db", "");
    assert m == prefix + TaskLabel + "fix db";
  }

  /** What a CALM message asks the controller to do. */
  datatype CalmCommand = ActivateCmd(task: string, triggeredBy: string) | DeactivateCmd(reason: string) | IgnoreCmd

  /** The dispatch of `processCalmMessage`; the activation marker is
      looked for first. */
  function ParseCalmMessage(m: string): CalmCommand
  {
    if Contains(m, ActivatedMarker) then
      match ExtractTask(m)
      case Some(t) => ActivateCmd(t, MeshTrigger)
      case None => ActivateCmd(DefaultTask, MeshTrigger)
    else if Contains(m, DeactivatedMarker) then DeactivateCmd(MeshTrigger)
    else IgnoreCmd
  }

  /** Every message is an activation exactly when it carries the
      activation marker (whatever else it carries), a deactivation exactly
      when it carries only the deactivation marker, and ignored otherwise;
      both commands come from the mesh, and an activation without a task
      line gets the default task. */
  lemma ParseSpec(m: string)
    ensures ParseCalmMessage(m).ActivateCmd? <==> Contains(m, ActivatedMarker)
    ensures ParseCalmMessage(m).DeactivateCmd? <==> !Contains(m, ActivatedMarker) && Contains(m, DeactivatedMarker)
    ensures ParseCalmMessage(m).ActivateCmd? ==> ParseCalmMessage(m).triggeredBy == MeshTrigger
    ensures ParseCalmMessage(m).DeactivateCmd? ==> ParseCalmMessage(m).reason == MeshTrigger
    ensures ParseCalmMessage(m).ActivateCmd? ==>
      ParseCalmMessage(m).task == if ExtractTask(m).Some? then ExtractTask(m).value else DefaultTask
  {
  }

  /** The deactivation marker does not contain the activation marker, so a
      bare deactivation message deactivates. */
  lemma {:induction false} MarkersDistinct()
    ensures !Contains(DeactivatedMarker, ActivatedMarker)
    ensures ParseCalmMessage(DeactivatedMarker) == DeactivateCmd(MeshTrigger)
  {
    var s, p := DeactivatedMarker, ActivatedMarker;
    forall i: nat ensures !OccursAt(s, p, i) {
      if i + |p| <= |s| {
        if i == 0 {
          assert s[i..i + |p|][14] != p[14];
        } else {
          assert s[i..i + |p|][0] == s[i];
          assert s[1] == 'R' && s[2] == 'I' && p[0] == 'P';
        }
      }
    }
    assert OccursAt(s, s, 0);
  }

  /** The controller's state: the state file (`None` when it is missing or
      unreadable), every heartbeat interval pushed to the gateway, the
      interval the gateway last accepted, and the due times of the pending
      auto-cooldown timers. */
  class CalmHeartbeat {
    var file: Option<CalmRecord>
    var pushes: seq<int>
    var heartbeat: Option<int>
    var timers: seq<int>

    constructor(stored: Option<CalmRecord>)
      ensures file == stored && pushes == [] && heartbeat == None && timers == []
    {
      file := stored;
      pushes := [];
      heartbeat := None;
      timers := [];
    }

    /** `writeCalmState`: stamps the record and stores it; a failed write
        (`writeOk` false) stores nothing and answers false. */
    method WriteCalmState(state: CalmRecord, now: int, writeOk: bool) returns (ok: bool)
      modifies this`file
      ensures ok == writeOk
      ensures file == if writeOk then Some(state.(lastUpdated := now)) else old(file)
    {
      var s := state;
      s := s.(lastUpdated := now);
      if !writeOk {
        return false;
      }
      file := Some(s);
      return true;
    }

    /** `updateHeartbeatConfig`: pushes the interval to the gateway; the
        gateway takes it only when the push succeeds. */
    method UpdateHeartbeatConfig(intervalMs: int, pushOk: bool) returns (ok: bool)
      modifies this`pushes, this`heartbeat
      ensures ok == pushOk
      ensures pushes == old(pushes) + [intervalMs]
      ensures heartbeat == if pushOk then Some(intervalMs) else old(heartbeat)
    {
      pushes := pushes + [intervalMs];
      if pushOk {
        heartbeat := Some(intervalMs);
      }
      ok := pushOk;
    }

    /** `activatePriorityMode`: a failed write answers false before any
        push; a failed push answers false with the new record already
        stored; only a full success schedules the auto-cooldown, four hours
        on, beside any timer still pending. */
    method Activate(task: string, triggeredBy: string, now: int, writeOk: bool, pushOk: bool) returns (ok: bool)
      modifies this`file, this`pushes, this`heartbeat, this`timers
      ensures ok == (writeOk && pushOk)
      ensures file == if writeOk then Some(Stamped(Activated(ReadCalmState(old(file), now), task, triggeredBy, now), now)) else old(file)
      ensures pushes == if writeOk then old(pushes) + [PriorityHeartbeat] else old(pushes)
      ensures heartbeat == if ok then Some(PriorityHeartbeat) else old(heartbeat)
      ensures timers == if ok then old(timers) + [now + MaxPriorityDuration] else old(timers)
    {
      var state := ReadCalmState(file, now);
      state := state.(priorityMode := true);
      state := state.(task := Some(task));
      state := state.(triggeredBy := Some(triggeredBy));
      state := state.(activatedAt := Some(now));
      state := state.(currentHeartbeat := Some(PriorityHeartbeat));
      var written := WriteCalmState(state, now, writeOk);
      if !written {
        return false;
      }
      var pushed := UpdateHeartbeatConfig(PriorityHeartbeat, pushOk);
      if !pushed {
        return false;
      }
      timers := timers + [now + MaxPriorityDuration];
      return true;
    }

    /** `deactivatePriorityMode`: the same write-then-push sequence with
        the 30-minute interval. No timer is cancelled. */
    method Deactivate(reason: string, now: int, writeOk: bool, pushOk: bool) returns (ok: bool)
      modifies this`file, this`pushes, this`heartbeat
      ensures ok == (writeOk && pushOk)
      ensures file == if writeOk then Some(Stamped(Deactivated(ReadCalmState(old(file), now), reason, now), now)) else old(file)
      ensures pushes == if writeOk then old(pushes) + [NormalHeartbeat] else old(pushes)
      ensures heartbeat == if ok then Some(NormalHeartbeat) else old(heartbeat)
    {
      var state := ReadCalmState(file, now);
      state := state.(priorityMode := false);
      state := state.(deactivatedAt := Some(now));
      state := state.(deactivationReason := Some(reason));
      state := state.(currentHeartbeat := Some(NormalHeartbeat));
      var written := WriteCalmState(state, now, writeOk);
      if !written {
        return false;
      }
      var pushed := UpdateHeartbeatConfig(NormalHeartbeat, pushOk);
      if !pushed {
        return false;
      }
      return true;
    }

    /** A pending auto-cooldown timer whose time has come: it leaves the
        list and deactivates with reason `auto-cooldown`, whatever the
        mode is then. */
    method FireAutoCooldown(i: nat, now: int, writeOk: bool, pushOk: bool)
      requires i < |timers| && timers[i] <= now
      modifies this`file, this`pushes, this`heartbeat, this`timers
      ensures timers == old(timers[..i] + timers[i + 1..])
      ensures file == if writeOk then Some(Stamped(Deactivated(ReadCalmState(old(file), now), AutoCooldown, now), now)) else old(file)
      ensures pushes == if writeOk then old(pushes) + [NormalHeartbeat] else old(pushes)
      ensures heartbeat == if writeOk && pushOk then Some(NormalHeartbeat) else old(heartbeat)
    {
      timers := timers[..i] + timers[i + 1..];
      var _ := Deactivate(AutoCooldown, now, writeOk, pushOk);
    }

    /** `processCalmMessage`: runs the command the message carries. */
    method ProcessCalmMessage(message: string, now: int, writeOk: bool, pushOk: bool)
      modifies this`file, this`pushes, this`heartbeat, this`timers
      ensures ParseCalmMessage(message).IgnoreCmd? ==>
        file == old(file) && pushes == old(pushes) && heartbeat == old(heartbeat) && timers == old(timers)
      ensures ParseCalmMessage(message).ActivateCmd? ==>
        var c := ParseCalmMessage(message);
        && file == (if writeOk then Some(Stamped(Activated(ReadCalmState(old(file), now), c.task, MeshTrigger, now), now)) else old(file))
        && pushes == (if writeOk then old(pushes) + [PriorityHeartbeat] else old(pushes))
        && heartbeat == (if writeOk && pushOk then Some(PriorityHeartbeat) else old(heartbeat))
        && timers == (if writeOk && pushOk then old(timers) + [now + MaxPriorityDuration] else old(timers))
      ensures ParseCalmMessage(message).DeactivateCmd? ==>
        && file == (if writeOk then Some(Stamped(Deactivated(ReadCalmState(old(file), now), MeshTrigger, now), now)) else old(file))
        && pushes == (if writeOk then old(pushes) + [NormalHeartbeat] else old(pushes))
        && heartbeat == (if writeOk && pushOk then Some(NormalHeartbeat) else old(heartbeat))
        && timers == old(timers)
    {
      ParseSpec(message);
      match ParseCalmMessage(message) {
        case ActivateCmd(task, trigger) =>
          var _ := Activate(task, trigger, now, writeOk, pushOk);
        case DeactivateCmd(reason) =>
          var _ := Deactivate(reason, now, writeOk, pushOk);
        case IgnoreCmd =>
      }
    }
  }
}
