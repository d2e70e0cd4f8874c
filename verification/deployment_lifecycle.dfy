/** Managed Deployments and their active-claim counters (src/cord_runtime/deployment_lifecycle.py). */
module DeploymentLifecycle {
  import opened Basics

  datatype Status = Running | Stopped | StartFailed

  datatype Record = Record(status: Status, pid: Option<int>, activeRuns: nat, lastActive: real, lastError: Option<string>)

  type Records = map<string, Record>

  /** The fields of a registered connection this store reads. */
  datatype Connection = Connection(launch: Option<string>, idleAfter: Option<real>) {
    predicate Managed() {
      launch.Some? && launch.value != ""
    }
  }

  const DEFAULT_IDLE_AFTER: real := 600.0

  /** What the world answers: a liveness probe, a launch, and the health poll after it. */
  datatype Probe = Probe(alive: bool, launched: Result<int, string>, healthy: bool)

  datatype Started = External | IsRunning(pid: Option<int>) | FailedToStart(error: string)

  const UNHEALTHY: string := "did not become healthy after launch"

  function EnsureStarted(data: Records, alias: string, connection: Connection, now: real, probe: Probe): (Records, Started) {
    if !connection.Managed() then (data, External)
    else if alias in data && data[alias].status.Running? && probe.alive then
      (data[alias := data[alias].(activeRuns := data[alias].activeRuns + 1, lastActive := now)], IsRunning(data[alias].pid))
    else if probe.launched.Err? then
      (data[alias := Record(StartFailed, None, 0, now, Some(probe.launched.error))], FailedToStart(probe.launched.error))
    else if !probe.healthy then
      (data[alias := Record(StartFailed, Some(probe.launched.value), 0, now, Some(UNHEALTHY))], FailedToStart(UNHEALTHY))
    else
      (data[alias := Record(Running, Some(probe.launched.value), 1, now, None)], IsRunning(Some(probe.launched.value)))
  }

  /** Drops one claim, even from a caller that never took one. */
  function ReleaseActive(data: Records, alias: string, connection: Connection, now: real): Records {
    if connection.Managed() && alias in data && data[alias].status.Running? then
      data[alias := data[alias].(activeRuns := Max(0, data[alias].activeRuns - 1), lastActive := now)]
    else data
  }

  predicate Idle(data: Records, alias: string, connections: map<string, Connection>, now: real) {
    && alias in data && alias in connections && connections[alias].Managed()
    && data[alias].status.Running? && data[alias].activeRuns == 0
    && now - data[alias].lastActive >= (if connections[alias].idleAfter.Some? then connections[alias].idleAfter.value else DEFAULT_IDLE_AFTER)
  }

  function StoppedRecord(record: Record): Record {
    record.(status := Stopped, pid := None)
  }

  function StopIdle(data: Records, connections: map<string, Connection>, now: real): Records {
    map alias | alias in data :: if Idle(data, alias, connections, now) then StoppedRecord(data[alias]) else data[alias]
  }

  class LifecycleStore {
    var data: Records

    constructor ()
      ensures data == map[]
    {
      data := map[];
    }

    method Start(alias: string, connection: Connection, now: real, probe: Probe) returns (started: Started)
      modifies this
      ensures (data, started) == EnsureStarted(old(data), alias, connection, now, probe)
    {
      if !connection.Managed() { return External; }
      if alias in data && data[alias].status.Running? && probe.alive {
        var record := data[alias];
        record := record.(activeRuns := record.activeRuns + 1, lastActive := now);
        data := data[alias := record];
        return IsRunning(record.pid);
      }
      if probe.launched.Err? {
        data := data[alias := Record(StartFailed, None, 0, now, Some(probe.launched.error))];
        return FailedToStart(probe.launched.error);
      }
      var pid := probe.launched.value;
      if !probe.healthy {
        data := data[alias := Record(StartFailed, Some(pid), 0, now, Some(UNHEALTHY))];
        return FailedToStart(UNHEALTHY);
      }
      data := data[alias := Record(Running, Some(pid), 1, now, None)];
      return IsRunning(Some(pid));
    }

    method Release(alias: string, connection: Connection, now: real)
      modifies this
      ensures data == ReleaseActive(old(data), alias, connection, now)
    {
      if !connection.Managed() { return; }
      if alias !in data || !data[alias].status.Running? { return; }
      var record := data[alias];
      record := record.(activeRuns := Max(0, record.activeRuns - 1), lastActive := now);
      data := data[alias := record];
    }

    /** Stops exactly the idle Deployments, each once, and touches no other record. */
    method StopAllIdle(connections: map<string, Connection>, now: real) returns (stopped: seq<string>)
      modifies this
      ensures data == StopIdle(old(data), connections, now)
      ensures NoDup(stopped) && forall alias :: alias in stopped <==> Idle(old(data), alias, connections, now)
    {
      stopped := [];
      var left := data.Keys;
      while left != {}
        invariant left <= data.Keys == old(data).Keys
        invariant forall alias | alias in left :: data[alias] == old(data)[alias]
        invariant forall alias | alias in data && alias !in left :: data[alias] == StopIdle(old(data), connections, now)[alias]
        invariant NoDup(stopped)
        invariant forall alias :: alias in stopped <==> alias in data && alias !in left && Idle(old(data), alias, connections, now)
        decreases left
      {
        var alias :| alias in left;
        left := left - {alias};
        if alias !in connections || !connections[alias].Managed() { continue; }
        var record := data[alias];
        if !record.status.Running? || record.activeRuns > 0 { continue; }
        var idleAfter := if connections[alias].idleAfter.Some? then connections[alias].idleAfter.value else DEFAULT_IDLE_AFTER;
        if now - record.lastActive < idleAfter { continue; }
        data := data[alias := StoppedRecord(record)];
        NoDupConcat(stopped, [alias]);
        stopped := stopped + [alias];
      }
    }
  }

  /** Taking a claim on a running Deployment and dropping it again leaves the count as it was. */
  lemma StartThenRelease(data: Records, alias: string, connection: Connection, now: real, later: real, probe: Probe)
    requires connection.Managed() && EnsureStarted(data, alias, connection, now, probe).1.IsRunning?
    ensures
      var (started, _) := EnsureStarted(data, alias, connection, now, probe);
      var released := ReleaseActive(started, alias, connection, later);
      && alias in released && released[alias].status.Running? && released[alias].lastActive == later
      && released[alias].activeRuns == (if alias in data && data[alias].status.Running? && probe.alive then data[alias].activeRuns else 0)
      && released - {alias} == data - {alias}
  {
  }

  // ---------------------------------------------------------------- from launch to idle stop

  /** A call on one running Deployment that answers its probes: a Run taken up or given back. */
  datatype Use = Take(at: real) | Drop(at: real)

  const ANSWERS: Probe := Probe(true, Err(""), false)

  function Used(data: Records, alias: string, connection: Connection, uses: seq<Use>): Records {
    if |uses| == 0 then data
    else
      var before := Used(data, alias, connection, uses[..|uses| - 1]);
      match uses[|uses| - 1]
      case Take(at) => EnsureStarted(before, alias, connection, at, ANSWERS).0
      case Drop(at) => ReleaseActive(before, alias, connection, at)
  }

  /** The Runs under way: those taken up less those given back. */
  function UnderWay(start: nat, uses: seq<Use>): int {
    if |uses| == 0 then start
    else UnderWay(start, uses[..|uses| - 1]) + if uses[|uses| - 1].Take? then 1 else -1
  }

  /** No Run is given back that was not taken up. */
  ghost predicate Matched(start: nat, uses: seq<Use>) {
    forall n | 0 <= n <= |uses| :: UnderWay(start, uses[..n]) >= 0
  }

  lemma {:induction false} UsedCounts(data: Records, alias: string, connection: Connection, uses: seq<Use>)
    requires connection.Managed() && alias in data && data[alias].status.Running? && Matched(data[alias].activeRuns, uses)
    ensures
      var v := Used(data, alias, connection, uses);
      && v.Keys == data.Keys && (forall other | other in data && other != alias :: v[other] == data[other])
      && v[alias].status.Running? && v[alias].activeRuns == UnderWay(data[alias].activeRuns, uses)
      && v[alias].lastActive == (if |uses| == 0 then data[alias].lastActive else uses[|uses| - 1].at)
  {
    if |uses| > 0 {
      var front := uses[..|uses| - 1];
      assert uses[..|uses|] == uses;
      assert forall n | 0 <= n <= |front| :: front[..n] == uses[..n];
      UsedCounts(data, alias, connection, front);
    }
  }

  /**
   However Runs come and go on a Deployment that keeps answering, an idle sweep stops it exactly when
   none is under way and the last of them came or went the idle time ago or longer.
   */
  lemma StoppedWhenIdle(data: Records, alias: string, connections: map<string, Connection>, uses: seq<Use>, now: real)
    requires alias in connections && connections[alias].Managed() && |uses| > 0
    requires alias in data && data[alias].status.Running? && Matched(data[alias].activeRuns, uses)
    ensures
      var used := Used(data, alias, connections[alias], uses);
      var idleAfter := if connections[alias].idleAfter.Some? then connections[alias].idleAfter.value else 600.0;
      var v := StopIdle(used, connections, now);
      && alias in v
      && (v[alias].status.Stopped? <==> UnderWay(data[alias].activeRuns, uses) == 0 && now - uses[|uses| - 1].at >= idleAfter)
      && (!v[alias].status.Stopped? ==> v[alias] == used[alias])
  {
    UsedCounts(data, alias, connections[alias], uses);
  }
}
