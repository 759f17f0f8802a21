/** Which hardware clocks the daemon lets drive the system clock after a BMCA run. */
module ClockModes {
  import opened Prelude
  import opened DataSets
  import Instance
  import InstanceRuns

  datatype ClockMode = FromSystem | ToSystem

  /** A clock drives the system clock exactly when some port that steers uses it. */
  ghost predicate Published(modes: seq<ClockMode>, steering: seq<bool>, clockOf: seq<Option<nat>>) {
    && |steering| == |clockOf|
    && forall c :: 0 <= c < |modes| ==>
         (modes[c] == ToSystem <==> exists i :: 0 <= i < |steering| && steering[i] && clockOf[i] == Some(c))
  }

  method Publish(steering: seq<bool>, clockOf: seq<Option<nat>>, clocks: nat) returns (modes: seq<ClockMode>)
    requires |steering| == |clockOf| && forall i :: 0 <= i < |clockOf| && clockOf[i].Some? ==> clockOf[i].value < clocks
    ensures |modes| == clocks && Published(modes, steering, clockOf)
  {
    modes := seq(clocks, _ => FromSystem);
    for i := 0 to |steering|
      invariant |modes| == clocks
      invariant forall c :: 0 <= c < clocks ==>
                  (modes[c] == ToSystem <==> exists j :: 0 <= j < i && steering[j] && clockOf[j] == Some(c))
    {
      if steering[i] && clockOf[i].Some? {
        modes := modes[clockOf[i].value := ToSystem];
      }
    }
  }

  predicate Steering(p: Instance.Port) { p.role.Slave? }

  function SteeringPorts(ports: seq<Instance.Port>): (r: seq<bool>)
    ensures |r| == |ports| && forall i :: 0 <= i < |r| ==> r[i] == Steering(ports[i])
  {
    seq(|ports|, i requires 0 <= i < |ports| => Steering(ports[i]))
  }

  /** After a run of the algorithm a clock drives the system clock exactly if a Slave port uses it. */
  lemma DrivesIffSlave(ports: seq<Instance.Port>, clockOf: seq<Option<nat>>, modes: seq<ClockMode>, c: nat)
    requires Published(modes, SteeringPorts(ports), clockOf) && c < |modes|
    ensures modes[c] == ToSystem <==> exists i :: 0 <= i < |ports| && ports[i].role.Slave? && clockOf[i] == Some(c)
  {
    var steering := SteeringPorts(ports);
    assert forall i :: 0 <= i < |ports| ==> steering[i] == ports[i].role.Slave?;
  }

  /** In every state of every run of an instance, at most one clock is told to drive the system clock. */
  lemma AtMostOneDrives(run: seq<Instance.State>, events: seq<Instance.Event>, d: DefaultDS, time: TimeProperties, k: nat,
                        clockOf: seq<Option<nat>>, modes: seq<ClockMode>, a: nat, b: nat)
    requires Instance.IsRun(run, events, d, time) && k < |run| && |run[k].ports| <= InstanceRuns.MAX_PORTS
    requires Published(modes, SteeringPorts(run[k].ports), clockOf)
    requires a < |modes| && b < |modes| && modes[a] == ToSystem && modes[b] == ToSystem
    ensures a == b
  {
    InstanceRuns.RunsKeepInv(run, events, d, time, k);
    var i :| 0 <= i < |clockOf| && Steering(run[k].ports[i]) && clockOf[i] == Some(a);
    var j :| 0 <= j < |clockOf| && Steering(run[k].ports[j]) && clockOf[j] == Some(b);
    assert i == j;
  }
}
