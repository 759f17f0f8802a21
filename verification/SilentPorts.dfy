/** Where the timer guarantee stops: when a port can listen without its announce receipt timer, so that
    silence on the network no longer makes it Master. */
module SilentPorts {
  import opened Prelude
  import opened DataSets
  import opened DatasetComparison
  import opened ForeignMasters
  import opened Bmca
  import opened Instance
  import opened InstanceRuns
  import opened InstanceGuarantees
  import Measurement

  predicate Silent(p: Port) { p.role.Listening? && !EffectiveTimers(p).receipt }

  // ----- the one step that makes a port silent -----

  lemma EventsMaySilence(s: Shared, p: Port, e: Event)
    requires AtPort(e) && PortEnabled(p, e) && !Silent(p)
    ensures Silent(PortNext(s, p, e)) <==> e.PeerMeasured? && p.role.Faulty? && !p.timers.receipt
  {
    PendingEffect(p.timers.(receipt := false), ResetAnnounce, ResetSync);
  }

  lemma DecisionsDoNotSilence(d: DefaultDS, ebest: Option<Best>, p: Port)
    requires p.mode.InBmca? && !Silent(p)
    ensures !Silent(Decided(d, ebest, p))
  {
    PendingEffect(p.timers, ResetReceipt, ResetDelay);
  }

  /** A port falls silent exactly when a completed peer measurement ends its fault while the receipt
      timer is not armed. */
  lemma FallsSilentOnlyByRecovery(s: State, e: Event, i: nat)
    requires Enabled(s, e) && i < |s.ports| && !Silent(s.ports[i])
    ensures Silent(Step(s, e).ports[i]) <==>
              e == PeerMeasured(i) && s.ports[i].role.Faulty? && !s.ports[i].timers.receipt
  {
    if e.RunBmca? {
      var chosen := ChosenAll(s.ports);
      RunAt(s, e.step, i);
      assert !Silent(chosen[i]);
      DecisionsDoNotSilence(s.shared.default, Ebest(chosen), chosen[i]);
    } else if AtPort(e) && e.p == i {
      EventsMaySilence(s.shared, s.ports[i], e);
    }
  }

  // ----- the history of the timer -----

  /** The receipt timer fires and the port becomes Master: nothing arms it again. */
  predicate Fires(s: State, e: Event, i: nat) { e == ReceiptTimer(i) && !s.shared.default.slaveOnly }

  predicate Heard(s: Shared, p: Port, a: Announce, loopsBack: bool) {
    && !(p.role.Slave? && a.header.source == s.parent.parent && loopsBack)
    && a.header.source != p.identity && Acceptable(p.config.acceptable, a.header.source.clock)
  }

  predicate Resets(actions: seq<Action>) {
    |actions| > 0 && (actions[|actions| - 1] == ResetReceipt || Resets(actions[..|actions| - 1]))
  }

  /** The step tells port i to reset its receipt timer. */
  predicate Rearms(s: State, e: Event, i: nat)
    requires Enabled(s, e) && i < |s.ports|
  {
    match e
    case ReceiveAnnounce(p, a, loopsBack) => p == i && Heard(s.shared, s.ports[i], a, loopsBack)
    case ReceiptTimer(p) => p == i && s.shared.default.slaveOnly
    case EndBmca(p) => p == i && Resets(s.ports[i].mode.pending)
    case _ => false
  }

  ghost predicate RearmedAt(run: seq<State>, events: seq<Event>, k: nat, i: nat) {
    Link(run, events, k) && i < |run[k].ports| && Rearms(run[k], events[k], i)
  }

  ghost predicate LapsedAt(run: seq<State>, events: seq<Event>, k: nat, n: nat, i: nat) {
    k < n && Link(run, events, k) && Fires(run[k], events[k], i)
    && forall m :: k < m < n ==> !RearmedAt(run, events, m, i)
  }

  /** Before state n the receipt timer of port i fired with slave-only off and was not reset since. */
  ghost predicate Lapsed(run: seq<State>, events: seq<Event>, n: nat, i: nat) {
    exists k: nat :: LapsedAt(run, events, k, n, i)
  }

  /** A new port that has not been handed out yet. */
  predicate Untouched(p: Port) {
    p.role.Listening? && p.masters == [] && p.mode.InBmca? && p.mode.pending == [ResetReceipt] && !p.timers.receipt
  }

  lemma {:induction false} ReceiptAmong(t: Timers, actions: seq<Action>)
    ensures ApplyAll(t, actions).receipt <==> t.receipt || Resets(actions)
  {
    if |actions| > 0 {
      ReceiptAmong(t, actions[..|actions| - 1]);
    }
  }

  lemma TimerEvent(s: State, e: Event)
    requires AtPort(e) && Enabled(s, e)
    ensures PortNext(s.shared, s.ports[e.p], e).timers.receipt <==>
              Rearms(s, e, e.p) || (s.ports[e.p].timers.receipt && !Fires(s, e, e.p))
  {
    var p := s.ports[e.p];
    if e.EndBmca? {
      ReceiptAmong(p.timers, p.mode.pending);
    } else if e.ReceiptTimer? {
      PendingEffect(p.timers.(receipt := false), ResetAnnounce, ResetSync);
    }
  }

  lemma RunKeepsTimers(s: State, step: int, i: nat)
    requires Enabled(s, RunBmca(step)) && i < |s.ports|
    ensures BmcaRun(s, step).ports[i].timers == s.ports[i].timers
  {
    RunAt(s, step, i);
  }

  lemma TimerStep(s: State, e: Event, i: nat)
    requires Enabled(s, e) && i < |s.ports|
    ensures var p, q := s.ports[i], Step(s, e).ports[i];
            q.timers.receipt <==> Rearms(s, e, i) || (p.timers.receipt && !Fires(s, e, i))
  {
    if e.RunBmca? {
      RunKeepsTimers(s, e.step, i);
    } else if AtPort(e) && e.p == i {
      TimerEvent(s, e);
    }
  }

  lemma UntouchedStays(s: State, e: Event, i: nat)
    requires Enabled(s, e) && i < |s.ports| && Untouched(s.ports[i]) && !Rearms(s, e, i)
    ensures Untouched(Step(s, e).ports[i])
  {
    if e.RunBmca? {
      RunAt(s, e.step, i);
    }
  }

  lemma LapsedNext(run: seq<State>, events: seq<Event>, n: nat, i: nat)
    requires Link(run, events, n) && i < |run[n].ports|
    ensures Lapsed(run, events, n + 1, i) <==>
              Fires(run[n], events[n], i) || (Lapsed(run, events, n, i) && !Rearms(run[n], events[n], i))
  {
    if Fires(run[n], events[n], i) {
      assert LapsedAt(run, events, n, n + 1, i);
    }
    if Lapsed(run, events, n, i) && !Rearms(run[n], events[n], i) {
      var k: nat :| LapsedAt(run, events, k, n, i);
      assert LapsedAt(run, events, k, n + 1, i);
    }
    if Lapsed(run, events, n + 1, i) {
      var k: nat :| LapsedAt(run, events, k, n + 1, i);
      if k < n {
        assert LapsedAt(run, events, k, n, i);
        assert !RearmedAt(run, events, n, i);
      }
    }
  }

  /** Ports are added and never removed. */
  lemma {:induction false} PortsOnlyGrow(run: seq<State>, events: seq<Event>, d: DefaultDS, time: TimeProperties, n: nat, k: nat)
    requires IsRun(run, events, d, time) && k <= n < |run|
    ensures |run[k].ports| <= |run[n].ports|
  {
    if k < n {
      PortsOnlyGrow(run, events, d, time, n - 1, k);
      assert Link(run, events, n - 1);
    }
  }

  lemma {:induction false} TimerHistory(run: seq<State>, events: seq<Event>, d: DefaultDS, time: TimeProperties, n: nat, i: nat)
    requires IsRun(run, events, d, time) && n < |run| && i < |run[n].ports|
    ensures !run[n].ports[i].timers.receipt <==> Lapsed(run, events, n, i) || Untouched(run[n].ports[i])
  {
    var s, e := run[n - 1], events[n - 1];
    assert Link(run, events, n - 1);
    if i < |s.ports| {
      TimerHistory(run, events, d, time, n - 1, i);
      TimerStep(s, e, i);
      LapsedNext(run, events, n - 1, i);
      if Untouched(s.ports[i]) && !Rearms(s, e, i) {
        UntouchedStays(s, e, i);
      }
    } else {
      if k: nat :| LapsedAt(run, events, k, n, i) {
        PortsOnlyGrow(run, events, d, time, n - 1, k);
        assert false;
      }
    }
  }

  /** In every state of every run: the receipt timer of a running port is missing exactly if it fired
      with slave-only off and was not reset since; a listening port without it is a peer-to-peer port
      that has been able to follow a master. */
  lemma SilentIffLapsed(run: seq<State>, events: seq<Event>, d: DefaultDS, time: TimeProperties, n: nat, i: nat)
    requires IsRun(run, events, d, time) && n < |run| && i < |run[n].ports| && run[n].ports[i].mode.Running?
    ensures var p := run[n].ports[i];
            && (!p.timers.receipt <==> Lapsed(run, events, n, i))
            && (Silent(p) <==> p.role.Listening? && Lapsed(run, events, n, i))
            && (|run[n].ports| <= MAX_PORTS && Silent(p) ==> p.config.peerToPeer && CanFollow(p))
  {
    TimerHistory(run, events, d, time, n, i);
    if |run[n].ports| <= MAX_PORTS {
      RunsKeepInv(run, events, d, time, n);
      assert run[n].ports[i] in run[n].ports;
    }
  }

  /** While slave-only is set no running port is without its receipt timer, peer-to-peer or not. */
  lemma SlaveOnlyIsNeverSilent(run: seq<State>, events: seq<Event>, d: DefaultDS, time: TimeProperties, n: nat, i: nat)
    requires IsRun(run, events, d, time) && n < |run| && i < |run[n].ports| && run[n].ports[i].mode.Running?
    requires d.slaveOnly && forall k :: 0 <= k < n ==> events[k] != SetSlaveOnly(false)
    ensures run[n].ports[i].timers.receipt
  {
    SilentIffLapsed(run, events, d, time, n, i);
    if k: nat :| LapsedAt(run, events, k, n, i) {
      SlaveOnlyIsHonoured(run, events, d, time, 0, k);
      assert false;
    }
  }

  // ----- which configurations can fall silent -----

  ghost predicate Reached(d: DefaultDS, time: TimeProperties, s: State) {
    exists run, events :: IsRun(run, events, d, time) && run[|run| - 1] == s
  }

  ghost predicate EndsSilent(d: DefaultDS, time: TimeProperties, s: State, i: nat, config: PortConfig) {
    && Reached(d, time, s) && i < |s.ports| <= MAX_PORTS
    && s.ports[i].config == config && s.ports[i].mode.Running? && Silent(s.ports[i])
  }

  ghost predicate CanFallSilent(d: DefaultDS, time: TimeProperties, config: PortConfig) {
    exists s: State, i: nat :: EndsSilent(d, time, s, i, config)
  }

  lemma {:induction false} ClockStays(run: seq<State>, events: seq<Event>, d: DefaultDS, time: TimeProperties, n: nat)
    requires IsRun(run, events, d, time) && n < |run|
    ensures run[n].shared.default.clockIdentity == d.clockIdentity
  {
    if n > 0 {
      ClockStays(run, events, d, time, n - 1);
      assert Link(run, events, n - 1);
      var s := run[n - 1];
      if events[n - 1].RunBmca? {
        SharedKeepsDefault(s.shared, s.shared.default, ChosenAll(s.ports));
      }
    }
  }

  /** A port can fall silent in some run exactly if it is peer-to-peer, not master-only, and accepts
      some master other than the own clock. */
  lemma SilenceIffPeerFollower(d: DefaultDS, time: TimeProperties, config: PortConfig)
    requires GoodConfig(config)
    ensures CanFallSilent(d, time, config) <==>
              config.peerToPeer && !config.masterOnly && CanHear(config, d.clockIdentity)
  {
    if s: State, i: nat :| EndsSilent(d, time, s, i, config) {
      var run, events :| IsRun(run, events, d, time) && run[|run| - 1] == s;
      SilentIffLapsed(run, events, d, time, |run| - 1, i);
      RunsKeepInv(run, events, d, time, |run| - 1);
      ClockStays(run, events, d, time, |run| - 1);
    }
    if config.peerToPeer && !config.masterOnly && CanHear(config, d.clockIdentity) {
      PeerFollowerFallsSilent(d, time, config);
    }
  }

  // ----- the run that does it -----

  lemma Reach(d: DefaultDS, time: TimeProperties, s: State, e: Event)
    requires Reached(d, time, s) && Enabled(s, e)
    ensures Reached(d, time, Step(s, e))
  {
    var run, events :| IsRun(run, events, d, time) && run[|run| - 1] == s;
    var longer, more := run + [Step(s, e)], events + [e];
    forall i | 0 <= i < |more| ensures Link(longer, more, i) {
      assert i < |events| ==> Link(run, events, i);
    }
    assert IsRun(longer, more, d, time) && longer[|longer| - 1] == Step(s, e);
  }

  const WORST := ClockQuality(255, 255, 0xFFFF)

  /** Announce n of a master that beats every clock of the worst quality. */
  function Hello(x: ClockIdentity, n: u16): Announce {
    Announce(
      Header(0, 2, 1, 0, false, false, false, false, false, false, false, false, false, false, false, false,
             0, PortIdentity(x, 1), n, 0),
      WireTimestamp(0, 0), 0, 0, ClockQuality(0, 0, 0), 0, x, 0, Other)
  }

  function HeardTwice(x: ClockIdentity): seq<ForeignMasters.Master> {
    [ForeignMasters.Master(PortIdentity(x, 1), [Stored(Hello(x, 0), 0), Stored(Hello(x, 1), 0)])]
  }

  lemma HearingTwice(own: PortIdentity, interval: int, x: ClockIdentity)
    requires x != own.clock && interval > 0
    ensures Registered(Registered([], own, interval, Hello(x, 0), 0), own, interval, Hello(x, 1), 0) == HeardTwice(x)
  {
    var first, second := Stored(Hello(x, 0), 0), Stored(Hello(x, 1), 0);
    var once := Registered([], own, interval, Hello(x, 0), 0);
    assert once == [ForeignMasters.Master(PortIdentity(x, 1), [first])];
    assert Find(once, PortIdentity(x, 1)) == Some(0);
    assert Qualified(once, own, Hello(x, 1));
    RetainYoung([first], Cutoff(interval));
    assert Push([first], second) == [first, second];
    assert Registered(once, own, interval, Hello(x, 1), 0) == once[0 := once[0].(messages := [first, second])];
  }

  lemma SingleIsBest(b: Best)
    ensures MaxBy([b]) == Some(b)
  {
    assert [b][..0] == [];
  }

  lemma HelloIsBest(own: PortIdentity, x: ClockIdentity)
    ensures BestOf(HeardTwice(x), own) == Some(Best(Hello(x, 1), 0, own))
  {
    var m := HeardTwice(x);
    assert m[1..] == [];
    assert Taken(m[1..]) == [];
    assert Taken(m) == [Stored(Hello(x, 1), 0)];
    assert Candidates(m, own) == [Best(Hello(x, 1), 0, own)];
    SingleIsBest(Best(Hello(x, 1), 0, own));
  }

  lemma HelloBeatsWorst(d: DefaultDS, own: PortIdentity, x: ClockIdentity)
    requires x != d.clockIdentity && d.quality == WORST
    ensures CompareOwn(d, Some(Best(Hello(x, 1), 0, own))) == Less
  {}

  lemma OnlyPortIsEbest(chosen: seq<Port>)
    requires |chosen| == 1 && chosen[0].mode.InBmca? && Eligible(chosen[0]) && chosen[0].mode.localBest.Some?
    ensures Ebest(chosen) == chosen[0].mode.localBest
  {
    assert chosen[..0] == [];
    assert EligibleBests(chosen) == [chosen[0].mode.localBest.value];
    SingleIsBest(chosen[0].mode.localBest.value);
  }

  /** A port that has heard the master twice becomes its Slave. */
  lemma HelloMakesSlave(s: State, x: ClockIdentity)
    requires Enabled(s, RunBmca(0)) && |s.ports| == 1 && s.ports[0].masters == HeardTwice(x) && Eligible(s.ports[0])
    requires x != s.shared.default.clockIdentity && s.shared.default.quality == WORST && !s.ports[0].role.Slave?
    ensures var q := BmcaRun(s, 0).ports[0];
            && q.role.Slave? && q.mode.InBmca? && q.mode.pending == [ResetReceipt, ResetDelay]
            && q.timers == s.ports[0].timers && q.config == s.ports[0].config && q.peer == s.ports[0].peer
  {
    var d, chosen, p := s.shared.default, ChosenAll(s.ports), s.ports[0];
    HelloIsBest(p.identity, x);
    OnlyPortIsEbest(chosen);
    HelloBeatsWorst(d, p.identity, x);
    assert RecommendFor(d, Ebest(chosen), chosen[0]) == Some(S1(Hello(x, 1)));
    RunAt(s, 0, 0);
  }

  function Alone(p: Port, e: Event, s: Shared): State
    requires AtPort(e) && PortEnabled(p, e) && e.p == 0
  {
    State(SharedNext(s, p, e), [PortNext(s, p, e)])
  }

  lemma ReachAlone(d: DefaultDS, time: TimeProperties, s: Shared, p: Port, e: Event)
    requires Reached(d, time, State(s, [p])) && AtPort(e) && e.p == 0 && PortEnabled(p, e)
    ensures Reached(d, time, Alone(p, e, s))
  {
    Reach(d, time, State(s, [p]), e);
    assert [p][0 := PortNext(s, p, e)] == [PortNext(s, p, e)];
  }

  lemma ToNewPort(d: DefaultDS, time: TimeProperties, config: PortConfig) returns (s: Shared)
    requires GoodConfig(config)
    ensures Reached(d, time, State(s, [NewPort(d.clockIdentity, 1, config)]))
    ensures !s.default.slaveOnly && s.default.quality == WORST && s.default.clockIdentity == d.clockIdentity
  {
    var s0 := Initial(d, time);
    assert IsRun([s0], [], d, time);
    Reach(d, time, s0, SetSlaveOnly(false));
    var s1 := Step(s0, SetSlaveOnly(false));
    Reach(d, time, s1, SetQuality(WORST));
    var s2 := Step(s1, SetQuality(WORST));
    Reach(d, time, s2, AddPort(config));
    var s3 := Step(s2, AddPort(config));
    assert s3.ports == [NewPort(d.clockIdentity, 1, config)];
    s := s3.shared;
  }

  /** A new port, slave-only off and the own quality the worst. */
  lemma ToListener(d: DefaultDS, time: TimeProperties, config: PortConfig) returns (s: Shared, p: Port)
    requires GoodConfig(config)
    ensures Reached(d, time, State(s, [p]))
    ensures !s.default.slaveOnly && s.default.quality == WORST && s.default.clockIdentity == d.clockIdentity
    ensures p.config == config && p.identity.clock == d.clockIdentity && p.masters == []
    ensures p.mode.Running? && p.role.Listening?
  {
    s := ToNewPort(d, time, config);
    var q := NewPort(d.clockIdentity, 1, config);
    ReachAlone(d, time, s, q, EndBmca(0));
    p := Ended(q);
  }

  /** ... hears a master twice and becomes its Slave. */
  lemma ToSlave(d: DefaultDS, time: TimeProperties, config: PortConfig, x: ClockIdentity) returns (s: Shared, p: Port)
    requires GoodConfig(config) && !config.masterOnly && x != d.clockIdentity && Acceptable(config.acceptable, x)
    ensures Reached(d, time, State(s, [p]))
    ensures !s.default.slaveOnly && p.config == config && p.role.Slave?
    ensures p.mode.InBmca? && p.mode.pending == [ResetReceipt, ResetDelay]
  {
    s, p := ToListener(d, time, config);
    StoreIntervalIsPositive(config);
    HearingTwice(p.identity, StoreInterval(config), x);
    var e0, e1 := ReceiveAnnounce(0, Hello(x, 0), false), ReceiveAnnounce(0, Hello(x, 1), false);
    ReachAlone(d, time, s, p, e0);
    var p1 := PortNext(s, p, e0);
    ReachAlone(d, time, s, p1, e1);
    var p2 := PortNext(s, p1, e1);
    ReachAlone(d, time, s, p2, StartBmca(0));
    var before := State(s, [Started(p2)]);
    HelloMakesSlave(before, x);
    SharedKeepsDefault(before.shared, before.shared.default, ChosenAll(before.ports));
    Reach(d, time, before, RunBmca(0));
    var after := BmcaRun(before, 0);
    assert after == State(after.shared, [after.ports[0]]);
    s, p := after.shared, after.ports[0];
  }

  /** ... sends a peer request, loses the master and becomes Master. */
  lemma ToMaster(d: DefaultDS, time: TimeProperties, config: PortConfig, x: ClockIdentity) returns (s: Shared, p: Port)
    requires GoodConfig(config) && config.peerToPeer && !config.masterOnly
    requires x != d.clockIdentity && Acceptable(config.acceptable, x)
    ensures Reached(d, time, State(s, [p]))
    ensures p.config == config && p.mode.Running? && p.peer.Asked? && !p.timers.receipt
  {
    var p0;
    s, p0 := ToSlave(d, time, config, x);
    PendingEffect(p0.timers, ResetReceipt, ResetDelay);
    ReachAlone(d, time, s, p0, EndBmca(0));
    var p1 := Ended(p0);
    ReachAlone(d, time, s, p1, DelayTimer(0));
    var p2 := AfterDelayTimer(p1);
    PendingEffect(p2.timers.(receipt := false), ResetAnnounce, ResetSync);
    ReachAlone(d, time, s, p2, ReceiptTimer(0));
    p := AfterReceiptTimer(false, p2);
  }

  /** ... hears a second peer answer and then has the first one's answer in full. */
  lemma PeerFollowerFallsSilent(d: DefaultDS, time: TimeProperties, config: PortConfig)
    requires GoodConfig(config) && config.peerToPeer && !config.masterOnly && CanHear(config, d.clockIdentity)
    ensures CanFallSilent(d, time, config)
  {
    var x: ClockIdentity := if config.acceptable.None? then (if d.clockIdentity == 0 then 1 else 0)
                            else var y :| y in config.acceptable.value && y != d.clockIdentity; y;
    var s, p := ToMaster(d, time, config, x);
    ReachAlone(d, time, s, p, PeerFault(0));
    var q := AfterPeerFault(p);
    ReachAlone(d, time, s, q, PeerMeasured(0));
    assert EndsSilent(d, time, State(s, [AfterPeerMeasured(q)]), 0, config);
  }

  // ----- the peer events are those of the measurement side -----

  function PhaseOf(s: Measurement.PeerState): PeerPhase {
    match s
    case NoPeer => NoRequest
    case PeerMeasuring(_, _, _, _, _, _) => Asked
    case PostMeasurement(_, _) => Answered
  }

  predicate ChangesRole(e: Measurement.Event) { e.BecomeSlave? || e.BecomeListening? || e.BecomeMaster? || e.BecomePassive? }

  /** Every fault of the measurement handlers is one that the instance allows: a request was sent, and
      its phase stays. */
  lemma FaultsAgree(p: Measurement.Port, e: Measurement.Event, mean: Option<int>)
    ensures var q := Measurement.Step(p, e, mean).port;
            q.state.Faulty? && !p.state.Faulty? ==> !PhaseOf(p.peer).NoRequest? && PhaseOf(q.peer) == PhaseOf(p.peer)
  {}

  /** Every recovery too: the request waiting is answered in full, and the port listens. */
  lemma RecoveriesAgree(p: Measurement.Port, e: Measurement.Event, mean: Option<int>)
    ensures var q := Measurement.Step(p, e, mean).port;
            p.state.Faulty? && !q.state.Faulty? && !ChangesRole(e) ==>
              PhaseOf(p.peer).Asked? && PhaseOf(q.peer).Answered? && q.state.Listening?
  {}

  /** Phases change only by a request and by its full answer, as in the instance. */
  lemma PhasesAgree(p: Measurement.Port, e: Measurement.Event, mean: Option<int>)
    ensures var before, after := PhaseOf(p.peer), PhaseOf(Measurement.Step(p, e, mean).port.peer);
            && (after != before ==> (e.DelayRequest? && p.config.peerToPeer && after.Asked?) || (before.Asked? && after.Answered?))
            && (e.DelayRequest? && p.config.peerToPeer ==> after.Asked?)
  {}

  /** Whatever request is waiting: two peers that answer make the port Faulty, and the first one's
      follow-up and our own timestamp make it Listening again. */
  lemma FaultAndRecoveryHappen(p: Measurement.Port, id: u16, a: Header, b: Header, t: int)
    requires p.peer == Measurement.PeerMeasuring(id, None, None, None, None, None)
    requires a.sequenceId == id && b.sequenceId == id && a.source != b.source && a.twoStep
    ensures var own := p.config.identity;
            var p1 := Measurement.Step(p, Measurement.PeerResp(a, own, t, t), None).port;
            var p2 := Measurement.Step(p1, Measurement.PeerResp(b, own, t, t), None).port;
            var p3 := Measurement.Step(p2, Measurement.PeerRespFollowUp(a, own, t), None).port;
            var p4 := Measurement.Step(p3, Measurement.PeerTimestamp(id, t), None).port;
            && p2.state.Faulty? && PhaseOf(p2.peer).Asked?
            && p4.state.Listening? && PhaseOf(p4.peer).Answered?
  {}
}
