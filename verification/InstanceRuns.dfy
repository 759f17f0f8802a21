/** What every run of an instance keeps. */
module InstanceRuns {
  import opened Prelude
  import opened DataSets
  import opened DatasetComparison
  import opened ForeignMasters
  import opened Bmca
  import opened Instance

  /** A u16 counter can tell this many ports apart. */
  const MAX_PORTS := 0x1_0000

  function Number(i: nat): u16 { (i + 1) % 0x1_0000 }

  /** Port numbers come from a wrapping counter: they are pairwise different exactly up to 65536 ports. */
  lemma NumbersAreDistinct(n: nat)
    ensures (forall i, j :: 0 <= i < j < n ==> Number(i) != Number(j)) <==> n <= MAX_PORTS
  {
    if n > MAX_PORTS {
      assert Number(0) == Number(MAX_PORTS);
    }
  }

  // ----- the invariant -----

  function EffectiveTimers(p: Port): Timers {
    if p.mode.Running? then p.timers else ApplyAll(p.timers, p.mode.pending)
  }

  /** The timers a role needs to get out of it, or to do its work. */
  predicate Armed(role: Role, t: Timers) {
    match role
    case Master => t.announce && t.sync
    case Slave(_) => t.receipt && t.delay
    case Listening => t.receipt
    case _ => true
  }

  ghost predicate StoreOk(p: Port) {
    && GoodConfig(p.config)
    && StoreInv(p.masters, p.identity, StoreInterval(p.config))
    && forall m :: m in p.masters ==> Acceptable(p.config.acceptable, m.identity.clock)
  }

  predicate RoleOk(p: Port, parent: PortIdentity) {
    p.role.Slave? ==> !p.config.masterOnly && p.role.remote == parent
  }

  /** The one exception is a port that listens after it has sent a peer request. */
  predicate NotSilent(p: Port) { (p.role.Listening? && !p.peer.NoRequest?) || Armed(p.role, EffectiveTimers(p)) }

  /** Some master other than the own clock is acceptable. */
  ghost predicate CanHear(c: PortConfig, own: ClockIdentity) {
    c.acceptable.None? || exists x :: x in c.acceptable.value && x != own
  }

  ghost predicate CanFollow(p: Port) { !p.config.masterOnly && CanHear(p.config, p.identity.clock) }

  /** Delay requests begin with the first time in Slave; only a peer-to-peer port that has sent one can
      be Faulty. */
  ghost predicate PeerOk(p: Port) {
    && (p.role.Slave? || EffectiveTimers(p).delay || !p.peer.NoRequest? ==> CanFollow(p))
    && (p.role.Faulty? ==> !p.peer.NoRequest?)
    && (!p.peer.NoRequest? ==> p.config.peerToPeer)
  }

  ghost predicate Identified(s: State) {
    && s.shared.default.numberPorts == |s.ports| % 0x1_0000
    && forall i :: 0 <= i < |s.ports| ==> s.ports[i].identity == PortIdentity(s.shared.default.clockIdentity, Number(i))
  }

  ghost predicate AtMostOneSlave(ports: seq<Port>) {
    forall i, j :: 0 <= i < j < |ports| ==> !(ports[i].role.Slave? && ports[j].role.Slave?)
  }

  /** Ports are told apart; stores are sound; at most one port is Slave, never a master-only one, and
      it follows the parent of the data sets; every role has its timers, but for a
      port that listens after a peer request; a fault follows such a request. */
  ghost predicate Inv(s: State) {
    && Identified(s)
    && AtMostOneSlave(s.ports)
    && forall p :: p in s.ports ==> StoreOk(p) && RoleOk(p, s.shared.parent.parent) && NotSilent(p) && PeerOk(p)
  }

  // ----- single ports -----

  lemma AnnounceKeepsStore(s: Shared, p: Port, a: Announce, loopsBack: bool)
    requires StoreOk(p)
    ensures StoreOk(AfterAnnounce(s, p, a, loopsBack))
  {
    RegisteredKeeps(p.masters, p.identity, StoreInterval(p.config), a, 0) by {
      StoreIntervalIsPositive(p.config);
      forall m | m in p.masters ensures m.messages != [] && 0 <= m.messages[|m.messages| - 1].age {
        var k :| 0 <= k < |p.masters| && p.masters[k] == m;
        assert MasterInv(m, p.identity, StoreInterval(p.config));
        assert Fit(m.messages[|m.messages| - 1], m.identity, StoreInterval(p.config));
      }
    }
    FindFinds(p.masters, a.header.source);
    var q := AfterAnnounce(s, p, a, loopsBack);
    forall m | m in q.masters ensures Acceptable(q.config.acceptable, m.identity.clock) {
      var k :| 0 <= k < |q.masters| && q.masters[k] == m;
      assert k < |p.masters| ==> m.identity == p.masters[k].identity && p.masters[k] in p.masters;
    }
  }

  lemma StoreIntervalIsPositive(c: PortConfig)
    requires GoodConfig(c)
    ensures StoreInterval(c) > 0 && Cutoff(StoreInterval(c)) > 0
  {}

  /** The cast to 64 bits keeps the stored interval exactly below 2^47 ns, some 39 hours; from there on
      it wraps. */
  lemma IntervalIsKept(c: PortConfig)
    requires c.announceInterval >= 0
    ensures WrapI64(c.announceInterval / 0x1_0000) * 0x1_0000 == StoreInterval(c)
            <==> c.announceInterval < 0x8000_0000_0000_0000_0000
  {
    var ticks := c.announceInterval / 0x1_0000;
    assert c.announceInterval == ticks * 0x1_0000 + c.announceInterval % 0x1_0000;
    assert WrapI64(ticks) == ticks <==> ticks < 0x8000_0000_0000_0000;
  }

  lemma ChosenKeepsStore(p: Port)
    requires StoreOk(p) && p.mode.InBmca?
    ensures StoreOk(Chosen(p))
  {
    TakeBestConserves(p.masters, p.identity, StoreInterval(p.config));
    var q := Chosen(p);
    forall m | m in q.masters ensures Acceptable(q.config.acceptable, m.identity.clock) {
      var k :| 0 <= k < |q.masters| && q.masters[k] == m;
      assert m.identity == p.masters[k].identity && p.masters[k] in p.masters;
    }
  }

  lemma AgedKeepsStore(p: Port, step: int)
    requires StoreOk(p) && step >= 0
    ensures StoreOk(AgedPort(p, step))
  {
    var interval := StoreInterval(p.config);
    AgedKeeps(p.masters, step, p.identity, interval);
    AgedFrom(p.masters, step, interval);
    var q := AgedPort(p, step);
    forall m | m in q.masters ensures Acceptable(q.config.acceptable, m.identity.clock) {
      var k :| 0 <= k < |p.masters| && m == AgedMaster(p.masters[k], step, interval);
      assert p.masters[k] in p.masters;
    }
  }

  lemma PendingEffect(t: Timers, a: Action, b: Action)
    ensures ApplyAll(t, [a]) == Apply(t, a)
    ensures ApplyAll(t, [a, b]) == Apply(Apply(t, a), b)
  {
    assert [a][..0] == [];
    assert [a, b][..1] == [a];
  }

  /** Actions only ever arm timers. */
  lemma {:induction false} ActionsArm(t: Timers, actions: seq<Action>)
    ensures var u := ApplyAll(t, actions); (t.delay ==> u.delay) && (t.receipt ==> u.receipt)
  {
    if |actions| > 0 {
      ActionsArm(t, actions[..|actions| - 1]);
    }
  }

  /** A decision leaves no port without the timers of its role, and makes a Slave only of a port told S1. */
  lemma DecidedFacts(d: DefaultDS, ebest: Option<Best>, p: Port)
    requires p.mode.InBmca?
    ensures var q, r := Decided(d, ebest, p), RecommendFor(d, ebest, p);
            && q.config == p.config && q.identity == p.identity && q.masters == p.masters && q.mode.InBmca?
            && (q.role.Slave? ==> r.Some? && r.value.S1? && q.role.remote == r.value.announce.header.source)
            && (r.Some? && r.value.S1? && !p.role.Faulty? ==> q.role == Slave(r.value.announce.header.source))
            && (d.slaveOnly ==> !q.role.Master?)
            && (NotSilent(p) && PeerOk(p) ==> NotSilent(q))
            && (PeerOk(p) && (TakesRemote(r) ==> CanFollow(p)) ==> PeerOk(q))
  {
    PendingEffect(p.timers, ResetReceipt, ResetDelay);
    PendingEffect(p.timers, ResetAnnounce, ResetSync);
    ActionsArm(p.timers, p.mode.pending);
  }

  lemma S1MeansBest(d: DefaultDS, ebest: Option<Best>, p: Port)
    requires p.mode.InBmca? && TakesRemote(RecommendFor(d, ebest, p))
    ensures ebest.Some? && p.mode.localBest == ebest && RecommendFor(d, ebest, p).value.announce == ebest.value.message
  {}

  // ----- the global best -----

  lemma {:induction false} EligibleBestsFrom(ports: seq<Port>)
    requires forall p :: p in ports ==> p.mode.InBmca?
    ensures forall b :: b in EligibleBests(ports) <==>
              exists i :: 0 <= i < |ports| && Eligible(ports[i]) && ports[i].mode.localBest == Some(b)
  {
    if |ports| > 0 {
      var front, last := ports[..|ports| - 1], ports[|ports| - 1];
      EligibleBestsFrom(front);
      assert last in ports;
      forall b
        ensures b in EligibleBests(ports) <==>
                exists i :: 0 <= i < |ports| && Eligible(ports[i]) && ports[i].mode.localBest == Some(b)
      {
        if b in EligibleBests(front) {
          var i :| 0 <= i < |front| && Eligible(front[i]) && front[i].mode.localBest == Some(b);
          assert ports[i] == front[i];
        }
        if i :| 0 <= i < |ports| && Eligible(ports[i]) && ports[i].mode.localBest == Some(b) {
          if i < |front| {
            assert front[i] == ports[i];
          }
        }
      }
    }
  }

  lemma BestCarriesIdentity(s: State, i: nat)
    requires Enabled(s, RunBmca(0)) && i < |s.ports| && ChosenAll(s.ports)[i].mode.localBest.Some?
    ensures ChosenAll(s.ports)[i].mode.localBest.value.identity == s.ports[i].identity
  {
    var m := BestIsTaken(s.ports[i].masters, s.ports[i].identity);
  }

  lemma IdentitiesDiffer(s: State, i: nat, j: nat)
    requires Identified(s) && |s.ports| <= MAX_PORTS && i < |s.ports| && j < |s.ports|
    ensures s.ports[i].identity == s.ports[j].identity <==> i == j
  {
    NumbersAreDistinct(|s.ports|);
  }

  /** Ebest came from exactly one port, and that port is eligible. */
  lemma EbestPort(s: State) returns (w: nat)
    requires Identified(s) && |s.ports| <= MAX_PORTS && Enabled(s, RunBmca(0)) && Ebest(ChosenAll(s.ports)).Some?
    ensures var chosen := ChosenAll(s.ports);
            && w < |chosen| && Eligible(chosen[w]) && chosen[w].mode.localBest == Ebest(chosen)
            && (forall i :: 0 <= i < |chosen| && chosen[i].mode.localBest == Ebest(chosen) ==> i == w)
            && (forall i :: 0 <= i < |chosen| ==> (s.ports[i].identity == Ebest(chosen).value.identity <==> i == w))
            && Ebest(chosen).value.identity == s.ports[w].identity
  {
    var chosen := ChosenAll(s.ports);
    var bests := EligibleBests(chosen);
    var k := MaxByPicks(bests);
    EligibleBestsFrom(chosen);
    assert bests[k] in bests;
    w :| 0 <= w < |chosen| && Eligible(chosen[w]) && chosen[w].mode.localBest == Some(bests[k]);
    BestCarriesIdentity(s, w);
    forall i | 0 <= i < |chosen|
      ensures s.ports[i].identity == Ebest(chosen).value.identity <==> i == w
      ensures chosen[i].mode.localBest == Ebest(chosen) ==> i == w
    {
      IdentitiesDiffer(s, i, w);
      if chosen[i].mode.localBest.Some? {
        BestCarriesIdentity(s, i);
      }
    }
  }

  // ----- the shared data sets -----

  predicate TakesOwn(r: Option<Recommended>) { r.Some? && (r.value.M1? || r.value.M2?) }

  predicate TakesRemote(r: Option<Recommended>) { r.Some? && r.value.S1? }

  lemma {:induction false} SharedFollowsRemote(s: Shared, recs: seq<Option<Recommended>>, a: Announce)
    requires forall r :: r in recs ==> !TakesOwn(r) && (TakesRemote(r) ==> r.value.announce == a)
    ensures SharedAfter(s, recs).default == s.default
    ensures (exists r :: r in recs && TakesRemote(r)) ==>
              var t := SharedAfter(s, recs);
              t.parent == AnnouncedParent(a) && t.time == AnnouncedTime(a) && t.stepsRemoved == (a.stepsRemoved + 1) % 0x1_0000
    ensures (forall r :: r in recs ==> !TakesRemote(r)) ==> SharedAfter(s, recs) == s
  {
    if |recs| > 0 {
      var front, last := recs[..|recs| - 1], recs[|recs| - 1];
      assert recs == front + [last];
      assert forall r :: r in recs <==> r in front || r == last;
      SharedFollowsRemote(s, front, a);
      if TakesRemote(last) {
        assert last in recs;
      } else {
        assert SharedAfter(s, recs) == SharedAfter(s, front);
      }
    }
  }

  lemma {:induction false} SharedFollowsOwn(s: Shared, recs: seq<Option<Recommended>>, d: DefaultDS)
    requires forall r :: r in recs ==> !TakesRemote(r) && (TakesOwn(r) ==> r.value.own == d)
    ensures SharedAfter(s, recs).default == s.default
    ensures (exists r :: r in recs && TakesOwn(r)) ==>
              var t := SharedAfter(s, recs); t.parent == OwnParent(d) && t.time == OWN_TIME && t.stepsRemoved == 0
    ensures (forall r :: r in recs ==> !TakesOwn(r)) ==> SharedAfter(s, recs) == s
  {
    if |recs| > 0 {
      var front, last := recs[..|recs| - 1], recs[|recs| - 1];
      assert recs == front + [last];
      assert forall r :: r in recs <==> r in front || r == last;
      SharedFollowsOwn(s, front, d);
      if TakesOwn(last) {
        assert last in recs;
      } else {
        assert SharedAfter(s, recs) == SharedAfter(s, front);
      }
    }
  }

  lemma SharedKeepsDefault(s: Shared, d: DefaultDS, ports: seq<Port>)
    requires forall p :: p in ports ==> p.mode.InBmca?
    ensures SharedAfter(s, Recommendations(d, ports)).default == s.default
    ensures var recs, ebest := Recommendations(d, ports), Ebest(ports);
            (exists r :: r in recs && TakesRemote(r)) ==>
              ebest.Some? && SharedAfter(s, recs).parent == AnnouncedParent(ebest.value.message)
  {
    var recs, ebest := Recommendations(d, ports), Ebest(ports);
    if !LowClass(d) && CompareOwn(d, ebest) == Less {
      forall r | r in recs ensures !TakesOwn(r) && (TakesRemote(r) ==> r.value.announce == ebest.value.message) {
        var i :| 0 <= i < |recs| && recs[i] == r;
      }
      SharedFollowsRemote(s, recs, ebest.value.message);
    } else {
      forall r | r in recs ensures !TakesRemote(r) && (TakesOwn(r) ==> r.value.own == d) {
        var i :| 0 <= i < |recs| && recs[i] == r;
      }
      SharedFollowsOwn(s, recs, d);
    }
  }

  // ----- every step keeps the invariant -----

  /** What a run makes of one port. */
  lemma RunAt(s: State, step: int, i: nat)
    requires Enabled(s, RunBmca(step)) && i < |s.ports|
    ensures var d, chosen := s.shared.default, ChosenAll(s.ports);
            && BmcaRun(s, step).ports[i] == AgedPort(Decided(d, Ebest(chosen), chosen[i]), step)
            && BmcaRun(s, step).shared == SharedAfter(s.shared, Recommendations(d, chosen))
            && Recommendations(d, chosen)[i] == RecommendFor(d, Ebest(chosen), chosen[i])
  {}

  lemma ToldS1(s: State, i: nat)
    requires Identified(s) && |s.ports| <= MAX_PORTS && Enabled(s, RunBmca(0)) && i < |s.ports|
    requires var chosen := ChosenAll(s.ports);
             TakesRemote(RecommendFor(s.shared.default, Ebest(chosen), chosen[i]))
    ensures var ebest := Ebest(ChosenAll(s.ports));
            ebest.Some? && s.ports[i].identity == ebest.value.identity && !s.ports[i].config.masterOnly
  {
    var chosen := ChosenAll(s.ports);
    S1MeansBest(s.shared.default, Ebest(chosen), chosen[i]);
    var w := EbestPort(s);
  }

  /** Whoever is Slave after a run is Ebest's port, and its data sets follow it. */
  lemma SlaveAfterRun(s: State, step: int, i: nat)
    requires Identified(s) && |s.ports| <= MAX_PORTS && Enabled(s, RunBmca(step)) && i < |s.ports|
    requires BmcaRun(s, step).ports[i].role.Slave?
    ensures var ebest, after := Ebest(ChosenAll(s.ports)), BmcaRun(s, step);
            && ebest.Some? && s.ports[i].identity == ebest.value.identity
            && !s.ports[i].config.masterOnly
            && after.ports[i].role == Slave(ebest.value.message.header.source)
            && after.shared.parent == AnnouncedParent(ebest.value.message)
  {
    var d, chosen := s.shared.default, ChosenAll(s.ports);
    RunAt(s, step, i);
    DecidedFacts(d, Ebest(chosen), chosen[i]);
    S1MeansBest(d, Ebest(chosen), chosen[i]);
    ToldS1(s, i);
    assert Recommendations(d, chosen)[i] in Recommendations(d, chosen);
    SharedKeepsDefault(s.shared, d, chosen);
  }

  /** A port that has heard a qualified master may hear one. */
  lemma HasHeard(p: Port)
    requires StoreOk(p) && BestOf(p.masters, p.identity).Some?
    ensures CanHear(p.config, p.identity.clock)
  {
    var w := BestIsTaken(p.masters, p.identity);
    assert MasterInv(p.masters[w], p.identity, StoreInterval(p.config));
    assert p.masters[w] in p.masters;
  }

  lemma ToldS1CanFollow(s: State, i: nat)
    requires Inv(s) && |s.ports| <= MAX_PORTS && Enabled(s, RunBmca(0)) && i < |s.ports|
    requires var chosen := ChosenAll(s.ports);
             TakesRemote(RecommendFor(s.shared.default, Ebest(chosen), chosen[i]))
    ensures CanFollow(s.ports[i])
  {
    var chosen := ChosenAll(s.ports);
    ToldS1(s, i);
    S1MeansBest(s.shared.default, Ebest(chosen), chosen[i]);
    assert s.ports[i] in s.ports;
    HasHeard(s.ports[i]);
  }

  lemma RunKeepsPort(s: State, step: int, i: nat)
    requires Inv(s) && |s.ports| <= MAX_PORTS && Enabled(s, RunBmca(step)) && i < |s.ports|
    ensures var after := BmcaRun(s, step);
            && after.ports[i].identity == s.ports[i].identity
            && StoreOk(after.ports[i]) && NotSilent(after.ports[i]) && PeerOk(after.ports[i])
  {
    assert s.ports[i] in s.ports;
    var d, chosen := s.shared.default, ChosenAll(s.ports);
    ChosenKeepsStore(s.ports[i]);
    DecidedFacts(d, Ebest(chosen), chosen[i]);
    if TakesRemote(RecommendFor(d, Ebest(chosen), chosen[i])) {
      ToldS1CanFollow(s, i);
    }
    AgedKeepsStore(Decided(d, Ebest(chosen), chosen[i]), step);
  }

  lemma RunKeepsRoles(s: State, step: int)
    requires Identified(s) && |s.ports| <= MAX_PORTS && Enabled(s, RunBmca(step))
    ensures var after := BmcaRun(s, step);
            && AtMostOneSlave(after.ports)
            && forall p :: p in after.ports ==> RoleOk(p, after.shared.parent.parent)
  {
    var after := BmcaRun(s, step);
    forall i | 0 <= i < |after.ports|
      ensures RoleOk(after.ports[i], after.shared.parent.parent)
    {
      DecidedFacts(s.shared.default, Ebest(ChosenAll(s.ports)), ChosenAll(s.ports)[i]);
      if after.ports[i].role.Slave? {
        SlaveAfterRun(s, step, i);
      }
    }
    forall i, j | 0 <= i < j < |after.ports| ensures !(after.ports[i].role.Slave? && after.ports[j].role.Slave?) {
      if after.ports[i].role.Slave? && after.ports[j].role.Slave? {
        SlaveAfterRun(s, step, i);
        SlaveAfterRun(s, step, j);
        NumbersAreDistinct(|s.ports|);
        assert false;
      }
    }
  }

  lemma RunKeepsInv(s: State, step: int)
    requires Inv(s) && |s.ports| <= MAX_PORTS && Enabled(s, RunBmca(step))
    ensures Inv(BmcaRun(s, step))
  {
    var after := BmcaRun(s, step);
    SharedKeepsDefault(s.shared, s.shared.default, ChosenAll(s.ports));
    RunKeepsRoles(s, step);
    forall i | 0 <= i < |after.ports|
      ensures after.ports[i].identity == s.ports[i].identity && StoreOk(after.ports[i])
      ensures NotSilent(after.ports[i]) && PeerOk(after.ports[i])
    {
      RunKeepsPort(s, step, i);
    }
    assert Identified(after);
    forall p | p in after.ports ensures StoreOk(p) && NotSilent(p) && PeerOk(p) {
      var i :| 0 <= i < |after.ports| && after.ports[i] == p;
    }
  }

  lemma PortStepKeepsInv(s: State, p: nat, q: Port, shared: Shared)
    requires Inv(s) && p < |s.ports| && shared.default == s.shared.default
    requires shared.parent.parent == s.shared.parent.parent
    requires q.identity == s.ports[p].identity && StoreOk(q) && NotSilent(q) && PeerOk(q)
    requires q.config == s.ports[p].config && (q.role.Slave? ==> q.role == s.ports[p].role)
    ensures Inv(State(shared, s.ports[p := q]))
  {
    assert s.ports[p] in s.ports;
    var after := s.ports[p := q];
    forall x | x in after ensures StoreOk(x) && RoleOk(x, shared.parent.parent) && NotSilent(x) && PeerOk(x) {
      assert x == q || x in s.ports;
    }
  }

  lemma AnnounceStepKeepsInv(s: State, p: nat, a: Announce, loopsBack: bool)
    requires Inv(s) && Enabled(s, ReceiveAnnounce(p, a, loopsBack))
    ensures Inv(Step(s, ReceiveAnnounce(p, a, loopsBack)))
  {
    assert s.ports[p] in s.ports;
    AnnounceKeepsStore(s.shared, s.ports[p], a, loopsBack);
    PortNextIsOk(s.shared, s.ports[p], ReceiveAnnounce(p, a, loopsBack));
    PortStepKeepsInv(s, p, AfterAnnounce(s.shared, s.ports[p], a, loopsBack), Announced(s.shared, s.ports[p], a));
  }

  lemma NewPortIsOk(clock: ClockIdentity, number: u16, config: PortConfig, parent: PortIdentity)
    requires GoodConfig(config)
    ensures var p := NewPort(clock, number, config); StoreOk(p) && RoleOk(p, parent) && NotSilent(p) && PeerOk(p)
  {
    PendingEffect(Timers(false, false, false, false), ResetReceipt, ResetReceipt);
  }

  lemma AddPortKeepsInv(s: State, config: PortConfig)
    requires Inv(s) && GoodConfig(config)
    ensures Inv(Step(s, AddPort(config)))
  {
    var t := Step(s, AddPort(config));
    var added := t.ports[|s.ports|];
    NewPortIsOk(s.shared.default.clockIdentity, t.shared.default.numberPorts, config, s.shared.parent.parent);
    forall x | x in t.ports ensures StoreOk(x) && RoleOk(x, t.shared.parent.parent) && NotSilent(x) && PeerOk(x) {
      assert x == added || x in s.ports;
    }
    assert Identified(t);
    assert AtMostOneSlave(t.ports);
  }

  lemma PortNextIsOk(s: Shared, p: Port, e: Event)
    requires AtPort(e) && PortEnabled(p, e) && NotSilent(p) && PeerOk(p)
    ensures var q := PortNext(s, p, e);
            && q.identity == p.identity && q.config == p.config && (q.role.Slave? ==> q.role == p.role)
            && NotSilent(q) && PeerOk(q)
  {
    PendingEffect(p.timers.(receipt := false), ResetAnnounce, ResetSync);
  }

  lemma StepKeepsInv(s: State, e: Event)
    requires Inv(s) && Enabled(s, e) && |Step(s, e).ports| <= MAX_PORTS
    ensures Inv(Step(s, e))
  {
    match e
    case RunBmca(step) => RunKeepsInv(s, step);
    case ReceiveAnnounce(p, a, loopsBack) => AnnounceStepKeepsInv(s, p, a, loopsBack);
    case SetSlaveOnly(_) =>
    case SetQuality(_) =>
    case AddPort(config) => AddPortKeepsInv(s, config);
    case _ =>
      assert s.ports[e.p] in s.ports;
      PortNextIsOk(s.shared, s.ports[e.p], e);
      PortStepKeepsInv(s, e.p, PortNext(s.shared, s.ports[e.p], e), s.shared);
  }

  /** Every state of every run over at most 65536 ports. */
  lemma {:induction false} RunsKeepInv(run: seq<State>, events: seq<Event>, d: DefaultDS, time: TimeProperties, i: nat)
    requires IsRun(run, events, d, time) && i < |run| && |run[i].ports| <= MAX_PORTS
    ensures Inv(run[i])
  {
    if i > 0 {
      assert Link(run, events, i - 1);
      assert |run[i - 1].ports| <= |Step(run[i - 1], events[i - 1]).ports|;
      RunsKeepInv(run, events, d, time, i - 1);
      StepKeepsInv(run[i - 1], events[i - 1]);
    }
  }
}
