/** The port and instance objects, each operation proved to be the corresponding step. */
module PtpInstance {
  import opened Prelude
  import opened DataSets
  import opened DatasetComparison
  import opened ForeignMasters
  import opened Bmca
  import opened Instance
  import opened InstanceRuns

  /** The data sets behind the instance's lock. */
  class SharedState {
    var data: Shared

    constructor (data: Shared)
      ensures this.data == data
    {
      this.data := data;
    }
  }

  class PtpPort {
    const config: PortConfig
    const identity: PortIdentity
    const bmca: PortBmca
    var role: Role
    var disabled: Option<int>
    var mode: Mode
    var timers: Timers
    var peer: PeerPhase

    ghost function Model(): Instance.Port
      reads this, bmca, bmca.store
    {
      Instance.Port(config, identity, role, bmca.store.masters, disabled, mode, timers, peer)
    }

    ghost predicate Valid()
      reads this, bmca, bmca.store
    {
      && GoodConfig(config) && bmca.Valid()
      && bmca.store.own == identity && bmca.store.interval == StoreInterval(config) && bmca.acceptable == config.acceptable
    }

    constructor (identity: PortIdentity, config: PortConfig)
      requires GoodConfig(config)
      ensures Valid() && fresh(bmca) && fresh(bmca.store)
      ensures Model() == NewPort(identity.clock, identity.port, config)
    {
      this.config, this.identity := config, identity;
      role, disabled, mode := Listening, None, InBmca([ResetReceipt], None);
      timers, peer := Timers(false, false, false, false), NoRequest;
      bmca := new PortBmca(StoreInterval(config), identity, config.acceptable);
    }

    method HandleAnnounce(state: SharedState, a: Announce, loopsBack: bool)
      requires Valid()
      modifies this, bmca.store, state
      ensures Valid()
      ensures Model() == AfterAnnounce(old(state.data), old(Model()), a, loopsBack)
      ensures state.data == Announced(old(state.data), old(Model()), a)
    {
      if role.Slave? && a.header.source == state.data.parent.parent {
        state.data := state.data.(stepsRemoved := (a.stepsRemoved + 1) % 0x1_0000,
                                  parent := AnnouncedParent(a), time := AnnouncedTime(a));
        if loopsBack {
          return;
        }
      }
      var accepted := bmca.RegisterAnnounce(a);
      if accepted {
        if identity.clock == a.header.source.clock && identity.port > a.header.source.port {
          disabled := Some(0);
          role := Passive;
        }
        timers := Apply(timers, ResetReceipt);
      }
    }

    method HandleReceiptTimer(state: SharedState)
      requires Valid() && timers.receipt
      modifies this
      ensures Valid() && Model() == AfterReceiptTimer(state.data.default.slaveOnly, old(Model()))
    {
      timers := timers.(receipt := false);
      if state.data.default.slaveOnly {
        if !role.Listening? {
          role := Listening;
        }
        timers := Apply(timers, ResetReceipt);
      } else {
        if !role.Master? {
          role := Role.Master;
        }
        timers := ApplyAll(timers, [ResetAnnounce, ResetSync]);
      }
    }

    method HandleAnnounceTimer()
      requires Valid()
      modifies this
      ensures Valid() && Model() == AfterAnnounceTimer(old(Model()))
    {
      timers := timers.(announce := false);
      if role.Master? {
        timers := Apply(timers, ResetAnnounce);
      }
    }

    method HandleSyncTimer()
      requires Valid()
      modifies this
      ensures Valid() && Model() == AfterSyncTimer(old(Model()))
    {
      timers := timers.(sync := false);
      if role.Master? {
        timers := Apply(timers, ResetSync);
      }
    }

    method HandleDelayTimer()
      requires Valid()
      modifies this
      ensures Valid() && Model() == AfterDelayTimer(old(Model()))
    {
      timers := timers.(delay := false);
      if config.peerToPeer {
        peer := Asked;
        timers := Apply(timers, ResetDelay);
      } else if role.Slave? {
        timers := Apply(timers, ResetDelay);
      }
    }

    method HandlePeerFault()
      requires Valid()
      modifies this
      ensures Valid() && Model() == AfterPeerFault(old(Model()))
    {
      role := Faulty;
    }

    method HandlePeerMeasured()
      requires Valid()
      modifies this
      ensures Valid() && Model() == AfterPeerMeasured(old(Model()))
    {
      peer := Answered;
      if role.Faulty? {
        role := Listening;
      }
    }

    method StartBmca()
      requires Valid()
      modifies this
      ensures Valid() && Model() == Started(old(Model()))
    {
      mode := InBmca([], None);
    }

    /** The pending actions are carried out in order. */
    method EndBmca()
      requires Valid() && mode.InBmca?
      modifies this
      ensures Valid() && Model() == Ended(old(Model()))
    {
      var actions := mode.pending;
      ghost var before := timers;
      mode := Running;
      assert actions[..0] == [];
      for i := 0 to |actions|
        invariant Valid() && Model() == old(Model()).(mode := Running, timers := ApplyAll(before, actions[..i]))
      {
        assert actions[..i + 1][..i] == actions[..i];
        timers := Apply(timers, actions[i]);
      }
      assert actions[..|actions|] == actions;
    }

    /** Any event of a running port, or its return from BMCA. */
    method Handle(e: Event, state: SharedState)
      requires Valid() && AtPort(e) && PortEnabled(Model(), e)
      modifies this, bmca.store, state
      ensures Valid() && Model() == PortNext(old(state.data), old(Model()), e)
      ensures state.data == SharedNext(old(state.data), old(Model()), e)
    {
      match e {
        case ReceiveAnnounce(_, a, loopsBack) => HandleAnnounce(state, a, loopsBack);
        case ReceiptTimer(_) => HandleReceiptTimer(state);
        case AnnounceTimer(_) => HandleAnnounceTimer();
        case SyncTimer(_) => HandleSyncTimer();
        case DelayTimer(_) => HandleDelayTimer();
        case PeerFault(_) => HandlePeerFault();
        case PeerMeasured(_) => HandlePeerMeasured();
        case StartBmca(_) => StartBmca();
        case EndBmca(_) => EndBmca();
        case _ =>
      }
    }

    method CalculateBest()
      requires Valid() && mode.InBmca?
      modifies this, bmca.store
      ensures Valid() && Model() == Chosen(old(Model()))
    {
      var best := bmca.TakeBest();
      mode := mode.(localBest := best);
    }

    method SetRecommendedState(r: Recommended, state: SharedState)
      requires Valid() && mode.InBmca?
      modifies this, state
      ensures Valid() && Model() == RoleAfter(old(Model()), r, old(state.data).default.slaveOnly)
      ensures state.data == SharedAfterOne(old(state.data), Some(r))
    {
      SetRecommendedRole(r, state.data.default.slaveOnly);
      match r {
        case S1(a) =>
          state.data := state.data.(stepsRemoved := (a.stepsRemoved + 1) % 0x1_0000,
                                    parent := AnnouncedParent(a), time := AnnouncedTime(a));
        case M1(d) => state.data := state.data.(stepsRemoved := 0, parent := OwnParent(d), time := OWN_TIME);
        case M2(d) => state.data := state.data.(stepsRemoved := 0, parent := OwnParent(d), time := OWN_TIME);
        case _ =>
      }
    }

    method SetRecommendedRole(r: Recommended, slaveOnly: bool)
      requires Valid() && mode.InBmca?
      modifies this
      ensures Valid() && Model() == RoleAfter(old(Model()), r, slaveOnly)
    {
      if r.S1? {
        var remote := r.announce.header.source;
        if !role.Faulty? && (role.Slave? ==> role.remote != remote) {
          role := Slave(remote);
          mode := mode.(pending := [ResetReceipt, ResetDelay]);
        }
      } else if r.P1? || r.P2? {
        if !role.Passive? && !role.Faulty? {
          role := Passive;
        }
      } else if slaveOnly {
        if role.Slave? || role.Passive? || role.Master? {
          role := Listening;
          mode := mode.(pending := [ResetReceipt]);
        }
      } else if disabled.Some? {
        if !role.Passive? {
          role := Passive;
        }
      } else if role.Listening? || role.Slave? || role.Passive? {
        role := Role.Master;
        mode := mode.(pending := [ResetAnnounce, ResetSync]);
      }
    }

    method StepAnnounceAge(step: int)
      requires Valid() && step >= 0
      modifies this, bmca.store
      ensures Valid() && Model() == AgedPort(old(Model()), step)
    {
      if disabled.Some? {
        var age := disabled.value + step;
        disabled := None;
        if age < config.announceInterval {
          disabled := Some(age);
        }
      }
      bmca.StepAge(step);
    }
  }

  lemma SharedGrows(s: Shared, recs: seq<Option<Recommended>>, i: nat)
    requires i < |recs|
    ensures SharedAfter(s, recs[..i + 1]) == SharedAfterOne(SharedAfter(s, recs[..i]), recs[i])
    ensures SharedAfter(s, recs[..i + 1]).default == SharedAfter(s, recs[..i]).default
  {
    assert recs[..i + 1][..i] == recs[..i];
  }

  class PtpInstance {
    const state: SharedState
    var ports: seq<PtpPort>

    ghost predicate Valid()
      reads this, state, ports, set p | p in ports :: p.bmca, set p | p in ports :: p.bmca.store
    {
      && (forall i :: 0 <= i < |ports| ==> ports[i].Valid())
      && (forall i, j :: 0 <= i < j < |ports| ==> ports[i] != ports[j] && ports[i].bmca.store != ports[j].bmca.store)
    }

    /** The objects hold exactly the values of s. */
    ghost predicate Represents(s: State)
      reads this, state, ports, set p | p in ports :: p.bmca, set p | p in ports :: p.bmca.store
    {
      && state.data == s.shared && |ports| == |s.ports|
      && forall i :: 0 <= i < |ports| ==> ports[i].Model() == s.ports[i]
    }

    /** A loop over the ports has turned the first i of `todo` into those of `done`. */
    ghost predicate Halfway(done: seq<Instance.Port>, todo: seq<Instance.Port>, i: nat)
      reads this, ports, set p | p in ports :: p.bmca, set p | p in ports :: p.bmca.store
    {
      && |ports| == |done| == |todo|
      && forall k :: 0 <= k < |ports| ==> ports[k].Model() == if k < i then done[k] else todo[k]
    }

    constructor (d: DefaultDS, time: TimeProperties)
      ensures Valid() && fresh(state) && Represents(Initial(d, time))
    {
      state := new SharedState(Shared(d.(numberPorts := 0), 0, OwnParent(d), time));
      ports := [];
    }

    method AddPort(config: PortConfig, ghost s: State)
      requires Valid() && Represents(s) && GoodConfig(config)
      modifies this, state
      ensures Valid() && Represents(Step(s, Event.AddPort(config)))
      ensures |ports| == |old(ports)| + 1 && ports[..|old(ports)|] == old(ports)
      ensures fresh(ports[|old(ports)|]) && fresh(ports[|old(ports)|].bmca.store)
    {
      var number := (state.data.default.numberPorts + 1) % 0x1_0000;
      state.data := state.data.(default := state.data.default.(numberPorts := number));
      var port := new PtpPort(PortIdentity(state.data.default.clockIdentity, number), config);
      Attach(port);
    }

    method Attach(port: PtpPort)
      requires Valid() && port.Valid()
      requires forall p :: p in ports ==> p != port && p.bmca.store != port.bmca.store
      modifies this
      ensures Valid() && ports == old(ports) + [port]
      ensures forall k :: 0 <= k < |old(ports)| ==> ports[k] == old(ports)[k] && ports[k].Model() == old(ports[k].Model())
      ensures port.Model() == old(port.Model())
    {
      ports := ports + [port];
    }

    method SetSlaveOnly(slaveOnly: bool, ghost s: State)
      requires Valid() && Represents(s)
      modifies state
      ensures Valid() && Represents(Step(s, Event.SetSlaveOnly(slaveOnly)))
    {
      state.data := state.data.(default := state.data.default.(slaveOnly := slaveOnly));
    }

    method SetQuality(quality: ClockQuality, ghost s: State)
      requires Valid() && Represents(s)
      modifies state
      ensures Valid() && Represents(Step(s, Event.SetQuality(quality)))
    {
      state.data := state.data.(default := state.data.default.(quality := quality));
    }

    /** One run of the algorithm over all ports. */
    method RunBmca(step: int, ghost s: State)
      requires Valid() && Represents(s) && Enabled(s, Event.RunBmca(step))
      modifies state, ports, set p | p in ports :: p.bmca.store
      ensures Valid() && Represents(BmcaRun(s, step))
    {
      CalculateBests(s);
      DecideAndAge(step, State(s.shared, ChosenAll(s.ports)));
    }

    /** The second half of a run, once every port has its Erbest. */
    method DecideAndAge(step: int, ghost s: State)
      requires Valid() && Represents(s) && step >= 0 && forall p :: p in s.ports ==> p.mode.InBmca?
      modifies state, ports, set p | p in ports :: p.bmca.store
      ensures Valid()
      ensures var d := s.shared.default;
              Represents(State(SharedAfter(s.shared, Recommendations(d, s.ports)), AgedAll(DecidedAll(d, s.ports), step)))
    {
      var ebest := FindEbest(s.ports);
      Decide(ebest, s);
      StepAges(step, State(SharedAfter(s.shared, Recommendations(s.shared.default, s.ports)), DecidedAll(s.shared.default, s.ports)));
    }

    method CalculateBests(ghost s: State)
      requires Valid() && Represents(s) && forall p :: p in s.ports ==> p.mode.InBmca?
      modifies ports, set p | p in ports :: p.bmca.store
      ensures Valid() && Represents(State(s.shared, ChosenAll(s.ports)))
    {
      for i := 0 to |ports|
        invariant Valid()
        invariant Halfway(ChosenAll(s.ports), s.ports, i)
      {
        assert s.ports[i] in s.ports;
        CalculateBestOf(i);
      }
    }

    method CalculateBestOf(i: nat)
      requires Valid() && i < |ports| && ports[i].mode.InBmca?
      modifies ports[i], ports[i].bmca.store
      ensures Valid() && ports[i].Model() == Chosen(old(ports[i].Model()))
      ensures forall k :: 0 <= k < |ports| && k != i ==> ports[k].Model() == old(ports[k].Model())
    {
      ports[i].CalculateBest();
    }

    method FindEbest(ghost chosen: seq<Instance.Port>) returns (ebest: Option<Best>)
      requires |ports| == |chosen| && forall p :: p in chosen ==> p.mode.InBmca?
      requires forall k :: 0 <= k < |ports| ==> ports[k].Model() == chosen[k]
      ensures ebest == Ebest(chosen)
    {
      var bests := [];
      assert chosen[..0] == [];
      for i := 0 to |ports|
        invariant bests == EligibleBests(chosen[..i])
      {
        assert chosen[..i + 1][..i] == chosen[..i];
        assert chosen[i] in chosen;
        if !ports[i].config.masterOnly && !ports[i].role.Faulty? && ports[i].mode.localBest.Some? {
          bests := bests + [ports[i].mode.localBest.value];
        }
      }
      assert chosen[..|chosen|] == chosen;
      ebest := MaxBy(bests);
    }

    method Decide(ebest: Option<Best>, ghost s: State)
      requires Valid() && Represents(s) && forall p :: p in s.ports ==> p.mode.InBmca?
      requires ebest == Ebest(s.ports)
      modifies state, ports
      ensures Valid()
      ensures Represents(State(SharedAfter(s.shared, Recommendations(s.shared.default, s.ports)),
                               DecidedAll(s.shared.default, s.ports)))
    {
      ghost var d, recs, decided := s.shared.default, Recommendations(s.shared.default, s.ports), DecidedAll(s.shared.default, s.ports);
      assert recs[..0] == [];
      for i := 0 to |ports|
        invariant Valid()
        invariant state.data == SharedAfter(s.shared, recs[..i]) && state.data.default == d
        invariant Halfway(decided, s.ports, i)
      {
        assert s.ports[i] in s.ports;
        SharedGrows(s.shared, recs, i);
        DecideOf(i, ebest, s.ports[i]);
        assert decided[i] == Decided(d, ebest, s.ports[i]) && recs[i] == RecommendFor(d, ebest, s.ports[i]);
      }
      assert recs[..|recs|] == recs;
    }

    method DecideOf(i: nat, ebest: Option<Best>, ghost p: Instance.Port)
      requires Valid() && i < |ports| && ports[i].Model() == p && p.mode.InBmca?
      modifies ports[i], state
      ensures Valid()
      ensures forall k :: 0 <= k < |ports| && k != i ==> ports[k].Model() == old(ports[k].Model())
      ensures ports[i].Model() == Decided(old(state.data).default, ebest, p)
      ensures state.data == SharedAfterOne(old(state.data), RecommendFor(old(state.data).default, ebest, p))
    {
      var r := Recommend(state.data.default, ebest, ports[i].mode.localBest, ports[i].role);
      if r.Some? {
        ports[i].SetRecommendedState(r.value, state);
      }
    }

    method StepAges(step: int, ghost s: State)
      requires Valid() && Represents(s) && step >= 0
      modifies ports, set p | p in ports :: p.bmca.store
      ensures Valid() && Represents(State(s.shared, AgedAll(s.ports, step)))
    {
      for i := 0 to |ports|
        invariant Valid()
        invariant Halfway(AgedAll(s.ports, step), s.ports, i)
      {
        StepAgeOf(i, step);
      }
    }

    method StepAgeOf(i: nat, step: int)
      requires Valid() && i < |ports| && step >= 0
      modifies ports[i], ports[i].bmca.store
      ensures Valid() && ports[i].Model() == AgedPort(old(ports[i].Model()), step)
      ensures forall k :: 0 <= k < |ports| && k != i ==> ports[k].Model() == old(ports[k].Model())
    {
      ports[i].StepAnnounceAge(step);
    }

    /** One port handles an event; the others keep still. */
    method HandleAt(e: Event, ghost s: State)
      requires Valid() && Represents(s) && AtPort(e) && Enabled(s, e)
      modifies state, ports[e.p], ports[e.p].bmca.store
      ensures Valid() && Represents(Step(s, e))
    {
      HandleOf(e.p, e);
    }

    method HandleOf(i: nat, e: Event)
      requires Valid() && i < |ports| && AtPort(e) && PortEnabled(ports[i].Model(), e)
      modifies state, ports[i], ports[i].bmca.store
      ensures Valid()
      ensures forall k :: 0 <= k < |ports| && k != i ==> ports[k].Model() == old(ports[k].Model())
      ensures ports[i].Model() == PortNext(old(state.data), old(ports[i].Model()), e)
      ensures state.data == SharedNext(old(state.data), old(ports[i].Model()), e)
    {
      ports[i].Handle(e, state);
    }

    /** Any event, at the object it concerns. */
    method Dispatch(e: Event, ghost s: State)
      requires Valid() && Represents(s) && Enabled(s, e)
      modifies this, state, ports, set p | p in ports :: p.bmca.store
      ensures Valid() && Represents(Step(s, e))
      ensures forall p :: p in ports ==> p in old(ports) || (fresh(p) && fresh(p.bmca.store))
    {
      match e {
        case RunBmca(step) => RunBmca(step, s);
        case SetSlaveOnly(slaveOnly) => SetSlaveOnly(slaveOnly, s);
        case SetQuality(quality) => SetQuality(quality, s);
        case AddPort(config) => AddPort(config, s);
        case _ => HandleAt(e, s);
      }
    }

    /** At most one port is Slave; it is not master-only and follows the parent of the data sets. */
    ghost predicate SafeRoles()
      reads this, state, ports
    {
      && (forall i, j :: 0 <= i < j < |ports| ==> !(ports[i].role.Slave? && ports[j].role.Slave?))
      && (forall p :: p in ports && p.role.Slave? ==>
            !p.config.masterOnly && p.role == Slave(state.data.parent.parent))
    }

    lemma InvMeansSafeRoles(s: State)
      requires Represents(s) && Inv(s)
      ensures SafeRoles()
    {
      assert AtMostOneSlave(s.ports);
      forall i | 0 <= i < |ports| ensures ports[i].role == s.ports[i].role && RoleOk(s.ports[i], s.shared.parent.parent) {
        assert ports[i].Model() == s.ports[i];
        assert s.ports[i] in s.ports;
      }
    }

    /** A whole run of the objects from a new instance: they end in the state the events lead to, and
        over at most 65536 ports the invariant of every run holds of them. */
    method Run(d: DefaultDS, time: TimeProperties, events: seq<Event>, ghost run: seq<State>)
      requires Valid() && Represents(Initial(d, time)) && IsRun(run, events, d, time)
      modifies this, state
      ensures Valid() && Represents(run[|events|])
      ensures |ports| <= MAX_PORTS ==> Inv(run[|events|]) && SafeRoles()
    {
      for k := 0 to |events|
        invariant Valid() && Represents(run[k])
        invariant forall p :: p in ports ==> fresh(p) && fresh(p.bmca.store)
      {
        assert Link(run, events, k);
        Dispatch(events[k], run[k]);
      }
      if |ports| <= MAX_PORTS {
        RunsKeepInv(run, events, d, time, |events|);
        InvMeansSafeRoles(run[|events|]);
      }
    }
  }
}
