/** What silence and announces do to a port over whole runs: the announce receipt timeout, the masters it
    remembers, how long it stays disabled. */
module Timeouts {
  import opened Prelude
  import opened DataSets
  import opened DatasetComparison
  import opened ForeignMasters
  import opened Bmca
  import opened Instance
  import opened InstanceRuns
  import opened SilentPorts
  import opened StoreHistory
  import opened Decisions

  // ----- the announce receipt timeout -----

  /** The event says nothing to port i about masters or faults. */
  predicate Quiet(s: State, e: Event, i: nat)
    requires i < |s.ports|
  {
    match e
    case RunBmca(_) => false
    case PeerFault(p) => p != i
    case ReceiveAnnounce(p, a, loopsBack) => p != i || !Heard(s.shared, s.ports[i], a, loopsBack)
    case _ => true
  }

  ghost predicate QuietAt(run: seq<State>, events: seq<Event>, m: nat, i: nat) {
    Link(run, events, m) && i < |run[m].ports| && Quiet(run[m], events[m], i)
  }

  ghost predicate FiresAt(run: seq<State>, events: seq<Event>, m: nat, i: nat) {
    m < |run| && m < |events| && Fires(run[m], events[m], i)
  }

  /** Master for want of anyone else: announcing, and no longer waiting. */
  predicate Alone(p: Port) {
    && p.role.Master? && p.timers.announce && p.timers.sync && !p.timers.receipt
    && (p.mode.InBmca? ==> p.mode.pending == [])
  }

  predicate Waiting(p: Port) { p.role.Listening? && p.timers.receipt && (p.mode.InBmca? ==> p.mode.pending == []) }

  lemma TimeoutMakesMaster(s: State, i: nat)
    requires Enabled(s, ReceiptTimer(i))
    ensures var q := Step(s, ReceiptTimer(i)).ports[i]; if s.shared.default.slaveOnly then Waiting(q) else Alone(q)
  {
    PendingEffect(s.ports[i].timers.(receipt := false), ResetAnnounce, ResetSync);
  }

  lemma QuietKeepsAlone(s: State, e: Event, i: nat)
    requires Enabled(s, e) && i < |s.ports| && Quiet(s, e, i) && Alone(s.ports[i])
    ensures i < |Step(s, e).ports| && Alone(Step(s, e).ports[i])
  {}

  lemma QuietKeepsWaiting(s: State, e: Event, i: nat)
    requires Enabled(s, e) && i < |s.ports| && Quiet(s, e, i) && !Fires(s, e, i) && Waiting(s.ports[i])
    ensures i < |Step(s, e).ports| && Waiting(Step(s, e).ports[i])
  {}

  /** Silence makes a port Master: from the step at which its receipt timer fires with slave-only off, and
      until it hears an announce, the algorithm runs or a peer fault strikes, it is Master with its
      announce and sync timers armed, whatever else happens. */
  lemma {:induction false} SilenceMakesMaster(run: seq<State>, events: seq<Event>, d: DefaultDS, time: TimeProperties,
                                              i: nat, k: nat, n: nat)
    requires IsRun(run, events, d, time) && k < n < |run|
    requires i < |run[k].ports| && events[k] == ReceiptTimer(i) && !run[k].shared.default.slaveOnly
    requires forall m: nat :: k < m < n ==> QuietAt(run, events, m, i)
    ensures i < |run[n].ports| && Alone(run[n].ports[i])
  {
    assert Link(run, events, n - 1);
    if n == k + 1 {
      TimeoutMakesMaster(run[k], i);
    } else {
      SilenceMakesMaster(run, events, d, time, i, k, n - 1);
      assert QuietAt(run, events, n - 1, i);
      QuietKeepsAlone(run[n - 1], events[n - 1], i);
    }
  }

  /** With slave-only on it listens instead and waits on. */
  lemma {:induction false} SilenceKeepsWaiting(run: seq<State>, events: seq<Event>, d: DefaultDS, time: TimeProperties,
                                               i: nat, k: nat, n: nat)
    requires IsRun(run, events, d, time) && k < n < |run|
    requires i < |run[k].ports| && events[k] == ReceiptTimer(i) && run[k].shared.default.slaveOnly
    requires forall m: nat :: k < m < n ==> QuietAt(run, events, m, i) && !FiresAt(run, events, m, i)
    ensures i < |run[n].ports| && Waiting(run[n].ports[i])
  {
    assert Link(run, events, n - 1);
    if n == k + 1 {
      TimeoutMakesMaster(run[k], i);
    } else {
      SilenceKeepsWaiting(run, events, d, time, i, k, n - 1);
      assert QuietAt(run, events, n - 1, i) && !FiresAt(run, events, n - 1, i);
      QuietKeepsWaiting(run[n - 1], events[n - 1], i);
    }
  }

  /** The other timers fire and are armed again exactly where there is more to send: announces and syncs by
      a Master, requests by a Slave or a peer-to-peer port. */
  lemma TimersRearm(s: State, e: Event)
    requires Enabled(s, e) && (e.AnnounceTimer? || e.SyncTimer? || e.DelayTimer?)
    ensures var p, q := s.ports[e.p], Step(s, e).ports[e.p];
            && q.role == p.role && q.timers.receipt == p.timers.receipt
            && q.timers.announce == (p.timers.announce && (e.AnnounceTimer? ==> p.role.Master?))
            && q.timers.sync == (p.timers.sync && (e.SyncTimer? ==> p.role.Master?))
            && q.timers.delay == (p.timers.delay && (e.DelayTimer? ==> p.role.Slave? || p.config.peerToPeer))
  {}

  /** A second peer makes any port Faulty; a request answered in full closes the exchange and lets a Faulty port
      listen; both leave the timers and the store alone. */
  lemma PeerEventsAtPort(s: State, e: Event)
    requires Enabled(s, e) && (e.PeerFault? || e.PeerMeasured?)
    ensures var p, q := s.ports[e.p], Step(s, e).ports[e.p];
            && q.timers == p.timers && q.masters == p.masters && q.disabled == p.disabled && Step(s, e).shared == s.shared
            && (e.PeerFault? ==> q.role.Faulty? && q.peer == p.peer)
            && (e.PeerMeasured? ==> q.peer.Answered? && q.role == if p.role.Faulty? then Listening else p.role)
  {}

  // ----- an announce -----

  /** From the own clock on a smaller port: another port of this clock is on the same network. */
  predicate IsOwnSmaller(p: Port, a: Announce) {
    a.header.source.clock == p.identity.clock && a.header.source.port < p.identity.port
  }

  /** An announce that is heard resets the receipt timer; it disables the port exactly if it comes from a
      smaller port of the own clock. One that is not heard changes nothing at the port. */
  lemma AnnounceAtPort(s: State, i: nat, a: Announce, loopsBack: bool)
    requires Enabled(s, ReceiveAnnounce(i, a, loopsBack))
    ensures var p, q := s.ports[i], Step(s, ReceiveAnnounce(i, a, loopsBack)).ports[i];
            if Heard(s.shared, p, a, loopsBack) then
              && q.timers == p.timers.(receipt := true)
              && (IsOwnSmaller(p, a) ==> q.role == Passive && q.disabled == Some(0))
              && (!IsOwnSmaller(p, a) ==> q.role == p.role && q.disabled == p.disabled)
            else q == p
  {}

  /** The data sets follow the parent at once, also for an announce that loops back, and nobody else. */
  lemma AnnounceAtInstance(s: State, i: nat, a: Announce, loopsBack: bool)
    requires Inv(s) && Enabled(s, ReceiveAnnounce(i, a, loopsBack))
    ensures var t := Step(s, ReceiveAnnounce(i, a, loopsBack)).shared;
            if s.ports[i].role == Slave(a.header.source) then
              && t.default == s.shared.default && t.parent.parent == a.header.source && GrandmasterOf(t.parent, a)
              && TimeOf(t.time, a) && t.stepsRemoved == (if a.stepsRemoved == 0xFFFF then 0 else a.stepsRemoved + 1)
            else t == s.shared
  {
    assert s.ports[i] in s.ports;
  }

  // ----- the masters remembered -----

  /** What the event is to the store of port i. */
  function StoreEvents(s: State, e: Event, i: nat): seq<StoreEvent>
    requires i < |s.ports|
  {
    match e
    case ReceiveAnnounce(p, a, loopsBack) => if p == i && Heard(s.shared, s.ports[i], a, loopsBack) then [Receive(a)] else []
    case RunBmca(step) => [Choose, Age(step)]
    case _ => []
  }

  /** The history of the store of port i before state n. */
  function PortHistory(run: seq<State>, events: seq<Event>, i: nat, n: nat): seq<StoreEvent>
    requires n < |run| && n <= |events|
  {
    if n == 0 || i >= |run[n - 1].ports| then []
    else PortHistory(run, events, i, n - 1) + StoreEvents(run[n - 1], events[n - 1], i)
  }

  lemma StoreRunNext(own: PortIdentity, interval: int, history: seq<StoreEvent>, e: StoreEvent)
    ensures StoreRun(own, interval, history + [e]) == StoreAfter(StoreRun(own, interval, history), own, interval, e)
  {
    assert (history + [e])[..|history|] == history;
  }

  lemma RunMasters(s: State, step: int, i: nat)
    requires Enabled(s, RunBmca(step)) && i < |s.ports|
    ensures var p, q := s.ports[i], BmcaRun(s, step).ports[i];
            && q.identity == p.identity && q.config == p.config
            && q.masters == Aged(Conserved(p.masters, BestOf(p.masters, p.identity)), step, StoreInterval(p.config))
  {
    RunAt(s, step, i);
    DecidedFacts(s.shared.default, Ebest(ChosenAll(s.ports)), ChosenAll(s.ports)[i]);
  }

  lemma RunStoreStep(s: State, step: int, i: nat, history: seq<StoreEvent>)
    requires Enabled(s, RunBmca(step)) && i < |s.ports|
    requires var p := s.ports[i]; p.masters == StoreRun(p.identity, StoreInterval(p.config), history)
    ensures var p, q := s.ports[i], BmcaRun(s, step).ports[i];
            && q.identity == p.identity && q.config == p.config
            && q.masters == StoreRun(p.identity, StoreInterval(p.config), history + [Choose, Age(step)])
  {
    var p := s.ports[i];
    RunMasters(s, step, i);
    StoreRunNext(p.identity, StoreInterval(p.config), history, Choose);
    StoreRunNext(p.identity, StoreInterval(p.config), history + [Choose], Age(step));
    assert history + [Choose, Age(step)] == history + [Choose] + [Age(step)];
  }

  lemma EventStoreStep(s: State, e: Event, i: nat)
    requires Enabled(s, e) && i < |s.ports| && !e.RunBmca?
    ensures var p, q := s.ports[i], Step(s, e).ports[i];
            && q.identity == p.identity && q.config == p.config
            && if StoreEvents(s, e, i) == [] then q.masters == p.masters
               else && e.ReceiveAnnounce? && StoreEvents(s, e, i) == [Receive(e.a)]
                    && q.masters == Registered(p.masters, p.identity, StoreInterval(p.config), e.a, 0)
  {}

  lemma StoreStep(s: State, e: Event, i: nat, history: seq<StoreEvent>)
    requires Enabled(s, e) && i < |s.ports| && Forwards(history)
    requires var p := s.ports[i]; p.masters == StoreRun(p.identity, StoreInterval(p.config), history)
    ensures Forwards(history + StoreEvents(s, e, i))
    ensures var p, q := s.ports[i], Step(s, e).ports[i];
            && q.identity == p.identity && q.config == p.config
            && q.masters == StoreRun(p.identity, StoreInterval(p.config), history + StoreEvents(s, e, i))
  {
    var more := StoreEvents(s, e, i);
    if e.RunBmca? {
      RunStoreStep(s, e.step, i, history);
    } else {
      EventStoreStep(s, e, i);
      if more == [] {
        assert history + more == history;
      } else {
        StoreRunNext(s.ports[i].identity, StoreInterval(s.ports[i].config), history, Receive(e.a));
      }
    }
  }

  lemma NewPortStore(s: State, e: Event, i: nat)
    requires Enabled(s, e) && |s.ports| <= i < |Step(s, e).ports|
    ensures Step(s, e).ports[i].masters == [] && GoodConfig(Step(s, e).ports[i].config)
  {}

  /** In every state of every run the store of a port is what its history made it: the announces heard on
      it, and a choice and a step of time for every run of the algorithm. */
  lemma {:induction false} StoreFollowsRun(run: seq<State>, events: seq<Event>, d: DefaultDS, time: TimeProperties,
                                           i: nat, n: nat)
    requires IsRun(run, events, d, time) && n < |run| && i < |run[n].ports|
    ensures var p := run[n].ports[i];
            GoodConfig(p.config) && Forwards(PortHistory(run, events, i, n))
            && p.masters == StoreRun(p.identity, StoreInterval(p.config), PortHistory(run, events, i, n))
  {
    assert n > 0;
    var s, e := run[n - 1], events[n - 1];
    assert Link(run, events, n - 1);
    if i < |s.ports| {
      StoreFollowsRun(run, events, d, time, i, n - 1);
      StoreStep(s, e, i, PortHistory(run, events, i, n - 1));
    } else {
      NewPortStore(s, e, i);
    }
  }

  /** How much time the runs of the algorithm have told since event `from`. */
  function TimePassed(events: seq<Event>, from: nat, to: nat): int
    requires to <= |events|
  {
    if to <= from then 0 else TimePassed(events, from, to - 1) + if events[to - 1].RunBmca? then events[to - 1].step else 0
  }

  /** An announce is heard on port i. */
  predicate Hears(s: State, e: Event, i: nat) {
    e.ReceiveAnnounce? && e.p == i < |s.ports| && Heard(s.shared, s.ports[i], e.a, e.loopsBack)
  }

  /** Between two states the history grows by the time passed, and by receipts only when one was heard. */
  ghost predicate GrowsInSilence(before: seq<StoreEvent>, after: seq<StoreEvent>, passed: int) {
    && |before| <= |after| && Elapsed(after, |before|) == passed
    && forall k :: |before| <= k < |after| ==> !after[k].Receive?
  }

  lemma GrowsByRun(before: seq<StoreEvent>, history: seq<StoreEvent>, passed: int, step: int)
    requires GrowsInSilence(before, history, passed)
    ensures GrowsInSilence(before, history + [Choose, Age(step)], passed + step)
  {
    var chosen, more := history + [Choose], history + [Choose, Age(step)];
    assert more == chosen + [Age(step)];
    ElapsedNext(history, Choose, |before|);
    ElapsedNext(chosen, Age(step), |before|);
  }

  lemma SilentStep(s: State, e: Event, i: nat, before: seq<StoreEvent>, history: seq<StoreEvent>, passed: int)
    requires i < |s.ports| && !Hears(s, e, i) && GrowsInSilence(before, history, passed)
    ensures GrowsInSilence(before, history + StoreEvents(s, e, i), passed + if e.RunBmca? then e.step else 0)
  {
    if e.RunBmca? {
      GrowsByRun(before, history, passed, e.step);
    } else {
      assert StoreEvents(s, e, i) == [] && history + [] == history;
    }
  }

  lemma {:induction false} HistoryGrowsInSilence(run: seq<State>, events: seq<Event>, d: DefaultDS, time: TimeProperties,
                                                 i: nat, m: nat, n: nat)
    requires IsRun(run, events, d, time) && m <= n < |run| && i < |run[m].ports|
    requires forall k: nat :: m <= k < n ==> !Hears(run[k], events[k], i)
    ensures i < |run[n].ports|
    ensures GrowsInSilence(PortHistory(run, events, i, m), PortHistory(run, events, i, n), TimePassed(events, m, n))
  {
    var before := PortHistory(run, events, i, m);
    if m < n {
      HistoryGrowsInSilence(run, events, d, time, i, m, n - 1);
      SilentStep(run[n - 1], events[n - 1], i, before, PortHistory(run, events, i, n - 1), TimePassed(events, m, n - 1));
      PortsOnlyGrow(run, events, d, time, n, n - 1);
    } else {
      ElapsedNext(before, Choose, |before|);
    }
  }

  /** A dead master is forgotten: once the algorithm's runs have told four stored intervals since anything
      was heard on a port, the port knows no master and has no Erbest. */
  lemma DeadMastersAreForgotten(run: seq<State>, events: seq<Event>, d: DefaultDS, time: TimeProperties,
                                i: nat, m: nat, n: nat)
    requires IsRun(run, events, d, time) && m <= n < |run| && i < |run[m].ports|
    requires forall k: nat :: m <= k < n ==> !Hears(run[k], events[k], i)
    ensures i < |run[n].ports|
    ensures var p := run[n].ports[i];
            TimePassed(events, m, n) >= 4 * StoreInterval(p.config) ==>
              p.masters == [] && BestOf(p.masters, p.identity).None?
  {
    HistoryGrowsInSilence(run, events, d, time, i, m, n);
    StoreFollowsRun(run, events, d, time, i, n);
    var p := run[n].ports[i];
    if TimePassed(events, m, n) >= 4 * StoreInterval(p.config) {
      var before, after := PortHistory(run, events, i, m), PortHistory(run, events, i, n);
      SilenceEmptiesStore(p.identity, StoreInterval(p.config), after, |before|);
    }
  }

  // ----- the disabled port -----

  /** An announce from a smaller port of the own clock is heard on port i. */
  predicate Disables(s: State, e: Event, i: nat) { Hears(s, e, i) && IsOwnSmaller(s.ports[i], e.a) }

  predicate DisabledAt(run: seq<State>, events: seq<Event>, m: nat, i: nat) {
    m < |run| && m < |events| && Disables(run[m], events[m], i)
  }

  predicate IsDisabledFor(p: Port, passed: int) {
    p.disabled == if passed < p.config.announceInterval then Some(passed) else None
  }

  lemma DecidedKeepsDisabled(d: DefaultDS, ebest: Option<Best>, p: Port)
    requires p.mode.InBmca?
    ensures Decided(d, ebest, p).disabled == p.disabled && Decided(d, ebest, p).config == p.config
    ensures p.disabled.Some? ==> !Decided(d, ebest, p).role.Master?
  {}

  lemma DisabledRun(s: State, step: int, i: nat, passed: int)
    requires Enabled(s, RunBmca(step)) && i < |s.ports| && IsDisabledFor(s.ports[i], passed)
    ensures BmcaRun(s, step).ports[i].config == s.ports[i].config
    ensures IsDisabledFor(BmcaRun(s, step).ports[i], passed + step)
    ensures passed < s.ports[i].config.announceInterval ==> !BmcaRun(s, step).ports[i].role.Master?
  {
    RunAt(s, step, i);
    DecidedKeepsDisabled(s.shared.default, Ebest(ChosenAll(s.ports)), ChosenAll(s.ports)[i]);
  }

  lemma DisabledEvent(s: State, e: Event, i: nat)
    requires Enabled(s, e) && i < |s.ports| && !e.RunBmca?
    ensures i < |Step(s, e).ports| && Step(s, e).ports[i].config == s.ports[i].config
    ensures Step(s, e).ports[i].disabled == if Disables(s, e, i) then Some(0) else s.ports[i].disabled
  {}

  lemma DisabledStep(s: State, e: Event, t: State, i: nat, passed: int)
    requires Enabled(s, e) && t == Step(s, e) && i < |s.ports| && !Disables(s, e, i) && IsDisabledFor(s.ports[i], passed)
    ensures i < |t.ports| && t.ports[i].config == s.ports[i].config
    ensures IsDisabledFor(t.ports[i], passed + if e.RunBmca? then e.step else 0)
    ensures e.RunBmca? && passed < s.ports[i].config.announceInterval ==> !t.ports[i].role.Master?
  {
    if e.RunBmca? {
      DisabledRun(s, e.step, i, passed);
    } else {
      DisabledEvent(s, e, i);
    }
  }

  lemma DisabledAtOnce(run: seq<State>, events: seq<Event>, d: DefaultDS, time: TimeProperties, i: nat, k: nat)
    requires IsRun(run, events, d, time) && k + 1 < |run| && DisabledAt(run, events, k, i)
    ensures i < |run[k + 1].ports| && IsDisabledFor(run[k + 1].ports[i], 0)
  {
    assert Link(run, events, k);
    StoreFollowsRun(run, events, d, time, i, k);
    DisabledEvent(run[k], events[k], i);
  }

  lemma DisabledNext(run: seq<State>, events: seq<Event>, m: nat, i: nat, passed: int)
    requires Link(run, events, m) && i < |run[m].ports| && !DisabledAt(run, events, m, i)
    requires IsDisabledFor(run[m].ports[i], passed)
    ensures i < |run[m + 1].ports|
    ensures IsDisabledFor(run[m + 1].ports[i], passed + if events[m].RunBmca? then events[m].step else 0)
    ensures events[m].RunBmca? && passed < run[m].ports[i].config.announceInterval ==> !run[m + 1].ports[i].role.Master?
  {
    DisabledStep(run[m], events[m], run[m + 1], i, passed);
  }

  /** A port that hears a smaller port of its own clock stays disabled for exactly one announce interval
      after the last time. */
  lemma {:induction false} DisabledForAnInterval(run: seq<State>, events: seq<Event>, d: DefaultDS, time: TimeProperties,
                                                 i: nat, k: nat, n: nat)
    requires IsRun(run, events, d, time) && k < n < |run| && DisabledAt(run, events, k, i)
    requires forall m: nat :: k < m < n ==> !DisabledAt(run, events, m, i)
    ensures i < |run[n].ports| && IsDisabledFor(run[n].ports[i], TimePassed(events, k + 1, n))
  {
    if n == k + 1 {
      DisabledAtOnce(run, events, d, time, i, k);
    } else {
      DisabledForAnInterval(run, events, d, time, i, k, n - 1);
      assert Link(run, events, n - 1);
      DisabledNext(run, events, n - 1, i, TimePassed(events, k + 1, n - 1));
    }
  }

  /** Meanwhile no run of the algorithm makes it Master. */
  lemma DisabledIsNotMadeMaster(run: seq<State>, events: seq<Event>, d: DefaultDS, time: TimeProperties,
                                i: nat, k: nat, n: nat)
    requires IsRun(run, events, d, time) && k < n < |events| && DisabledAt(run, events, k, i) && events[n].RunBmca?
    requires forall m: nat :: k < m < n ==> !DisabledAt(run, events, m, i)
    ensures i < |run[n].ports| && i < |run[n + 1].ports|
    ensures TimePassed(events, k + 1, n) < run[n].ports[i].config.announceInterval ==> !run[n + 1].ports[i].role.Master?
  {
    DisabledForAnInterval(run, events, d, time, i, k, n);
    assert Link(run, events, n);
    DisabledNext(run, events, n, i, TimePassed(events, k + 1, n));
  }
}
