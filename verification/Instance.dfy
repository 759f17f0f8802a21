/** A PTP instance and its ports as a step system: announce receipt, timers, peer-delay faults,
    BMCA runs and configuration changes, in any interleaving. */
module Instance {
  import opened Prelude
  import opened DataSets
  import opened DatasetComparison
  import opened ForeignMasters
  import opened Bmca

  datatype Action = ResetAnnounce | ResetSync | ResetReceipt | ResetDelay

  datatype Timers = Timers(announce: bool, sync: bool, receipt: bool, delay: bool)

  /** `announceInterval` counts units of 2^-32 ns. */
  datatype PortConfig = PortConfig(
    masterOnly: bool, peerToPeer: bool, announceInterval: int, acceptable: Option<set<ClockIdentity>>)

  /** How far the peer-delay exchange has come: no request yet, a request waiting for its answers,
      or a request answered in full. */
  datatype PeerPhase = NoRequest | Asked | Answered

  datatype Mode = Running | InBmca(pending: seq<Action>, localBest: Option<Best>)

  datatype Port = Port(
    config: PortConfig, identity: PortIdentity, role: Role, masters: seq<ForeignMasters.Master>,
    disabled: Option<int>, mode: Mode, timers: Timers, peer: PeerPhase)

  datatype State = State(shared: Shared, ports: seq<Port>)

  /** The store keeps its interval as a TimeInterval, in units of 2^-16 ns. */
  function StoreInterval(c: PortConfig): int { c.announceInterval / 0x1_0000 * 0x1_0000 }

  /** The stored interval is positive and fits its 64 bits: at least 2^-16 ns and below 2^47 ns. */
  predicate GoodConfig(c: PortConfig) { 0x1_0000 <= c.announceInterval < 0x8000_0000_0000_0000_0000 }

  // ----- timers -----

  function Apply(t: Timers, a: Action): Timers {
    match a
    case ResetAnnounce => t.(announce := true)
    case ResetSync => t.(sync := true)
    case ResetReceipt => t.(receipt := true)
    case ResetDelay => t.(delay := true)
  }

  function ApplyAll(t: Timers, actions: seq<Action>): Timers {
    if |actions| == 0 then t else Apply(ApplyAll(t, actions[..|actions| - 1]), actions[|actions| - 1])
  }

  // ----- handlers of a running port -----

  /** An announce that names this clock in its path trace is not registered. */
  function Announced(s: Shared, p: Port, a: Announce): Shared {
    if p.role.Slave? && a.header.source == s.parent.parent
    then s.(stepsRemoved := (a.stepsRemoved + 1) % 0x1_0000, parent := AnnouncedParent(a), time := AnnouncedTime(a))
    else s
  }

  function AfterAnnounce(s: Shared, p: Port, a: Announce, loopsBack: bool): Port {
    if p.role.Slave? && a.header.source == s.parent.parent && loopsBack then p
    else if a.header.source == p.identity || !Acceptable(p.config.acceptable, a.header.source.clock) then p
    else
      var q := p.(masters := Registered(p.masters, p.identity, StoreInterval(p.config), a, 0),
                  timers := Apply(p.timers, ResetReceipt));
      if p.identity.clock == a.header.source.clock && p.identity.port > a.header.source.port
      then q.(disabled := Some(0), role := Passive) else q
  }

  function AfterReceiptTimer(slaveOnly: bool, p: Port): Port {
    if slaveOnly then p.(role := Listening, timers := Apply(p.timers.(receipt := false), ResetReceipt))
    else p.(role := Role.Master, timers := ApplyAll(p.timers.(receipt := false), [ResetAnnounce, ResetSync]))
  }

  function AfterAnnounceTimer(p: Port): Port { p.(timers := p.timers.(announce := p.role.Master?)) }

  function AfterSyncTimer(p: Port): Port { p.(timers := p.timers.(sync := p.role.Master?)) }

  /** A peer-to-peer port sends a request in any role, an end-to-end port as Slave only. */
  function AfterDelayTimer(p: Port): Port {
    p.(timers := p.timers.(delay := p.config.peerToPeer || p.role.Slave?),
       peer := if p.config.peerToPeer then Asked else p.peer)
  }

  /** A second peer has answered the request. */
  function AfterPeerFault(p: Port): Port { p.(role := Faulty) }

  /** One peer has answered the request in full, which ends a fault. */
  function AfterPeerMeasured(p: Port): Port {
    p.(peer := Answered, role := if p.role.Faulty? then Listening else p.role)
  }

  function Started(p: Port): Port { p.(mode := InBmca([], None)) }

  function Ended(p: Port): Port
    requires p.mode.InBmca?
  {
    p.(mode := Running, timers := ApplyAll(p.timers, p.mode.pending))
  }

  // ----- a run of the algorithm over all ports -----

  function Chosen(p: Port): Port
    requires p.mode.InBmca?
  {
    var best := BestOf(p.masters, p.identity);
    p.(masters := Conserved(p.masters, best), mode := p.mode.(localBest := best))
  }

  predicate Eligible(p: Port) { !p.config.masterOnly && !p.role.Faulty? }

  /** The Erbest of every eligible port that has one, in port order. */
  function EligibleBests(ports: seq<Port>): seq<Best>
    requires forall p :: p in ports ==> p.mode.InBmca?
  {
    if |ports| == 0 then []
    else
      var last := ports[|ports| - 1];
      EligibleBests(ports[..|ports| - 1]) +
      if Eligible(last) && last.mode.localBest.Some? then [last.mode.localBest.value] else []
  }

  function Ebest(ports: seq<Port>): Option<Best>
    requires forall p :: p in ports ==> p.mode.InBmca?
  {
    MaxBy(EligibleBests(ports))
  }

  function RoleAfter(p: Port, r: Recommended, slaveOnly: bool): Port
    requires p.mode.InBmca?
  {
    match r
    case S1(a) =>
      if p.role.Faulty? || p.role == Slave(a.header.source) then p
      else p.(role := Slave(a.header.source), mode := p.mode.(pending := [ResetReceipt, ResetDelay]))
    case P1(_) => if p.role.Faulty? then p else p.(role := Passive)
    case P2(_) => if p.role.Faulty? then p else p.(role := Passive)
    case _ =>
      if slaveOnly then
        if p.role.Listening? || p.role.Faulty? then p
        else p.(role := Listening, mode := p.mode.(pending := [ResetReceipt]))
      else if p.disabled.Some? then p.(role := Passive)
      else if p.role.Master? || p.role.Faulty? then p
      else p.(role := Role.Master, mode := p.mode.(pending := [ResetAnnounce, ResetSync]))
  }

  function SharedAfterOne(s: Shared, r: Option<Recommended>): Shared {
    match r
    case None => s
    case Some(S1(a)) =>
      s.(stepsRemoved := (a.stepsRemoved + 1) % 0x1_0000, parent := AnnouncedParent(a), time := AnnouncedTime(a))
    case Some(M1(d)) => s.(stepsRemoved := 0, parent := OwnParent(d), time := OWN_TIME)
    case Some(M2(d)) => s.(stepsRemoved := 0, parent := OwnParent(d), time := OWN_TIME)
    case Some(_) => s
  }

  function SharedAfter(s: Shared, recs: seq<Option<Recommended>>): Shared {
    if |recs| == 0 then s else SharedAfterOne(SharedAfter(s, recs[..|recs| - 1]), recs[|recs| - 1])
  }

  function RecommendFor(d: DefaultDS, ebest: Option<Best>, p: Port): Option<Recommended>
    requires p.mode.InBmca?
  {
    Recommend(d, ebest, p.mode.localBest, p.role)
  }

  function Decided(d: DefaultDS, ebest: Option<Best>, p: Port): Port
    requires p.mode.InBmca?
  {
    match RecommendFor(d, ebest, p)
    case None => p
    case Some(r) => RoleAfter(p, r, d.slaveOnly)
  }

  function AgedPort(p: Port, step: int): Port {
    p.(disabled := if p.disabled.Some? && p.disabled.value + step < p.config.announceInterval
                   then Some(p.disabled.value + step) else None,
       masters := Aged(p.masters, step, StoreInterval(p.config)))
  }

  function ChosenAll(ports: seq<Port>): (r: seq<Port>)
    requires forall p :: p in ports ==> p.mode.InBmca?
    ensures |r| == |ports| && forall p :: p in r ==> p.mode.InBmca?
  {
    seq(|ports|, i requires 0 <= i < |ports| => Chosen(ports[i]))
  }

  function Recommendations(d: DefaultDS, ports: seq<Port>): seq<Option<Recommended>>
    requires forall p :: p in ports ==> p.mode.InBmca?
  {
    seq(|ports|, i requires 0 <= i < |ports| => RecommendFor(d, Ebest(ports), ports[i]))
  }

  function DecidedAll(d: DefaultDS, ports: seq<Port>): seq<Port>
    requires forall p :: p in ports ==> p.mode.InBmca?
  {
    var ebest := Ebest(ports);
    seq(|ports|, i requires 0 <= i < |ports| => Decided(d, ebest, ports[i]))
  }

  function AgedAll(ports: seq<Port>, step: int): seq<Port> {
    seq(|ports|, i requires 0 <= i < |ports| => AgedPort(ports[i], step))
  }

  function BmcaRun(s: State, step: int): State
    requires forall p :: p in s.ports ==> p.mode.InBmca?
  {
    var d, chosen := s.shared.default, ChosenAll(s.ports);
    State(SharedAfter(s.shared, Recommendations(d, chosen)), AgedAll(DecidedAll(d, chosen), step))
  }

  // ----- steps and runs -----

  datatype Event =
    | ReceiveAnnounce(p: nat, a: Announce, loopsBack: bool)
    | ReceiptTimer(p: nat) | AnnounceTimer(p: nat) | SyncTimer(p: nat) | DelayTimer(p: nat)
    | PeerFault(p: nat) | PeerMeasured(p: nat)
    | StartBmca(p: nat) | EndBmca(p: nat) | RunBmca(step: int)
    | SetSlaveOnly(slaveOnly: bool) | SetQuality(quality: ClockQuality) | AddPort(config: PortConfig)

  /** Events of a single port; the others concern the instance. */
  predicate AtPort(e: Event) { !(e.RunBmca? || e.SetSlaveOnly? || e.SetQuality? || e.AddPort?) }

  /** A handler needs a running port, a timer must be armed to fire, and only a request that was sent
      is answered. */
  predicate PortEnabled(p: Port, e: Event)
    requires AtPort(e)
  {
    match e
    case EndBmca(_) => p.mode.InBmca?
    case ReceiptTimer(_) => p.mode.Running? && p.timers.receipt
    case AnnounceTimer(_) => p.mode.Running? && p.timers.announce
    case SyncTimer(_) => p.mode.Running? && p.timers.sync
    case DelayTimer(_) => p.mode.Running? && p.timers.delay
    case PeerFault(_) => p.mode.Running? && !p.peer.NoRequest?
    case PeerMeasured(_) => p.mode.Running? && p.peer.Asked?
    case _ => p.mode.Running?
  }

  /** The algorithm needs every port. */
  predicate Enabled(s: State, e: Event) {
    if AtPort(e) then e.p < |s.ports| && PortEnabled(s.ports[e.p], e)
    else
      match e
      case RunBmca(step) => step >= 0 && forall p :: p in s.ports ==> p.mode.InBmca?
      case AddPort(config) => GoodConfig(config)
      case _ => true
  }

  function PortNext(s: Shared, p: Port, e: Event): Port
    requires AtPort(e) && PortEnabled(p, e)
  {
    match e
    case ReceiveAnnounce(_, a, loopsBack) => AfterAnnounce(s, p, a, loopsBack)
    case ReceiptTimer(_) => AfterReceiptTimer(s.default.slaveOnly, p)
    case AnnounceTimer(_) => AfterAnnounceTimer(p)
    case SyncTimer(_) => AfterSyncTimer(p)
    case DelayTimer(_) => AfterDelayTimer(p)
    case PeerFault(_) => AfterPeerFault(p)
    case PeerMeasured(_) => AfterPeerMeasured(p)
    case StartBmca(_) => Started(p)
    case EndBmca(_) => Ended(p)
    case _ => p
  }

  function SharedNext(s: Shared, p: Port, e: Event): Shared {
    if e.ReceiveAnnounce? then Announced(s, p, e.a) else s
  }

  function NewPort(clock: ClockIdentity, number: u16, config: PortConfig): Port {
    Port(config, PortIdentity(clock, number), Listening, [], None, InBmca([ResetReceipt], None),
         Timers(false, false, false, false), NoRequest)
  }

  function Step(s: State, e: Event): State
    requires Enabled(s, e)
  {
    if AtPort(e) then
      State(SharedNext(s.shared, s.ports[e.p], e), s.ports[e.p := PortNext(s.shared, s.ports[e.p], e)])
    else
      match e
      case RunBmca(step) => BmcaRun(s, step)
      case SetSlaveOnly(b) => s.(shared := s.shared.(default := s.shared.default.(slaveOnly := b)))
      case SetQuality(q) => s.(shared := s.shared.(default := s.shared.default.(quality := q)))
      case AddPort(config) =>
        var number := (s.shared.default.numberPorts + 1) % 0x1_0000;
        State(s.shared.(default := s.shared.default.(numberPorts := number)),
              s.ports + [NewPort(s.shared.default.clockIdentity, number, config)])
      case _ => s
  }

  function Initial(d: DefaultDS, time: TimeProperties): State {
    State(Shared(d.(numberPorts := 0), 0, OwnParent(d), time), [])
  }

  ghost predicate IsRun(run: seq<State>, events: seq<Event>, d: DefaultDS, time: TimeProperties) {
    && |run| == |events| + 1
    && run[0] == Initial(d, time)
    && forall i :: 0 <= i < |events| ==> Link(run, events, i)
  }

  ghost predicate Link(run: seq<State>, events: seq<Event>, i: nat) {
    && i < |events| && i + 1 < |run|
    && Enabled(run[i], events[i]) && run[i + 1] == Step(run[i], events[i])
  }
}
