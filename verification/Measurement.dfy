/** The measurement side of a port: sync and delay exchanges with the master, peer-delay exchanges
    with the neighbour, and the filter they feed. Times count units of 2^-32 ns.
    Every stored time carries the arrival number of the event it came from; no branch reads it. */
module Measurement {
  import opened Prelude
  import opened DataSets

  datatype Stamp = Stamp(time: int, src: nat)

  /** A sync exchange (send at the master, receipt here) or a delay exchange (send here, receipt there). */
  datatype Exchange = Empty | Measuring(id: u16, send: Option<Stamp>, recv: Option<Stamp>)

  datatype PeerState =
    | NoPeer
    | PeerMeasuring(
        id: u16, responder: Option<PortIdentity>, requestSend: Option<Stamp>, requestRecv: Option<Stamp>,
        responseSend: Option<Stamp>, responseRecv: Option<Stamp>)
    | PostMeasurement(id: u16, peer: PortIdentity)

  datatype SlaveState = SlaveState(remote: PortIdentity, sync: Exchange, delay: Exchange, lastRawSync: Option<int>)

  datatype PortState = Faulty | Listening | Master | Passive | Slave(s: SlaveState)

  datatype Config = Config(identity: PortIdentity, asymmetry: int, peerToPeer: bool)

  /** `filter` counts the filters used so far; `stay` is the arrival that began the latest stay in
      Slave and `request` that of the latest delay request. */
  datatype Port = Port(
    config: Config, state: PortState, peer: PeerState, meanDelay: Option<int>, delayIds: u16, peerIds: u16,
    filter: nat, stay: nat, request: nat, arrivals: nat)

  datatype Sample = Sample(
    eventTime: int, offset: Option<int>, delay: Option<int>, peerDelay: Option<int>, rawSync: Option<int>, rawDelay: Option<int>)

  /** Which arrivals a sample was computed from. */
  datatype Evidence =
    | FromSync(id: u16, send: nat, recv: nat)
    | FromDelay(id: u16, request: nat, send: nat, recv: nat)
    | FromPeer(id: u16, request: nat, responder: PortIdentity, requestSend: nat, requestRecv: nat, responseSend: nat, responseRecv: nat)
  {
    function Sources(): set<nat> {
      match this
      case FromSync(_, a, b) => {a, b}
      case FromDelay(_, _, a, b) => {a, b}
      case FromPeer(_, _, _, a, b, c, d) => {a, b, c, d}
    }
  }

  datatype Output = Output(sample: Sample, evidence: Evidence, filter: nat, stay: nat)

  datatype Event =
    | Sync(h: Header, origin: int, recv: int)
    | FollowUp(h: Header, precise: int)
    | DelayRequest
    | DelayTimestamp(id: u16, time: int)
    | DelayResp(h: Header, requesting: PortIdentity, received: int)
    | PeerTimestamp(id: u16, time: int)
    | PeerResp(h: Header, requesting: PortIdentity, requestReceived: int, recv: int)
    | PeerRespFollowUp(h: Header, requesting: PortIdentity, sent: int)
    | BecomeSlave(remote: PortIdentity) | BecomeListening | BecomeMaster | BecomePassive
    | FilterUpdate

  datatype Result = Result(port: Port, out: Option<Output>)

  const NO_SAMPLE := Sample(0, None, None, None, None, None)

  /** A correction field counts units of 2^-16 ns. */
  function Correction(h: Header): int { h.correction * 0x1_0000 }

  function Half(x: int): int { if x >= 0 then x / 2 else -((-x) / 2) }

  // ----- what the handlers compute -----

  /** A change of state replaces the filter when it leaves Slave or Faulty, or enters Faulty. */
  function Forced(p: Port, state: PortState): Port {
    p.(state := state,
       filter := if p.state.Slave? || p.state.Faulty? || state.Faulty? then p.filter + 1 else p.filter,
       stay := if state.Slave? then p.arrivals else p.stay)
  }

  predicate PeerComplete(s: PeerState) {
    && s.PeerMeasuring? && s.responder.Some?
    && s.requestSend.Some? && s.requestRecv.Some? && s.responseSend.Some? && s.responseRecv.Some?
  }

  predicate Complete(x: Exchange) { x.Measuring? && x.send.Some? && x.recv.Some? }

  function PeerSample(s: PeerState): Sample
    requires PeerComplete(s)
  {
    NO_SAMPLE.(
      eventTime := s.responseRecv.value.time,
      peerDelay := Some(Half((s.responseRecv.value.time - s.requestSend.value.time)
                             - (s.responseSend.value.time - s.requestRecv.value.time))))
  }

  function SyncSample(p: Port, x: Exchange): Sample
    requires Complete(x)
  {
    var raw := x.recv.value.time - x.send.value.time - p.config.asymmetry;
    NO_SAMPLE.(eventTime := x.recv.value.time, rawSync := Some(raw),
               offset := if p.meanDelay.Some? then Some(raw - p.meanDelay.value) else None)
  }

  function DelaySample(p: Port, s: SlaveState): Sample
    requires Complete(s.delay)
  {
    var raw := s.delay.send.value.time - s.delay.recv.value.time - p.config.asymmetry;
    NO_SAMPLE.(eventTime := s.delay.send.value.time, rawDelay := Some(raw),
               delay := if s.lastRawSync.Some? then Some(Half(s.lastRawSync.value - raw)) else None)
  }

  /** A complete peer exchange first, then a complete sync, then a complete delay exchange. */
  function Extracted(p: Port): Result {
    if PeerComplete(p.peer) then
      var e := FromPeer(p.peer.id, p.request, p.peer.responder.value, p.peer.requestSend.value.src, p.peer.requestRecv.value.src,
                        p.peer.responseSend.value.src, p.peer.responseRecv.value.src);
      var q := p.(peer := PostMeasurement(p.peer.id, p.peer.responder.value));
      var r := if q.state.Faulty? then Forced(q, Listening) else q;
      Result(r, Some(Output(PeerSample(p.peer), e, r.filter, r.stay)))
    else if p.state.Slave? && Complete(p.state.s.sync) then
      var x, sample := p.state.s.sync, SyncSample(p, p.state.s.sync);
      Result(p.(state := Slave(p.state.s.(sync := Empty, lastRawSync := sample.rawSync))),
             Some(Output(sample, FromSync(x.id, x.send.value.src, x.recv.value.src), p.filter, p.stay)))
    else if p.state.Slave? && Complete(p.state.s.delay) then
      var x := p.state.s.delay;
      Result(p.(state := Slave(p.state.s.(delay := Empty))),
             Some(Output(DelaySample(p, p.state.s), FromDelay(x.id, p.request, x.send.value.src, x.recv.value.src), p.filter, p.stay)))
    else Result(p, None)
  }

  /** `mean` is the mean delay the filter reports back, if it does. */
  function Fed(p: Port, mean: Option<int>): Result {
    var r := Extracted(p);
    if r.out.Some? && mean.Some? then r.(port := r.port.(meanDelay := mean)) else r
  }

  function WithSync(p: Port, x: Exchange): Port
    requires p.state.Slave?
  {
    p.(state := Slave(p.state.s.(sync := x)))
  }

  function WithDelay(p: Port, x: Exchange): Port
    requires p.state.Slave?
  {
    p.(state := Slave(p.state.s.(delay := x)))
  }

  function AfterSync(p: Port, h: Header, origin: int, recv: int, mean: Option<int>): Result {
    if !p.state.Slave? || p.state.s.remote != h.source then Result(p, None)
    else
      var x, got := p.state.s.sync, Some(Stamp(recv - Correction(h), p.arrivals));
      var same := x.Measuring? && x.id == h.sequenceId;
      if h.twoStep then
        if same && x.recv.Some? then Result(p, None)
        else if same then Fed(WithSync(p, x.(recv := got)), mean)
        else Result(WithSync(p, Measuring(h.sequenceId, None, got)), None)
      else if same then Result(p, None)
      else Fed(WithSync(p, Measuring(h.sequenceId, Some(Stamp(origin, p.arrivals)), got)), mean)
  }

  function AfterFollowUp(p: Port, h: Header, precise: int, mean: Option<int>): Result {
    if !p.state.Slave? || p.state.s.remote != h.source then Result(p, None)
    else
      var x, sent := p.state.s.sync, Some(Stamp(precise + Correction(h), p.arrivals));
      var same := x.Measuring? && x.id == h.sequenceId;
      if same && x.send.Some? then Result(p, None)
      else if same then Fed(WithSync(p, x.(send := sent)), mean)
      else Fed(WithSync(p, Measuring(h.sequenceId, sent, None)), mean)
  }

  function AfterDelayTimestamp(p: Port, id: u16, time: int, mean: Option<int>): Result {
    if !p.state.Slave? then Result(p, None)
    else
      var x := p.state.s.delay;
      if x.Measuring? && x.id == id && x.send.None?
      then Fed(WithDelay(p, x.(send := Some(Stamp(time, p.arrivals)))), mean)
      else Result(p, None)
  }

  function AfterDelayResp(p: Port, h: Header, requesting: PortIdentity, received: int, mean: Option<int>): Result {
    if !p.state.Slave? || p.config.identity != requesting || p.state.s.remote != h.source then Result(p, None)
    else
      var x := p.state.s.delay;
      if x.Measuring? && x.id == h.sequenceId && x.recv.None?
      then Fed(WithDelay(p, x.(recv := Some(Stamp(received - Correction(h), p.arrivals)))), mean)
      else Result(p, None)
  }

  function AfterPeerTimestamp(p: Port, id: u16, time: int, mean: Option<int>): Result {
    if p.peer.PeerMeasuring? && p.peer.id == id && p.peer.requestSend.None?
    then Fed(p.(peer := p.peer.(requestSend := Some(Stamp(time, p.arrivals)))), mean)
    else Result(p, None)
  }

  /** Somebody else has already answered this request. */
  predicate OtherResponder(s: PeerState, h: Header) {
    || (s.PostMeasurement? && s.id == h.sequenceId && s.peer != h.source)
    || (s.PeerMeasuring? && s.id == h.sequenceId && s.responder.Some? && s.responder.value != h.source)
  }

  function AfterPeerResp(p: Port, h: Header, requesting: PortIdentity, requestReceived: int, recv: int, mean: Option<int>): Result {
    if p.config.identity != requesting then Result(p, None)
    else if OtherResponder(p.peer, h) then Result(Forced(p, Faulty), None)
    else if p.peer.PeerMeasuring? && p.peer.id == h.sequenceId && p.peer.responseRecv.None? then
      var received := Some(Stamp(requestReceived, p.arrivals));
      Fed(p.(peer := p.peer.(responseRecv := Some(Stamp(recv - Correction(h), p.arrivals)),
                             requestRecv := received, responder := Some(h.source),
                             responseSend := if h.twoStep then p.peer.responseSend else received)), mean)
    else Result(p, None)
  }

  function AfterPeerRespFollowUp(p: Port, h: Header, requesting: PortIdentity, sent: int, mean: Option<int>): Result {
    if p.config.identity != requesting then Result(p, None)
    else if OtherResponder(p.peer, h) then Result(Forced(p, Faulty), None)
    else if p.peer.PeerMeasuring? && p.peer.id == h.sequenceId && p.peer.responseSend.None? then
      Fed(p.(peer := p.peer.(responseSend := Some(Stamp(sent + Correction(h), p.arrivals)), responder := Some(h.source))), mean)
    else Result(p, None)
  }

  function AfterDelayRequest(p: Port): Port {
    if p.config.peerToPeer then
      p.(request := p.arrivals, peerIds := (p.peerIds + 1) % 0x1_0000, peer := PeerMeasuring(p.peerIds, None, None, None, None, None))
    else if p.state.Slave? then
      WithDelay(p, Measuring(p.delayIds, None, None)).(request := p.arrivals, delayIds := (p.delayIds + 1) % 0x1_0000)
    else p
  }

  function Handle(p: Port, e: Event, mean: Option<int>): Result {
    match e
    case Sync(h, origin, recv) => AfterSync(p, h, origin, recv, mean)
    case FollowUp(h, precise) => AfterFollowUp(p, h, precise, mean)
    case DelayRequest => Result(AfterDelayRequest(p), None)
    case DelayTimestamp(id, time) => AfterDelayTimestamp(p, id, time, mean)
    case DelayResp(h, requesting, received) => AfterDelayResp(p, h, requesting, received, mean)
    case PeerTimestamp(id, time) => AfterPeerTimestamp(p, id, time, mean)
    case PeerResp(h, requesting, requestReceived, recv) => AfterPeerResp(p, h, requesting, requestReceived, recv, mean)
    case PeerRespFollowUp(h, requesting, sent) => AfterPeerRespFollowUp(p, h, requesting, sent, mean)
    case BecomeSlave(remote) =>
      if p.state.Faulty? || (p.state.Slave? && p.state.s.remote == remote) then Result(p, None)
      else Result(Forced(p, Slave(SlaveState(remote, Empty, Empty, None))), None)
    case BecomeListening => Result(if p.state.Listening? then p else Forced(p, Listening), None)
    case BecomeMaster => Result(if p.state.Master? then p else Forced(p, Master), None)
    case BecomePassive => Result(if p.state.Passive? then p else Forced(p, Passive), None)
    case FilterUpdate => Result(if mean.Some? then p.(meanDelay := mean) else p, None)
  }

  function Step(p: Port, e: Event, mean: Option<int>): Result {
    var r := Handle(p, e, mean);
    r.(port := r.port.(arrivals := p.arrivals + 1))
  }

  function NewPort(config: Config): Port { Port(config, Listening, NoPeer, None, 0, 0, 0, 0, 0, 0) }
}
