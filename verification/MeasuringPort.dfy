/** The measurement handlers as they run: a port whose exchange slots are overwritten in place. */
module MeasuringPort {
  import opened Prelude
  import opened DataSets
  import opened Measurement
  import opened Provenance

  class Handlers {
    const config: Config
    var state: PortState
    var peer: PeerState
    var meanDelay: Option<int>
    var delayIds: u16
    var peerIds: u16
    var filter: nat
    var stay: nat
    var request: nat
    var arrivals: nat

    ghost function Model(): Port
      reads this
    {
      Port(config, state, peer, meanDelay, delayIds, peerIds, filter, stay, request, arrivals)
    }

    constructor (config: Config)
      ensures Model() == NewPort(config)
    {
      this.config := config;
      state, peer, meanDelay := Listening, NoPeer, None;
      delayIds, peerIds, filter, stay, request, arrivals := 0, 0, 0, 0, 0, 0;
    }

    method SetForcedState(next: PortState)
      modifies this
      ensures Model() == Forced(old(Model()), next)
    {
      var previous := state;
      state := next;
      if next.Slave? {
        stay := arrivals;
      }
      if previous.Slave? || previous.Faulty? || state.Faulty? {
        filter := filter + 1;
      }
    }

    /** The first complete exchange, if any, is consumed. */
    method ExtractMeasurement() returns (out: Option<Output>)
      modifies this
      ensures Result(Model(), out) == Extracted(old(Model()))
    {
      if PeerComplete(peer) {
        var e := FromPeer(peer.id, request, peer.responder.value, peer.requestSend.value.src, peer.requestRecv.value.src,
                          peer.responseSend.value.src, peer.responseRecv.value.src);
        var sample := PeerSample(peer);
        peer := PostMeasurement(peer.id, peer.responder.value);
        if state.Faulty? {
          SetForcedState(Listening);
        }
        return Some(Output(sample, e, filter, stay));
      }
      out := None;
      if state.Slave? {
        var s := state.s;
        if Complete(s.sync) {
          var raw := s.sync.recv.value.time - s.sync.send.value.time - config.asymmetry;
          var sample := NO_SAMPLE.(eventTime := s.sync.recv.value.time, rawSync := Some(raw));
          if meanDelay.Some? {
            sample := sample.(offset := Some(raw - meanDelay.value));
          }
          out := Some(Output(sample, FromSync(s.sync.id, s.sync.send.value.src, s.sync.recv.value.src), filter, stay));
          state := Slave(s.(lastRawSync := Some(raw), sync := Empty));
        } else if Complete(s.delay) {
          var raw := s.delay.send.value.time - s.delay.recv.value.time - config.asymmetry;
          var sample := NO_SAMPLE.(eventTime := s.delay.send.value.time, rawDelay := Some(raw));
          if s.lastRawSync.Some? {
            sample := sample.(delay := Some(Half(s.lastRawSync.value - raw)));
          }
          out := Some(Output(sample, FromDelay(s.delay.id, request, s.delay.send.value.src, s.delay.recv.value.src), filter, stay));
          state := Slave(s.(delay := Empty));
        }
      }
    }

    method HandleTimeMeasurement(mean: Option<int>) returns (out: Option<Output>)
      modifies this
      ensures Result(Model(), out) == Fed(old(Model()), mean)
    {
      out := ExtractMeasurement();
      if out.Some? && mean.Some? {
        meanDelay := mean;
      }
    }

    method HandleSync(h: Header, origin: int, recv: int, mean: Option<int>) returns (out: Option<Output>)
      modifies this
      ensures Result(Model(), out) == AfterSync(old(Model()), h, origin, recv, mean)
    {
      if !state.Slave? || state.s.remote != h.source {
        return None;
      }
      var corrected := Stamp(recv - Correction(h), arrivals);
      var x := state.s.sync;
      if x.Measuring? && x.id == h.sequenceId {
        if !h.twoStep || x.recv.Some? {
          return None;
        }
        state := Slave(state.s.(sync := x.(recv := Some(corrected))));
        out := HandleTimeMeasurement(mean);
      } else if h.twoStep {
        state := Slave(state.s.(sync := Measuring(h.sequenceId, None, Some(corrected))));
        out := None;
      } else {
        state := Slave(state.s.(sync := Measuring(h.sequenceId, Some(Stamp(origin, arrivals)), Some(corrected))));
        out := HandleTimeMeasurement(mean);
      }
    }

    method HandleFollowUp(h: Header, precise: int, mean: Option<int>) returns (out: Option<Output>)
      modifies this
      ensures Result(Model(), out) == AfterFollowUp(old(Model()), h, precise, mean)
    {
      if !state.Slave? || state.s.remote != h.source {
        return None;
      }
      var sent := Stamp(precise + Correction(h), arrivals);
      var x := state.s.sync;
      if x.Measuring? && x.id == h.sequenceId {
        if x.send.Some? {
          return None;
        }
        state := Slave(state.s.(sync := x.(send := Some(sent))));
      } else {
        state := Slave(state.s.(sync := Measuring(h.sequenceId, Some(sent), None)));
      }
      out := HandleTimeMeasurement(mean);
    }

    method HandleDelayTimestamp(id: u16, time: int, mean: Option<int>) returns (out: Option<Output>)
      modifies this
      ensures Result(Model(), out) == AfterDelayTimestamp(old(Model()), id, time, mean)
    {
      if !state.Slave? || !state.s.delay.Measuring? || state.s.delay.id != id || state.s.delay.send.Some? {
        return None;
      }
      state := Slave(state.s.(delay := state.s.delay.(send := Some(Stamp(time, arrivals)))));
      out := HandleTimeMeasurement(mean);
    }

    method HandleDelayResp(h: Header, requesting: PortIdentity, received: int, mean: Option<int>) returns (out: Option<Output>)
      modifies this
      ensures Result(Model(), out) == AfterDelayResp(old(Model()), h, requesting, received, mean)
    {
      if !state.Slave? || config.identity != requesting || state.s.remote != h.source {
        return None;
      }
      var x := state.s.delay;
      if !x.Measuring? || x.id != h.sequenceId || x.recv.Some? {
        return None;
      }
      state := Slave(state.s.(delay := x.(recv := Some(Stamp(received - Correction(h), arrivals)))));
      out := HandleTimeMeasurement(mean);
    }

    method HandlePeerTimestamp(id: u16, time: int, mean: Option<int>) returns (out: Option<Output>)
      modifies this
      ensures Result(Model(), out) == AfterPeerTimestamp(old(Model()), id, time, mean)
    {
      if !peer.PeerMeasuring? || peer.id != id || peer.requestSend.Some? {
        return None;
      }
      peer := peer.(requestSend := Some(Stamp(time, arrivals)));
      out := HandleTimeMeasurement(mean);
    }

    method HandlePeerResp(h: Header, requesting: PortIdentity, requestReceived: int, recv: int, mean: Option<int>)
        returns (out: Option<Output>)
      modifies this
      ensures Result(Model(), out) == AfterPeerResp(old(Model()), h, requesting, requestReceived, recv, mean)
    {
      out := None;
      if config.identity == requesting {
        if OtherResponder(peer, h) {
          SetForcedState(Faulty);
        } else if peer.PeerMeasuring? && peer.id == h.sequenceId && peer.responseRecv.None? {
          var received := Stamp(requestReceived, arrivals);
          peer := peer.(responseRecv := Some(Stamp(recv - Correction(h), arrivals)));
          peer := peer.(requestRecv := Some(received));
          peer := peer.(responder := Some(h.source));
          if !h.twoStep {
            peer := peer.(responseSend := Some(received));
          }
          out := HandleTimeMeasurement(mean);
        }
      }
    }

    method HandlePeerRespFollowUp(h: Header, requesting: PortIdentity, sent: int, mean: Option<int>) returns (out: Option<Output>)
      modifies this
      ensures Result(Model(), out) == AfterPeerRespFollowUp(old(Model()), h, requesting, sent, mean)
    {
      out := None;
      if config.identity == requesting {
        if OtherResponder(peer, h) {
          SetForcedState(Faulty);
        } else if peer.PeerMeasuring? && peer.id == h.sequenceId && peer.responseSend.None? {
          peer := peer.(responseSend := Some(Stamp(sent + Correction(h), arrivals)));
          peer := peer.(responder := Some(h.source));
          out := HandleTimeMeasurement(mean);
        }
      }
    }

    method SendDelayRequest()
      modifies this
      ensures Model() == AfterDelayRequest(old(Model()))
    {
      if config.peerToPeer {
        peer := PeerMeasuring(peerIds, None, None, None, None, None);
        peerIds := (peerIds + 1) % 0x1_0000;
        request := arrivals;
      } else if state.Slave? {
        state := Slave(state.s.(delay := Measuring(delayIds, None, None)));
        delayIds := (delayIds + 1) % 0x1_0000;
        request := arrivals;
      }
    }

    /** One event, dispatched to its handler and counted. */
    method Dispatch(e: Event, mean: Option<int>) returns (out: Option<Output>)
      modifies this
      ensures Result(Model(), out) == Step(old(Model()), e, mean)
    {
      out := None;
      match e {
        case Sync(h, origin, recv) => out := HandleSync(h, origin, recv, mean);
        case FollowUp(h, precise) => out := HandleFollowUp(h, precise, mean);
        case DelayRequest => SendDelayRequest();
        case DelayTimestamp(id, time) => out := HandleDelayTimestamp(id, time, mean);
        case DelayResp(h, requesting, received) => out := HandleDelayResp(h, requesting, received, mean);
        case PeerTimestamp(id, time) => out := HandlePeerTimestamp(id, time, mean);
        case PeerResp(h, requesting, requestReceived, recv) => out := HandlePeerResp(h, requesting, requestReceived, recv, mean);
        case PeerRespFollowUp(h, requesting, sent) => out := HandlePeerRespFollowUp(h, requesting, sent, mean);
        case BecomeSlave(remote) =>
          if !state.Faulty? && !(state.Slave? && state.s.remote == remote) {
            SetForcedState(Slave(SlaveState(remote, Empty, Empty, None)));
          }
        case BecomeListening => if !state.Listening? { SetForcedState(Listening); }
        case BecomeMaster => if !state.Master? { SetForcedState(Master); }
        case BecomePassive => if !state.Passive? { SetForcedState(Passive); }
        case FilterUpdate => if mean.Some? { meanDelay := mean; }
      }
      arrivals := arrivals + 1;
    }

    /** A whole run of the handlers: the samples it hands to the filters are accounted for. */
    method Run(events: seq<(Event, Option<int>)>) returns (outs: seq<Output>)
      requires Model() == NewPort(config)
      modifies this
      ensures Model() == HistoryOf(config, events).p && outs == HistoryOf(config, events).outs
      ensures Inv(HistoryOf(config, events))
    {
      outs := [];
      for i := 0 to |events|
        invariant Model() == HistoryOf(config, events[..i]).p && outs == HistoryOf(config, events[..i]).outs
      {
        assert events[..i + 1][..i] == events[..i];
        var out := Dispatch(events[i].0, events[i].1);
        if out.Some? {
          outs := outs + [out.value];
        }
      }
      assert events[..|events|] == events;
      RunsAreAccountedFor(config, events);
    }
  }

  // ----- messages of one exchange may arrive in any order -----

  /** Two events, the filter answering `mean` to whatever it is given. */
  function Steps2(p: Port, a: Event, b: Event, mean: Option<int>): (Port, Option<Sample>, Option<Sample>) {
    var r := Step(p, a, mean);
    var t := Step(r.port, b, mean);
    (t.port, SampleOf(r), SampleOf(t))
  }

  function SampleOf(r: Result): Option<Sample> { if r.out.Some? then Some(r.out.value.sample) else None }

  /** The slot does not already hold part of exchange `id`. */
  predicate FreshFor(x: Exchange, id: u16) { x.Measuring? ==> x.id != id }

  /** A two-step Sync and its FollowUp commute: one sample, the same sample, the same port. */
  lemma SyncOrder(p: Port, hs: Header, origin: int, recv: int, hf: Header, precise: int, mean: Option<int>)
    requires NothingComplete(p) && p.state.Slave? && FreshFor(p.state.s.sync, hs.sequenceId)
    requires hs.source == p.state.s.remote == hf.source && hs.sequenceId == hf.sequenceId && hs.twoStep
    ensures Steps2(p, Sync(hs, origin, recv), FollowUp(hf, precise), mean)
         == Steps2(p, FollowUp(hf, precise), Sync(hs, origin, recv), mean)
    ensures var r := Steps2(p, Sync(hs, origin, recv), FollowUp(hf, precise), mean);
            && r.1.None? && r.2.Some?
            && r.2.value.rawSync == Some(recv - Correction(hs) - (precise + Correction(hf)) - p.config.asymmetry)
  {}

  /** The timestamp of our own request and the answer to it commute. */
  lemma DelayOrder(p: Port, time: int, h: Header, received: int, mean: Option<int>)
    requires NothingComplete(p) && p.state.Slave? && p.state.s.delay == Measuring(h.sequenceId, None, None)
    requires h.source == p.state.s.remote
    ensures Steps2(p, DelayTimestamp(h.sequenceId, time), DelayResp(h, p.config.identity, received), mean)
         == Steps2(p, DelayResp(h, p.config.identity, received), DelayTimestamp(h.sequenceId, time), mean)
    ensures var r := Steps2(p, DelayTimestamp(h.sequenceId, time), DelayResp(h, p.config.identity, received), mean);
            && r.1.None? && r.2.Some?
            && r.2.value.rawDelay == Some(time - (received - Correction(h)) - p.config.asymmetry)
  {}

  /** One arrival of a peer exchange fills its part of the slot; the last one yields the sample. */
  lemma PeerStep(p: Port, e: Event, mean: Option<int>)
    requires NothingComplete(p) && p.peer.PeerMeasuring? && (e.PeerTimestamp? || e.PeerResp? || e.PeerRespFollowUp?)
    requires !e.PeerTimestamp? ==> e.requesting == p.config.identity && !OtherResponder(p.peer, e.h)
    ensures var s, r := PeerSlot(p.peer, e, p.arrivals), Step(p, e, mean);
            if !PeerComplete(s) then r == Result(p.(peer := s, arrivals := p.arrivals + 1), None)
            else && SampleOf(r) == Some(PeerSample(s)) && !r.port.state.Faulty?
                 && r.port.peer == PostMeasurement(s.id, s.responder.value)
  {
    HandleIsFeed(p, e, mean);
  }

  predicate PeerArrival(e: Event, own: PortIdentity, id: u16, source: PortIdentity) {
    || (e.PeerTimestamp? && e.id == id)
    || (e.PeerResp? && e.requesting == own && e.h.twoStep && e.h.sequenceId == id && e.h.source == source)
    || (e.PeerRespFollowUp? && e.requesting == own && e.h.sequenceId == id && e.h.source == source)
  }

  predicate SameKind(a: Event, b: Event) {
    a.PeerTimestamp? == b.PeerTimestamp? && a.PeerResp? == b.PeerResp?
  }

  function PeerDelayOf(time: int, hr: Header, requestReceived: int, recv: int, hf: Header, sent: int): Sample {
    NO_SAMPLE.(eventTime := recv - Correction(hr),
               peerDelay := Some(Half((recv - Correction(hr) - time) - (sent + Correction(hf) - requestReceived))))
  }

  /** The slot after one arrival of each kind, in any order. */
  lemma PeerSlots(s: PeerState, own: PortIdentity, id: u16, source: PortIdentity, a: Event, b: Event, c: Event, n: nat)
    requires s == PeerMeasuring(id, None, None, None, None, None)
    requires PeerArrival(a, own, id, source) && PeerArrival(b, own, id, source) && PeerArrival(c, own, id, source)
    requires !SameKind(a, b) && !SameKind(b, c) && !SameKind(a, c)
    ensures var s1 := PeerSlot(s, a, n);
            var s2 := PeerSlot(s1, b, n + 1);
            var s3 := PeerSlot(s2, c, n + 2);
            && s1.PeerMeasuring? && !PeerComplete(s1) && s2.PeerMeasuring? && !PeerComplete(s2) && PeerComplete(s3)
            && s1.id == s2.id == s3.id == id && s3.responder == Some(source)
            && (s1.responder.Some? ==> s1.responder.value == source) && (s2.responder.Some? ==> s2.responder.value == source)
            && forall x, y, z :: {x, y, z} == {a, b, c} && x.PeerTimestamp? && y.PeerResp? && z.PeerRespFollowUp? ==>
                 PeerSample(s3) == PeerDelayOf(x.time, y.h, y.requestReceived, y.recv, z.h, z.sent)
  {
    var s3 := PeerSlot(PeerSlot(PeerSlot(s, a, n), b, n + 1), c, n + 2);
    forall x, y, z | {x, y, z} == {a, b, c} && x.PeerTimestamp? && y.PeerResp? && z.PeerRespFollowUp?
      ensures PeerSample(s3) == PeerDelayOf(x.time, y.h, y.requestReceived, y.recv, z.h, z.sent)
    {
      assert x in {a, b, c} && y in {a, b, c} && z in {a, b, c};
    }
  }

  /** Three arrivals of a two-step peer exchange, one of each kind and in any order, are a sample when
      the third has come, and it does not depend on the order. */
  lemma PeerOrder(p: Port, id: u16, source: PortIdentity, a: Event, b: Event, c: Event, mean: Option<int>)
    requires NothingComplete(p) && p.peer == PeerMeasuring(id, None, None, None, None, None)
    requires PeerArrival(a, p.config.identity, id, source) && PeerArrival(b, p.config.identity, id, source)
    requires PeerArrival(c, p.config.identity, id, source) && !SameKind(a, b) && !SameKind(b, c) && !SameKind(a, c)
    ensures var q := Step(Step(p, a, mean).port, b, mean);
            var r := Step(q.port, c, mean);
            && Step(p, a, mean).out.None? && q.out.None? && r.out.Some?
            && r.port.peer == PostMeasurement(id, source) && !r.port.state.Faulty?
            && forall x, y, z :: {x, y, z} == {a, b, c} && x.PeerTimestamp? && y.PeerResp? && z.PeerRespFollowUp? ==>
                 SampleOf(r) == Some(PeerDelayOf(x.time, y.h, y.requestReceived, y.recv, z.h, z.sent))
  {
    PeerSlots(p.peer, p.config.identity, id, source, a, b, c, p.arrivals);
    PeerStep(p, a, mean);
    var p1 := p.(peer := PeerSlot(p.peer, a, p.arrivals), arrivals := p.arrivals + 1);
    PeerStep(p1, b, mean);
    var p2 := p1.(peer := PeerSlot(p1.peer, b, p1.arrivals), arrivals := p1.arrivals + 1);
    PeerStep(p2, c, mean);
  }
}
