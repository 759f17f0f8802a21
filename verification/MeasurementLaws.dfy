/** What the measurement handlers ignore, when they change filters and what they keep. */
module MeasurementLaws {
  import opened Prelude
  import opened DataSets
  import opened Measurement

  /** The event leaves no trace and yields no sample. */
  predicate Ignored(p: Port, e: Event, mean: Option<int>) {
    Step(p, e, mean) == Result(p.(arrivals := p.arrivals + 1), None)
  }

  predicate FromMaster(p: Port, h: Header) { p.state.Slave? && h.source == p.state.s.remote }

  /** The slot holds this part of this exchange. */
  predicate HasReceipt(x: Exchange, id: u16) { x.Measuring? && x.id == id && x.recv.Some? }

  predicate HasSend(x: Exchange, id: u16) { x.Measuring? && x.id == id && x.send.Some? }

  predicate Pending(x: Exchange, id: u16) { x.Measuring? && x.id == id }

  /** A Sync counts exactly if it comes from the master, was not seen before and, being one-step, does not
      meet a two-step exchange of its number. */
  lemma SyncIsIgnoredIff(p: Port, h: Header, origin: int, recv: int, mean: Option<int>)
    ensures Ignored(p, Sync(h, origin, recv), mean) <==>
              || !FromMaster(p, h)
              || (if h.twoStep then HasReceipt(p.state.s.sync, h.sequenceId) else Pending(p.state.s.sync, h.sequenceId))
  {}

  /** A FollowUp exactly if it comes from the master and is the first of its number. */
  lemma FollowUpIsIgnoredIff(p: Port, h: Header, precise: int, mean: Option<int>)
    requires p.state.Slave? ==> !Complete(p.state.s.sync)
    ensures Ignored(p, FollowUp(h, precise), mean) <==> !FromMaster(p, h) || HasSend(p.state.s.sync, h.sequenceId)
  {}

  /** A timestamp of our own, and an answer of the master to us, exactly for the request that waits for it. */
  lemma DelayIsIgnoredIff(p: Port, h: Header, requesting: PortIdentity, received: int, id: u16, time: int, mean: Option<int>)
    ensures Ignored(p, DelayTimestamp(id, time), mean) <==>
              !p.state.Slave? || !Pending(p.state.s.delay, id) || HasSend(p.state.s.delay, id)
    ensures Ignored(p, DelayResp(h, requesting, received), mean) <==>
              || !FromMaster(p, h) || requesting != p.config.identity
              || !Pending(p.state.s.delay, h.sequenceId) || HasReceipt(p.state.s.delay, h.sequenceId)
  {}

  /** A peer's answer to someone else leaves no trace, nor does one to an older request. */
  lemma StrayAnswersAreIgnored(p: Port, h: Header, requesting: PortIdentity, t: int, u: int, mean: Option<int>)
    requires requesting != p.config.identity || p.peer.NoPeer? || p.peer.id != h.sequenceId
    ensures Ignored(p, PeerResp(h, requesting, t, u), mean) && Ignored(p, PeerRespFollowUp(h, requesting, t), mean)
  {}

  /** A one-step Sync that is not ignored is an offset at once. */
  lemma OneStepSyncMeasures(p: Port, h: Header, origin: int, recv: int, mean: Option<int>)
    requires !PeerComplete(p.peer) && FromMaster(p, h) && !h.twoStep && !Pending(p.state.s.sync, h.sequenceId)
    ensures var r := Step(p, Sync(h, origin, recv), mean);
            var raw := recv - Correction(h) - origin - p.config.asymmetry;
            && r.out.Some? && r.out.value.sample.rawSync == Some(raw) && r.out.value.sample.eventTime == recv - Correction(h)
            && r.out.value.sample.offset == (if p.meanDelay.Some? then Some(raw - p.meanDelay.value) else None)
            && r.port.state.Slave? && r.port.state.s == p.state.s.(sync := Empty, lastRawSync := Some(raw))
  {}

  /** A peer that needs no time to answer, or corrects for it, answers in one message: with our timestamp,
      before or after it, half of the time it took is the delay. */
  lemma OneStepPeerMeasures(p: Port, id: u16, time: int, h: Header, received: int, recv: int, mean: Option<int>,
                            other: Option<int>)
    requires p.peer == PeerMeasuring(id, None, None, None, None, None) && h.sequenceId == id && !h.twoStep
    requires p.state.Slave? ==> !Complete(p.state.s.sync) && !Complete(p.state.s.delay)
    ensures var ours, theirs := PeerTimestamp(id, time), PeerResp(h, p.config.identity, received, recv);
            var first := Step(Step(p, ours, other).port, theirs, mean).out;
            var last := Step(Step(p, theirs, other).port, ours, mean).out;
            && first.Some? && last.Some? && first.value.sample == last.value.sample
            && first.value.sample.peerDelay == Some(Half(recv - Correction(h) - time))
            && first.value.sample.rawSync.None? && first.value.sample.rawDelay.None?
  {}

  /** Two different clocks have answered the same peer request. */
  predicate SecondResponder(p: Port, e: Event) {
    && (e.PeerResp? || e.PeerRespFollowUp?) && e.requesting == p.config.identity
    && ((p.peer.PostMeasurement? && p.peer.id == e.h.sequenceId && p.peer.peer != e.h.source)
        || (p.peer.PeerMeasuring? && p.peer.id == e.h.sequenceId && p.peer.responder.Some?
            && p.peer.responder.value != e.h.source))
  }

  /** A port is Faulty after an event exactly if a second peer answered its request, or it was Faulty and
      the event neither completes a peer exchange nor gives it another role. */
  lemma FaultyIff(p: Port, e: Event, mean: Option<int>)
    requires !PeerComplete(p.peer)
    ensures var r := Step(p, e, mean);
            r.port.state.Faulty? <==>
              || SecondResponder(p, e)
              || (p.state.Faulty? && r.out.None? && !e.BecomeListening? && !e.BecomeMaster? && !e.BecomePassive?)
  {
    match e
    case PeerTimestamp(_, _) =>
    case PeerResp(_, _, _, _) =>
    case PeerRespFollowUp(_, _, _) =>
    case Sync(_, _, _) =>
    case FollowUp(_, _) =>
    case DelayTimestamp(_, _) =>
    case DelayResp(_, _, _) =>
    case _ =>
  }

  /** Same role: for a Slave also the same master. */
  predicate SameRole(a: PortState, b: PortState) {
    match a
    case Slave(s) => b.Slave? && b.s.remote == s.remote
    case Faulty => b.Faulty?
    case Listening => b.Listening?
    case Master => b.Master?
    case Passive => b.Passive?
  }

  predicate Replaces(p: Port, e: Event, q: Port) {
    ((p.state.Slave? || p.state.Faulty?) && !SameRole(p.state, q.state)) || SecondResponder(p, e)
  }

  predicate OfPeer(e: Event) { e.PeerTimestamp? || e.PeerResp? || e.PeerRespFollowUp? }

  lemma FaultsAndFilter(p: Port, e: Event, mean: Option<int>)
    requires SecondResponder(p, e)
    ensures var q := Step(p, e, mean).port; q.state.Faulty? && q.filter == p.filter + 1
  {}

  lemma PeerEventsAndFilter(p: Port, e: Event, mean: Option<int>)
    requires !PeerComplete(p.peer) && OfPeer(e)
    ensures var q := Step(p, e, mean).port; q.filter == p.filter + if Replaces(p, e, q) then 1 else 0
  {
    if SecondResponder(p, e) {
      FaultsAndFilter(p, e, mean);
    }
  }

  lemma OtherEventsAndFilter(p: Port, e: Event, mean: Option<int>)
    requires !PeerComplete(p.peer) && !OfPeer(e)
    ensures var q := Step(p, e, mean).port; q.filter == p.filter + if Replaces(p, e, q) then 1 else 0
  {}

  /** The filter is replaced, and once, exactly when the port leaves a master or a fault, or meets one. */
  lemma FilterIsReplacedIff(p: Port, e: Event, mean: Option<int>)
    requires !PeerComplete(p.peer)
    ensures var q := Step(p, e, mean).port; q.filter == p.filter + if Replaces(p, e, q) then 1 else 0
  {
    if OfPeer(e) {
      PeerEventsAndFilter(p, e, mean);
    } else {
      OtherEventsAndFilter(p, e, mean);
    }
  }

  /** Half of a duration, rounded towards zero. */
  lemma HalfRoundsToZero(x: int)
    ensures (x >= 0 ==> 0 <= x - 2 * Half(x) <= 1) && (x <= 0 ==> -1 <= x - 2 * Half(x) <= 0)
  {}

  /** A new stay in Slave starts with nothing measured, and a Faulty port starts none. */
  lemma BecomingSlave(p: Port, remote: PortIdentity, mean: Option<int>)
    ensures var q := Step(p, BecomeSlave(remote), mean).port;
            if p.state.Faulty? || (p.state.Slave? && p.state.s.remote == remote) then q.state == p.state
            else && q.state.Slave? && q.state.s.remote == remote && q.state.s.sync.Empty? && q.state.s.delay.Empty?
                 && q.state.s.lastRawSync.None?
  {}

  /** The mean delay is the last one the filter answered, to a sample or of itself. */
  lemma MeanDelayIff(p: Port, e: Event, mean: Option<int>)
    ensures var r := Step(p, e, mean);
            r.port.meanDelay == if mean.Some? && (r.out.Some? || e.FilterUpdate?) then mean else p.meanDelay
  {}

  /** Request numbers count up from zero and wrap, and never collide with the one before. */
  lemma RequestsCount(p: Port, mean: Option<int>)
    ensures var q := Step(p, DelayRequest, mean).port;
            && (p.config.peerToPeer ==>
                  && q.peer == PeerMeasuring(p.peerIds, None, None, None, None, None) && q.delayIds == p.delayIds
                  && q.peerIds == (if p.peerIds == 0xFFFF then 0 else p.peerIds + 1) && q.state == p.state)
            && (!p.config.peerToPeer && p.state.Slave? ==>
                  && q.state.Slave? && q.state.s == p.state.s.(delay := Measuring(p.delayIds, None, None)) && q.peer == p.peer
                  && q.delayIds == (if p.delayIds == 0xFFFF then 0 else p.delayIds + 1) && q.peerIds == p.peerIds)
            && (!p.config.peerToPeer && !p.state.Slave? ==> Ignored(p, DelayRequest, mean))
  {}
}
