/** Where every sample comes from, over whole runs of a port. */
module Provenance {
  import opened Prelude
  import opened DataSets
  import opened Measurement

  /** A port, all arrivals so far, all samples so far, and the arrivals those samples used. */
  datatype History = History(p: Port, log: seq<Event>, outs: seq<Output>, used: set<nat>)

  // ----- what an arrival says -----

  predicate IsFollowUp(e: Event, remote: PortIdentity, id: u16, time: int) {
    e.FollowUp? && e.h.source == remote && e.h.sequenceId == id && time == e.precise + Correction(e.h)
  }

  predicate IsSync(e: Event, remote: PortIdentity, id: u16, twoStep: bool, time: int) {
    && e.Sync? && e.h.source == remote && e.h.sequenceId == id && e.h.twoStep == twoStep
    && time == e.recv - Correction(e.h)
  }

  predicate IsDelayResp(e: Event, own: PortIdentity, remote: PortIdentity, id: u16, time: int) {
    && e.DelayResp? && e.requesting == own && e.h.source == remote && e.h.sequenceId == id
    && time == e.received - Correction(e.h)
  }

  predicate IsPeerResp(e: Event, own: PortIdentity, responder: PortIdentity, id: u16) {
    e.PeerResp? && e.requesting == own && e.h.source == responder && e.h.sequenceId == id
  }

  predicate IsPeerSend(e: Event, own: PortIdentity, responder: PortIdentity, id: u16, time: int) {
    || (IsPeerResp(e, own, responder, id) && !e.h.twoStep && time == e.requestReceived)
    || (e.PeerRespFollowUp? && e.requesting == own && e.h.source == responder && e.h.sequenceId == id
        && time == e.sent + Correction(e.h))
  }

  // ----- what the slots hold -----

  /** Arrival n came after `from` and has not been used by any sample. */
  predicate Unused(log: seq<Event>, used: set<nat>, from: nat, n: nat) {
    from < n < |log| && n !in used
  }

  ghost predicate SyncOk(x: Exchange, remote: PortIdentity, stay: nat, log: seq<Event>, used: set<nat>) {
    x.Measuring? ==>
      && (x.send.Some? ==> Unused(log, used, stay, x.send.value.src))
      && (x.recv.Some? ==> Unused(log, used, stay, x.recv.value.src))
      && (|| (&& x.send.Some? && x.recv.Some? && x.send.value.src == x.recv.value.src
              && IsSync(log[x.recv.value.src], remote, x.id, false, x.recv.value.time)
              && x.send.value.time == log[x.recv.value.src].origin)
          || (&& (x.send.Some? ==> IsFollowUp(log[x.send.value.src], remote, x.id, x.send.value.time))
              && (x.recv.Some? ==> IsSync(log[x.recv.value.src], remote, x.id, true, x.recv.value.time))))
  }

  /** From n on there was no later delay request. */
  ghost predicate LatestRequest(log: seq<Event>, n: nat) {
    n < |log| && log[n].DelayRequest? && forall k :: n < k < |log| ==> !log[k].DelayRequest?
  }

  ghost predicate DelayOk(p: Port, s: SlaveState, log: seq<Event>, used: set<nat>) {
    s.delay.Measuring? ==>
      && p.stay < p.request && LatestRequest(log, p.request) && (s.delay.id + 1) % 0x1_0000 == p.delayIds
      && (s.delay.send.Some? ==>
            && Unused(log, used, p.request, s.delay.send.value.src)
            && log[s.delay.send.value.src] == DelayTimestamp(s.delay.id, s.delay.send.value.time))
      && (s.delay.recv.Some? ==>
            && Unused(log, used, p.request, s.delay.recv.value.src)
            && IsDelayResp(log[s.delay.recv.value.src], p.config.identity, s.remote, s.delay.id, s.delay.recv.value.time))
  }

  ghost predicate PeerOk(p: Port, log: seq<Event>, used: set<nat>) {
    p.peer.PeerMeasuring? ==>
      var s, own := p.peer, p.config.identity;
      && LatestRequest(log, p.request) && (s.id + 1) % 0x1_0000 == p.peerIds
      && (s.responseRecv.Some? || s.responseSend.Some? ==> s.responder.Some?)
      && (s.requestRecv.Some? <==> s.responseRecv.Some?)
      && (s.requestSend.Some? ==>
            && Unused(log, used, p.request, s.requestSend.value.src)
            && log[s.requestSend.value.src] == PeerTimestamp(s.id, s.requestSend.value.time))
      && (s.responseRecv.Some? ==>
            var n := s.responseRecv.value.src;
            && Unused(log, used, p.request, n) && s.requestRecv.value.src == n
            && IsPeerResp(log[n], own, s.responder.value, s.id)
            && s.responseRecv.value.time == log[n].recv - Correction(log[n].h)
            && s.requestRecv.value.time == log[n].requestReceived)
      && (s.responseSend.Some? ==>
            && Unused(log, used, p.request, s.responseSend.value.src)
            && IsPeerSend(log[s.responseSend.value.src], own, s.responder.value, s.id, s.responseSend.value.time))
  }

  ghost predicate SlotsOk(p: Port, log: seq<Event>, used: set<nat>) {
    && PeerOk(p, log, used)
    && (p.state.Slave? ==>
          && p.stay < |log| && log[p.stay] == BecomeSlave(p.state.s.remote)
          && SyncOk(p.state.s.sync, p.state.s.remote, p.stay, log, used)
          && DelayOk(p, p.state.s, log, used))
  }

  /** No exchange is left complete: whatever could be computed has been. */
  predicate NothingComplete(p: Port) {
    !PeerComplete(p.peer) && (p.state.Slave? ==> !Complete(p.state.s.sync) && !Complete(p.state.s.delay))
  }

  predicate OneComplete(p: Port) {
    && (PeerComplete(p.peer) && p.state.Slave? ==> !Complete(p.state.s.sync) && !Complete(p.state.s.delay))
    && (p.state.Slave? ==> !(Complete(p.state.s.sync) && Complete(p.state.s.delay)))
  }

  // ----- what the samples are -----

  /** A sync offset: a Sync and its FollowUp, or a one-step Sync, of one sequence number, from the
      master that began the stay, received during the stay. */
  ghost predicate SyncOutputOk(config: Config, log: seq<Event>, o: Output)
    requires o.evidence.FromSync?
  {
    var id, a, b := o.evidence.id, o.evidence.send, o.evidence.recv;
    && o.stay < a < |log| && o.stay < b < |log| && log[o.stay].BecomeSlave?
    && var remote := log[o.stay].remote;
    && IsSync(log[b], remote, id, a != b, o.sample.eventTime)
    && (a != b ==> log[a].FollowUp? && IsFollowUp(log[a], remote, id, log[a].precise + Correction(log[a].h)))
    && o.sample.rawSync == Some(
         o.sample.eventTime - (if a == b then log[b].origin else log[a].precise + Correction(log[a].h)) - config.asymmetry)
    && o.sample.rawDelay.None? && o.sample.peerDelay.None?
  }

  /** A delay offset: our timestamp and the master's answer to the latest request of this stay. */
  ghost predicate DelayOutputOk(config: Config, log: seq<Event>, o: Output)
    requires o.evidence.FromDelay?
  {
    var id, r, a, b := o.evidence.id, o.evidence.request, o.evidence.send, o.evidence.recv;
    && o.stay < r < a < |log| && r < b < |log| && log[o.stay].BecomeSlave?
    && log[r].DelayRequest? && (forall k :: r < k <= a || r < k <= b ==> !log[k].DelayRequest?)
    && log[a] == DelayTimestamp(id, o.sample.eventTime)
    && log[b].DelayResp? && IsDelayResp(log[b], config.identity, log[o.stay].remote, id, log[b].received - Correction(log[b].h))
    && o.sample.rawDelay == Some(o.sample.eventTime - (log[b].received - Correction(log[b].h)) - config.asymmetry)
    && o.sample.rawSync.None? && o.sample.peerDelay.None?
  }

  /** A peer delay: our timestamp and one responder's answers to the latest request. */
  ghost predicate PeerOutputOk(config: Config, log: seq<Event>, o: Output)
    requires o.evidence.FromPeer?
  {
    var e := o.evidence;
    var r, a, b, c, d := e.request, e.requestSend, e.requestRecv, e.responseSend, e.responseRecv;
    && r < a < |log| && r < c < |log| && r < d < |log| && b == d
    && log[r].DelayRequest? && (forall k :: r < k <= a || r < k <= c || r < k <= d ==> !log[k].DelayRequest?)
    && log[a].PeerTimestamp? && log[a].id == e.id
    && IsPeerResp(log[d], config.identity, e.responder, e.id)
    && o.sample.eventTime == log[d].recv - Correction(log[d].h)
    && (exists sent :: && IsPeerSend(log[c], config.identity, e.responder, e.id, sent)
                       && o.sample.peerDelay == Some(Half((o.sample.eventTime - log[a].time) - (sent - log[d].requestReceived))))
    && o.sample.rawSync.None? && o.sample.rawDelay.None?
  }

  ghost predicate OutputOk(config: Config, log: seq<Event>, o: Output) {
    match o.evidence
    case FromSync(_, _, _) => SyncOutputOk(config, log, o)
    case FromDelay(_, _, _, _) => DelayOutputOk(config, log, o)
    case FromPeer(_, _, _, _, _, _, _) => PeerOutputOk(config, log, o)
  }

  predicate IsRaw(o: Output) { o.evidence.FromSync? || o.evidence.FromDelay? }

  /** Every sample is accounted for, no arrival serves two samples, and the raw offsets one filter
      has seen come from one stay in Slave. */
  ghost predicate OutsOk(p: Port, log: seq<Event>, outs: seq<Output>, used: set<nat>) {
    && (forall n :: n in used ==> n < |log|)
    && (forall i :: 0 <= i < |outs| ==> OutputOk(p.config, log, outs[i]) && outs[i].filter <= p.filter)
    && (forall i :: 0 <= i < |outs| ==> outs[i].evidence.Sources() <= used)
    && (forall i, j :: 0 <= i < j < |outs| ==> outs[i].evidence.Sources() !! outs[j].evidence.Sources())
    && (forall i, j :: 0 <= i < j < |outs| && IsRaw(outs[i]) && IsRaw(outs[j]) && outs[i].filter == outs[j].filter ==>
          outs[i].stay == outs[j].stay)
    && (forall i :: 0 <= i < |outs| && IsRaw(outs[i]) && outs[i].filter == p.filter ==>
          p.state.Slave? && outs[i].stay == p.stay)
  }

  ghost predicate Inv(h: History) {
    && h.p.arrivals == |h.log|
    && SlotsOk(h.p, h.log, h.used) && NothingComplete(h.p) && MechanismOk(h.p)
    && OutsOk(h.p, h.log, h.outs, h.used)
  }

  /** Each delay mechanism leaves the other's slot alone, and only peer-to-peer ports fault. */
  predicate MechanismOk(p: Port) {
    if p.config.peerToPeer then p.state.Slave? ==> p.state.s.delay.Empty?
    else p.peer.NoPeer? && !p.state.Faulty?
  }

  // ----- samples so far -----

  lemma OutputOkGrows(config: Config, log: seq<Event>, e: Event, o: Output)
    requires OutputOk(config, log, o)
    ensures OutputOk(config, log + [e], o)
  {
    var more := log + [e];
    assert forall k :: 0 <= k < |log| ==> more[k] == log[k];
    match o.evidence
    case FromSync(_, _, _) =>
    case FromDelay(_, r, a, b) => assert DelayOutputOk(config, more, o);
    case FromPeer(_, _, _, a, b, c, d) =>
      var sent :| && IsPeerSend(log[c], config.identity, o.evidence.responder, o.evidence.id, sent)
                  && o.sample.peerDelay == Some(Half((o.sample.eventTime - log[a].time) - (sent - log[d].requestReceived)));
      assert IsPeerSend(more[c], config.identity, o.evidence.responder, o.evidence.id, sent);
  }

  /** The port moved on without a sample: as long as it is the same stay, or a new filter. */
  predicate MovesOn(p: Port, q: Port) {
    && q.config == p.config && q.filter >= p.filter
    && (q.filter == p.filter && p.state.Slave? ==> q.state.Slave? && q.stay == p.stay)
  }

  lemma OutsGrow(p: Port, q: Port, log: seq<Event>, outs: seq<Output>, used: set<nat>, e: Event)
    requires OutsOk(p, log, outs, used) && MovesOn(p, q)
    ensures OutsOk(q, log + [e], outs, used)
  {
    forall i | 0 <= i < |outs| ensures OutputOk(q.config, log + [e], outs[i]) {
      OutputOkGrows(p.config, log, e, outs[i]);
    }
  }

  lemma OutsAdd(p: Port, q: Port, log: seq<Event>, outs: seq<Output>, used: set<nat>, o: Output)
    requires OutsOk(p, log, outs, used) && MovesOn(p, q)
    requires OutputOk(p.config, log, o) && o.filter == q.filter && (IsRaw(o) ==> q.state.Slave? && o.stay == q.stay)
    requires IsRaw(o) ==> p.state.Slave? && p.filter == q.filter
    requires o.evidence.Sources() !! used && forall n :: n in o.evidence.Sources() ==> n < |log|
    ensures OutsOk(q, log, outs + [o], used + o.evidence.Sources())
  {
    var more := outs + [o];
    forall i, j | 0 <= i < j < |more| ensures more[i].evidence.Sources() !! more[j].evidence.Sources() {
      assert more[i].evidence.Sources() <= used;
    }
  }

  // ----- the slots -----

  /** An event that writes no slot only makes the log longer. */
  lemma SlotsGrow(p: Port, log: seq<Event>, used: set<nat>, e: Event)
    requires SlotsOk(p, log, used) && !e.DelayRequest?
    ensures SlotsOk(p, log + [e], used)
  {
    assert forall k :: 0 <= k < |log| ==> (log + [e])[k] == log[k];
  }

  ghost function UsedAfter(used: set<nat>, out: Option<Output>): set<nat> {
    if out.Some? then used + out.value.evidence.Sources() else used
  }

  ghost function OutsAfter(outs: seq<Output>, out: Option<Output>): seq<Output> {
    if out.Some? then outs + [out.value] else outs
  }

  lemma SyncExtracted(p: Port, log: seq<Event>, used: set<nat>)
    requires SlotsOk(p, log, used) && !PeerComplete(p.peer) && p.state.Slave? && Complete(p.state.s.sync)
    ensures var r := Extracted(p);
            && r.out.Some? && OutputOk(p.config, log, r.out.value) && r.out.value.evidence.Sources() !! used
            && (forall n :: n in r.out.value.evidence.Sources() ==> n < |log|)
            && SlotsOk(r.port, log, UsedAfter(used, r.out))
  {
    var o := Extracted(p).out.value;
    assert SyncOutputOk(p.config, log, o);
    assert forall n :: n in o.evidence.Sources() ==> log[n].Sync? || log[n].FollowUp?;
  }

  lemma DelayExtracted(p: Port, log: seq<Event>, used: set<nat>)
    requires SlotsOk(p, log, used) && !PeerComplete(p.peer) && p.state.Slave?
    requires !Complete(p.state.s.sync) && Complete(p.state.s.delay)
    ensures var r := Extracted(p);
            && r.out.Some? && OutputOk(p.config, log, r.out.value) && r.out.value.evidence.Sources() !! used
            && (forall n :: n in r.out.value.evidence.Sources() ==> n < |log|)
            && SlotsOk(r.port, log, UsedAfter(used, r.out))
  {
    var o := Extracted(p).out.value;
    assert DelayOutputOk(p.config, log, o);
    assert forall n :: n in o.evidence.Sources() ==> log[n].DelayTimestamp? || log[n].DelayResp?;
  }

  lemma PeerExtracted(p: Port, log: seq<Event>, used: set<nat>)
    requires SlotsOk(p, log, used) && PeerComplete(p.peer)
    ensures var r := Extracted(p);
            && r.out.Some? && OutputOk(p.config, log, r.out.value) && r.out.value.evidence.Sources() !! used
            && (forall n :: n in r.out.value.evidence.Sources() ==> n < |log|)
            && SlotsOk(r.port, log, UsedAfter(used, r.out))
  {
    var o := Extracted(p).out.value;
    var e := o.evidence;
    assert IsPeerSend(log[e.responseSend], p.config.identity, e.responder, e.id, p.peer.responseSend.value.time);
    assert PeerOutputOk(p.config, log, o);
    assert forall n :: n in e.Sources() ==> log[n].PeerTimestamp? || log[n].PeerResp? || log[n].PeerRespFollowUp?;
  }

  /** Whatever is complete is turned into one sample; what remains is in order. */
  lemma FedSlots(p: Port, log: seq<Event>, used: set<nat>, mean: Option<int>)
    requires SlotsOk(p, log, used) && OneComplete(p) && MechanismOk(p)
    ensures var r := Fed(p, mean);
            SlotsOk(r.port, log, UsedAfter(used, r.out)) && NothingComplete(r.port) && MechanismOk(r.port)
  {
    if PeerComplete(p.peer) {
      PeerExtracted(p, log, used);
    } else if p.state.Slave? && Complete(p.state.s.sync) {
      SyncExtracted(p, log, used);
    } else if p.state.Slave? && Complete(p.state.s.delay) {
      DelayExtracted(p, log, used);
    }
  }

  lemma FedOuts(p: Port, log: seq<Event>, outs: seq<Output>, used: set<nat>, mean: Option<int>)
    requires SlotsOk(p, log, used) && OutsOk(p, log, outs, used)
    ensures var r := Fed(p, mean); OutsOk(r.port, log, OutsAfter(outs, r.out), UsedAfter(used, r.out))
  {
    var r := Fed(p, mean);
    if PeerComplete(p.peer) {
      PeerExtracted(p, log, used);
    } else if p.state.Slave? && Complete(p.state.s.sync) {
      SyncExtracted(p, log, used);
    } else if p.state.Slave? && Complete(p.state.s.delay) {
      DelayExtracted(p, log, used);
    }
    if r.out.Some? {
      OutsAdd(p, r.port, log, outs, used, r.out.value);
    }
  }

  // ----- the handlers: each writes one slot with the new arrival, then feeds what is complete -----

  function SyncSlot(x: Exchange, h: Header, origin: int, recv: int, n: nat): Exchange {
    var got := Some(Stamp(recv - Correction(h), n));
    if x.Measuring? && x.id == h.sequenceId then
      if h.twoStep && x.recv.None? then x.(recv := got) else x
    else Measuring(h.sequenceId, if h.twoStep then None else Some(Stamp(origin, n)), got)
  }

  function FollowUpSlot(x: Exchange, h: Header, precise: int, n: nat): Exchange {
    var sent := Some(Stamp(precise + Correction(h), n));
    if x.Measuring? && x.id == h.sequenceId then
      if x.send.None? then x.(send := sent) else x
    else Measuring(h.sequenceId, sent, None)
  }

  function DelaySlot(p: Port, x: Exchange, e: Event): Exchange {
    if e.DelayTimestamp? && x.Measuring? && x.id == e.id && x.send.None?
    then x.(send := Some(Stamp(e.time, p.arrivals)))
    else if && e.DelayResp? && p.config.identity == e.requesting && p.state.Slave? && p.state.s.remote == e.h.source
            && x.Measuring? && x.id == e.h.sequenceId && x.recv.None?
    then x.(recv := Some(Stamp(e.received - Correction(e.h), p.arrivals)))
    else x
  }

  function PeerSlot(s: PeerState, e: Event, n: nat): PeerState {
    if !s.PeerMeasuring? then s
    else if e.PeerTimestamp? && s.id == e.id && s.requestSend.None? then s.(requestSend := Some(Stamp(e.time, n)))
    else if e.PeerResp? && s.id == e.h.sequenceId && s.responseRecv.None? then
      var received := Some(Stamp(e.requestReceived, n));
      s.(responseRecv := Some(Stamp(e.recv - Correction(e.h), n)), requestRecv := received, responder := Some(e.h.source),
         responseSend := if e.h.twoStep then s.responseSend else received)
    else if e.PeerRespFollowUp? && s.id == e.h.sequenceId && s.responseSend.None? then
      s.(responseSend := Some(Stamp(e.sent + Correction(e.h), n)), responder := Some(e.h.source))
    else s
  }

  /** The port once the event is written down and before anything is computed from it. */
  function Noted(p: Port, e: Event): Port {
    match e
    case Sync(h, origin, recv) =>
      if p.state.Slave? && p.state.s.remote == h.source
      then WithSync(p, SyncSlot(p.state.s.sync, h, origin, recv, p.arrivals)) else p
    case FollowUp(h, precise) =>
      if p.state.Slave? && p.state.s.remote == h.source
      then WithSync(p, FollowUpSlot(p.state.s.sync, h, precise, p.arrivals)) else p
    case DelayTimestamp(_, _) => if p.state.Slave? then WithDelay(p, DelaySlot(p, p.state.s.delay, e)) else p
    case DelayResp(_, _, _) => if p.state.Slave? then WithDelay(p, DelaySlot(p, p.state.s.delay, e)) else p
    case PeerTimestamp(_, _) => p.(peer := PeerSlot(p.peer, e, p.arrivals))
    case PeerResp(h, requesting, _, _) =>
      if p.config.identity != requesting then p
      else if OtherResponder(p.peer, h) then Forced(p, Faulty)
      else p.(peer := PeerSlot(p.peer, e, p.arrivals))
    case PeerRespFollowUp(h, requesting, _) =>
      if p.config.identity != requesting then p
      else if OtherResponder(p.peer, h) then Forced(p, Faulty)
      else p.(peer := PeerSlot(p.peer, e, p.arrivals))
    case _ => Handle(p, e, None).port
  }

  /** Every handler computes all that its event completes, and nothing it does not. */
  lemma HandleIsFeed(p: Port, e: Event, mean: Option<int>)
    requires NothingComplete(p) && !e.FilterUpdate?
    ensures Handle(p, e, mean) == Fed(Noted(p, e), mean)
    ensures OneComplete(Noted(p, e))
  {}

  lemma NotedMovesOn(p: Port, e: Event)
    requires MechanismOk(p)
    ensures MechanismOk(Noted(p, e)) && MovesOn(p, Noted(p, e)) && Noted(p, e).arrivals == p.arrivals
  {}

  ghost predicate Past(log: seq<Event>, used: set<nat>) { forall n :: n in used ==> n < |log| }

  lemma SyncFits(x: Exchange, h: Header, origin: int, recv: int, stay: nat, log: seq<Event>, used: set<nat>)
    requires SyncOk(x, h.source, stay, log, used) && !Complete(x) && stay < |log| && Past(log, used)
    ensures SyncOk(SyncSlot(x, h, origin, recv, |log|), h.source, stay, log + [Sync(h, origin, recv)], used)
  {
    assert (log + [Sync(h, origin, recv)])[|log|] == Sync(h, origin, recv);
  }

  lemma FollowUpFits(x: Exchange, h: Header, precise: int, stay: nat, log: seq<Event>, used: set<nat>)
    requires SyncOk(x, h.source, stay, log, used) && !Complete(x) && stay < |log| && Past(log, used)
    ensures SyncOk(FollowUpSlot(x, h, precise, |log|), h.source, stay, log + [FollowUp(h, precise)], used)
  {
    assert (log + [FollowUp(h, precise)])[|log|] == FollowUp(h, precise);
  }

  lemma DelayFits(p: Port, log: seq<Event>, used: set<nat>, e: Event)
    requires p.state.Slave? && DelayOk(p, p.state.s, log, used) && p.arrivals == |log| && Past(log, used)
    requires e.DelayTimestamp? || e.DelayResp?
    ensures var q := WithDelay(p, DelaySlot(p, p.state.s.delay, e)); DelayOk(q, q.state.s, log + [e], used)
  {
    assert (log + [e])[|log|] == e;
  }

  lemma PeerFits(p: Port, log: seq<Event>, used: set<nat>, e: Event)
    requires PeerOk(p, log, used) && p.arrivals == |log| && Past(log, used) && !e.DelayRequest?
    requires e.PeerResp? || e.PeerRespFollowUp? ==> p.config.identity == e.requesting && !OtherResponder(p.peer, e.h)
    ensures PeerOk(p.(peer := PeerSlot(p.peer, e, p.arrivals)), log + [e], used)
  {
    assert (log + [e])[|log|] == e;
  }

  lemma RequestFits(p: Port, log: seq<Event>, used: set<nat>)
    requires SlotsOk(p, log, used) && MechanismOk(p) && p.arrivals == |log| && Past(log, used)
    ensures SlotsOk(AfterDelayRequest(p), log + [DelayRequest], used)
  {
    assert forall k :: 0 <= k < |log| ==> (log + [DelayRequest])[k] == log[k];
  }

  lemma NotedFits(p: Port, log: seq<Event>, used: set<nat>, e: Event)
    requires SlotsOk(p, log, used) && NothingComplete(p) && MechanismOk(p) && p.arrivals == |log| && Past(log, used)
    ensures SlotsOk(Noted(p, e), log + [e], used)
  {
    if e.DelayRequest? {
      RequestFits(p, log, used);
    } else {
      SlotsGrow(p, log, used, e);
      match e
      case Sync(h, origin, recv) =>
        if p.state.Slave? && p.state.s.remote == h.source {
          SyncFits(p.state.s.sync, h, origin, recv, p.stay, log, used);
        }
      case FollowUp(h, precise) =>
        if p.state.Slave? && p.state.s.remote == h.source {
          FollowUpFits(p.state.s.sync, h, precise, p.stay, log, used);
        }
      case DelayTimestamp(_, _) =>
        if p.state.Slave? {
          DelayFits(p, log, used, e);
        }
      case DelayResp(_, _, _) =>
        if p.state.Slave? {
          DelayFits(p, log, used, e);
        }
      case PeerTimestamp(_, _) => PeerFits(p, log, used, e);
      case PeerResp(h, requesting, _, _) =>
        if p.config.identity == requesting && !OtherResponder(p.peer, h) {
          PeerFits(p, log, used, e);
        }
      case PeerRespFollowUp(h, requesting, _) =>
        if p.config.identity == requesting && !OtherResponder(p.peer, h) {
          PeerFits(p, log, used, e);
        }
      case _ =>
    }
  }

  ghost function After(h: History, e: Event, mean: Option<int>): History {
    var r := Step(h.p, e, mean);
    History(r.port, h.log + [e], OutsAfter(h.outs, r.out), UsedAfter(h.used, r.out))
  }

  lemma CountingKeeps(p: Port, q: Port, log: seq<Event>, outs: seq<Output>, used: set<nat>)
    requires SlotsOk(p, log, used) && NothingComplete(p) && MechanismOk(p) && OutsOk(p, log, outs, used)
    requires q == p.(arrivals := |log|, meanDelay := q.meanDelay)
    ensures Inv(History(q, log, outs, used))
  {}

  lemma HandleSlots(p: Port, log: seq<Event>, used: set<nat>, e: Event, mean: Option<int>)
    requires SlotsOk(p, log, used) && NothingComplete(p) && MechanismOk(p) && p.arrivals == |log| && Past(log, used)
    ensures var r := Handle(p, e, mean);
            && SlotsOk(r.port, log + [e], UsedAfter(used, r.out)) && NothingComplete(r.port) && MechanismOk(r.port)
            && r.port.config == p.config
  {
    NotedFits(p, log, used, e);
    if !e.FilterUpdate? {
      NotedMovesOn(p, e);
      HandleIsFeed(p, e, mean);
      FedSlots(Noted(p, e), log + [e], used, mean);
    }
  }

  lemma HandleOuts(h: History, e: Event, mean: Option<int>)
    requires Inv(h)
    ensures var r := Handle(h.p, e, mean); OutsOk(r.port, h.log + [e], OutsAfter(h.outs, r.out), UsedAfter(h.used, r.out))
  {
    var q := Noted(h.p, e);
    NotedMovesOn(h.p, e);
    OutsGrow(h.p, q, h.log, h.outs, h.used, e);
    if !e.FilterUpdate? {
      NotedFits(h.p, h.log, h.used, e);
      HandleIsFeed(h.p, e, mean);
      FedOuts(q, h.log + [e], h.outs, h.used, mean);
    }
  }

  lemma StepKeepsInv(h: History, e: Event, mean: Option<int>)
    requires Inv(h)
    ensures Inv(After(h, e, mean)) && After(h, e, mean).p.config == h.p.config
  {
    var r := Handle(h.p, e, mean);
    HandleSlots(h.p, h.log, h.used, e, mean);
    HandleOuts(h, e, mean);
    CountingKeeps(r.port, Step(h.p, e, mean).port, h.log + [e], OutsAfter(h.outs, r.out), UsedAfter(h.used, r.out));
  }

  // ----- whole runs -----

  ghost function HistoryOf(config: Config, events: seq<(Event, Option<int>)>): History {
    if |events| == 0 then History(NewPort(config), [], [], {})
    else
      var last := events[|events| - 1];
      After(HistoryOf(config, events[..|events| - 1]), last.0, last.1)
  }

  /** In every run: no exchange is left complete between events; every sample is accounted for by
      arrivals of one exchange; no arrival serves two samples; the raw offsets of one filter come from
      one stay in Slave; and an end-to-end port never becomes Faulty. */
  lemma {:induction false} RunsAreAccountedFor(config: Config, events: seq<(Event, Option<int>)>)
    ensures Inv(HistoryOf(config, events)) && HistoryOf(config, events).p.config == config
  {
    if |events| > 0 {
      var last := events[|events| - 1];
      RunsAreAccountedFor(config, events[..|events| - 1]);
      StepKeepsInv(HistoryOf(config, events[..|events| - 1]), last.0, last.1);
    }
  }

  // ----- delays combine offsets of one stay -----

  /** The sync offset measured last during a stay, if there was one. */
  ghost function LastSync(outs: seq<Output>, stay: nat): Option<int> {
    if |outs| == 0 then None
    else
      var last := outs[|outs| - 1];
      if last.evidence.FromSync? && last.stay == stay then last.sample.rawSync else LastSync(outs[..|outs| - 1], stay)
  }

  /** A measured delay is half the latest sync offset of the same stay minus the delay offset; before
      the first sync of a stay there is none. */
  ghost predicate Paired(outs: seq<Output>, i: nat)
    requires i < |outs|
  {
    outs[i].evidence.FromDelay? ==>
      var last := LastSync(outs[..i], outs[i].stay);
      && outs[i].sample.rawDelay.Some?
      && outs[i].sample.delay == if last.Some? then Some(Half(last.value - outs[i].sample.rawDelay.value)) else None
  }

  ghost predicate PairedSoFar(p: Port, outs: seq<Output>) {
    && (p.state.Slave? ==> p.state.s.lastRawSync == LastSync(outs, p.stay))
    && forall i :: 0 <= i < |outs| ==> Paired(outs, i)
  }

  lemma {:induction false} NothingYet(config: Config, log: seq<Event>, outs: seq<Output>, stay: nat)
    requires |log| <= stay && forall i :: 0 <= i < |outs| ==> OutputOk(config, log, outs[i])
    ensures LastSync(outs, stay) == None
  {
    if |outs| > 0 {
      NothingYet(config, log, outs[..|outs| - 1], stay);
    }
  }

  lemma NotedKeepsPairs(h: History, e: Event)
    requires Inv(h) && PairedSoFar(h.p, h.outs)
    ensures PairedSoFar(Noted(h.p, e), h.outs)
  {
    NothingYet(h.p.config, h.log, h.outs, |h.log|);
  }

  lemma FedKeepsPairs(p: Port, outs: seq<Output>, mean: Option<int>)
    requires PairedSoFar(p, outs)
    ensures var r := Fed(p, mean); PairedSoFar(r.port, OutsAfter(outs, r.out))
  {
    var r := Fed(p, mean);
    if r.out.Some? {
      var more := outs + [r.out.value];
      assert more[..|outs|] == outs;
      forall i | 0 <= i < |more| ensures Paired(more, i) {
        assert i < |outs| ==> more[..i] == outs[..i] && Paired(outs, i);
      }
    }
  }

  lemma HandleKeepsPairs(h: History, e: Event, mean: Option<int>)
    requires Inv(h) && PairedSoFar(h.p, h.outs)
    ensures var r := Handle(h.p, e, mean); PairedSoFar(r.port, OutsAfter(h.outs, r.out))
  {
    if !e.FilterUpdate? {
      NotedKeepsPairs(h, e);
      HandleIsFeed(h.p, e, mean);
      FedKeepsPairs(Noted(h.p, e), h.outs, mean);
    }
  }

  lemma CountingKeepsPairs(p: Port, arrivals: nat, outs: seq<Output>)
    requires PairedSoFar(p, outs)
    ensures PairedSoFar(p.(arrivals := arrivals), outs)
  {}

  /** In every run each measured delay pairs its delay offset with the latest sync offset of the same
      stay in Slave, never with one from an earlier master or stay. */
  lemma {:induction false} DelaysCombineOneStay(config: Config, events: seq<(Event, Option<int>)>)
    ensures var h := HistoryOf(config, events); PairedSoFar(h.p, h.outs)
  {
    if |events| > 0 {
      var (e, mean) := events[|events| - 1];
      var h := HistoryOf(config, events[..|events| - 1]);
      DelaysCombineOneStay(config, events[..|events| - 1]);
      RunsAreAccountedFor(config, events[..|events| - 1]);
      HandleKeepsPairs(h, e, mean);
      var r := Handle(h.p, e, mean);
      CountingKeepsPairs(r.port, h.p.arrivals + 1, OutsAfter(h.outs, r.out));
    }
  }
}
