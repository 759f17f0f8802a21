/** The best master clock algorithm of one port and the state decision of section 9.3.3 of
    IEEE 1588-2019. */
module Bmca {
  import opened Prelude
  import opened DataSets
  import opened DatasetComparison
  import opened ForeignMasters

  datatype Role = Faulty | Listening | Master | Passive | Slave(remote: PortIdentity)

  datatype Recommended =
    | M1(own: DefaultDS) | M2(own: DefaultDS) | M3(announce: Announce)
    | P1(announce: Announce) | P2(announce: Announce) | S1(announce: Announce)

  function CompareOwn(own: DefaultDS, best: Option<Best>): Ordering {
    if best.None? then Greater else CompareDatasets(FromOwn(own), DatasetOf(best.value)).AsOrdering()
  }

  predicate LowClass(own: DefaultDS) { 1 <= own.quality.clockClass <= 127 }

  function Recommend(own: DefaultDS, ebest: Option<Best>, erbest: Option<Best>, role: Role): Option<Recommended> {
    if erbest.None? && role.Listening? then None
    else if LowClass(own) then Some(RecommendLow(own, erbest))
    else Some(RecommendHigh(own, ebest, erbest))
  }

  function RecommendLow(own: DefaultDS, erbest: Option<Best>): Recommended {
    if CompareOwn(own, erbest) == Less then P1(erbest.value.message) else M1(own)
  }

  function RecommendHigh(own: DefaultDS, ebest: Option<Best>, erbest: Option<Best>): Recommended {
    if CompareOwn(own, ebest) != Less then M2(own)
    else if erbest.None? then M3(ebest.value.message)
    else if ebest == erbest then S1(ebest.value.message)
    else if CompareDatasets(DatasetOf(ebest.value), DatasetOf(erbest.value)) == BetterByTopology
    then P2(erbest.value.message)
    else M3(ebest.value.message)
  }

  predicate Acceptable(list: Option<set<ClockIdentity>>, id: ClockIdentity) { list.None? || id in list.value }

  // ----- the best message of one port -----

  function Candidates(masters: seq<ForeignMasters.Master>, own: PortIdentity): seq<Best> {
    var taken := Taken(masters);
    seq(|taken|, i requires 0 <= i < |taken| => Best(taken[i].message, taken[i].age, own))
  }

  /** The port's best message, Erbest. */
  function BestOf(masters: seq<ForeignMasters.Master>, own: PortIdentity): Option<Best> {
    MaxBy(Candidates(masters, own))
  }

  /** The store once Erbest has been chosen: every other qualified master has lost exactly its
      newest message, the winner and the unqualified masters are as they were. */
  function Conserved(masters: seq<ForeignMasters.Master>, best: Option<Best>): seq<ForeignMasters.Master> {
    seq(|masters|, k requires 0 <= k < |masters| =>
      if best.Some? && masters[k].identity == best.value.message.header.source then masters[k] else Popped(masters[k]))
  }

  /** Erbest is the newest message of some qualified master of this port. */
  lemma BestIsTaken(masters: seq<ForeignMasters.Master>, own: PortIdentity) returns (w: nat)
    requires BestOf(masters, own).Some?
    ensures w < |masters| && HasQualified(masters[w])
    ensures var newest := masters[w].messages[|masters[w].messages| - 1];
            BestOf(masters, own).value == Best(newest.message, newest.age, own)
  {
    var i := MaxByPicks(Candidates(masters, own));
    TakenFrom(masters);
    var s := Taken(masters)[i];
    assert s in Taken(masters);
    w :| 0 <= w < |masters| && HasQualified(masters[w]) && s == masters[w].messages[|masters[w].messages| - 1];
  }

  /** Taking all candidates and putting the winner back leaves the conserved store. */
  lemma TakeBestConserves(masters: seq<ForeignMasters.Master>, own: PortIdentity, interval: int)
    requires StoreInv(masters, own, interval)
    ensures var best := BestOf(masters, own);
            && StoreInv(Conserved(masters, best), own, interval)
            && Conserved(masters, best) ==
                 if best.None? then Left(masters)
                 else Registered(Left(masters), own, interval, best.value.message, best.value.age)
  {
    LeftKeeps(masters, own, interval);
    var best := BestOf(masters, own);
    if best.Some? {
      var w := BestIsTaken(masters, own);
      PutBackRestores(masters, own, interval, w);
      assert masters[w].identity == best.value.message.header.source;
      assert Conserved(masters, best) == Left(masters)[w := masters[w]];
    } else {
      assert Conserved(masters, best) == Left(masters);
    }
  }

  /** Erbest is worth having: it beats the newest message of every qualified master. */
  lemma BestBeatsEveryMaster(masters: seq<ForeignMasters.Master>, own: PortIdentity, k: nat)
    requires k < |masters| && HasQualified(masters[k]) && Comparable(DatasetsOf(Candidates(masters, own)))
    ensures var newest := masters[k].messages[|masters[k].messages| - 1];
            && BestOf(masters, own).Some?
            && CompareBest(Best(newest.message, newest.age, own), BestOf(masters, own).value) != Greater
  {
    var newest := masters[k].messages[|masters[k].messages| - 1];
    TakenFrom(masters);
    assert newest in Taken(masters);
    var i :| 0 <= i < |Taken(masters)| && Taken(masters)[i] == newest;
    assert Candidates(masters, own)[i] == Best(newest.message, newest.age, own);
    MaxByIsBest(Candidates(masters, own));
  }

  // ----- the store of one port over whole runs -----

  datatype StoreEvent = Receive(a: Announce) | Age(step: int) | Choose

  function StoreAfter(masters: seq<ForeignMasters.Master>, own: PortIdentity, interval: int, e: StoreEvent): seq<ForeignMasters.Master> {
    match e
    case Receive(a) => Registered(masters, own, interval, a, 0)
    case Age(step) => Aged(masters, step, interval)
    case Choose => Conserved(masters, BestOf(masters, own))
  }

  function StoreRun(own: PortIdentity, interval: int, events: seq<StoreEvent>): seq<ForeignMasters.Master> {
    if |events| == 0 then []
    else StoreAfter(StoreRun(own, interval, events[..|events| - 1]), own, interval, events[|events| - 1])
  }

  function ReceivedBy(events: seq<StoreEvent>): seq<Announce> {
    if |events| == 0 then []
    else
      var e := events[|events| - 1];
      ReceivedBy(events[..|events| - 1]) + if e.Receive? then [e.a] else []
  }

  lemma StoreStepKeeps(masters: seq<ForeignMasters.Master>, own: PortIdentity, interval: int, e: StoreEvent, log: seq<Announce>)
    requires StoreInv(masters, own, interval) && interval > 0 && AllReceived(masters, log)
    requires e.Age? ==> e.step >= 0
    ensures StoreInv(StoreAfter(masters, own, interval, e), own, interval)
    ensures AllReceived(StoreAfter(masters, own, interval, e), if e.Receive? then log + [e.a] else log)
  {
    match e
    case Receive(a) =>
      RegisteredKeeps(masters, own, interval, a, 0);
      RegisteredIsReceived(masters, own, interval, a, log);
    case Age(step) =>
      AgedKeeps(masters, step, own, interval);
      AgedIsReceived(masters, step, own, interval, log);
    case Choose =>
      TakeBestConserves(masters, own, interval);
      var after := Conserved(masters, BestOf(masters, own));
      forall i | 0 <= i < |after| ensures Subsequence(after[i].messages, log) {
        SliceIsReceived(masters[i].messages, after[i].messages, log, 0);
      }
  }

  /** After any sequence of receipts, agings and choices the store satisfies its invariant, and
      each master's list is a subsequence of the announces received. */
  lemma {:induction false} StoreRunKeeps(own: PortIdentity, interval: int, events: seq<StoreEvent>)
    requires interval > 0 && forall i :: 0 <= i < |events| && events[i].Age? ==> events[i].step >= 0
    ensures StoreInv(StoreRun(own, interval, events), own, interval)
    ensures AllReceived(StoreRun(own, interval, events), ReceivedBy(events))
  {
    if |events| > 0 {
      var before := events[..|events| - 1];
      StoreRunKeeps(own, interval, before);
      StoreStepKeeps(StoreRun(own, interval, before), own, interval, events[|events| - 1], ReceivedBy(before));
      assert ReceivedBy(before) + [] == ReceivedBy(before);
    }
  }

  /** The chosen message can always go back: young enough, and no older than what its master kept. */
  lemma BestCanReturn(masters: seq<ForeignMasters.Master>, own: PortIdentity, interval: int)
    requires StoreInv(masters, own, interval) && BestOf(masters, own).Some?
    ensures var best := BestOf(masters, own).value;
            && 0 <= best.age < Cutoff(interval)
            && best.message.header.source.clock != own.clock
            && (exists m :: m in masters && m.identity == best.message.header.source)
            && forall m :: m in Left(masters) && m.identity == best.message.header.source ==>
                 m.messages != [] && best.age <= m.messages[|m.messages| - 1].age
  {
    var w := BestIsTaken(masters, own);
    var best := BestOf(masters, own).value;
    assert masters[w] in masters && masters[w].identity == best.message.header.source;
    forall m | m in Left(masters) && m.identity == best.message.header.source
      ensures m.messages != [] && best.age <= m.messages[|m.messages| - 1].age
    {
      var k :| 0 <= k < |masters| && Popped(masters[k]) == m;
      assert k == w;
    }
  }

  lemma SameIdentities(masters: seq<ForeignMasters.Master>, after: seq<ForeignMasters.Master>, list: Option<set<ClockIdentity>>)
    requires |masters| == |after| && forall k :: 0 <= k < |masters| ==> masters[k].identity == after[k].identity
    requires forall m :: m in masters ==> Acceptable(list, m.identity.clock)
    ensures forall m :: m in after ==> Acceptable(list, m.identity.clock)
  {
    forall m | m in after ensures Acceptable(list, m.identity.clock) {
      var k :| 0 <= k < |after| && after[k] == m;
      assert masters[k] in masters;
    }
  }

  /** It passes the checks of its first registration, too. */
  lemma BestIsAcceptable(masters: seq<ForeignMasters.Master>, own: PortIdentity, interval: int, list: Option<set<ClockIdentity>>)
    requires StoreInv(masters, own, interval) && BestOf(masters, own).Some?
    requires forall m :: m in masters ==> Acceptable(list, m.identity.clock)
    ensures var source := BestOf(masters, own).value.message.header.source; source != own && Acceptable(list, source.clock)
  {
    BestCanReturn(masters, own, interval);
    var m :| m in masters && m.identity == BestOf(masters, own).value.message.header.source;
  }

  lemma ConservedIsAcceptable(masters: seq<ForeignMasters.Master>, best: Option<Best>, list: Option<set<ClockIdentity>>)
    requires forall m :: m in masters ==> Acceptable(list, m.identity.clock)
    ensures forall m :: m in Conserved(masters, best) ==> Acceptable(list, m.identity.clock)
  {
    SameIdentities(masters, Conserved(masters, best), list);
  }

  // ----- the algorithm object of a port -----

  class PortBmca {
    const store: ForeignMasterList
    const acceptable: Option<set<ClockIdentity>>

    ghost predicate Valid()
      reads this, store
    {
      && store.Valid()
      && forall m :: m in store.masters ==> Acceptable(acceptable, m.identity.clock)
    }

    constructor (interval: int, own: PortIdentity, acceptable: Option<set<ClockIdentity>>)
      requires interval > 0
      ensures Valid() && fresh(store)
      ensures store.masters == [] && store.interval == interval && store.own == own && this.acceptable == acceptable
    {
      store := new ForeignMasterList(interval, own);
      this.acceptable := acceptable;
    }

    method RegisterAnnounce(a: Announce) returns (accepted: bool)
      requires Valid()
      modifies store
      ensures Valid()
      ensures accepted <==> a.header.source != store.own && Acceptable(acceptable, a.header.source.clock)
      ensures store.masters ==
                if accepted then Registered(old(store.masters), store.own, store.interval, a, 0) else old(store.masters)
    {
      accepted := a.header.source != store.own && Acceptable(acceptable, a.header.source.clock);
      if accepted {
        store.Register(a, 0);
        FindFinds(old(store.masters), a.header.source);
        SameIdentities(old(store.masters), store.masters[..|old(store.masters)|], acceptable);
      }
    }

    method StepAge(step: int)
      requires Valid() && step >= 0
      modifies store
      ensures Valid() && store.masters == Aged(old(store.masters), step, store.interval)
    {
      ghost var before := store.masters;
      store.StepAge(step);
      AgedFrom(before, step, store.interval);
      forall m | m in store.masters ensures Acceptable(acceptable, m.identity.clock) {
        var k :| 0 <= k < |before| && m == AgedMaster(before[k], step, store.interval);
        assert before[k] in before;
      }
    }

    method TakeBest() returns (best: Option<Best>)
      requires Valid()
      modifies store
      ensures Valid()
      ensures best == BestOf(old(store.masters), store.own)
      ensures store.masters == Conserved(old(store.masters), best)
    {
      ghost var before := store.masters;
      TakeBestConserves(before, store.own, store.interval);
      LeftKeeps(before, store.own, store.interval);
      var taken := store.TakeQualified();
      best := MaxBy(seq(|taken|, i requires 0 <= i < |taken| => Best(taken[i].message, taken[i].age, store.own)));
      if best.Some? {
        BestCanReturn(before, store.own, store.interval);
        BestIsAcceptable(before, store.own, store.interval, acceptable);
        Reregister(best.value.message, best.value.age);
      }
      ConservedIsAcceptable(before, best, acceptable);
    }

    method Reregister(a: Announce, age: int)
      requires store.Valid() && 0 <= age < Cutoff(store.interval)
      requires forall m :: m in store.masters && m.identity == a.header.source ==> age <= m.messages[|m.messages| - 1].age
      modifies store
      ensures store.Valid()
      ensures store.masters ==
                if a.header.source != store.own && Acceptable(acceptable, a.header.source.clock)
                then Registered(old(store.masters), store.own, store.interval, a, age) else old(store.masters)
    {
      if a.header.source != store.own && Acceptable(acceptable, a.header.source.clock) {
        store.Register(a, age);
      }
    }
  }
}
