/** What the algorithm is for: the best clock wins, slave-only is honoured, the data sets follow
    the chosen master. */
module InstanceGuarantees {
  import opened Prelude
  import opened DataSets
  import opened DatasetComparison
  import opened ForeignMasters
  import opened Bmca
  import opened Instance
  import opened InstanceRuns

  // ----- optimality -----

  /** All data a run has to choose from: the instance's own, D0, and the Erbest of every eligible port. */
  ghost function Field(s: State): set<Dataset>
    requires Enabled(s, RunBmca(0))
  {
    {FromOwn(s.shared.default)} + DatasetsOf(EligibleBests(ChosenAll(s.ports)))
  }

  ghost predicate ConsistentField(s: State)
    requires Enabled(s, RunBmca(0))
  {
    forall a, b :: a in Field(s) && b in Field(s) ==> Consistent(a, b)
  }

  lemma FieldIsComparable(s: State)
    requires Inv(s) && Enabled(s, RunBmca(0)) && ConsistentField(s)
    ensures Comparable(Field(s))
  {
    var chosen := ChosenAll(s.ports);
    var bests := EligibleBests(chosen);
    EligibleBestsFrom(chosen);
    forall b | b in bests ensures DatasetOf(b).sender != DatasetOf(b).receiver.clock {
      var i :| 0 <= i < |chosen| && Eligible(chosen[i]) && chosen[i].mode.localBest == Some(b);
      var p := s.ports[i];
      assert p in s.ports;
      var w := BestIsTaken(p.masters, p.identity);
      assert MasterInv(p.masters[w], p.identity, StoreInterval(p.config));
      assert Fit(p.masters[w].messages[|p.masters[w].messages| - 1], p.masters[w].identity, StoreInterval(p.config));
    }
  }

  lemma EbestIsBest(s: State)
    requires Enabled(s, RunBmca(0)) && Comparable(Field(s))
    ensures var ebest, own := Ebest(ChosenAll(s.ports)), FromOwn(s.shared.default);
            if CompareOwn(s.shared.default, ebest) == Less
            then DatasetOf(ebest.value) in Field(s) && forall d :: d in Field(s) ==> NoBetter(d, DatasetOf(ebest.value))
            else forall d :: d in Field(s) ==> NoBetter(d, own)
  {
    var own, bests := FromOwn(s.shared.default), EligibleBests(ChosenAll(s.ports));
    CompareIsAntisymmetric(own, own);
    assert DatasetsOf(bests) <= Field(s);
    MaxByIsBest(bests);
    if bests != [] {
      var k := MaxByPicks(bests);
      assert bests[k] in bests;
      var top := DatasetOf(bests[k]);
      CompareIsAntisymmetric(own, top);
      forall b | b in bests
        ensures NoBetter(DatasetOf(b), top)
        ensures NoBetter(top, own) ==> NoBetter(DatasetOf(b), own)
      {
        if NoBetter(top, own) {
          NoBetterTransitive(Field(s), DatasetOf(b), top, own);
        }
      }
    }
  }

  /** Outside clock classes 1 to 127, a run that recommends anything makes the best clock the parent:
      if D0 loses to Ebest, Ebest's sender is the parent and exactly Ebest's port is Slave;
      otherwise the instance is its own parent and no port is Slave. */
  lemma BmcaIsOptimal(s: State, step: int)
    requires Inv(s) && |s.ports| <= MAX_PORTS && Enabled(s, RunBmca(step))
    requires !LowClass(s.shared.default) && ConsistentField(s)
    requires exists r :: r in Recommendations(s.shared.default, ChosenAll(s.ports)) && r.Some?
    ensures var d, ebest, after := s.shared.default, Ebest(ChosenAll(s.ports)), BmcaRun(s, step);
            if CompareOwn(d, ebest) == Less then
              && (forall x :: x in Field(s) ==> NoBetter(x, DatasetOf(ebest.value)))
              && after.shared.parent == AnnouncedParent(ebest.value.message)
              && forall i :: 0 <= i < |after.ports| ==>
                   (after.ports[i].role.Slave? <==> after.ports[i].identity == ebest.value.identity)
            else
              && (forall x :: x in Field(s) ==> NoBetter(x, FromOwn(d)))
              && after.shared.parent == OwnParent(d)
              && forall i :: 0 <= i < |after.ports| ==> !after.ports[i].role.Slave?
  {
    var d, chosen := s.shared.default, ChosenAll(s.ports);
    var ebest := Ebest(chosen);
    FieldIsComparable(s);
    EbestIsBest(s);
    if CompareOwn(d, ebest) == Less {
      EbestPortBecomesSlave(s, step);
    } else {
      NobodyBecomesSlave(s, step);
    }
  }

  lemma EbestPortBecomesSlave(s: State, step: int)
    requires Identified(s) && |s.ports| <= MAX_PORTS && Enabled(s, RunBmca(step))
    requires !LowClass(s.shared.default) && CompareOwn(s.shared.default, Ebest(ChosenAll(s.ports))) == Less
    ensures var ebest, after := Ebest(ChosenAll(s.ports)), BmcaRun(s, step);
            && after.shared.parent == AnnouncedParent(ebest.value.message)
            && forall i :: 0 <= i < |after.ports| ==>
                 (after.ports[i].role.Slave? <==> after.ports[i].identity == ebest.value.identity)
  {
    var d, chosen, after := s.shared.default, ChosenAll(s.ports), BmcaRun(s, step);
    var ebest := Ebest(chosen);
    var w := EbestPort(s);
    RunAt(s, step, w);
    DecidedFacts(d, ebest, chosen[w]);
    assert after.ports[w].role.Slave?;
    SlaveAfterRun(s, step, w);
    forall i | 0 <= i < |after.ports|
      ensures after.ports[i].role.Slave? <==> after.ports[i].identity == ebest.value.identity
    {
      RunAt(s, step, i);
      DecidedFacts(d, ebest, chosen[i]);
      if after.ports[i].role.Slave? {
        SlaveAfterRun(s, step, i);
      }
    }
  }

  lemma NobodyBecomesSlave(s: State, step: int)
    requires Enabled(s, RunBmca(step)) && !LowClass(s.shared.default)
    requires CompareOwn(s.shared.default, Ebest(ChosenAll(s.ports))) != Less
    requires exists r :: r in Recommendations(s.shared.default, ChosenAll(s.ports)) && r.Some?
    ensures BmcaRun(s, step).shared.parent == OwnParent(s.shared.default)
    ensures forall i :: 0 <= i < |s.ports| ==> !BmcaRun(s, step).ports[i].role.Slave?
  {
    var d, chosen := s.shared.default, ChosenAll(s.ports);
    var recs := Recommendations(d, chosen);
    forall r | r in recs ensures !TakesRemote(r) && (r.Some? ==> r.value == M2(d)) {
      var i :| 0 <= i < |recs| && recs[i] == r;
    }
    SharedFollowsOwn(s.shared, recs, d);
    forall i | 0 <= i < |s.ports| ensures !BmcaRun(s, step).ports[i].role.Slave? {
      RunAt(s, step, i);
      DecidedFacts(d, Ebest(chosen), chosen[i]);
      assert recs[i] in recs;
    }
  }

  // ----- optimality among all masters heard -----

  /** What master k of a port announced last. */
  function Newest(p: Port, k: nat): Dataset
    requires k < |p.masters| && HasQualified(p.masters[k])
  {
    var messages := p.masters[k].messages;
    FromAnnounce(messages[|messages| - 1].message, p.identity)
  }

  predicate Offers(s: State, i: nat, k: nat) {
    i < |s.ports| && Eligible(s.ports[i]) && k < |s.ports[i].masters| && HasQualified(s.ports[i].masters[k])
  }

  /** The own data and the newest announce of every qualified master of every eligible port. */
  ghost predicate InWideField(s: State, x: Dataset) {
    x == FromOwn(s.shared.default) || exists i: nat, k: nat :: Offers(s, i, k) && x == Newest(s.ports[i], k)
  }

  ghost predicate ConsistentWideField(s: State) {
    forall a, b :: InWideField(s, a) && InWideField(s, b) ==> Consistent(a, b)
  }

  lemma CandidatesAreWide(s: State, i: nat)
    requires i < |s.ports| && Eligible(s.ports[i])
    ensures forall x :: x in DatasetsOf(Candidates(s.ports[i].masters, s.ports[i].identity)) ==> InWideField(s, x)
  {
    var p := s.ports[i];
    TakenFrom(p.masters);
    forall b | b in Candidates(p.masters, p.identity) ensures InWideField(s, DatasetOf(b)) {
      var j :| 0 <= j < |Taken(p.masters)| && b == Best(Taken(p.masters)[j].message, Taken(p.masters)[j].age, p.identity);
      assert Taken(p.masters)[j] in Taken(p.masters);
      var k :| 0 <= k < |p.masters| && HasQualified(p.masters[k])
               && Taken(p.masters)[j] == p.masters[k].messages[|p.masters[k].messages| - 1];
      assert Offers(s, i, k) && DatasetOf(b) == Newest(p, k);
    }
  }

  lemma ErbestIsWide(s: State, i: nat)
    requires i < |s.ports| && Eligible(s.ports[i]) && BestOf(s.ports[i].masters, s.ports[i].identity).Some?
    ensures InWideField(s, DatasetOf(BestOf(s.ports[i].masters, s.ports[i].identity).value))
  {
    var w := BestIsTaken(s.ports[i].masters, s.ports[i].identity);
    assert Offers(s, i, w);
  }

  lemma FieldIsWide(s: State)
    requires Enabled(s, RunBmca(0))
    ensures forall x :: x in Field(s) ==> InWideField(s, x)
  {
    var chosen := ChosenAll(s.ports);
    EligibleBestsFrom(chosen);
    forall b | b in EligibleBests(chosen) ensures InWideField(s, DatasetOf(b)) {
      var i :| 0 <= i < |chosen| && Eligible(chosen[i]) && chosen[i].mode.localBest == Some(b);
      ErbestIsWide(s, i);
    }
  }

  lemma ErbestIsInField(s: State, i: nat)
    requires Enabled(s, RunBmca(0)) && i < |s.ports| && Eligible(s.ports[i])
    requires BestOf(s.ports[i].masters, s.ports[i].identity).Some?
    ensures DatasetOf(BestOf(s.ports[i].masters, s.ports[i].identity).value) in Field(s)
  {
    var chosen := ChosenAll(s.ports);
    EligibleBestsFrom(chosen);
    assert Eligible(chosen[i]) && chosen[i].mode.localBest == BestOf(s.ports[i].masters, s.ports[i].identity);
  }

  lemma OfferIsNotOwn(s: State, i: nat, k: nat)
    requires Inv(s) && Offers(s, i, k)
    ensures Newest(s.ports[i], k).sender != Newest(s.ports[i], k).receiver.clock
  {
    var p := s.ports[i];
    assert p in s.ports;
    assert MasterInv(p.masters[k], p.identity, StoreInterval(p.config));
    assert Fit(p.masters[k].messages[|p.masters[k].messages| - 1], p.masters[k].identity, StoreInterval(p.config));
  }

  lemma WideSetIsComparable(s: State, xs: set<Dataset>)
    requires Inv(s) && ConsistentWideField(s) && forall x :: x in xs ==> InWideField(s, x)
    ensures Comparable(xs)
  {
    forall x | x in xs ensures x.sender != x.receiver.clock || x.steps == 0 {
      if i: nat, k: nat :| Offers(s, i, k) && x == Newest(s.ports[i], k) {
        OfferIsNotOwn(s, i, k);
      }
    }
  }

  lemma OfferIsBehindErbest(s: State, i: nat, k: nat)
    requires Inv(s) && ConsistentWideField(s) && Offers(s, i, k)
    ensures var best := BestOf(s.ports[i].masters, s.ports[i].identity);
            best.Some? && NoBetter(Newest(s.ports[i], k), DatasetOf(best.value))
  {
    var p := s.ports[i];
    CandidatesAreWide(s, i);
    WideSetIsComparable(s, DatasetsOf(Candidates(p.masters, p.identity)));
    BestBeatsEveryMaster(p.masters, p.identity, k);
  }

  lemma WideTransitive(s: State, a: Dataset, b: Dataset, c: Dataset)
    requires Inv(s) && ConsistentWideField(s) && InWideField(s, a) && InWideField(s, b) && InWideField(s, c)
    requires NoBetter(a, b) && NoBetter(b, c)
    ensures NoBetter(a, c)
  {
    WideSetIsComparable(s, {a, b, c});
    NoBetterTransitive({a, b, c}, a, b, c);
  }

  /** Whatever beats every Erbest beats every qualified master behind it. */
  lemma OfferIsNoBetter(s: State, i: nat, k: nat, top: Dataset)
    requires Inv(s) && Enabled(s, RunBmca(0)) && ConsistentWideField(s) && Offers(s, i, k)
    requires InWideField(s, top) && forall x :: x in Field(s) ==> NoBetter(x, top)
    ensures NoBetter(Newest(s.ports[i], k), top)
  {
    OfferIsBehindErbest(s, i, k);
    ErbestIsInField(s, i);
    ErbestIsWide(s, i);
    WideTransitive(s, Newest(s.ports[i], k), DatasetOf(BestOf(s.ports[i].masters, s.ports[i].identity).value), top);
  }

  /** The new parent is best among D0 and all that any qualified master of any eligible port announced
      last, not only among the ports' choices. */
  lemma ParentBeatsEveryMaster(s: State, step: int, x: Dataset)
    requires Inv(s) && |s.ports| <= MAX_PORTS && Enabled(s, RunBmca(step))
    requires !LowClass(s.shared.default) && ConsistentWideField(s) && InWideField(s, x)
    requires exists r :: r in Recommendations(s.shared.default, ChosenAll(s.ports)) && r.Some?
    ensures var d, ebest, parent := s.shared.default, Ebest(ChosenAll(s.ports)), BmcaRun(s, step).shared.parent;
            if CompareOwn(d, ebest) == Less
            then NoBetter(x, DatasetOf(ebest.value)) && parent == AnnouncedParent(ebest.value.message)
            else NoBetter(x, FromOwn(d)) && parent == OwnParent(d)
  {
    FieldIsWide(s);
    assert ConsistentField(s);
    BmcaIsOptimal(s, step);
    FieldIsComparable(s);
    EbestIsBest(s);
    var d, ebest := s.shared.default, Ebest(ChosenAll(s.ports));
    if i: nat, k: nat :| Offers(s, i, k) && x == Newest(s.ports[i], k) {
      OfferIsNoBetter(s, i, k, if CompareOwn(d, ebest) == Less then DatasetOf(ebest.value) else FromOwn(d));
    }
  }

  // ----- clock classes 1 to 127 -----

  /** The port is told to be Master for itself: it is not silent in Listening and no Erbest of its own
      beats the instance. */
  predicate ToldM1(s: State, i: nat)
    requires Enabled(s, RunBmca(0)) && i < |s.ports|
  {
    var p := ChosenAll(s.ports)[i];
    (p.mode.localBest.Some? || !p.role.Listening?) && CompareOwn(s.shared.default, p.mode.localBest) != Less
  }

  /** An instance of such a class follows nobody: after a run no port is Slave, and the own clock becomes
      the parent if some port is told M1; otherwise the data sets, an old remote parent included, stay. */
  lemma LowClassFollowsNobody(s: State, step: int)
    requires Enabled(s, RunBmca(step)) && LowClass(s.shared.default)
    ensures var after := BmcaRun(s, step);
            && (forall i :: 0 <= i < |after.ports| ==> !after.ports[i].role.Slave?)
            && if exists i :: 0 <= i < |s.ports| && ToldM1(s, i)
               then after.shared.parent == OwnParent(s.shared.default)
               else after.shared == s.shared
  {
    var d, chosen := s.shared.default, ChosenAll(s.ports);
    var recs := Recommendations(d, chosen);
    forall i | 0 <= i < |s.ports|
      ensures !BmcaRun(s, step).ports[i].role.Slave? && (TakesOwn(recs[i]) <==> ToldM1(s, i)) && !TakesRemote(recs[i])
      ensures TakesOwn(recs[i]) ==> recs[i].value.own == d
    {
      RunAt(s, step, i);
      DecidedFacts(d, Ebest(chosen), chosen[i]);
    }
    SharedFollowsOwn(s.shared, recs, d);
    if i :| 0 <= i < |s.ports| && ToldM1(s, i) {
      assert recs[i] in recs;
    }
  }

  // ----- slave-only -----

  predicate NoMaster(s: State) { forall p :: p in s.ports ==> !p.role.Master? }

  lemma RunHonoursSlaveOnly(s: State, step: int)
    requires Enabled(s, RunBmca(step)) && s.shared.default.slaveOnly
    ensures NoMaster(BmcaRun(s, step)) && BmcaRun(s, step).shared.default == s.shared.default
  {
    var after := BmcaRun(s, step);
    SharedKeepsDefault(s.shared, s.shared.default, ChosenAll(s.ports));
    forall p | p in after.ports ensures !p.role.Master? {
      var i :| 0 <= i < |after.ports| && after.ports[i] == p;
      RunAt(s, step, i);
      DecidedFacts(s.shared.default, Ebest(ChosenAll(s.ports)), ChosenAll(s.ports)[i]);
    }
  }

  lemma StepHonoursSlaveOnly(s: State, e: Event)
    requires Enabled(s, e) && s.shared.default.slaveOnly && e != SetSlaveOnly(false)
    ensures Step(s, e).shared.default.slaveOnly
    ensures e.RunBmca? || NoMaster(s) ==> NoMaster(Step(s, e))
  {
    if e.RunBmca? {
      RunHonoursSlaveOnly(s, e.step);
    } else if NoMaster(s) {
      var after := Step(s, e);
      forall p | p in after.ports ensures !p.role.Master? {
        assert e.ReceiveAnnounce? ==> s.ports[e.p] in s.ports;
        var i :| 0 <= i < |after.ports| && after.ports[i] == p;
        assert i < |s.ports| ==> s.ports[i] in s.ports;
      }
    }
  }

  /** While slave-only stays set there is no Master port, from the start if there was none, and
      otherwise from the end of the next run of the algorithm on. */
  lemma {:induction false} SlaveOnlyIsHonoured(run: seq<State>, events: seq<Event>, d: DefaultDS, time: TimeProperties, i: nat, j: nat)
    requires IsRun(run, events, d, time) && i <= j < |run|
    requires run[i].shared.default.slaveOnly
    requires forall k :: i <= k < j ==> events[k] != SetSlaveOnly(false)
    ensures run[j].shared.default.slaveOnly
    ensures NoMaster(run[i]) || (exists k :: i <= k < j && events[k].RunBmca?) ==> NoMaster(run[j])
  {
    if i < j {
      SlaveOnlyIsHonoured(run, events, d, time, i, j - 1);
      assert Link(run, events, j - 1);
      StepHonoursSlaveOnly(run[j - 1], events[j - 1]);
    }
  }

  lemma SlaveOnlyFromTheStart(run: seq<State>, events: seq<Event>, d: DefaultDS, time: TimeProperties, j: nat)
    requires IsRun(run, events, d, time) && j < |run| && d.slaveOnly
    requires forall k :: 0 <= k < j ==> events[k] != SetSlaveOnly(false)
    ensures NoMaster(run[j])
  {
    SlaveOnlyIsHonoured(run, events, d, time, 0, j);
  }

  // ----- data sets between runs -----

  /** Between runs only an announce from the master the Slave port follows changes the parent data
      set or the time properties, and it never changes who the parent is. */
  lemma DataSetsFollowTheSlave(s: State, e: Event)
    requires Inv(s) && Enabled(s, e) && !e.RunBmca?
    ensures var t := Step(s, e).shared;
            && t.parent.parent == s.shared.parent.parent
            && ((t.parent, t.time, t.stepsRemoved) != (s.shared.parent, s.shared.time, s.shared.stepsRemoved) ==>
                  && e.ReceiveAnnounce?
                  && s.ports[e.p].role == Slave(e.a.header.source)
                  && t.parent == AnnouncedParent(e.a) && t.time == AnnouncedTime(e.a))
  {
    if e.ReceiveAnnounce? {
      assert s.ports[e.p] in s.ports;
    }
  }
}
