/** What a run of the algorithm decides, in terms of what was heard: which clock is followed, what the
    data sets then say, and the role of every port. */
module Decisions {
  import opened Prelude
  import opened DataSets
  import opened DatasetComparison
  import opened ForeignMasters
  import opened Bmca
  import opened Instance
  import opened InstanceRuns
  import opened InstanceGuarantees
  import opened AnnounceOrder

  // ----- what there is to choose from -----

  /** Master k of this port has been heard twice within the window. */
  predicate Speaks(p: Port, k: nat) { k < |p.masters| && |p.masters[k].messages| >= 2 }

  /** What it said last. */
  function Last(p: Port, k: nat): Best
    requires Speaks(p, k)
  {
    var m := p.masters[k].messages[|p.masters[k].messages| - 1];
    Best(m.message, m.age, p.identity)
  }

  /** ... and the port may follow it. */
  predicate Contender(s: State, i: nat, k: nat) {
    i < |s.ports| && !s.ports[i].config.masterOnly && !s.ports[i].role.Faulty? && Speaks(s.ports[i], k)
  }

  ghost predicate Agreement(s: State) {
    && (forall i: nat, k: nat :: Contender(s, i, k) ==> AgreesWithOwn(s.shared.default, Last(s.ports[i], k).message))
    && (forall i: nat, k: nat, j: nat, l: nat :: Contender(s, i, k) && Contender(s, j, l) ==>
          Agree(Last(s.ports[i], k).message, Last(s.ports[j], l).message))
  }

  /** No contender ranks before it. */
  ghost predicate Winner(s: State, w: nat, k: nat) {
    && Contender(s, w, k)
    && forall i: nat, l: nat :: Contender(s, i, l) ==> !LexLess(AgedRank(Last(s.ports[i], l)), AgedRank(Last(s.ports[w], k)))
  }

  ghost predicate OwnIsBeaten(s: State, i: nat, k: nat) {
    Contender(s, i, k) && LexLess(Rank(Last(s.ports[i], k)), OwnRank(s.shared.default))
  }

  ghost predicate OwnIsBeatenAtAll(s: State) { exists i: nat, l: nat :: OwnIsBeaten(s, i, l) }

  /** Port i has something to decide: it heard a master, or does more than listen. */
  predicate Decides(p: Port) { !p.role.Listening? || exists k :: 0 <= k < |p.masters| && |p.masters[k].messages| >= 2 }

  lemma LastIsFromElsewhere(p: Port, k: nat)
    requires StoreOk(p) && Speaks(p, k)
    ensures FromElsewhere(Last(p, k)) && Last(p, k).message.header.source == p.masters[k].identity
    ensures Last(p, k).message.stepsRemoved < 255
  {
    assert MasterInv(p.masters[k], p.identity, StoreInterval(p.config));
    assert Fit(p.masters[k].messages[|p.masters[k].messages| - 1], p.masters[k].identity, StoreInterval(p.config));
  }

  /** A port has an Erbest exactly if some master was heard twice, and it is the last word of one. */
  lemma ErbestIsHeard(p: Port) returns (k: nat)
    ensures BestOf(p.masters, p.identity).Some? <==> exists l :: 0 <= l < |p.masters| && |p.masters[l].messages| >= 2
    ensures BestOf(p.masters, p.identity).Some? ==> Speaks(p, k) && BestOf(p.masters, p.identity).value == Last(p, k)
  {
    k := 0;
    if BestOf(p.masters, p.identity).Some? {
      k := BestIsTaken(p.masters, p.identity);
    }
    if l :| 0 <= l < |p.masters| && |p.masters[l].messages| >= 2 {
      TakenFrom(p.masters);
      assert HasQualified(p.masters[l]);
      assert p.masters[l].messages[|p.masters[l].messages| - 1] in Taken(p.masters);
      var j := MaxByPicks(Candidates(p.masters, p.identity));
    }
  }

  lemma AgreeIsConsistent(a: Best, b: Best)
    requires Agree(a.message, b.message)
    ensures Consistent(DatasetOf(a), DatasetOf(b))
  {
    var p, q := GrandmasterRank(a.message), GrandmasterRank(b.message);
    assert p == q ==> p[0] == q[0] && p[1] == q[1] && p[2] == q[2] && p[3] == q[3] && p[4] == q[4];
  }

  lemma OwnAgreeIsConsistent(d: DefaultDS, b: Best)
    requires AgreesWithOwn(d, b.message)
    ensures Consistent(FromOwn(d), DatasetOf(b)) && Consistent(DatasetOf(b), FromOwn(d))
  {
    var own := OwnAsMessage(d, b);
    AgreeIsConsistent(own, b);
    AgreeIsConsistent(b, own);
  }

  lemma AgreementIsConsistent(s: State)
    requires Agreement(s)
    ensures ConsistentWideField(s)
  {
    forall a, b | InWideField(s, a) && InWideField(s, b) ensures Consistent(a, b) {
      if i: nat, k: nat :| Offers(s, i, k) && a == Newest(s.ports[i], k) {
        assert Contender(s, i, k) && a == DatasetOf(Last(s.ports[i], k));
        OwnAgreeIsConsistent(s.shared.default, Last(s.ports[i], k));
        if j: nat, l: nat :| Offers(s, j, l) && b == Newest(s.ports[j], l) {
          assert Contender(s, j, l) && b == DatasetOf(Last(s.ports[j], l));
          AgreeIsConsistent(Last(s.ports[i], k), Last(s.ports[j], l));
        }
      } else if j: nat, l: nat :| Offers(s, j, l) && b == Newest(s.ports[j], l) {
        assert Contender(s, j, l) && b == DatasetOf(Last(s.ports[j], l));
        OwnAgreeIsConsistent(s.shared.default, Last(s.ports[j], l));
      }
    }
  }

  // ----- Erbest and Ebest are least -----

  lemma ContendersCompareByRank(s: State, i: nat, k: nat, j: nat, l: nat)
    requires Inv(s) && Agreement(s) && Contender(s, i, k) && Contender(s, j, l)
    ensures var a, b := Last(s.ports[i], k), Last(s.ports[j], l); CompareBest(a, b) == Order(AgedRank(a), AgedRank(b))
  {
    assert s.ports[i] in s.ports && s.ports[j] in s.ports;
    LastIsFromElsewhere(s.ports[i], k);
    LastIsFromElsewhere(s.ports[j], l);
    CompareByRank(Last(s.ports[i], k), Last(s.ports[j], l));
  }

  /** Erbest is the last word of a master of the port before whose no other one ranks. */
  lemma ErbestIsLeast(s: State, i: nat, k: nat) returns (l: nat)
    requires Inv(s) && Agreement(s) && Contender(s, i, k)
    ensures Contender(s, i, l) && BestOf(s.ports[i].masters, s.ports[i].identity) == Some(Last(s.ports[i], l))
    ensures !LexLess(AgedRank(Last(s.ports[i], k)), AgedRank(Last(s.ports[i], l)))
  {
    var p := s.ports[i];
    l := ErbestIsHeard(p);
    AgreementIsConsistent(s);
    CandidatesAreWide(s, i);
    WideSetIsComparable(s, DatasetsOf(Candidates(p.masters, p.identity)));
    BestBeatsEveryMaster(p.masters, p.identity, k);
    ContendersCompareByRank(s, i, k, i, l);
  }

  /** Ebest is a winner, if there is a contender at all. */
  lemma EbestIsHeard(s: State) returns (w: nat, k: nat)
    requires Inv(s) && |s.ports| <= MAX_PORTS && Enabled(s, RunBmca(0)) && Ebest(ChosenAll(s.ports)).Some?
    ensures Contender(s, w, k) && Ebest(ChosenAll(s.ports)).value == Last(s.ports[w], k)
  {
    w := EbestPort(s);
    k := ErbestIsHeard(s.ports[w]);
  }

  lemma EbestIsNotBehind(s: State, i: nat, k: nat, w: nat, l: nat)
    requires Inv(s) && |s.ports| <= MAX_PORTS && Enabled(s, RunBmca(0)) && Agreement(s) && Contender(s, i, k)
    requires Contender(s, w, l) && Ebest(ChosenAll(s.ports)) == Some(Last(s.ports[w], l))
    ensures !LexLess(AgedRank(Last(s.ports[i], k)), AgedRank(Last(s.ports[w], l)))
  {
    var chosen := ChosenAll(s.ports);
    var bests := EligibleBests(chosen);
    var e := ErbestIsLeast(s, i, k);
    EligibleBestsFrom(chosen);
    assert Eligible(chosen[i]) && chosen[i].mode.localBest == Some(Last(s.ports[i], e));
    AgreementIsConsistent(s);
    FieldIsWide(s);
    assert ConsistentField(s);
    FieldIsComparable(s);
    assert DatasetsOf(bests) <= Field(s);
    MaxByIsBest(bests);
    ContendersCompareByRank(s, i, e, w, l);
    OrderTransitive(AgedRank(Last(s.ports[i], k)), AgedRank(Last(s.ports[i], e)), AgedRank(Last(s.ports[w], l)));
  }

  lemma EbestExists(s: State, i: nat, k: nat)
    requires Enabled(s, RunBmca(0)) && Contender(s, i, k)
    ensures Ebest(ChosenAll(s.ports)).Some?
  {
    var chosen := ChosenAll(s.ports);
    var l := ErbestIsHeard(s.ports[i]);
    EligibleBestsFrom(chosen);
    assert Eligible(chosen[i]) && chosen[i].mode.localBest.value in EligibleBests(chosen);
    var j := MaxByPicks(EligibleBests(chosen));
  }

  lemma EbestWins(s: State) returns (w: nat, k: nat)
    requires Inv(s) && |s.ports| <= MAX_PORTS && Enabled(s, RunBmca(0)) && Agreement(s)
    requires Ebest(ChosenAll(s.ports)).Some?
    ensures Winner(s, w, k) && Ebest(ChosenAll(s.ports)) == Some(Last(s.ports[w], k))
  {
    w, k := EbestIsHeard(s);
    forall i: nat, l: nat | Contender(s, i, l)
      ensures !LexLess(AgedRank(Last(s.ports[i], l)), AgedRank(Last(s.ports[w], k)))
    {
      EbestIsNotBehind(s, i, l, w, k);
    }
  }

  // ----- ties -----

  /** Where the last word of master k is among those taken: behind those of all later masters. */
  function Place(masters: seq<ForeignMasters.Master>, k: nat): nat
    requires k < |masters|
  {
    |Taken(masters[k + 1..])|
  }

  lemma {:induction false} TakenOfTail(masters: seq<ForeignMasters.Master>, k: nat)
    requires k <= |masters|
    ensures |Taken(masters[k..])| <= |Taken(masters)| && Taken(masters)[..|Taken(masters[k..])|] == Taken(masters[k..])
  {
    if k == 0 {
      assert masters[0..] == masters;
    } else {
      TakenOfTail(masters[1..], k - 1);
      assert masters[1..][k - 1..] == masters[k..];
    }
  }

  lemma TakenAtPlace(masters: seq<ForeignMasters.Master>, k: nat)
    requires k < |masters| && HasQualified(masters[k])
    ensures Place(masters, k) < |Taken(masters[k..])| <= |Taken(masters)|
    ensures Taken(masters)[Place(masters, k)] == masters[k].messages[|masters[k].messages| - 1]
  {
    TakenOfTail(masters, k);
    assert masters[k..][1..] == masters[k + 1..];
    assert Taken(masters[k..])[Place(masters, k)] == Taken(masters)[..|Taken(masters[k..])|][Place(masters, k)];
  }

  lemma LaterIsPlacedBefore(masters: seq<ForeignMasters.Master>, l: nat, k: nat)
    requires l < k < |masters| && HasQualified(masters[k])
    ensures Place(masters, k) < Place(masters, l)
  {
    TakenAtPlace(masters, k);
    TakenOfTail(masters[l + 1..], k - l - 1);
    assert masters[l + 1..][k - l - 1..] == masters[k..];
  }

  lemma {:induction false} PlaceIsTaken(masters: seq<ForeignMasters.Master>, i: nat) returns (k: nat)
    requires i < |Taken(masters)|
    ensures k < |masters| && HasQualified(masters[k]) && Place(masters, k) == i
  {
    if i < |Taken(masters[1..])| {
      var m := PlaceIsTaken(masters[1..], i);
      k := m + 1;
      assert masters[1..][m + 1..] == masters[k + 1..];
    } else {
      k := 0;
    }
  }

  /** Among masters whose last words tie in everything that is compared, the one heard of first wins: Erbest is
      strictly better than the last word of every earlier master. */
  lemma ErbestIsFirst(p: Port) returns (w: nat)
    requires BestOf(p.masters, p.identity).Some?
    ensures Speaks(p, w) && BestOf(p.masters, p.identity).value == Last(p, w)
    ensures forall l: nat :: l < w && Speaks(p, l) ==> CompareBest(Last(p, w), Last(p, l)) == Greater
  {
    var candidates := Candidates(p.masters, p.identity);
    var i := MaxByPicks(candidates);
    w := PlaceIsTaken(p.masters, i);
    TakenAtPlace(p.masters, w);
    forall l: nat | l < w && Speaks(p, l) ensures CompareBest(Last(p, w), Last(p, l)) == Greater {
      TakenAtPlace(p.masters, l);
      LaterIsPlacedBefore(p.masters, l, w);
      assert candidates[Place(p.masters, l)] == Last(p, l);
    }
  }

  // ----- the clock followed -----

  lemma AgeComesLast(a: Best, b: Best)
    requires !LexLess(AgedRank(a), AgedRank(b))
    ensures !LexLess(Rank(a), Rank(b))
  {
    OrderSplits(Rank(a), Rank(b), [a.age], [b.age]);
    LexTotal(Rank(a), Rank(b));
  }

  lemma OwnAgainst(s: State, w: nat, k: nat)
    requires Inv(s) && Agreement(s) && Contender(s, w, k)
    ensures CompareOwn(s.shared.default, Some(Last(s.ports[w], k))) == Less <==> OwnIsBeaten(s, w, k)
  {
    var d, b := s.shared.default, Last(s.ports[w], k);
    assert s.ports[w] in s.ports;
    LastIsFromElsewhere(s.ports[w], k);
    OwnByRank(d, b);
    LexTotal(OwnRank(d), Rank(b));
  }

  lemma WinnerBeatsOwnToo(s: State, i: nat, l: nat, w: nat, k: nat)
    requires OwnIsBeaten(s, i, l) && Winner(s, w, k)
    ensures OwnIsBeaten(s, w, k)
  {
    AgeComesLast(Last(s.ports[i], l), Last(s.ports[w], k));
    if !LexLess(Rank(Last(s.ports[w], k)), OwnRank(s.shared.default)) {
      OrderTransitive(Rank(Last(s.ports[i], l)), Rank(Last(s.ports[w], k)), OwnRank(s.shared.default));
    }
  }

  /** D0 loses to Ebest exactly if some contender ranks before the own clock, and then Ebest does. */
  lemma OwnLosesToAContender(s: State) returns (w: nat, k: nat)
    requires Inv(s) && |s.ports| <= MAX_PORTS && Enabled(s, RunBmca(0)) && Agreement(s)
    ensures var ebest := Ebest(ChosenAll(s.ports));
            && (CompareOwn(s.shared.default, ebest) == Less <==> OwnIsBeatenAtAll(s))
            && (CompareOwn(s.shared.default, ebest) == Less ==>
                  OwnIsBeaten(s, w, k) && Winner(s, w, k) && ebest == Some(Last(s.ports[w], k)))
  {
    var ebest := Ebest(ChosenAll(s.ports));
    w, k := 0, 0;
    if ebest.Some? {
      w, k := EbestWins(s);
      OwnAgainst(s, w, k);
      if i: nat, l: nat :| OwnIsBeaten(s, i, l) {
        WinnerBeatsOwnToo(s, i, l, w, k);
      }
    } else if i: nat, l: nat :| OwnIsBeaten(s, i, l) {
      EbestExists(s, i, l);
      assert false;
    }
  }

  /** The time properties an announce carries; of two leap flags the 59 one counts. */
  predicate TimeOf(t: TimeProperties, a: Announce) {
    && (t.utcOffset.Some? <==> a.header.utcOffsetValid) && (t.utcOffset.Some? ==> t.utcOffset.value == a.utcOffset)
    && (t.leap.Leap59? <==> a.header.leap59) && (t.leap.Leap61? <==> a.header.leap61 && !a.header.leap59)
    && (t.timeTraceable <==> a.header.timeTraceable) && (t.frequencyTraceable <==> a.header.frequencyTraceable)
    && (t.ptpTimescale <==> a.header.ptpTimescale) && t.timeSource == a.timeSource
  }

  predicate GrandmasterOf(p: ParentDS, a: Announce) {
    && p.gmIdentity == a.gmIdentity && p.gmPriority1 == a.gmPriority1 && p.gmPriority2 == a.gmPriority2
    && p.gmQuality.clockClass == a.gmQuality.clockClass && p.gmQuality.accuracy == a.gmQuality.accuracy
    && p.gmQuality.variance == a.gmQuality.variance
  }

  /** The data sets say what the announce said, one step farther. */
  predicate Tells(s: Shared, a: Announce) {
    && s.parent.parent == a.header.source && GrandmasterOf(s.parent, a)
    && s.stepsRemoved == a.stepsRemoved + 1 && TimeOf(s.time, a)
  }

  /** The data sets say that the own clock is the grandmaster. */
  predicate TellsOwn(s: Shared) {
    var d, p, t := s.default, s.parent, s.time;
    && p.parent == PortIdentity(d.clockIdentity, 0) && p.gmIdentity == d.clockIdentity && p.gmQuality == d.quality
    && p.gmPriority1 == d.priority1 && p.gmPriority2 == d.priority2 && s.stepsRemoved == 0
    && t.utcOffset.None? && t.leap.NoLeap? && !t.timeTraceable && !t.frequencyTraceable && t.ptpTimescale
    && t.timeSource.InternalOscillator?
  }

  /** A new instance tells itself as grandmaster, and has no ports. */
  lemma NewInstanceTellsOwn(d: DefaultDS, time: TimeProperties)
    requires time == TimeProperties(None, NoLeap, false, false, true, InternalOscillator)
    ensures var s := Initial(d, time);
            TellsOwn(s.shared) && s.ports == [] && s.shared.default == d.(numberPorts := 0)
  {}

  predicate OutsideLowClasses(d: DefaultDS) { d.quality.clockClass < 1 || d.quality.clockClass > 127 }

  lemma ToldOfEbest(d: DefaultDS, ebest: Option<Best>, p: Port)
    requires p.mode.InBmca? && OutsideLowClasses(d) && CompareOwn(d, ebest) == Less
    ensures ebest.Some?
    ensures var r := RecommendFor(d, ebest, p);
            && !TakesOwn(r) && (TakesRemote(r) ==> r.value.announce == ebest.value.message)
            && (p.mode.localBest == ebest ==> TakesRemote(r))
  {}

  lemma RemoteIsShared(s: Shared, recs: seq<Option<Recommended>>, a: Announce, w: nat)
    requires w < |recs| && TakesRemote(recs[w])
    requires forall i :: 0 <= i < |recs| ==> !TakesOwn(recs[i]) && (TakesRemote(recs[i]) ==> recs[i].value.announce == a)
    ensures var t := SharedAfter(s, recs);
            && t.default == s.default && t.parent == AnnouncedParent(a) && t.time == AnnouncedTime(a)
            && t.stepsRemoved == (a.stepsRemoved + 1) % 0x1_0000
  {
    assert recs[w] in recs;
    SharedFollowsRemote(s, recs, a);
  }

  lemma ToldOfEbestAt(s: State, i: nat)
    requires Enabled(s, RunBmca(0)) && i < |s.ports|
    requires OutsideLowClasses(s.shared.default) && CompareOwn(s.shared.default, Ebest(ChosenAll(s.ports))) == Less
    ensures var chosen := ChosenAll(s.ports);
            var r, ebest := Recommendations(s.shared.default, chosen)[i], Ebest(chosen);
            && ebest.Some? && !TakesOwn(r) && (TakesRemote(r) ==> r.value.announce == ebest.value.message)
            && (chosen[i].mode.localBest == ebest ==> TakesRemote(r))
  {
    ToldOfEbest(s.shared.default, Ebest(ChosenAll(s.ports)), ChosenAll(s.ports)[i]);
  }

  lemma RemoteIsTold(s: Shared, a: Announce)
    requires s.parent == AnnouncedParent(a) && s.time == AnnouncedTime(a) && s.stepsRemoved == (a.stepsRemoved + 1) % 0x1_0000
    requires a.stepsRemoved < 255
    ensures Tells(s, a)
  {}

  lemma AllToldOfEbest(s: State)
    requires Enabled(s, RunBmca(0))
    requires OutsideLowClasses(s.shared.default) && CompareOwn(s.shared.default, Ebest(ChosenAll(s.ports))) == Less
    ensures var recs, a := Recommendations(s.shared.default, ChosenAll(s.ports)), Ebest(ChosenAll(s.ports)).value.message;
            forall i :: 0 <= i < |recs| ==> !TakesOwn(recs[i]) && (TakesRemote(recs[i]) ==> recs[i].value.announce == a)
  {
    var recs, a := Recommendations(s.shared.default, ChosenAll(s.ports)), Ebest(ChosenAll(s.ports)).value.message;
    forall i | 0 <= i < |recs| ensures !TakesOwn(recs[i]) && (TakesRemote(recs[i]) ==> recs[i].value.announce == a) {
      ToldOfEbestAt(s, i);
    }
  }

  lemma EbestIsShared(s: State)
    requires Identified(s) && |s.ports| <= MAX_PORTS && Enabled(s, RunBmca(0))
    requires OutsideLowClasses(s.shared.default) && CompareOwn(s.shared.default, Ebest(ChosenAll(s.ports))) == Less
    requires Ebest(ChosenAll(s.ports)).value.message.stepsRemoved < 255
    ensures var chosen := ChosenAll(s.ports);
            var t := SharedAfter(s.shared, Recommendations(s.shared.default, chosen));
            t.default == s.shared.default && Tells(t, Ebest(chosen).value.message)
  {
    var recs, a := Recommendations(s.shared.default, ChosenAll(s.ports)), Ebest(ChosenAll(s.ports)).value.message;
    var w := EbestPort(s);
    AllToldOfEbest(s);
    ToldOfEbestAt(s, w);
    RemoteIsShared(s.shared, recs, a, w);
    RemoteIsTold(SharedAfter(s.shared, recs), a);
  }

  lemma EbestIsTold(s: State, step: int, w: nat, k: nat)
    requires Inv(s) && |s.ports| <= MAX_PORTS && Enabled(s, RunBmca(step)) && Contender(s, w, k)
    requires OutsideLowClasses(s.shared.default) && CompareOwn(s.shared.default, Ebest(ChosenAll(s.ports))) == Less
    requires Ebest(ChosenAll(s.ports)) == Some(Last(s.ports[w], k))
    ensures Tells(BmcaRun(s, step).shared, Last(s.ports[w], k).message)
    ensures BmcaRun(s, step).shared.default == s.shared.default
  {
    assert s.ports[w] in s.ports;
    LastIsFromElsewhere(s.ports[w], k);
    EbestIsShared(s);
    RunAt(s, step, w);
  }

  lemma OwnIsTold(s: State, step: int)
    requires Enabled(s, RunBmca(step)) && OutsideLowClasses(s.shared.default)
    requires CompareOwn(s.shared.default, Ebest(ChosenAll(s.ports))) != Less
    ensures var after := BmcaRun(s, step).shared;
            && after.default == s.shared.default
            && if exists p :: p in s.ports && Decides(p) then TellsOwn(after) else after == s.shared
  {
    var d, chosen := s.shared.default, ChosenAll(s.ports);
    var recs := Recommendations(d, chosen);
    forall i | 0 <= i < |s.ports|
      ensures !TakesRemote(recs[i]) && (recs[i].Some? ==> recs[i].value == M2(d))
      ensures (TakesOwn(recs[i]) <==> Decides(s.ports[i]))
    {
      RunAt(s, step, i);
      var k := ErbestIsHeard(s.ports[i]);
    }
    SharedFollowsOwn(s.shared, recs, d);
    if p :| p in s.ports && Decides(p) {
      var i :| 0 <= i < |s.ports| && s.ports[i] == p;
      assert TakesOwn(recs[i]) && recs[i] in recs;
    }
  }

  /** After the run exactly port w is Slave, of this announce's sender, and the data sets repeat it. */
  ghost predicate Followed(after: State, w: nat, a: Announce) {
    && Tells(after.shared, a)
    && w < |after.ports| && after.ports[w].role == Slave(a.header.source)
    && forall i :: 0 <= i < |after.ports| && after.ports[i].role.Slave? ==> i == w
  }

  ghost predicate BestIsFollowed(s: State, after: State, w: nat, k: nat) {
    OwnIsBeaten(s, w, k) && Winner(s, w, k) && Followed(after, w, Last(s.ports[w], k).message)
  }

  lemma EbestIsFollowed(s: State, step: int, w: nat, k: nat)
    requires Inv(s) && |s.ports| <= MAX_PORTS && Enabled(s, RunBmca(step)) && Contender(s, w, k)
    requires OutsideLowClasses(s.shared.default) && CompareOwn(s.shared.default, Ebest(ChosenAll(s.ports))) == Less
    requires Ebest(ChosenAll(s.ports)) == Some(Last(s.ports[w], k))
    ensures Followed(BmcaRun(s, step), w, Last(s.ports[w], k).message)
  {
    EbestIsTold(s, step, w, k);
    EbestPortBecomesSlave(s, step);
    var after := BmcaRun(s, step);
    assert Last(s.ports[w], k).identity == s.ports[w].identity == after.ports[w].identity by {
      RunAt(s, step, w);
      DecidedFacts(s.shared.default, Ebest(ChosenAll(s.ports)), ChosenAll(s.ports)[w]);
    }
    SlaveAfterRun(s, step, w);
    forall i | 0 <= i < |after.ports| && after.ports[i].role.Slave? ensures i == w {
      SlaveAfterRun(s, step, i);
      IdentitiesDiffer(s, i, w);
    }
  }

  lemma NobodyIsFollowed(s: State, step: int)
    requires Enabled(s, RunBmca(step)) && OutsideLowClasses(s.shared.default)
    requires CompareOwn(s.shared.default, Ebest(ChosenAll(s.ports))) != Less
    ensures forall i :: 0 <= i < |BmcaRun(s, step).ports| ==> !BmcaRun(s, step).ports[i].role.Slave?
  {
    var d, chosen := s.shared.default, ChosenAll(s.ports);
    forall i | 0 <= i < |s.ports| ensures !BmcaRun(s, step).ports[i].role.Slave? {
      RunAt(s, step, i);
      DecidedFacts(d, Ebest(chosen), chosen[i]);
    }
  }

  /** Outside classes 1 to 127: if some contender ranks before the own clock, one before which none ranks
      is followed, on its port alone, and the data sets repeat what it said. Otherwise no port is
      Slave, and the own clock is told as grandmaster unless every port merely listens to nobody. */
  lemma FollowsTheBest(s: State, step: int)
    requires Inv(s) && |s.ports| <= MAX_PORTS && Enabled(s, RunBmca(step)) && Agreement(s)
    requires OutsideLowClasses(s.shared.default)
    ensures var after := BmcaRun(s, step);
            && after.shared.default == s.shared.default
            && if OwnIsBeatenAtAll(s) then exists w: nat, k: nat :: BestIsFollowed(s, after, w, k)
               else && (forall i :: 0 <= i < |after.ports| ==> !after.ports[i].role.Slave?)
                    && if exists p :: p in s.ports && Decides(p) then TellsOwn(after.shared) else after.shared == s.shared
  {
    var w, k := OwnLosesToAContender(s);
    if CompareOwn(s.shared.default, Ebest(ChosenAll(s.ports))) == Less {
      EbestIsTold(s, step, w, k);
      EbestIsFollowed(s, step, w, k);
      assert BestIsFollowed(s, BmcaRun(s, step), w, k);
    } else {
      OwnIsTold(s, step);
      NobodyIsFollowed(s, step);
    }
  }

  // ----- the role of every port -----

  /** The announce b was heard of the grandmaster that a follows, and lies behind a on the network: as far
      but from a larger sender or on a larger port, or one step farther from a smaller clock. */
  predicate LiesBehind(a: Best, b: Best) {
    && a.message.gmIdentity == b.message.gmIdentity
    && (|| (&& b.message.stepsRemoved == a.message.stepsRemoved
            && (|| a.message.header.source.clock < b.message.header.source.clock
                || (a.message.header.source.clock == b.message.header.source.clock && a.identity.port < b.identity.port)))
        || (b.message.stepsRemoved == a.message.stepsRemoved + 1 && b.message.header.source.clock < b.identity.clock))
  }

  predicate IsPassive(p: Port, q: Port) { q.role == if p.role.Faulty? then Faulty else Passive }

  /** The role of a port that nobody keeps from being Master. A disabled one is Passive, Faulty or not. */
  predicate MayBeMaster(slaveOnly: bool, p: Port, q: Port) {
    if slaveOnly then q.role == (if p.role.Faulty? then Faulty else Listening)
    else if p.disabled.Some? then q.role == Passive
    else q.role == (if p.role.Faulty? then Faulty else Role.Master)
  }

  lemma BehindIsBetterByTopology(a: Best, b: Best)
    ensures CompareDatasets(DatasetOf(a), DatasetOf(b)) == BetterByTopology <==> LiesBehind(a, b)
  {}

  // A decision about one port, from the four facts it depends on.

  lemma DecidedWhenBeaten(d: DefaultDS, ebest: Best, p: Port)
    requires p.mode.InBmca? && OutsideLowClasses(d) && BeatsOwn(d, ebest.message)
    ensures var q, erbest := Decided(d, Some(ebest), p), p.mode.localBest;
            if erbest.None? && p.role.Listening? then q.role == Listening
            else if erbest == Some(ebest) then q.role == if p.role.Faulty? then Faulty else Slave(ebest.message.header.source)
            else if erbest.Some? && LiesBehind(ebest, erbest.value) then IsPassive(p, q)
            else MayBeMaster(d.slaveOnly, p, q)
  {
    OwnLosesIff(d, ebest);
    if p.mode.localBest.Some? {
      BehindIsBetterByTopology(ebest, p.mode.localBest.value);
    }
  }

  lemma DecidedWhenUnbeaten(d: DefaultDS, ebest: Option<Best>, p: Port)
    requires p.mode.InBmca? && OutsideLowClasses(d) && (ebest.Some? ==> !BeatsOwn(d, ebest.value.message))
    ensures var q := Decided(d, ebest, p);
            if p.mode.localBest.None? && p.role.Listening? then q.role == Listening else MayBeMaster(d.slaveOnly, p, q)
  {
    if ebest.Some? {
      OwnLosesIff(d, ebest.value);
    }
  }

  lemma DecidedInLowClasses(d: DefaultDS, ebest: Option<Best>, p: Port)
    requires p.mode.InBmca? && !OutsideLowClasses(d)
    ensures var q, erbest := Decided(d, ebest, p), p.mode.localBest;
            if erbest.None? && p.role.Listening? then q.role == Listening
            else if erbest.Some? && BeatsOwn(d, erbest.value.message) then IsPassive(p, q)
            else MayBeMaster(d.slaveOnly, p, q)
  {
    if p.mode.localBest.Some? {
      OwnLosesIff(d, p.mode.localBest.value);
    }
  }

  lemma RunRole(s: State, step: int, i: nat)
    requires Enabled(s, RunBmca(step)) && i < |s.ports|
    ensures var p, q, chosen := s.ports[i], BmcaRun(s, step).ports[i], ChosenAll(s.ports);
            && q.role == Decided(s.shared.default, Ebest(chosen), chosen[i]).role
            && chosen[i].mode.localBest == BestOf(p.masters, p.identity)
            && chosen[i].role == p.role && chosen[i].disabled == p.disabled
            && (BestOf(p.masters, p.identity).None? && p.role.Listening? <==> !Decides(p))
  {
    RunAt(s, step, i);
    var k := ErbestIsHeard(s.ports[i]);
  }

  /** When the own clock loses: Ebest's port is Slave; a port that heard nobody and listens goes on
      listening; one whose Erbest lies behind Ebest is Passive; every other one may be Master. */
  lemma RoleWhenBeaten(s: State, step: int, i: nat)
    requires Identified(s) && |s.ports| <= MAX_PORTS && Enabled(s, RunBmca(step)) && i < |s.ports|
    requires OutsideLowClasses(s.shared.default)
    requires Ebest(ChosenAll(s.ports)).Some? && BeatsOwn(s.shared.default, Ebest(ChosenAll(s.ports)).value.message)
    ensures var p, q, ebest := s.ports[i], BmcaRun(s, step).ports[i], Ebest(ChosenAll(s.ports)).value;
            var erbest := BestOf(p.masters, p.identity);
            if p.identity == ebest.identity then q.role == Slave(ebest.message.header.source)
            else if !Decides(p) then q.role == Listening
            else if erbest.Some? && LiesBehind(ebest, erbest.value) then IsPassive(p, q)
            else MayBeMaster(s.shared.default.slaveOnly, p, q)
  {
    var w := EbestPort(s);
    RunRole(s, step, i);
    DecidedWhenBeaten(s.shared.default, Ebest(ChosenAll(s.ports)).value, ChosenAll(s.ports)[i]);
  }

  /** When it does not lose, every port that decides at all may be Master. */
  lemma RoleWhenUnbeaten(s: State, step: int, i: nat)
    requires Enabled(s, RunBmca(step)) && i < |s.ports| && OutsideLowClasses(s.shared.default)
    requires Ebest(ChosenAll(s.ports)).Some? ==> !BeatsOwn(s.shared.default, Ebest(ChosenAll(s.ports)).value.message)
    ensures var p, q := s.ports[i], BmcaRun(s, step).ports[i];
            if !Decides(p) then q.role == Listening else MayBeMaster(s.shared.default.slaveOnly, p, q)
  {
    RunRole(s, step, i);
    DecidedWhenUnbeaten(s.shared.default, Ebest(ChosenAll(s.ports)), ChosenAll(s.ports)[i]);
  }

  /** In classes 1 to 127 a port is Passive if its own Erbest beats D0, and else may be Master, whatever
      the other ports hear. */
  lemma RoleInLowClasses(s: State, step: int, i: nat)
    requires Enabled(s, RunBmca(step)) && i < |s.ports| && !OutsideLowClasses(s.shared.default)
    ensures var p, q := s.ports[i], BmcaRun(s, step).ports[i];
            var erbest := BestOf(p.masters, p.identity);
            if !Decides(p) then q.role == Listening
            else if erbest.Some? && BeatsOwn(s.shared.default, erbest.value.message) then IsPassive(p, q)
            else MayBeMaster(s.shared.default.slaveOnly, p, q)
  {
    RunRole(s, step, i);
    DecidedInLowClasses(s.shared.default, Ebest(ChosenAll(s.ports)), ChosenAll(s.ports)[i]);
  }

  // ----- the timers of a decision -----

  lemma DecidedPending(d: DefaultDS, ebest: Option<Best>, p: Port)
    requires p.mode.InBmca?
    ensures var q := Decided(d, ebest, p);
            && q.mode.InBmca? && q.timers == p.timers
            && q.mode.pending == if q.role == p.role || q.role.Passive? then p.mode.pending
                                 else if q.role.Slave? then [ResetReceipt, ResetDelay]
                                 else if q.role.Master? then [ResetAnnounce, ResetSync]
                                 else [ResetReceipt]
  {}

  /** The timers of q are those of p and the ones its change of role asks for. */
  predicate ArmedByChange(p: Port, q: Port) {
    var t, changed := EffectiveTimers(q), q.role != p.role;
    && t.announce == (p.timers.announce || (changed && q.role.Master?))
    && t.sync == (p.timers.sync || (changed && q.role.Master?))
    && t.receipt == (p.timers.receipt || (changed && (q.role.Listening? || q.role.Slave?)))
    && t.delay == (p.timers.delay || (changed && q.role.Slave?))
  }

  lemma DecidedArms(d: DefaultDS, ebest: Option<Best>, p: Port)
    requires p.mode.InBmca? && p.mode.pending == []
    ensures ArmedByChange(p, Decided(d, ebest, p))
  {
    DecidedPending(d, ebest, p);
    PendingEffect(p.timers, ResetReceipt, ResetDelay);
    PendingEffect(p.timers, ResetAnnounce, ResetSync);
  }

  /** When a port comes back from a run, exactly the timers of its new role have been armed on top of those
      that were: announce and sync of a new Master, receipt of a new listener, receipt and delay of a
      new Slave. */
  lemma RunArmsTimers(s: State, step: int, i: nat)
    requires Enabled(s, RunBmca(step)) && i < |s.ports| && s.ports[i].mode.pending == []
    ensures ArmedByChange(s.ports[i], BmcaRun(s, step).ports[i])
  {
    RunAt(s, step, i);
    var p := ChosenAll(s.ports)[i];
    assert p.role == s.ports[i].role && p.timers == s.ports[i].timers;
    DecidedArms(s.shared.default, Ebest(ChosenAll(s.ports)), p);
  }
}
