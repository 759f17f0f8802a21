/** From clock to clock: what an instance announces of the clock it follows, and why an announce never comes
    back better than it went out. */
module AnnounceChain {
  import opened Prelude
  import opened DataSets
  import opened DatasetComparison
  import opened Bmca
  import opened AnnounceOrder
  import opened Decisions
  import Bytes
  import Messages

  /** The announce of a Master port: what the data sets say, under a header that gives version, domain,
      source and sequence number. */
  function AnnounceOf(s: Shared, base: Header): Announce {
    var t := s.time;
    Announce(
      base.(leap59 := t.leap.Leap59?, leap61 := t.leap.Leap61?, utcOffsetValid := t.utcOffset.Some?,
            ptpTimescale := t.ptpTimescale, timeTraceable := t.timeTraceable, frequencyTraceable := t.frequencyTraceable),
      WireTimestamp(0, 0), if t.utcOffset.Some? then t.utcOffset.value else 0,
      s.parent.gmPriority1, s.parent.gmQuality, s.parent.gmPriority2, s.parent.gmIdentity, s.stepsRemoved, t.timeSource)
  }

  /** Whoever follows the announce has the sender's data sets, with the sender as parent and one step more. */
  lemma FollowerRepeats(s: Shared, base: Header, follower: Shared)
    requires Tells(follower, AnnounceOf(s, base))
    ensures follower.time == s.time && follower.parent == s.parent.(parent := base.source)
    ensures follower.stepsRemoved == s.stepsRemoved + 1
  {}

  /** The same grandmaster and time, told n clocks farther on. */
  predicate Repeats(b: Announce, a: Announce, n: nat) {
    GrandmasterRank(b) == GrandmasterRank(a) && AnnouncedTime(b) == AnnouncedTime(a) && b.stepsRemoved == a.stepsRemoved + n
  }

  lemma RepeatsAdd(c: Announce, b: Announce, a: Announce, m: nat, n: nat)
    requires Repeats(c, b, m) && Repeats(b, a, n)
    ensures Repeats(c, a, m + n)
  {}

  /** A clock that follows an announce passes on its grandmaster and time properties, one step farther. */
  lemma PassedOn(s: Shared, a: Announce, base: Header)
    requires Tells(s, a)
    ensures var b := AnnounceOf(s, base);
            Repeats(b, a, 1) && b.header.source == base.source
  {}

  /** Whoever hears an announce and the one a follower makes of it prefers the first, whatever their ages and the
      ports and clocks they come by. */
  lemma OriginalIsBetter(s: Shared, a: Announce, base: Header, x: Best, y: Best)
    requires Tells(s, a) && x.message == a && y.message == AnnounceOf(s, base) && FromElsewhere(y)
    ensures CompareBest(x, y) == Greater
  {
    PassedOn(s, a, base);
    CompareByFields(x, y);
    assert GrandmasterRank(a)[5] == GrandmasterRank(y.message)[5];
    LexAt(PathRank(x) + [x.age], PathRank(y) + [y.age], 0);
  }

  /** n clocks, each following the announce of the one before, the first following `a`. */
  ghost predicate Chain(clocks: seq<Shared>, bases: seq<Header>, a: Announce) {
    |clocks| == |bases| && forall i: nat :: i < |clocks| ==> FollowsAt(clocks, bases, a, i)
  }

  predicate FollowsAt(clocks: seq<Shared>, bases: seq<Header>, a: Announce, i: nat) {
    i < |clocks| == |bases| && Tells(clocks[i], HeardAt(clocks, bases, a, i))
  }

  /** What clock i of the chain follows. */
  function HeardAt(clocks: seq<Shared>, bases: seq<Header>, a: Announce, i: nat): Announce
    requires i <= |clocks| == |bases|
  {
    if i == 0 then a else AnnounceOf(clocks[i - 1], bases[i - 1])
  }

  lemma ChainNext(clocks: seq<Shared>, bases: seq<Header>, a: Announce, i: nat)
    requires Chain(clocks, bases, a) && i < |clocks|
    ensures Repeats(HeardAt(clocks, bases, a, i + 1), HeardAt(clocks, bases, a, i), 1)
  {
    assert FollowsAt(clocks, bases, a, i);
    PassedOn(clocks[i], HeardAt(clocks, bases, a, i), bases[i]);
  }

  /** Along a chain the grandmaster and its time stay the same and the steps count the clocks passed. */
  lemma {:induction false} ChainCountsSteps(clocks: seq<Shared>, bases: seq<Header>, a: Announce, i: nat)
    requires Chain(clocks, bases, a) && i <= |clocks|
    ensures Repeats(HeardAt(clocks, bases, a, i), a, i)
  {
    if i > 0 {
      ChainCountsSteps(clocks, bases, a, i - 1);
      ChainNext(clocks, bases, a, i - 1);
      RepeatsAdd(HeardAt(clocks, bases, a, i), HeardAt(clocks, bases, a, i - 1), a, 1, i - 1);
    }
  }

  /** A clock that announces itself is never beaten by its own announce come back through other clocks: it
      follows no chain that leads back to it. */
  lemma NeverFollowsItself(own: Shared, base: Header, clocks: seq<Shared>, bases: seq<Header>, i: nat, age: int,
                           port: PortIdentity)
    requires TellsOwn(own) && Chain(clocks, bases, AnnounceOf(own, base)) && 0 < i <= |clocks|
    ensures CompareOwn(own.default, Some(Best(HeardAt(clocks, bases, AnnounceOf(own, base), i), age, port))) != Less
  {
    var a := AnnounceOf(own, base);
    var b := HeardAt(clocks, bases, a, i);
    ChainCountsSteps(clocks, bases, a, i);
    assert GrandmasterRank(b)[5] == GrandmasterRank(a)[5];
    OwnLosesIff(own.default, Best(b, age, port));
  }

  /** The announce is read back as sent, exactly if the data sets hold an accuracy and a time source that the
      wire can tell apart. */
  lemma AnnounceIsReadBack(s: Shared, base: Header, previous: seq<u8>)
    requires |previous| == 64
    ensures var a := AnnounceOf(s, base);
            var m := Messages.Message(a.header, Messages.AnnounceBody(a), []);
            Messages.Parse(Messages.MessageBytes(m, previous)) == Bytes.Ok(m) <==>
              && Messages.ReadAccuracy(s.parent.gmQuality.accuracy) == s.parent.gmQuality.accuracy
              && Messages.ReadTimeSource(Messages.PutTimeSource(s.time.timeSource)) == s.time.timeSource
  {
    var a := AnnounceOf(s, base);
    Messages.RoundTripsIffFits(Messages.Message(a.header, Messages.AnnounceBody(a), []), previous);
  }
}
