/** The comparison of announces in terms of what they say: which field counts before which, without the
    data sets in between. */
module AnnounceOrder {
  import opened Prelude
  import opened DataSets
  import opened DatasetComparison
  import opened Bmca

  /** Greater means better: smaller numbers first. */
  ghost function Order(s: seq<int>, t: seq<int>): Ordering
    requires |s| == |t|
  {
    if LexLess(s, t) then Greater else if LexLess(t, s) then Less else Equal
  }

  /** What an announce says of its grandmaster, most significant first. */
  function GrandmasterRank(a: Announce): seq<int> {
    [a.gmPriority1, a.gmQuality.clockClass, a.gmQuality.accuracy, a.gmQuality.variance, a.gmPriority2, a.gmIdentity]
  }

  /** How far it has come, from whom, and on which port it was heard. */
  function PathRank(b: Best): seq<int> { [b.message.stepsRemoved, b.message.header.source.clock, b.identity.port] }

  function Rank(b: Best): seq<int> { GrandmasterRank(b.message) + PathRank(b) }

  function AgedRank(b: Best): seq<int> { Rank(b) + [b.age] }

  function OwnGrandmasterRank(d: DefaultDS): seq<int> {
    [d.priority1, d.quality.clockClass, d.quality.accuracy, d.quality.variance, d.priority2, d.clockIdentity]
  }

  /** The own clock is its own grandmaster, no step away, heard on port 0. */
  function OwnRank(d: DefaultDS): seq<int> { OwnGrandmasterRank(d) + [0, d.clockIdentity, 0] }

  /** Announces of one grandmaster agree about it. */
  predicate Agree(a: Announce, b: Announce) {
    a.gmIdentity == b.gmIdentity ==> GrandmasterRank(a) == GrandmasterRank(b)
  }

  predicate AgreesWithOwn(d: DefaultDS, a: Announce) {
    a.gmIdentity == d.clockIdentity ==> GrandmasterRank(a) == OwnGrandmasterRank(d)
  }

  predicate FromElsewhere(b: Best) { b.message.header.source.clock != b.identity.clock }

  // ----- lexicographic order -----

  lemma LexShifts(p: seq<int>, s: seq<int>, t: seq<int>)
    requires |s| == |t|
    ensures LexLess(p + s, p + t) <==> LexLess(s, t)
  {
    if LexLess(s, t) {
      var k :| 0 <= k < |s| && s[k] < t[k] && forall j :: 0 <= j < k ==> s[j] == t[j];
      LexAt(p + s, p + t, |p| + k);
    }
    if LexLess(p + s, p + t) {
      var k :| 0 <= k < |p + s| && (p + s)[k] < (p + t)[k] && forall j :: 0 <= j < k ==> (p + s)[j] == (p + t)[j];
      forall j | 0 <= j < k - |p| ensures s[j] == t[j] {
        assert (p + s)[|p| + j] == s[j] && (p + t)[|p| + j] == t[j];
      }
      LexAt(s, t, k - |p|);
    }
  }

  lemma LexDecidedEarly(p: seq<int>, q: seq<int>, s: seq<int>, t: seq<int>)
    requires |p| == |q| && |s| == |t| && LexLess(p, q)
    ensures Order(p + s, q + t) == Greater && Order(q + t, p + s) == Less
  {
    var k :| 0 <= k < |p| && p[k] < q[k] && forall j :: 0 <= j < k ==> p[j] == q[j];
    LexAt(p + s, q + t, k);
  }

  /** The front decides, and the back where it does not. */
  lemma OrderSplits(p: seq<int>, q: seq<int>, s: seq<int>, t: seq<int>)
    requires |p| == |q| && |s| == |t|
    ensures Order(p + s, q + t) == Order(p, q).Then(Order(s, t))
  {
    LexTotal(p, q);
    if p == q {
      LexShifts(p, s, t);
      LexShifts(p, t, s);
    } else if LexLess(p, q) {
      LexDecidedEarly(p, q, s, t);
    } else {
      LexDecidedEarly(q, p, t, s);
    }
  }

  lemma OrderOfOne(x: int, y: int)
    ensures Order([x], [y]) == Compare(y, x)
  {
    LexTotal([x], [y]);
    if x < y {
      LexAt([x], [y], 0);
    } else if y < x {
      LexAt([y], [x], 0);
    }
  }

  /** Not being better is transitive. */
  lemma OrderTransitive(s: seq<int>, t: seq<int>, u: seq<int>)
    requires |s| == |t| == |u| && !LexLess(s, t) && !LexLess(t, u)
    ensures !LexLess(s, u)
  {
    LexTotal(s, t);
    LexTotal(t, u);
    LexTotal(s, u);
    if LexLess(t, s) && LexLess(u, t) {
      LexTransitive(u, t, s);
    }
  }

  // ----- announces -----

  lemma KeyIsRank(b: Best)
    ensures Key(DatasetOf(b)) == Rank(b)
  {}

  lemma DifferentGrandmasters(a: Best, b: Best)
    requires a.message.gmIdentity != b.message.gmIdentity
    ensures CompareBest(a, b) == Order(GrandmasterRank(a.message), GrandmasterRank(b.message))
  {
    CompareIsLexicographic(DatasetOf(a), DatasetOf(b));
    KeyIsRank(a);
    KeyIsRank(b);
    var p, q := GrandmasterRank(a.message), GrandmasterRank(b.message);
    OrderSplits(p, q, PathRank(a), PathRank(b));
    LexTotal(p, q);
    assert p[5] != q[5];
  }

  /** The two are one step apart, and the farther one was heard by the clock that sent it. */
  predicate HeardByItsSender(a: Best, b: Best) {
    || (a.message.stepsRemoved == b.message.stepsRemoved + 1 && !FromElsewhere(a))
    || (b.message.stepsRemoved == a.message.stepsRemoved + 1 && !FromElsewhere(b))
  }

  lemma SameGrandmaster(a: Best, b: Best)
    requires a.message.gmIdentity == b.message.gmIdentity && !HeardByItsSender(a, b)
    ensures CompareBest(a, b) == Order(PathRank(a) + [a.age], PathRank(b) + [b.age])
  {
    var m := b.message.(gmPriority1 := a.message.gmPriority1, gmQuality := a.message.gmQuality,
                        gmPriority2 := a.message.gmPriority2);
    var c := b.(message := m);
    assert CompareDatasets(DatasetOf(a), DatasetOf(c)) == CompareDatasets(DatasetOf(a), DatasetOf(b));
    CompareIsLexicographic(DatasetOf(a), DatasetOf(c));
    KeyIsRank(a);
    KeyIsRank(c);
    var p := GrandmasterRank(a.message);
    assert p == GrandmasterRank(m) && PathRank(c) == PathRank(b);
    LexShifts(p, PathRank(a), PathRank(b));
    LexShifts(p, PathRank(b), PathRank(a));
    OrderSplits(PathRank(a), PathRank(b), [a.age], [b.age]);
    OrderOfOne(a.age, b.age);
  }

  lemma HeardByItsSenderTies(a: Best, b: Best)
    requires a.message.gmIdentity == b.message.gmIdentity && HeardByItsSender(a, b)
    ensures CompareBest(a, b) == Order([a.age], [b.age])
  {
    OrderOfOne(a.age, b.age);
  }

  /** Which of two messages is better, for all messages. Different grandmasters: what is said of them.
      The same: steps, sender, receiving port, age; but age alone for two messages one step apart of
      which the farther was heard by the clock that sent it. */
  lemma CompareByFields(a: Best, b: Best)
    ensures CompareBest(a, b) ==
              if a.message.gmIdentity != b.message.gmIdentity
              then Order(GrandmasterRank(a.message), GrandmasterRank(b.message))
              else if HeardByItsSender(a, b) then Order([a.age], [b.age])
              else Order(PathRank(a) + [a.age], PathRank(b) + [b.age])
  {
    if a.message.gmIdentity != b.message.gmIdentity {
      DifferentGrandmasters(a, b);
    } else if HeardByItsSender(a, b) {
      HeardByItsSenderTies(a, b);
    } else {
      SameGrandmaster(a, b);
    }
  }

  /** On messages from elsewhere that agree about their grandmasters it is one order: priority 1, class,
      accuracy, variance, priority 2, identity, steps, sender, receiving port, age. */
  lemma CompareByRank(a: Best, b: Best)
    requires Agree(a.message, b.message) && FromElsewhere(a) && FromElsewhere(b)
    ensures CompareBest(a, b) == Order(AgedRank(a), AgedRank(b))
  {
    CompareByFields(a, b);
    var p, q := GrandmasterRank(a.message), GrandmasterRank(b.message);
    var s, t := PathRank(a) + [a.age], PathRank(b) + [b.age];
    OrderSplits(p, q, s, t);
    LexTotal(p, q);
    assert AgedRank(a) == p + s && AgedRank(b) == q + t;
    assert p[5] == a.message.gmIdentity && q[5] == b.message.gmIdentity;
  }

  // ----- the own clock -----

  /** What it takes to be better than the own clock. */
  ghost predicate BeatsOwn(d: DefaultDS, a: Announce) {
    if a.gmIdentity != d.clockIdentity then LexLess(GrandmasterRank(a), OwnGrandmasterRank(d))
    else a.stepsRemoved == 0 && a.header.source.clock < d.clockIdentity
  }

  /** An announce as D0 would compare: the own data sent by the own clock. */
  function Said(d: DefaultDS, a: Announce): Announce {
    a.(gmPriority1 := d.priority1, gmQuality := d.quality, gmPriority2 := d.priority2, gmIdentity := d.clockIdentity,
       stepsRemoved := 0, header := a.header.(source := PortIdentity(d.clockIdentity, 0)))
  }

  lemma OwnAsMessage(d: DefaultDS, b: Best) returns (own: Best)
    ensures own == Best(Said(d, b.message), b.age, PortIdentity(d.clockIdentity, 0))
    ensures DatasetOf(own) == FromOwn(d) && GrandmasterRank(own.message) == OwnGrandmasterRank(d) && Rank(own) == OwnRank(d)
    ensures CompareOwn(d, Some(b)) == Less <==> CompareBest(own, b) == Less
  {
    own := Best(Said(d, b.message), b.age, PortIdentity(d.clockIdentity, 0));
  }

  /** The own clock loses to an announce exactly if what is said of the other grandmaster is better, or if
      the announce claims the own clock as grandmaster at no distance and comes from a smaller clock. */
  lemma OwnLosesIff(d: DefaultDS, b: Best)
    ensures CompareOwn(d, Some(b)) == Less <==> BeatsOwn(d, b.message)
  {
    if b.message.gmIdentity != d.clockIdentity {
      var own := OwnAsMessage(d, b);
      DifferentGrandmasters(own, b);
      LexTotal(GrandmasterRank(own.message), GrandmasterRank(b.message));
    }
  }

  /** On an announce from elsewhere that agrees about the own clock, D0 takes part in the one order with
      its own priorities, quality and identity, zero steps and port number zero. */
  lemma OwnByRank(d: DefaultDS, b: Best)
    requires AgreesWithOwn(d, b.message) && FromElsewhere(b)
    ensures CompareOwn(d, Some(b)) == Order(OwnRank(d), Rank(b))
  {
    var own := OwnAsMessage(d, b);
    KeyIsRank(own);
    KeyIsRank(b);
    CompareIsLexicographic(FromOwn(d), DatasetOf(b));
    var p, q := OwnGrandmasterRank(d), GrandmasterRank(b.message);
    assert p == q ==> p[0] == q[0] && p[1] == q[1] && p[2] == q[2] && p[3] == q[3] && p[4] == q[4];
  }
}
