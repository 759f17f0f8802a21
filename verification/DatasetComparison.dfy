/** The data set comparison of section 9.3.4 of IEEE 1588-2019 and the choice of a best message. */
module DatasetComparison {
  import opened Prelude
  import opened DataSets

  datatype Dataset = Dataset(
    gmPriority1: u8, gmIdentity: ClockIdentity, gmQuality: ClockQuality, gmPriority2: u8,
    steps: u16, sender: ClockIdentity, receiver: PortIdentity)

  datatype DatasetOrdering = Better | BetterByTopology | Error1 | Error2 | WorseByTopology | Worse {

    function AsOrdering(): Ordering {
      match this
      case Better => Greater
      case BetterByTopology => Greater
      case Error1 => Equal
      case Error2 => Equal
      case WorseByTopology => Less
      case Worse => Less
    }

    function Mirror(): DatasetOrdering {
      match this
      case Better => Worse
      case BetterByTopology => WorseByTopology
      case Error1 => Error1
      case Error2 => Error2
      case WorseByTopology => BetterByTopology
      case Worse => Better
    }
  }

  function FromAnnounce(a: Announce, receiver: PortIdentity): Dataset {
    Dataset(a.gmPriority1, a.gmIdentity, a.gmQuality, a.gmPriority2, a.stepsRemoved, a.header.source.clock, receiver)
  }

  function FromOwn(d: DefaultDS): Dataset {
    Dataset(d.priority1, d.clockIdentity, d.quality, d.priority2, 0, d.clockIdentity, PortIdentity(d.clockIdentity, 0))
  }

  /** Figure 34: different grandmasters. */
  function CompareDifferent(a: Dataset, b: Dataset): DatasetOrdering
    requires a.gmIdentity != b.gmIdentity
  {
    if AttributeOrder(a, b).Then(Compare(a.gmIdentity, b.gmIdentity)) == Greater then Worse else Better
  }

  function AttributeOrder(a: Dataset, b: Dataset): Ordering {
    Compare(a.gmPriority1, b.gmPriority1)
    .Then(Compare(a.gmQuality.clockClass, b.gmQuality.clockClass))
    .Then(Compare(a.gmQuality.accuracy, b.gmQuality.accuracy))
    .Then(Compare(a.gmQuality.variance, b.gmQuality.variance))
    .Then(Compare(a.gmPriority2, b.gmPriority2))
  }

  /** Figure 35: possibly the same grandmaster. */
  function CompareSame(a: Dataset, b: Dataset): DatasetOrdering {
    var difference: int := a.steps as int - b.steps as int;
    if difference >= 2 then Worse
    else if difference <= -2 then Better
    else if difference == 1 then
      match Compare(a.receiver.clock, a.sender)
      case Less => Worse
      case Equal => Error1
      case Greater => WorseByTopology
    else if difference == -1 then
      match Compare(b.receiver.clock, b.sender)
      case Less => Better
      case Equal => Error1
      case Greater => BetterByTopology
    else
      match Compare(a.sender, b.sender).Then(Compare(a.receiver.port, b.receiver.port))
      case Less => BetterByTopology
      case Equal => Error2
      case Greater => WorseByTopology
  }

  function CompareDatasets(a: Dataset, b: Dataset): DatasetOrdering {
    if a.gmIdentity == b.gmIdentity then CompareSame(a, b) else CompareDifferent(a, b)
  }

  /** Swapping the arguments mirrors the verdict, whatever the data. */
  lemma CompareIsAntisymmetric(a: Dataset, b: Dataset)
    ensures CompareDatasets(b, a) == CompareDatasets(a, b).Mirror()
    ensures CompareDatasets(b, a).AsOrdering() == CompareDatasets(a, b).AsOrdering().Reverse()
  {}

  // ----- the order behind the two figures -----

  /** Everything that ranks a data set, most significant first; smaller is better. */
  function Key(d: Dataset): seq<int> {
    [d.gmPriority1, d.gmQuality.clockClass, d.gmQuality.accuracy, d.gmQuality.variance, d.gmPriority2,
     d.gmIdentity, d.steps, d.sender, d.receiver.port]
  }

  ghost predicate LexLess(s: seq<int>, t: seq<int>)
    requires |s| == |t|
  {
    exists k :: 0 <= k < |s| && s[k] < t[k] && forall j :: 0 <= j < k ==> s[j] == t[j]
  }

  lemma {:induction false} LexTotal(s: seq<int>, t: seq<int>)
    requires |s| == |t|
    ensures s == t || LexLess(s, t) || LexLess(t, s)
    ensures !(LexLess(s, t) && LexLess(t, s))
  {
    var k := 0;
    while k < |s| && s[k] == t[k]
      invariant k <= |s| && forall j :: 0 <= j < k ==> s[j] == t[j]
    {
      k := k + 1;
    }
  }

  lemma LexTransitive(s: seq<int>, t: seq<int>, u: seq<int>)
    requires |s| == |t| == |u| && LexLess(s, t) && LexLess(t, u)
    ensures LexLess(s, u)
  {
    var i :| 0 <= i < |s| && s[i] < t[i] && forall j :: 0 <= j < i ==> s[j] == t[j];
    var k :| 0 <= k < |t| && t[k] < u[k] && forall j :: 0 <= j < k ==> t[j] == u[j];
    var m := if i < k then i else k;
    assert s[m] < u[m] && forall j :: 0 <= j < m ==> s[j] == u[j];
  }

  ghost function KeyOrder(a: Dataset, b: Dataset): Ordering {
    if LexLess(Key(a), Key(b)) then Greater else if LexLess(Key(b), Key(a)) then Less else Equal
  }

  /** Announces with the same grandmaster carry the same grandmaster attributes. */
  predicate Consistent(a: Dataset, b: Dataset) {
    a.gmIdentity == b.gmIdentity ==>
      a.gmPriority1 == b.gmPriority1 && a.gmQuality == b.gmQuality && a.gmPriority2 == b.gmPriority2
  }

  /** The guard of the one branch that cannot decide: one step apart, and the farther message came
      from the clock that received it. */
  predicate ComesFromReceiver(a: Dataset, b: Dataset) {
    && a.gmIdentity == b.gmIdentity
    && ((a.steps == b.steps + 1 && a.receiver.clock == a.sender) || (b.steps == a.steps + 1 && b.receiver.clock == b.sender))
  }

  lemma LexAt(s: seq<int>, t: seq<int>, k: nat)
    requires |s| == |t| && k < |s| && s[k] < t[k] && forall j :: 0 <= j < k ==> s[j] == t[j]
    ensures LexLess(s, t) && !LexLess(t, s)
  {
    LexTotal(s, t);
  }

  /** On consistent data the two figures are one lexicographic order, exactly when no message came
      from the clock that received it. */
  lemma CompareIsLexicographic(a: Dataset, b: Dataset)
    requires Consistent(a, b)
    ensures CompareDatasets(a, b).AsOrdering() == KeyOrder(a, b) <==> !ComesFromReceiver(a, b)
  {
    var s, t := Key(a), Key(b);
    if s == t {
      LexTotal(s, t);
    } else {
      var k := 0;
      while s[k] == t[k]
        invariant 0 <= k < 9 && forall j :: 0 <= j < k ==> s[j] == t[j]
        decreases 9 - k
      {
        assert k == 8 ==> s == t;
        k := k + 1;
      }
      assert forall j :: 0 <= j < k ==> s[j] == t[j];
      assert k > 0 ==> s[0] == t[0];
      assert k > 1 ==> s[1] == t[1];
      assert k > 2 ==> s[2] == t[2];
      assert k > 3 ==> s[3] == t[3];
      assert k > 4 ==> s[4] == t[4];
      assert k > 5 ==> s[5] == t[5];
      assert k > 6 ==> s[6] == t[6];
      assert k > 7 ==> s[7] == t[7];
      if s[k] < t[k] {
        LexAt(s, t, k);
      } else {
        LexAt(t, s, k);
      }
    }
  }

  /** Without consistency the comparison is no order at all: three announces, each better than
      the next, in a circle. */
  lemma InconsistentDataCanCycle()
    ensures exists a: Dataset, b: Dataset, c: Dataset ::
              && CompareDatasets(a, b) == Better && CompareDatasets(b, c) == Better && CompareDatasets(c, a) == Better
              && !ComesFromReceiver(a, b) && !ComesFromReceiver(b, c) && !ComesFromReceiver(c, a)
              && !Consistent(c, a)
  {
    var q, r := ClockQuality(248, 254, 0), PortIdentity(9, 1);
    var a := Dataset(1, 5, q, 0, 7, 3, r);
    var b := Dataset(2, 6, q, 0, 0, 3, r);
    var c := Dataset(3, 5, q, 0, 0, 3, r);
    assert CompareDatasets(a, b) == Better && CompareDatasets(b, c) == Better && CompareDatasets(c, a) == Better;
  }

  predicate Beats(a: Dataset, b: Dataset) { CompareDatasets(a, b).AsOrdering() == Greater }

  /** The attributes come before everything else in the comparison of different grandmasters. */
  lemma BeatsMeansAttributes(a: Dataset, b: Dataset)
    requires a.gmIdentity != b.gmIdentity
    ensures Beats(a, b) <==>
              AttributeOrder(a, b) == Less || (AttributeOrder(a, b) == Equal && a.gmIdentity < b.gmIdentity)
  {}

  lemma AttributesTransitive(a: Dataset, b: Dataset, c: Dataset)
    requires AttributeOrder(a, b) != Greater && AttributeOrder(b, c) != Greater
    ensures AttributeOrder(a, c) != Greater
    ensures AttributeOrder(a, c) == Equal ==> AttributeOrder(a, b) == Equal && AttributeOrder(b, c) == Equal
  {}

  /** Some data set of another grandmaster closes a circle with two of the same grandmaster. */
  ghost predicate InCycle(a: Dataset, c: Dataset) {
    exists b: Dataset :: b.gmIdentity != a.gmIdentity && Beats(a, b) && Beats(b, c) && Beats(c, a)
  }

  /** Two data sets of one grandmaster lie on a circle exactly if the one with the better attributes
      loses the comparison of steps and topology, which does not look at attributes. */
  lemma CycleIffAttributesDisagree(a: Dataset, c: Dataset)
    requires a.gmIdentity == c.gmIdentity
    ensures InCycle(a, c) <==> AttributeOrder(a, c) == Less && Beats(c, a)
  {
    if b: Dataset :| b.gmIdentity != a.gmIdentity && Beats(a, b) && Beats(b, c) && Beats(c, a) {
      BeatsMeansAttributes(a, b);
      BeatsMeansAttributes(b, c);
      AttributesTransitive(a, b, c);
    }
    if AttributeOrder(a, c) == Less && Beats(c, a) {
      var b := if a.gmIdentity == 0 then a.(gmIdentity := 1) else c.(gmIdentity := a.gmIdentity - 1);
      BeatsMeansAttributes(a, b);
      BeatsMeansAttributes(b, c);
      assert Beats(a, b) && Beats(b, c);
    }
  }

  // ----- the best of several messages -----

  datatype Best = Best(message: Announce, age: int, identity: PortIdentity)

  function DatasetOf(b: Best): Dataset { FromAnnounce(b.message, b.identity) }

  function CompareBest(a: Best, b: Best): Ordering {
    CompareDatasets(DatasetOf(a), DatasetOf(b)).AsOrdering().Then(Compare(b.age, a.age))
  }

  /** The fold behind the choice: a later message wins unless the one in hand is strictly better. */
  function MaxBy(s: seq<Best>): Option<Best> {
    if |s| == 0 then None
    else
      var last := s[|s| - 1];
      match MaxBy(s[..|s| - 1])
      case None => Some(last)
      case Some(x) => if CompareBest(x, last) == Greater then Some(x) else Some(last)
  }

  /** Data on which the comparison is an order: consistent, and not from the receiving clock. */
  ghost predicate Comparable(s: set<Dataset>) {
    && (forall d :: d in s ==> d.sender != d.receiver.clock || d.steps == 0)
    && (forall a, b :: a in s && b in s ==> Consistent(a, b))
  }

  ghost predicate NoBetter(a: Dataset, b: Dataset) {
    CompareDatasets(a, b).AsOrdering() != Greater
  }

  lemma ComparableIsOrdered(s: set<Dataset>, a: Dataset, b: Dataset)
    requires Comparable(s) && a in s && b in s
    ensures CompareDatasets(a, b).AsOrdering() == KeyOrder(a, b)
  {
    CompareIsLexicographic(a, b);
  }

  lemma KeyOrderTransitive(a: Dataset, b: Dataset, c: Dataset)
    requires KeyOrder(a, b) != Greater && KeyOrder(b, c) != Greater
    ensures KeyOrder(a, c) != Greater
    ensures KeyOrder(a, c) == Equal ==> KeyOrder(a, b) == Equal && KeyOrder(b, c) == Equal
  {
    LexTotal(Key(a), Key(b));
    LexTotal(Key(b), Key(c));
    LexTotal(Key(a), Key(c));
    if LexLess(Key(b), Key(a)) && LexLess(Key(c), Key(b)) {
      LexTransitive(Key(c), Key(b), Key(a));
    }
  }

  lemma NoBetterTransitive(s: set<Dataset>, a: Dataset, b: Dataset, c: Dataset)
    requires Comparable(s) && a in s && b in s && c in s
    requires NoBetter(a, b) && NoBetter(b, c)
    ensures NoBetter(a, c)
  {
    ComparableIsOrdered(s, a, b);
    ComparableIsOrdered(s, b, c);
    ComparableIsOrdered(s, a, c);
    KeyOrderTransitive(a, b, c);
  }

  ghost function DatasetsOf(s: seq<Best>): set<Dataset> { set b | b in s :: DatasetOf(b) }

  lemma CompareBestTransitive(s: seq<Best>, a: Best, b: Best, c: Best)
    requires Comparable(DatasetsOf(s)) && a in s && b in s && c in s
    requires CompareBest(a, b) != Greater && CompareBest(b, c) != Greater
    ensures CompareBest(a, c) != Greater
  {
    var all := DatasetsOf(s);
    assert DatasetOf(a) in all && DatasetOf(b) in all && DatasetOf(c) in all;
    ComparableIsOrdered(all, DatasetOf(a), DatasetOf(b));
    ComparableIsOrdered(all, DatasetOf(b), DatasetOf(c));
    ComparableIsOrdered(all, DatasetOf(a), DatasetOf(c));
    KeyOrderTransitive(DatasetOf(a), DatasetOf(b), DatasetOf(c));
  }

  /** The chosen message is one of the messages, strictly better than every later one. */
  lemma {:induction false} MaxByPicks(s: seq<Best>) returns (i: nat)
    requires s != []
    ensures i < |s| && MaxBy(s) == Some(s[i])
    ensures forall j :: i < j < |s| ==> CompareBest(s[i], s[j]) == Greater
  {
    var front, last := s[..|s| - 1], s[|s| - 1];
    i := |s| - 1;
    if front != [] {
      var k := MaxByPicks(front);
      if CompareBest(front[k], last) == Greater {
        i := k;
      }
    }
  }

  /** On comparable data no message at all is better than the chosen one, age breaking ties in
      favour of the newer. */
  lemma {:induction false} MaxByIsBest(s: seq<Best>)
    requires Comparable(DatasetsOf(s))
    ensures forall b :: b in s ==> MaxBy(s).Some? && CompareBest(b, MaxBy(s).value) != Greater
  {
    if s != [] {
      var front, last := s[..|s| - 1], s[|s| - 1];
      assert s == front + [last];
      assert DatasetsOf(front) <= DatasetsOf(s) by { assert forall b :: b in front ==> b in s; }
      MaxByIsBest(front);
      CompareIsAntisymmetric(DatasetOf(last), DatasetOf(last));
      if front != [] {
        var i := MaxByPicks(front);
        var x := front[i];
        assert x in front && x in s;
        CompareIsAntisymmetric(DatasetOf(x), DatasetOf(last));
        if CompareBest(x, last) != Greater {
          forall b | b in front ensures CompareBest(b, last) != Greater {
            CompareBestTransitive(s, b, x, last);
          }
        }
      }
    }
  }
}
