/** The announce store as a function of its history: which announces it holds and how old they are,
    from receipts, steps of time and choices alone. */
module StoreHistory {
  import opened Prelude
  import opened DataSets
  import opened DatasetComparison
  import opened ForeignMasters
  import opened Bmca

  /** An announce is forgotten once it is this many intervals old. */
  const WINDOW := 4

  /** No more announces than this are held of one master. */
  const CAPACITY := 8

  /** What is held of one master, oldest first. */
  function ListOf(masters: seq<ForeignMasters.Master>, id: PortIdentity): seq<Stored> {
    if |masters| == 0 then []
    else if masters[0].identity == id then masters[0].messages
    else ListOf(masters[1..], id)
  }

  lemma {:induction false} ListAt(masters: seq<ForeignMasters.Master>, k: nat)
    requires Distinct(masters) && k < |masters|
    ensures ListOf(masters, masters[k].identity) == masters[k].messages
  {
    if k > 0 {
      assert masters[0].identity != masters[k].identity && masters[1..][k - 1] == masters[k];
      assert forall i :: 0 <= i < |masters| - 1 ==> masters[1..][i] == masters[i + 1];
      ListAt(masters[1..], k - 1);
    }
  }

  lemma {:induction false} ListAbsent(masters: seq<ForeignMasters.Master>, id: PortIdentity)
    requires forall k :: 0 <= k < |masters| ==> masters[k].identity != id
    ensures ListOf(masters, id) == []
  {
    if |masters| > 0 {
      assert forall k :: 0 <= k < |masters| - 1 ==> masters[1..][k] == masters[k + 1];
      ListAbsent(masters[1..], id);
    }
  }

  /** A master is known exactly if something is held of it. */
  lemma ListIsKnown(masters: seq<ForeignMasters.Master>, own: PortIdentity, interval: int, id: PortIdentity)
    requires StoreInv(masters, own, interval)
    ensures match Find(masters, id)
            case None => ListOf(masters, id) == []
            case Some(i) => i < |masters| && masters[i].identity == id && ListOf(masters, id) == masters[i].messages != []
  {
    FindFinds(masters, id);
    match Find(masters, id)
    case None => ListAbsent(masters, id);
    case Some(i) =>
      ListAt(masters, i);
      assert MasterInv(masters[i], own, interval);
  }

  // ----- a step of time -----

  /** Everything older by `step`, without what reaches the cutoff. */
  function Older(s: seq<Stored>, step: int, cutoff: int): seq<Stored> {
    if |s| == 0 then []
    else
      (if s[0].age + step < cutoff then [Stored(s[0].message, s[0].age + step)] else []) + Older(s[1..], step, cutoff)
  }

  lemma {:induction false} PurgedIsOlder(s: seq<Stored>, step: int, cutoff: int)
    ensures Retain(Grown(s, step), cutoff) == Older(s, step, cutoff)
  {
    if |s| > 0 {
      PurgedIsOlder(s[1..], step, cutoff);
      assert Grown(s, step)[1..] == Grown(s[1..], step);
    }
  }

  lemma AgedHead(masters: seq<ForeignMasters.Master>, step: int, interval: int, id: PortIdentity)
    requires Distinct(masters) && |masters| > 0
    requires ListOf(Aged(masters[1..], step, interval), id) == Older(ListOf(masters[1..], id), step, WINDOW * interval)
    ensures ListOf(Aged(masters, step, interval), id) == Older(ListOf(masters, id), step, WINDOW * interval)
  {
    var rest, head := masters[1..], AgedMaster(masters[0], step, interval);
    PurgedIsOlder(masters[0].messages, step, Cutoff(interval));
    assert Cutoff(interval) == WINDOW * interval;
    if head.messages != [] {
      assert Aged(masters, step, interval) == [head] + Aged(rest, step, interval);
      assert Aged(masters, step, interval)[1..] == Aged(rest, step, interval);
    } else {
      assert Aged(masters, step, interval) == Aged(rest, step, interval);
      if masters[0].identity == id {
        assert forall k :: 0 <= k < |rest| ==> rest[k] == masters[k + 1];
        ListAbsent(rest, id);
      }
    }
  }

  /** A step of time makes everything held of every master older by exactly that step and forgets exactly
      what has then reached four intervals. */
  lemma {:induction false} TimeMakesOlder(masters: seq<ForeignMasters.Master>, step: int, interval: int, id: PortIdentity)
    requires Distinct(masters)
    ensures ListOf(Aged(masters, step, interval), id) == Older(ListOf(masters, id), step, WINDOW * interval)
  {
    if |masters| > 0 {
      assert forall k :: 0 <= k < |masters| - 1 ==> masters[1..][k] == masters[k + 1];
      TimeMakesOlder(masters[1..], step, interval, id);
      AgedHead(masters, step, interval, id);
    }
  }

  // ----- a receipt -----

  /** An announce is taken in: from another clock, less than 255 steps away, less than half a turn of
      sequence numbers after the last one of its master, or of a new master that finds room. */
  predicate Accepts(masters: seq<ForeignMasters.Master>, own: PortIdentity, a: Announce) {
    && a.header.source.clock != own.clock && a.stepsRemoved < 255
    && var held := ListOf(masters, a.header.source);
       if held == [] then |masters| < 8
       else (a.header.sequenceId - held[|held| - 1].message.header.sequenceId) % 0x1_0000 < 32767
  }

  /** Appended, the oldest making room if need be. */
  function Appended<T>(s: seq<T>, x: T): seq<T> { (if |s| == CAPACITY then s[1..] else s) + [x] }

  lemma AcceptsFromKnown(masters: seq<ForeignMasters.Master>, own: PortIdentity, a: Announce, i: nat)
    requires Find(masters, a.header.source) == Some(i) && i < |masters|
    requires masters[i].messages != [] && ListOf(masters, a.header.source) == masters[i].messages
    ensures Accepts(masters, own, a) <==> Qualified(masters, own, a)
  {}

  lemma AcceptsFromNew(masters: seq<ForeignMasters.Master>, own: PortIdentity, a: Announce)
    requires Find(masters, a.header.source).None? && ListOf(masters, a.header.source) == []
    ensures Accepts(masters, own, a) <==> Qualified(masters, own, a) && |masters| < MAX_MASTERS
  {}

  lemma AcceptsIsQualified(masters: seq<ForeignMasters.Master>, own: PortIdentity, interval: int, a: Announce)
    requires StoreInv(masters, own, interval)
    ensures Accepts(masters, own, a) <==>
              Qualified(masters, own, a) && (Find(masters, a.header.source).None? ==> |masters| < MAX_MASTERS)
  {
    ListIsKnown(masters, own, interval, a.header.source);
    match Find(masters, a.header.source)
    case None => AcceptsFromNew(masters, own, a);
    case Some(i) => AcceptsFromKnown(masters, own, a, i);
  }

  lemma ListElsewhere(masters: seq<ForeignMasters.Master>, after: seq<ForeignMasters.Master>,
                      own: PortIdentity, interval: int, id: PortIdentity)
    requires StoreInv(masters, own, interval) && StoreInv(after, own, interval) && |masters| <= |after|
    requires forall k :: 0 <= k < |masters| ==> after[k].identity == masters[k].identity
    requires forall k :: 0 <= k < |masters| && masters[k].identity == id ==> after[k] == masters[k]
    requires forall k :: |masters| <= k < |after| ==> after[k].identity != id
    ensures ListOf(after, id) == ListOf(masters, id)
  {
    FindFinds(masters, id);
    match Find(masters, id)
    case None =>
      ListAbsent(masters, id);
      ListAbsent(after, id);
    case Some(k) =>
      ListAt(masters, k);
      ListAt(after, k);
  }

  /** A receipt appends to its master's list if the announce is taken in, and changes nothing else. */
  lemma ReceiptAppends(masters: seq<ForeignMasters.Master>, own: PortIdentity, interval: int, a: Announce, id: PortIdentity)
    requires StoreInv(masters, own, interval) && interval > 0
    ensures ListOf(Registered(masters, own, interval, a, 0), id) ==
              if id == a.header.source && Accepts(masters, own, a) then Appended(ListOf(masters, id), Stored(a, 0))
              else ListOf(masters, id)
  {
    var after := Registered(masters, own, interval, a, 0);
    RegisteredKeeps(masters, own, interval, a, 0);
    AcceptsIsQualified(masters, own, interval, a);
    FindFinds(masters, a.header.source);
    if Accepts(masters, own, a) {
      var found := Find(masters, a.header.source);
      var k := if found.Some? then found.value else |masters|;
      assert after[k].identity == a.header.source;
      ListAt(after, k);
      if found.Some? {
        RetainYoung(masters[k].messages, Cutoff(interval));
        ListAt(masters, k);
      } else {
        ListAbsent(masters, a.header.source);
      }
      if id != a.header.source {
        ListElsewhere(masters, after, own, interval, id);
      }
    }
  }

  // ----- a choice -----

  /** Erbest is a message of this master. */
  predicate Wins(masters: seq<ForeignMasters.Master>, own: PortIdentity, id: PortIdentity) {
    var best := BestOf(masters, own);
    best.Some? && best.value.message.header.source == id
  }

  /** A choice takes the last announce of every master heard twice, and of no other, and leaves the
      winner's. */
  lemma ChoiceTakes(masters: seq<ForeignMasters.Master>, own: PortIdentity, interval: int, id: PortIdentity)
    requires StoreInv(masters, own, interval)
    ensures var held := ListOf(masters, id);
            ListOf(Conserved(masters, BestOf(masters, own)), id) ==
              if |held| >= 2 && !Wins(masters, own, id) then held[..|held| - 1] else held
  {
    var after := Conserved(masters, BestOf(masters, own));
    assert forall k :: 0 <= k < |masters| ==> after[k].identity == masters[k].identity;
    FindFinds(masters, id);
    match Find(masters, id)
    case None =>
      ListAbsent(masters, id);
      ListAbsent(after, id);
    case Some(k) =>
      ListAt(masters, k);
      ListAt(after, k);
  }

  // ----- the history of one master -----

  /** How much time has passed since event r. */
  function Elapsed(events: seq<StoreEvent>, r: nat): int {
    if |events| <= r then 0
    else
      var e := events[|events| - 1];
      Elapsed(events[..|events| - 1], r) + if e.Age? then e.step else 0
  }

  predicate Forwards(events: seq<StoreEvent>) { forall i :: 0 <= i < |events| && events[i].Age? ==> events[i].step >= 0 }

  /** The receipts not older than four intervals. */
  function Young(events: seq<StoreEvent>, tags: seq<nat>, interval: int): seq<nat> {
    if |tags| == 0 then []
    else (if Elapsed(events, tags[0]) < WINDOW * interval then [tags[0]] else []) + Young(events, tags[1..], interval)
  }

  /** The event is an announce of this master that is taken in. */
  predicate Enters(own: PortIdentity, interval: int, before: seq<StoreEvent>, e: StoreEvent, id: PortIdentity) {
    e.Receive? && e.a.header.source == id && Accepts(StoreRun(own, interval, before), own, e.a)
  }

  /** The receipts whose announces are held of one master, by event number. */
  function Held(own: PortIdentity, interval: int, events: seq<StoreEvent>, id: PortIdentity): seq<nat> {
    if |events| == 0 then []
    else
      var before, e := events[..|events| - 1], events[|events| - 1];
      var held := Held(own, interval, before, id);
      match e
      case Age(_) => Young(events, held, interval)
      case Receive(_) => if Enters(own, interval, before, e, id) then Appended(held, |before|) else held
      case Choose => if |held| >= 2 && !Wins(StoreRun(own, interval, before), own, id) then held[..|held| - 1] else held
  }

  ghost predicate AreReceipts(events: seq<StoreEvent>, tags: seq<nat>, id: PortIdentity) {
    forall j :: 0 <= j < |tags| ==> IsReceipt(events, tags[j], id)
  }

  predicate IsReceipt(events: seq<StoreEvent>, r: nat, id: PortIdentity) {
    r < |events| && events[r].Receive? && events[r].a.header.source == id
  }

  /** The announce received then, as old as the time passed since. */
  function Record(events: seq<StoreEvent>, r: nat): Stored
    requires r < |events| && events[r].Receive?
  {
    Stored(events[r].a, Elapsed(events, r))
  }

  function Records(events: seq<StoreEvent>, tags: seq<nat>, id: PortIdentity): seq<Stored>
    requires AreReceipts(events, tags, id)
  {
    seq(|tags|, j requires 0 <= j < |tags| => assert IsReceipt(events, tags[j], id); Record(events, tags[j]))
  }

  lemma TailAreReceipts(events: seq<StoreEvent>, tags: seq<nat>, from: nat, to: nat, id: PortIdentity)
    requires AreReceipts(events, tags, id) && from <= to <= |tags|
    ensures AreReceipts(events, tags[from..to], id)
    ensures Records(events, tags[from..to], id) == Records(events, tags, id)[from..to]
  {}

  lemma OneMoreEvent(events: seq<StoreEvent>, r: nat, id: PortIdentity, e: StoreEvent)
    requires IsReceipt(events, r, id)
    ensures IsReceipt(events + [e], r, id)
    ensures Record(events + [e], r) == Stored(events[r].a, Elapsed(events, r) + if e.Age? then e.step else 0)
  {
    assert (events + [e])[..|events|] == events;
  }

  lemma MoreEvents(events: seq<StoreEvent>, tags: seq<nat>, id: PortIdentity, e: StoreEvent)
    requires AreReceipts(events, tags, id)
    ensures AreReceipts(events + [e], tags, id)
    ensures !e.Age? ==> Records(events + [e], tags, id) == Records(events, tags, id)
  {
    forall j | 0 <= j < |tags|
      ensures IsReceipt(events + [e], tags[j], id)
      ensures !e.Age? ==> Record(events + [e], tags[j]) == Record(events, tags[j])
    {
      OneMoreEvent(events, tags[j], id, e);
    }
  }

  lemma {:induction false} YoungAreYoung(events: seq<StoreEvent>, tags: seq<nat>, interval: int, r: nat)
    ensures r in Young(events, tags, interval) <==> r in tags && Elapsed(events, r) < WINDOW * interval
  {
    if |tags| > 0 {
      YoungAreYoung(events, tags[1..], interval, r);
      assert tags == [tags[0]] + tags[1..];
    }
  }

  lemma YoungAreReceipts(events: seq<StoreEvent>, tags: seq<nat>, id: PortIdentity, interval: int)
    requires AreReceipts(events, tags, id)
    ensures AreReceipts(events, Young(events, tags, interval), id)
  {
    var young := Young(events, tags, interval);
    forall j | 0 <= j < |young| ensures IsReceipt(events, young[j], id) {
      YoungAreYoung(events, tags, interval, young[j]);
    }
  }

  lemma RecordsOfHead(events: seq<StoreEvent>, head: nat, rest: seq<nat>, id: PortIdentity)
    requires IsReceipt(events, head, id) && AreReceipts(events, rest, id)
    ensures AreReceipts(events, [head] + rest, id)
    ensures Records(events, [head] + rest, id) == [Record(events, head)] + Records(events, rest, id)
  {}

  /** A step of time on the history of one master. */
  lemma {:induction false} OlderRecords(events: seq<StoreEvent>, tags: seq<nat>, id: PortIdentity, step: int, interval: int)
    requires AreReceipts(events, tags, id)
    ensures var more := events + [Age(step)];
            AreReceipts(more, Young(more, tags, interval), id)
            && Records(more, Young(more, tags, interval), id) == Older(Records(events, tags, id), step, WINDOW * interval)
  {
    var more := events + [Age(step)];
    MoreEvents(events, tags, id, Age(step));
    YoungAreReceipts(more, tags, id, interval);
    if |tags| > 0 {
      var rest := tags[1..];
      TailAreReceipts(events, tags, 1, |tags|, id);
      OlderRecords(events, rest, id, step, interval);
      assert Records(events, tags, id)[1..] == Records(events, rest, id);
      assert IsReceipt(events, tags[0], id);
      OneMoreEvent(events, tags[0], id, Age(step));
      RecordsOfHead(more, tags[0], Young(more, rest, interval), id);
    }
  }

  // ----- the store is its history -----

  lemma RecordsOfLast(events: seq<StoreEvent>, front: seq<nat>, last: nat, id: PortIdentity)
    requires AreReceipts(events, front, id) && IsReceipt(events, last, id)
    ensures AreReceipts(events, front + [last], id)
    ensures Records(events, front + [last], id) == Records(events, front, id) + [Record(events, last)]
  {}

  lemma AppendedRecords(events: seq<StoreEvent>, tags: seq<nat>, id: PortIdentity, a: Announce)
    requires AreReceipts(events, tags, id) && a.header.source == id
    ensures var more := events + [Receive(a)];
            AreReceipts(more, Appended(tags, |events|), id)
            && Records(more, Appended(tags, |events|), id) == Appended(Records(events, tags, id), Stored(a, 0))
  {
    var more := events + [Receive(a)];
    MoreEvents(events, tags, id, Receive(a));
    assert more[..|events|] == events && more[|events|] == Receive(a);
    assert Elapsed(events, |events|) == 0 && Elapsed(more, |events|) == 0;
    assert IsReceipt(more, |events|, id) && Record(more, |events|) == Stored(a, 0);
    var kept := if |tags| == CAPACITY then tags[1..] else tags;
    if |tags| == CAPACITY {
      TailAreReceipts(more, tags, 1, |tags|, id);
    }
    RecordsOfLast(more, kept, |events|, id);
  }

  lemma ShorterRecords(events: seq<StoreEvent>, tags: seq<nat>, id: PortIdentity, n: nat)
    requires AreReceipts(events, tags, id) && n <= |tags|
    ensures AreReceipts(events + [Choose], tags[..n], id)
    ensures Records(events + [Choose], tags[..n], id) == Records(events, tags, id)[..n]
  {
    MoreEvents(events, tags, id, Choose);
    TailAreReceipts(events + [Choose], tags, 0, n, id);
    assert tags[0..n] == tags[..n] && Records(events, tags, id)[0..n] == Records(events, tags, id)[..n];
  }

  /** So far the store holds of this master what its history says. */
  ghost predicate Agrees(own: PortIdentity, interval: int, events: seq<StoreEvent>, id: PortIdentity) {
    var held := Held(own, interval, events, id);
    AreReceipts(events, held, id) && ListOf(StoreRun(own, interval, events), id) == Records(events, held, id)
  }

  lemma StepOfTime(own: PortIdentity, interval: int, events: seq<StoreEvent>, step: int, id: PortIdentity)
    requires interval > 0 && StoreInv(StoreRun(own, interval, events), own, interval) && Agrees(own, interval, events, id)
    ensures Agrees(own, interval, events + [Age(step)], id)
  {
    var more := events + [Age(step)];
    assert more[..|events|] == events;
    TimeMakesOlder(StoreRun(own, interval, events), step, interval, id);
    OlderRecords(events, Held(own, interval, events, id), id, step, interval);
  }

  lemma StepOfReceipt(own: PortIdentity, interval: int, events: seq<StoreEvent>, a: Announce, id: PortIdentity)
    requires interval > 0 && StoreInv(StoreRun(own, interval, events), own, interval) && Agrees(own, interval, events, id)
    ensures Agrees(own, interval, events + [Receive(a)], id)
  {
    var more, held := events + [Receive(a)], Held(own, interval, events, id);
    assert more[..|events|] == events;
    ReceiptAppends(StoreRun(own, interval, events), own, interval, a, id);
    if Enters(own, interval, events, Receive(a), id) {
      AppendedRecords(events, held, id, a);
    } else {
      MoreEvents(events, held, id, Receive(a));
    }
  }

  lemma StepOfChoice(own: PortIdentity, interval: int, events: seq<StoreEvent>, id: PortIdentity)
    requires interval > 0 && StoreInv(StoreRun(own, interval, events), own, interval) && Agrees(own, interval, events, id)
    ensures Agrees(own, interval, events + [Choose], id)
  {
    var more, held := events + [Choose], Held(own, interval, events, id);
    assert more[..|events|] == events;
    ChoiceTakes(StoreRun(own, interval, events), own, interval, id);
    ShorterRecords(events, held, id, |held|);
    if |held| >= 2 {
      ShorterRecords(events, held, id, |held| - 1);
    }
    assert held[..|held|] == held;
  }

  lemma HistoryStep(own: PortIdentity, interval: int, events: seq<StoreEvent>, e: StoreEvent, id: PortIdentity)
    requires interval > 0 && StoreInv(StoreRun(own, interval, events), own, interval) && Agrees(own, interval, events, id)
    ensures Agrees(own, interval, events + [e], id)
  {
    match e
    case Age(step) => StepOfTime(own, interval, events, step, id);
    case Receive(a) => StepOfReceipt(own, interval, events, a, id);
    case Choose => StepOfChoice(own, interval, events, id);
  }

  /** After any receipts, steps of time and choices, what is held of a master is exactly the announces the
      history says, each as old as the time passed since its receipt. */
  lemma {:induction false} StoreIsHistory(own: PortIdentity, interval: int, events: seq<StoreEvent>, id: PortIdentity)
    requires interval > 0 && Forwards(events)
    ensures AreReceipts(events, Held(own, interval, events, id), id)
    ensures ListOf(StoreRun(own, interval, events), id) == Records(events, Held(own, interval, events, id), id)
  {
    if |events| > 0 {
      var before, e := events[..|events| - 1], events[|events| - 1];
      assert events == before + [e];
      assert Forwards(before);
      StoreIsHistory(own, interval, before, id);
      StoreRunKeeps(own, interval, before);
      HistoryStep(own, interval, before, e, id);
    }
  }

  // ----- what is held, and until when -----

  lemma {:induction false} YoungIncrease(events: seq<StoreEvent>, tags: seq<nat>, interval: int)
    requires Increasing(tags)
    ensures Increasing(Young(events, tags, interval))
  {
    if |tags| > 0 {
      var rest := tags[1..];
      assert forall i :: 0 <= i < |rest| ==> rest[i] == tags[i + 1];
      YoungIncrease(events, rest, interval);
      var young := Young(events, rest, interval);
      forall j | 0 <= j < |young| ensures tags[0] < young[j] {
        YoungAreYoung(events, rest, interval, young[j]);
      }
    }
  }

  ghost predicate Increasing(tags: seq<nat>) { forall i, j :: 0 <= i < j < |tags| ==> tags[i] < tags[j] }

  lemma {:induction false} HeldIncrease(own: PortIdentity, interval: int, events: seq<StoreEvent>, id: PortIdentity)
    requires interval > 0 && Forwards(events)
    ensures Increasing(Held(own, interval, events, id))
  {
    if |events| > 0 {
      var before := events[..|events| - 1];
      assert Forwards(before);
      HeldIncrease(own, interval, before, id);
      StoreIsHistory(own, interval, before, id);
      var held := Held(own, interval, before, id);
      forall j | 0 <= j < |held| ensures held[j] < |before| {
        assert IsReceipt(before, held[j], id);
      }
      YoungIncrease(events, held, interval);
    }
  }

  /** The event loses the announce received as event r, young as it may be: it makes room for a ninth of
      its master, or a choice takes it. */
  predicate Displaces(own: PortIdentity, interval: int, before: seq<StoreEvent>, e: StoreEvent, r: nat, id: PortIdentity) {
    var held := Held(own, interval, before, id);
    match e
    case Age(_) => false
    case Receive(_) => |held| == CAPACITY && held[0] == r && Enters(own, interval, before, e, id)
    case Choose => |held| >= 2 && held[|held| - 1] == r && !Wins(StoreRun(own, interval, before), own, id)
  }

  predicate LostAt(own: PortIdentity, interval: int, events: seq<StoreEvent>, n: nat, r: nat, id: PortIdentity) {
    r < n < |events| && Displaces(own, interval, events[..n], events[n], r, id)
  }

  ghost predicate Lost(own: PortIdentity, interval: int, events: seq<StoreEvent>, r: nat, id: PortIdentity) {
    exists n: nat :: LostAt(own, interval, events, n, r, id)
  }

  lemma LostBefore(own: PortIdentity, interval: int, events: seq<StoreEvent>, e: StoreEvent, n: nat, r: nat, id: PortIdentity)
    requires n < |events|
    ensures LostAt(own, interval, events + [e], n, r, id) <==> LostAt(own, interval, events, n, r, id)
  {
    assert (events + [e])[..n] == events[..n] && (events + [e])[n] == events[n];
  }

  lemma LostNow(own: PortIdentity, interval: int, events: seq<StoreEvent>, e: StoreEvent, r: nat, id: PortIdentity)
    requires r < |events|
    ensures LostAt(own, interval, events + [e], |events|, r, id) <==> Displaces(own, interval, events, e, r, id)
  {
    assert (events + [e])[..|events|] == events;
  }

  lemma LostNext(own: PortIdentity, interval: int, events: seq<StoreEvent>, e: StoreEvent, r: nat, id: PortIdentity)
    requires r < |events|
    ensures Lost(own, interval, events + [e], r, id) <==>
              Lost(own, interval, events, r, id) || Displaces(own, interval, events, e, r, id)
  {
    if n: nat :| LostAt(own, interval, events, n, r, id) {
      LostBefore(own, interval, events, e, n, r, id);
    }
    LostNow(own, interval, events, e, r, id);
    if n: nat :| LostAt(own, interval, events + [e], n, r, id) {
      if n < |events| {
        LostBefore(own, interval, events, e, n, r, id);
      }
    }
  }

  lemma InFront(s: seq<nat>, r: nat)
    requires Increasing(s) && s != []
    ensures r in s[1..] <==> r in s && r != s[0]
    ensures r in s[..|s| - 1] <==> r in s && r != s[|s| - 1]
  {
    assert s == [s[0]] + s[1..] && s == s[..|s| - 1] + [s[|s| - 1]];
  }

  lemma HeldNext(own: PortIdentity, interval: int, events: seq<StoreEvent>, e: StoreEvent, r: nat, id: PortIdentity)
    requires Increasing(Held(own, interval, events, id)) && r < |events|
    ensures r in Held(own, interval, events + [e], id) <==>
              && r in Held(own, interval, events, id) && !Displaces(own, interval, events, e, r, id)
              && (e.Age? ==> Elapsed(events + [e], r) < WINDOW * interval)
  {
    var held := Held(own, interval, events, id);
    assert (events + [e])[..|events|] == events;
    match e
    case Age(_) => YoungAreYoung(events + [e], held, interval, r);
    case _ =>
      if held != [] {
        InFront(held, r);
      }
  }

  lemma NewestIsHeld(own: PortIdentity, interval: int, events: seq<StoreEvent>, e: StoreEvent, id: PortIdentity)
    requires AreReceipts(events, Held(own, interval, events, id), id)
    ensures |events| in Held(own, interval, events + [e], id) <==> Enters(own, interval, events, e, id)
  {
    var held := Held(own, interval, events, id);
    assert (events + [e])[..|events|] == events;
    forall j | 0 <= j < |held| ensures held[j] < |events| {
      assert IsReceipt(events, held[j], id);
    }
    YoungAreYoung(events + [e], held, interval, |events|);
  }

  lemma ElapsedNext(events: seq<StoreEvent>, e: StoreEvent, r: nat)
    ensures Elapsed(events + [e], r) == if |events| < r then 0 else Elapsed(events, r) + if e.Age? then e.step else 0
    ensures r == |events| ==> Elapsed(events, r) == 0
  {
    assert (events + [e])[..|events|] == events;
  }

  /** The announce received as event r was taken in. */
  predicate TakenIn(own: PortIdentity, interval: int, events: seq<StoreEvent>, r: nat, id: PortIdentity) {
    r < |events| && Enters(own, interval, events[..r], events[r], id)
  }

  lemma HeldExactlyNext(own: PortIdentity, interval: int, events: seq<StoreEvent>, e: StoreEvent, r: nat, id: PortIdentity)
    requires interval > 0 && Forwards(events + [e])
    requires AreReceipts(events, Held(own, interval, events, id), id) && Increasing(Held(own, interval, events, id))
    requires r < |events| ==>
               (r in Held(own, interval, events, id) <==>
                  && TakenIn(own, interval, events, r, id) && !Lost(own, interval, events, r, id)
                  && Elapsed(events, r) < WINDOW * interval)
    requires r <= |events|
    ensures r in Held(own, interval, events + [e], id) <==>
              && TakenIn(own, interval, events + [e], r, id) && !Lost(own, interval, events + [e], r, id)
              && Elapsed(events + [e], r) < WINDOW * interval
  {
    var more := events + [e];
    assert more[..r] == events[..r] && more[|events|] == e;
    ElapsedNext(events, e, r);
    if r < |events| {
      HeldNext(own, interval, events, e, r, id);
      LostNext(own, interval, events, e, r, id);
    } else {
      NewestIsHeld(own, interval, events, e, id);
    }
  }

  /** An announce is held exactly if it was taken in, neither made room nor was taken, and less than four
      intervals have passed since. */
  lemma {:induction false} HeldExactly(own: PortIdentity, interval: int, events: seq<StoreEvent>, r: nat, id: PortIdentity)
    requires interval > 0 && Forwards(events)
    ensures r in Held(own, interval, events, id) <==>
              && TakenIn(own, interval, events, r, id) && !Lost(own, interval, events, r, id)
              && Elapsed(events, r) < WINDOW * interval
  {
    if r >= |events| {
      NothingFromLater(own, interval, events, r, id);
    } else {
      var before, e := events[..|events| - 1], events[|events| - 1];
      assert events == before + [e];
      assert Forwards(before);
      HeldExactly(own, interval, before, r, id);
      StoreIsHistory(own, interval, before, id);
      HeldIncrease(own, interval, before, id);
      HeldExactlyNext(own, interval, before, e, r, id);
    }
  }

  lemma NothingFromLater(own: PortIdentity, interval: int, events: seq<StoreEvent>, r: nat, id: PortIdentity)
    requires interval > 0 && Forwards(events) && r >= |events|
    ensures r !in Held(own, interval, events, id)
  {
    StoreIsHistory(own, interval, events, id);
    var held := Held(own, interval, events, id);
    forall j | 0 <= j < |held| ensures held[j] < |events| {
      assert IsReceipt(events, held[j], id);
    }
  }

  /** A master is known exactly if something it announced is held. */
  lemma KnownIffHeld(own: PortIdentity, interval: int, events: seq<StoreEvent>, id: PortIdentity)
    requires interval > 0 && Forwards(events)
    ensures (exists m :: m in StoreRun(own, interval, events) && m.identity == id) <==> Held(own, interval, events, id) != []
  {
    var store := StoreRun(own, interval, events);
    StoreRunKeeps(own, interval, events);
    StoreIsHistory(own, interval, events, id);
    ListIsKnown(store, own, interval, id);
    FindFinds(store, id);
    if m :| m in store && m.identity == id {
      var k :| 0 <= k < |store| && store[k] == m;
    }
  }

  /** The last of these receipts, as a candidate. */
  predicate LastWord(events: seq<StoreEvent>, held: seq<nat>, own: PortIdentity, id: PortIdentity, b: Best) {
    && |held| >= 2 && IsReceipt(events, held[|held| - 1], id)
    && b.message == events[held[|held| - 1]].a && b.age == Elapsed(events, held[|held| - 1]) && b.identity == own
  }

  lemma LastOfRecords(m: ForeignMasters.Master, events: seq<StoreEvent>, held: seq<nat>, own: PortIdentity)
    requires AreReceipts(events, held, m.identity) && m.messages == Records(events, held, m.identity) && |m.messages| >= 2
    ensures var newest := m.messages[|m.messages| - 1];
            && newest.message.header.source == m.identity
            && LastWord(events, held, own, m.identity, Best(newest.message, newest.age, own))
  {
    assert IsReceipt(events, held[|held| - 1], m.identity);
  }

  lemma ListInStore(own: PortIdentity, interval: int, events: seq<StoreEvent>, k: nat)
    requires interval > 0 && Forwards(events) && k < |StoreRun(own, interval, events)|
    ensures var m := StoreRun(own, interval, events)[k];
            && AreReceipts(events, Held(own, interval, events, m.identity), m.identity)
            && m.messages == Records(events, Held(own, interval, events, m.identity), m.identity)
  {
    var store := StoreRun(own, interval, events);
    StoreRunKeeps(own, interval, events);
    ListAt(store, k);
    StoreIsHistory(own, interval, events, store[k].identity);
  }

  lemma HeardTwiceIsBest(masters: seq<ForeignMasters.Master>, own: PortIdentity, k: nat)
    requires k < |masters| && |masters[k].messages| >= 2
    ensures BestOf(masters, own).Some?
  {
    TakenFrom(masters);
    assert HasQualified(masters[k]) && masters[k].messages[|masters[k].messages| - 1] in Taken(masters);
    var j := MaxByPicks(Candidates(masters, own));
  }

  lemma HeldTwiceIsBest(own: PortIdentity, interval: int, events: seq<StoreEvent>, id: PortIdentity)
    requires interval > 0 && Forwards(events) && |Held(own, interval, events, id)| >= 2
    ensures BestOf(StoreRun(own, interval, events), own).Some?
  {
    var store := StoreRun(own, interval, events);
    KnownIffHeld(own, interval, events, id);
    var m :| m in store && m.identity == id;
    var k :| 0 <= k < |store| && store[k] == m;
    ListInStore(own, interval, events, k);
    HeardTwiceIsBest(store, own, k);
  }

  lemma NewestIsLastWord(own: PortIdentity, interval: int, events: seq<StoreEvent>, w: nat)
    requires interval > 0 && Forwards(events)
    requires w < |StoreRun(own, interval, events)| && |StoreRun(own, interval, events)[w].messages| >= 2
    ensures var m := StoreRun(own, interval, events)[w];
            var newest := m.messages[|m.messages| - 1];
            && newest.message.header.source == m.identity
            && LastWord(events, Held(own, interval, events, m.identity), own, m.identity,
                        Best(newest.message, newest.age, own))
  {
    ListInStore(own, interval, events, w);
    var m := StoreRun(own, interval, events)[w];
    LastOfRecords(m, events, Held(own, interval, events, m.identity), own);
  }

  lemma BestIsLastWord(own: PortIdentity, interval: int, events: seq<StoreEvent>)
    requires interval > 0 && Forwards(events) && BestOf(StoreRun(own, interval, events), own).Some?
    ensures var best := BestOf(StoreRun(own, interval, events), own).value;
            var id := best.message.header.source;
            LastWord(events, Held(own, interval, events, id), own, id, best)
  {
    var w := BestIsTaken(StoreRun(own, interval, events), own);
    NewestIsLastWord(own, interval, events, w);
  }

  /** A port has an Erbest exactly while two announces of one master are held; Erbest is the last word of
      such a master, as old as the time since its receipt. */
  lemma ErbestIsLastWord(own: PortIdentity, interval: int, events: seq<StoreEvent>)
    requires interval > 0 && Forwards(events)
    ensures var best := BestOf(StoreRun(own, interval, events), own);
            && (best.Some? <==> exists id :: |Held(own, interval, events, id)| >= 2)
            && (best.Some? ==>
                  var id := best.value.message.header.source;
                  LastWord(events, Held(own, interval, events, id), own, id, best.value))
  {
    if BestOf(StoreRun(own, interval, events), own).Some? {
      BestIsLastWord(own, interval, events);
    }
    if id :| |Held(own, interval, events, id)| >= 2 {
      HeldTwiceIsBest(own, interval, events, id);
    }
  }

  lemma {:induction false} ElapsedGrows(events: seq<StoreEvent>, r: nat, n: nat)
    requires Forwards(events) && r <= n
    ensures Elapsed(events, r) >= Elapsed(events, n) >= 0
  {
    if |events| > r {
      assert Forwards(events[..|events| - 1]);
      ElapsedGrows(events[..|events| - 1], r, n);
    }
  }

  /** After four intervals without a receipt nothing is left: no master is known and no port has an Erbest. */
  lemma SilenceEmptiesStore(own: PortIdentity, interval: int, events: seq<StoreEvent>, n: nat)
    requires interval > 0 && Forwards(events) && n <= |events| && forall k :: n <= k < |events| ==> !events[k].Receive?
    requires Elapsed(events, n) >= WINDOW * interval
    ensures StoreRun(own, interval, events) == [] && BestOf(StoreRun(own, interval, events), own).None?
  {
    var store := StoreRun(own, interval, events);
    if store != [] {
      var id := store[0].identity;
      assert store[0] in store;
      KnownIffHeld(own, interval, events, id);
      StoreIsHistory(own, interval, events, id);
      var r := Held(own, interval, events, id)[0];
      assert IsReceipt(events, r, id);
      HeldExactly(own, interval, events, r, id);
      ElapsedGrows(events, r, n);
      assert false;
    }
  }
}
