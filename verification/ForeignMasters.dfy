/** The announces a port remembers, per foreign master, and their ageing and qualification
    (section 9.3.2 of IEEE 1588-2019). Ages and intervals count units of 2^-32 ns. */
module ForeignMasters {
  import opened Prelude
  import opened DataSets

  const TIME_WINDOW := 4
  const THRESHOLD := 2
  const MAX_MESSAGES := 8
  const MAX_MASTERS := 8

  datatype Stored = Stored(message: Announce, age: int)

  datatype Master = Master(identity: PortIdentity, messages: seq<Stored>)

  // ----- what the operations compute -----

  function Cutoff(interval: int): int { interval * TIME_WINDOW }

  function Retain(s: seq<Stored>, cutoff: int): seq<Stored> {
    if |s| == 0 then []
    else (if s[0].age < cutoff then [s[0]] else []) + Retain(s[1..], cutoff)
  }

  function Grown(s: seq<Stored>, step: int): seq<Stored> {
    seq(|s|, i requires 0 <= i < |s| => Stored(s[i].message, s[i].age + step))
  }

  function Push(s: seq<Stored>, m: Stored): seq<Stored> {
    if |s| < MAX_MESSAGES then s + [m] else s[1..] + [m]
  }

  function AgedMaster(m: Master, step: int, interval: int): Master {
    m.(messages := Retain(Grown(m.messages, step), Cutoff(interval)))
  }

  function Aged(masters: seq<Master>, step: int, interval: int): seq<Master> {
    if |masters| == 0 then []
    else
      var head := AgedMaster(masters[0], step, interval);
      (if head.messages == [] then [] else [head]) + Aged(masters[1..], step, interval)
  }

  function Find(masters: seq<Master>, id: PortIdentity): Option<nat> {
    if |masters| == 0 then None
    else if masters[0].identity == id then Some(0)
    else match Find(masters[1..], id) case None => None case Some(i) => Some(i + 1)
  }

  predicate Qualified(masters: seq<Master>, own: PortIdentity, a: Announce) {
    && a.header.source.clock != own.clock
    && (var i := Find(masters, a.header.source);
        i.Some? && i.value < |masters| && masters[i.value].messages != [] ==>
          Follows(a, masters[i.value].messages[|masters[i.value].messages| - 1].message))
    && a.stepsRemoved < 255
  }

  function Registered(masters: seq<Master>, own: PortIdentity, interval: int, a: Announce, age: int): seq<Master> {
    if !Qualified(masters, own, a) then masters
    else
      match Find(masters, a.header.source)
      case Some(i) =>
        if i < |masters|
        then masters[i := masters[i].(messages := Push(Retain(masters[i].messages, Cutoff(interval)), Stored(a, age)))]
        else masters
      case None =>
        if |masters| < MAX_MASTERS then masters + [Master(a.header.source, [Stored(a, 0)])] else masters
  }

  predicate HasQualified(m: Master) { |m.messages| >= THRESHOLD }

  function Popped(m: Master): Master {
    if HasQualified(m) then m.(messages := m.messages[..|m.messages| - 1]) else m
  }

  function Left(masters: seq<Master>): seq<Master> {
    seq(|masters|, i requires 0 <= i < |masters| => Popped(masters[i]))
  }

  /** The newest message of every qualified master, from the last master to the first. */
  function Taken(masters: seq<Master>): seq<Stored> {
    if |masters| == 0 then []
    else Taken(masters[1..]) + if HasQualified(masters[0]) then [masters[0].messages[|masters[0].messages| - 1]] else []
  }

  // ----- what every operation keeps -----

  /** One to eight messages, all from this master, none from too far away, none too old, oldest
      first, each less than half a turn of sequence numbers after the one before. */
  ghost predicate MasterInv(m: Master, own: PortIdentity, interval: int) {
    && 1 <= |m.messages| <= MAX_MESSAGES
    && m.identity.clock != own.clock
    && (forall i :: 0 <= i < |m.messages| ==> Fit(m.messages[i], m.identity, interval))
    && OldestFirst(m.messages)
    && InSequence(m.messages)
  }

  predicate Fit(m: Stored, id: PortIdentity, interval: int) {
    m.message.header.source == id && m.message.stepsRemoved < 255 && 0 <= m.age < Cutoff(interval)
  }

  /** The sequence number of `newer` is the same as, or less than half a turn after, that of `older`. */
  predicate Follows(newer: Announce, older: Announce) {
    (newer.header.sequenceId - older.header.sequenceId) % 0x1_0000 < 0xFFFF / 2
  }

  ghost predicate OldestFirst(s: seq<Stored>) {
    forall i, j :: 0 <= i < j < |s| ==> s[i].age >= s[j].age
  }

  ghost predicate InSequence(s: seq<Stored>) {
    forall i, j :: 0 <= i < j < |s| && j == i + 1 ==> Follows(s[j].message, s[i].message)
  }

  ghost predicate Distinct(masters: seq<Master>) {
    forall i, j :: 0 <= i < j < |masters| ==> masters[i].identity != masters[j].identity
  }

  ghost predicate StoreInv(masters: seq<Master>, own: PortIdentity, interval: int) {
    && |masters| <= MAX_MASTERS
    && Distinct(masters)
    && forall i :: 0 <= i < |masters| ==> MasterInv(masters[i], own, interval)
  }

  lemma {:induction false} FindFinds(masters: seq<Master>, id: PortIdentity)
    ensures var i := Find(masters, id);
            && (i.Some? ==> i.value < |masters| && masters[i.value].identity == id)
            && (i.None? <==> forall k :: 0 <= k < |masters| ==> masters[k].identity != id)
  {
    if |masters| > 0 && masters[0].identity != id {
      FindFinds(masters[1..], id);
      assert forall k :: 1 <= k < |masters| ==> masters[k] == masters[1..][k - 1];
    }
  }

  lemma FindAt(masters: seq<Master>, k: nat)
    requires Distinct(masters) && k < |masters|
    ensures Find(masters, masters[k].identity) == Some(k)
  {
    FindFinds(masters, masters[k].identity);
  }

  lemma {:induction false} RetainYoung(s: seq<Stored>, cutoff: int)
    requires forall i :: 0 <= i < |s| ==> s[i].age < cutoff
    ensures Retain(s, cutoff) == s
  {
    if |s| > 0 {
      var tail := s[1..];
      forall i | 0 <= i < |tail| ensures tail[i].age < cutoff {
        assert tail[i] == s[i + 1];
      }
      RetainYoung(tail, cutoff);
      assert s == [s[0]] + tail;
    }
  }

  lemma OldestFirstTail(s: seq<Stored>, k: nat)
    requires OldestFirst(s) && k <= |s|
    ensures OldestFirst(s[k..])
  {
    forall i, j | 0 <= i < j < |s[k..]| ensures s[k..][i].age >= s[k..][j].age {
      assert s[k..][i] == s[k + i] && s[k..][j] == s[k + j];
    }
  }

  /** Purging an oldest-first list drops a prefix, exactly the messages past the cutoff. */
  lemma {:induction false} RetainDropsPrefix(s: seq<Stored>, cutoff: int) returns (k: nat)
    requires OldestFirst(s)
    ensures k <= |s| && Retain(s, cutoff) == s[k..]
    ensures forall i :: 0 <= i < |s| ==> (i < k <==> s[i].age >= cutoff)
  {
    if |s| == 0 {
      k := 0;
    } else if s[0].age >= cutoff {
      var tail := s[1..];
      OldestFirstTail(s, 1);
      var n := RetainDropsPrefix(tail, cutoff);
      k := n + 1;
      assert s[k..] == tail[n..];
      forall i | 0 <= i < |s| ensures i < k <==> s[i].age >= cutoff {
        if i > 0 {
          assert s[i] == tail[i - 1];
        }
      }
    } else {
      k := 0;
      RetainYoung(s, cutoff);
      assert s[0..] == s;
    }
  }

  lemma GrownKeepsOrder(s: seq<Stored>, step: int)
    requires OldestFirst(s)
    ensures OldestFirst(Grown(s, step))
  {}

  lemma InSequenceTail(s: seq<Stored>, g: seq<Stored>, k: nat)
    requires InSequence(s) && |g| == |s| && k <= |s| && forall i :: 0 <= i < |s| ==> g[i].message == s[i].message
    ensures InSequence(g[k..])
  {
    var t := g[k..];
    forall i, j | 0 <= i < j < |t| && j == i + 1 ensures Follows(t[j].message, t[i].message) {
      assert t[i] == g[k + i] && t[j] == g[k + j];
      assert Follows(s[k + j].message, s[k + i].message);
    }
  }

  lemma AgedMasterKeeps(m: Master, step: int, own: PortIdentity, interval: int)
    requires MasterInv(m, own, interval) && step >= 0
    ensures var r := AgedMaster(m, step, interval);
            r.identity == m.identity && (r.messages != [] ==> MasterInv(r, own, interval))
  {
    var g := Grown(m.messages, step);
    GrownKeepsOrder(m.messages, step);
    var k := RetainDropsPrefix(g, Cutoff(interval));
    OldestFirstTail(g, k);
    InSequenceTail(m.messages, g, k);
    var t := g[k..];
    forall i | 0 <= i < |t| ensures Fit(t[i], m.identity, interval) {
      assert t[i] == g[k + i];
      assert Fit(m.messages[k + i], m.identity, interval);
    }
  }

  /** Every master left after ageing is one of the masters, aged. */
  lemma {:induction false} AgedFrom(masters: seq<Master>, step: int, interval: int)
    ensures |Aged(masters, step, interval)| <= |masters|
    ensures forall m :: m in Aged(masters, step, interval) ==>
              m.messages != [] && exists k :: 0 <= k < |masters| && m == AgedMaster(masters[k], step, interval)
  {
    if |masters| > 0 {
      var rest := masters[1..];
      AgedFrom(rest, step, interval);
      forall m | m in Aged(rest, step, interval)
        ensures exists k :: 0 <= k < |masters| && m == AgedMaster(masters[k], step, interval)
      {
        var k :| 0 <= k < |rest| && m == AgedMaster(rest[k], step, interval);
        assert rest[k] == masters[k + 1];
      }
    }
  }

  lemma {:induction false} AgedDistinct(masters: seq<Master>, step: int, interval: int)
    requires Distinct(masters)
    ensures Distinct(Aged(masters, step, interval))
  {
    if |masters| > 0 {
      var rest := masters[1..];
      assert forall k :: 0 <= k < |rest| ==> rest[k] == masters[k + 1];
      AgedDistinct(rest, step, interval);
      AgedFrom(rest, step, interval);
      var tail := Aged(rest, step, interval);
      forall i | 0 <= i < |tail| ensures tail[i].identity != masters[0].identity {
        assert tail[i] in tail;
        var k :| 0 <= k < |rest| && tail[i] == AgedMaster(rest[k], step, interval);
      }
    }
  }

  lemma AgedKeeps(masters: seq<Master>, step: int, own: PortIdentity, interval: int)
    requires StoreInv(masters, own, interval) && step >= 0
    ensures StoreInv(Aged(masters, step, interval), own, interval)
  {
    AgedDistinct(masters, step, interval);
    AgedFrom(masters, step, interval);
    var after := Aged(masters, step, interval);
    forall i | 0 <= i < |after| ensures MasterInv(after[i], own, interval) {
      assert after[i] in after;
      var k :| 0 <= k < |masters| && after[i] == AgedMaster(masters[k], step, interval);
      AgedMasterKeeps(masters[k], step, own, interval);
    }
  }

  lemma PushKeeps(m: Master, own: PortIdentity, interval: int, a: Announce, age: int)
    requires MasterInv(m, own, interval) && Fit(Stored(a, age), m.identity, interval)
    requires age <= m.messages[|m.messages| - 1].age && Follows(a, m.messages[|m.messages| - 1].message)
    ensures MasterInv(m.(messages := Push(m.messages, Stored(a, age))), own, interval)
  {
    var was := m.messages;
    var pushed := Push(was, Stored(a, age));
    var from := if |was| < MAX_MESSAGES then 0 else 1;
    assert forall k :: 0 <= k < |pushed| - 1 ==> pushed[k] == was[from + k];
    assert pushed[|pushed| - 1] == Stored(a, age);
    assert forall k :: 0 <= k < |was| ==> was[k].age >= age;
  }

  lemma RegisteredKeeps(masters: seq<Master>, own: PortIdentity, interval: int, a: Announce, age: int)
    requires StoreInv(masters, own, interval) && interval > 0
    requires 0 <= age < Cutoff(interval)
    requires forall m :: m in masters && m.identity == a.header.source ==>
               age <= m.messages[|m.messages| - 1].age
    ensures StoreInv(Registered(masters, own, interval, a, age), own, interval)
  {
    FindFinds(masters, a.header.source);
    var found := Find(masters, a.header.source);
    if Qualified(masters, own, a) {
      if found.Some? {
        var m := masters[found.value];
        assert m in masters;
        RetainYoung(m.messages, Cutoff(interval));
        PushKeeps(m, own, interval, a, age);
      } else {
        assert MasterInv(Master(a.header.source, [Stored(a, 0)]), own, interval);
      }
    }
  }

  // ----- every list is a subsequence of what was received -----

  ghost predicate Picks(f: seq<nat>, s: seq<Stored>, log: seq<Announce>) {
    && |f| == |s|
    && (forall i :: 0 <= i < |f| ==> f[i] < |log| && s[i].message == log[f[i]])
    && (forall i, j :: 0 <= i < j < |f| ==> f[i] < f[j])
  }

  ghost predicate Subsequence(s: seq<Stored>, log: seq<Announce>) { exists f: seq<nat> :: Picks(f, s, log) }

  ghost predicate AllReceived(masters: seq<Master>, log: seq<Announce>) {
    forall i :: 0 <= i < |masters| ==> Subsequence(masters[i].messages, log)
  }

  lemma SliceIsReceived(s: seq<Stored>, t: seq<Stored>, log: seq<Announce>, from: nat)
    requires Subsequence(s, log) && from + |t| <= |s|
    requires forall i :: 0 <= i < |t| ==> t[i].message == s[from + i].message
    ensures Subsequence(t, log)
  {
    var f: seq<nat> :| Picks(f, s, log);
    assert Picks(f[from..from + |t|], t, log);
  }

  lemma AppendedIsReceived(s: seq<Stored>, log: seq<Announce>, a: Announce, age: int)
    requires Subsequence(s, log)
    ensures Subsequence(s, log + [a]) && Subsequence(s + [Stored(a, age)], log + [a])
  {
    var f: seq<nat> :| Picks(f, s, log);
    assert Picks(f, s, log + [a]);
    assert Picks(f + [|log|], s + [Stored(a, age)], log + [a]);
  }

  lemma PushedIsReceived(was: seq<Stored>, a: Announce, log: seq<Announce>)
    requires Subsequence(was, log)
    ensures Subsequence(was, log + [a]) && Subsequence(Push(was, Stored(a, 0)), log + [a])
  {
    var kept := if |was| < MAX_MESSAGES then was else was[1..];
    SliceIsReceived(was, kept, log, |was| - |kept|);
    AppendedIsReceived(was, log, a, 0);
    AppendedIsReceived(kept, log, a, 0);
  }

  /** A list after registration is unchanged, has had the message pushed, or is that message alone. */
  lemma RegisteredShape(masters: seq<Master>, own: PortIdentity, interval: int, a: Announce, age: int, i: nat)
    requires StoreInv(masters, own, interval) && i < |Registered(masters, own, interval, a, age)|
    ensures var r := Registered(masters, own, interval, a, age)[i].messages;
            if i < |masters| then r in {masters[i].messages, Push(masters[i].messages, Stored(a, age))}
            else r == Push([], Stored(a, 0))
  {
    FindFinds(masters, a.header.source);
    if i < |masters| {
      RetainYoung(masters[i].messages, Cutoff(interval));
    }
  }

  lemma RegisteredIsReceived(masters: seq<Master>, own: PortIdentity, interval: int, a: Announce, log: seq<Announce>)
    requires StoreInv(masters, own, interval) && AllReceived(masters, log)
    ensures AllReceived(Registered(masters, own, interval, a, 0), log + [a])
  {
    var after := Registered(masters, own, interval, a, 0);
    forall i | 0 <= i < |after| ensures Subsequence(after[i].messages, log + [a]) {
      RegisteredShape(masters, own, interval, a, 0, i);
      var was := if i < |masters| then masters[i].messages else [];
      assert Picks([], [], log);
      PushedIsReceived(was, a, log);
    }
  }

  lemma AgedMasterIsReceived(m: Master, step: int, interval: int, log: seq<Announce>)
    requires OldestFirst(m.messages) && Subsequence(m.messages, log)
    ensures Subsequence(AgedMaster(m, step, interval).messages, log)
  {
    var from := RetainDropsPrefix(Grown(m.messages, step), Cutoff(interval));
    SliceIsReceived(m.messages, AgedMaster(m, step, interval).messages, log, from);
  }

  lemma AgedIsReceived(masters: seq<Master>, step: int, own: PortIdentity, interval: int, log: seq<Announce>)
    requires StoreInv(masters, own, interval) && step >= 0 && AllReceived(masters, log)
    ensures AllReceived(Aged(masters, step, interval), log)
  {
    AgedFrom(masters, step, interval);
    var after := Aged(masters, step, interval);
    forall i | 0 <= i < |after| ensures Subsequence(after[i].messages, log) {
      assert after[i] in after;
      var k :| 0 <= k < |masters| && after[i] == AgedMaster(masters[k], step, interval);
      AgedMasterIsReceived(masters[k], step, interval, log);
    }
  }

  // ----- taking messages -----

  lemma {:induction false} TakenFrom(masters: seq<Master>)
    ensures forall s :: s in Taken(masters) <==>
              exists k :: 0 <= k < |masters| && HasQualified(masters[k]) && s == masters[k].messages[|masters[k].messages| - 1]
  {
    if |masters| > 0 {
      var rest := masters[1..];
      TakenFrom(rest);
      forall s
        ensures s in Taken(masters) <==>
                exists k :: 0 <= k < |masters| && HasQualified(masters[k]) && s == masters[k].messages[|masters[k].messages| - 1]
      {
        if s in Taken(rest) {
          var k :| 0 <= k < |rest| && HasQualified(rest[k]) && s == rest[k].messages[|rest[k].messages| - 1];
          assert rest[k] == masters[k + 1];
        }
        if k :| 0 <= k < |masters| && HasQualified(masters[k]) && s == masters[k].messages[|masters[k].messages| - 1] {
          if k > 0 {
            assert rest[k - 1] == masters[k];
          }
        }
      }
    }
  }

  lemma LeftKeeps(masters: seq<Master>, own: PortIdentity, interval: int)
    requires StoreInv(masters, own, interval)
    ensures StoreInv(Left(masters), own, interval)
  {
    var left := Left(masters);
    forall i | 0 <= i < |left| ensures MasterInv(left[i], own, interval) {
      assert MasterInv(masters[i], own, interval);
    }
  }

  /** Putting the newest message of a qualified master back after taking passes every check and
      restores that master exactly. */
  lemma PutBackRestores(masters: seq<Master>, own: PortIdentity, interval: int, w: nat)
    requires StoreInv(masters, own, interval) && w < |masters| && HasQualified(masters[w])
    ensures var newest := masters[w].messages[|masters[w].messages| - 1];
            && Qualified(Left(masters), own, newest.message)
            && Registered(Left(masters), own, interval, newest.message, newest.age) == Left(masters)[w := masters[w]]
  {
    var left, m := Left(masters), masters[w];
    var newest := m.messages[|m.messages| - 1];
    LeftKeeps(masters, own, interval);
    assert left[w].identity == m.identity == newest.message.header.source;
    FindAt(left, w);
    var rest := left[w].messages;
    assert rest[|rest| - 1] == m.messages[|m.messages| - 2];
    RetainYoung(rest, Cutoff(interval));
    assert rest + [newest] == m.messages;
  }

  // ----- the list object -----

  class ForeignMasterList {
    var masters: seq<Master>
    const interval: int
    const own: PortIdentity

    ghost predicate Valid()
      reads this
    {
      interval > 0 && StoreInv(masters, own, interval)
    }

    constructor (interval: int, own: PortIdentity)
      requires interval > 0
      ensures Valid() && masters == [] && this.interval == interval && this.own == own
    {
      masters := [];
      this.interval, this.own := interval, own;
    }

    method StepAge(step: int)
      requires Valid() && step >= 0
      modifies this
      ensures Valid() && masters == Aged(old(masters), step, interval)
    {
      AgedKeeps(masters, step, own, interval);
      ghost var was := masters;
      var i := |masters|;
      while i > 0
        invariant 0 <= i <= |was| && i <= |masters|
        invariant masters[..i] == was[..i]
        invariant masters[i..] == Aged(was[i..], step, interval)
      {
        i := i - 1;
        assert masters[i] == masters[..i + 1][i] == was[i];
        assert was[i..][1..] == was[i + 1..];
        var messages := StepMessages(masters[i].messages, step);
        var kept := if messages == [] then [] else [masters[i].(messages := messages)];
        masters := masters[..i] + (kept + masters[i + 1..]);
        assert masters[..i] == was[..i + 1][..i];
      }
      assert was[0..] == was && masters[0..] == masters;
    }

    method StepMessages(s: seq<Stored>, step: int) returns (r: seq<Stored>)
      ensures r == Retain(Grown(s, step), Cutoff(interval))
    {
      var grown := s;
      for i := 0 to |s|
        invariant |grown| == |s|
        invariant forall k :: 0 <= k < i ==> grown[k] == Stored(s[k].message, s[k].age + step)
        invariant forall k :: i <= k < |s| ==> grown[k] == s[k]
      {
        grown := grown[i := Stored(s[i].message, s[i].age + step)];
      }
      assert grown == Grown(s, step);
      r := Retain(grown, Cutoff(interval));
    }

    /** Leaves qualified masters one message short: the caller puts the chosen one back. */
    method TakeQualified() returns (taken: seq<Stored>)
      modifies this
      ensures taken == Taken(old(masters)) && masters == Left(old(masters))
    {
      taken := [];
      ghost var was := masters;
      var i := |masters|;
      while i > 0
        invariant 0 <= i <= |was| == |masters|
        invariant taken == Taken(was[i..])
        invariant masters[..i] == was[..i]
        invariant forall k :: i <= k < |masters| ==> masters[k] == Popped(was[k])
      {
        i := i - 1;
        assert was[i..][1..] == was[i + 1..];
        assert masters[i] == masters[..i + 1][i] == was[i];
        assert masters[..i] == was[..i + 1][..i];
        var n := |masters[i].messages|;
        if n >= THRESHOLD {
          taken := taken + [masters[i].messages[n - 1]];
          masters := masters[i := masters[i].(messages := masters[i].messages[..n - 1])];
        }
      }
      assert was[0..] == was;
    }

    method Register(a: Announce, age: int)
      requires Valid() && 0 <= age < Cutoff(interval)
      requires forall m :: m in masters && m.identity == a.header.source ==> age <= m.messages[|m.messages| - 1].age
      modifies this
      ensures Valid() && masters == Registered(old(masters), own, interval, a, age)
    {
      RegisteredKeeps(masters, own, interval, a, age);
      FindFinds(masters, a.header.source);
      if !Qualified(masters, own, a) {
        return;
      }
      var found := Find(masters, a.header.source);
      if found.Some? {
        var i := found.value;
        masters := masters[i := masters[i].(messages := Push(Retain(masters[i].messages, Cutoff(interval)), Stored(a, age)))];
      } else if |masters| < MAX_MASTERS {
        masters := masters + [Master(a.header.source, [Stored(a, 0)])];
      }
    }
  }
}
