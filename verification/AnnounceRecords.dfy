/** The records of an announce, by what they hold and in which order. */
module AnnounceRecords {
  import opened Prelude
  import opened DataSets
  import opened Bytes
  import opened AnnounceSender
  import TlvSets

  lemma {:induction false} PathBytesAt(path: seq<ClockIdentity>, k: nat)
    requires k < |path|
    ensures PathBytes(path)[8 * k..8 * k + 8] == Put(8, path[k])
  {
    var rest := PathBytes(path[1..]);
    if k > 0 {
      PathBytesAt(path[1..], k - 1);
      forall j | 0 <= j < 8 ensures PathBytes(path)[8 * k + j] == Put(8, path[k])[j] {
        assert PathBytes(path)[8 * k + j] == rest[8 * (k - 1) + j] == rest[8 * (k - 1)..8 * (k - 1) + 8][j];
      }
    }
  }

  /** The own path trace on the wire: type code 8, the clocks of the path in order and the own clock last,
      eight bytes each, most significant first. */
  lemma PathOnTheWire(path: seq<ClockIdentity>, own: ClockIdentity, k: nat)
    requires k <= |path|
    ensures var t := PathTlv(path, own);
            && TlvSets.ToPrimitive(t.kind) == 0x0008 && |t.value| == 8 * |path| + 8
            && Get(t.value[8 * k..8 * k + 8]) == if k < |path| then path[k] else own
  {
    PathBytesAt(path + [own], k);
    Powers();
    GetPut(8, (path + [own])[k]);
  }

  /** It goes in exactly if path trace is on, fewer than 128 clocks are on the path and it is strictly
      smaller than the margin. */
  lemma OwnTraceIff(path: Option<seq<ClockIdentity>>, own: ClockIdentity, margin: int)
    ensures OwnTrace(path, own, margin) ==
              if path.Some? && |path.value| < 128 && 12 + 8 * |path.value| < margin then [PathTlv(path.value, own)] else []
  {
    if path.Some? {
      assert |PathBytes(path.value + [own])| == 8 * |path.value| + 8;
    }
  }

  /** The offers that are forwarded, by number. */
  function Positions(offers: seq<Offer>, parent: PortIdentity, trace: bool): seq<nat> {
    if |offers| == 0 then []
    else
      var n: nat := |offers| - 1;
      Positions(offers[..n], parent, trace)
      + if offers[n].sender == parent && (trace ==> !offers[n].tlv.kind.PathTrace?) then [n] else []
  }

  lemma {:induction false} PositionsAre(offers: seq<Offer>, parent: PortIdentity, trace: bool, k: nat)
    ensures k in Positions(offers, parent, trace) <==>
              k < |offers| && offers[k].sender == parent && (trace ==> !offers[k].tlv.kind.PathTrace?)
  {
    if |offers| > 0 {
      PositionsAre(offers[..|offers| - 1], parent, trace, k);
    }
  }

  lemma {:induction false} PositionsIncrease(offers: seq<Offer>, parent: PortIdentity, trace: bool)
    ensures var ks := Positions(offers, parent, trace); forall i, j :: 0 <= i < j < |ks| ==> ks[i] < ks[j]
  {
    if |offers| > 0 {
      var front := offers[..|offers| - 1];
      PositionsIncrease(front, parent, trace);
      var ks := Positions(front, parent, trace);
      forall j | 0 <= j < |ks| ensures ks[j] < |front| {
        PositionsAre(front, parent, trace, ks[j]);
      }
    }
  }

  /** What is forwarded is exactly the parent's offers, without path traces when we send our own, in the
      order offered. */
  lemma {:induction false} ForwardedInOrder(offers: seq<Offer>, parent: PortIdentity, trace: bool)
    ensures |Forwarded(offers, parent, trace)| == |Positions(offers, parent, trace)|
    ensures forall j :: 0 <= j < |Positions(offers, parent, trace)| ==>
              && Positions(offers, parent, trace)[j] < |offers|
              && Forwarded(offers, parent, trace)[j] == offers[Positions(offers, parent, trace)[j]].tlv
  {
    if |offers| > 0 {
      ForwardedInOrder(offers[..|offers| - 1], parent, trace);
    }
  }
}
