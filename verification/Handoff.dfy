/** The daemon's stop-the-world hand-off: the main task collects every port, runs BMCA over them and
    gives them back, while each port's own task runs it in between. Every interleaving of the tasks'
    steps is a run; a task that waits on a channel has no step until the channel allows one. */
module Handoff {
  import opened Prelude

  /** Where the main task is: giving back port k next, waiting for its timer, collecting from
      receiver k next, or holding all ports with the stop signal withdrawn. */
  datatype Main = Returning(k: nat) | Waiting | Collecting(k: nat) | Deciding

  datatype Task = Idle | Running(port: nat) | Stopping(port: nat)

  /** `held` is what main holds, in order; `down[i]` and `up[i]` are the channels to and from task i.
      Ports are numbered by their slot. */
  datatype State = State(main: Main, held: seq<nat>, stop: bool, tasks: seq<Task>, down: seq<seq<nat>>, up: seq<seq<nat>>)

  datatype Step =
    | Tick | MainStep
    | Work(i: nat) | TaskStep(i: nat)

  const CAPACITY := 1

  predicate Sized(s: State, n: nat) { |s.tasks| == n && |s.down| == n && |s.up| == n }

  /** What may happen next. */
  predicate Enabled(s: State, n: nat, e: Step) {
    && Sized(s, n)
    && match e
       case Tick => s.main.Waiting?
       case MainStep =>
         (match s.main
          case Returning(k) => k >= n || (s.held != [] && |s.down[k]| < CAPACITY)
          case Waiting => false
          case Collecting(k) => k >= n || s.up[k] != []
          case Deciding => true)
       case Work(i) => i < n && s.tasks[i].Running?
       case TaskStep(i) =>
         i < n && (match s.tasks[i]
                   case Idle => s.down[i] != []
                   case Running(_) => s.stop
                   case Stopping(_) => |s.up[i]| < CAPACITY)
  }

  function Next(s: State, n: nat, e: Step): State
    requires Enabled(s, n, e)
  {
    match e
    case Tick => s.(main := Collecting(0), stop := true, held := [])
    case MainStep =>
      (match s.main
       case Returning(k) =>
         if k >= n then s.(main := Waiting)
         else s.(main := Returning(k + 1), held := s.held[1..], down := s.down[k := s.down[k] + [s.held[0]]])
       case Collecting(k) =>
         if k >= n then s.(main := Deciding, stop := false)
         else s.(main := Collecting(k + 1), held := s.held + [s.up[k][0]], up := s.up[k := s.up[k][1..]])
       case Deciding => s.(main := Returning(0)))
    case Work(i) => s
    case TaskStep(i) =>
      (match s.tasks[i]
       case Idle => s.(tasks := s.tasks[i := Running(s.down[i][0])], down := s.down[i := s.down[i][1..]])
       case Running(p) => s.(tasks := s.tasks[i := Stopping(p)])
       case Stopping(p) => s.(tasks := s.tasks[i := Idle], up := s.up[i := s.up[i] + [p]]))
  }

  function Slots(from: nat, n: nat): seq<nat>
    requires from <= n
  {
    seq(n - from, i => from + i)
  }

  /** All ports are created before any is handed out. */
  ghost predicate Initial(s: State, n: nat) {
    && Sized(s, n) && s.main == Returning(0) && s.held == Slots(0, n) && !s.stop
    && forall i :: 0 <= i < n ==> s.tasks[i] == Idle && s.down[i] == [] && s.up[i] == []
  }

  // ----- the invariant -----

  predicate HeldByMain(s: State, i: nat) {
    match s.main
    case Returning(k) => i >= k
    case Waiting => false
    case Collecting(k) => i < k
    case Deciding => true
  }

  /** Slot i: its port, and no other, is with main, or in exactly one place on its own side. */
  predicate SlotOk(s: State, n: nat, i: nat)
    requires Sized(s, n) && i < n
  {
    if HeldByMain(s, i) then s.tasks[i] == Idle && s.down[i] == [] && s.up[i] == []
    else
      || (s.tasks[i] == Idle && s.down[i] == [i] && s.up[i] == [])
      || (s.tasks[i] == Running(i) && s.down[i] == [] && s.up[i] == [])
      || (s.main.Collecting? && s.tasks[i] == Stopping(i) && s.down[i] == [] && s.up[i] == [])
      || (s.main.Collecting? && s.tasks[i] == Idle && s.down[i] == [] && s.up[i] == [i])
  }

  ghost predicate Inv(s: State, n: nat) {
    && Sized(s, n) && s.stop == s.main.Collecting?
    && (s.main.Returning? ==> s.main.k <= n && s.held == Slots(s.main.k, n))
    && (s.main.Collecting? ==> s.main.k <= n && s.held == Slots(0, s.main.k))
    && (s.main.Deciding? ==> s.held == Slots(0, n))
    && (s.main.Waiting? ==> s.held == [])
    && forall i :: 0 <= i < n ==> SlotOk(s, n, i)
  }

  lemma MainStepKeepsInv(s: State, n: nat)
    requires Inv(s, n) && Enabled(s, n, MainStep)
    ensures Inv(Next(s, n, MainStep), n)
  {
    var t := Next(s, n, MainStep);
    forall i | 0 <= i < n ensures SlotOk(t, n, i) {
      assert SlotOk(s, n, i);
      assert s.main.Collecting? || s.main.Returning? ==> s.main.k < n ==> SlotOk(s, n, s.main.k);
    }
    match s.main
    case Returning(k) =>
      if k < n {
        assert s.held[0] == k && s.held[1..] == Slots(k + 1, n);
      }
    case Collecting(k) =>
      if k < n {
        assert SlotOk(s, n, k);
        assert s.held + [k] == Slots(0, k + 1);
      }
    case _ =>
  }

  lemma StepKeepsInv(s: State, n: nat, e: Step)
    requires Inv(s, n) && Enabled(s, n, e)
    ensures Inv(Next(s, n, e), n)
  {
    if e == MainStep {
      MainStepKeepsInv(s, n);
    } else {
      forall i | 0 <= i < n ensures SlotOk(Next(s, n, e), n, i) {
        assert SlotOk(s, n, i);
      }
      assert Slots(0, 0) == [];
    }
  }

  ghost predicate Linked(run: seq<State>, n: nat, steps: seq<Step>, i: nat) {
    i < |steps| && |run| == |steps| + 1 && Enabled(run[i], n, steps[i]) && run[i + 1] == Next(run[i], n, steps[i])
  }

  ghost predicate IsRun(run: seq<State>, n: nat, steps: seq<Step>) {
    |run| == |steps| + 1 && forall i :: 0 <= i < |steps| ==> Linked(run, n, steps, i)
  }

  lemma {:induction false} RunsKeepInv(run: seq<State>, n: nat, steps: seq<Step>, i: nat)
    requires IsRun(run, n, steps) && Initial(run[0], n) && i < |run|
    ensures Inv(run[i], n)
  {
    if i > 0 {
      RunsKeepInv(run, n, steps, i - 1);
      assert Linked(run, n, steps, i - 1);
      StepKeepsInv(run[i - 1], n, steps[i - 1]);
    }
  }

  // ----- one place each -----

  datatype Place = InMain(at: nat) | InTask(i: nat) | GoingDown(i: nat, at: nat) | GoingUp(i: nat, at: nat)

  predicate At(s: State, place: Place, p: nat) {
    match place
    case InMain(at) => at < |s.held| && s.held[at] == p
    case InTask(i) => i < |s.tasks| && (s.tasks[i] == Running(p) || s.tasks[i] == Stopping(p))
    case GoingDown(i, at) => i < |s.down| && at < |s.down[i]| && s.down[i][at] == p
    case GoingUp(i, at) => i < |s.up| && at < |s.up[i]| && s.up[i][at] == p
  }

  function PlaceOf(s: State, n: nat, p: nat): Place
    requires Sized(s, n) && p < n
  {
    if HeldByMain(s, p) then InMain(if s.main.Returning? then p - s.main.k else p)
    else if s.tasks[p] != Idle then InTask(p)
    else if s.down[p] != [] then GoingDown(p, 0)
    else GoingUp(p, 0)
  }

  /** Every port is in exactly one place, no channel holds two, and nothing else is handed around. */
  lemma EachPortInOnePlace(s: State, n: nat, place: Place, p: nat)
    requires Inv(s, n)
    ensures At(s, place, p) <==> p < n && place == PlaceOf(s, n, p)
    ensures forall i :: 0 <= i < n ==> |s.down[i]| <= 1 && |s.up[i]| <= 1
  {
    forall i | 0 <= i < n ensures |s.down[i]| <= 1 && |s.up[i]| <= 1 {
      assert SlotOk(s, n, i);
    }
    assert p < n ==> SlotOk(s, n, p);
    match place
    case InMain(at) =>
    case InTask(i) => assert i < n ==> SlotOk(s, n, i);
    case GoingDown(i, at) => assert i < n ==> SlotOk(s, n, i);
    case GoingUp(i, at) => assert i < n ==> SlotOk(s, n, i);
  }

  /** BMCA runs with all ports in slot order, while no task holds one and none is under way. */
  lemma BmcaStopsTheWorld(s: State, n: nat, i: nat)
    requires Inv(s, n) && s.main.Deciding? && i < n
    ensures s.held == Slots(0, n) && !s.stop && !Enabled(s, n, Work(i)) && !Enabled(s, n, TaskStep(i))
  {
    assert SlotOk(s, n, i);
  }

  /** What main has collected in a round is in slot order, so no port twice. */
  lemma CollectedOnce(s: State, n: nat, i: nat, j: nat)
    requires Inv(s, n) && i < j < |s.held|
    ensures s.held[i] < s.held[j] < n
  {}

  // ----- rounds end -----

  /** Whose step brings the round on: main's own, or that of the task main is waiting for. */
  function Driver(s: State, n: nat): Step
    requires Inv(s, n) && !s.main.Waiting?
  {
    if Enabled(s, n, MainStep) then MainStep else TaskStep(s.main.k)
  }

  lemma NoDeadlock(s: State, n: nat)
    requires Inv(s, n)
    ensures s.main.Waiting? ==> Enabled(s, n, Tick)
    ensures !s.main.Waiting? ==> Enabled(s, n, Driver(s, n))
  {
    if s.main.Collecting? && s.main.k < n {
      assert SlotOk(s, n, s.main.k);
    }
    if s.main.Returning? && s.main.k < n {
      assert SlotOk(s, n, s.main.k);
    }
  }

  /** In every state of every interleaving: each port is in exactly one place, main decides only with
      all ports in slot order while every task stands still, and something can happen next. */
  lemma EveryInterleavingIsSafe(run: seq<State>, n: nat, steps: seq<Step>, i: nat, place: Place, p: nat)
    requires IsRun(run, n, steps) && Initial(run[0], n) && i < |run|
    ensures Sized(run[i], n)
    ensures At(run[i], place, p) <==> p < n && place == PlaceOf(run[i], n, p)
    ensures run[i].main.Deciding? && p < n ==>
              run[i].held == Slots(0, n) && !Enabled(run[i], n, Work(p)) && !Enabled(run[i], n, TaskStep(p))
    ensures exists e :: Enabled(run[i], n, e)
  {
    var s := run[i];
    RunsKeepInv(run, n, steps, i);
    EachPortInOnePlace(s, n, place, p);
    if s.main.Deciding? && p < n {
      BmcaStopsTheWorld(s, n, p);
    }
    NoDeadlock(s, n);
    assert Enabled(s, n, if s.main.Waiting? then Tick else Driver(s, n));
  }

  /** Steps port i has yet to make before main waits again and the port runs again. */
  function PortRank(s: State, n: nat, i: nat): nat
    requires Sized(s, n) && i < n
  {
    if HeldByMain(s, i) then 2
    else if s.up[i] != [] then 3
    else if s.tasks[i].Stopping? then 4
    else if s.main.Collecting? then if s.tasks[i].Running? then 5 else 6
    else if s.tasks[i].Running? then 0 else 1
  }

  function MainRank(m: Main): nat {
    match m
    case Collecting(_) => 3
    case Deciding => 2
    case Returning(_) => 1
    case Waiting => 0
  }

  function Ranks(s: State, n: nat): (r: seq<nat>)
    requires Sized(s, n)
    ensures |r| == n && forall i :: 0 <= i < n ==> r[i] == PortRank(s, n, i)
  {
    seq(n, i requires 0 <= i < n => PortRank(s, n, i))
  }

  function Total(ranks: seq<nat>): nat {
    if |ranks| == 0 then 0 else Total(ranks[..|ranks| - 1]) + ranks[|ranks| - 1]
  }

  lemma {:induction false} TotalUpdate(a: seq<nat>, i: nat, v: nat)
    requires i < |a|
    ensures Total(a[i := v]) == Total(a) - a[i] + v
  {
    var n := |a| - 1;
    if i == n {
      assert a[i := v][..n] == a[..n];
    } else {
      TotalUpdate(a[..n], i, v);
      assert a[i := v][..n] == a[..n][i := v];
    }
  }

  function Rank(s: State, n: nat): nat
    requires Sized(s, n)
  {
    MainRank(s.main) + Total(Ranks(s, n))
  }

  predicate HandsOff(e: Step) { e.MainStep? || e.TaskStep? }

  lemma TaskStepCounts(s: State, n: nat, i: nat)
    requires Inv(s, n) && Enabled(s, n, TaskStep(i))
    ensures Sized(Next(s, n, TaskStep(i)), n) && Rank(Next(s, n, TaskStep(i)), n) == Rank(s, n) - 1
  {
    var t := Next(s, n, TaskStep(i));
    assert SlotOk(s, n, i);
    assert PortRank(t, n, i) == PortRank(s, n, i) - 1;
    TotalUpdate(Ranks(s, n), i, PortRank(t, n, i));
    assert Ranks(t, n) == Ranks(s, n)[i := PortRank(t, n, i)];
  }

  lemma MainStepCounts(s: State, n: nat)
    requires Inv(s, n) && Enabled(s, n, MainStep)
    ensures Sized(Next(s, n, MainStep), n) && Rank(Next(s, n, MainStep), n) == Rank(s, n) - 1
  {
    var t := Next(s, n, MainStep);
    assert forall i :: 0 <= i < n ==> SlotOk(s, n, i);
    if (s.main.Returning? || s.main.Collecting?) && s.main.k < n {
      var k := s.main.k;
      assert SlotOk(s, n, k);
      assert PortRank(t, n, k) == PortRank(s, n, k) - 1;
      TotalUpdate(Ranks(s, n), k, PortRank(t, n, k));
      assert Ranks(t, n) == Ranks(s, n)[k := PortRank(t, n, k)];
    } else {
      assert Ranks(t, n) == Ranks(s, n);
    }
  }

  function HandOffs(steps: seq<Step>): nat {
    if |steps| == 0 then 0
    else HandOffs(steps[..|steps| - 1]) + if HandsOff(steps[|steps| - 1]) then 1 else 0
  }

  /** Between two ticks every hand-off step uses up one unit of rank and nothing gives any back. With
      NoDeadlock: a round is over after a number of hand-off steps that is known when it starts. */
  lemma {:induction false} RoundsEnd(run: seq<State>, n: nat, steps: seq<Step>)
    requires IsRun(run, n, steps) && Inv(run[0], n) && forall i :: 0 <= i < |steps| ==> steps[i] != Tick
    ensures Inv(run[|steps|], n) && HandOffs(steps) + Rank(run[|steps|], n) == Rank(run[0], n)
  {
    if |steps| > 0 {
      var m := |steps| - 1;
      var sooner, fewer := run[..m + 1], steps[..m];
      forall i | 0 <= i < m ensures Linked(sooner, n, fewer, i) {
        assert Linked(run, n, steps, i);
      }
      RoundsEnd(sooner, n, fewer);
      assert Linked(run, n, steps, m);
      StepKeepsInv(run[m], n, steps[m]);
      match steps[m]
      case MainStep => MainStepCounts(run[m], n);
      case TaskStep(i) => TaskStepCounts(run[m], n, i);
      case Work(_) =>
      case Tick =>
    }
  }

  /** A round that starts with every port running takes 5n + 3 hand-off steps until main waits and
      every port runs again; that is what rank zero means. */
  lemma RoundLength(s: State, n: nat)
    requires Inv(s, n) && s.main.Waiting? && forall i :: 0 <= i < n ==> s.tasks[i].Running?
    ensures Rank(s, n) == 0 && Rank(Next(s, n, Tick), n) == 5 * n + 3
  {
    var t := Next(s, n, Tick);
    forall i | 0 <= i < n ensures PortRank(s, n, i) == 0 && PortRank(t, n, i) == 5 {
      assert SlotOk(s, n, i);
    }
    TotalConstant(Ranks(s, n), 0);
    TotalConstant(Ranks(t, n), 5);
  }

  lemma RankZero(s: State, n: nat, i: nat)
    requires Inv(s, n) && Rank(s, n) == 0 && i < n
    ensures s.main.Waiting? && s.tasks[i] == Running(i)
  {
    TotalCovers(Ranks(s, n), i);
    assert SlotOk(s, n, i);
  }

  lemma {:induction false} TotalCovers(a: seq<nat>, i: nat)
    requires i < |a|
    ensures a[i] <= Total(a)
  {
    if i < |a| - 1 {
      TotalCovers(a[..|a| - 1], i);
    }
  }

  lemma {:induction false} TotalConstant(a: seq<nat>, v: nat)
    requires forall i :: 0 <= i < |a| ==> a[i] == v
    ensures Total(a) == |a| * v
  {
    if |a| > 0 {
      TotalConstant(a[..|a| - 1], v);
      assert |a| * v == (|a| - 1) * v + v;
    }
  }
}
