/** The kernel and its resources together: what a process that exits leaves behind. The kernel
    state has its own record of queue descriptors; here every descriptor is in the graph, and the
    resource call inside an open or close of a queue is an event of its own. */
module KernelResources {
  import opened Seqs
  import opened Constants
  import opened KernelModel
  import opened KernelRun
  import opened KernelInv
  import opened KernelFamily
  import opened KernelCounts
  import opened KernelTheorems
  import G = ResourceGraph
  import R = ResourceRuns

  datatype Whole = Whole(s: State, g: G.Graph)

  /** A step of the kernel, or a resource call of the running process. */
  datatype Event = System(step: Step) | Resource(call: R.Step)

  /** The resource calls that the running process can make. */
  predicate OwnCall(s: State, call: R.Step) {
    && s.running.Some?
    && match call
       case OpenStep(p, _, _, _) => p == s.running.value
       case CloseStep(p, _) => p == s.running.value
       case DestroyStep(_) => true
       case QueueStep(_) => true
       case _ => false
  }

  predicate Possible(w: Whole, e: Event) {
    match e
    case System(step) => Enabled(w.s, step)
    case Resource(call) => OwnCall(w.s, call) && R.Enabled(w.g, call)
  }

  /** The child that this call of wait reaps. */
  function Reaped(s: State, pid: int): Option<Pid>
    requires Enabled(s, WaitPid(pid))
  {
    var r := Trap(s, Wait(pid));
    if Self(r).children == [] then None
    else
      var c := Awaited(r, Self(r).children, pid);
      if StatusOf(r, c) == Some(Zombie) then Some(c) else None
  }

  /** The process whose control block is freed by the step. */
  function Leaving(s: State, step: Step): Option<Pid>
    requires Enabled(s, step)
  {
    if step.ExitWith? then (if HandsOver(s, step.value) then s.running else None)
    else if step.WaitPid? then Reaped(s, step.pid)
    else None
  }

  /** What a step of the kernel does to the descriptors: spawn makes a list of them, exit with
      a waiting parent releases them, and wait frees the control block of a zombie. */
  function Effect(s: State, g: G.Graph, step: Step): G.Graph
    requires Enabled(s, step)
  {
    var left := Leaving(s, step);
    if step.SpawnChild? then G.AddProcess(g)
    else if left.Some? && left.value in g.lists then R.Apply(g, R.LeaveStep(left.value, step.ExitWith?))
    else g
  }

  function After(w: Whole, e: Event): Whole
    requires Possible(w, e)
  {
    match e
    case System(step) => Whole(Apply(w.s, step), Effect(w.s, w.g, step))
    case Resource(call) => Whole(w.s, R.Apply(w.g, call))
  }

  ghost predicate History(ws: seq<Whole>, es: seq<Event>) {
    && |ws| == |es| + 1 && ws[0] == Whole(BOOT, G.Start())
    && forall i {:trigger es[i]} :: 0 <= i < |es| ==> Possible(ws[i], es[i]) && ws[i + 1] == After(ws[i], es[i])
  }

  ghost predicate Arises(w: Whole) {
    exists ws, es {:trigger History(ws, es)} :: History(ws, es) && ws[|es|] == w
  }

  lemma FirstArises()
    ensures Arises(Whole(BOOT, G.Start()))
  {
    assert History([Whole(BOOT, G.Start())], []);
  }

  lemma ThenArises(w: Whole, e: Event, next: Whole)
    requires Arises(w) && Possible(w, e) && After(w, e) == next
    ensures Arises(next)
  {
    var ws, es :| History(ws, es) && ws[|es|] == w;
    HistoryGoesOn(ws, es, e, next);
    assert History(ws + [next], es + [e]);
  }

  lemma HistoryGoesOn(ws: seq<Whole>, es: seq<Event>, e: Event, next: Whole)
    requires History(ws, es) && Possible(ws[|es|], e) && After(ws[|es|], e) == next
    ensures History(ws + [next], es + [e])
  {
    var ws', es' := ws + [next], es + [e];
    forall i {:trigger es'[i]} | 0 <= i < |es'|
      ensures Possible(ws'[i], es'[i]) && ws'[i + 1] == After(ws'[i], es'[i])
    {
      if i < |es| { assert Possible(ws[i], es[i]) && ws[i + 1] == After(ws[i], es[i]); }
    }
  }

  lemma HistoryStep(ws: seq<Whole>, es: seq<Event>, i: nat)
    requires History(ws, es) && i < |es|
    ensures Possible(ws[i], es[i]) && ws[i + 1] == After(ws[i], es[i])
  {
  }

  // The kernel keeps its invariant, and the two agree on who is alive.

  function States(ws: seq<Whole>): (ss: seq<State>)
    ensures |ss| == |ws| && forall k :: 0 <= k < |ws| ==> ss[k] == ws[k].s
  {
    seq(|ws|, k requires 0 <= k < |ws| => ws[k].s)
  }

  /** What happens to the kernel in one event is nothing, or a step of its own runs. */
  lemma StateMoves(ws: seq<Whole>, es: seq<Event>, k: nat)
    requires History(ws, es) && 0 < k < |ws|
    ensures Moves(ws[k - 1].s, ws[k].s)
  {
    HistoryStep(ws, es, k - 1);
    match es[k - 1]
    case System(step) => OneStep(ws[k - 1].s, step);
    case Resource(_) =>
  }

  lemma HistoryInv(ws: seq<Whole>, es: seq<Event>, i: nat)
    requires History(ws, es) && i < |ws|
    ensures Inv(States(ws)[i])
  {
    var ss := States(ws);
    forall k | 0 < k < |ss| ensures Moves(ss[k - 1], ss[k]) { StateMoves(ws, es, k); }
    MovesInv(ss, i);
  }

  /** What happens to the graph in one event is nothing, or a step of its own runs. */
  lemma GraphMoves(ws: seq<Whole>, es: seq<Event>, k: nat)
    requires History(ws, es) && 0 < k < |ws|
    ensures R.Moves(ws[k - 1].g, ws[k].g)
  {
    HistoryStep(ws, es, k - 1);
    EventMoves(ws[k - 1], es[k - 1]);
  }

  lemma EventMoves(w: Whole, e: Event)
    requires Possible(w, e)
    ensures R.Moves(w.g, After(w, e).g)
  {
    match e
    case Resource(call) => R.OneStep(w.g, call);
    case System(step) =>
      var left := Leaving(w.s, step);
      if step.SpawnChild? {
        R.OneStep(w.g, R.SpawnStep);
      } else if left.Some? && left.value in w.g.lists {
        R.OneStep(w.g, R.LeaveStep(left.value, step.ExitWith?));
      }
  }

  function Graphs(ws: seq<Whole>): (gs: seq<G.Graph>)
    ensures |gs| == |ws| && forall k :: 0 <= k < |ws| ==> gs[k] == ws[k].g
  {
    seq(|ws|, k requires 0 <= k < |ws| => ws[k].g)
  }

  lemma HistoryGraph(ws: seq<Whole>, es: seq<Event>, i: nat)
    requires History(ws, es) && i < |ws|
    ensures G.GraphOk(Graphs(ws)[i])
  {
    var gs := Graphs(ws);
    forall k | 0 < k < |gs| ensures R.Moves(gs[k - 1], gs[k]) { GraphMoves(ws, es, k); }
    R.MovesOk(gs, i);
  }

  predicate Agree(w: Whole) {
    w.g.lists.Keys == w.s.procs.Keys && w.g.lastPid == w.s.lastPid
  }

  lemma FirstAgrees(ws: seq<Whole>, es: seq<Event>)
    requires History(ws, es)
    ensures Agree(ws[0])
  {
  }

  lemma SpawnAgrees(w: Whole)
    requires Agree(w) && Enabled(w.s, SpawnChild)
    ensures Agree(After(w, System(SpawnChild)))
  {
  }

  lemma WaitKeys(s: State, pid: int)
    requires FamilyOk(s) && Enabled(s, WaitPid(pid))
    ensures var c := Reaped(s, pid);
            var t := Apply(s, WaitPid(pid));
            && (c.Some? ==> c.value in s.procs)
            && t.procs.Keys == s.procs.Keys - (if c.Some? then {c.value} else {}) && t.lastPid == s.lastPid
  {
    var r := Trap(s, Wait(pid));
    if Self(r).children != [] { AwaitedMeaning(r, Self(r).children, pid); }
  }

  lemma WaitAgrees(w: Whole, pid: int)
    requires FamilyOk(w.s) && Agree(w) && Enabled(w.s, WaitPid(pid))
    ensures Agree(After(w, System(WaitPid(pid))))
  {
    WaitKeys(w.s, pid);
  }

  lemma ExitKeys(s: State, value: int)
    requires FamilyOk(s) && Enabled(s, ExitWith(value))
    ensures var t := Apply(s, ExitWith(value));
            && t.procs.Keys == s.procs.Keys - (if HandsOver(s, value) then {s.running.value} else {})
            && t.lastPid == s.lastPid && s.running.value in t.exits
  {
    assert s.procs[s.running.value].parent.Some?;
  }

  lemma ExitAgrees(w: Whole, value: int)
    requires FamilyOk(w.s) && Agree(w) && Enabled(w.s, ExitWith(value))
    ensures Agree(After(w, System(ExitWith(value))))
  {
    ExitKeys(w.s, value);
    var p := w.s.running.value;
    R.ReleasedKeys(w.g, p, w.g.lists[p]);
  }

  lemma OtherAgrees(w: Whole, step: Step)
    requires CoreInv(w.s) && Agree(w) && Enabled(w.s, step) && !step.WaitPid? && !step.ExitWith? && !step.SpawnChild?
    ensures Agree(After(w, System(step)))
  {
    OtherCounts(w.s, step);
  }

  lemma StepAgrees(w: Whole, step: Step)
    requires CoreInv(w.s) && FamilyOk(w.s) && Agree(w) && Enabled(w.s, step)
    ensures Agree(After(w, System(step)))
  {
    if step.SpawnChild? {
      SpawnAgrees(w);
    } else if step.WaitPid? {
      WaitAgrees(w, step.pid);
    } else if step.ExitWith? {
      ExitAgrees(w, step.value);
    } else {
      OtherAgrees(w, step);
    }
  }

  lemma HistoryAgrees(ws: seq<Whole>, es: seq<Event>, i: nat)
    requires History(ws, es) && i < |ws|
    ensures Agree(ws[i])
  {
    FirstAgrees(ws, es);
    forall k | 0 < k < |ws| && Agree(ws[k - 1]) ensures Agree(ws[k]) { AgreeNext(ws, es, k - 1); }
    Throughout(ws, (w: Whole) => Agree(w), i);
  }

  lemma AgreeNext(ws: seq<Whole>, es: seq<Event>, k: nat)
    requires History(ws, es) && k < |es| && Agree(ws[k])
    ensures Agree(ws[k + 1])
  {
    HistoryInv(ws, es, k);
    HistoryStep(ws, es, k);
    EventAgrees(ws[k], es[k]);
  }

  lemma EventAgrees(w: Whole, e: Event)
    requires Inv(w.s) && Agree(w) && Possible(w, e)
    ensures Agree(After(w, e))
  {
    match e
    case System(step) => StepAgrees(w, step);
    case Resource(call) => R.CallKeepsLists(w.g, call);
  }

  // Who has exited does nothing more.

  lemma ExitedDoesNotRun(s: State, p: Pid)
    requires Inv(s) && p in s.exits
    ensures s.running != Some(p)
  {
  }

  lemma StepKeepsExits(s: State, step: Step, p: Pid)
    requires Inv(s) && Enabled(s, step) && p in s.exits
    ensures p in Apply(s, step).exits
  {
    if !step.SpawnChild? { StepCounts(s, step); }
  }

  /** The descriptors of a process that exited stay what they are. */
  lemma EventSpares(w: Whole, e: Event, p: Pid)
    requires Possible(w, e) && G.GraphOk(w.g) && w.s.running != Some(p)
    ensures R.HeldBy(After(w, e).g, p) == R.HeldBy(w.g, p)
  {
    match e
    case Resource(call) => R.CallSpares(w.g, call, p);
    case System(step) => EffectSpares(w.s, w.g, step, p);
  }

  lemma EffectSpares(s: State, g: G.Graph, step: Step, p: Pid)
    requires Enabled(s, step) && G.GraphOk(g) && s.running != Some(p)
    ensures R.HeldBy(Effect(s, g, step), p) == R.HeldBy(g, p)
  {
    if step.ExitWith? {
      ExitSpares(s, g, step.value, p);
    } else if step.WaitPid? {
      WaitSpares(s, g, step.pid, p);
    }
  }

  lemma ExitSpares(s: State, g: G.Graph, value: int, p: Pid)
    requires Enabled(s, ExitWith(value)) && G.GraphOk(g) && s.running != Some(p)
    ensures R.HeldBy(Effect(s, g, ExitWith(value)), p) == R.HeldBy(g, p)
  {
    ExitEffect(s, g, value);
    if s.running.value in g.lists { R.HandOverSpares(g, s.running.value, p); }
  }

  lemma ExitEffect(s: State, g: G.Graph, value: int)
    requires Enabled(s, ExitWith(value))
    ensures Effect(s, g, ExitWith(value)) ==
              if HandsOver(s, value) && s.running.value in g.lists then R.Apply(g, R.HandOverStep(s.running.value))
                  else g
  {
  }

  lemma WaitSpares(s: State, g: G.Graph, pid: int, p: Pid)
    requires Enabled(s, WaitPid(pid))
    ensures R.HeldBy(Effect(s, g, WaitPid(pid)), p) == R.HeldBy(g, p)
  {
  }

  /** From the exit of `p` on, the descriptors it holds are those it held right after. */
  lemma {:induction false} HeldForGood(ws: seq<Whole>, es: seq<Event>, i: nat, j: nat, p: Pid)
    requires History(ws, es) && i <= j < |ws| && p in ws[i].s.exits
    ensures p in ws[j].s.exits && R.HeldBy(ws[j].g, p) == R.HeldBy(ws[i].g, p)
    decreases j
  {
    if i < j {
      HeldForGood(ws, es, i, j - 1, p);
      HeldNext(ws, es, j - 1, p);
    }
  }

  lemma HeldNext(ws: seq<Whole>, es: seq<Event>, k: nat, p: Pid)
    requires History(ws, es) && k < |es| && p in ws[k].s.exits
    ensures p in ws[k + 1].s.exits && R.HeldBy(ws[k + 1].g, p) == R.HeldBy(ws[k].g, p)
  {
    HistoryStep(ws, es, k);
    HistoryInv(ws, es, k);
    HistoryGraph(ws, es, k);
    ExitedDoesNotRun(ws[k].s, p);
    EventSpares(ws[k], es[k], p);
    if es[k].System? { StepKeepsExits(ws[k].s, es[k].step, p); }
  }

  lemma ExitHolds(ws: seq<Whole>, es: seq<Event>, i: nat, p: Pid, value: int)
    requires History(ws, es) && i < |es| && es[i] == System(ExitWith(value)) && ws[i].s.running == Some(p)
    ensures Enabled(ws[i].s, ExitWith(value)) && p in ws[i].g.lists && p in ws[i + 1].s.exits
    ensures R.HeldBy(ws[i + 1].g, p) == if HandsOver(ws[i].s, value) then {} else Elems(ws[i].g.lists[p])
  {
    HistoryStep(ws, es, i);
    HistoryInv(ws, es, i);
    HistoryGraph(ws, es, i);
    HistoryAgrees(ws, es, i);
    ExitKeys(ws[i].s, value);
    HeldAfterExit(ws[i].s, ws[i].g, value);
  }

  lemma WaitEffect(s: State, g: G.Graph, pid: int)
    requires Enabled(s, WaitPid(pid))
    ensures var c := Reaped(s, pid);
            Effect(s, g, WaitPid(pid)) == if c.Some? && c.value in g.lists then G.DropProcess(g, c.value) else g
  {
  }

  lemma HeldAfterExit(s: State, g: G.Graph, value: int)
    requires Enabled(s, ExitWith(value)) && G.GraphOk(g) && s.running.value in g.lists
    ensures var p := s.running.value;
            R.HeldBy(Effect(s, g, ExitWith(value)), p) == if HandsOver(s, value) then {} else Elems(g.lists[p])
  {
    ExitEffect(s, g, value);
    R.HeldIsListed(g, s.running.value);
    R.HandOverLeavesNone(g, s.running.value);
  }

  /** Over every history: when a process that has exited is gone, the descriptors it has left
      behind are none if a parent was waiting for it, and all that it had when it exited
      otherwise. */
  lemma ExitLeaves(ws: seq<Whole>, es: seq<Event>, i: nat, j: nat, p: Pid, value: int)
    requires History(ws, es) && i < j < |ws| && es[i] == System(ExitWith(value)) && ws[i].s.running == Some(p)
    requires p !in ws[j].s.procs
    ensures Enabled(ws[i].s, ExitWith(value)) && p in ws[i].g.lists
    ensures forall d :: R.Orphan(ws[j].g, d) && ws[j].g.descriptors[d].pid == p <==>
                        !HandsOver(ws[i].s, value) && d in ws[i].g.lists[p]
  {
    ExitHolds(ws, es, i, p, value);
    HeldForGood(ws, es, i + 1, j, p);
    OrphansAt(ws, es, j, p);
  }

  lemma OrphansAt(ws: seq<Whole>, es: seq<Event>, j: nat, p: Pid)
    requires History(ws, es) && j < |ws| && p !in ws[j].s.procs
    ensures forall d :: R.Orphan(ws[j].g, d) && ws[j].g.descriptors[d].pid == p <==> d in R.HeldBy(ws[j].g, p)
  {
    HistoryAgrees(ws, es, j);
    HistoryGraph(ws, es, j);
    R.OrphansAreHeld(ws[j].g, p);
  }

  /** So something is left behind exactly when nobody was waiting and there was something. */
  lemma ExitLeaksIff(ws: seq<Whole>, es: seq<Event>, i: nat, j: nat, p: Pid, value: int)
    requires History(ws, es) && i < j < |ws| && es[i] == System(ExitWith(value)) && ws[i].s.running == Some(p)
    requires p !in ws[j].s.procs
    ensures Enabled(ws[i].s, ExitWith(value)) && p in ws[i].g.lists
    ensures (exists d :: R.Orphan(ws[j].g, d) && ws[j].g.descriptors[d].pid == p) <==>
              !HandsOver(ws[i].s, value) && ws[i].g.lists[p] != []
  {
    ExitLeaves(ws, es, i, j, p, value);
    if ws[i].g.lists[p] != [] { assert ws[i].g.lists[p][0] in ws[i].g.lists[p]; }
  }
}
