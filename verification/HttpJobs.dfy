/**
 The net.http job of http_fetch_policy.h and Shell.cpp: one heap job shared by
 the shell that waits and the worker that fetches, any number of them at once.
 Every access to a job is a step of its own, and steps interleave freely.
 */
module HttpJobs {
  datatype Flag = Running | Done | Abandoned

  /** Where the shell is with a job. */
  datatype ShellAt = Filling | Waiting | Deciding | Leaving | Owning | Left

  /** Where the fetching worker is with it. */
  datatype TaskAt = Unborn | Fetching | Freeing | Ended

  datatype Job = Job(flag: Flag, shell: ShellAt, task: TaskAt)

  /** Faults count accesses to a job that is not on the heap, and second frees. */
  datatype World = World(jobs: seq<Job>, heap: set<nat>, freed: seq<nat>, faults: nat)

  datatype Step =
    | Alloc
    | Fill(id: nat)
    | GiveUp(id: nat)
    | Spawn(id: nat)
    | Poll(id: nat, timeout: bool)
    | Decide(id: nat)
    | Abandon(id: nat)
    | Report(id: nat)
    | ShellFree(id: nat)
    | Fetch(id: nat)
    | Finish(id: nat)
    | TaskFree(id: nat)

  // ---- The two exchanges ----

  datatype Exchanged = Exchanged(flag: Flag, keeps: bool)

  /** The worker's last touch; it keeps the job when the shell stopped waiting. */
  function JobFinish(flag: Flag): Exchanged { Exchanged(Done, flag == Abandoned) }

  /** At the wait ceiling; the shell keeps the job when the worker finished after all. */
  function JobAbandon(flag: Flag): Exchanged { Exchanged(Abandoned, flag == Done) }

  // ---- Steps ----

  /** A step can be taken when its side of the job is there. */
  predicate Enabled(w: World, s: Step) {
    s.Alloc? ||
    (s.id < |w.jobs| &&
     var j := w.jobs[s.id];
     match s
     case Alloc => true
     case Fill(_) => j.shell == Filling
     case GiveUp(_) => j.shell == Filling
     case Spawn(_) => j.shell == Filling
     case Poll(_, _) => j.shell == Waiting
     case Decide(_) => j.shell == Deciding
     case Abandon(_) => j.shell == Leaving
     case Report(_) => j.shell == Owning
     case ShellFree(_) => j.shell == Owning
     case Fetch(_) => j.task == Fetching
     case Finish(_) => j.task == Fetching
     case TaskFree(_) => j.task == Freeing)
  }

  predicate Frees(s: Step) { s.GiveUp? || s.ShellFree? || s.TaskFree? }

  function JobAfter(j: Job, s: Step): Job {
    match s
    case Alloc => j
    case Fill(_) => j
    case GiveUp(_) => j.(shell := Left)
    case Spawn(_) => j.(shell := Waiting, task := Fetching)
    case Poll(_, timeout) => if j.flag == Done || timeout then j.(shell := Deciding) else j
    case Decide(_) => j.(shell := if j.flag == Done then Owning else Leaving)
    case Abandon(_) =>
      var x := JobAbandon(j.flag);
      j.(flag := x.flag, shell := if x.keeps then Owning else Left)
    case Report(_) => j
    case ShellFree(_) => j.(shell := Left)
    case Fetch(_) => j
    case Finish(_) =>
      var x := JobFinish(j.flag);
      j.(flag := x.flag, task := if x.keeps then Freeing else Ended)
    case TaskFree(_) => j.(task := Ended)
  }

  function Next(w: World, s: Step): World
    requires Enabled(w, s)
  {
    if s.Alloc? then w.(jobs := w.jobs + [Job(Running, Filling, Unborn)], heap := w.heap + {|w.jobs|})
    else
      World(w.jobs[s.id := JobAfter(w.jobs[s.id], s)],
            if Frees(s) then w.heap - {s.id} else w.heap,
            if Frees(s) then w.freed + [s.id] else w.freed,
            if s.id in w.heap then w.faults else w.faults + 1)
  }

  predicate Possible(w: World, run: seq<Step>)
    decreases run
  {
    run == [] || (Enabled(w, run[0]) && Possible(Next(w, run[0]), run[1..]))
  }

  function Run(w: World, run: seq<Step>): World
    requires Possible(w, run)
    decreases run
  {
    if run == [] then w else Run(Next(w, run[0]), run[1..])
  }

  const Start: World := World([], {}, [], 0)

  // ---- Who owns a job ----

  predicate Owned(j: Job, live: bool) {
    match j.shell
    case Filling => live && j.task == Unborn && j.flag == Running
    case Waiting => live && ((j.task == Fetching && j.flag == Running) || (j.task == Ended && j.flag == Done))
    case Deciding => live && ((j.task == Fetching && j.flag == Running) || (j.task == Ended && j.flag == Done))
    case Leaving => live && ((j.task == Fetching && j.flag == Running) || (j.task == Ended && j.flag == Done))
    case Owning => live && j.task == Ended
    case Left => if j.task == Fetching then live && j.flag == Abandoned else live == (j.task == Freeing)
  }

  /** No more steps touch the job. */
  predicate Over(j: Job) { j.shell == Left && j.task != Fetching && j.task != Freeing }

  predicate Sound(w: World) {
    && w.faults == 0
    && (forall i :: 0 <= i < |w.jobs| ==> Owned(w.jobs[i], i in w.heap))
    && (forall i :: i in w.heap ==> i < |w.jobs|)
    && (forall i :: 0 <= i < |w.jobs| ==> (i in w.freed <==> i !in w.heap))
    && (forall k :: 0 <= k < |w.freed| ==> w.freed[k] < |w.jobs|)
    && forall a, b :: 0 <= a < b < |w.freed| ==> w.freed[a] != w.freed[b]
  }

  lemma {:induction false} JobStep(w: World, s: Step)
    requires Sound(w) && Enabled(w, s) && !s.Alloc?
    ensures s.id in w.heap && Owned(JobAfter(w.jobs[s.id], s), !Frees(s))
  {
    assert Owned(w.jobs[s.id], s.id in w.heap);
  }

  lemma {:induction false} StepIsSound(w: World, s: Step)
    requires Sound(w) && Enabled(w, s)
    ensures Sound(Next(w, s))
  {
    if !s.Alloc? { JobStep(w, s); }
    var w' := Next(w, s);
    forall i | 0 <= i < |w'.jobs| ensures Owned(w'.jobs[i], i in w'.heap) {
      if i < |w.jobs| { assert Owned(w.jobs[i], i in w.heap); }
    }
  }

  lemma {:induction false} RunIsSound(w: World, run: seq<Step>)
    requires Sound(w) && Possible(w, run)
    ensures Sound(Run(w, run))
    decreases run
  {
    if run != [] {
      StepIsSound(w, run[0]);
      RunIsSound(Next(w, run[0]), run[1..]);
    }
  }

  // ---- Every job can end ----

  /** The steps that end a job from where it stands, when both sides just go on. */
  function Ending(j: Job, id: nat): seq<Step> {
    match j.shell
    case Filling => [GiveUp(id)]
    case Waiting =>
      if j.flag == Done then [Poll(id, false), Decide(id), ShellFree(id)]
      else [Finish(id), Poll(id, false), Decide(id), ShellFree(id)]
    case Deciding => if j.flag == Done then [Decide(id), ShellFree(id)] else [Finish(id), Decide(id), ShellFree(id)]
    case Leaving => if j.flag == Done then [Abandon(id), ShellFree(id)] else [Abandon(id), Finish(id), TaskFree(id)]
    case Owning => [ShellFree(id)]
    case Left =>
      if j.task == Fetching then [Finish(id), TaskFree(id)] else if j.task == Freeing then [TaskFree(id)] else []
  }

  /** One step of the ending leads to the rest of it. */
  lemma EndingStep(w: World, id: nat)
    requires Sound(w) && id < |w.jobs| && !Over(w.jobs[id])
    ensures var run := Ending(w.jobs[id], id);
            run != [] && Enabled(w, run[0]) && Ending(Next(w, run[0]).jobs[id], id) == run[1..]
  {
    assert Owned(w.jobs[id], id in w.heap);
  }

  /** A job of any reachable world is freed by a few steps of its own, whatever the others do not do. */
  lemma {:induction false} EveryJobCanEnd(w: World, id: nat)
    requires Sound(w) && id < |w.jobs|
    ensures var run := Ending(w.jobs[id], id);
            Possible(w, run) && |run| <= 4 && id in Run(w, run).freed
    decreases |Ending(w.jobs[id], id)|
  {
    if Over(w.jobs[id]) {
      assert Owned(w.jobs[id], id in w.heap);
    } else {
      EndingStep(w, id);
      var s := Ending(w.jobs[id], id)[0];
      StepIsSound(w, s);
      EveryJobCanEnd(Next(w, s), id);
    }
  }

  /**
   In every interleaving no job is touched or freed once it was freed, and one that
   is over was freed exactly once.
   */
  lemma {:induction false} FreedExactlyOnce(run: seq<Step>)
    requires Possible(Start, run)
    ensures var w := Run(Start, run);
            && w.faults == 0
            && (forall a, b :: 0 <= a < b < |w.freed| ==> w.freed[a] != w.freed[b])
            && forall i :: 0 <= i < |w.jobs| ==> (i in w.freed <==> Over(w.jobs[i]))
  {
    RunIsSound(Start, run);
    var w := Run(Start, run);
    forall i | 0 <= i < |w.jobs| ensures i in w.freed <==> Over(w.jobs[i]) {
      assert Owned(w.jobs[i], i in w.heap);
    }
  }
}
