/**
 The job slots of Enroll.cpp: the main loop starts a request worker, takes its
 job back when the worker is done, and parks one that overran. Every access of
 the loop to a job is a step of its own, and the worker's steps fall anywhere
 between them.
 */
module EnrollJobs {
  import opened Options

  /** Where the main loop is inside a turn. */
  datatype At =
    | Top
    | Reaping(id: nat)
    | Look
    | Finishing(id: nat)
    | Parked(id: nat)
    | MayStart
    | Building(id: nat)
    | Spawned(id: nat)

  /**
   Running holds the jobs whose worker has not set done. Faults count accesses off
   the heap and frees under a running worker.
   */
  datatype World = World(
    at: At, job: Option<nat>, stale: Option<nat>, heap: set<nat>, running: set<nat>, next: nat,
    freed: seq<nat>, faults: nat)

  datatype Step =
    | Turn
    | Touch
    | Ceiling
    | Start(alloc: bool)
    | Refuse
    | Spawn
    | TaskTouch(id: nat)
    | TaskDone(id: nat)

  function Touched(w: World, id: nat): World { if id in w.heap then w else w.(faults := w.faults + 1) }

  function Free(w: World, id: nat): World {
    var t := Touched(w, id);
    t.(heap := t.heap - {id}, freed := t.freed + [id], faults := if id in t.running then t.faults + 1 else t.faults)
  }

  predicate Enabled(w: World, s: Step) {
    match s
    case Turn => !w.at.MayStart? && !w.at.Building?
    case Touch => w.at.Reaping? || w.at.Finishing? || w.at.Building?
    case Ceiling => w.at.Look? && w.job.Some?
    case Start(_) => w.at.MayStart?
    case Refuse => w.at.Building? || w.at.MayStart?
    case Spawn => w.at.Building?
    case TaskTouch(id) => id in w.running
    case TaskDone(id) => id in w.running
  }

  /** The main loop's next access, as Enroll::loop makes them in order. */
  function TurnOf(w: World): World {
    match w.at
    case Top =>
      if w.stale.None? then w.(at := Look)
      else
        var id := w.stale.value;
        Touched(w, id).(at := if id in w.running then Top else Reaping(id))
    case Reaping(id) => Free(w, id).(stale := None, at := Look)
    case Look =>
      if w.job.None? then w.(at := MayStart)
      else
        var id := w.job.value;
        var t := Touched(w, id);
        if id in w.running then t.(at := Top) else t.(job := None, at := Finishing(id))
    case Finishing(id) => Free(w, id).(at := Top)
    case Parked(id) => Touched(w, id).(at := Top)
    case MayStart => w
    case Building(_) => w
    case Spawned(id) => w.(job := Some(id), at := Top)
  }

  function Next(w: World, s: Step): World {
    match s
    case Turn => TurnOf(w)
    case Touch => if w.at.Reaping? || w.at.Finishing? || w.at.Building? then Touched(w, w.at.id) else w
    case Ceiling =>
      if w.job.None? then w
      else
        var id := w.job.value;
        var t := Touched(w, id);
        if id in w.running then t.(stale := Some(id), job := None, at := Parked(id))
        else t.(job := None, at := Finishing(id))
    case Start(alloc) =>
      if alloc then w.(heap := w.heap + {w.next}, next := w.next + 1, at := Building(w.next)) else w.(at := Top)
    case Refuse => if w.at.Building? then Free(w, w.at.id).(at := Top) else w.(at := Top)
    case Spawn => if w.at.Building? then w.(running := w.running + {w.at.id}, at := Spawned(w.at.id)) else w
    case TaskTouch(id) => Touched(w, id)
    case TaskDone(id) => Touched(w, id).(running := w.running - {id})
  }

  predicate Possible(w: World, run: seq<Step>)
    decreases run
  {
    run == [] || (Enabled(w, run[0]) && Possible(Next(w, run[0]), run[1..]))
  }

  function Run(w: World, run: seq<Step>): World
    decreases run
  {
    if run == [] then w else Run(Next(w, run[0]), run[1..])
  }

  const Boot: World := World(Top, None, None, {}, {}, 0, [], 0)

  // ---- What every interleaving keeps ----

  function Ids(o: Option<nat>): set<nat> { if o.None? then {} else {o.value} }

  /** The one job of the moment is in a slot or in the loop's hands. */
  predicate Held(w: World) {
    match w.at
    case Top => (w.job.None? || w.stale.None?) && w.heap == Ids(w.job) + Ids(w.stale)
    case Reaping(id) => w.stale == Some(id) && w.job.None? && w.heap == {id} && id !in w.running
    case Look => w.stale.None? && w.heap == Ids(w.job)
    case Finishing(id) => w.job.None? && w.stale.None? && w.heap == {id} && id !in w.running
    case Parked(id) => w.job.None? && w.stale == Some(id) && w.heap == {id}
    case MayStart => w.job.None? && w.stale.None? && w.heap == {}
    case Building(id) => w.job.None? && w.stale.None? && w.heap == {id} && w.running == {}
    case Spawned(id) => w.job.None? && w.stale.None? && w.heap == {id}
  }

  predicate Sound(w: World) {
    && w.faults == 0 && Held(w) && w.running <= w.heap
    && (forall i :: i in w.heap ==> i < w.next)
    && (forall i :: 0 <= i < w.next ==> (i in w.freed <==> i !in w.heap))
    && (forall k :: 0 <= k < |w.freed| ==> w.freed[k] < w.next)
    && forall a, b :: 0 <= a < b < |w.freed| ==> w.freed[a] != w.freed[b]
  }

  lemma {:induction false} HeldStep(w: World, s: Step)
    requires w.faults == 0 && Held(w) && w.running <= w.heap && (forall i :: i in w.heap ==> i < w.next)
             && Enabled(w, s)
    ensures var w' := Next(w, s); w'.faults == 0 && Held(w') && w'.running <= w'.heap
  {}

  lemma {:induction false} FreedStep(w: World, s: Step)
    requires Sound(w) && Enabled(w, s)
    ensures var w' := Next(w, s);
            w' == w.(at := w'.at, job := w'.job, stale := w'.stale, running := w'.running)
            || (w'.next == w.next
                && exists id :: id in w.heap && w'.heap == w.heap - {id} && w'.freed == w.freed + [id])
            || (w'.heap == w.heap + {w.next} && w'.freed == w.freed && w'.next == w.next + 1)
  {
    HeldStep(w, s);
    if (s.Turn? && (w.at.Reaping? || w.at.Finishing?)) || (s.Refuse? && w.at.Building?) {
      var id := w.at.id;
      assert id in w.heap && Next(w, s).heap == w.heap - {id};
    }
  }

  lemma {:induction false} StepIsSound(w: World, s: Step)
    requires Sound(w) && Enabled(w, s)
    ensures Sound(Next(w, s))
  {
    HeldStep(w, s);
    FreedStep(w, s);
  }

  lemma {:induction false} RunIsSound(w: World, run: seq<Step>)
    requires Sound(w) && Possible(w, run)
    ensures Sound(Run(w, run))
    decreases run
  {
    if run != [] {
      StepIsSound(w, run[0]);
      RunIsSound(Next(w, run[0]), run[1..]);
    }
  }

  /** Turns of the main loop alone. */
  function Turns(w: World, n: nat): World
    decreases n
  {
    if n == 0 then w else TurnOf(Turns(w, n - 1))
  }

  /** Once the worker is done, the loop frees its job, parked or not, and may start the next. */
  lemma DoneJobIsFreed(w: World)
    requires Sound(w) && w.at == Top && w.running == {}
    ensures var x := Turns(w, if w.stale.Some? then 3 else if w.job.Some? then 5 else 2);
            && x.at == MayStart && x.heap == {} && x.job == None && x.stale == None
            && (w.stale.Some? ==> x.freed == w.freed + [w.stale.value])
            && (w.job.Some? ==> x.freed == w.freed + [w.job.value])
  {
    var w1 := TurnOf(w);
    assert Turns(w, 0) == w && Turns(w, 1) == w1;
    var w2 := TurnOf(w1);
    assert Turns(w, 2) == w2;
    var w3 := TurnOf(w2);
    assert Turns(w, 3) == w3;
    assert Turns(w, 4) == TurnOf(w3);
  }

  /** A worker past the ceiling is parked: no second one starts, and its job is left alone. */
  lemma OverrunIsParked(w: World)
    requires Sound(w) && w.at == Look && w.job.Some? && w.job.value in w.running
    ensures var x := TurnOf(Next(w, Ceiling));
            && x.at == Top && x.stale == w.job && x.job == None && x.heap == w.heap
            && TurnOf(x).at == Top && TurnOf(x).heap == w.heap
  {}

  /** One request worker at a time; a job is freed once, after its worker set done, and none is lost. */
  lemma {:induction false} OneTaskAtATime(run: seq<Step>)
    requires Possible(Boot, run)
    ensures var w := Run(Boot, run);
            && w.faults == 0
            && (forall a, b :: a in w.heap && b in w.heap ==> a == b)
            && w.running <= w.heap
            && (forall a, b :: 0 <= a < b < |w.freed| ==> w.freed[a] != w.freed[b])
            && forall i :: 0 <= i < w.next ==> (i in w.freed <==> i !in w.heap)
  {
    RunIsSound(Boot, run);
  }
}
