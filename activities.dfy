/**
 * The Activity class of docs/modules.js: an append-only list of tasks, each run once when it is
 * registered and run again, in registration order, by executeAll.
 *
 * The source stores closures. Here a task is one of the drawing operations such closures perform on
 * a point buffer, or NotCallable for a value whose `typeof` is not "function".
 */
module Activities {

  datatype Point = Point(x: int, y: int)

  datatype Task =
    | AppendPoint(p: Point)  // records one point into the buffer
    | ClearBuffer            // empties the buffer
    | NotCallable            // anything executeAndRegister must ignore

  predicate IsFunction(t: Task) {
    !t.NotCallable?
  }

  predicate AllFunctions(ts: seq<Task>) {
    forall i :: 0 <= i < |ts| ==> IsFunction(ts[i])
  }

  /**
   * The effect of calling a task once on the buffer contents `s`: an appended point goes last with
   * every earlier point kept; a clear leaves nothing.
   */
  function Apply(t: Task, s: seq<Point>): (r: seq<Point>)
    requires IsFunction(t)
    ensures t.AppendPoint? ==> |r| == |s| + 1 && r[..|s|] == s && r[|s|] == t.p
    ensures t.ClearBuffer? ==> |r| == 0
  {
    match t
    case AppendPoint(p) => s + [p]
    case ClearBuffer => []
  }

  /** No task of `ts` clears the buffer. */
  predicate OnlyAppends(ts: seq<Task>) {
    forall i :: 0 <= i < |ts| ==> ts[i].AppendPoint?
  }

  /**
   * The buffer contents after calling every task of `ts`, first to last, starting from `s`. Each
   * task adds at most one point.
   */
  function Replay(ts: seq<Task>, s: seq<Point>): (r: seq<Point>)
    requires AllFunctions(ts)
    ensures |r| <= |s| + |ts|
    decreases |ts|
  {
    if ts == [] then s else Replay(ts[1..], Apply(ts[0], s))
  }

  /** Replaying tasks that only append keeps the starting points as a prefix and adds one point each. */
  lemma {:induction false} ReplayOnlyAppends(ts: seq<Task>, s: seq<Point>)
    requires OnlyAppends(ts)
    ensures AllFunctions(ts)
    ensures |Replay(ts, s)| == |s| + |ts| && Replay(ts, s)[..|s|] == s
    ensures forall i :: 0 <= i < |ts| ==> Replay(ts, s)[|s| + i] == ts[i].p
    decreases |ts|
  {
    if ts != [] {
      var s' := Apply(ts[0], s);
      assert OnlyAppends(ts[1..]);
      ReplayOnlyAppends(ts[1..], s');
      var r := Replay(ts, s);
      assert r[..|s|] == r[..|s'|][..|s|];
      forall i | 0 <= i < |ts| ensures r[|s| + i] == ts[i].p {
        if i > 0 { assert ts[1..][i - 1] == ts[i]; }
      }
    }
  }

  /** The tasks a run of executeAndRegister calls keeps: the callable ones, in call order. */
  function Callables(ts: seq<Task>): (r: seq<Task>)
    ensures AllFunctions(r)
    ensures |r| <= |ts|
    ensures forall i :: 0 <= i < |r| ==> r[i] in ts
    ensures AllFunctions(ts) ==> r == ts
  {
    if ts == [] then []
    else if IsFunction(ts[0]) then [ts[0]] + Callables(ts[1..])
    else Callables(ts[1..])
  }

  /** Replaying a concatenation replays the first part, then the second from where it left off. */
  lemma {:induction false} ReplayConcat(a: seq<Task>, b: seq<Task>, s: seq<Point>)
    requires AllFunctions(a) && AllFunctions(b)
    ensures AllFunctions(a + b)
    ensures Replay(a + b, s) == Replay(b, Replay(a, s))
    decreases |a|
  {
    assert AllFunctions(a + b) by {
      forall i | 0 <= i < |a + b| ensures IsFunction((a + b)[i]) {
        if i < |a| { assert (a + b)[i] == a[i]; } else { assert (a + b)[i] == b[i - |a|]; }
      }
    }
    if a != [] {
      assert (a + b)[1..] == a[1..] + b;
      ReplayConcat(a[1..], b, Apply(a[0], s));
    } else {
      assert a + b == b;
    }
  }

  /** Replaying one more task at the end applies that task to the previous replay's result. */
  lemma ReplaySnoc(ts: seq<Task>, t: Task, s: seq<Point>)
    requires AllFunctions(ts) && IsFunction(t)
    ensures AllFunctions(ts + [t])
    ensures Replay(ts + [t], s) == Apply(t, Replay(ts, s))
  {
    ReplayConcat(ts, [t], s);
  }

  /** One more call of executeAndRegister keeps the task exactly when it is callable. */
  lemma {:induction false} CallablesSnoc(ts: seq<Task>, t: Task)
    ensures Callables(ts + [t]) == if IsFunction(t) then Callables(ts) + [t] else Callables(ts)
    decreases |ts|
  {
    if ts != [] {
      assert (ts + [t])[1..] == ts[1..] + [t];
      CallablesSnoc(ts[1..], t);
    } else {
      assert [t][1..] == [];
    }
  }

  /** The state the tasks act on: the points buffer the drawing closures capture. */
  class Buffer {
    var points: seq<Point>

    constructor (init: seq<Point>)
      ensures points == init
    {
      points := init;
    }
  }

  class Activity {
    var tasks: seq<Task>

    /** Only callable tasks are ever recorded. */
    ghost predicate Valid()
      reads this
    {
      AllFunctions(tasks)
    }

    constructor ()
      ensures Valid() && tasks == []
    {
      tasks := [];
    }

    /** Runs a callable task once on `buf`, then appends it; a non-callable one changes nothing. */
    method ExecuteAndRegister(task: Task, buf: Buffer)
      requires Valid()
      modifies this, buf
      ensures Valid()
      ensures IsFunction(task) ==> buf.points == Apply(task, old(buf.points)) && tasks == old(tasks) + [task]
      ensures !IsFunction(task) ==> buf.points == old(buf.points) && tasks == old(tasks)
    {
      if IsFunction(task) {
        buf.points := Apply(task, buf.points);
        tasks := tasks + [task];
      }
    }

    /** Runs every recorded task on `buf`, in registration order; the task list is left as it is. */
    method ExecuteAll(buf: Buffer)
      requires Valid()
      modifies buf
      ensures buf.points == Replay(tasks, old(buf.points))
    {
      ghost var start := buf.points;
      for i := 0 to |tasks|
        invariant buf.points == Replay(tasks[..i], start)
      {
        ReplaySnoc(tasks[..i], tasks[i], start);
        assert tasks[..i + 1] == tasks[..i] + [tasks[i]];
        buf.points := Apply(tasks[i], buf.points);
      }
      assert tasks[..|tasks|] == tasks;
    }
  }

  /**
   * Replay determinism: register `ts` one by one on a fresh Activity whose buffer starts at `origin`,
   * then replay the recorded tasks on a second buffer that also starts at `origin`. Both buffers end
   * equal, and the recorded list is the callable tasks of `ts` in call order.
   */
  method RecordThenReplay(ts: seq<Task>, origin: seq<Point>)
    returns (recorded: seq<Task>, live: seq<Point>, replayed: seq<Point>)
    ensures recorded == Callables(ts)
    ensures live == Replay(recorded, origin)
    ensures replayed == live
  {
    var activity := new Activity();
    var buf := new Buffer(origin);
    for i := 0 to |ts|
      invariant activity.Valid()
      invariant activity.tasks == Callables(ts[..i])
      invariant buf.points == Replay(activity.tasks, origin)
    {
      CallablesSnoc(ts[..i], ts[i]);
      assert ts[..i + 1] == ts[..i] + [ts[i]];
      if IsFunction(ts[i]) {
        ReplaySnoc(activity.tasks, ts[i], origin);
      }
      activity.ExecuteAndRegister(ts[i], buf);
    }
    assert ts[..|ts|] == ts;
    recorded, live := activity.tasks, buf.points;
    var again := new Buffer(origin);
    activity.ExecuteAll(again);
    replayed := again.points;
  }
}
