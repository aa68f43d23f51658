/**
 The FIFO channels of the disk workers (modules/graph/rrdtool/sync_disk.go): tasks on one file run in the order
 they were submitted. F is what names a file; index is the worker of a file, a function of its md5.
 */
module IoQueues {
  import opened Model

  type Content = Option<seq<GraphItem>>

  /** A task; the source's READ and FETCH only look. WRITE needs the file not to exist. */
  datatype Task<F> = Look(file: F) | Write(file: F, body: seq<GraphItem>) | Flush(file: F, items: seq<GraphItem>)

  /** A finished task and the file content it found, None for no file. */
  datatype Finished<F> = Finished(task: Task<F>, seen: Content)

  /** What a task leaves of a file. */
  function Effect<F>(content: Content, task: Task<F>): Content {
    match task
    case Look(_) => content
    case Write(_, body) => if content.None? then Some(body) else content
    case Flush(_, items) =>
      if items == [] then content else Some((if content.Some? then content.value else []) + items)
  }

  function Replay<F>(tasks: seq<Task<F>>): Content {
    if tasks == [] then None else Effect(Replay(tasks[..|tasks| - 1]), tasks[|tasks| - 1])
  }

  datatype Pool<F> = Pool(queues: seq<seq<Task<F>>>, files: map<F, seq<GraphItem>>, submitted: seq<Task<F>>,
                          done: seq<Finished<F>>)

  datatype PoolStep<F> = Submit(task: Task<F>) | Execute(worker: nat)

  function ContentOf<F>(files: map<F, seq<GraphItem>>, f: F): Content {
    if f in files then Some(files[f]) else None
  }

  function Filed<F(==)>(files: map<F, seq<GraphItem>>, f: F, content: Content): map<F, seq<GraphItem>> {
    if content.Some? then files[f := content.value] else files
  }

  lemma FiledContent<F>(files: map<F, seq<GraphItem>>, f: F, content: Content, g: F)
    requires f in files ==> content.Some?
    ensures ContentOf(Filed(files, f, content), g) == if g == f then content else ContentOf(files, g)
  {
  }

  function PoolDo<F(==)>(p: Pool<F>, step: PoolStep<F>, index: F -> nat): Option<Pool<F>> {
    match step
    case Submit(task) =>
      var i := index(task.file);
      if i >= |p.queues| then None
      else Some(p.(queues := p.queues[i := p.queues[i] + [task]], submitted := p.submitted + [task]))
    case Execute(w) =>
      if w >= |p.queues| || p.queues[w] == [] then None
      else
        var task := p.queues[w][0];
        var seen := ContentOf(p.files, task.file);
        Some(p.(queues := p.queues[w := p.queues[w][1..]], done := p.done + [Finished(task, seen)],
                files := Filed(p.files, task.file, Effect(seen, task))))
  }

  function PoolRun<F(==)>(workers: nat, index: F -> nat, steps: seq<PoolStep<F>>, n: nat): Option<Pool<F>>
    requires n <= |steps|
  {
    if n == 0 then Some(Pool(seq(workers, _ => []), map[], [], []))
    else match PoolRun(workers, index, steps, n - 1)
         case None => None
         case Some(p) => PoolDo(p, steps[n - 1], index)
  }

  /** The tasks on one file, in order. */
  function Of<F(==)>(tasks: seq<Task<F>>, f: F): seq<Task<F>> {
    if tasks == [] then []
    else Of(tasks[..|tasks| - 1], f) + if tasks[|tasks| - 1].file == f then [tasks[|tasks| - 1]] else []
  }

  function Tasks<F>(done: seq<Finished<F>>): (r: seq<Task<F>>)
    ensures |r| == |done|
  {
    seq(|done|, i requires 0 <= i < |done| => done[i].task)
  }

  lemma {:induction false} OfConcat<F>(a: seq<Task<F>>, b: seq<Task<F>>, f: F)
    ensures Of(a + b, f) == Of(a, f) + Of(b, f)
  {
    if b == [] {
      assert a + b == a;
    } else {
      var n := |b| - 1;
      OfConcat(a, b[..n], f);
      assert (a + b)[..|a| + n] == a + b[..n];
    }
  }

  lemma OfOne<F>(t: Task<F>, f: F)
    ensures Of([t], f) == Mine(t, f)
  {
    assert [t][..0] == [];
  }

  /** What was done on a file and what still waits is what was submitted, and it waits nowhere else. */
  ghost predicate Queued<F>(p: Pool<F>, index: F -> nat, f: F)
    requires index(f) < |p.queues|
  {
    && Of(Tasks(p.done), f) + Of(p.queues[index(f)], f) == Of(p.submitted, f)
    && (forall w :: 0 <= w < |p.queues| && w != index(f) ==> Of(p.queues[w], f) == [])
  }

  /** The file is the replay of what was done on it. */
  ghost predicate Stored<F>(p: Pool<F>, f: F) {
    ContentOf(p.files, f) == Replay(Of(Tasks(p.done), f))
  }

  /** Each task done on it found the replay of those done before. */
  ghost predicate Witnessed<F>(p: Pool<F>, f: F) {
    forall i :: 0 <= i < |p.done| && p.done[i].task.file == f ==> p.done[i].seen == Replay(Of(Tasks(p.done[..i]), f))
  }

  ghost predicate InStep<F>(p: Pool<F>, index: F -> nat, f: F)
    requires index(f) < |p.queues|
  {
    Queued(p, index, f) && Stored(p, f) && Witnessed(p, f)
  }

  function Mine<F(==)>(t: Task<F>, f: F): seq<Task<F>> {
    if t.file == f then [t] else []
  }

  lemma OfSnoc<F>(a: seq<Task<F>>, t: Task<F>, f: F)
    ensures Of(a + [t], f) == Of(a, f) + Mine(t, f)
  {
    OfConcat(a, [t], f);
    OfOne(t, f);
  }

  lemma OfCons<F>(a: seq<Task<F>>, f: F)
    requires a != []
    ensures Of(a, f) == Mine(a[0], f) + Of(a[1..], f)
  {
    assert a == [a[0]] + a[1..];
    OfConcat([a[0]], a[1..], f);
    OfOne(a[0], f);
  }

  lemma Append<F>(a: seq<Task<F>>, b: seq<Task<F>>, c: seq<Task<F>>)
    ensures a + (b + c) == a + b + c
  {
  }

  lemma SubmitQueued<F>(p: Pool<F>, index: F -> nat, f: F, task: Task<F>)
    requires index(f) < |p.queues| && Queued(p, index, f) && index(task.file) < |p.queues|
    ensures Queued(PoolDo(p, Submit(task), index).value, index, f)
  {
    var i, p' := index(task.file), PoolDo(p, Submit(task), index).value;
    OfSnoc(p.submitted, task, f);
    OfSnoc(p.queues[i], task, f);
    var waiting := Of(p.queues[index(f)], f);
    assert Of(p'.queues[index(f)], f) == waiting + Mine(task, f) by {
      if i != index(f) {
        assert task.file != f;
        assert waiting + [] == waiting;
      }
    }
    Append(Of(Tasks(p.done), f), waiting, Mine(task, f));
    forall w | 0 <= w < |p'.queues| && w != index(f) ensures Of(p'.queues[w], f) == [] {
      assert Of(p.queues[w], f) == [];
    }
  }

  lemma SubmitOnly<F>(p: Pool<F>, index: F -> nat, f: F, task: Task<F>)
    requires index(task.file) < |p.queues| && Stored(p, f) && Witnessed(p, f)
    ensures var p' := PoolDo(p, Submit(task), index).value; Stored(p', f) && Witnessed(p', f)
  {
    var p' := PoolDo(p, Submit(task), index).value;
    assert p'.done == p.done && p'.files == p.files;
  }

  lemma TasksSnoc<F>(done: seq<Finished<F>>, d: Finished<F>, f: F)
    ensures Of(Tasks(done + [d]), f) == Of(Tasks(done), f) + Mine(d.task, f)
  {
    assert Tasks(done + [d]) == Tasks(done) + [d.task];
    OfConcat(Tasks(done), [d.task], f);
    OfOne(d.task, f);
  }

  lemma ReplaySnoc<F>(tasks: seq<Task<F>>, t: Task<F>)
    ensures Replay(tasks + [t]) == Effect(Replay(tasks), t)
  {
    assert (tasks + [t])[..|tasks|] == tasks;
  }

  lemma ExecuteQueued<F>(p: Pool<F>, index: F -> nat, f: F, w: nat)
    requires index(f) < |p.queues| && Queued(p, index, f) && w < |p.queues| && p.queues[w] != []
    ensures Queued(PoolDo(p, Execute(w), index).value, index, f)
  {
    var task, p' := p.queues[w][0], PoolDo(p, Execute(w), index).value;
    OfCons(p.queues[w], f);
    TasksSnoc(p.done, Finished(task, ContentOf(p.files, task.file)), f);
    var done, left := Of(Tasks(p.done), f), Of(p'.queues[index(f)], f);
    assert Of(Tasks(p'.done), f) == done + Mine(task, f);
    if w == index(f) {
      assert done + (Mine(task, f) + left) == done + Mine(task, f) + left;
    } else {
      assert Mine(task, f) == [] && done + [] == done;
    }
    forall v | 0 <= v < |p'.queues| && v != index(f) ensures Of(p'.queues[v], f) == [] {
      assert Of(p.queues[v], f) == [];
    }
  }

  lemma ExecuteStored<F>(p: Pool<F>, index: F -> nat, f: F, w: nat)
    requires Stored(p, f) && w < |p.queues| && p.queues[w] != []
    ensures Stored(PoolDo(p, Execute(w), index).value, f)
  {
    var task := p.queues[w][0];
    var seen, done := ContentOf(p.files, task.file), Of(Tasks(p.done), f);
    FiledContent(p.files, task.file, Effect(seen, task), f);
    TasksSnoc(p.done, Finished(task, seen), f);
    if task.file == f {
      ReplaySnoc(done, task);
    } else {
      assert done + Mine(task, f) == done;
    }
  }

  lemma ExecuteWitnessed<F>(p: Pool<F>, index: F -> nat, f: F, w: nat)
    requires Stored(p, f) && Witnessed(p, f) && w < |p.queues| && p.queues[w] != []
    ensures Witnessed(PoolDo(p, Execute(w), index).value, f)
  {
    var p' := PoolDo(p, Execute(w), index).value;
    forall i | 0 <= i < |p'.done| && p'.done[i].task.file == f
      ensures p'.done[i].seen == Replay(Of(Tasks(p'.done[..i]), f))
    {
      if i < |p.done| { assert p'.done[..i] == p.done[..i]; } else { assert p'.done[..i] == p.done; }
    }
  }

  lemma {:induction false} RunInStep<F>(workers: nat, index: F -> nat, steps: seq<PoolStep<F>>, n: nat, f: F)
    requires n <= |steps| && PoolRun(workers, index, steps, n).Some? && index(f) < workers
    ensures var p := PoolRun(workers, index, steps, n).value; |p.queues| == workers && InStep(p, index, f)
  {
    if n > 0 {
      RunInStep(workers, index, steps, n - 1, f);
      var p := PoolRun(workers, index, steps, n - 1).value;
      match steps[n - 1]
      case Submit(task) => SubmitQueued(p, index, f, task); SubmitOnly(p, index, f, task);
      case Execute(w) => ExecuteQueued(p, index, f, w); ExecuteStored(p, index, f, w); ExecuteWitnessed(p, index, f, w);
    }
  }

  /**
   In every run, the k-th task finished on a file is the k-th one submitted for it, and it found the file exactly as
   the tasks submitted before it leave it: a fetch sees every flush that was submitted first.
   */
  lemma SeesEarlierTasks<F>(workers: nat, index: F -> nat, steps: seq<PoolStep<F>>, i: nat)
    requires PoolRun(workers, index, steps, |steps|).Some?
    requires var p := PoolRun(workers, index, steps, |steps|).value;
             i < |p.done| && index(p.done[i].task.file) < workers
    ensures var p := PoolRun(workers, index, steps, |steps|).value;
            var f := p.done[i].task.file;
            var k := |Of(Tasks(p.done[..i]), f)|;
            && k < |Of(p.submitted, f)|
            && Of(p.submitted, f)[k] == p.done[i].task
            && p.done[i].seen == Replay(Of(p.submitted, f)[..k])
  {
    var p := PoolRun(workers, index, steps, |steps|).value;
    var f := p.done[i].task.file;
    RunInStep(workers, index, steps, |steps|, f);
    SplitAt(p.done, i, f);
    var k := |Of(Tasks(p.done[..i]), f)|;
    assert Of(p.submitted, f)[..k] == Of(Tasks(p.done[..i]), f);
  }

  /** The tasks done on the file of the i-th finished one: those before it, itself, those after it. */
  lemma SplitAt<F>(done: seq<Finished<F>>, i: nat, f: F)
    requires i < |done| && done[i].task.file == f
    ensures Of(Tasks(done), f) == Of(Tasks(done[..i]), f) + [done[i].task] + Of(Tasks(done[i + 1..]), f)
  {
    var before, after := Tasks(done[..i]), Tasks(done[i + 1..]);
    assert Tasks(done) == before + [done[i].task] + after;
    OfConcat(before + [done[i].task], after, f);
    OfConcat(before, [done[i].task], f);
    OfOne(done[i].task, f);
  }
}
