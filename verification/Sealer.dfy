/** The signing pool: requests submit their tasks to a bounded pool of workers that all requests share,
    and drain what they have submitted before they return. */
module Sealer {
  import opened Core

  datatype Ending = Succeeded | TaskFailed

  datatype Failure = Busy | Interrupted | BadTask

  /** How far a request's loop is: the next task to submit, the tasks that are out, how tasks ended, and
      the first error. */
  datatype Progress = Progress(next: nat, outstanding: set<nat>, ended: map<nat, Ending>, first: Option<Failure>)

  /** What one pass of the loop finds: whether the request is cancelled, whether the pool accepts a task,
      and which task reports next. */
  datatype Env = Env(cancelled: bool, accepts: bool, task: nat, ending: Ending)

  datatype Pass = Again(p: Progress) | Returned(p: Progress, error: Option<Failure>)

  const START := Progress(0, {}, map[], None)

  predicate Looping(p: Progress, n: nat) {
    p.next < n || p.outstanding != {}
  }

  /** The check at the top of the loop. */
  function Checked(p: Progress, cancelled: bool): Progress {
    if p.first.None? && cancelled then p.(first := Some(Interrupted)) else p
  }

  function Submitted(p: Progress): Progress {
    p.(next := p.next + 1, outstanding := p.outstanding + {p.next})
  }

  function Received(p: Progress, task: nat, ending: Ending): Progress {
    p.(outstanding := p.outstanding - {task}, ended := p.ended[task := ending],
       first := if p.first.None? && ending.TaskFailed? then Some(BadTask) else p.first)
  }

  predicate MaySubmit(p: Progress, n: nat, workers: nat) {
    p.first.None? && p.next < n && |p.outstanding| < workers
  }

  /** One pass of the loop, which is at its top. */
  function OnePass(p: Progress, n: nat, workers: nat, env: Env): Pass {
    var c := Checked(p, env.cancelled);
    if MaySubmit(c, n, workers) && env.accepts then Again(Submitted(c))
    else if c.outstanding == {} then Returned(c, if MaySubmit(c, n, workers) then Some(Busy) else c.first)
    else Again(Received(c, env.task, env.ending))
  }

  /** The loop over a script of what its passes find. */
  function Loop(p: Progress, n: nat, workers: nat, script: seq<Env>): (r: Option<Pass>)
    ensures r.Some? ==> r.value.Returned?
    decreases |script|
  {
    if !Looping(p, n) then (if script == [] then Some(Returned(p, p.first)) else None)
    else if |script| == 0 then None
    else
      match OnePass(p, n, workers, script[0])
      case Again(q) => Loop(q, n, workers, script[1..])
      case Returned(q, error) => if |script| == 1 then Some(Returned(q, error)) else None
  }

  /** Each pass that waits for a task hears of one that is out. */
  predicate Heard(p: Progress, n: nat, workers: nat, env: Env) {
    var c := Checked(p, env.cancelled);
    (MaySubmit(c, n, workers) && env.accepts) || c.outstanding == {} || env.task in c.outstanding
  }

  ghost predicate Possible(p: Progress, n: nat, workers: nat, script: seq<Env>)
    decreases |script|
  {
    |script| > 0 && Looping(p, n) ==>
      Heard(p, n, workers, script[0]) &&
      (OnePass(p, n, workers, script[0]).Again? ==> Possible(OnePass(p, n, workers, script[0]).p, n, workers, script[1..]))
  }

  /** Tasks below `next` are out or have ended, never both; no more are out than there are workers; and
      without an error every task that ended has succeeded. */
  ghost predicate Sound(p: Progress, n: nat, workers: nat) {
    p.next <= n && |p.outstanding| <= workers && p.outstanding !! p.ended.Keys &&
    (forall t: nat :: t in p.outstanding || t in p.ended <==> t < p.next) &&
    (p.first.None? ==> forall t: nat :: t in p.ended ==> p.ended[t].Succeeded?)
  }

  function Measure(p: Progress, n: nat): int {
    2 * (n - p.next) + |p.outstanding|
  }

  lemma PassKeeps(p: Progress, n: nat, workers: nat, env: Env)
    requires Sound(p, n, workers) && Looping(p, n) && Heard(p, n, workers, env)
    ensures Sound(OnePass(p, n, workers, env).p, n, workers)
    ensures OnePass(p, n, workers, env).Again? ==> 0 <= Measure(OnePass(p, n, workers, env).p, n) < Measure(p, n)
    ensures OnePass(p, n, workers, env).Returned? ==> OnePass(p, n, workers, env).p.outstanding == {}
  {
  }

  /** Every task ran, and succeeded. */
  ghost predicate AllSucceeded(p: Progress, n: nat) {
    forall t :: 0 <= t < n ==> t in p.ended && p.ended[t].Succeeded?
  }

  /** Some pass found the request cancelled. */
  ghost predicate Disturbed(script: seq<Env>) {
    exists i :: 0 <= i < |script| && script[i].cancelled
  }

  /** A request that returns has nothing out, and returns nil exactly when every task ran and succeeded
      and no pass of its loop found it cancelled. */
  lemma {:induction false} NilExactly(p: Progress, n: nat, workers: nat, script: seq<Env>)
    requires Sound(p, n, workers) && workers > 0 && Possible(p, n, workers, script)
    requires Loop(p, n, workers, script).Some?
    ensures var r := Loop(p, n, workers, script).value;
      r.Returned? && Sound(r.p, n, workers) && r.p.outstanding == {} &&
      (p.first.Some? ==> r.error.Some?) &&
      (p.first.None? ==> (r.error.None? <==> AllSucceeded(r.p, n) && !Disturbed(script)))
    decreases |script|
  {
    var r := Loop(p, n, workers, script).value;
    if Looping(p, n) {
      PassKeeps(p, n, workers, script[0]);
      DisturbedFrom(script);
      var pass := OnePass(p, n, workers, script[0]);
      if pass.Returned? {
        assert script[1..] == [] && !Disturbed(script[1..]);
        if pass.error == Some(Busy) { assert pass.p.next !in pass.p.ended; }
      } else {
        NilExactly(pass.p, n, workers, script[1..]);
        if p.first.None? && !script[0].cancelled && pass.p.first.Some? {
          FailedStays(pass.p, n, workers, script[1..], script[0].task);
          assert r.p.ended[script[0].task].TaskFailed? && script[0].task < n;
        }
      }
    } else {
      assert script == [] && forall t: nat :: t < p.next ==> t in p.outstanding || t in p.ended;
    }
  }

  lemma DisturbedFrom(script: seq<Env>)
    requires |script| > 0
    ensures Disturbed(script) <==> script[0].cancelled || Disturbed(script[1..])
  {
    if Disturbed(script) && !script[0].cancelled {
      var i :| 0 <= i < |script| && script[i].cancelled;
      assert script[1..][i - 1].cancelled;
    }
    if Disturbed(script[1..]) {
      var i :| 0 <= i < |script| - 1 && script[1..][i].cancelled;
      assert script[i + 1].cancelled;
    }
  }

  /** How a task ended is never forgotten. */
  lemma {:induction false} FailedStays(p: Progress, n: nat, workers: nat, script: seq<Env>, t: nat)
    requires Sound(p, n, workers) && Possible(p, n, workers, script) && Loop(p, n, workers, script).Some?
    requires t in p.ended
    ensures var r := Loop(p, n, workers, script).value; t in r.p.ended && r.p.ended[t] == p.ended[t]
    decreases |script|
  {
    if Looping(p, n) {
      PassKeeps(p, n, workers, script[0]);
      var pass := OnePass(p, n, workers, script[0]);
      if pass.Again? { FailedStays(pass.p, n, workers, script[1..], t); }
    }
  }

  // ----- why a request reports an error -----

  /** The error is the first that happened, and nothing is submitted after it: Busy when the pool refused a
      task while nothing of the request was out, Interrupted when a pass found it cancelled, BadTask when a
      task failed. */
  lemma {:induction false} ErrorSaysWhy(p: Progress, n: nat, workers: nat, script: seq<Env>)
    requires Sound(p, n, workers) && workers > 0 && Possible(p, n, workers, script)
    requires Loop(p, n, workers, script).Some?
    ensures var r := Loop(p, n, workers, script).value;
      (p.first.Some? ==> r.error == p.first && r.p.next == p.next) &&
      (p.first.None? && r.error == Some(Busy) ==>
        |script| > 0 && !script[|script| - 1].accepts && r.p.next < n && r.p.outstanding == {}) &&
      (p.first.None? && r.error == Some(Interrupted) ==> Disturbed(script)) &&
      (p.first.None? && r.error == Some(BadTask) ==> exists t :: t in r.p.ended && r.p.ended[t].TaskFailed?)
    decreases |script|
  {
    if Looping(p, n) {
      PassKeeps(p, n, workers, script[0]);
      DisturbedFrom(script);
      var pass := OnePass(p, n, workers, script[0]);
      if pass.Again? {
        ErrorSaysWhy(pass.p, n, workers, script[1..]);
        if p.first.None? && pass.p.first == Some(BadTask) {
          FailedStays(pass.p, n, workers, script[1..], script[0].task);
        }
      }
    }
  }

  /** A request that is not cancelled, and whose tasks the pool takes whenever they are offered, returns nil
      exactly when no task that it ran has failed; and then it has run all of them. */
  lemma UndisturbedOutcome(n: nat, workers: nat, script: seq<Env>)
    requires workers > 0 && Possible(START, n, workers, script) && Loop(START, n, workers, script).Some?
    requires !Disturbed(script) && forall i :: 0 <= i < |script| ==> script[i].accepts
    ensures var r := Loop(START, n, workers, script).value;
      (r.error.None? <==> forall t :: t in r.p.ended ==> r.p.ended[t].Succeeded?) &&
      (r.error.None? ==> forall t: nat :: t in r.p.ended <==> t < n)
  {
    StartIsSound(n, workers);
    NilExactly(START, n, workers, script);
    ErrorSaysWhy(START, n, workers, script);
    var r := Loop(START, n, workers, script).value;
    forall t: nat | t in r.p.ended ensures t < n {
      assert t < r.p.next;
    }
    if r.error.Some? {
      match r.error.value
      case Busy =>
      case Interrupted =>
      case BadTask =>
    } else {
      forall t: nat | t in r.p.ended ensures r.p.ended[t].Succeeded? {
        assert 0 <= t < n;
      }
    }
  }

  /** A pass waits for a report only when it cannot submit: an error is known, every task is submitted, as many
      are out as there are workers, or the pool refuses. Otherwise it submits the next task. */
  lemma WaitsOnlyWhenFull(p: Progress, n: nat, workers: nat, env: Env)
    requires Sound(p, n, workers) && Looping(p, n) && Heard(p, n, workers, env)
    ensures var pass := OnePass(p, n, workers, env);
      if p.first.Some? || env.cancelled || p.next == n || |p.outstanding| == workers || !env.accepts then
        pass.Again? ==>
          pass.p.next == p.next && env.task in p.outstanding && pass.p.outstanding == p.outstanding - {env.task} &&
          pass.p.ended == p.ended[env.task := env.ending]
      else
        pass == Again(p.(next := p.next + 1, outstanding := p.outstanding + {p.next}))
    ensures OnePass(p, n, workers, env).Returned? ==>
      p.outstanding == {} && (p.first.Some? || env.cancelled || !env.accepts || workers == 0)
  {
    if |p.outstanding| < workers && p.outstanding == {} { assert |p.outstanding| == 0; }
  }

  /** The loop's states, pass by pass. */
  function Visited(p: Progress, n: nat, workers: nat, script: seq<Env>): seq<Progress>
    decreases |script|
  {
    if Looping(p, n) && |script| > 0 && OnePass(p, n, workers, script[0]).Again?
    then [p] + Visited(OnePass(p, n, workers, script[0]).p, n, workers, script[1..])
    else [p]
  }

  /** At no moment are more tasks out than there are workers, and no task is out again after it ended. */
  lemma {:induction false} NeverTooMany(p: Progress, n: nat, workers: nat, script: seq<Env>, q: Progress)
    requires Sound(p, n, workers) && Possible(p, n, workers, script) && q in Visited(p, n, workers, script)
    ensures |q.outstanding| <= workers && q.outstanding !! q.ended.Keys
    decreases |script|
  {
    if q != p {
      PassKeeps(p, n, workers, script[0]);
      NeverTooMany(OnePass(p, n, workers, script[0]).p, n, workers, script[1..], q);
    }
  }

  /** Success of every task is not enough for nil: a request that is cancelled while its last task runs
      reports an error although that task succeeds. */
  lemma SuccessIsNotNil()
    ensures var script := [Env(false, true, 0, Succeeded), Env(true, false, 0, Succeeded)];
      Possible(START, 1, 1, script) && Loop(START, 1, 1, script).Some? &&
      var r := Loop(START, 1, 1, script).value;
      r.Returned? && AllSucceeded(r.p, 1) && r.error == Some(Interrupted)
  {
    var first, second := Env(false, true, 0, Succeeded), Env(true, false, 0, Succeeded);
    var script := [first, second];
    var out := Submitted(START);
    assert out.outstanding == {0};
    assert OnePass(START, 1, 1, first) == Again(out);
    var back := Received(Checked(out, true), 0, Succeeded);
    assert OnePass(out, 1, 1, second) == Again(back);
    assert back.outstanding == {};
    assert script[1..] == [second] && [second][1..] == [];
    assert Loop(back, 1, 1, []) == Some(Returned(back, Some(Interrupted)));
    assert Loop(out, 1, 1, [second]) == Loop(back, 1, 1, []);
  }

  lemma StartIsSound(n: nat, workers: nat)
    ensures Sound(START, n, workers)
  {
    assert START.ended.Keys == {};
  }

  /** One pass leads on with the rest of the script. */
  lemma LoopStep(p: Progress, n: nat, workers: nat, script: seq<Env>, pass: nat)
    requires Sound(p, n, workers) && pass <= |script| && Looping(p, n)
    requires Possible(p, n, workers, script[pass..]) && Loop(p, n, workers, script[pass..]).Some?
    ensures pass < |script| && Heard(p, n, workers, script[pass])
    ensures var r, rest := OnePass(p, n, workers, script[pass]), script[pass + 1..];
      if r.Returned? then Loop(p, n, workers, script[pass..]) == Some(r)
      else
        Sound(r.p, n, workers) && 0 <= Measure(r.p, n) < Measure(p, n) && Possible(r.p, n, workers, rest) &&
        Loop(p, n, workers, script[pass..]) == Loop(r.p, n, workers, rest)
  {
    assert script[pass..][1..] == script[pass + 1..];
    PassKeeps(p, n, workers, script[pass]);
  }

  /** The loop of one request, which submits tasks 0 to n-1. The script says what each pass finds. */
  method Passes(n: nat, workers: nat, script: seq<Env>) returns (error: Option<Failure>, ended: map<nat, Ending>)
    requires workers > 0 && Possible(START, n, workers, script) && Loop(START, n, workers, script).Some?
    ensures error == Loop(START, n, workers, script).value.error && ended == Loop(START, n, workers, script).value.p.ended
  {
    var next, pass := 0, 0;
    var outstanding: set<nat> := {};
    var first: Option<Failure> := None;
    ended := map[];
    StartIsSound(n, workers);
    assert script[0..] == script;
    ghost var p := START;
    while next < n || outstanding != {}
      invariant p == Progress(next, outstanding, ended, first) && Sound(p, n, workers) && pass <= |script|
      invariant Possible(p, n, workers, script[pass..])
      invariant Loop(START, n, workers, script) == Loop(p, n, workers, script[pass..])
      decreases Measure(p, n)
    {
      LoopStep(p, n, workers, script, pass);
      var env := script[pass];
      p := OnePass(p, n, workers, env).p;
      pass := pass + 1;
      if first.None? && env.cancelled { first := Some(Interrupted); }
      if first.None? && next < n && |outstanding| < workers {
        if env.accepts {
          outstanding, next := outstanding + {next}, next + 1;
          continue;
        }
        if outstanding == {} { return Some(Busy), ended; }
      }
      if outstanding == {} { return first, ended; }
      if env.ending.TaskFailed? && first.None? { first := Some(BadTask); }
      outstanding, ended := outstanding - {env.task}, ended[env.task := env.ending];
    }
    return first, ended;
  }

  /** The result of a request, with how its tasks ended: nil exactly when every task ran and succeeded and
      no pass found the request cancelled. No other task is ever run. */
  method Run(n: nat, workers: nat, script: seq<Env>) returns (error: Option<Failure>, ended: map<nat, Ending>)
    requires workers > 0 && Possible(START, n, workers, script) && Loop(START, n, workers, script).Some?
    ensures error.None? <==> (forall t :: 0 <= t < n ==> t in ended && ended[t].Succeeded?) && !Disturbed(script)
    ensures forall t :: t in ended ==> t < n
  {
    error, ended := Passes(n, workers, script);
    StartIsSound(n, workers);
    NilExactly(START, n, workers, script);
  }

  // ----- the shared pool -----

  datatype Item = Item(run: nat, task: nat)

  /** A request's loop, with the reports that it has not read yet. */
  datatype Request = Request(n: nat, progress: Progress, reports: seq<(nat, Ending)>)

  /** The pool: its queue, what each worker is doing, and the requests inside `run`. */
  datatype Pool = Pool(closed: bool, open: bool, queue: seq<Item>, busy: map<nat, Item>, requests: map<nat, Request>)

  datatype Step =
    | Enter(r: nat, n: nat) | Submit(r: nat) | Notice(r: nat) | Read(r: nat) | Leave(r: nat)
    | Take(w: nat) | End(w: nat, ending: Ending) | BeginClose | CloseQueue

  predicate Next(workers: nat, capacity: nat, s: Pool, step: Step, v: Pool) {
    match step
    case Enter(r, n) =>
      r !in s.requests &&
      v == if s.closed then s else s.(requests := s.requests[r := Request(n, START, [])])
    case Submit(r) =>
      r in s.requests && |s.queue| < capacity && MaySubmit(s.requests[r].progress, s.requests[r].n, workers) &&
      v == s.(queue := s.queue + [Item(r, s.requests[r].progress.next)],
              requests := s.requests[r := s.requests[r].(progress := Submitted(s.requests[r].progress))])
    case Notice(r) =>
      r in s.requests && v == s.(requests := s.requests[r := s.requests[r].(progress := Checked(s.requests[r].progress, true))])
    case Read(r) =>
      r in s.requests && |s.requests[r].reports| > 0 &&
      var q := s.requests[r];
      v == s.(requests := s.requests[r := Request(q.n, Received(q.progress, q.reports[0].0, q.reports[0].1), q.reports[1..])])
    case Leave(r) =>
      r in s.requests && s.requests[r].progress.outstanding == {} && v == s.(requests := s.requests - {r})
    case Take(w) =>
      w < workers && w !in s.busy && |s.queue| > 0 && v == s.(queue := s.queue[1..], busy := s.busy[w := s.queue[0]])
    case End(w, ending) =>
      w in s.busy &&
      var i := s.busy[w];
      i.run in s.requests &&
      v == s.(busy := s.busy - {w},
              requests := s.requests[i.run := s.requests[i.run].(reports := s.requests[i.run].reports + [(i.task, ending)])])
    case BeginClose => v == s.(closed := true)
    case CloseQueue => s.closed && s.requests == map[] && v == s.(open := false)
  }

  /** A task is out in one place only: queued, with a worker, or reported. */
  ghost predicate PoolSound(workers: nat, s: Pool) {
    (!s.open ==> s.closed && s.requests == map[]) &&
    (forall r :: r in s.requests ==> Sound(s.requests[r].progress, s.requests[r].n, workers)) &&
    (forall k :: 0 <= k < |s.queue| ==> IsOut(s.requests, s.queue[k])) && (forall w :: w in s.busy ==> IsOut(s.requests, s.busy[w])) &&
    Apart(s.queue, s.busy) &&
    forall r :: r in s.requests ==> ReportsSound(s.requests[r], r, s.queue, s.busy)
  }

  /** No item is twice in the queue or with the workers. */
  ghost predicate Apart(queue: seq<Item>, busy: map<nat, Item>) {
    (forall k, l :: 0 <= k < l < |queue| ==> queue[k] != queue[l]) &&
    (forall w, x :: w in busy && x in busy && w != x ==> busy[w] != busy[x]) &&
    forall k, w :: 0 <= k < |queue| && w in busy ==> queue[k] != busy[w]
  }

  lemma ApartSubmit(queue: seq<Item>, busy: map<nat, Item>, item: Item)
    requires Apart(queue, busy) && item !in queue && forall w :: w in busy ==> busy[w] != item
    ensures Apart(queue + [item], busy)
  {
  }

  predicate IsOut(requests: map<nat, Request>, i: Item) {
    i.run in requests && i.task in requests[i.run].progress.outstanding
  }

  /** A report is of a task that is out, and that is neither queued nor with a worker. */
  ghost predicate ReportsSound(q: Request, r: nat, queue: seq<Item>, busy: map<nat, Item>) {
    (forall k :: 0 <= k < |q.reports| ==>
      q.reports[k].0 in q.progress.outstanding &&
      Item(r, q.reports[k].0) !in queue && forall w :: w in busy ==> busy[w] != Item(r, q.reports[k].0)) &&
    forall k, l :: 0 <= k < l < |q.reports| ==> q.reports[k].0 != q.reports[l].0
  }

  lemma StepKeepsPool(workers: nat, capacity: nat, s: Pool, step: Step, v: Pool)
    requires PoolSound(workers, s) && Next(workers, capacity, s, step, v)
    ensures PoolSound(workers, v)
  {
    match step
    case Submit(r) => SubmitKeeps(workers, capacity, s, r, v);
    case Read(r) => ReadKeeps(workers, s, r, v);
    case Take(w) => TakeKeeps(workers, s, w, v);
    case End(w, ending) => EndKeeps(workers, s, w, ending, v);
    case Enter(r, n) => EnterKeeps(workers, s, r, n, v);
    case Notice(r) => NoticeKeeps(workers, s, r, v);
    case Leave(r) => LeaveKeeps(workers, s, r, v);
    case _ =>
  }

  lemma EnterKeeps(workers: nat, s: Pool, r: nat, n: nat, v: Pool)
    requires PoolSound(workers, s) && Next(workers, 0, s, Enter(r, n), v)
    ensures PoolSound(workers, v)
  {
    StartIsSound(n, workers);
    forall x | x in v.requests ensures ReportsSound(v.requests[x], x, v.queue, v.busy) { if x in s.requests { assert ReportsSound(s.requests[x], x, s.queue, s.busy); } }
    forall k | 0 <= k < |v.queue| ensures IsOut(v.requests, v.queue[k]) { assert IsOut(s.requests, s.queue[k]); }
    forall w | w in v.busy ensures IsOut(v.requests, v.busy[w]) { assert IsOut(s.requests, s.busy[w]); }
  }

  lemma NoticeKeeps(workers: nat, s: Pool, r: nat, v: Pool)
    requires PoolSound(workers, s) && Next(workers, 0, s, Notice(r), v)
    ensures PoolSound(workers, v)
  {
    forall x | x in v.requests ensures ReportsSound(v.requests[x], x, v.queue, v.busy) { assert ReportsSound(s.requests[x], x, s.queue, s.busy); }
    forall k | 0 <= k < |v.queue| ensures IsOut(v.requests, v.queue[k]) { assert IsOut(s.requests, s.queue[k]); }
    forall w | w in v.busy ensures IsOut(v.requests, v.busy[w]) { assert IsOut(s.requests, s.busy[w]); }
  }

  lemma LeaveKeeps(workers: nat, s: Pool, r: nat, v: Pool)
    requires PoolSound(workers, s) && Next(workers, 0, s, Leave(r), v)
    ensures PoolSound(workers, v)
  {
    forall x | x in v.requests ensures ReportsSound(v.requests[x], x, v.queue, v.busy) { assert ReportsSound(s.requests[x], x, s.queue, s.busy); }
    forall k | 0 <= k < |v.queue| ensures IsOut(v.requests, v.queue[k]) { assert IsOut(s.requests, s.queue[k]); }
    forall w | w in v.busy ensures IsOut(v.requests, v.busy[w]) { assert IsOut(s.requests, s.busy[w]); }
  }

  lemma SubmittedIsSound(p: Progress, n: nat, workers: nat)
    requires Sound(p, n, workers) && MaySubmit(p, n, workers)
    ensures Sound(Submitted(p), n, workers) && p.next !in p.outstanding
  {
  }

  /** A new item is no report's. */
  lemma SubmitKeepsReports(q: Request, r: nat, queue: seq<Item>, busy: map<nat, Item>, p: Progress, item: Item)
    requires ReportsSound(q, r, queue, busy) && p.outstanding >= q.progress.outstanding
    requires item.run != r || item.task !in q.progress.outstanding
    ensures ReportsSound(q.(progress := p), r, queue + [item], busy)
  {
  }

  lemma SubmitKeeps(workers: nat, capacity: nat, s: Pool, r: nat, v: Pool)
    requires PoolSound(workers, s) && Next(workers, capacity, s, Submit(r), v)
    ensures PoolSound(workers, v)
  {
    var p := s.requests[r].progress;
    var item := Item(r, p.next);
    SubmittedIsSound(p, s.requests[r].n, workers);
    forall k | 0 <= k < |s.queue| ensures IsOut(v.requests, s.queue[k]) && s.queue[k] != item { assert IsOut(s.requests, s.queue[k]); }
    forall w | w in s.busy ensures IsOut(v.requests, s.busy[w]) && s.busy[w] != item { assert IsOut(s.requests, s.busy[w]); }
    ApartSubmit(s.queue, s.busy, item);
    forall x | x in v.requests ensures ReportsSound(v.requests[x], x, v.queue, v.busy) {
      SubmitKeepsReports(s.requests[x], x, s.queue, s.busy, v.requests[x].progress, item);
      assert s.requests[x].(progress := v.requests[x].progress) == v.requests[x];
    }
  }

  lemma ReadKeeps(workers: nat, s: Pool, r: nat, v: Pool)
    requires PoolSound(workers, s) && Next(workers, 0, s, Read(r), v)
    ensures PoolSound(workers, v)
  {
    var reports := s.requests[r].reports;
    assert ReportsSound(s.requests[r], r, s.queue, s.busy);
    assert reports[0].0 in s.requests[r].progress.outstanding;
    forall k | 0 <= k < |v.queue| ensures IsOut(v.requests, v.queue[k]) { assert IsOut(s.requests, s.queue[k]) && s.queue[k] in s.queue; }
    forall w | w in v.busy ensures IsOut(v.requests, v.busy[w]) { assert IsOut(s.requests, s.busy[w]); }
    forall x | x in v.requests ensures ReportsSound(v.requests[x], x, v.queue, v.busy) {
      assert ReportsSound(s.requests[x], x, s.queue, s.busy);
      if x == r { ReadKeepsReports(s.requests[r], r, s.queue, s.busy); }
    }
  }

  /** The report that has been read is of a task that is then out no more. */
  lemma ReadKeepsReports(q: Request, r: nat, queue: seq<Item>, busy: map<nat, Item>)
    requires ReportsSound(q, r, queue, busy) && |q.reports| > 0
    ensures ReportsSound(
      Request(q.n, Received(q.progress, q.reports[0].0, q.reports[0].1), q.reports[1..]), r, queue, busy)
  {
  }

  lemma TakeKeepsReports(q: Request, r: nat, queue: seq<Item>, busy: map<nat, Item>, w: nat)
    requires ReportsSound(q, r, queue, busy) && |queue| > 0
    ensures ReportsSound(q, r, queue[1..], busy[w := queue[0]])
  {
    assert queue[0] in queue;
  }

  lemma ApartTake(queue: seq<Item>, busy: map<nat, Item>, w: nat)
    requires Apart(queue, busy) && |queue| > 0 && w !in busy
    ensures Apart(queue[1..], busy[w := queue[0]])
  {
  }

  lemma TakeKeeps(workers: nat, s: Pool, w: nat, v: Pool)
    requires PoolSound(workers, s) && Next(workers, 0, s, Take(w), v)
    ensures PoolSound(workers, v)
  {
    ApartTake(s.queue, s.busy, w);
    forall x | x in v.requests ensures ReportsSound(v.requests[x], x, v.queue, v.busy) {
      TakeKeepsReports(s.requests[x], x, s.queue, s.busy, w);
    }
  }

  lemma EndKeepsReports(q: Request, r: nat, queue: seq<Item>, busy: map<nat, Item>, w: nat, ending: Ending)
    requires ReportsSound(q, r, queue, busy) && w in busy && Apart(queue, busy)
    ensures ReportsSound(q, r, queue, busy - {w})
    ensures busy[w].run == r && busy[w].task in q.progress.outstanding ==>
      ReportsSound(q.(reports := q.reports + [(busy[w].task, ending)]), r, queue, busy - {w})
  {
    assert busy[w] !in queue;
  }

  lemma EndKeeps(workers: nat, s: Pool, w: nat, ending: Ending, v: Pool)
    requires PoolSound(workers, s) && Next(workers, 0, s, End(w, ending), v)
    ensures PoolSound(workers, v)
  {
    var i := s.busy[w];
    assert IsOut(s.requests, i);
    forall k | 0 <= k < |v.queue| ensures IsOut(v.requests, v.queue[k]) { assert IsOut(s.requests, s.queue[k]); }
    forall x | x in v.busy ensures IsOut(v.requests, v.busy[x]) { assert IsOut(s.requests, s.busy[x]); }
    forall x | x in v.requests ensures ReportsSound(v.requests[x], x, v.queue, v.busy) {
      EndKeepsReports(s.requests[x], x, s.queue, s.busy, w, ending);
    }
  }

  const IDLE := Pool(false, true, [], map[], map[])

  ghost predicate Steps(workers: nat, capacity: nat, run: seq<Pool>, steps: seq<Step>, i: nat)
    requires |run| == |steps| + 1 && i < |steps|
  {
    Next(workers, capacity, run[i], steps[i], run[i + 1])
  }

  ghost predicate IsRun(workers: nat, capacity: nat, run: seq<Pool>, steps: seq<Step>) {
    |run| == |steps| + 1 && run[0] == IDLE && forall i: nat :: i < |steps| ==> Steps(workers, capacity, run, steps, i)
  }

  lemma {:induction false} PoolStaysSound(workers: nat, capacity: nat, run: seq<Pool>, steps: seq<Step>, i: nat)
    requires IsRun(workers, capacity, run, steps) && i < |run|
    ensures PoolSound(workers, run[i])
    decreases i
  {
    if i > 0 {
      PoolStaysSound(workers, capacity, run, steps, i - 1);
      assert Steps(workers, capacity, run, steps, i - 1);
      StepKeepsPool(workers, capacity, run[i - 1], steps[i - 1], run[i]);
    }
  }

  /** Closing never makes a request send on the closed queue. */
  lemma SendsOnlyOnOpenQueue(workers: nat, capacity: nat, run: seq<Pool>, steps: seq<Step>, i: nat)
    requires IsRun(workers, capacity, run, steps) && i < |steps| && steps[i].Submit?
    ensures run[i].open
  {
    PoolStaysSound(workers, capacity, run, steps, i);
    assert Steps(workers, capacity, run, steps, i);
  }

  /** When a request has left, no worker and no queue entry holds a task of it: a retry cannot race it. */
  lemma LeavesNothingBehind(workers: nat, capacity: nat, run: seq<Pool>, steps: seq<Step>, i: nat, r: nat)
    requires IsRun(workers, capacity, run, steps) && i < |run| && r !in run[i].requests
    ensures forall k :: 0 <= k < |run[i].queue| ==> run[i].queue[k].run != r
    ensures forall w :: w in run[i].busy ==> run[i].busy[w].run != r
  {
    PoolStaysSound(workers, capacity, run, steps, i);
    assert forall k :: 0 <= k < |run[i].queue| ==> IsOut(run[i].requests, run[i].queue[k]);
  }

  /** A worker's report never waits: a request has at most as many unread reports as there are workers,
      which is what its channel holds, and its request is always there to read it. */
  lemma ReportsNeverBlock(workers: nat, capacity: nat, run: seq<Pool>, steps: seq<Step>, i: nat, w: nat)
    requires IsRun(workers, capacity, run, steps) && i < |run| && w in run[i].busy
    ensures run[i].busy[w].run in run[i].requests
    ensures |run[i].requests[run[i].busy[w].run].reports| < workers
  {
    PoolStaysSound(workers, capacity, run, steps, i);
    var s := run[i];
    var item := s.busy[w];
    assert IsOut(s.requests, item) && ReportsSound(s.requests[item.run], item.run, s.queue, s.busy);
    var q := s.requests[item.run];
    ReportedTasks(q.reports, q.progress.outstanding - {item.task});
  }

  /** Distinct members of a set are at most as many as the set has. */
  lemma {:induction false} ReportedTasks(reports: seq<(nat, Ending)>, tasks: set<nat>)
    requires forall k :: 0 <= k < |reports| ==> reports[k].0 in tasks
    requires forall k, l :: 0 <= k < l < |reports| ==> reports[k].0 != reports[l].0
    ensures |reports| <= |tasks|
    decreases |reports|
  {
    if |reports| > 0 {
      var n := |reports| - 1;
      ReportedTasks(reports[..n], tasks - {reports[n].0});
    }
  }

  /** The pool itself: admission and closing share a lock, and closing waits for the admitted requests. */
  class SigningPool {
    const workers: nat
    const capacity: nat
    var closed: bool
    var open: bool
    var queue: seq<Item>
    var busy: map<nat, Item>
    var requests: map<nat, Request>

    ghost function View(): Pool
      reads this
    {
      Pool(closed, open, queue, busy, requests)
    }

    constructor (workers: nat, capacity: nat)
      ensures View() == IDLE && this.workers == workers && this.capacity == capacity
    {
      this.workers, this.capacity := workers, capacity;
      closed, open, queue, busy, requests := false, true, [], map[], map[];
    }

    method Enter(r: nat, n: nat) returns (ok: bool)
      requires r !in requests
      modifies this`requests
      ensures Next(workers, capacity, old(View()), Step.Enter(r, n), View())
      ensures ok <==> !closed
      ensures requests == if ok then old(requests)[r := Request(n, START, [])] else old(requests)
    {
      if closed { return false; }
      requests := requests[r := Request(n, START, [])];
      return true;
    }

    /** A send that does not wait: it fails when the queue is full. */
    method TrySubmit(r: nat) returns (ok: bool)
      requires r in requests && MaySubmit(requests[r].progress, requests[r].n, workers) && PoolSound(workers, View())
      modifies this`requests, this`queue
      ensures open && (ok <==> |old(queue)| < capacity)
      ensures if ok then Next(workers, capacity, old(View()), Submit(r), View()) else View() == old(View())
      ensures ok ==>
        var p := old(requests)[r].progress;
        queue == old(queue) + [Item(r, p.next)] && r in requests && requests[r].progress.next == p.next + 1 &&
        requests[r].progress.outstanding == p.outstanding + {p.next}
    {
      if |queue| >= capacity { return false; }
      var q := requests[r];
      queue := queue + [Item(r, q.progress.next)];
      requests := requests[r := q.(progress := Submitted(q.progress))];
      return true;
    }

    method Leave(r: nat)
      requires r in requests && requests[r].progress.outstanding == {}
      modifies this`requests
      ensures Next(workers, capacity, old(View()), Step.Leave(r), View()) && requests == old(requests) - {r}
    {
      requests := requests - {r};
    }

    /** A worker takes the next task, and reports how it ended. */
    method Take(w: nat)
      requires w < workers && w !in busy && |queue| > 0
      modifies this`queue, this`busy
      ensures Next(workers, capacity, old(View()), Step.Take(w), View())
      ensures old(queue) == [busy[w]] + queue && busy == old(busy)[w := old(queue)[0]]
    {
      busy := busy[w := queue[0]];
      queue := queue[1..];
    }

    method Report(w: nat, ending: Ending)
      requires w in busy && busy[w].run in requests
      modifies this`busy, this`requests
      ensures Next(workers, capacity, old(View()), End(w, ending), View())
      ensures var i := old(busy)[w];
        busy == old(busy) - {w} && i.run in requests && requests.Keys == old(requests).Keys &&
        requests[i.run].reports == old(requests)[i.run].reports + [(i.task, ending)]
    {
      var i := busy[w];
      var q := requests[i.run];
      requests := requests[i.run := q.(reports := q.reports + [(i.task, ending)])];
      busy := busy - {w};
    }

    method BeginClose()
      modifies this`closed
      ensures Next(workers, capacity, old(View()), Step.BeginClose, View()) && closed
    {
      closed := true;
    }

    /** Runs once every admitted request has left. */
    method CloseQueue()
      requires closed && requests == map[]
      modifies this`open
      ensures Next(workers, capacity, old(View()), Step.CloseQueue, View()) && !open
    {
      open := false;
    }
  }
}
