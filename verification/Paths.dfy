/** Uninterrupted statement sequences of one process: the bridge from the classes `Store`,
    `ToolRegistry`, `Engine` and `Scheduler` to the transition system. Each method proves that what
    it did is such a sequence; each sequence is a piece of an execution. */
module Paths {
  import opened Basics
  import opened JsonValues
  import opened Tables
  import opened Protocol
  import opened Growth

  /** `b` is `n` statements of `p` after `a`. */
  ghost predicate LeadsIn(s: Settings, p: string, a: Result, b: Result, n: nat)
    decreases n
  {
    hide Next;
    if n == 0 then a == b
    else !a.pc.Idle? && exists i: Input :: LeadsIn(s, p, Next(s, p, a.pc, a.db, a.hist, i), b, n - 1)
  }

  ghost predicate Leads(s: Settings, p: string, a: Result, b: Result) {
    exists n: nat :: LeadsIn(s, p, a, b, n)
  }

  lemma Stay(s: Settings, p: string, a: Result)
    ensures Leads(s, p, a, a)
  {
    assert LeadsIn(s, p, a, a, 0);
  }

  /** One statement. */
  lemma One(s: Settings, p: string, a: Result, i: Input)
    requires !a.pc.Idle?
    ensures Leads(s, p, a, Next(s, p, a.pc, a.db, a.hist, i))
  {
    hide Next;
    var b := Next(s, p, a.pc, a.db, a.hist, i);
    assert LeadsIn(s, p, b, b, 0);
    assert LeadsIn(s, p, a, b, 1);
  }

  lemma {:induction false} ThenIn(s: Settings, p: string, a: Result, b: Result, c: Result, n: nat, m: nat)
    requires LeadsIn(s, p, a, b, n) && LeadsIn(s, p, b, c, m)
    ensures LeadsIn(s, p, a, c, n + m)
    decreases n
  {
    hide Next;
    if n > 0 {
      var i: Input :| LeadsIn(s, p, Next(s, p, a.pc, a.db, a.hist, i), b, n - 1);
      ThenIn(s, p, Next(s, p, a.pc, a.db, a.hist, i), b, c, n - 1, m);
      assert LeadsIn(s, p, Next(s, p, a.pc, a.db, a.hist, i), c, n + m - 1);
    }
  }

  lemma Then(s: Settings, p: string, a: Result, b: Result, c: Result)
    requires Leads(s, p, a, b) && Leads(s, p, b, c)
    ensures Leads(s, p, a, c)
  {
    hide LeadsIn;
    var n: nat :| LeadsIn(s, p, a, b, n);
    var m: nat :| LeadsIn(s, p, b, c, m);
    ThenIn(s, p, a, b, c, n, m);
  }

  /** The configuration in which `p` is at `r` and the other processes as in `procs`. */
  function At(procs: map<string, PC>, p: string, r: Result): Config {
    Config(r.db, procs[p := r.pc], r.hist)
  }

  ghost predicate Steps(s: Settings, trace: seq<Config>) {
    hide Step;
    trace != [] && forall n | 0 <= n < |trace| - 1 :: Step(s, trace[n], trace[n + 1])
  }

  ghost predicate Reaches(s: Settings, c: Config, c': Config) {
    exists trace :: Steps(s, trace) && trace[0] == c && trace[|trace| - 1] == c'
  }

  lemma WorkIsStep(s: Settings, procs: map<string, PC>, p: string, a: Result, i: Input)
    requires !a.pc.Idle?
    ensures Step(s, At(procs, p, a), At(procs, p, Next(s, p, a.pc, a.db, a.hist, i)))
  {
    hide Next;
    var c := At(procs, p, a);
    assert Pc(c, p) == a.pc;
    assert procs[p := a.pc][p := Next(s, p, a.pc, a.db, a.hist, i).pc] == procs[p := Next(s, p, a.pc, a.db, a.hist, i).pc];
    assert Enabled(c, Work(p), i);
    assert At(procs, p, Next(s, p, a.pc, a.db, a.hist, i)) == Apply(s, c, Work(p), i);
  }

  lemma {:induction false} LeadsInSteps(s: Settings, procs: map<string, PC>, p: string, a: Result, b: Result, n: nat)
    returns (trace: seq<Config>)
    requires LeadsIn(s, p, a, b, n)
    ensures Steps(s, trace) && trace[0] == At(procs, p, a) && trace[|trace| - 1] == At(procs, p, b)
    decreases n
  {
    hide Next, Step;
    if n == 0 {
      trace := [At(procs, p, a)];
    } else {
      var i: Input :| LeadsIn(s, p, Next(s, p, a.pc, a.db, a.hist, i), b, n - 1);
      var rest := LeadsInSteps(s, procs, p, Next(s, p, a.pc, a.db, a.hist, i), b, n - 1);
      WorkIsStep(s, procs, p, a, i);
      trace := [At(procs, p, a)] + rest;
    }
  }

  /** What a method did is a piece of an execution of the whole system, whatever the others are at. */
  lemma LeadsReaches(s: Settings, procs: map<string, PC>, p: string, a: Result, b: Result)
    requires Leads(s, p, a, b)
    ensures Reaches(s, At(procs, p, a), At(procs, p, b))
  {
    hide LeadsIn, Step;
    var n: nat :| LeadsIn(s, p, a, b, n);
    var trace := LeadsInSteps(s, procs, p, a, b, n);
  }

  lemma ReachesOn(s: Settings, c: Config, c': Config, c'': Config)
    requires Step(s, c, c') && Reaches(s, c', c'')
    ensures Reaches(s, c, c'')
  {
    hide Step;
    var rest :| Steps(s, rest) && rest[0] == c' && rest[|rest| - 1] == c'';
    var trace := [c] + rest;
    assert Steps(s, trace);
  }

  /** An execution goes on with it. */
  lemma ReachesExecution(s: Settings, before: seq<Config>, c': Config)
    requires Execution(s, before) && Reaches(s, before[|before| - 1], c')
    ensures exists trace :: Execution(s, trace) && before <= trace && trace[|trace| - 1] == c'
  {
    hide Step;
    var piece :| Steps(s, piece) && piece[0] == before[|before| - 1] && piece[|piece| - 1] == c';
    var trace := before + piece[1..];
    forall n | 0 <= n < |trace| - 1
      ensures Step(s, trace[n], trace[n + 1])
    {
      if n + 1 < |before| {
        assert Step(s, before[n], before[n + 1]);
      } else {
        var k := n + 1 - |before|;
        assert trace[n] == piece[k] && trace[n + 1] == piece[k + 1];
        assert Step(s, piece[k], piece[k + 1]);
      }
    }
    assert Execution(s, trace);
  }
  lemma OneStepMore(s: Settings, trace: seq<Config>, c: Config)
    requires Execution(s, trace) && Step(s, trace[|trace| - 1], c)
    ensures Execution(s, trace + [c])
  {
    hide Step;
    var more := trace + [c];
    forall n | 0 <= n < |more| - 1
      ensures Step(s, more[n], more[n + 1])
    {
      if n + 1 < |trace| {
        assert Step(s, trace[n], trace[n + 1]);
      }
    }
  }

  /** An execution that ends in a given configuration. */
  ghost predicate ExecutionTo(s: Settings, trace: seq<Config>, c: Config) {
    Execution(s, trace) && trace[|trace| - 1] == c
  }

  ghost predicate Reachable(s: Settings, c: Config) {
    hide Execution;
    exists trace :: ExecutionTo(s, trace, c)
  }

  lemma ReachableStep(s: Settings, c: Config, c': Config)
    requires Reachable(s, c) && Step(s, c, c')
    ensures Reachable(s, c')
  {
    hide Step;
    var trace :| ExecutionTo(s, trace, c);
    OneStepMore(s, trace, c');
    assert ExecutionTo(s, trace + [c'], c');
  }

  lemma ReachableReaches(s: Settings, c: Config, c': Config)
    requires Reachable(s, c) && Reaches(s, c, c')
    ensures Reachable(s, c')
  {
    hide Step, Reaches;
    var trace :| ExecutionTo(s, trace, c);
    ReachesExecution(s, trace, c');
    var more :| Execution(s, more) && trace <= more && more[|more| - 1] == c';
    assert ExecutionTo(s, more, c');
  }

  lemma InitialReachable(s: Settings)
    ensures Reachable(s, INITIAL_CONFIG)
  {
    hide Step;
    assert ExecutionTo(s, [INITIAL_CONFIG], INITIAL_CONFIG);
  }
}
