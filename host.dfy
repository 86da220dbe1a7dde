/** The machine the pipeline runs on, as far as the pipeline can observe it:
  * which files exist, what the processing markers (small text files written
  * on success) contain, and the external graph-processing tool (SNAP's
  * `gpt`), whose exit code for each invocation is an oracle. Products are
  * BEAM-DIMAP pairs: a header `<prefix>.dim` and a directory `<prefix>.data`. */
module Host {
  import opened Errors
  import opened Strings

  /** One `-P<name>=<value>` parameter of a tool invocation. */
  datatype Param = Param(name: string, value: string)

  /** One invocation of the external tool: a processing graph or operator,
    * the parallelism passed with `-q`, its parameters, the product written
    * with `-t` (empty when the graph names its output in a parameter) and
    * the source products. Shell quoting is not modelled. */
  datatype Command = Command(op: string, threads: int, params: seq<Param>, target: string, sources: seq<string>)

  /** The external tool's behaviour: the exit code of a command run as the
    * n-th tool invocation of the session, and whether that run leaves its
    * product on disk (complete or partly written; a run that exits with 0
    * may still write nothing, as for a subset outside the scene). */
  datatype Tool = Tool(exit: (Command, nat) -> int, writes: (Command, nat) -> bool)

  function Dim(prefix: string): string { prefix + ".dim" }
  function Data(prefix: string): string { prefix + ".data" }

  /** The two paths of a BEAM-DIMAP product. */
  function Product(prefix: string): set<string> { {Dim(prefix), Data(prefix)} }

  /** `cmd` repeated `k` times. */
  function Repeat(cmd: Command, k: nat): (r: seq<Command>)
    ensures |r| == k && forall i :: 0 <= i < k ==> r[i] == cmd
  {
    if k == 0 then [] else [cmd] + Repeat(cmd, k - 1)
  }

  /** How many runs the retry decorator (`@retry(tries=n)`) makes of a
    * command that raises on every non-zero exit: up to the first success,
    * and at most `tries`. */
  function Attempts(t: Tool, cmd: Command, start: nat, tries: nat): (k: nat)
    requires tries >= 1
    ensures 1 <= k <= tries
    ensures forall j :: start <= j < start + k - 1 ==> t.exit(cmd, j) != 0
    ensures k < tries ==> t.exit(cmd, start + k - 1) == 0
    decreases tries
  {
    if tries == 1 || t.exit(cmd, start) == 0 then 1
    else
      1 + Attempts(t, cmd, start + 1, tries - 1)
  }

  /** Some run among the `k` from `start` wrote (all or part of) its product. */
  predicate LeftOutput(t: Tool, cmd: Command, start: nat, k: nat)
  {
    exists i :: start <= i < start + k && t.writes(cmd, i)
  }

  /** How a tool wrapper reacts to a non-zero exit code: it returns the code,
    * or raises GptRuntimeError / RuntimeError; `tries` is the retry
    * decorator's bound (1 for an undecorated wrapper). */
  datatype OnFailure = ReturnsCode | RaisesGpt | RaisesRuntime
  datatype Policy = Policy(tries: nat, onFailure: OnFailure)

  /** How many times a wrapper runs its command: the decorator only
    * re-runs a wrapper that raised. */
  function Runs(t: Tool, cmd: Command, start: nat, p: Policy): (k: nat)
    requires p.tries >= 1
    ensures 1 <= k <= p.tries
  {
    if p.onFailure == ReturnsCode then 1 else Attempts(t, cmd, start, p.tries)
  }

  /** The wrapper's result for the exit code of its last run. */
  function Outcome(p: Policy, code: int): (r: Result<int>)
    ensures r.Failure? <==> code != 0 && p.onFailure != ReturnsCode
    ensures r.Success? ==> r.value == code
  {
    if code == 0 || p.onFailure == ReturnsCode then Success(code)
    else if p.onFailure == RaisesGpt then Failure(GptRuntimeError(code))
    else Failure(RuntimeError)
  }

  /** The result of running a wrapper from the `start`-th tool invocation on. */
  function StageResult(t: Tool, cmd: Command, start: nat, p: Policy): Result<int>
    requires p.tries >= 1
  {
    Outcome(p, t.exit(cmd, start + Runs(t, cmd, start, p) - 1))
  }

  /** A raising wrapper fails exactly when every one of its `tries` runs
    * failed; a code-returning wrapper never raises and runs once. */
  lemma {:induction false} StageFailsOnlyAfterAllTries(t: Tool, cmd: Command, start: nat, p: Policy)
    requires p.tries >= 1
    ensures p.onFailure == ReturnsCode ==> StageResult(t, cmd, start, p).Success? && Runs(t, cmd, start, p) == 1
    ensures p.onFailure != ReturnsCode ==>
      (StageResult(t, cmd, start, p).Failure?
       <==> Runs(t, cmd, start, p) == p.tries && forall j :: start <= j < start + p.tries ==> t.exit(cmd, j) != 0)
  {
    if p.onFailure != ReturnsCode {
      var k := Attempts(t, cmd, start, p.tries);
      if StageResult(t, cmd, start, p).Failure? {
        assert t.exit(cmd, start + k - 1) != 0;
        assert k == p.tries;
        forall j | start <= j < start + p.tries ensures t.exit(cmd, j) != 0 {
          if j < start + k - 1 {
          } else {
            assert j == start + k - 1;
          }
        }
      } else if k == p.tries {
        assert t.exit(cmd, start + k - 1) == 0;
      }
    }
  }

  /** A wrapper call: the command, the product it writes, and its policy. */
  datatype Invocation = Invocation(cmd: Command, out: string, policy: Policy)

  predicate HasParam(c: Command, name: string, value: string)
  {
    Param(name, value) in c.params
  }

  /** `os.path.join(dir, name)` for a relative `name`. */
  function PathJoin(dir: string, name: string): string { dir + "/" + name }

  /** Python's `glob(dir/<pre>*<suf>)`: an existing path directly inside
    * `dir` whose name starts with `pre` and ends with `suf` (the two not
    * overlapping); a leading wildcard does not match hidden names. */
  predicate GlobMatch(p: string, dir: string, pre: string, suf: string)
  {
    StartsWith(p, dir + "/")
    && var name := p[|dir| + 1..];
    '/' !in name && |name| >= |pre| + |suf| && |name| > 0
    && StartsWith(name, pre) && EndsWith(name, suf)
    && (pre == [] ==> name[0] != '.')
  }

  function Glob(paths: set<string>, dir: string, pre: string, suf: string): (r: set<string>)
    ensures r <= paths
    ensures forall p :: p in r <==> p in paths && GlobMatch(p, dir, pre, suf)
  {
    set p | p in paths && GlobMatch(p, dir, pre, suf)
  }

  /** The name a glob match has below its directory is its base name. */
  lemma GlobName(p: string, dir: string, pre: string, suf: string)
    requires GlobMatch(p, dir, pre, suf)
    ensures LastField(p, '/') == p[|dir| + 1..]
  {
    var name := p[|dir| + 1..];
    assert p == dir + "/" + name;
    SplitConcat(dir, '/', name);
    assert Find(name, '/') == |name|;
  }

  /** The directory `dir/<d>/sub` a path below `dir` would lie in. */
  function SubDir(p: string, dir: string, sub: string): string
    requires StartsWith(p, dir + "/")
  {
    dir + "/" + Split(p[|dir| + 1..], '/')[0] + "/" + sub
  }

  /** Python's glob with a wildcard directory level (`dir`, any directory,
    * `sub`, then `<pre>*<suf>`): an existing path in the sub-directory `sub`
    * of some non-hidden directory inside `dir`. */
  predicate SubGlobMatch(p: string, dir: string, sub: string, pre: string, suf: string)
  {
    StartsWith(p, dir + "/")
    && var d := Split(p[|dir| + 1..], '/')[0];
    |d| > 0 && d[0] != '.' && GlobMatch(p, SubDir(p, dir, sub), pre, suf)
  }

  function SubGlob(paths: set<string>, dir: string, sub: string, pre: string, suf: string): (r: set<string>)
    ensures r <= paths
    ensures forall p :: p in r <==> p in paths && SubGlobMatch(p, dir, sub, pre, suf)
  {
    set p | p in paths && SubGlobMatch(p, dir, sub, pre, suf)
  }

  /** The base name of a match of either glob starts with `pre` and ends
    * with `suf`, the two not overlapping. */
  lemma MatchName(p: string, dir: string, sub: string, pre: string, suf: string)
    requires GlobMatch(p, dir, pre, suf) || SubGlobMatch(p, dir, sub, pre, suf)
    ensures var name := LastField(p, '/');
      StartsWith(name, pre) && EndsWith(name, suf) && |name| >= |pre| + |suf|
  {
    if GlobMatch(p, dir, pre, suf) {
      GlobName(p, dir, pre, suf);
    } else {
      GlobName(p, SubDir(p, dir, sub), pre, suf);
    }
  }

  /** The order of stages `done` after one more stage running `op`: a
    * stage retried, or run again straight after itself, counts once. */
  function Logged(done: seq<string>, op: string): (r: seq<string>)
    ensures |r| > 0 && r[|r| - 1] == op
  {
    if |done| > 0 && done[|done| - 1] == op then done else done + [op]
  }

  /** The order in which distinct stages ran among the invocations `calls`
    * from position `start` on. */
  function Order(calls: seq<Command>, start: nat): seq<string>
  {
    if |calls| <= start then [] else Logged(Order(calls[..|calls| - 1], start), calls[|calls| - 1].op)
  }

  /** The order of stages after further stages running `ops`, one after
    * another. */
  function LoggedAll(done: seq<string>, ops: seq<string>): seq<string>
  {
    if |ops| == 0 then done else Logged(LoggedAll(done, ops[..|ops| - 1]), ops[|ops| - 1])
  }

  lemma LoggedAllSnoc(done: seq<string>, ops: seq<string>, op: string)
    ensures LoggedAll(done, ops + [op]) == Logged(LoggedAll(done, ops), op)
  {
    assert (ops + [op])[..|ops|] == ops;
  }

  /** Running `a` and then `b` is running `a + b`. */
  lemma {:induction false} LoggedAllConcat(done: seq<string>, a: seq<string>, b: seq<string>)
    ensures LoggedAll(done, a + b) == LoggedAll(LoggedAll(done, a), b)
    decreases |b|
  {
    if |b| == 0 {
      assert a + b == a;
    } else {
      var b0, x := b[..|b| - 1], b[|b| - 1];
      assert b == b0 + [x];
      assert a + b == (a + b0) + [x];
      LoggedAllSnoc(done, a + b0, x);
      LoggedAllConcat(done, a, b0);
    }
  }

  /** Further stages only extend the order of stages. */
  lemma {:induction false} LoggedAllGrows(done: seq<string>, ops: seq<string>)
    ensures IsPrefix(done, LoggedAll(done, ops))
    decreases |ops|
  {
    if |ops| > 0 {
      LoggedAllGrows(done, ops[..|ops| - 1]);
      var d := LoggedAll(done, ops[..|ops| - 1]);
      assert Logged(d, ops[|ops| - 1])[..|d|] == d;
      assert d[..|done|] == done;
    }
  }

  /** The stages run so far, `a`, of a plan `a + b` leave an order that
    * the whole plan extends. */
  lemma PlanPrefix(done: seq<string>, a: seq<string>, b: seq<string>)
    ensures IsPrefix(done, LoggedAll(done, a)) && IsPrefix(LoggedAll(done, a), LoggedAll(done, a + b))
  {
    LoggedAllGrows(done, a);
    LoggedAllConcat(done, a, b);
    LoggedAllGrows(LoggedAll(done, a), b);
  }

  /** A tool appears in the order of stages exactly when it appeared before
    * or is among the stages run. */
  lemma {:induction false} LoggedAllMembers(done: seq<string>, ops: seq<string>, op: string)
    ensures op in LoggedAll(done, ops) <==> op in done || op in ops
    decreases |ops|
  {
    if |ops| > 0 {
      var front := ops[..|ops| - 1];
      LoggedAllMembers(done, front, op);
      assert ops == front + [ops[|ops| - 1]];
      var d := LoggedAll(done, front);
      if |d| > 0 && d[|d| - 1] == ops[|ops| - 1] {
        assert ops[|ops| - 1] in d;
      }
    }
  }

  lemma RepeatSnoc(c: Command, k: nat)
    ensures Repeat(c, k + 1) == Repeat(c, k) + [c]
  {
    var a, b := Repeat(c, k + 1), Repeat(c, k) + [c];
    assert |a| == |b|;
    forall i | 0 <= i < |a| ensures a[i] == b[i] {
    }
  }

  /** Appending one stage's runs (one command, retried `k - 1` times) to a
    * log adds that stage once to the order of stages since `start`, unless
    * the stage before ran the same tool. */
  lemma {:induction false} LogStep(log: seq<Command>, start: nat, c: Command, k: nat)
    requires k >= 1 && start <= |log|
    ensures Order(log + Repeat(c, k), start) == Logged(Order(log, start), c.op)
    decreases k
  {
    var u := log + Repeat(c, k - 1);
    assert log + Repeat(c, k) == u + [c] by {
      RepeatSnoc(c, k - 1);
    }
    assert (u + [c])[..|u|] == u;
    if k == 1 {
      assert u == log;
    } else {
      LogStep(log, start, c, k - 1);
    }
  }

  /** A tool wrapper run through `Machine.Stage`, with the order of stages
    * since `start` kept up to date. */
  method StageLogged(m: Machine, w: Invocation, ghost start: nat) returns (r: Result<int>)
    requires m.Valid() && w.policy.tries >= 1 && start <= |m.calls|
    modifies m
    ensures m.Valid() && m.markers == old(m.markers)
    ensures var k := Runs(m.tool, w.cmd, |old(m.calls)|, w.policy);
      m.calls == old(m.calls) + Repeat(w.cmd, k)
      && m.paths == old(m.paths) + (if LeftOutput(m.tool, w.cmd, |old(m.calls)|, k) then Product(w.out) else {})
    ensures r == StageResult(m.tool, w.cmd, |old(m.calls)|, w.policy)
    ensures r.Failure? ==> w.policy.onFailure != ReturnsCode
    ensures r.Failure? && w.policy.onFailure == RaisesGpt ==> r.error.GptRuntimeError?
    ensures r.Failure? && w.policy.onFailure == RaisesRuntime ==> r.error == RuntimeError
    ensures Order(m.calls, start) == Logged(Order(old(m.calls), start), w.cmd.op)
  {
    ghost var before := m.calls;
    r := m.Stage(w.cmd, w.out, w.policy);
    LogStep(before, start, w.cmd, Runs(m.tool, w.cmd, |before|, w.policy));
  }

  /** `StageLogged` seen only through the order of stages and the kind of
    * error: for callers that state nothing about the outputs. */
  method StageInOrder(m: Machine, w: Invocation, ghost start: nat) returns (r: Result<int>)
    requires m.Valid() && w.policy.tries >= 1 && start <= |m.calls|
    modifies m
    ensures m.Valid() && m.markers == old(m.markers)
    ensures |m.calls| >= |old(m.calls)|
    ensures old(m.paths) <= m.paths <= old(m.paths) + Product(w.out)
    ensures r.Success? && w.policy.onFailure != ReturnsCode ==> r.value == 0
    ensures r.Failure? && w.policy.onFailure == RaisesGpt ==> r.error.GptRuntimeError?
    ensures r.Failure? && w.policy.onFailure == RaisesRuntime ==> r.error == RuntimeError
    ensures Order(m.calls, start) == Logged(Order(old(m.calls), start), w.cmd.op)
  {
    r := StageLogged(m, w, start);
  }

  /** `shutil.move` of a product onto `dst`, after deleting an existing
    * `dst` product (one whose header exists). */
  method ReplaceProduct(m: Machine, src: string, dst: string) returns (r: Result<()>)
    requires m.Valid() && Product(src) !! Product(dst)
    modifies m
    ensures m.Valid() && m.markers == old(m.markers) && m.calls == old(m.calls)
    ensures r.Success? <==> Product(src) <= old(m.paths)
    ensures r.Success? ==> m.paths == old(m.paths) - Product(src) + Product(dst)
    ensures r.Failure? ==> r.error == FileNotFoundError && old(m.paths) - Product(src) - Product(dst) <= m.paths
    ensures m.paths <= old(m.paths) + Product(dst)
  {
    if m.Exists(Dim(dst)) {
      m.DeleteProduct(dst);
    }
    r := m.MoveProduct(src, dst);
  }

  /** The elements of a set in some order (the order of a directory listing
    * is not specified). */
  method Listing(s: set<string>) returns (l: seq<string>)
    ensures forall p :: p in l <==> p in s
    ensures multiset(l) == multiset(s)
  {
    l := [];
    var rest := s;
    while rest != {}
      invariant rest <= s
      invariant multiset(l) + multiset(rest) == multiset(s)
      decreases |rest|
    {
      var p :| p in rest;
      l := l + [p];
      rest := rest - {p};
    }
    forall p ensures p in l <==> p in s {
      assert p in l <==> p in multiset(l);
      assert p in s <==> p in multiset(s);
    }
  }

  predicate IsPrefix<T(==)>(a: seq<T>, b: seq<T>)
  {
    |a| <= |b| && b[..|a|] == a
  }

  lemma PrefixTrans<T>(a: seq<T>, b: seq<T>, c: seq<T>)
    requires IsPrefix(a, b) && IsPrefix(b, c)
    ensures IsPrefix(a, c)
  {
    assert c[..|a|] == c[..|b|][..|a|];
  }

  /** The paths that belong to BEAM-DIMAP products. */
  predicate IsProductPath(p: string)
  {
    EndsWith(p, ".dim") || EndsWith(p, ".data")
  }

  /** The marker file `p` is as it was. */
  predicate MarkerUnchanged(a: map<string, string>, b: map<string, string>, p: string)
  {
    (p in a <==> p in b) && (p in a ==> a[p] == b[p])
  }

  lemma ProductPaths(prefix: string)
    ensures forall p :: p in Product(prefix) ==> IsProductPath(p)
  {
    assert EndsWith(Dim(prefix), ".dim");
    assert EndsWith(Data(prefix), ".data");
  }

  /** Dropping the extension of a header path gives back its product. */
  lemma DropDim(prefix: string)
    ensures DropLast(Dim(prefix), 4) == prefix
  {
    assert Dim(prefix)[..|prefix|] == prefix;
  }

  /** Products whose prefixes differ at the same distance from their ends
    * share no path. */
  lemma ProductsApart(s: string, t: string, i: nat)
    requires i < |s| && i < |t| && s[|s| - 1 - i] != t[|t| - 1 - i]
    ensures Product(s) !! Product(t)
  {
    assert Dim(s)[|s| - 1 - i] == s[|s| - 1 - i] && Data(s)[|s| - 1 - i] == s[|s| - 1 - i];
    assert Dim(t)[|t| - 1 - i] == t[|t| - 1 - i] && Data(t)[|t| - 1 - i] == t[|t| - 1 - i];
    if |s| == |t| {
      assert Dim(s) != Dim(t) && Data(s) != Data(t);
    }
    assert Dim(s) != Data(t) && Data(s) != Dim(t) by {
      DimNotData(s, t);
      DimNotData(t, s);
    }
  }

  /** A file named like a completion marker (`.processed`, `.bs.processed`,
    * ...) lies outside every product. */
  lemma MarkerPathNotProduct(dir: string, name: string)
    requires |name| > 0 && name[|name| - 1] == 'd'
    ensures !IsProductPath(PathJoin(dir, name))
  {
    var p := PathJoin(dir, name);
    assert p[|p| - 1] == name[|name| - 1];
  }

  /** Products under two different directories with the same name share no
    * path. */
  lemma SameNameApart(d1: string, d2: string, name: string)
    requires d1 != d2
    ensures Product(PathJoin(d1, name)) !! Product(PathJoin(d2, name))
  {
    var s, t := PathJoin(d1, name), PathJoin(d2, name);
    if |d1| == |d2| {
      var i :| 0 <= i < |d1| && d1[i] != d2[i];
      assert s[i] == d1[i] && t[i] == d2[i];
      assert Dim(s)[i] == s[i] && Dim(t)[i] == t[i];
      assert Data(s)[i] == s[i] && Data(t)[i] == t[i];
    } else {
      assert |Dim(s)| != |Dim(t)| && |Data(s)| != |Data(t)|;
    }
    DimNotData(s, t);
    DimNotData(t, s);
  }

  /** Two directories neither of which lies inside the other (nor is the
    * other). */
  predicate Separate(a: string, b: string)
  {
    !StartsWith(a + "/", b + "/") && !StartsWith(b + "/", a + "/")
  }

  /** No path of `s` is the directory `d` or lies below it. */
  predicate Outside(d: string, s: set<string>)
  {
    forall p :: p in s ==> p != d && !StartsWith(p, d + "/")
  }

  /** A product named inside `dir` lies below `dir`. */
  lemma ProductBelow(dir: string, name: string)
    ensures forall p :: p in Product(PathJoin(dir, name)) + {PathJoin(dir, name)} ==> StartsWith(p, dir + "/")
  {
    var q := PathJoin(dir, name);
    assert q[..|dir| + 1] == dir + "/";
    assert Dim(q)[..|dir| + 1] == dir + "/";
    assert Data(q)[..|dir| + 1] == dir + "/";
  }

  /** Two prefixes of one string are prefixes of each other. */
  lemma PrefixesComparable(p: string, x: string, y: string)
    requires StartsWith(p, x) && StartsWith(p, y)
    ensures StartsWith(x, y) || StartsWith(y, x)
  {
    if |x| <= |y| {
      assert y[..|x|] == p[..|x|];
    } else {
      assert x[..|y|] == p[..|y|];
    }
  }

  /** A path below one of two separate directories is neither the other
    * one nor below it. */
  lemma BelowApart(a: string, b: string, p: string)
    requires StartsWith(p, a + "/") && Separate(a, b)
    ensures p != b && !StartsWith(p, b + "/")
  {
    var x, y := a + "/", b + "/";
    assert (p + "/")[..|x|] == x;
    if StartsWith(p, y) {
      PrefixesComparable(p, x, y);
    }
    if p == b {
      PrefixesComparable(p + "/", x, y);
    }
  }

  /** Every product named inside `dir` lies outside any directory separate
    * from `dir`. */
  lemma ProductOutside(dir: string, name: string, d: string)
    requires Separate(dir, d)
    ensures Outside(d, Product(PathJoin(dir, name)) + {PathJoin(dir, name)})
  {
    ProductBelow(dir, name);
    forall p | p in Product(PathJoin(dir, name)) + {PathJoin(dir, name)}
      ensures p != d && !StartsWith(p, d + "/")
    {
      BelowApart(dir, d, p);
    }
  }

  /** Every path of `s` lies below the directory `d`. */
  predicate Below(d: string, s: set<string>)
  {
    forall p :: p in s ==> StartsWith(p, d + "/")
  }

  /** The paths of `paths` that remain once the directory `d` is removed. */
  function WithoutTree(paths: set<string>, d: string): (r: set<string>)
    ensures r <= paths
  {
    set p | p in paths && p != d && !StartsWith(p, d + "/")
  }

  /** The end of a `TemporaryDirectory` block: the scratch directory `d`
    * is removed with everything below it, which is at most the products
    * `scratch` made there; everything else stays. */
  method DropScratch(m: Machine, d: string, ghost scratch: set<string>)
    requires m.Valid() && Below(d, scratch) && Outside(d, m.paths - scratch)
    requires forall p :: p in scratch ==> IsProductPath(p)
    modifies m
    ensures m.Valid() && m.markers == old(m.markers) && m.calls == old(m.calls)
    ensures m.paths == old(m.paths) - scratch
  {
    m.RemoveTree(d);
    assert m.markers.Keys == old(m.markers).Keys by {
      forall p | p in old(m.markers)
        ensures p in m.paths
      {
        assert p in old(m.paths) - scratch;
      }
    }
  }

  /** Paths made only below `d` besides those outside it leave, once the
    * scratch products are set aside, nothing at or below `d`. */
  lemma ScratchApart(before: set<string>, added: set<string>, mid: set<string>, scratch: set<string>, d: string)
    requires Outside(d, before) && Outside(d, added) && Below(d, scratch)
    requires mid <= before + added + scratch
    ensures Outside(d, mid - scratch) && (before + added) !! scratch
  {
  }

  /** Stages run so far, `ops`, that begin the plan `full` leave an order
    * that the whole plan extends. */
  lemma PlanUnderway(done: seq<string>, ops: seq<string>, full: seq<string>)
    requires IsPrefix(ops, full)
    ensures IsPrefix(done, LoggedAll(done, ops)) && IsPrefix(LoggedAll(done, ops), LoggedAll(done, full))
  {
    assert full == ops + full[|ops|..];
    PlanPrefix(done, ops, full[|ops|..]);
  }

  /** The text of the completion markers (`.processed` and friends). */
  const MARKER_TEXT := "passed all tests \n"

  /** The observable state of the machine. */
  class Machine {
    var paths: set<string>
    var markers: map<string, string>
    var calls: seq<Command>
    const tool: Tool

    /** Every marker is a file, and none lies inside a product. */
    ghost predicate Valid()
      reads this
    {
      markers.Keys <= paths && forall p :: p in markers ==> !IsProductPath(p)
    }

    constructor (files: set<string>, t: Tool)
      ensures Valid()
      ensures paths == files && markers == map[] && calls == [] && tool == t
    {
      paths := files;
      markers := map[];
      calls := [];
      tool := t;
    }

    predicate Exists(p: string)
      reads this
    {
      p in paths
    }

    predicate HasProduct(prefix: string)
      reads this
    {
      Dim(prefix) in paths
    }

    /** One run of the external tool writing the product `out`: the run is
      * logged, and the product exists afterwards when the run wrote it. */
    method Run(cmd: Command, out: string) returns (code: int)
      requires Valid()
      modifies this
      ensures Valid()
      ensures calls == old(calls) + [cmd]
      ensures code == tool.exit(cmd, |old(calls)|)
      ensures markers == old(markers)
      ensures paths == old(paths) + (if tool.writes(cmd, |old(calls)|) then Product(out) else {})
    {
      code := tool.exit(cmd, |calls|);
      if tool.writes(cmd, |calls|) {
        paths := paths + Product(out);
      }
      calls := calls + [cmd];
    }

    /** A wrapper that raises on a non-zero exit, under `@retry(tries)`:
      * the command is re-run until it succeeds or `tries` runs have failed;
      * the last exit code is returned. */
    method RunRetrying(cmd: Command, out: string, tries: nat) returns (code: int)
      requires Valid() && tries >= 1
      modifies this
      ensures Valid()
      ensures var k := Attempts(tool, cmd, |old(calls)|, tries);
        calls == old(calls) + Repeat(cmd, k)
        && code == tool.exit(cmd, |old(calls)| + k - 1)
        && paths == old(paths) + (if LeftOutput(tool, cmd, |old(calls)|, k) then Product(out) else {})
      ensures markers == old(markers)
      ensures code != 0 ==> forall j :: |old(calls)| <= j < |calls| ==> tool.exit(cmd, j) != 0
    {
      var start := |calls|;
      ghost var k := Attempts(tool, cmd, start, tries);
      var n := 0;
      code := -1;
      while n == 0 || (code != 0 && n < tries)
        invariant Valid() && markers == old(markers)
        invariant 0 <= n <= k
        invariant n > 0 ==> code == tool.exit(cmd, start + n - 1)
        invariant (n == 0 || (code != 0 && n < tries)) <==> n < k
        invariant calls == old(calls) + Repeat(cmd, n)
        invariant paths == old(paths) + (if LeftOutput(tool, cmd, start, n) then Product(out) else {})
        decreases k - n
      {
        code := Run(cmd, out);
        assert calls == old(calls) + Repeat(cmd, n) + [cmd];
        assert Repeat(cmd, n) + [cmd] == Repeat(cmd, n + 1);
        LeftOutputStep(tool, cmd, start, n);
        AttemptsStep(tool, cmd, start, tries, n);
        n := n + 1;
      }
    }

    /** A tool wrapper: its command is run (and re-run, for a raising
      * wrapper under the retry decorator) and its result reported. */
    method Stage(cmd: Command, out: string, p: Policy) returns (r: Result<int>)
      requires Valid() && p.tries >= 1
      modifies this
      ensures Valid()
      ensures var k := Runs(tool, cmd, |old(calls)|, p);
        calls == old(calls) + Repeat(cmd, k)
        && paths == old(paths) + (if LeftOutput(tool, cmd, |old(calls)|, k) then Product(out) else {})
      ensures r == StageResult(tool, cmd, |old(calls)|, p)
      ensures markers == old(markers)
    {
      var code;
      if p.onFailure == ReturnsCode {
        code := Run(cmd, out);
        assert Repeat(cmd, 1) == [cmd];
        LeftOutputStep(tool, cmd, |old(calls)|, 0);
      } else {
        code := RunRetrying(cmd, out, p.tries);
      }
      r := Outcome(p, code);
    }

    /** `delete_dimap`: both paths of a product are removed. */
    method DeleteProduct(prefix: string)
      requires Valid()
      modifies this
      ensures Valid()
      ensures paths == old(paths) - Product(prefix)
      ensures markers == old(markers)
      ensures calls == old(calls)
    {
      ProductPaths(prefix);
      paths := paths - Product(prefix);
    }

    /** Moving a product to a new prefix with two `shutil.move` calls, the
      * header first: a missing path raises FileNotFoundError and stops there. */
    method MoveProduct(src: string, dst: string) returns (r: Result<()>)
      requires Valid()
      requires Dim(src) != Dim(dst) && Data(src) != Data(dst)
      modifies this
      ensures Valid()
      ensures r.Success? <==> Product(src) <= old(paths)
      ensures r.Failure? ==> r.error == FileNotFoundError
      ensures r.Success? ==> paths == old(paths) - Product(src) + Product(dst)
      ensures Dim(src) !in old(paths) ==> paths == old(paths)
      ensures Dim(src) in old(paths) && Data(src) !in old(paths) ==> paths == old(paths) - {Dim(src)} + {Dim(dst)}
      ensures markers == old(markers)
      ensures calls == old(calls)
    {
      DimNotData(dst, src);
      ProductPaths(src);
      if Dim(src) !in paths {
        return Failure(FileNotFoundError);
      }
      paths := paths - {Dim(src)} + {Dim(dst)};
      if Data(src) !in paths {
        return Failure(FileNotFoundError);
      }
      paths := paths - {Data(src)} + {Data(dst)};
      r := Success(());
    }

    /** Writes (or overwrites) a small text file, such as a processing marker. */
    method WriteMarker(p: string, text: string)
      requires Valid() && !IsProductPath(p)
      modifies this
      ensures Valid()
      ensures paths == old(paths) + {p}
      ensures markers == old(markers)[p := text]
      ensures calls == old(calls)
    {
      paths := paths + {p};
      markers := markers[p := text];
    }

    /** A library call outside the external tool (masking a raster,
      * building a VRT) that writes the single file `out`; it is logged with
      * the tool's invocations and does not fail. */
    method Write(cmd: Command, out: string)
      requires Valid()
      modifies this
      ensures Valid()
      ensures paths == old(paths) + {out}
      ensures markers == old(markers) - {out}
      ensures calls == old(calls) + [cmd]
    {
      paths := paths + {out};
      markers := markers - {out};
      calls := calls + [cmd];
    }

    /** `Path.replace`: the file `src` is renamed to `dst`, replacing any
      * file there; its text goes with it. A missing `src` raises
      * FileNotFoundError. */
    method Rename(src: string, dst: string) returns (r: Result<()>)
      requires Valid()
      requires src in markers ==> !IsProductPath(dst)
      modifies this
      ensures Valid()
      ensures r.Success? <==> src in old(paths)
      ensures r.Failure? ==> r.error == FileNotFoundError && paths == old(paths) && markers == old(markers)
      ensures r.Success? ==> paths == old(paths) - {src} + {dst}
      ensures r.Success? ==> markers == if src in old(markers) then (old(markers) - {src})[dst := old(markers)[src]]
                                       else old(markers) - {dst}
      ensures calls == old(calls)
    {
      if src !in paths {
        return Failure(FileNotFoundError);
      }
      paths := paths - {src} + {dst};
      if src in markers {
        markers := (markers - {src})[dst := markers[src]];
      } else {
        markers := markers - {dst};
      }
      r := Success(());
    }

    /** Removes a single file. */
    method Unlink(p: string)
      requires Valid()
      modifies this
      ensures Valid()
      ensures paths == old(paths) - {p}
      ensures markers == old(markers) - {p}
      ensures calls == old(calls)
    {
      paths := paths - {p};
      markers := markers - {p};
    }

    /** Removes a directory tree: the directory and every path below it. */
    method RemoveTree(dir: string)
      requires Valid()
      modifies this
      ensures Valid()
      ensures paths == WithoutTree(old(paths), dir)
      ensures forall p :: p in markers <==> p in old(markers) && p in paths
      ensures forall p :: p in markers ==> markers[p] == old(markers)[p]
      ensures calls == old(calls)
    {
      paths := WithoutTree(paths, dir);
      markers := map p | p in markers && p in paths :: markers[p];
    }

    /** `remove_folder_content`: every path below `dir` is removed; the
      * directory itself stays. */
    method ClearFolder(dir: string)
      requires Valid()
      modifies this
      ensures Valid()
      ensures paths == set p | p in old(paths) && !StartsWith(p, dir + "/")
      ensures forall p :: p in markers <==> p in old(markers) && !StartsWith(p, dir + "/")
      ensures forall p :: p in markers ==> markers[p] == old(markers)[p]
      ensures calls == old(calls)
    {
      paths := set p | p in paths && !StartsWith(p, dir + "/");
      markers := map p | p in markers && !StartsWith(p, dir + "/") :: markers[p];
    }
  }

  /** A header path is never a data-directory path. */
  lemma DimNotData(a: string, b: string)
    ensures Dim(a) != Data(b)
  {
    assert Dim(a)[|Dim(a)| - 1] == 'm';
    assert Data(b)[|Data(b)| - 1] == 'a';
  }

  lemma LeftOutputStep(t: Tool, cmd: Command, start: nat, n: nat)
    ensures LeftOutput(t, cmd, start, n + 1)
        <==> LeftOutput(t, cmd, start, n) || t.writes(cmd, start + n)
  {
    if LeftOutput(t, cmd, start, n + 1) && !t.writes(cmd, start + n) {
      var i :| start <= i < start + n + 1 && t.writes(cmd, i);
      assert i < start + n;
    }
  }

  /** After `n` runs that did not stop the decorator, the next run is the last
    * exactly when it succeeds or is the `tries`-th. */
  lemma {:induction false} AttemptsStep(t: Tool, cmd: Command, start: nat, tries: nat, n: nat)
    requires 0 <= n < tries
    requires n == 0 || n < Attempts(t, cmd, start, tries)
    requires forall j :: start <= j < start + n ==> t.exit(cmd, j) != 0
    ensures (t.exit(cmd, start + n) == 0 || n + 1 == tries) <==> Attempts(t, cmd, start, tries) == n + 1
    decreases n
  {
    if n > 0 {
      assert t.exit(cmd, start) != 0;
      AttemptsStep(t, cmd, start + 1, tries - 1, n - 1);
    }
  }
}
