/**
 * Environment preparation: copying the configured include files into the
 * package directory. Unlike the cleanups, a failed copy is not caught and
 * ends the run.
 */
module Prep {
  import opened Wrappers
  import opened Commands

  /** Where an include file is copied: `"%s/%s" % (name, file)`. */
  function Destination(name: string, file: string): string {
    name + "/" + file
  }

  /**
   * Every destination lies in the package directory and keeps the file's own
   * relative path below it: stripping the directory gives the source back.
   */
  lemma DestinationInPackage(name: string, file: string)
    ensures var d := Destination(name, file);
            |d| == |name| + 1 + |file| && d[..|name| + 1] == name + "/" && d[|name| + 1..] == file
  {
    var d := Destination(name, file);
    assert d == (name + "/") + file;
  }

  /** The (source, destination) pairs of the include-file loop, one per file, in list order. */
  function CopyPlan(name: string, files: seq<string>): (plan: seq<(string, string)>)
    ensures |plan| == |files|
    ensures forall i :: 0 <= i < |plan| ==> plan[i] == (files[i], Destination(name, files[i]))
    decreases |files|
  {
    if files == [] then []
    else
      var last := files[|files| - 1];
      CopyPlan(name, files[..|files| - 1]) + [(last, Destination(name, last))]
  }

  /** The commands of the copy loop and the file whose copy raised, if one did. */
  datatype CopyResult = CopyResult(trace: seq<Command>, failed: Option<string>)

  /** The `n` commands issued from position `pos` on all returned 0. */
  ghost predicate AllSucceeded(oracle: Oracle, pos: nat, n: nat) {
    forall k :: pos <= k < pos + n ==> oracle(k) == 0
  }

  /**
   * The copy loop over `plan`, its first command issued at `pos`: it copies in
   * order and stops at the first copy that fails, naming its source.
   */
  function CopyAll(plan: seq<(string, string)>, oracle: Oracle, pos: nat): (r: CopyResult)
    ensures |r.trace| <= |plan|
    ensures forall k :: 0 <= k < |r.trace| ==> r.trace[k] == CopyFile(plan[k].0, plan[k].1)
    ensures r.failed.None? ==>
              |r.trace| == |plan| && AllSucceeded(oracle, pos, |r.trace|)
    ensures r.failed.Some? ==>
              0 < |r.trace| &&
              oracle(pos + |r.trace| - 1) != 0 &&
              r.failed.value == plan[|r.trace| - 1].0 &&
              AllSucceeded(oracle, pos, |r.trace| - 1)
    decreases |plan|
  {
    if plan == [] then CopyResult([], None)
    else
      var done := CopyAll(plan[..|plan| - 1], oracle, pos);
      if done.failed.Some? then done
      else
        var (source, destination) := plan[|plan| - 1];
        var rc := oracle(pos + |done.trace|);
        CopyResult(done.trace + [CopyFile(source, destination)], if rc != 0 then Some(source) else None)
  }

  /** The include-file loop as the script runs it. */
  method CopyIncludeFiles(name: string, files: seq<string>, oracle: Oracle, pos: nat)
    returns (trace: seq<Command>, failed: Option<string>)
    ensures CopyResult(trace, failed) == CopyAll(CopyPlan(name, files), oracle, pos)
  {
    ghost var plan := CopyPlan(name, files);
    trace, failed := [], None;
    for i := 0 to |files|
      invariant CopyResult(trace, None) == CopyAll(plan[..i], oracle, pos)
    {
      assert plan[..i + 1][..i] == plan[..i];
      assert plan[..i + 1][i] == plan[i] == (files[i], Destination(name, files[i]));
      var file := files[i];
      var rc := oracle(pos + |trace|);
      trace := trace + [CopyFile(file, Destination(name, file))];
      if rc != 0 {
        failed := Some(file);
        CopyAllHalts(plan, oracle, pos, i + 1);
        return;
      }
    }
    assert plan[..|files|] == plan;
  }

  /** A failed copy ends the loop: later files are never copied. */
  lemma {:induction false} CopyAllHalts(plan: seq<(string, string)>, oracle: Oracle, pos: nat, i: nat)
    requires i <= |plan|
    requires CopyAll(plan[..i], oracle, pos).failed.Some?
    ensures CopyAll(plan, oracle, pos) == CopyAll(plan[..i], oracle, pos)
    decreases |plan|
  {
    if i < |plan| {
      var init := plan[..|plan| - 1];
      assert init[..i] == plan[..i];
      CopyAllHalts(init, oracle, pos, i);
    } else {
      assert plan[..i] == plan;
    }
  }

  /**
   * The copy loop depends on the oracle only through the statuses of the
   * copies it issued.
   */
  lemma {:induction false} CopyAllAgree(plan: seq<(string, string)>, o1: Oracle, o2: Oracle, pos: nat)
    requires AgreeBeyondCleanup(CopyAll(plan, o1, pos).trace, o1, o2, pos)
    ensures CopyAll(plan, o2, pos) == CopyAll(plan, o1, pos)
    decreases |plan|
  {
    if plan != [] {
      var init := plan[..|plan| - 1];
      var done := CopyAll(init, o1, pos);
      var tr := CopyAll(plan, o1, pos).trace;
      assert done.trace <= tr;
      AgreeOnPrefix(done.trace, tr, o1, o2, pos);
      CopyAllAgree(init, o1, o2, pos);
      if done.failed.None? {
        assert !BestEffort(tr[|done.trace|]);
      }
    }
  }
}
