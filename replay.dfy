/** Why re-running the loader is safe. Every statement the loader issues
    is a MERGE or an IF NOT EXISTS, so re-issuing one that already went
    through changes nothing, provided no node has been added since a
    relationship statement matched its endpoints. The loader issues all
    its node statements before its first relationship statement, so a
    call that starts over from the state an interrupted call left behind
    ends exactly where a single uninterrupted call would. That is what the
    retry decorator relies on. The lemmas hold for any statement list in
    that order; module LoadProperties applies them to the loader's. */
module Replay {
  import opened Wrappers
  import opened GraphDb
  import opened Load

  predicate IsEdgeStep(s: Step) {
    s.Ok? && s.value.MergeEdgePattern?
  }

  /** After the first relationship statement, every step is a relationship
      statement or raises before sending anything. */
  predicate PhaseOrdered(prog: seq<Step>) {
    forall i, j :: 0 <= i < j < |prog| && IsEdgeStep(prog[i]) ==> IsEdgeStep(prog[j]) || prog[j].Err?
  }

  /** The store once the first `k` steps of an undisturbed run have gone through. */
  function PrefixState(g: Graph, prog: seq<Step>, k: nat): Graph
    requires k <= |prog|
  {
    Exec(g, prog[..k], 0, None).graph
  }

  // ---------------------------------------------------------------------
  // Runs and their prefixes

  /** A run that went through went through each of its prefixes, and the
      store only grew after each of them. */
  lemma {:induction false} DonePrefix(g: Graph, steps: seq<Step>, base: nat, dropsAt: Option<nat>, i: nat)
    requires i <= |steps|
    requires Exec(g, steps, base, dropsAt).Done?
    ensures Exec(g, steps[..i], base, dropsAt).Done?
    ensures Grows(Exec(g, steps[..i], base, dropsAt).graph, Exec(g, steps, base, dropsAt).graph)
    decreases |steps|
  {
    if i == |steps| {
      assert steps[..i] == steps;
    } else {
      var n := |steps| - 1;
      var h := Exec(g, steps[..n], base, dropsAt);
      assert h.Done?;
      assert Grows(h.graph, Exec(g, steps, base, dropsAt).graph);
      DonePrefix(g, steps[..n], base, dropsAt, i);
      assert steps[..n][..i] == steps[..i];
      GrowsTransitive(Exec(g, steps[..i], base, dropsAt).graph, h.graph, Exec(g, steps, base, dropsAt).graph);
    }
  }

  /** The step after a prefix that went through, when it went through too. */
  lemma StepAt(g: Graph, steps: seq<Step>, i: nat)
    requires i < |steps|
    requires Exec(g, steps[..i + 1], 0, None).Done?
    ensures Exec(g, steps[..i], 0, None).Done?
    ensures steps[i].Ok?
    ensures Apply(Exec(g, steps[..i], 0, None).graph, steps[i].value) == Ok(Exec(g, steps[..i + 1], 0, None).graph)
  {
    ExecSnoc(g, steps, i, 0, None);
  }

  /** Each statement of a prefix that went through was applied to the
      state before it, and what it left is still in the store at the end
      of the prefix. */
  lemma AppliedIn(g: Graph, prog: seq<Step>, i: nat, k: nat)
    requires i < k <= |prog|
    requires Exec(g, prog[..k], 0, None).Done?
    ensures prog[i].Ok?
    ensures Apply(PrefixState(g, prog, i), prog[i].value) == Ok(PrefixState(g, prog, i + 1))
    ensures Grows(PrefixState(g, prog, i + 1), PrefixState(g, prog, k))
  {
    DonePrefix(g, prog[..k], 0, None, i + 1);
    assert prog[..k][..i + 1] == prog[..i + 1];
    StepAt(g, prog, i);
  }

  /** Where the connection does not drop during a run, the run is the
      undisturbed one. */
  lemma {:induction false} NoDropSame(g: Graph, steps: seq<Step>, base: nat, dropsAt: Option<nat>)
    requires dropsAt.Some? ==> !(base <= dropsAt.value < base + |steps|)
    ensures Exec(g, steps, base, dropsAt) == Exec(g, steps, base, None)
    decreases |steps|
  {
    if steps != [] {
      NoDropSame(g, steps[..|steps| - 1], base, dropsAt);
    }
  }

  /** A run that went through is the undisturbed run, and the connection
      did not drop during it. */
  lemma {:induction false} DoneIgnoresDrop(g: Graph, steps: seq<Step>, base: nat, dropsAt: Option<nat>)
    requires Exec(g, steps, base, dropsAt).Done?
    ensures dropsAt.Some? ==> !(base <= dropsAt.value < base + |steps|)
    ensures Exec(g, steps, base, dropsAt) == Exec(g, steps, base, None)
    decreases |steps|
  {
    if steps != [] {
      DoneIgnoresDrop(g, steps[..|steps| - 1], base, dropsAt);
    }
    NoDropSame(g, steps, base, dropsAt);
  }

  /** A run that raised went through up to one step, which raised. */
  lemma {:induction false} FailurePoint(g: Graph, steps: seq<Step>, base: nat, dropsAt: Option<nat>) returns (k: nat)
    requires Exec(g, steps, base, dropsAt).Failed?
    ensures k < |steps|
    ensures Exec(g, steps[..k], base, dropsAt) == Done(Exec(g, steps, base, dropsAt).graph)
    ensures StepRun(Exec(g, steps, base, dropsAt).graph, steps[k], dropsAt == Some(base + k)) == Exec(g, steps, base, dropsAt)
    decreases |steps|
  {
    var n := |steps| - 1;
    if Exec(g, steps[..n], base, dropsAt).Failed? {
      k := FailurePoint(g, steps[..n], base, dropsAt);
      assert steps[..n][..k] == steps[..k];
    } else {
      k := n;
    }
  }

  // ---------------------------------------------------------------------
  // Re-issuing statements that went through

  /** Between a relationship statement and the end of a prefix that went
      through, no node is added. */
  lemma {:induction false} NodesSettled(g: Graph, prog: seq<Step>, i: nat, k: nat)
    requires PhaseOrdered(prog)
    requires i < k <= |prog|
    requires IsEdgeStep(prog[i])
    requires Exec(g, prog[..k], 0, None).Done?
    ensures PrefixState(g, prog, i).nodes == PrefixState(g, prog, k).nodes
    decreases k
  {
    DonePrefix(g, prog[..k], 0, None, k - 1);
    assert prog[..k][..k - 1] == prog[..k - 1];
    StepAt(g, prog, k - 1);
    ApplyGrows(PrefixState(g, prog, k - 1), prog[k - 1].value);
    if i < k - 1 {
      NodesSettled(g, prog, i, k - 1);
    }
  }

  /** A statement of a prefix that went through changes nothing when it
      is issued again at the end of that prefix. */
  lemma LaterNoop(g: Graph, prog: seq<Step>, i: nat, k: nat)
    requires PhaseOrdered(prog)
    requires i < k <= |prog|
    requires Exec(g, prog[..k], 0, None).Done?
    ensures prog[i].Ok?
    ensures Apply(PrefixState(g, prog, k), prog[i].value) == Ok(PrefixState(g, prog, k))
  {
    AppliedIn(g, prog, i, k);
    var before, after, s := PrefixState(g, prog, i), PrefixState(g, prog, i + 1), PrefixState(g, prog, k);
    assert Grows(after, s);
    match prog[i].value
    case CreateUniqueIdConstraint(l) =>
      assert l in s.constraints;
    case MergeNodePattern(l, id, props) =>
      var n :| n in after.nodes && MatchesPattern(n, l, id.value, props);
      assert n in s.nodes;
    case MergeEdgePattern(rel, from, fromId, to, toId, onCreate) =>
      NodesSettled(g, prog, i, k);
      assert MatchedKeys(before.nodes, rel, from, fromId, to, toId) <= after.edges.Keys;
      MergeEdgeNoopWhenPresent(s, rel, from, fromId, to, toId, onCreate);
  }

  /** Re-running the first `j` steps of a prefix that went through, from
      the state that prefix left, changes nothing; a dropped connection
      only cuts the replay short. */
  lemma {:induction false} ReplayPrefix(g: Graph, prog: seq<Step>, k: nat, j: nat, dropsAt: Option<nat>)
    requires PhaseOrdered(prog)
    requires j <= k <= |prog|
    requires Exec(g, prog[..k], 0, None).Done?
    ensures Exec(PrefixState(g, prog, k), prog[..j], 0, dropsAt) ==
      if dropsAt.Some? && dropsAt.value < j then Failed(PrefixState(g, prog, k), Transient)
      else Done(PrefixState(g, prog, k))
    decreases j
  {
    var s := PrefixState(g, prog, k);
    if j == 0 {
      assert prog[..0] == [];
    } else {
      ReplayPrefix(g, prog, k, j - 1, dropsAt);
      ExecSnoc(s, prog, j - 1, 0, dropsAt);
      LaterNoop(g, prog, j - 1, k);
    }
  }

  /** Splits a run at step `k`. */
  lemma SplitAt(g: Graph, prog: seq<Step>, k: nat, dropsAt: Option<nat>)
    requires k <= |prog|
    ensures Exec(g, prog, 0, dropsAt) == Then(Exec(g, prog[..k], 0, dropsAt), prog[k..], k, dropsAt)
  {
    JoinHalves(prog, k);
    ExecAppend(g, prog[..k], prog[k..], 0, dropsAt);
  }

  lemma JoinHalves<T>(s: seq<T>, k: nat)
    requires k <= |s|
    ensures s[..k] + s[k..] == s && |s[..k]| == k
  {
  }

  /** Starting over from the state a prefix left ends as the original
      run does (unless the connection drops within the replayed prefix,
      which then leaves the store as it was). */
  lemma Resume(g: Graph, prog: seq<Step>, k: nat, dropsAt: Option<nat>)
    requires PhaseOrdered(prog)
    requires k <= |prog|
    requires Exec(g, prog[..k], 0, None).Done?
    ensures Exec(PrefixState(g, prog, k), prog, 0, dropsAt) ==
      if dropsAt.Some? && dropsAt.value < k then Failed(PrefixState(g, prog, k), Transient)
      else Exec(g, prog, 0, dropsAt)
  {
    ReplayPrefix(g, prog, k, k, dropsAt);
    SplitAt(PrefixState(g, prog, k), prog, k, dropsAt);
    if !(dropsAt.Some? && dropsAt.value < k) {
      SplitAt(g, prog, k, dropsAt);
      NoDropSame(g, prog[..k], 0, dropsAt);
    }
  }

  // ---------------------------------------------------------------------
  // Consequences

  /** A second undisturbed run after one that went through changes nothing. */
  lemma RunIdempotent(g: Graph, prog: seq<Step>)
    requires PhaseOrdered(prog)
    requires Exec(g, prog, 0, None).Done?
    ensures Exec(Exec(g, prog, 0, None).graph, prog, 0, None) == Exec(g, prog, 0, None)
  {
    assert prog[..|prog|] == prog;
    Resume(g, prog, |prog|, None);
  }

  /** After a run that raised, for whatever reason, an undisturbed run
      from the state it left ends exactly as an undisturbed run from the
      original state. */
  lemma InterruptedRunConverges(g: Graph, prog: seq<Step>, dropsAt: Option<nat>)
    requires PhaseOrdered(prog)
    requires Exec(g, prog, 0, dropsAt).Failed?
    ensures Exec(Exec(g, prog, 0, dropsAt).graph, prog, 0, None) == Exec(g, prog, 0, None)
  {
    var k := FailurePoint(g, prog, 0, dropsAt);
    DoneIgnoresDrop(g, prog[..k], 0, dropsAt);
    Resume(g, prog, k, None);
  }

  /** The retry loop from attempt `i`, started from a state some prefix of
      the undisturbed run left: a retry that ends well ends as the
      undisturbed run does; when the undisturbed run raises, every attempt
      raises; the last attempt, if undisturbed, raises that run's own
      exception; and when the undisturbed run goes through, the retry stops
      at the latest at the first attempt `f` whose connection stays up. */
  lemma {:induction false} RetryFromPrefix(g: Graph, prog: seq<Step>, drops: seq<Option<nat>>, i: nat, k: nat, f: nat)
    requires PhaseOrdered(prog)
    requires i < TRIES
    requires k <= |prog|
    requires Exec(g, prog[..k], 0, None).Done?
    ensures var r := RetryFrom(PrefixState(g, prog, k), prog, drops, i);
      && (r.0.Done? ==> r.0 == Exec(g, prog, 0, None))
      && (Exec(g, prog, 0, None).Failed? ==> r.0.Failed?)
      && (Exec(g, prog, 0, None).Failed? && AttemptDrop(drops, TRIES - 1) == None ==> r.0 == Exec(g, prog, 0, None))
      && (Exec(g, prog, 0, None).Done? && i <= f < TRIES && AttemptDrop(drops, f) == None ==>
            r.0 == Exec(g, prog, 0, None) && r.1 <= f + 1)
    decreases TRIES - i
  {
    var s := PrefixState(g, prog, k);
    var d := AttemptDrop(drops, i);
    var run := Exec(s, prog, 0, d);
    Resume(g, prog, k, d);
    if d.Some? && d.value < k {
      if i + 1 < TRIES {
        RetryFromPrefix(g, prog, drops, i + 1, k, f);
      }
    } else if run.Done? {
      DoneIgnoresDrop(g, prog, 0, d);
    } else {
      var k' := FailurePoint(g, prog, 0, d);
      DoneIgnoresDrop(g, prog[..k'], 0, d);
      if i + 1 < TRIES {
        RetryFromPrefix(g, prog, drops, i + 1, k', f);
      }
    }
  }
}
