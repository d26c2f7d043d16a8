/**
 The argument behind RollbackManager, for an arbitrary list of steps: a script runs some of the steps in
 increasing order, one of them fails halfway, and the handlers of all steps up to and including the
 failed one run in reverse order.
 */
module Rollbacks {

  /** What the action of a step creates, and what its handler removes. */
  datatype Stage<R(==)> = Stage(creates: set<R>, undoes: set<R>)

  predicate Increasing(script: seq<nat>) {
    forall i, j :: 0 <= i < j < |script| ==> script[i] < script[j]
  }

  predicate Within<R>(stages: seq<Stage<R>>, script: seq<nat>) {
    forall i :: 0 <= i < |script| ==> script[i] < |stages|
  }

  /** What the steps of script, run to their ends, have created. */
  function Created<R>(stages: seq<Stage<R>>, script: seq<nat>): set<R>
    requires Within(stages, script)
  {
    if script == [] then {}
    else
      var n := |script| - 1;
      assert Within(stages, script[..n]);
      Created(stages, script[..n]) + stages[script[n]].creates
  }

  /** What is left of held once the handlers of ranks last, last - 1, ..., 0 have run. */
  function Undone<R>(stages: seq<Stage<R>>, held: set<R>, last: int): set<R>
    requires last < |stages|
    decreases last
  {
    if last < 0 then held else Undone(stages, held - stages[last].undoes, last - 1)
  }

  /** What a run leaves: the last step of script failed after creating part of its share. */
  function Leftover<R>(stages: seq<Stage<R>>, script: seq<nat>, part: set<R>): set<R>
    requires script != [] && Within(stages, script)
  {
    var n := |script| - 1;
    assert Within(stages, script[..n]);
    Undone(stages, Created(stages, script[..n]) + part, script[n])
  }

  /** res is removed by the handler of some step no later than rank r. */
  predicate UndoneBy<R>(stages: seq<Stage<R>>, res: R, r: nat)
    requires r < |stages|
  {
    exists h :: 0 <= h <= r && res in stages[h].undoes
  }

  /** No resource is created before the step whose handler removes it. */
  ghost predicate Covered<R(!new)>(stages: seq<Stage<R>>) {
    forall r, res :: 0 <= r < |stages| && res in stages[r].creates ==> UndoneBy(stages, res, r)
  }

  lemma {:induction false} UndoneIs<R>(stages: seq<Stage<R>>, held: set<R>, last: nat, res: R)
    requires last < |stages|
    ensures res in Undone(stages, held, last) <==> res in held && !UndoneBy(stages, res, last)
  {
    if last > 0 {
      UndoneIs(stages, held - stages[last].undoes, last - 1, res);
      assert UndoneBy(stages, res, last) <==> res in stages[last].undoes || UndoneBy(stages, res, last - 1);
    } else {
      assert Undone(stages, held, 0) == held - stages[0].undoes;
    }
  }

  lemma {:induction false} CreatedBy<R>(stages: seq<Stage<R>>, script: seq<nat>, res: R) returns (i: nat)
    requires Within(stages, script) && res in Created(stages, script)
    ensures i < |script| && res in stages[script[i]].creates
  {
    var n := |script| - 1;
    if res in stages[script[n]].creates {
      i := n;
    } else {
      i := CreatedBy(stages, script[..n], res);
    }
  }

  lemma UndoneByLater<R>(stages: seq<Stage<R>>, res: R, r: nat, last: nat)
    requires r <= last < |stages| && UndoneBy(stages, res, r)
    ensures UndoneBy(stages, res, last)
  {
  }

  /** Whatever is left was created by a step that no handler up to it undoes. */
  lemma LeftoverIsUncovered<R>(stages: seq<Stage<R>>, script: seq<nat>, part: set<R>, res: R) returns (r: nat)
    requires script != [] && Within(stages, script) && Increasing(script)
    requires part <= stages[script[|script| - 1]].creates && res in Leftover(stages, script, part)
    ensures r < |stages| && res in stages[r].creates && !UndoneBy(stages, res, r)
  {
    var n := |script| - 1;
    assert Within(stages, script[..n]);
    UndoneIs(stages, Created(stages, script[..n]) + part, script[n], res);
    if res in part {
      r := script[n];
    } else {
      var i := CreatedBy(stages, script[..n], res);
      r := script[i];
      if UndoneBy(stages, res, r) {
        UndoneByLater(stages, res, r, script[n]);
      }
    }
  }

  lemma NothingIsLeft<R(!new)>(stages: seq<Stage<R>>, script: seq<nat>, part: set<R>)
    requires Covered(stages) && script != [] && Within(stages, script) && Increasing(script)
    requires part <= stages[script[|script| - 1]].creates
    ensures Leftover(stages, script, part) == {}
  {
    if Leftover(stages, script, part) != {} {
      var res :| res in Leftover(stages, script, part);
      var r := LeftoverIsUncovered(stages, script, part, res);
    }
  }

  /** Every run, wherever it fails, leaves nothing. */
  ghost predicate AlwaysClean<R(!new)>(stages: seq<Stage<R>>) {
    forall script: seq<nat>, part: set<R> ::
      script != [] && Within(stages, script) && Increasing(script) && part <= stages[script[|script| - 1]].creates
      ==> Leftover(stages, script, part) == {}
  }

  /** Compensation for an arbitrary step list: every failed run of every increasing script leaves
      nothing if and only if each resource is removed by a handler no later than its creation. */
  lemma AlwaysCleanIffCovered<R(!new)>(stages: seq<Stage<R>>)
    ensures AlwaysClean(stages) <==> Covered(stages)
  {
    if Covered(stages) {
      forall script: seq<nat>, part: set<R> |
        script != [] && Within(stages, script) && Increasing(script) && part <= stages[script[|script| - 1]].creates
        ensures Leftover(stages, script, part) == {}
      {
        NothingIsLeft(stages, script, part);
      }
    }
    if AlwaysClean(stages) {
      forall r, res | 0 <= r < |stages| && res in stages[r].creates ensures UndoneBy(stages, res, r) {
        var script: seq<nat> := [r];
        assert Leftover(stages, script, {res}) == {};
        assert Created(stages, script[..0]) == {};
        UndoneIs(stages, {res}, r, res);
        assert {} + {res} == {res};
      }
    }
  }
}
