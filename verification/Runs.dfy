/**
 Runs of a transition system, shared by every protocol. `step` gives the state after an action, or
 None where the action is not enabled.
 */
module Runs {
  import opened Common

  ghost predicate Legal<W(!new), A(!new)>(step: (W, A) -> Option<W>, world: W, history: seq<A>)
    decreases |history|
  {
    history == []
    || (step(world, history[0]).Some? && Legal(step, step(world, history[0]).value, history[1..]))
  }

  ghost function Replay<W(!new), A(!new)>(step: (W, A) -> Option<W>, world: W, history: seq<A>): W
    requires Legal(step, world, history)
    decreases |history|
  {
    if history == [] then world else Replay(step, step(world, history[0]).value, history[1..])
  }

  /** One run after another is a run. */
  lemma {:induction false} ReplayConcat<W(!new), A(!new)>(step: (W, A) -> Option<W>, world: W,
                                                          first: seq<A>, second: seq<A>)
    requires Legal(step, world, first) && Legal(step, Replay(step, world, first), second)
    ensures Legal(step, world, first + second)
    ensures Replay(step, world, first + second) == Replay(step, Replay(step, world, first), second)
    decreases |first|
  {
    if first == [] {
      assert first + second == second;
    } else {
      assert (first + second)[0] == first[0] && (first + second)[1..] == first[1..] + second;
      ReplayConcat(step, step(world, first[0]).value, first[1..], second);
    }
  }

  /** A run is one part of it after another. */
  lemma {:induction false} ReplaySplit<W(!new), A(!new)>(step: (W, A) -> Option<W>, world: W,
                                                         first: seq<A>, whole: seq<A>)
    requires Legal(step, world, whole) && first <= whole
    ensures Legal(step, world, first) && Legal(step, Replay(step, world, first), whole[|first|..])
    ensures Replay(step, world, whole) == Replay(step, Replay(step, world, first), whole[|first|..])
    decreases |first|
  {
    if first != [] {
      assert first[1..] <= whole[1..] && whole[1..][|first[1..]|..] == whole[|first|..];
      ReplaySplit(step, step(world, whole[0]).value, first[1..], whole[1..]);
    }
  }

  lemma {:induction false} ReplayAppend<W(!new),
    A(!new)>(step: (W, A) -> Option<W>, world: W, history: seq<A>, action: A)
    requires Legal(step, world, history) && step(Replay(step, world, history), action).Some?
    ensures Legal(step, world, history + [action])
    ensures Replay(step, world, history + [action]) == step(Replay(step, world, history), action).value
  {
    var last := Replay(step, world, history);
    assert [action][1..] == [];
    assert Legal(step, last, [action]) && Replay(step, last, [action]) == step(last, action).value;
    ReplayConcat(step, world, history, [action]);
  }

  /** A list of states, each a step after the one before, is a run. */
  lemma {:induction false} Trace<W(!new), A(!new)>(step: (W, A) -> Option<W>, worlds: seq<W>, history: seq<A>)
    requires |worlds| == |history| + 1
    requires forall i :: 0 <= i < |history| ==> step(worlds[i], history[i]) == Some(worlds[i + 1])
    ensures Legal(step, worlds[0], history) && Replay(step, worlds[0], history) == worlds[|history|]
    decreases |history|
  {
    if history != [] {
      assert step(worlds[0], history[0]) == Some(worlds[1]);
      forall i | 0 <= i < |history[1..]| ensures step(worlds[1..][i], history[1..][i]) == Some(worlds[1..][i + 1]) {
        assert step(worlds[i + 1], history[i + 1]) == Some(worlds[i + 2]);
      }
      Trace(step, worlds[1..], history[1..]);
    }
  }

  /** What every step keeps, every run keeps. */
  lemma {:induction false} ReplayKeeps<W(!new), A(!new)>(step: (W, A) -> Option<W>, keeps: W -> bool, world: W,
                                                         history: seq<A>)
    requires Legal(step, world, history) && keeps(world)
    requires forall w, a :: keeps(w) && step(w, a).Some? ==> keeps(step(w, a).value)
    ensures keeps(Replay(step, world, history))
    decreases |history|
  {
    if history != [] {
      ReplayKeeps(step, keeps, step(world, history[0]).value, history[1..]);
    }
  }
}
