/** Sequence helpers shared by the other modules. */
module Sequences {

  datatype Option<+T> = None | Some(value: T)

  /** The image of `s` under `f`, in order. */
  function Map<T, U>(f: T -> U, s: seq<T>): (r: seq<U>)
    ensures |r| == |s|
    ensures forall i :: 0 <= i < |s| ==> r[i] == f(s[i])
  {
    seq(|s|, i requires 0 <= i < |s| => f(s[i]))
  }

  /** The concatenation of a sequence of sequences. */
  function Flatten<T>(parts: seq<seq<T>>): (r: seq<T>)
  {
    if parts == [] then [] else parts[0] + Flatten(parts[1..])
  }

  lemma {:induction false} FlattenAppend<T>(a: seq<seq<T>>, b: seq<seq<T>>)
    ensures Flatten(a + b) == Flatten(a) + Flatten(b)
  {
    if a == [] {
      assert a + b == b;
    } else {
      assert (a + b)[1..] == a[1..] + b;
      FlattenAppend(a[1..], b);
    }
  }

  lemma FlattenSnoc<T>(a: seq<seq<T>>, x: seq<T>)
    ensures Flatten(a + [x]) == Flatten(a) + x
  {
    FlattenAppend(a, [x]);
    assert [x][1..] == [];
    assert Flatten([x]) == x;
  }

  lemma MapAppend<T, U>(f: T -> U, a: seq<T>, b: seq<T>)
    ensures Map(f, a + b) == Map(f, a) + Map(f, b)
  {}

  // ---- Folding writes into a record ----

  /** `init` after the writes of `history`, oldest first. */
  function Fold<S, B>(assign: (S, B) -> B, init: B, history: seq<S>): B {
    if history == [] then init
    else assign(history[|history| - 1], Fold(assign, init, history[..|history| - 1]))
  }

  /** `i` is the last element of `history` satisfying `p`. */
  predicate IsLast<S>(p: S -> bool, history: seq<S>, i: nat) {
    i < |history| && p(history[i]) && forall j :: i < j < |history| ==> !p(history[j])
  }

  predicate Never<S>(p: S -> bool, history: seq<S>) {
    forall i :: 0 <= i < |history| ==> !p(history[i])
  }

  lemma {:induction false} SomeLast<S>(p: S -> bool, history: seq<S>) returns (i: nat)
    requires !Never(p, history)
    ensures IsLast(p, history, i)
  {
    i := |history| - 1;
    if !p(history[i]) {
      var shorter := history[..|history| - 1];
      assert !Never(p, shorter) by {
        var k :| 0 <= k < |history| && p(history[k]);
        assert p(shorter[k]);
      }
      i := SomeLast(p, shorter);
    }
  }

  /** A part of the record that only some writes touch holds what the last of them wrote. */
  lemma {:induction false} LastWriteWins<S(!new), B(!new), V>(
    assign: (S, B) -> B, init: B, history: seq<S>, get: B -> V, touches: S -> bool, written: S -> V)
    requires forall s: S, b: B :: get(assign(s, b)) == if touches(s) then written(s) else get(b)
    ensures forall i: nat :: IsLast(touches, history, i) ==>
              get(Fold(assign, init, history)) == written(history[i])
    ensures Never(touches, history) ==> get(Fold(assign, init, history)) == get(init)
  {
    if history != [] {
      var shorter := history[..|history| - 1];
      LastWriteWins(assign, init, shorter, get, touches, written);
      forall i: nat | IsLast(touches, history, i)
        ensures get(Fold(assign, init, history)) == written(history[i])
      {
        if i < |shorter| {
          assert IsLast(touches, shorter, i);
        }
      }
    }
  }
}
