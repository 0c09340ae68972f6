/**
  Builders behind `Arc` handles. A setter takes a handle, moves the builder out
  of its cell if that was the only handle and copies it otherwise
  (`unwrap_or_clone_arc`), assigns one field and puts the result in a new cell.
  `B` is the builder, `S` its setters.
 */
module ArcHeap {
  import opened Sequences

  type Loc = nat
  type Handle = nat

  /** The setters of a builder type and the builder its constructor makes. */
  datatype Kind<!S, !B> = Kind(assign: (S, B) -> B, init: B)

  datatype Cell<B> = Cell(value: B, strong: nat)

  // ---- Reference counts ----

  function Holders(refs: map<Handle, Loc>, loc: Loc): set<Handle> {
    set h | h in refs && refs[h] == loc
  }

  /** Every handle points to a cell, and every cell counts its handles. */
  ghost predicate Counted<B>(cells: map<Loc, Cell<B>>, refs: map<Handle, Loc>) {
    && (forall h :: h in refs ==> refs[h] in cells)
    && (forall l :: l in cells ==> cells[l].strong == |Holders(refs, l)| > 0)
  }

  lemma HoldersAdd(refs: map<Handle, Loc>, h: Handle, loc: Loc)
    requires h !in refs
    ensures Holders(refs[h := loc], loc) == Holders(refs, loc) + {h}
    ensures |Holders(refs[h := loc], loc)| == |Holders(refs, loc)| + 1
    ensures forall l :: l != loc ==> Holders(refs[h := loc], l) == Holders(refs, l)
  {
    assert Holders(refs[h := loc], loc) == Holders(refs, loc) + {h};
  }

  lemma HoldersRemove(refs: map<Handle, Loc>, h: Handle)
    requires h in refs
    ensures h in Holders(refs, refs[h])
    ensures |Holders(refs - {h}, refs[h])| == |Holders(refs, refs[h])| - 1
    ensures forall l :: l != refs[h] ==> Holders(refs - {h}, l) == Holders(refs, l)
  {
    assert Holders(refs, refs[h]) == Holders(refs - {h}, refs[h]) + {h};
  }

  /** `Arc::new`, at any address that is free. */
  function Alloc<B>(cells: map<Loc, Cell<B>>, loc: Loc, value: B): map<Loc, Cell<B>> {
    cells[loc := Cell(value, 1)]
  }

  /** Giving up one reference to `loc`; the last one frees the cell. */
  function Release<B>(cells: map<Loc, Cell<B>>, loc: Loc): map<Loc, Cell<B>>
    requires loc in cells && cells[loc].strong > 0
  {
    if cells[loc].strong == 1 then cells - {loc}
    else cells[loc := cells[loc].(strong := cells[loc].strong - 1)]
  }

  lemma AllocCounted<B>(cells: map<Loc, Cell<B>>, refs: map<Handle, Loc>, h: Handle, loc: Loc, value: B)
    requires Counted(cells, refs) && h !in refs && loc !in cells
    ensures Counted(Alloc(cells, loc, value), refs[h := loc])
  {
    HoldersAdd(refs, h, loc);
    assert Holders(refs, loc) == {};
  }

  lemma CloneCounted<B>(cells: map<Loc, Cell<B>>, refs: map<Handle, Loc>, h: Handle, h': Handle)
    requires Counted(cells, refs) && h in refs && h' !in refs
    ensures Counted(cells[refs[h] := cells[refs[h]].(strong := cells[refs[h]].strong + 1)], refs[h' := refs[h]])
  {
    HoldersAdd(refs, h', refs[h]);
  }

  lemma ReleaseCounted<B>(cells: map<Loc, Cell<B>>, refs: map<Handle, Loc>, h: Handle)
    requires Counted(cells, refs) && h in refs
    ensures Counted(Release(cells, refs[h]), refs - {h})
    ensures forall l :: l in Release(cells, refs[h]) ==>
        l in cells && Release(cells, refs[h])[l].value == cells[l].value
  {
    HoldersRemove(refs, h);
    var refs' := refs - {h};
    if cells[refs[h]].strong == 1 {
      forall k | k in refs' ensures refs'[k] != refs[h] {
        assert k in Holders(refs', refs'[k]);
      }
    }
  }

  lemma MoveCounted<B>(cells: map<Loc, Cell<B>>, refs: map<Handle, Loc>, h: Handle, h': Handle)
    requires Counted(cells, refs) && h in refs && h' !in refs
    ensures Counted(cells, (refs - {h})[h' := refs[h]])
  {
    HoldersRemove(refs, h);
    HoldersAdd(refs - {h}, h', refs[h]);
  }

  // ---- One call at a time ----

  /** The handles of one builder type, with the source's operations on them. */
  class Arcs<B> {
    var cells: map<Loc, Cell<B>>
    var refs: map<Handle, Loc>
    var nextLoc: Loc
    var nextHandle: Handle

    ghost predicate Valid()
      reads this
    {
      && Counted(cells, refs)
      && (forall l :: l in cells ==> l < nextLoc)
      && (forall h :: h in refs ==> h < nextHandle)
    }

    /** What each handle sees. */
    ghost function View(): map<Handle, B>
      requires Valid()
      reads this
    {
      map h | h in refs :: cells[refs[h]].value
    }

    constructor ()
      ensures Valid() && View() == map[]
    {
      cells, refs := map[], map[];
      nextLoc, nextHandle := 0, 0;
    }

    /** `Arc::new`. */
    method NewArc(value: B) returns (h: Handle)
      requires Valid()
      modifies this
      ensures Valid() && h !in old(refs) && h == old(nextHandle)
      ensures View() == old(View())[h := value]
    {
      h := nextHandle;
      AllocCounted(cells, refs, h, nextLoc, value);
      cells := Alloc(cells, nextLoc, value);
      refs := refs[h := nextLoc];
      nextHandle, nextLoc := nextHandle + 1, nextLoc + 1;
    }

    /** `Arc::clone`. */
    method CloneArc(h: Handle) returns (h': Handle)
      requires Valid() && h in refs
      modifies this
      ensures Valid() && h' !in old(refs)
      ensures View() == old(View())[h' := old(View())[h]]
    {
      h' := nextHandle;
      CloneCounted(cells, refs, h, h');
      var loc := refs[h];
      cells := cells[loc := cells[loc].(strong := cells[loc].strong + 1)];
      refs := refs[h' := loc];
      nextHandle := nextHandle + 1;
    }

    /** Dropping a handle. */
    method DropArc(h: Handle)
      requires Valid() && h in refs
      modifies this
      ensures Valid() && View() == old(View()) - {h}
      ensures nextHandle == old(nextHandle) && refs == old(refs) - {h}
      ensures cells == Release(old(cells), old(refs[h]))
    {
      ReleaseCounted(cells, refs, h);
      cells := Release(cells, refs[h]);
      refs := refs - {h};
    }

    /** `unwrap_or_clone_arc`: the caller gets the builder, every other handle keeps seeing the same. */
    method UnwrapOrCloneArc(h: Handle) returns (b: B)
      requires Valid() && h in refs
      modifies this
      ensures Valid() && b == old(View())[h] && View() == old(View()) - {h}
      ensures nextHandle == old(nextHandle) && refs == old(refs) - {h}
      ensures |old(Holders(refs, refs[h]))| == 1 <==> old(refs[h]) !in cells
    {
      if cells[refs[h]].strong == 1 {
        // `Arc::try_unwrap` succeeds: move the value out of the cell.
        b := cells[refs[h]].value;
        ReleaseCounted(cells, refs, h);
        cells := cells - {refs[h]};
        refs := refs - {h};
      } else {
        b := cells[refs[h]].value;
        DropArc(h);
      }
    }

    /** The body shared by all setters. */
    method CallSetter<S>(assign: (S, B) -> B, setter: S, h: Handle) returns (h': Handle)
      requires Valid() && h in refs
      modifies this
      ensures Valid() && h' !in old(refs)
      ensures View() == (old(View()) - {h})[h' := assign(setter, old(View())[h])]
    {
      var builder := UnwrapOrCloneArc(h);
      builder := assign(setter, builder);
      assert nextHandle !in old(refs);
      h' := NewArc(builder);
    }
  }

  // ---- Interleaved setter calls ----

  /** Where a setter call is: it still shares the old cell, has copied out of it, or owns its builder. */
  datatype Phase<B> = Shared | Copied(copy: B) | Owned(own: B)

  datatype Call<S, B> = Call(setter: S, phase: Phase<B>)

  /** `calls` are the setter calls in progress, by the handle they will return. */
  datatype Heap<S, B> = Heap(cells: map<Loc, Cell<B>>, refs: map<Handle, Loc>, calls: map<Handle, Call<S, B>>)

  datatype Action<S> =
    | New(h: Handle, loc: Loc)
    | CloneHandle(h: Handle, h': Handle)
    | DropHandle(h: Handle)
    | TryUnwrap(h: Handle, setter: S, h': Handle)
    | CopyValue(h': Handle)
    | ReleaseOld(h': Handle)
    | Finish(h': Handle, loc: Loc)

  predicate IsHandle<S, B>(s: Heap<S, B>, h: Handle) { h in s.refs && h !in s.calls }

  predicate Unused<S, B>(s: Heap<S, B>, h: Handle) { h !in s.refs && h !in s.calls }

  predicate Enabled<S, B>(s: Heap<S, B>, a: Action<S>) {
    match a
    case New(h, loc) => Unused(s, h) && loc !in s.cells
    case CloneHandle(h, h') => IsHandle(s, h) && Unused(s, h')
    case DropHandle(h) => IsHandle(s, h)
    case TryUnwrap(h, _, h') => IsHandle(s, h) && Unused(s, h')
    case CopyValue(h') => h' in s.calls && s.calls[h'].phase.Shared?
    case ReleaseOld(h') => h' in s.calls && s.calls[h'].phase.Copied?
    case Finish(h', loc) => h' in s.calls && s.calls[h'].phase.Owned? && loc !in s.cells
  }

  ghost predicate Inv<S, B>(s: Heap<S, B>) {
    && Counted(s.cells, s.refs)
    && (forall r :: r in s.calls ==> (s.calls[r].phase.Owned? <==> r !in s.refs))
    && (forall r :: r in s.calls && s.calls[r].phase.Copied? ==>
          s.calls[r].phase.copy == s.cells[s.refs[r]].value)
  }

  function Step<S, B>(k: Kind<S, B>, s: Heap<S, B>, a: Action<S>): Heap<S, B>
    requires Inv(s) && Enabled(s, a)
  {
    match a
    case New(h, loc) => s.(cells := Alloc(s.cells, loc, k.init), refs := s.refs[h := loc])
    case CloneHandle(h, h') =>
      var loc := s.refs[h];
      s.(cells := s.cells[loc := s.cells[loc].(strong := s.cells[loc].strong + 1)], refs := s.refs[h' := loc])
    case DropHandle(h) => s.(cells := Release(s.cells, s.refs[h]), refs := s.refs - {h})
    case TryUnwrap(h, setter, h') =>
      var loc := s.refs[h];
      if s.cells[loc].strong == 1 then
        Heap(s.cells - {loc}, s.refs - {h}, s.calls[h' := Call(setter, Owned(s.cells[loc].value))])
      else
        Heap(s.cells, (s.refs - {h})[h' := loc], s.calls[h' := Call(setter, Shared)])
    case CopyValue(h') =>
      s.(calls := s.calls[h' := s.calls[h'].(phase := Copied(s.cells[s.refs[h']].value))])
    case ReleaseOld(h') =>
      Heap(Release(s.cells, s.refs[h']), s.refs - {h'},
           s.calls[h' := s.calls[h'].(phase := Owned(s.calls[h'].phase.copy))])
    case Finish(h', loc) =>
      Heap(Alloc(s.cells, loc, k.assign(s.calls[h'].setter, s.calls[h'].phase.own)), s.refs[h' := loc],
           s.calls - {h'})
  }

  lemma StepKeepsInv<S, B>(k: Kind<S, B>, s: Heap<S, B>, a: Action<S>)
    requires Inv(s) && Enabled(s, a)
    ensures Inv(Step(k, s, a))
  {
    match a
    case New(h, loc) => AllocCounted(s.cells, s.refs, h, loc, k.init);
    case CloneHandle(h, h') => CloneCounted(s.cells, s.refs, h, h');
    case DropHandle(h) => ReleaseCounted(s.cells, s.refs, h);
    case TryUnwrap(h, setter, h') =>
      if s.cells[s.refs[h]].strong == 1 {
        ReleaseCounted(s.cells, s.refs, h);
      } else {
        MoveCounted(s.cells, s.refs, h, h');
      }
    case CopyValue(h') =>
    case ReleaseOld(h') => ReleaseCounted(s.cells, s.refs, h');
    case Finish(h', loc) =>
      AllocCounted(s.cells, s.refs, h', loc, k.assign(s.calls[h'].setter, s.calls[h'].phase.own));
  }

  // ---- The immutable reference ----

  /**
    The same program on immutable values: a handle stands for the setters called
    on the way to it, and a call in progress already stands for its result.
   */
  type Histories<S> = map<Handle, seq<S>>

  function PureStep<S>(p: Histories<S>, a: Action<S>): Histories<S> {
    match a
    case New(h, _) => p[h := []]
    case CloneHandle(h, h') => if h in p then p[h' := p[h]] else p
    case DropHandle(h) => p - {h}
    case TryUnwrap(h, setter, h') => if h in p then (p - {h})[h' := p[h] + [setter]] else p
    case CopyValue(_) => p
    case ReleaseOld(_) => p
    case Finish(_, _) => p
  }

  /** The builder a handle or a call in progress stands for. */
  function Denotes<S, B>(k: Kind<S, B>, s: Heap<S, B>, h: Handle): B
    requires Inv(s) && !Unused(s, h)
  {
    if h !in s.calls then s.cells[s.refs[h]].value
    else
      var c := s.calls[h];
      k.assign(c.setter, match c.phase
                       case Shared => s.cells[s.refs[h]].value
                       case Copied(b) => b
                       case Owned(b) => b)
  }

  ghost predicate Represents<S, B>(k: Kind<S, B>, s: Heap<S, B>, p: Histories<S>)
    requires Inv(s)
  {
    && (forall h :: h in p <==> !Unused(s, h))
    && (forall h :: h in p ==> Denotes(k, s, h) == Fold(k.assign, k.init, p[h]))
  }

  lemma FoldSnoc<S, B>(k: Kind<S, B>, history: seq<S>, setter: S)
    ensures Fold(k.assign, k.init, history + [setter]) == k.assign(setter, Fold(k.assign, k.init, history))
  {
    assert (history + [setter])[..|history|] == history;
  }

  /** What a step does to one handle or call. */
  lemma StepDenotes<S, B>(k: Kind<S, B>, s: Heap<S, B>, a: Action<S>, h: Handle)
    requires Inv(s) && Enabled(s, a)
    requires Inv(Step(k, s, a)) && !Unused(Step(k, s, a), h)
    ensures a.New? && h == a.h ==> Denotes(k, Step(k, s, a), h) == k.init
    ensures a.CloneHandle? && h == a.h' ==> Denotes(k, Step(k, s, a), h) == Denotes(k, s, a.h)
    ensures a.TryUnwrap? && h == a.h' ==> Denotes(k, Step(k, s, a), h) == k.assign(a.setter, Denotes(k, s, a.h))
    ensures !(a.New? && h == a.h) && !(a.CloneHandle? && h == a.h') && !(a.TryUnwrap? && h == a.h') ==>
              !Unused(s, h) && Denotes(k, Step(k, s, a), h) == Denotes(k, s, h)
  {
    match a
    case DropHandle(g) => ReleaseCounted(s.cells, s.refs, g);
    case ReleaseOld(g) => ReleaseCounted(s.cells, s.refs, g);
    case New(g, loc) =>
    case CloneHandle(g, g') =>
    case TryUnwrap(g, setter, g') =>
    case CopyValue(g) =>
    case Finish(g, loc) =>
  }

  lemma StepRefines<S, B>(k: Kind<S, B>, s: Heap<S, B>, p: Histories<S>, a: Action<S>)
    requires Inv(s) && Represents(k, s, p) && Enabled(s, a)
    ensures Inv(Step(k, s, a)) && Represents(k, Step(k, s, a), PureStep(p, a))
  {
    StepKeepsInv(k, s, a);
    var s', p' := Step(k, s, a), PureStep(p, a);
    StepHandles(k, s, p, a);
    forall h | h in p' ensures Denotes(k, s', h) == Fold(k.assign, k.init, p'[h]) {
      StepDenotes(k, s, a, h);
      if a.TryUnwrap? && h == a.h' {
        FoldSnoc(k, p[a.h], a.setter);
      }
    }
  }

  lemma StepHandles<S, B>(k: Kind<S, B>, s: Heap<S, B>, p: Histories<S>, a: Action<S>)
    requires Inv(s) && Enabled(s, a)
    requires forall h :: h in p <==> !Unused(s, h)
    ensures forall h :: h in PureStep(p, a) <==> !Unused(Step(k, s, a), h)
  {}

  ghost predicate IsRun<S, B>(k: Kind<S, B>, run: seq<Action<S>>, states: seq<Heap<S, B>>) {
    && |states| == |run| + 1
    && states[0] == Heap(map[], map[], map[])
    && forall i :: 0 <= i < |run| ==>
         Inv(states[i]) && Enabled(states[i], run[i]) && states[i + 1] == Step(k, states[i], run[i])
  }

  function PureRun<S>(run: seq<Action<S>>): Histories<S> {
    if run == [] then map[] else PureStep(PureRun(run[..|run| - 1]), run[|run| - 1])
  }

  /** Every interleaving of clones, drops and setters behaves like the immutable program. */
  lemma {:induction false} RunRefines<S, B>(k: Kind<S, B>, run: seq<Action<S>>, states: seq<Heap<S, B>>, i: nat)
    requires IsRun(k, run, states) && i <= |run|
    ensures Inv(states[i]) && Represents(k, states[i], PureRun(run[..i]))
  {
    if i > 0 {
      RunRefines(k, run, states, i - 1);
      assert run[..i][..i - 1] == run[..i - 1];
      StepRefines(k, states[i - 1], PureRun(run[..i - 1]), run[i - 1]);
    }
  }

  /** No step of anyone changes what another handle sees, whether a cell was reused or copied. */
  lemma HandlesAreImmutable<S, B>(k: Kind<S, B>, run: seq<Action<S>>, states: seq<Heap<S, B>>, i: nat, h: Handle)
    requires IsRun(k, run, states) && i < |run|
    requires IsHandle(states[i], h) && IsHandle(states[i + 1], h)
    ensures Inv(states[i]) && Inv(states[i + 1])
    ensures Denotes(k, states[i + 1], h) == Denotes(k, states[i], h)
  {
    RunRefines(k, run, states, i);
    RunRefines(k, run, states, i + 1);
    assert run[..i + 1][..i] == run[..i];
  }

  /** When the last handle is gone and no call is in progress, every cell was freed. */
  lemma NothingLeaks<S, B>(k: Kind<S, B>, run: seq<Action<S>>, states: seq<Heap<S, B>>, i: nat)
    requires IsRun(k, run, states) && i <= |run|
    requires states[i].refs == map[]
    ensures states[i].cells == map[]
  {
    RunRefines(k, run, states, i);
    forall l: Loc ensures l !in states[i].cells {
      assert Holders(states[i].refs, l) == {};
    }
  }
}

/** The handles of `ClientBuilder`. */
module ClientBuilderHandles {
  import opened Sequences
  import opened BuilderValues
  import ArcHeap

  function Builders(): ArcHeap.Kind<Setter, ClientBuilder> { ArcHeap.Kind(Assign, NEW) }

  /** Seen through a handle, each field holds what the last setter on the way to it wrote. */
  lemma HandleShowsLastSetter(
    run: seq<ArcHeap.Action<Setter>>, states: seq<ArcHeap.Heap<Setter, ClientBuilder>>, i: nat,
    h: ArcHeap.Handle, f: Field)
    requires ArcHeap.IsRun(Builders(), run, states) && i <= |run| && ArcHeap.IsHandle(states[i], h)
    ensures h in ArcHeap.PureRun(run[..i]) && ArcHeap.Inv(states[i])
    ensures var history, seen := ArcHeap.PureRun(run[..i])[h], states[i].cells[states[i].refs[h]].value;
            && (forall n: nat :: IsLast(Setters(f), history, n) ==> Get(f, seen) == Writes(history[n]).1)
            && (Never(Setters(f), history) ==> Get(f, seen) == Get(f, NEW))
  {
    ArcHeap.RunRefines(Builders(), run, states, i);
    LastSetterWins(f, ArcHeap.PureRun(run[..i])[h]);
  }
}
