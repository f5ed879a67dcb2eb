/** Ownership of completions by iop objects: construction, moves, swaps and destruction. */
module Iops {
  import opened Basics

  type Ptr = nat

  /** An iop object; a moved-from one holds nothing. */
  class Iop {
    var comp: Option<Ptr>

    constructor (c: Ptr)
      ensures comp == Some(c)
    {
      comp := Some(c);
    }

    /** iop(iop &&i): std::exchange */
    constructor Move(i: Iop)
      modifies i
      ensures comp == old(i.comp) && i.comp == None
    {
      comp := i.comp;
      new;
      i.comp := None;
    }

    /** operator=(iop &&i): std::swap, also with itself */
    method MoveAssign(i: Iop)
      modifies this, i
      ensures comp == old(i.comp) && i.comp == old(comp)
    {
      var tmp := i.comp;
      i.comp := comp;
      comp := tmp;
    }
  }

  // ----- Any program over iops -----

  datatype Slot = Gone | Live(comp: Option<Ptr>)

  /** `iops` lists every iop object ever built; `hooked` every completion handed to its destruction hook. */
  datatype Program = Program(iops: seq<Slot>, next: Ptr, hooked: seq<Ptr>)

  datatype Event = Build | MoveConstruct(i: nat) | MoveAssign(i: nat, j: nat) | Destroy(i: nat)

  predicate Alive(s: Program, i: nat) {
    i < |s.iops| && s.iops[i].Live?
  }

  predicate Enabled(s: Program, e: Event) {
    match e
    case Build => true
    case MoveConstruct(i) => Alive(s, i)
    case MoveAssign(i, j) => Alive(s, i) && Alive(s, j)
    case Destroy(i) => Alive(s, i)
  }

  function Apply(s: Program, e: Event): Program
    requires Enabled(s, e)
  {
    match e
    case Build => s.(iops := s.iops + [Live(Some(s.next))], next := s.next + 1)
    case MoveConstruct(i) => s.(iops := s.iops[i := Live(None)] + [s.iops[i]])
    case MoveAssign(i, j) => s.(iops := s.iops[i := s.iops[j]][j := s.iops[i]])
    case Destroy(i) =>
      s.(iops := s.iops[i := Gone],
         hooked := match s.iops[i].comp case Some(p) => s.hooked + [p] case None => s.hooked)
  }

  function Run(es: seq<Event>): Option<Program> {
    if es == [] then Some(Program([], 0, []))
    else match Run(es[..|es| - 1])
      case Some(s) => if Enabled(s, es[|es| - 1]) then Some(Apply(s, es[|es| - 1])) else None
      case None => None
  }

  /** How many iops hold p, plus how often its destruction hook ran. */
  ghost function Claims(s: Program, p: Ptr): nat {
    multiset(s.iops)[Live(Some(p))] + multiset(s.hooked)[p]
  }

  lemma Updated(iops: seq<Slot>, i: nat, x: Slot, w: Slot)
    requires i < |iops|
    ensures multiset(iops[i := x])[w] + (if iops[i] == w then 1 else 0) == multiset(iops)[w] + (if x == w then 1 else 0)
  {
    assert multiset(iops[i := x]) == multiset(iops) - multiset{iops[i]} + multiset{x};
  }

  lemma Swapped(iops: seq<Slot>, i: nat, j: nat, w: Slot)
    requires i < |iops| && j < |iops|
    ensures multiset(iops[i := iops[j]][j := iops[i]])[w] == multiset(iops)[w]
  {
    Updated(iops, i, iops[j], w);
    Updated(iops[i := iops[j]], j, iops[i], w);
  }

  lemma DestroyKeepsClaims(s: Program, i: nat, p: Ptr)
    requires Alive(s, i)
    ensures Claims(Apply(s, Destroy(i)), p) == Claims(s, p)
  {
    Updated(s.iops, i, Gone, Live(Some(p)));
    assert Apply(s, Destroy(i)).hooked == match s.iops[i].comp case Some(q) => s.hooked + [q] case None => s.hooked;
  }

  lemma StepKeepsClaims(s: Program, e: Event, p: Ptr)
    requires Enabled(s, e)
    ensures Claims(Apply(s, e), p) == Claims(s, p) + if e.Build? && p == s.next then 1 else 0
  {
    match e
    case Build =>
    case MoveConstruct(i) => Updated(s.iops, i, Live(None), Live(Some(p)));
    case MoveAssign(i, j) => Swapped(s.iops, i, j, Live(Some(p)));
    case Destroy(i) => DestroyKeepsClaims(s, i, p);
  }

  /** However iops are moved, swapped and destroyed, each completion has one owner until its hook runs, once. */
  lemma {:induction false} OneOwnerUntilHooked(es: seq<Event>, p: Ptr)
    requires Run(es).Some?
    ensures Claims(Run(es).value, p) == if p < Run(es).value.next then 1 else 0
  {
    if es != [] {
      OneOwnerUntilHooked(es[..|es| - 1], p);
      StepKeepsClaims(Run(es[..|es| - 1]).value, es[|es| - 1], p);
    }
  }

  lemma RunExtends(es: seq<Event>, e: Event)
    requires Run(es).Some? && Enabled(Run(es).value, e)
    ensures Run(es + [e]) == Some(Apply(Run(es).value, e))
  {
    assert (es + [e])[..|es|] == es;
  }

  /** Code that builds, moves and destroys iops; `trace` is the program it has performed so far. */
  class Client {
    var iops: seq<Iop>                  // every iop ever built, destroyed or not
    ghost var slots: seq<Slot>
    ghost var next: Ptr
    ghost var hooked: seq<Ptr>
    ghost var trace: seq<Event>

    ghost predicate Distinct()
      reads this
    {
      forall i, j :: 0 <= i < j < |iops| ==> iops[i] != iops[j]
    }

    /** The objects hold what Run(trace) says. */
    ghost predicate Valid()
      reads this, iops
    {
      && Distinct() && |slots| == |iops|
      && (forall i :: 0 <= i < |iops| && slots[i].Live? ==> slots[i].comp == iops[i].comp)
      && Run(trace) == Some(Program(slots, next, hooked))
    }

    ghost method Commit(e: Event)
      requires Run(trace).Some? && Enabled(Run(trace).value, e)
      modifies this`trace, this`slots, this`next, this`hooked
      ensures trace == old(trace) + [e] && Run(trace) == Some(Program(slots, next, hooked))
      ensures Program(slots, next, hooked) == Apply(old(Run(trace)).value, e)
    {
      var t := Apply(Run(trace).value, e);
      RunExtends(trace, e);
      trace, slots, next, hooked := trace + [e], t.iops, t.next, t.hooked;
    }

    constructor ()
      ensures Valid() && trace == []
    {
      iops, slots, next, hooked, trace := [], [], 0, [], [];
    }

    /** An iop around the completion just allocated at p. */
    method BuildIop(p: Ptr)
      requires Valid() && p == next
      modifies this
      ensures Valid() && trace == old(trace) + [Build] && fresh(iops[|iops| - 1])
    {
      var i := new Iop(p);
      iops := iops + [i];
      Commit(Build);
    }

    method MoveIop(i: nat)
      requires Valid() && i < |iops| && slots[i].Live?
      modifies this, iops[i]
      ensures Valid() && trace == old(trace) + [MoveConstruct(i)] && fresh(iops[|iops| - 1])
    {
      var moved := new Iop.Move(iops[i]);
      iops := iops + [moved];
      Commit(MoveConstruct(i));
    }

    method AssignIop(i: nat, j: nat)
      requires Valid() && i < |iops| && slots[i].Live? && j < |iops| && slots[j].Live?
      modifies this, iops[i], iops[j]
      ensures Valid() && trace == old(trace) + [MoveAssign(i, j)] && iops == old(iops)
    {
      iops[i].MoveAssign(iops[j]);
      Commit(MoveAssign(i, j));
    }

    /** ~iop: the completion, if it still holds one, has its destruction hook run. */
    method DestroyIop(i: nat) returns (hook: Option<Ptr>)
      requires Valid() && i < |iops| && slots[i].Live?
      modifies this
      ensures Valid() && trace == old(trace) + [Destroy(i)] && iops == old(iops)
      ensures hooked == old(hooked) + match hook case Some(p) => [p] case None => []
    {
      hook := iops[i].comp;
      Commit(Destroy(i));
    }
  }
}
