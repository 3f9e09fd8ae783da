/** Runs of a state machine whose environment picks the next action. */
module Machines {

  datatype Machine<!S, !A> = Machine(enabled: (S, A) -> bool, next: (S, A) -> S)

  ghost predicate Legal<S, A>(m: Machine<S, A>, s: S, actions: seq<A>)
    decreases |actions|
  {
    actions == [] || (m.enabled(s, actions[0]) && Legal(m, m.next(s, actions[0]), actions[1..]))
  }

  /** The state after all the actions. */
  ghost function After<S, A>(m: Machine<S, A>, s: S, actions: seq<A>): S
    decreases |actions|
  {
    if actions == [] then s else After(m, m.next(s, actions[0]), actions[1..])
  }

  ghost predicate Inductive<S(!new), A(!new)>(m: Machine<S, A>, inv: S -> bool) {
    forall s, a :: inv(s) && m.enabled(s, a) ==> inv(m.next(s, a))
  }

  /** An inductive predicate that holds of a state holds after every run from it. */
  lemma {:induction false} RunKeeps<S(!new), A(!new)>(m: Machine<S, A>, inv: S -> bool, s: S, actions: seq<A>)
    requires Inductive(m, inv) && inv(s) && Legal(m, s, actions)
    ensures inv(After(m, s, actions))
    decreases |actions|
  {
    if actions != [] {
      RunKeeps(m, inv, m.next(s, actions[0]), actions[1..]);
    }
  }

  /** A reflexive and transitive relation that every step from a good state respects holds between the
      two ends of every run. */
  lemma {:induction false} RunRelates<S(!new), A(!new)>(
    m: Machine<S, A>, inv: S -> bool, rel: (S, S) -> bool, s: S, actions: seq<A>)
    requires Inductive(m, inv) && inv(s) && Legal(m, s, actions)
    requires forall x :: rel(x, x)
    requires forall x, y, z :: rel(x, y) && rel(y, z) ==> rel(x, z)
    requires forall x, a :: inv(x) && m.enabled(x, a) ==> rel(x, m.next(x, a))
    ensures rel(s, After(m, s, actions))
    decreases |actions|
  {
    if actions != [] {
      RunRelates(m, inv, rel, m.next(s, actions[0]), actions[1..]);
    }
  }

  lemma {:induction false} RunJoins<S, A>(m: Machine<S, A>, s: S, first: seq<A>, then_: seq<A>)
    ensures After(m, s, first + then_) == After(m, After(m, s, first), then_)
    ensures Legal(m, s, first + then_) <==> Legal(m, s, first) && Legal(m, After(m, s, first), then_)
    decreases |first|
  {
    if first == [] {
      assert first + then_ == then_;
    } else {
      assert (first + then_)[1..] == first[1..] + then_;
      RunJoins(m, m.next(s, first[0]), first[1..], then_);
    }
  }

  // ---- particular runs -------------------------------------------------------------------------

  ghost predicate Leads<S, A>(m: Machine<S, A>, s: S, steps: seq<A>, t: S) {
    Legal(m, s, steps) && After(m, s, steps) == t
  }

  lemma LeadsOne<S, A>(m: Machine<S, A>, s: S, a: A, t: S)
    requires m.enabled(s, a) && m.next(s, a) == t
    ensures Leads(m, s, [a], t)
  {
    assert [a][1..] == [];
    assert Legal(m, t, []) && After(m, t, []) == t;
  }

  lemma LeadsOn<S, A>(m: Machine<S, A>, s: S, first: seq<A>, t: S, then_: seq<A>, u: S)
    requires Leads(m, s, first, t) && Leads(m, t, then_, u)
    ensures Leads(m, s, first + then_, u)
  {
    RunJoins(m, s, first, then_);
  }
}
