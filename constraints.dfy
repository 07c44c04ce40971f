/** The merge rule that records a proposed role for a node, and the measures
    that show repeated merging cannot go on for ever. */
module Constraints {
  import opened Terms
  import opened Roles

  /** The recorded roles after a merge, and whether the merge reported a change */
  datatype Update = Update(m: map<Node, Role>, changed: bool)

  /** m2 differs from m1 at most in the entry for n */
  predicate ChangesAtMost(m1: map<Node, Role>, m2: map<Node, Role>, n: Node) {
    m2 == m1 || (n in m2 && m2 == m1[n := m2[n]])
  }

  /** Every node of m1 is still recorded in m2, with the same role or one that
      refines it */
  ghost predicate Refines(lat: Lattice, m1: map<Node, Role>, m2: map<Node, Role>) {
    forall n :: n in m1 ==> n in m2 && (m2[n] == m1[n] || lat.Specialises(m2[n], m1[n]))
  }

  /** Record the proposed role for n. A new node takes the proposal. For a
      node seen before, classes that exclude each other are a conflict, the
      same class or a more general proposal changes nothing, a proposal that
      refines the recorded class replaces it, and unrelated classes are a
      conflict as well. */
  function Merge(lat: Lattice, m: map<Node, Role>, n: Node, proposed: Role): (r: Result<Update>)
    ensures n !in m ==> r == Ok(Update(m[n := proposed], true))
    ensures r.Ok? ==> ChangesAtMost(m, r.value.m, n) && (r.value.m == m || r.value.m[n] == proposed)
    ensures r.Ok? ==> (r.value.changed <==> r.value.m != m)
    ensures r.Ok? ==> Refines(lat, m, r.value.m)
    ensures r.Err? <==>
      n in m && (lat.Inconsistent(m[n], proposed) ||
                 (m[n] != proposed && !lat.Specialises(m[n], proposed) && !lat.Specialises(proposed, m[n])))
    ensures r.Err? ==> r.error == InconsistentTypes(m[n], proposed)
    ensures n in m && r.Ok? && r.value.changed ==> lat.Specialises(proposed, m[n])
    ensures n in m && !lat.Inconsistent(m[n], proposed) && (proposed == m[n] || lat.Specialises(m[n], proposed)) ==>
      r == Ok(Update(m, false))
    ensures n in m && !lat.Inconsistent(m[n], proposed) && proposed != m[n] && !lat.Specialises(m[n], proposed)
            && lat.Specialises(proposed, m[n]) ==>
      r == Ok(Update(m[n := proposed], true))
  {
    if n in m then
      var was := m[n];
      if lat.Inconsistent(was, proposed) then
        Err(InconsistentTypes(was, proposed))
      else if proposed == was then
        Ok(Update(m, false))
      else if lat.Specialises(was, proposed) then
        Ok(Update(m, false))
      else if lat.Specialises(proposed, was) then
        Ok(Update(m[n := proposed], true))
      else
        Err(InconsistentTypes(was, proposed))
    else
      Ok(Update(m[n := proposed], true))
  }

  /** Under a well-founded lattice a consistent proposal that refines the
      recorded role replaces it: the recorded role cannot also refine the
      proposal. */
  lemma MergeRefinement(lat: Lattice, m: map<Node, Role>, n: Node, proposed: Role)
    requires lat.WellFounded() && n in m
    requires lat.Specialises(proposed, m[n]) && !lat.Inconsistent(m[n], proposed)
    ensures Merge(lat, m, n, proposed) == Ok(Update(m[n := proposed], true))
  {
    assert lat.rank(m[n]) < lat.rank(proposed);
  }

  /** Merging the same proposal a second time changes nothing and raises no
      conflict. */
  lemma MergeIdempotent(lat: Lattice, m: map<Node, Role>, n: Node, proposed: Role)
    requires lat.SelfConsistent()
    requires Merge(lat, m, n, proposed).Ok?
    ensures var m' := Merge(lat, m, n, proposed).value.m;
            Merge(lat, m', n, proposed) == Ok(Update(m', false))
  {
  }

  /** A proposal equal to the recorded class is accepted without change. */
  lemma MergeSameClass(lat: Lattice, m: map<Node, Role>, n: Node)
    requires lat.SelfConsistent() && n in m
    ensures Merge(lat, m, n, m[n]) == Ok(Update(m, false))
  {
  }

  /** What a node contributes to the progress measure: nothing while it is
      unrecorded, more the more refined its recorded role. */
  function Weight(lat: Lattice, m: map<Node, Role>, n: Node): nat {
    if n in m then 1 + lat.rank(m[n]) else 0
  }

  function Potential(lat: Lattice, m: map<Node, Role>, ns: seq<Node>): nat {
    if ns == [] then 0 else Weight(lat, m, ns[0]) + Potential(lat, m, ns[1..])
  }

  /** No node of m1 is lost or loses rank in m2 */
  ghost predicate Grows(lat: Lattice, m1: map<Node, Role>, m2: map<Node, Role>) {
    forall n :: n in m1 ==> n in m2 && lat.rank(m1[n]) <= lat.rank(m2[n])
  }

  /** The largest potential ns can reach when no rank exceeds top */
  function Capacity(ns: seq<Node>, top: nat): nat {
    if ns == [] then 0 else 1 + top + Capacity(ns[1..], top)
  }

  lemma {:induction false} PotentialBounded(lat: Lattice, m: map<Node, Role>, ns: seq<Node>, top: nat)
    requires forall r :: lat.rank(r) <= top
    ensures Potential(lat, m, ns) <= Capacity(ns, top)
  {
    if ns != [] {
      PotentialBounded(lat, m, ns[1..], top);
    }
  }

  lemma {:induction false} PotentialGrows(lat: Lattice, m1: map<Node, Role>, m2: map<Node, Role>, ns: seq<Node>)
    requires Grows(lat, m1, m2)
    ensures Potential(lat, m1, ns) <= Potential(lat, m2, ns)
  {
    if ns != [] {
      PotentialGrows(lat, m1, m2, ns[1..]);
    }
  }

  lemma {:induction false} PotentialStrict(lat: Lattice, m1: map<Node, Role>, m2: map<Node, Role>, ns: seq<Node>, n: Node)
    requires Grows(lat, m1, m2) && n in ns && Weight(lat, m1, n) < Weight(lat, m2, n)
    ensures Potential(lat, m1, ns) < Potential(lat, m2, ns)
  {
    if ns[0] == n {
      PotentialGrows(lat, m1, m2, ns[1..]);
    } else {
      PotentialStrict(lat, m1, m2, ns[1..], n);
    }
  }

  /** Under a well-founded lattice, a refinement that touches one node of ns never
      lowers the potential over ns, and raises it when it changes anything. */
  lemma RefinementProgress(lat: Lattice, m1: map<Node, Role>, m2: map<Node, Role>, n: Node, ns: seq<Node>)
    requires lat.WellFounded() && Refines(lat, m1, m2) && ChangesAtMost(m1, m2, n) && n in ns
    ensures Grows(lat, m1, m2)
    ensures Potential(lat, m1, ns) <= Potential(lat, m2, ns)
    ensures m2 != m1 ==> Potential(lat, m1, ns) < Potential(lat, m2, ns)
  {
    PotentialGrows(lat, m1, m2, ns);
    if m2 != m1 {
      if n in m1 {
        assert m1[n := m1[n]] == m1;
      }
      PotentialStrict(lat, m1, m2, ns, n);
    }
  }
}
