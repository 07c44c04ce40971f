/** The interpretation classes a pattern node can be given, the relations the
    classes declare about each other, and the two contradictions the analyser
    can raise. */
module Roles {
  import opened Terms

  /** One tag per interpretation class. Subject, Predicate and Object say only
      where a node occurs; the others say what it stands for in the tabular
      source. */
  datatype Role =
    | Subject | Predicate | Object
    | ContainerTable | ContainerRow
    | SlotColumn | SlotRow | SlotValue
    | TypeTable | TypeProperty | FXRoot

  const AllRoles: seq<Role> :=
    [Subject, Predicate, Object, ContainerTable, ContainerRow,
     SlotColumn, SlotRow, SlotValue, TypeTable, TypeProperty, FXRoot]

  /** What every interpretation class declares: inconsistentTypes(a) is the
      set of classes a can never coexist with on one node, specialisationOf(a)
      the set of classes a refines. The classes themselves are not part of
      this model, so these are parameters; rank is a witness that refinement
      never goes round in a circle. */
  datatype Lattice = Lattice(
    inconsistentTypes: Role -> set<Role>,
    specialisationOf: Role -> set<Role>,
    rank: Role -> nat)
  {
    /** A refinement always has a higher rank than what it refines: refinement
        never goes round in a circle, so the passes of the analysis end. */
    ghost predicate WellFounded() {
      forall a, b | b in specialisationOf(a) :: rank(b) < rank(a)
    }

    /** No class is inconsistent with itself, so proposing the recorded class
        again is accepted. */
    ghost predicate SelfConsistent() {
      forall r :: r !in inconsistentTypes(r)
    }

    /** Both hypotheses together */
    ghost predicate Valid() {
      WellFounded() && SelfConsistent()
    }

    /** Either class lists the other as inconsistent with it */
    predicate Inconsistent(was: Role, proposed: Role) {
      proposed in inconsistentTypes(was) || was in inconsistentTypes(proposed)
    }

    /** a refines b */
    predicate Specialises(a: Role, b: Role) {
      b in specialisationOf(a)
    }

    function MaxRank(): nat {
      MaxOf(rank, AllRoles)
    }

    lemma RankBounded()
      ensures forall r :: rank(r) <= MaxRank()
    {
      forall r
        ensures rank(r) <= MaxRank()
      {
        assert r in AllRoles by {
          match r
          case Subject => case Predicate => case Object =>
          case ContainerTable => case ContainerRow =>
          case SlotColumn => case SlotRow => case SlotValue =>
          case TypeTable => case TypeProperty => case FXRoot =>
        }
      }
    }
  }

  function MaxOf(f: Role -> nat, rs: seq<Role>): (m: nat)
    ensures forall r :: r in rs ==> f(r) <= m
  {
    if rs == [] then 0
    else
      var rest := MaxOf(f, rs[1..]);
      if f(rs[0]) < rest then rest else f(rs[0])
  }

  /** The two contradictions. An unrecognised entity carries the offending
      node and a reason; a type conflict carries the class held before and
      the class proposed. */
  datatype Error =
    | InconsistentEntity(node: Node, reason: string)
    | InconsistentTypes(wasType: Role, isType: Role)

  datatype Result<T> = Ok(value: T) | Err(error: Error)

  datatype Option<T> = None | Some(value: T)
}
