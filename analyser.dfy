/** The analyser object: it owns the pattern, the naming conventions and the
    map of recorded roles, and fills that map in place when it is built. */
module Analyser {
  import opened Terms
  import opened Roles
  import opened Classifier
  import opened Constraints
  import opened Fixpoint

  class BGPAnalyser {
    const lattice: Lattice
    const translation: Translation
    const triples: seq<Triple>

    var constraints: map<Node, Role>
    var exception: Option<Error>

    /** The state the constructor leaves: the map and the exception are what
        the analysis of the pattern from an empty map yields. */
    ghost predicate Valid()
      reads this
    {
      && lattice.WellFounded()
      && var r := Run(lattice, translation, triples, map[]);
      && constraints == r.m
      && exception == (if r.Aborted? then Some(r.error) else None)
    }

    constructor (lattice: Lattice, translation: Translation, triples: seq<Triple>)
      requires lattice.WellFounded()
      ensures this.lattice == lattice && this.translation == translation && this.triples == triples
      ensures Valid()
    {
      this.lattice := lattice;
      this.translation := translation;
      this.triples := triples;
      constraints := map[];
      exception := None;
      new;
      Interpret();
    }

    /** The recorded roles, also after a contradiction (then as far as the
        analysis got). Every recorded node is a node of the pattern. */
    function Interpretations(): (r: map<Node, Role>)
      requires Valid()
      reads this
      ensures forall n :: n in r ==> Mentions(triples, n)
      ensures r == Run(lattice, translation, triples, map[]).m
    {
      constraints
    }

    /** Whether the analysis raised a contradiction */
    predicate IsException()
      requires Valid()
      reads this
      ensures IsException() <==> Run(lattice, translation, triples, map[]).Aborted?
    {
      exception.Some?
    }

    /** Without a contradiction, the analysis ends only when its last triple
        has nothing left to change. */
    lemma LastTripleSettled()
      requires Valid() && !IsException() && triples != []
      ensures Step(lattice, translation, constraints, triples[|triples| - 1]) == Completed(constraints, false)
    {
      RunLastQuiet(lattice, translation, triples, map[]);
    }

    /** Record a proposed role for node in place, as Merge specifies: on a
        conflict the map is left as it was. */
    method UpdateConstraint(node: Node, constraint: Role) returns (r: Result<bool>)
      modifies this`constraints
      ensures var u := Merge(lattice, old(constraints), node, constraint);
              && (u.Ok? ==> r == Ok(u.value.changed) && constraints == u.value.m)
              && (u.Err? ==> r == Err(u.error) && constraints == old(constraints))
    {
      if node in constraints {
        var previous := constraints[node];
        if lattice.Inconsistent(previous, constraint) {
          return Err(InconsistentTypes(previous, constraint));
        }
        if constraint == previous {
          return Ok(false);
        } else if lattice.Specialises(previous, constraint) {
          return Ok(false);
        } else if lattice.Specialises(constraint, previous) {
          constraints := constraints[node := constraint];
          return Ok(true);
        } else {
          return Err(InconsistentTypes(previous, constraint));
        }
      } else {
        constraints := constraints[node := constraint];
        return Ok(true);
      }
    }

    /** The body of a pass for one triple (classify and merge subject,
        predicate, object), as Step specifies; a contradiction is returned
        instead of thrown. */
    method InterpretTriple(triple: Triple) returns (lookForConstraints: bool, failure: Option<Error>)
      modifies this`constraints
      ensures Step(lattice, translation, old(constraints), triple) ==
        if failure.Some? then Aborted(constraints, failure.value) else Completed(constraints, lookForConstraints)
    {
      failure := None;
      var subjectInterpretation := ConstrainSubject(translation, constraints, triple).value;
      var updated := UpdateConstraint(triple.subj, subjectInterpretation);
      if updated.Err? {
        return false, Some(updated.error);
      }
      lookForConstraints := updated.value;
      var predicateInterpretation := ConstrainPredicate(translation, constraints, triple);
      if predicateInterpretation.Err? {
        return false, Some(predicateInterpretation.error);
      }
      if !lookForConstraints {
        updated := UpdateConstraint(triple.pred, predicateInterpretation.value);
        if updated.Err? {
          return false, Some(updated.error);
        }
        lookForConstraints := updated.value;
      }
      var objectInterpretation := ConstrainObject(translation, constraints, triple);
      if objectInterpretation.Err? {
        return false, Some(objectInterpretation.error);
      }
      if !lookForConstraints {
        updated := UpdateConstraint(triple.obj, objectInterpretation.value);
        if updated.Err? {
          return false, Some(updated.error);
        }
        lookForConstraints := updated.value;
      }
    }

    /** One pass: the for loop over all triples, in order. The flag it
        returns is the one the last triple left. */
    method InterpretPass() returns (lookForConstraints: bool, failure: Option<Error>)
      modifies this`constraints
      ensures Pass(lattice, translation, old(constraints), triples) ==
        if failure.Some? then Aborted(constraints, failure.value) else Completed(constraints, lookForConstraints)
    {
      lookForConstraints, failure := false, None;
      for i := 0 to |triples|
        invariant failure == None
        invariant Pass(lattice, translation, old(constraints), triples[..i]) == Completed(constraints, lookForConstraints)
      {
        assert triples[..i + 1][..i] == triples[..i];
        lookForConstraints, failure := InterpretTriple(triples[i]);
        if failure.Some? {
          PassAbortPropagates(lattice, translation, old(constraints), triples, i + 1);
          return;
        }
      }
      assert triples[..|triples|] == triples;
    }

    /** Run passes over the triples until a pass ends with its last triple
        reporting no change, or until a contradiction, which is stored. */
    method Interpret()
      requires lattice.WellFounded() && exception == None
      modifies this`constraints, this`exception
      ensures Valid()
    {
      constraints := map[];
      ghost var result := Run(lattice, translation, triples, map[]);
      var lookForConstraints := true;
      while lookForConstraints
        invariant exception == None
        invariant lookForConstraints ==> result == Run(lattice, translation, triples, constraints)
        invariant !lookForConstraints ==> result == Completed(constraints, false)
        decreases Slack(lattice, constraints, triples), lookForConstraints
      {
        ghost var start := constraints;
        var failure;
        lookForConstraints, failure := InterpretPass();
        if failure.Some? {
          exception := failure;
          RunAborts(lattice, translation, triples, start);
          return;
        }
        RunAfterPass(lattice, translation, triples, start);
        PassReducesSlack(lattice, translation, triples, start);
      }
    }
  }
}
