/** The analysis as a function of the pattern: one triple, one pass over all
    triples, and passes repeated until a pass ends quietly. This is the
    specification the analyser's loop is proved against. */
module Fixpoint {
  import opened Terms
  import opened Roles
  import opened Classifier
  import opened Constraints

  /** A pass (or the whole analysis) either completes, with the recorded roles
      and the change flag, or aborts on a contradiction, keeping the roles
      recorded up to that point. */
  datatype Outcome =
    | Completed(m: map<Node, Role>, changed: bool)
    | Aborted(m: map<Node, Role>, error: Error)

  /** One triple: classify and merge the subject, then the predicate, then the
      object. Each classification sees the merges before it. Once a merge of
      this triple has reported a change, the later proposals of the triple are
      still computed (and may be rejected) but are not merged, and the flag
      stays set. */
  function Step(lat: Lattice, tr: Translation, m: map<Node, Role>, t: Triple): (r: Outcome)
    ensures forall n :: n in r.m ==> n in m || t.Has(n)
    ensures ChangesAtMost(m, r.m, t.subj) || ChangesAtMost(m, r.m, t.pred) || ChangesAtMost(m, r.m, t.obj)
    ensures Refines(lat, m, r.m)
    ensures r.Completed? ==> (r.changed <==> r.m != m)
  {
    var s := ConstrainSubject(tr, m, t).value;
    match Merge(lat, m, t.subj, s)
    case Err(e) => Aborted(m, e)
    case Ok(u1) =>
      match ConstrainPredicate(tr, u1.m, t)
      case Err(e) => Aborted(u1.m, e)
      case Ok(p) =>
        match (if u1.changed then Ok(u1) else Merge(lat, u1.m, t.pred, p))
        case Err(e) => Aborted(u1.m, e)
        case Ok(u2) =>
          match ConstrainObject(tr, u2.m, t)
          case Err(e) => Aborted(u2.m, e)
          case Ok(o) =>
            match (if u2.changed then Ok(u2) else Merge(lat, u2.m, t.obj, o))
            case Err(e) => Aborted(u2.m, e)
            case Ok(u3) => Completed(u3.m, u3.changed)
  }

  /** One pass over ts, from the first triple to the last. The flag of a
      completed pass is the flag of its last triple alone: each triple
      overwrites it. */
  function Pass(lat: Lattice, tr: Translation, m: map<Node, Role>, ts: seq<Triple>): (r: Outcome)
    ensures forall n :: n in r.m ==> n in m || Mentions(ts, n)
    decreases |ts|
  {
    if ts == [] then Completed(m, false)
    else
      var prefix := ts[..|ts| - 1];
      assert forall t :: t in prefix ==> t in ts;
      match Pass(lat, tr, m, prefix)
      case Aborted(m', e) => Aborted(m', e)
      case Completed(m', _) =>
        assert ts[|ts| - 1] in ts;
        Step(lat, tr, m', ts[|ts| - 1])
  }

  /** A pass that completes with its flag clear leaves nothing for its last
      triple to change: processing that triple again is quiet. */
  lemma PassLastQuiet(lat: Lattice, tr: Translation, m: map<Node, Role>, ts: seq<Triple>)
    requires Pass(lat, tr, m, ts).Completed? && !Pass(lat, tr, m, ts).changed
    ensures var m' := Pass(lat, tr, m, ts).m;
            ts != [] ==> Step(lat, tr, m', ts[|ts| - 1]) == Completed(m', false)
  {
  }

  /** Once a prefix of the pattern aborts, the whole pass aborts the same way. */
  lemma {:induction false} PassAbortPropagates(lat: Lattice, tr: Translation, m: map<Node, Role>, ts: seq<Triple>, j: nat)
    requires j <= |ts| && Pass(lat, tr, m, ts[..j]).Aborted?
    ensures Pass(lat, tr, m, ts) == Pass(lat, tr, m, ts[..j])
    decreases |ts| - j
  {
    if j == |ts| {
      assert ts[..j] == ts;
    } else {
      var prefix := ts[..|ts| - 1];
      assert prefix[..j] == ts[..j];
      PassAbortPropagates(lat, tr, m, prefix, j);
    }
  }

  /** Under a well-founded lattice a pass never lowers the potential over the
      pattern's nodes, and a pass that reports a change raises it. */
  lemma {:induction false} PassProgress(lat: Lattice, tr: Translation, m: map<Node, Role>, ts: seq<Triple>, ns: seq<Node>)
    requires lat.WellFounded() && Covers(ns, ts)
    ensures Grows(lat, m, Pass(lat, tr, m, ts).m)
    ensures Potential(lat, m, ns) <= Potential(lat, Pass(lat, tr, m, ts).m, ns)
    ensures Pass(lat, tr, m, ts).Completed? && Pass(lat, tr, m, ts).changed ==>
      Potential(lat, m, ns) < Potential(lat, Pass(lat, tr, m, ts).m, ns)
    decreases |ts|
  {
    if ts != [] {
      var prefix, last := ts[..|ts| - 1], ts[|ts| - 1];
      assert forall t :: t in prefix ==> t in ts;
      PassProgress(lat, tr, m, prefix, ns);
      match Pass(lat, tr, m, prefix)
      case Aborted(_, _) =>
      case Completed(m1, _) =>
        assert last in ts;
        var m2 := Step(lat, tr, m1, last).m;
        if ChangesAtMost(m1, m2, last.subj) {
          RefinementProgress(lat, m1, m2, last.subj, ns);
        } else if ChangesAtMost(m1, m2, last.pred) {
          RefinementProgress(lat, m1, m2, last.pred, ns);
        } else {
          RefinementProgress(lat, m1, m2, last.obj, ns);
        }
    }
  }

  /** How far the recorded roles still are from the largest potential the
      pattern's nodes allow. */
  function Slack(lat: Lattice, m: map<Node, Role>, ts: seq<Triple>): nat {
    lat.RankBounded();
    PotentialBounded(lat, m, NodesOf(ts), lat.MaxRank());
    Capacity(NodesOf(ts), lat.MaxRank()) - Potential(lat, m, NodesOf(ts))
  }

  /** The whole analysis from the recorded roles m: passes are repeated while
      a pass completes with its flag set. An aborted analysis keeps what was
      recorded before the contradiction. Either way only nodes of the pattern
      are recorded, and no recorded role is lost or made more general. */
  function Run(lat: Lattice, tr: Translation, ts: seq<Triple>, m: map<Node, Role>): (r: Outcome)
    requires lat.WellFounded()
    ensures forall n :: n in r.m ==> n in m || Mentions(ts, n)
    ensures Grows(lat, m, r.m)
    ensures r.Completed? ==> !r.changed
    ensures r.Completed? && ts == [] ==> r.m == m
    decreases Slack(lat, m, ts)
  {
    NodesOfCovers(ts);
    PassProgress(lat, tr, m, ts, NodesOf(ts));
    match Pass(lat, tr, m, ts)
    case Aborted(m', e) => Aborted(m', e)
    case Completed(m', changed) =>
      if changed then Run(lat, tr, ts, m') else Completed(m', false)
  }

  /** A completed analysis leaves the last triple with nothing left to change:
      processing it once more is quiet. */
  lemma {:induction false} RunLastQuiet(lat: Lattice, tr: Translation, ts: seq<Triple>, m: map<Node, Role>)
    requires lat.WellFounded() && Run(lat, tr, ts, m).Completed? && ts != []
    ensures var m' := Run(lat, tr, ts, m).m;
            Step(lat, tr, m', ts[|ts| - 1]) == Completed(m', false)
    decreases Slack(lat, m, ts)
  {
    NodesOfCovers(ts);
    PassProgress(lat, tr, m, ts, NodesOf(ts));
    var p := Pass(lat, tr, m, ts);
    if p.changed {
      RunLastQuiet(lat, tr, ts, p.m);
    } else {
      PassLastQuiet(lat, tr, m, ts);
    }
  }

  /** A pass that aborts ends the analysis with the same outcome. */
  lemma RunAborts(lat: Lattice, tr: Translation, ts: seq<Triple>, m: map<Node, Role>)
    requires lat.WellFounded() && Pass(lat, tr, m, ts).Aborted?
    ensures Run(lat, tr, ts, m) == Pass(lat, tr, m, ts)
  {
  }

  /** A pass that completes with its flag set hands over to the next pass;
      one that completes with its flag clear ends the analysis. */
  lemma RunAfterPass(lat: Lattice, tr: Translation, ts: seq<Triple>, m: map<Node, Role>)
    requires lat.WellFounded() && Pass(lat, tr, m, ts).Completed?
    ensures var p := Pass(lat, tr, m, ts);
            Run(lat, tr, ts, m) == (if p.changed then Run(lat, tr, ts, p.m) else Completed(p.m, false))
  {
  }

  /** A pass never increases the slack, and a pass that completes with its
      flag set decreases it: this bounds the number of passes. */
  lemma PassReducesSlack(lat: Lattice, tr: Translation, ts: seq<Triple>, m: map<Node, Role>)
    requires lat.WellFounded()
    ensures var p := Pass(lat, tr, m, ts);
            && Slack(lat, p.m, ts) <= Slack(lat, m, ts)
            && (p.Completed? && p.changed ==> Slack(lat, p.m, ts) < Slack(lat, m, ts))
  {
    NodesOfCovers(ts);
    PassProgress(lat, tr, m, ts, NodesOf(ts));
  }
}
