/** Whole analyses of small patterns, worked out on the model. The classes of
    the lattice are not part of the model, so each lemma assumes only the
    relations between the classes it needs. */
module Scenarios {
  import opened Terms
  import opened Roles
  import opened Classifier
  import opened Constraints
  import opened Fixpoint

  /** A pass over two triples is the second step after the first. */
  lemma PassOfTwo(lat: Lattice, tr: Translation, m: map<Node, Role>, t1: Triple, t2: Triple)
    ensures Pass(lat, tr, m, [t1, t2]) ==
      match Step(lat, tr, m, t1)
      case Aborted(m', e) => Aborted(m', e)
      case Completed(m', _) => Step(lat, tr, m', t2)
  {
    var ts := [t1, t2];
    assert ts[..|ts| - 1] == [t1];
    assert [t1][..0] == [];
    assert Pass(lat, tr, m, [t1]) == Step(lat, tr, m, t1);
  }

  /** A triple of variables, except that the object may be a literal */
  predicate Plain(t: Triple) {
    t.subj.Var? && t.pred.Var? && (t.obj.Var? || t.obj.Literal?)
  }

  /** The role a plain object receives when nothing is known about its predicate */
  function PlainObjectRole(o: Node): (r: Role)
    ensures r == Object || r == SlotValue
    ensures r == SlotValue <==> o.Literal?
  {
    if o.Literal? then SlotValue else Object
  }

  /** The relations between roles that the patterns below exercise */
  ghost predicate RowAndColumnRefine(lat: Lattice) {
    && lat.Valid()
    && lat.Specialises(ContainerRow, Subject) && !lat.Inconsistent(Subject, ContainerRow)
    && lat.Specialises(SlotColumn, Predicate) && !lat.Inconsistent(Predicate, SlotColumn)
  }

  /** A plain triple whose nodes are all unknown records its subject only: the
      change reported for the subject skips the other two merges. */
  lemma NewTripleRecordsSubject(lat: Lattice, tr: Translation, m: map<Node, Role>, t: Triple)
    requires Plain(t) && t.subj !in m && t.pred !in m && t.obj !in m
    ensures Step(lat, tr, m, t) == Completed(m[t.subj := Subject], true)
  {
  }

  /** Once its subject is known, a plain triple records its predicate only. */
  lemma KnownSubjectRecordsPredicate(lat: Lattice, tr: Translation, m: map<Node, Role>, t: Triple)
    requires lat.Valid() && Plain(t)
    requires InterpretedAs(m, t.subj, Subject) && t.pred !in m && t.obj !in m
    ensures Step(lat, tr, m, t) == Completed(m[t.pred := Predicate], true)
  {
  }

  /** Once its subject and predicate are known, a plain triple records its object. */
  lemma KnownPredicateRecordsObject(lat: Lattice, tr: Translation, m: map<Node, Role>, t: Triple)
    requires lat.Valid() && Plain(t)
    requires InterpretedAs(m, t.subj, Subject) && InterpretedAs(m, t.pred, Predicate) && t.obj !in m
    ensures Step(lat, tr, m, t) == Completed(m[t.obj := PlainObjectRole(t.obj)], true)
  {
  }

  /** A value object makes its subject a row. */
  lemma ValueMakesRow(lat: Lattice, tr: Translation, m: map<Node, Role>, t: Triple)
    requires RowAndColumnRefine(lat) && Plain(t)
    requires InterpretedAs(m, t.subj, Subject) && InterpretedAs(m, t.pred, Predicate) && InterpretedAs(m, t.obj, SlotValue)
    ensures Step(lat, tr, m, t) == Completed(m[t.subj := ContainerRow], true)
  {
    MergeRefinement(lat, m, t.subj, ContainerRow);
  }

  /** A value object makes its predicate a column, once its subject is a row. */
  lemma ValueMakesColumn(lat: Lattice, tr: Translation, m: map<Node, Role>, t: Triple)
    requires RowAndColumnRefine(lat) && Plain(t)
    requires InterpretedAs(m, t.subj, ContainerRow) && InterpretedAs(m, t.pred, Predicate) && InterpretedAs(m, t.obj, SlotValue)
    ensures Step(lat, tr, m, t) == Completed(m[t.pred := SlotColumn], true)
  {
    MergeRefinement(lat, m, t.pred, SlotColumn);
  }

  /** A triple of variables whose roles are all recorded, and unrefined, is quiet. */
  lemma SettledTripleQuiet(lat: Lattice, tr: Translation, m: map<Node, Role>, t: Triple)
    requires lat.Valid() && Plain(t) && t.obj.Var?
    requires InterpretedAs(m, t.subj, Subject) && InterpretedAs(m, t.pred, Predicate) && InterpretedAs(m, t.obj, Object)
    ensures Step(lat, tr, m, t) == Completed(m, false)
  {
    MergeSameClass(lat, m, t.subj);
    MergeSameClass(lat, m, t.pred);
    MergeSameClass(lat, m, t.obj);
  }

  /** The predicate's classifier runs even when the subject's merge reported a
      change: a named predicate that matches no convention aborts the triple,
      and the subject recorded just before stays recorded. */
  lemma UnknownPredicateAbortsAfterSubject(lat: Lattice, tr: Translation, m: map<Node, Role>, t: Triple)
    requires t.subj.Var? && t.pred.URI? && (t.obj.Var? || t.obj.Literal?)
    requires t.subj !in m && t.pred !in m && t.obj !in m
    requires !tr.nodeSlotIsRowNum(t.pred) && !tr.nodeSlotIsColumn(t.pred) && !tr.nodeSlotIsTypeProperty(t.pred)
    ensures Step(lat, tr, m, t) == Aborted(m[t.subj := Subject], InconsistentEntity(t.pred, UnknownEntity))
  {
  }

  /** Five different variables */
  ghost predicate DistinctVars(x: Node, q: Node, s: Node, p: Node, o: Node) {
    && x.Var? && q.Var? && s.Var? && p.Var? && o.Var?
    && x != q && x != s && x != p && x != o && q != s && q != p && q != o && s != p && s != o && p != o
  }

  /** The passes over { ?x ?q "v" . ?s ?p ?o }: each pass records one node per triple. */
  lemma QuietPass1(lat: Lattice, tr: Translation, m: map<Node, Role>, x: Node, q: Node, v: Node, s: Node, p: Node, o: Node)
    requires DistinctVars(x, q, s, p, o) && v.Literal?
    requires x !in m && q !in m && v !in m && s !in m && p !in m && o !in m
    ensures Pass(lat, tr, m, [Triple(x, q, v), Triple(s, p, o)]) == Completed(m[x := Subject][s := Subject], true)
  {
    PassOfTwo(lat, tr, m, Triple(x, q, v), Triple(s, p, o));
    NewTripleRecordsSubject(lat, tr, m, Triple(x, q, v));
    NewTripleRecordsSubject(lat, tr, m[x := Subject], Triple(s, p, o));
  }

  lemma QuietPass2(lat: Lattice, tr: Translation, m: map<Node, Role>, x: Node, q: Node, v: Node, s: Node, p: Node, o: Node)
    requires lat.Valid() && DistinctVars(x, q, s, p, o) && v.Literal?
    requires InterpretedAs(m, x, Subject) && InterpretedAs(m, s, Subject) && q !in m && v !in m && p !in m && o !in m
    ensures Pass(lat, tr, m, [Triple(x, q, v), Triple(s, p, o)]) == Completed(m[q := Predicate][p := Predicate], true)
  {
    PassOfTwo(lat, tr, m, Triple(x, q, v), Triple(s, p, o));
    KnownSubjectRecordsPredicate(lat, tr, m, Triple(x, q, v));
    KnownSubjectRecordsPredicate(lat, tr, m[q := Predicate], Triple(s, p, o));
  }

  lemma QuietPass3(lat: Lattice, tr: Translation, m: map<Node, Role>, x: Node, q: Node, v: Node, s: Node, p: Node, o: Node)
    requires lat.Valid() && DistinctVars(x, q, s, p, o) && v.Literal?
    requires InterpretedAs(m, x, Subject) && InterpretedAs(m, s, Subject)
    requires InterpretedAs(m, q, Predicate) && InterpretedAs(m, p, Predicate) && v !in m && o !in m
    ensures Pass(lat, tr, m, [Triple(x, q, v), Triple(s, p, o)]) == Completed(m[v := SlotValue][o := Object], true)
  {
    PassOfTwo(lat, tr, m, Triple(x, q, v), Triple(s, p, o));
    KnownPredicateRecordsObject(lat, tr, m, Triple(x, q, v));
    KnownPredicateRecordsObject(lat, tr, m[v := SlotValue], Triple(s, p, o));
  }

  /** In the fourth pass the first triple makes ?x a row, and the second has
      nothing left to add, so the pass ends with its flag clear. */
  lemma QuietPass4(lat: Lattice, tr: Translation, m: map<Node, Role>, x: Node, q: Node, v: Node, s: Node, p: Node, o: Node)
    requires RowAndColumnRefine(lat) && DistinctVars(x, q, s, p, o) && v.Literal?
    requires InterpretedAs(m, x, Subject) && InterpretedAs(m, s, Subject)
    requires InterpretedAs(m, q, Predicate) && InterpretedAs(m, p, Predicate)
    requires InterpretedAs(m, v, SlotValue) && InterpretedAs(m, o, Object)
    ensures Pass(lat, tr, m, [Triple(x, q, v), Triple(s, p, o)]) == Completed(m[x := ContainerRow], false)
  {
    PassOfTwo(lat, tr, m, Triple(x, q, v), Triple(s, p, o));
    ValueMakesRow(lat, tr, m, Triple(x, q, v));
    SettledTripleQuiet(lat, tr, m[x := ContainerRow], Triple(s, p, o));
  }

  /** From the start of the fourth pass, the analysis completes with ?x a row. */
  lemma RunFromPass4(lat: Lattice, tr: Translation, m: map<Node, Role>, x: Node, q: Node, v: Node, s: Node, p: Node, o: Node)
    requires RowAndColumnRefine(lat) && DistinctVars(x, q, s, p, o) && v.Literal?
    requires InterpretedAs(m, x, Subject) && InterpretedAs(m, s, Subject)
    requires InterpretedAs(m, q, Predicate) && InterpretedAs(m, p, Predicate)
    requires InterpretedAs(m, v, SlotValue) && InterpretedAs(m, o, Object)
    ensures Run(lat, tr, [Triple(x, q, v), Triple(s, p, o)], m) == Completed(m[x := ContainerRow], false)
  {
    QuietPass4(lat, tr, m, x, q, v, s, p, o);
    RunAfterPass(lat, tr, [Triple(x, q, v), Triple(s, p, o)], m);
  }

  lemma RunFromPass3(lat: Lattice, tr: Translation, m: map<Node, Role>, x: Node, q: Node, v: Node, s: Node, p: Node, o: Node)
    requires RowAndColumnRefine(lat) && DistinctVars(x, q, s, p, o) && v.Literal?
    requires InterpretedAs(m, x, Subject) && InterpretedAs(m, s, Subject)
    requires InterpretedAs(m, q, Predicate) && InterpretedAs(m, p, Predicate) && v !in m && o !in m
    ensures Run(lat, tr, [Triple(x, q, v), Triple(s, p, o)], m) ==
            Completed(m[v := SlotValue][o := Object][x := ContainerRow], false)
  {
    var m' := m[v := SlotValue][o := Object];
    assert InterpretedAs(m', x, Subject) && InterpretedAs(m', s, Subject);
    assert InterpretedAs(m', q, Predicate) && InterpretedAs(m', p, Predicate);
    assert InterpretedAs(m', v, SlotValue) && InterpretedAs(m', o, Object);
    RunFromPass4(lat, tr, m', x, q, v, s, p, o);
    QuietPass3(lat, tr, m, x, q, v, s, p, o);
    RunAfterPass(lat, tr, [Triple(x, q, v), Triple(s, p, o)], m);
  }

  lemma RunFromPass2(lat: Lattice, tr: Translation, m: map<Node, Role>, x: Node, q: Node, v: Node, s: Node, p: Node, o: Node)
    requires RowAndColumnRefine(lat) && DistinctVars(x, q, s, p, o) && v.Literal?
    requires InterpretedAs(m, x, Subject) && InterpretedAs(m, s, Subject) && q !in m && v !in m && p !in m && o !in m
    ensures Run(lat, tr, [Triple(x, q, v), Triple(s, p, o)], m) ==
            Completed(m[q := Predicate][p := Predicate][v := SlotValue][o := Object][x := ContainerRow], false)
  {
    var m' := m[q := Predicate][p := Predicate];
    assert InterpretedAs(m', x, Subject) && InterpretedAs(m', s, Subject);
    assert InterpretedAs(m', q, Predicate) && InterpretedAs(m', p, Predicate) && v !in m' && o !in m';
    RunFromPass3(lat, tr, m', x, q, v, s, p, o);
    QuietPass2(lat, tr, m, x, q, v, s, p, o);
    RunAfterPass(lat, tr, [Triple(x, q, v), Triple(s, p, o)], m);
  }

  lemma RunFromPass1(lat: Lattice, tr: Translation, m: map<Node, Role>, x: Node, q: Node, v: Node, s: Node, p: Node, o: Node)
    requires RowAndColumnRefine(lat) && DistinctVars(x, q, s, p, o) && v.Literal?
    requires x !in m && q !in m && v !in m && s !in m && p !in m && o !in m
    ensures Run(lat, tr, [Triple(x, q, v), Triple(s, p, o)], m) ==
            Completed(m[x := Subject][s := Subject][q := Predicate][p := Predicate][v := SlotValue][o := Object][x := ContainerRow], false)
  {
    var m' := m[x := Subject][s := Subject];
    assert InterpretedAs(m', x, Subject) && InterpretedAs(m', s, Subject) && q !in m' && v !in m' && p !in m' && o !in m';
    RunFromPass2(lat, tr, m', x, q, v, s, p, o);
    QuietPass1(lat, tr, m, x, q, v, s, p, o);
    RunAfterPass(lat, tr, [Triple(x, q, v), Triple(s, p, o)], m);
  }

  /** The change flag is overwritten by every triple, so another pass happens
      only when the last triple changed something. In the pattern
      { ?x ?q "v" . ?s ?p ?o }, starting from roles that record none of its
      nodes (none at all, in particular), the fourth pass refines ?x to a row
      through the first triple while the second triple is already quiet: the
      analysis completes, yet processing the first triple again would still
      refine ?q to a column. */
  lemma LastTripleDecidesAnotherPass(lat: Lattice, tr: Translation, m: map<Node, Role>, x: Node, q: Node, v: Node, s: Node, p: Node, o: Node)
    requires RowAndColumnRefine(lat) && DistinctVars(x, q, s, p, o) && v.Literal?
    requires x !in m && q !in m && v !in m && s !in m && p !in m && o !in m
    ensures var r := Run(lat, tr, [Triple(x, q, v), Triple(s, p, o)], m);
            && r == Completed(m[x := Subject][s := Subject][q := Predicate][p := Predicate][v := SlotValue][o := Object][x := ContainerRow], false)
            && Step(lat, tr, r.m, Triple(x, q, v)) == Completed(r.m[q := SlotColumn], true)
  {
    var m' := m[x := Subject][s := Subject][q := Predicate][p := Predicate][v := SlotValue][o := Object][x := ContainerRow];
    assert InterpretedAs(m', x, ContainerRow) && InterpretedAs(m', q, Predicate) && InterpretedAs(m', v, SlotValue);
    ValueMakesColumn(lat, tr, m', Triple(x, q, v));
    RunFromPass1(lat, tr, m, x, q, v, s, p, o);
  }

  /** A plain triple whose subject is a row, predicate a column and object a
      value is quiet. */
  lemma ColumnTripleQuiet(lat: Lattice, tr: Translation, m: map<Node, Role>, t: Triple)
    requires lat.SelfConsistent() && Plain(t)
    requires InterpretedAs(m, t.subj, ContainerRow) && InterpretedAs(m, t.pred, SlotColumn) && InterpretedAs(m, t.obj, SlotValue)
    ensures Step(lat, tr, m, t) == Completed(m, false)
  {
    MergeSameClass(lat, m, t.subj);
    MergeSameClass(lat, m, t.pred);
    MergeSameClass(lat, m, t.obj);
  }

  /** The passes over the same two triples in the other order,
      { ?s ?p ?o . ?x ?q "v" }: the first three record one node per triple. */
  lemma SwappedPass1(lat: Lattice, tr: Translation, m: map<Node, Role>, x: Node, q: Node, v: Node, s: Node, p: Node, o: Node)
    requires DistinctVars(x, q, s, p, o) && v.Literal?
    requires x !in m && q !in m && v !in m && s !in m && p !in m && o !in m
    ensures Pass(lat, tr, m, [Triple(s, p, o), Triple(x, q, v)]) == Completed(m[s := Subject][x := Subject], true)
  {
    PassOfTwo(lat, tr, m, Triple(s, p, o), Triple(x, q, v));
    NewTripleRecordsSubject(lat, tr, m, Triple(s, p, o));
    NewTripleRecordsSubject(lat, tr, m[s := Subject], Triple(x, q, v));
  }

  lemma SwappedPass2(lat: Lattice, tr: Translation, m: map<Node, Role>, x: Node, q: Node, v: Node, s: Node, p: Node, o: Node)
    requires lat.Valid() && DistinctVars(x, q, s, p, o) && v.Literal?
    requires InterpretedAs(m, x, Subject) && InterpretedAs(m, s, Subject) && q !in m && v !in m && p !in m && o !in m
    ensures Pass(lat, tr, m, [Triple(s, p, o), Triple(x, q, v)]) == Completed(m[p := Predicate][q := Predicate], true)
  {
    PassOfTwo(lat, tr, m, Triple(s, p, o), Triple(x, q, v));
    KnownSubjectRecordsPredicate(lat, tr, m, Triple(s, p, o));
    KnownSubjectRecordsPredicate(lat, tr, m[p := Predicate], Triple(x, q, v));
  }

  lemma SwappedPass3(lat: Lattice, tr: Translation, m: map<Node, Role>, x: Node, q: Node, v: Node, s: Node, p: Node, o: Node)
    requires lat.Valid() && DistinctVars(x, q, s, p, o) && v.Literal?
    requires InterpretedAs(m, x, Subject) && InterpretedAs(m, s, Subject)
    requires InterpretedAs(m, q, Predicate) && InterpretedAs(m, p, Predicate) && v !in m && o !in m
    ensures Pass(lat, tr, m, [Triple(s, p, o), Triple(x, q, v)]) == Completed(m[o := Object][v := SlotValue], true)
  {
    PassOfTwo(lat, tr, m, Triple(s, p, o), Triple(x, q, v));
    KnownPredicateRecordsObject(lat, tr, m, Triple(s, p, o));
    KnownPredicateRecordsObject(lat, tr, m[o := Object], Triple(x, q, v));
  }

  /** In the fourth pass ?x becomes a row, and this time through the last
      triple, so the flag is set. */
  lemma SwappedPass4(lat: Lattice, tr: Translation, m: map<Node, Role>, x: Node, q: Node, v: Node, s: Node, p: Node, o: Node)
    requires RowAndColumnRefine(lat) && DistinctVars(x, q, s, p, o) && v.Literal?
    requires InterpretedAs(m, x, Subject) && InterpretedAs(m, s, Subject)
    requires InterpretedAs(m, q, Predicate) && InterpretedAs(m, p, Predicate)
    requires InterpretedAs(m, v, SlotValue) && InterpretedAs(m, o, Object)
    ensures Pass(lat, tr, m, [Triple(s, p, o), Triple(x, q, v)]) == Completed(m[x := ContainerRow], true)
  {
    PassOfTwo(lat, tr, m, Triple(s, p, o), Triple(x, q, v));
    SettledTripleQuiet(lat, tr, m, Triple(s, p, o));
    ValueMakesRow(lat, tr, m, Triple(x, q, v));
  }

  /** The fifth pass makes ?q a column. */
  lemma SwappedPass5(lat: Lattice, tr: Translation, m: map<Node, Role>, x: Node, q: Node, v: Node, s: Node, p: Node, o: Node)
    requires RowAndColumnRefine(lat) && DistinctVars(x, q, s, p, o) && v.Literal?
    requires InterpretedAs(m, x, ContainerRow) && InterpretedAs(m, s, Subject)
    requires InterpretedAs(m, q, Predicate) && InterpretedAs(m, p, Predicate)
    requires InterpretedAs(m, v, SlotValue) && InterpretedAs(m, o, Object)
    ensures Pass(lat, tr, m, [Triple(s, p, o), Triple(x, q, v)]) == Completed(m[q := SlotColumn], true)
  {
    PassOfTwo(lat, tr, m, Triple(s, p, o), Triple(x, q, v));
    SettledTripleQuiet(lat, tr, m, Triple(s, p, o));
    ValueMakesColumn(lat, tr, m, Triple(x, q, v));
  }

  /** The sixth pass is quiet. */
  lemma SwappedPass6(lat: Lattice, tr: Translation, m: map<Node, Role>, x: Node, q: Node, v: Node, s: Node, p: Node, o: Node)
    requires RowAndColumnRefine(lat) && DistinctVars(x, q, s, p, o) && v.Literal?
    requires InterpretedAs(m, x, ContainerRow) && InterpretedAs(m, s, Subject)
    requires InterpretedAs(m, q, SlotColumn) && InterpretedAs(m, p, Predicate)
    requires InterpretedAs(m, v, SlotValue) && InterpretedAs(m, o, Object)
    ensures Pass(lat, tr, m, [Triple(s, p, o), Triple(x, q, v)]) == Completed(m, false)
  {
    PassOfTwo(lat, tr, m, Triple(s, p, o), Triple(x, q, v));
    SettledTripleQuiet(lat, tr, m, Triple(s, p, o));
    ColumnTripleQuiet(lat, tr, m, Triple(x, q, v));
  }

  lemma SwappedRunFromPass5(lat: Lattice, tr: Translation, m: map<Node, Role>, x: Node, q: Node, v: Node, s: Node, p: Node, o: Node)
    requires RowAndColumnRefine(lat) && DistinctVars(x, q, s, p, o) && v.Literal?
    requires InterpretedAs(m, x, ContainerRow) && InterpretedAs(m, s, Subject)
    requires InterpretedAs(m, q, Predicate) && InterpretedAs(m, p, Predicate)
    requires InterpretedAs(m, v, SlotValue) && InterpretedAs(m, o, Object)
    ensures Run(lat, tr, [Triple(s, p, o), Triple(x, q, v)], m) == Completed(m[q := SlotColumn], false)
  {
    var m' := m[q := SlotColumn];
    assert InterpretedAs(m', x, ContainerRow) && InterpretedAs(m', s, Subject);
    assert InterpretedAs(m', q, SlotColumn) && InterpretedAs(m', p, Predicate);
    assert InterpretedAs(m', v, SlotValue) && InterpretedAs(m', o, Object);
    SwappedPass6(lat, tr, m', x, q, v, s, p, o);
    RunAfterPass(lat, tr, [Triple(s, p, o), Triple(x, q, v)], m');
    SwappedPass5(lat, tr, m, x, q, v, s, p, o);
    RunAfterPass(lat, tr, [Triple(s, p, o), Triple(x, q, v)], m);
  }

  lemma SwappedRunFromPass4(lat: Lattice, tr: Translation, m: map<Node, Role>, x: Node, q: Node, v: Node, s: Node, p: Node, o: Node)
    requires RowAndColumnRefine(lat) && DistinctVars(x, q, s, p, o) && v.Literal?
    requires InterpretedAs(m, x, Subject) && InterpretedAs(m, s, Subject)
    requires InterpretedAs(m, q, Predicate) && InterpretedAs(m, p, Predicate)
    requires InterpretedAs(m, v, SlotValue) && InterpretedAs(m, o, Object)
    ensures Run(lat, tr, [Triple(s, p, o), Triple(x, q, v)], m) == Completed(m[x := ContainerRow][q := SlotColumn], false)
  {
    var m' := m[x := ContainerRow];
    assert InterpretedAs(m', x, ContainerRow) && InterpretedAs(m', s, Subject);
    assert InterpretedAs(m', q, Predicate) && InterpretedAs(m', p, Predicate);
    assert InterpretedAs(m', v, SlotValue) && InterpretedAs(m', o, Object);
    SwappedRunFromPass5(lat, tr, m', x, q, v, s, p, o);
    SwappedPass4(lat, tr, m, x, q, v, s, p, o);
    RunAfterPass(lat, tr, [Triple(s, p, o), Triple(x, q, v)], m);
  }

  lemma SwappedRunFromPass3(lat: Lattice, tr: Translation, m: map<Node, Role>, x: Node, q: Node, v: Node, s: Node, p: Node, o: Node)
    requires RowAndColumnRefine(lat) && DistinctVars(x, q, s, p, o) && v.Literal?
    requires InterpretedAs(m, x, Subject) && InterpretedAs(m, s, Subject)
    requires InterpretedAs(m, q, Predicate) && InterpretedAs(m, p, Predicate) && v !in m && o !in m
    ensures Run(lat, tr, [Triple(s, p, o), Triple(x, q, v)], m) ==
            Completed(m[o := Object][v := SlotValue][x := ContainerRow][q := SlotColumn], false)
  {
    var m' := m[o := Object][v := SlotValue];
    assert InterpretedAs(m', x, Subject) && InterpretedAs(m', s, Subject);
    assert InterpretedAs(m', q, Predicate) && InterpretedAs(m', p, Predicate);
    assert InterpretedAs(m', v, SlotValue) && InterpretedAs(m', o, Object);
    SwappedRunFromPass4(lat, tr, m', x, q, v, s, p, o);
    SwappedPass3(lat, tr, m, x, q, v, s, p, o);
    RunAfterPass(lat, tr, [Triple(s, p, o), Triple(x, q, v)], m);
  }

  lemma SwappedRunFromPass2(lat: Lattice, tr: Translation, m: map<Node, Role>, x: Node, q: Node, v: Node, s: Node, p: Node, o: Node)
    requires RowAndColumnRefine(lat) && DistinctVars(x, q, s, p, o) && v.Literal?
    requires InterpretedAs(m, x, Subject) && InterpretedAs(m, s, Subject) && q !in m && v !in m && p !in m && o !in m
    ensures Run(lat, tr, [Triple(s, p, o), Triple(x, q, v)], m) ==
            Completed(m[p := Predicate][q := Predicate][o := Object][v := SlotValue][x := ContainerRow][q := SlotColumn], false)
  {
    var m' := m[p := Predicate][q := Predicate];
    assert InterpretedAs(m', x, Subject) && InterpretedAs(m', s, Subject);
    assert InterpretedAs(m', q, Predicate) && InterpretedAs(m', p, Predicate) && v !in m' && o !in m';
    SwappedRunFromPass3(lat, tr, m', x, q, v, s, p, o);
    SwappedPass2(lat, tr, m, x, q, v, s, p, o);
    RunAfterPass(lat, tr, [Triple(s, p, o), Triple(x, q, v)], m);
  }

  lemma SwappedRunFromPass1(lat: Lattice, tr: Translation, m: map<Node, Role>, x: Node, q: Node, v: Node, s: Node, p: Node, o: Node)
    requires RowAndColumnRefine(lat) && DistinctVars(x, q, s, p, o) && v.Literal?
    requires x !in m && q !in m && v !in m && s !in m && p !in m && o !in m
    ensures Run(lat, tr, [Triple(s, p, o), Triple(x, q, v)], m) ==
            Completed(m[s := Subject][x := Subject][p := Predicate][q := Predicate][o := Object][v := SlotValue][x := ContainerRow][q := SlotColumn], false)
  {
    var m' := m[s := Subject][x := Subject];
    assert InterpretedAs(m', x, Subject) && InterpretedAs(m', s, Subject) && q !in m' && v !in m' && p !in m' && o !in m';
    SwappedRunFromPass2(lat, tr, m', x, q, v, s, p, o);
    SwappedPass1(lat, tr, m, x, q, v, s, p, o);
    RunAfterPass(lat, tr, [Triple(s, p, o), Triple(x, q, v)], m);
  }

  /** The outcome depends on the order of the triples: the same two triples
      leave ?q unconstrained in one order and make it a column in the other. */
  lemma TripleOrderMatters(lat: Lattice, tr: Translation, m: map<Node, Role>, x: Node, q: Node, v: Node, s: Node, p: Node, o: Node)
    requires RowAndColumnRefine(lat) && DistinctVars(x, q, s, p, o) && v.Literal?
    requires x !in m && q !in m && v !in m && s !in m && p !in m && o !in m
    ensures var forward := Run(lat, tr, [Triple(x, q, v), Triple(s, p, o)], m);
            var swapped := Run(lat, tr, [Triple(s, p, o), Triple(x, q, v)], m);
            && forward.Completed? && swapped.Completed?
            && q in forward.m && forward.m[q] == Predicate
            && q in swapped.m && swapped.m[q] == SlotColumn
  {
    var forward := m[x := Subject][s := Subject][q := Predicate][p := Predicate][v := SlotValue][o := Object][x := ContainerRow];
    var swapped := m[s := Subject][x := Subject][p := Predicate][q := Predicate][o := Object][v := SlotValue][x := ContainerRow][q := SlotColumn];
    assert q in forward && forward[q] == Predicate;
    assert q in swapped && swapped[q] == SlotColumn;
    RunFromPass1(lat, tr, m, x, q, v, s, p, o);
    SwappedRunFromPass1(lat, tr, m, x, q, v, s, p, o);
  }

  /** A failed analysis keeps what it recorded before the failure: in
      { ?x ?q "v" . ?y <u> ?z }, where <u> matches no convention, the first pass
      records both subjects and then stops at <u>. */
  lemma FailureKeepsPartialMap(lat: Lattice, tr: Translation, m: map<Node, Role>, x: Node, q: Node, v: Node, y: Node, u: Node, z: Node)
    requires lat.Valid() && x.Var? && q.Var? && v.Literal? && y.Var? && z.Var? && u.URI?
    requires x != y && x != z && x !in m && q !in m && v !in m && y !in m && u !in m && z !in m
    requires !tr.nodeSlotIsRowNum(u) && !tr.nodeSlotIsColumn(u) && !tr.nodeSlotIsTypeProperty(u)
    ensures Run(lat, tr, [Triple(x, q, v), Triple(y, u, z)], m) ==
            Aborted(m[x := Subject][y := Subject], InconsistentEntity(u, UnknownEntity))
  {
    var ts := [Triple(x, q, v), Triple(y, u, z)];
    var m' := m[x := Subject];
    assert y !in m' && u !in m' && z !in m';
    UnknownPredicateAbortsAfterSubject(lat, tr, m', Triple(y, u, z));
    NewTripleRecordsSubject(lat, tr, m, Triple(x, q, v));
    PassOfTwo(lat, tr, m, Triple(x, q, v), Triple(y, u, z));
    RunAborts(lat, tr, ts, m);
  }

  /** A pass over a single triple is that triple's step. */
  lemma PassOfOne(lat: Lattice, tr: Translation, m: map<Node, Role>, t: Triple)
    ensures Pass(lat, tr, m, [t]) == Step(lat, tr, m, t)
  {
    assert [t][..0] == [];
  }

  /** A variable typed by a named table type: the predicate follows the
      type-property convention and the object the table-type convention. */
  ghost predicate TypedSubject(lat: Lattice, tr: Translation, t: Triple) {
    && lat.Valid() && lat.Specialises(ContainerRow, Subject) && !lat.Inconsistent(Subject, ContainerRow)
    && t.subj.Var? && t.pred.URI? && t.obj.URI? && t.pred != t.obj
    && !tr.nodeSlotIsRowNum(t.pred) && !tr.nodeSlotIsColumn(t.pred) && tr.nodeSlotIsTypeProperty(t.pred)
    && t.obj.uri != tr.facadeXTypeRoot && tr.nodeTypeIsTable(t.obj)
  }

  /** First pass: the subject is recorded. */
  lemma TypedFirstStep(lat: Lattice, tr: Translation, m: map<Node, Role>, t: Triple)
    requires TypedSubject(lat, tr, t) && t.subj !in m && t.pred !in m && t.obj !in m
    ensures Step(lat, tr, m, t) == Completed(m[t.subj := Subject], true)
  {
    var m' := m[t.subj := Subject];
    assert ConstrainPredicate(tr, m', t) == Ok(TypeProperty);
    assert ConstrainObject(tr, m', t) == Ok(TypeTable);
  }

  /** Second pass: the predicate is recorded. */
  lemma TypedSecondStep(lat: Lattice, tr: Translation, m: map<Node, Role>, t: Triple)
    requires TypedSubject(lat, tr, t)
    requires InterpretedAs(m, t.subj, Subject) && t.pred !in m && t.obj !in m
    ensures Step(lat, tr, m, t) == Completed(m[t.pred := TypeProperty], true)
  {
    var m' := m[t.pred := TypeProperty];
    assert t.obj !in m';
    MergeSameClass(lat, m, t.subj);
    assert ConstrainPredicate(tr, m, t) == Ok(TypeProperty);
    assert ConstrainObject(tr, m', t) == Ok(TypeTable);
  }

  /** Third pass: the object is recorded. */
  lemma TypedThirdStep(lat: Lattice, tr: Translation, m: map<Node, Role>, t: Triple)
    requires TypedSubject(lat, tr, t)
    requires InterpretedAs(m, t.subj, Subject) && InterpretedAs(m, t.pred, TypeProperty) && t.obj !in m
    ensures Step(lat, tr, m, t) == Completed(m[t.obj := TypeTable], true)
  {
    MergeSameClass(lat, m, t.subj);
    MergeSameClass(lat, m, t.pred);
  }

  /** Fourth pass: the table-type object makes the subject a row. */
  lemma TypedFourthStep(lat: Lattice, tr: Translation, m: map<Node, Role>, t: Triple)
    requires TypedSubject(lat, tr, t)
    requires InterpretedAs(m, t.subj, Subject) && InterpretedAs(m, t.pred, TypeProperty) && InterpretedAs(m, t.obj, TypeTable)
    ensures Step(lat, tr, m, t) == Completed(m[t.subj := ContainerRow], true)
  {
    var m' := m[t.subj := ContainerRow];
    assert InterpretedAs(m', t.pred, TypeProperty) && InterpretedAs(m', t.obj, TypeTable);
    assert ConstrainSubject(tr, m, t) == Ok(ContainerRow);
    MergeRefinement(lat, m, t.subj, ContainerRow);
    assert ConstrainPredicate(tr, m', t) == Ok(TypeProperty);
    assert ConstrainObject(tr, m', t) == Ok(TypeTable);
  }

  /** Fifth pass: nothing changes. */
  lemma TypedFromPass5(lat: Lattice, tr: Translation, m: map<Node, Role>, t: Triple)
    requires TypedSubject(lat, tr, t)
    requires InterpretedAs(m, t.subj, ContainerRow) && InterpretedAs(m, t.pred, TypeProperty) && InterpretedAs(m, t.obj, TypeTable)
    ensures Run(lat, tr, [t], m) == Completed(m, false)
  {
    MergeSameClass(lat, m, t.subj);
    MergeSameClass(lat, m, t.pred);
    MergeSameClass(lat, m, t.obj);
    PassOfOne(lat, tr, m, t);
    RunAfterPass(lat, tr, [t], m);
  }

  /** Fourth pass: the table-type object makes the subject a row. */
  lemma TypedFromPass4(lat: Lattice, tr: Translation, m: map<Node, Role>, t: Triple)
    requires TypedSubject(lat, tr, t)
    requires InterpretedAs(m, t.subj, Subject) && InterpretedAs(m, t.pred, TypeProperty) && InterpretedAs(m, t.obj, TypeTable)
    ensures Run(lat, tr, [t], m) == Completed(m[t.subj := ContainerRow], false)
  {
    var m' := m[t.subj := ContainerRow];
    assert InterpretedAs(m', t.subj, ContainerRow) && InterpretedAs(m', t.pred, TypeProperty) && InterpretedAs(m', t.obj, TypeTable);
    TypedFromPass5(lat, tr, m', t);
    TypedFourthStep(lat, tr, m, t);
    PassOfOne(lat, tr, m, t);
    RunAfterPass(lat, tr, [t], m);
  }

  /** Third pass: the object is recorded as a table type. */
  lemma TypedFromPass3(lat: Lattice, tr: Translation, m: map<Node, Role>, t: Triple)
    requires TypedSubject(lat, tr, t)
    requires InterpretedAs(m, t.subj, Subject) && InterpretedAs(m, t.pred, TypeProperty) && t.obj !in m
    ensures Run(lat, tr, [t], m) == Completed(m[t.obj := TypeTable][t.subj := ContainerRow], false)
  {
    var m' := m[t.obj := TypeTable];
    assert InterpretedAs(m', t.subj, Subject) && InterpretedAs(m', t.pred, TypeProperty) && InterpretedAs(m', t.obj, TypeTable);
    TypedFromPass4(lat, tr, m', t);
    TypedThirdStep(lat, tr, m, t);
    PassOfOne(lat, tr, m, t);
    RunAfterPass(lat, tr, [t], m);
  }

  /** Second pass: the predicate is recorded as a type property. */
  lemma TypedFromPass2(lat: Lattice, tr: Translation, m: map<Node, Role>, t: Triple)
    requires TypedSubject(lat, tr, t)
    requires InterpretedAs(m, t.subj, Subject) && t.pred !in m && t.obj !in m
    ensures Run(lat, tr, [t], m) == Completed(m[t.pred := TypeProperty][t.obj := TypeTable][t.subj := ContainerRow], false)
  {
    var m' := m[t.pred := TypeProperty];
    assert InterpretedAs(m', t.subj, Subject) && InterpretedAs(m', t.pred, TypeProperty) && t.obj !in m';
    TypedFromPass3(lat, tr, m', t);
    TypedSecondStep(lat, tr, m, t);
    PassOfOne(lat, tr, m, t);
    RunAfterPass(lat, tr, [t], m);
  }

  /** In { ?s <type> <T> }, with <type> a type property and <T> a table type
      by the conventions, the analysis ends with ?s a row (not a plain
      subject), <type> a type property and <T> a table type. */
  lemma TypedSubjectBecomesRow(lat: Lattice, tr: Translation, m: map<Node, Role>, t: Triple)
    requires TypedSubject(lat, tr, t)
    requires t.subj !in m && t.pred !in m && t.obj !in m
    ensures Run(lat, tr, [t], m) ==
            Completed(m[t.subj := Subject][t.pred := TypeProperty][t.obj := TypeTable][t.subj := ContainerRow], false)
  {
    var m' := m[t.subj := Subject];
    assert InterpretedAs(m', t.subj, Subject) && t.pred !in m' && t.obj !in m';
    TypedFromPass2(lat, tr, m', t);
    TypedFirstStep(lat, tr, m, t);
    PassOfOne(lat, tr, m, t);
    RunAfterPass(lat, tr, [t], m);
  }
}
