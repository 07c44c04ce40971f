/** The three classifiers of the analyser, one per triple position. Each looks
    at one triple, the roles already recorded for its other nodes and the
    naming conventions, and proposes a role for its own node or rejects it. */
module Classifier {
  import opened Terms
  import opened Roles

  /** The naming conventions of the connection (the Translation of the
      source), as read-only predicates on nodes, together with the reserved
      URI of the Facade-X root type. */
  datatype Translation = Translation(
    nodeContainerIsTable: Node -> bool,
    nodeTypeIsTable: Node -> bool,
    nodeSlotIsRowNum: Node -> bool,
    nodeSlotIsColumn: Node -> bool,
    nodeSlotIsTypeProperty: Node -> bool,
    facadeXTypeRoot: string)

  const TableNameMismatch: string := "URI does not match table name pattern"
  const UnknownEntity: string := "Inconsistent enttity URI"
  const ObjectKindMismatch: string := "Object cannot be of this type"

  /** Whether n is interpreted as r: an unrecorded node is interpreted as
      nothing, a recorded one as its recorded class exactly (no subclass
      matching). */
  predicate InterpretedAs(m: map<Node, Role>, n: Node, r: Role): (b: bool)
    ensures n !in m ==> !b
    ensures n in m ==> (b <==> m[n] == r)
  {
    n in m && m[n] == r
  }

  /** A node answers InterpretedAs for its own recorded role only: a node held
      as a refinement of r is not thereby known as r. */
  lemma InterpretedAsExact(m: map<Node, Role>, n: Node, a: Role, b: Role)
    requires InterpretedAs(m, n, a)
    ensures InterpretedAs(m, n, b) <==> a == b
  {
  }

  /** The object carries evidence that its subject is a table */
  predicate TableEvidence(m: map<Node, Role>, t: Triple) {
    InterpretedAs(m, t.obj, FXRoot) || InterpretedAs(m, t.pred, SlotRow) || InterpretedAs(m, t.obj, ContainerRow)
  }

  /** The predicate or object carries evidence that the subject is a row */
  predicate RowEvidence(m: map<Node, Role>, t: Triple) {
    InterpretedAs(m, t.pred, SlotColumn) || InterpretedAs(m, t.obj, TypeTable) || InterpretedAs(m, t.obj, SlotValue)
  }

  /** Role of a subject. A named subject is always a table; otherwise evidence
      from the predicate and object decides, and without evidence the subject
      stays unconstrained. No subject is ever rejected: the branch that would
      consult the table-name convention is only reached by named subjects,
      which the first rule has already taken. */
  function ConstrainSubject(tr: Translation, m: map<Node, Role>, t: Triple): (r: Result<Role>)
    ensures r.Ok?
    ensures t.subj.URI? ==> r.value == ContainerTable
    ensures r.value == ContainerTable <==> t.subj.URI? || TableEvidence(m, t)
    ensures r.value == ContainerRow <==> !t.subj.URI? && !TableEvidence(m, t) && RowEvidence(m, t)
    ensures r.value == Subject <==> !t.subj.URI? && !TableEvidence(m, t) && !RowEvidence(m, t)
  {
    if t.subj.URI? || InterpretedAs(m, t.obj, FXRoot) || InterpretedAs(m, t.pred, SlotRow)
       || InterpretedAs(m, t.obj, ContainerRow) then
      Ok(ContainerTable)
    else if InterpretedAs(m, t.pred, SlotColumn) || InterpretedAs(m, t.obj, TypeTable)
       || InterpretedAs(m, t.obj, SlotValue) then
      Ok(ContainerRow)
    else if t.subj.URI? then
      if tr.nodeContainerIsTable(t.subj) then Ok(ContainerTable)
      else Err(InconsistentEntity(t.subj, TableNameMismatch))
    else
      Ok(Subject)
  }

  /** The table-name convention never influences a subject's role. */
  lemma ConstrainSubjectIgnoresConventions(tr1: Translation, tr2: Translation, m: map<Node, Role>, t: Triple)
    ensures ConstrainSubject(tr1, m, t) == ConstrainSubject(tr2, m, t)
  {
  }

  /** Role of an object. A column predicate makes it a value and a row-number
      predicate makes it a row, whatever the object is; otherwise a named
      object must be the root type or a table type, a blank node or variable
      is unconstrained, a literal is a value, and any other kind of node is
      rejected. */
  function ConstrainObject(tr: Translation, m: map<Node, Role>, t: Triple): (r: Result<Role>)
    ensures InterpretedAs(m, t.pred, SlotColumn) ==> r == Ok(SlotValue)
    ensures InterpretedAs(m, t.pred, SlotRow) ==> r == Ok(ContainerRow)
    ensures !InterpretedAs(m, t.pred, SlotColumn) && !InterpretedAs(m, t.pred, SlotRow) ==>
      && (t.obj == URI(tr.facadeXTypeRoot) ==> r == Ok(FXRoot))
      && (t.obj.URI? && t.obj.uri != tr.facadeXTypeRoot && tr.nodeTypeIsTable(t.obj) ==> r == Ok(TypeTable))
      && (t.obj.Blank? || t.obj.Var? ==> r == Ok(Object))
      && (t.obj.Literal? ==> r == Ok(SlotValue))
    ensures r.Err? <==>
      && !InterpretedAs(m, t.pred, SlotColumn) && !InterpretedAs(m, t.pred, SlotRow)
      && ((t.obj.URI? && t.obj.uri != tr.facadeXTypeRoot && !tr.nodeTypeIsTable(t.obj)) || t.obj.Other?)
    ensures r.Err? && t.obj.URI? ==> r.error == InconsistentEntity(t.obj, UnknownEntity)
    ensures r.Err? && t.obj.Other? ==> r.error == InconsistentEntity(t.obj, ObjectKindMismatch)
  {
    if InterpretedAs(m, t.pred, SlotColumn) then
      Ok(SlotValue)
    else if InterpretedAs(m, t.pred, SlotRow) then
      Ok(ContainerRow)
    else
      match t.obj
      case URI(u) =>
        if u == tr.facadeXTypeRoot then Ok(FXRoot)
        else if tr.nodeTypeIsTable(t.obj) then Ok(TypeTable)
        else Err(InconsistentEntity(t.obj, UnknownEntity))
      case Blank(_) => Ok(Object)
      case Var(_) => Ok(Object)
      case Literal(_, _, _) => Ok(SlotValue)
      case Other(_) => Err(InconsistentEntity(t.obj, ObjectKindMismatch))
  }

  /** The object carries evidence about its predicate */
  predicate ObjectEvidence(m: map<Node, Role>, t: Triple) {
    t.obj in m && m[t.obj] in {SlotValue, TypeTable, FXRoot, ContainerRow}
  }

  /** Role of a predicate. Evidence from the object decides first; otherwise a
      predicate that is not a variable must match the row-number, column or
      type-property convention (in that order) or is rejected, and a variable
      stays unconstrained. */
  function ConstrainPredicate(tr: Translation, m: map<Node, Role>, t: Triple): (r: Result<Role>)
    ensures InterpretedAs(m, t.obj, SlotValue) ==> r == Ok(SlotColumn)
    ensures InterpretedAs(m, t.obj, TypeTable) || InterpretedAs(m, t.obj, FXRoot) ==> r == Ok(TypeProperty)
    ensures InterpretedAs(m, t.obj, ContainerRow) ==> r == Ok(SlotRow)
    ensures !ObjectEvidence(m, t) && !t.pred.Var? ==>
      && (tr.nodeSlotIsRowNum(t.pred) ==> r == Ok(SlotRow))
      && (!tr.nodeSlotIsRowNum(t.pred) && tr.nodeSlotIsColumn(t.pred) ==> r == Ok(SlotColumn))
      && (!tr.nodeSlotIsRowNum(t.pred) && !tr.nodeSlotIsColumn(t.pred) && tr.nodeSlotIsTypeProperty(t.pred) ==>
            r == Ok(TypeProperty))
    ensures r == Ok(Predicate) <==> t.pred.Var? && !ObjectEvidence(m, t)
    ensures r.Err? <==>
      && !ObjectEvidence(m, t) && !t.pred.Var?
      && !tr.nodeSlotIsRowNum(t.pred) && !tr.nodeSlotIsColumn(t.pred) && !tr.nodeSlotIsTypeProperty(t.pred)
    ensures r.Err? ==> r.error == InconsistentEntity(t.pred, UnknownEntity)
  {
    if InterpretedAs(m, t.obj, SlotValue) then
      Ok(SlotColumn)
    else if InterpretedAs(m, t.obj, TypeTable) || InterpretedAs(m, t.obj, FXRoot) then
      Ok(TypeProperty)
    else if InterpretedAs(m, t.obj, ContainerRow) then
      Ok(SlotRow)
    else if !t.pred.Var? then
      if tr.nodeSlotIsRowNum(t.pred) then Ok(SlotRow)
      else if tr.nodeSlotIsColumn(t.pred) then Ok(SlotColumn)
      else if tr.nodeSlotIsTypeProperty(t.pred) then Ok(TypeProperty)
      else Err(InconsistentEntity(t.pred, UnknownEntity))
    else
      Ok(Predicate)
  }

  /** m1 and m2 record the same role, or none, for n */
  predicate AgreeOn(m1: map<Node, Role>, m2: map<Node, Role>, n: Node) {
    (n in m1 <==> n in m2) && (n in m1 ==> m1[n] == m2[n])
  }

  /** Each classifier reads the recorded roles of the triple's other nodes
      only; what is recorded for the classified node itself, or for any node
      outside the triple, does not matter. */
  lemma ClassifiersReadNeighboursOnly(tr: Translation, m1: map<Node, Role>, m2: map<Node, Role>, t: Triple)
    ensures AgreeOn(m1, m2, t.pred) && AgreeOn(m1, m2, t.obj) ==> ConstrainSubject(tr, m1, t) == ConstrainSubject(tr, m2, t)
    ensures AgreeOn(m1, m2, t.obj) ==> ConstrainPredicate(tr, m1, t) == ConstrainPredicate(tr, m2, t)
    ensures AgreeOn(m1, m2, t.pred) ==> ConstrainObject(tr, m1, t) == ConstrainObject(tr, m2, t)
  {
  }
}
