# BGPAnalyser role inference, modelled in Dafny

The JDBC connector of SPARQL Anything answers a basic graph pattern (BGP) only
after it has decided what each node of the pattern stands for in the tabular
source: a table, a row, a column slot, a row-number slot, a value, a table type,
the type property, the Facade-X root, or just an unconstrained
subject/predicate/object. `BGPAnalyser` makes that decision.

- Three classifiers, one per triple position, propose a role from the triple and the roles already recorded for its other nodes.
- `updateConstraint` merges a proposal into the map of recorded roles. It keeps the more specialised of two related roles and throws on a conflict.
- `interpret` repeats passes over the triples until the last triple of a pass reports no change, or until a contradiction, which it stores.

This project models that class.

- `terms.dfy`: pattern nodes (`URI | Blank | Var | Literal | Other`) and triples. A literal carries its lexical form, datatype URI and language tag, and two literals are the same node only when all three agree, as Jena node keys are. `Other` covers the remaining kinds of Jena node, such as quoted triples and graph nodes.
- `roles.dfy`: the role tags, and the relations the role classes declare, as a `Lattice` of parameters; the classes themselves are outside this model. Two hypotheses about them are named separately. `Lattice.WellFounded()` says specialisation raises a rank; it is what makes the passes end. `Lattice.SelfConsistent()` says no class is inconsistent with itself; only the merge lemmas and the scenarios use it. The file also holds the two contradiction kinds.
- `classifier.dfy`: `interpretedAs` and the three classifiers as functions. The naming conventions of the connection (`Translation`) and the root-type URI are parameters.
- `constraints.dfy`: `Merge`, the merge rule of `updateConstraint` as a function on maps, and the potential measure that bounds the number of passes.
- `fixpoint.dfy`: the analysis as functions. `Step` handles one triple, `Pass` one pass (a fold whose flag is the last triple's) and `Run` the repeated passes. Properties of `Pass` and `Run` are proved here.
- `analyser.dfy`: the class `BGPAnalyser` with its `constraints` map and `exception` field.
  - `UpdateConstraint` changes the map in place.
  - `InterpretTriple`, `InterpretPass` and `Interpret` are the driver loop, proved against `Step`, `Pass` and `Run`.
  - The constructor leaves the object in the state `Run` describes.
- `scenarios.dfy`: whole analyses of small patterns. They show the overwritten change flag, the dependence on triple order, the kept partial map and a typed subject.

Four behaviours of the code are easy to miss; line numbers refer to `BGPAnalyser.java`. The model reproduces each:

- **Change flag.** The comment at line 65 says the passes repeat until no new interpretations are found. But line 77 reassigns the flag for every triple, so another pass happens only when the last triple of a pass reports a change. See `Pass`, `LastTripleDecidesAnotherPass` and `TripleOrderMatters`.
- **Partial map.** After a contradiction (lines 85-86), the roles recorded so far stay visible through `interpretations()` (lines 50-55). See `Run`, `Interpretations` and `FailureKeepsPartialMap`.
- **Subject conventions.** A named subject is always a table (line 105). The table-name convention at lines 119-126 is never consulted. See `ConstrainSubjectIgnoresConventions`.
- **Typed subject.** In `{ ?s rdf:type <T> }`, with `<T>` a table type, the subject ends as a row, not as an unconstrained subject: a table-type object is row evidence for the subject (line 113). See `TypedSubjectBecomesRow`.

## Model

| member | source | states |
|---|---|---|
| Classifier.InterpretedAs | sparql-anything-jdbc/src/main/java/com/github/sparqlanything/jdbc/BGPAnalyser.java:95-100 | an unrecorded node is interpreted as nothing; a recorded node is interpreted as r exactly when its recorded class is r |
| Classifier.InterpretedAsExact | sparql-anything-jdbc/src/main/java/com/github/sparqlanything/jdbc/BGPAnalyser.java:95-100 | a node counts as interpreted as r only when its recorded role is exactly r, never a refinement of it |
| Classifier.ConstrainSubject | sparql-anything-jdbc/src/main/java/com/github/sparqlanything/jdbc/BGPAnalyser.java:102-131 | never fails; a URI subject, or table evidence (object FXRoot or ContainerRow, predicate SlotRow), gives ContainerTable; otherwise row evidence (predicate SlotColumn, object TypeTable or SlotValue) gives ContainerRow; otherwise Subject; each as an if-and-only-if |
| Classifier.ConstrainSubjectIgnoresConventions | sparql-anything-jdbc/src/main/java/com/github/sparqlanything/jdbc/BGPAnalyser.java:118-126 | the table-name convention never affects a subject's role: the branch that consults it is unreachable |
| Classifier.ConstrainObject | sparql-anything-jdbc/src/main/java/com/github/sparqlanything/jdbc/BGPAnalyser.java:133-162 | predicate SlotColumn gives SlotValue, else predicate SlotRow gives ContainerRow, else the root URI gives FXRoot, a table-type URI TypeTable, blank or variable Object, literal SlotValue; it fails exactly for any other URI, with an entity error on the object, and for any other kind of node, with the "Object cannot be of this type" error of line 161 |
| Classifier.ConstrainPredicate | sparql-anything-jdbc/src/main/java/com/github/sparqlanything/jdbc/BGPAnalyser.java:164-195 | object SlotValue gives SlotColumn, TypeTable or FXRoot gives TypeProperty, ContainerRow gives SlotRow; otherwise a named predicate follows the row-number, column, type-property conventions in that order; Predicate exactly for a variable without object evidence; fails exactly for a named predicate matching no convention |
| Classifier.ClassifiersReadNeighboursOnly | sparql-anything-jdbc/src/main/java/com/github/sparqlanything/jdbc/BGPAnalyser.java:102-195 | each classifier depends only on what is recorded for the other two nodes of its triple |
| Constraints.Merge | sparql-anything-jdbc/src/main/java/com/github/sparqlanything/jdbc/BGPAnalyser.java:197-232 | a new node takes the proposal and reports a change; otherwise it fails with a type conflict (old, new) exactly when either class lists the other as inconsistent or the two are different and unrelated; a consistent proposal equal to or more general than the recorded class changes nothing; a consistent proposal that refines it, and is not also refined by it, replaces it; only the node's entry can change, and only to a refinement; a change is reported exactly when the map changes |
| Constraints.MergeRefinement | sparql-anything-jdbc/src/main/java/com/github/sparqlanything/jdbc/BGPAnalyser.java:216-222 | under a well-founded lattice, a consistent proposal that refines the recorded class always replaces it and reports a change |
| Constraints.MergeSameClass | sparql-anything-jdbc/src/main/java/com/github/sparqlanything/jdbc/BGPAnalyser.java:211-213 | proposing the recorded class again succeeds and changes nothing |
| Constraints.MergeIdempotent | sparql-anything-jdbc/src/main/java/com/github/sparqlanything/jdbc/BGPAnalyser.java:197-232 | after a successful merge, merging the same proposal again succeeds without change |
| Analyser.BGPAnalyser.UpdateConstraint | sparql-anything-jdbc/src/main/java/com/github/sparqlanything/jdbc/BGPAnalyser.java:197-232 | updates the map field in place exactly as Merge says, returns the change flag, and leaves the map untouched on a conflict |
| Fixpoint.Step | sparql-anything-jdbc/src/main/java/com/github/sparqlanything/jdbc/BGPAnalyser.java:70-82 | processing a triple records only nodes of the triple, changes at most one entry, only refines, and reports a change exactly when the map changed |
| Analyser.BGPAnalyser.InterpretTriple | sparql-anything-jdbc/src/main/java/com/github/sparqlanything/jdbc/BGPAnalyser.java:70-82 | the in-place body of the for loop yields Step's outcome: the new map, the flag, or the contradiction |
| Fixpoint.Pass | sparql-anything-jdbc/src/main/java/com/github/sparqlanything/jdbc/BGPAnalyser.java:69-83 | a pass records only nodes mentioned by the pattern |
| Fixpoint.PassLastQuiet | sparql-anything-jdbc/src/main/java/com/github/sparqlanything/jdbc/BGPAnalyser.java:69-83 | a pass that ends with its flag clear leaves its last triple nothing to change |
| Fixpoint.PassAbortPropagates | sparql-anything-jdbc/src/main/java/com/github/sparqlanything/jdbc/BGPAnalyser.java:64-86 | once a prefix of the triples aborts, the whole pass aborts with the same map and error |
| Fixpoint.PassProgress | sparql-anything-jdbc/src/main/java/com/github/sparqlanything/jdbc/BGPAnalyser.java:67-83 | under a well-founded lattice a pass never loses a node or lowers its rank, and a pass that reports a change strictly raises the potential |
| Fixpoint.PassReducesSlack | sparql-anything-jdbc/src/main/java/com/github/sparqlanything/jdbc/BGPAnalyser.java:67-84 | a pass never increases the distance to the largest potential, and a pass with its flag set decreases it, so the while loop terminates |
| Analyser.BGPAnalyser.InterpretPass | sparql-anything-jdbc/src/main/java/com/github/sparqlanything/jdbc/BGPAnalyser.java:69-83 | the for loop over the triples yields Pass's outcome; its flag is the one the last triple left |
| Fixpoint.Run | sparql-anything-jdbc/src/main/java/com/github/sparqlanything/jdbc/BGPAnalyser.java:61-93 | the repeated passes record only nodes of the pattern, never lose or generalise a role, and a completed analysis ends with its flag clear |
| Fixpoint.RunAborts | sparql-anything-jdbc/src/main/java/com/github/sparqlanything/jdbc/BGPAnalyser.java:85-86 | a pass that aborts ends the analysis with its map and error |
| Fixpoint.RunAfterPass | sparql-anything-jdbc/src/main/java/com/github/sparqlanything/jdbc/BGPAnalyser.java:67-84 | a completed pass either starts another pass (flag set) or ends the analysis with its map (flag clear) |
| Fixpoint.RunLastQuiet | sparql-anything-jdbc/src/main/java/com/github/sparqlanything/jdbc/BGPAnalyser.java:67-84 | a completed analysis leaves its last triple nothing to change |
| Analyser.BGPAnalyser.Interpret | sparql-anything-jdbc/src/main/java/com/github/sparqlanything/jdbc/BGPAnalyser.java:61-93 | the while loop leaves the map and the stored exception equal to Run's outcome from an empty map |
| Analyser.BGPAnalyser.constructor | sparql-anything-jdbc/src/main/java/com/github/sparqlanything/jdbc/BGPAnalyser.java:43-48 | a new analyser has already run the analysis: its state is Run's outcome |
| Analyser.BGPAnalyser.Interpretations | sparql-anything-jdbc/src/main/java/com/github/sparqlanything/jdbc/BGPAnalyser.java:50-55 | the recorded roles (the partial map after a contradiction), every key a node of the pattern |
| Analyser.BGPAnalyser.IsException | sparql-anything-jdbc/src/main/java/com/github/sparqlanything/jdbc/BGPAnalyser.java:57-59 | true exactly when the analysis aborted on a contradiction |
| Analyser.BGPAnalyser.LastTripleSettled | sparql-anything-jdbc/src/main/java/com/github/sparqlanything/jdbc/BGPAnalyser.java:67-84 | without a contradiction, processing the last triple once more changes nothing |
| Scenarios.NewTripleRecordsSubject | sparql-anything-jdbc/src/main/java/com/github/sparqlanything/jdbc/BGPAnalyser.java:76-81 | for a triple of unknown variables, only the subject is recorded: the reported change skips the other two merges |
| Scenarios.KnownSubjectRecordsPredicate | sparql-anything-jdbc/src/main/java/com/github/sparqlanything/jdbc/BGPAnalyser.java:76-81 | with the subject known, only the predicate is recorded |
| Scenarios.KnownPredicateRecordsObject | sparql-anything-jdbc/src/main/java/com/github/sparqlanything/jdbc/BGPAnalyser.java:76-81 | with subject and predicate known, the object is recorded (SlotValue for a literal, Object for a variable) |
| Scenarios.ValueMakesRow | sparql-anything-jdbc/src/main/java/com/github/sparqlanything/jdbc/BGPAnalyser.java:111-116 | a value object turns an unconstrained subject into a row |
| Scenarios.ValueMakesColumn | sparql-anything-jdbc/src/main/java/com/github/sparqlanything/jdbc/BGPAnalyser.java:165-168 | a value object turns an unconstrained predicate into a column |
| Scenarios.SettledTripleQuiet | sparql-anything-jdbc/src/main/java/com/github/sparqlanything/jdbc/BGPAnalyser.java:76-81 | a triple of variables holding Subject, Predicate, Object reports no change |
| Scenarios.UnknownPredicateAbortsAfterSubject | sparql-anything-jdbc/src/main/java/com/github/sparqlanything/jdbc/BGPAnalyser.java:76-78 | the predicate is classified even after the subject reported a change, so an unknown named predicate aborts with the new subject still recorded |
| Scenarios.QuietPass1 | sparql-anything-jdbc/src/main/java/com/github/sparqlanything/jdbc/BGPAnalyser.java:69-83 | first pass over { ?x ?q "v" . ?s ?p ?o } records the two subjects |
| Scenarios.QuietPass2 | sparql-anything-jdbc/src/main/java/com/github/sparqlanything/jdbc/BGPAnalyser.java:69-83 | second pass records the two predicates |
| Scenarios.QuietPass3 | sparql-anything-jdbc/src/main/java/com/github/sparqlanything/jdbc/BGPAnalyser.java:69-83 | third pass records the two objects |
| Scenarios.QuietPass4 | sparql-anything-jdbc/src/main/java/com/github/sparqlanything/jdbc/BGPAnalyser.java:69-83 | fourth pass makes ?x a row but ends with its flag clear, the second triple being quiet |
| Scenarios.RunFromPass4 | sparql-anything-jdbc/src/main/java/com/github/sparqlanything/jdbc/BGPAnalyser.java:67-84 | from the fourth pass the analysis completes with ?x a row |
| Scenarios.RunFromPass3 | sparql-anything-jdbc/src/main/java/com/github/sparqlanything/jdbc/BGPAnalyser.java:67-84 | from the third pass the analysis completes with that map |
| Scenarios.RunFromPass2 | sparql-anything-jdbc/src/main/java/com/github/sparqlanything/jdbc/BGPAnalyser.java:67-84 | from the second pass the analysis completes with that map |
| Scenarios.RunFromPass1 | sparql-anything-jdbc/src/main/java/com/github/sparqlanything/jdbc/BGPAnalyser.java:67-84 | from roles recording none of its nodes, the analysis of the pattern completes after four passes |
| Scenarios.LastTripleDecidesAnotherPass | sparql-anything-jdbc/src/main/java/com/github/sparqlanything/jdbc/BGPAnalyser.java:77 | the analysis completes although its first triple would still refine ?q to a column: only the last triple's flag decides another pass |
| Scenarios.ColumnTripleQuiet | sparql-anything-jdbc/src/main/java/com/github/sparqlanything/jdbc/BGPAnalyser.java:76-81 | a triple whose subject is a row, predicate a column and object a value reports no change |
| Scenarios.SwappedPass1 | sparql-anything-jdbc/src/main/java/com/github/sparqlanything/jdbc/BGPAnalyser.java:69-83 | first pass over { ?s ?p ?o . ?x ?q "v" } records the two subjects |
| Scenarios.SwappedPass2 | sparql-anything-jdbc/src/main/java/com/github/sparqlanything/jdbc/BGPAnalyser.java:69-83 | second pass records the two predicates |
| Scenarios.SwappedPass3 | sparql-anything-jdbc/src/main/java/com/github/sparqlanything/jdbc/BGPAnalyser.java:69-83 | third pass records the two objects |
| Scenarios.SwappedPass4 | sparql-anything-jdbc/src/main/java/com/github/sparqlanything/jdbc/BGPAnalyser.java:69-83 | fourth pass makes ?x a row through the last triple, so its flag is set |
| Scenarios.SwappedPass5 | sparql-anything-jdbc/src/main/java/com/github/sparqlanything/jdbc/BGPAnalyser.java:165-168 | fifth pass makes ?q a column |
| Scenarios.SwappedPass6 | sparql-anything-jdbc/src/main/java/com/github/sparqlanything/jdbc/BGPAnalyser.java:69-83 | sixth pass is quiet |
| Scenarios.SwappedRunFromPass5 | sparql-anything-jdbc/src/main/java/com/github/sparqlanything/jdbc/BGPAnalyser.java:67-84 | from the fifth pass the analysis completes with ?q a column |
| Scenarios.SwappedRunFromPass4 | sparql-anything-jdbc/src/main/java/com/github/sparqlanything/jdbc/BGPAnalyser.java:67-84 | from the fourth pass the analysis completes with ?x a row and ?q a column |
| Scenarios.SwappedRunFromPass3 | sparql-anything-jdbc/src/main/java/com/github/sparqlanything/jdbc/BGPAnalyser.java:67-84 | from the third pass the analysis completes with that map |
| Scenarios.SwappedRunFromPass2 | sparql-anything-jdbc/src/main/java/com/github/sparqlanything/jdbc/BGPAnalyser.java:67-84 | from the second pass the analysis completes with that map |
| Scenarios.SwappedRunFromPass1 | sparql-anything-jdbc/src/main/java/com/github/sparqlanything/jdbc/BGPAnalyser.java:67-84 | from roles recording none of its nodes, the analysis of the swapped pattern completes after six passes |
| Scenarios.TripleOrderMatters | sparql-anything-jdbc/src/main/java/com/github/sparqlanything/jdbc/BGPAnalyser.java:67-84 | the same two triples leave ?q a plain predicate in one order and make it a column in the other: the outcome depends on triple order |
| Scenarios.FailureKeepsPartialMap | sparql-anything-jdbc/src/main/java/com/github/sparqlanything/jdbc/BGPAnalyser.java:64-86 | in { ?x ?q "v" . ?y <u> ?z } with <u> matching no convention, the analysis aborts with an entity error on <u> and keeps ?x and ?y as subjects |
| Scenarios.TypedFirstStep | sparql-anything-jdbc/src/main/java/com/github/sparqlanything/jdbc/BGPAnalyser.java:76-81 | first step on { ?s <type> <T> } records ?s only |
| Scenarios.TypedSecondStep | sparql-anything-jdbc/src/main/java/com/github/sparqlanything/jdbc/BGPAnalyser.java:186-188 | second step records <type> as a type property |
| Scenarios.TypedThirdStep | sparql-anything-jdbc/src/main/java/com/github/sparqlanything/jdbc/BGPAnalyser.java:144-150 | third step records <T> as a table type |
| Scenarios.TypedFourthStep | sparql-anything-jdbc/src/main/java/com/github/sparqlanything/jdbc/BGPAnalyser.java:111-116 | fourth step: the table-type object makes ?s a row |
| Scenarios.TypedFromPass5 | sparql-anything-jdbc/src/main/java/com/github/sparqlanything/jdbc/BGPAnalyser.java:67-84 | with ?s a row, <type> a type property and <T> a table type, the analysis ends |
| Scenarios.TypedFromPass4 | sparql-anything-jdbc/src/main/java/com/github/sparqlanything/jdbc/BGPAnalyser.java:111-116 | a table-type object turns ?s into a row, then the analysis ends |
| Scenarios.TypedFromPass3 | sparql-anything-jdbc/src/main/java/com/github/sparqlanything/jdbc/BGPAnalyser.java:67-84 | from the third pass the analysis ends with that map |
| Scenarios.TypedFromPass2 | sparql-anything-jdbc/src/main/java/com/github/sparqlanything/jdbc/BGPAnalyser.java:186-188 | the type-property convention records <type>, then the analysis ends with that map |
| Scenarios.TypedSubjectBecomesRow | sparql-anything-jdbc/src/main/java/com/github/sparqlanything/jdbc/BGPAnalyser.java:61-93 | { ?s <type> <T> } ends with ?s a row, <type> a type property and <T> a table type, without a contradiction |

## Left out

- Logging (`L.trace`, `L.warn`, `L.error`) has no behaviour and is not modelled.
- Error messages:
  - An error carries its node and the fixed reason text.
  - Appending `node.toString()` to the message is not modelled.
  - The text of the stored Java exception object is not modelled.
- The role classes and their `inconsistentTypes()` / `specialisationOfTypes()` are outside this model, and neither is `Translation` with its conventions or `Triplifier.FACADE_X_TYPE_ROOT`. They are parameters (`Lattice`, `Translation`), not invented contents.
- Analyser.BGPAnalyser.constructor: requires `Lattice.WellFounded()` (a rank that specialisation raises), a hypothesis about the role classes that makes the pass loop terminate. With a circular specialisation the Java loop could run for ever, and the model does not capture that. A class inconsistent with itself is allowed: proposing it again for a node that holds it is then a type conflict, as in the Java.
- Fixpoint.Run: requires the same hypothesis, for the same reason.
- Nodes of kinds other than URI, blank node, variable and literal are modelled by a tag only: the inner structure of a quoted triple is not modelled, since the analyser only tests the kind of such a node.
- The `Properties`, `namesNamespace` and `OpBGP` objects are not modelled. The constructor takes the triple list directly, along with the conventions and the lattice.
- `interpretations()` returning an empty map while `constraints` is null is not modelled. The constructor always runs the analysis, which sets the map first. The unmodifiable view is modelled as a read-only function.
- The for-loop body and the for loop are separate methods (`InterpretTriple`, `InterpretPass`) that `Interpret` calls. A thrown contradiction becomes a returned error that ends the loops in the same place.
- The result depends on the order of the triples (`TripleOrderMatters`), so no order-independence property is stated.
- The scenarios assume only the relations between classes that they use (for example that ContainerRow refines Subject and that the two are consistent). The real classes are not part of this model.
- Other classes of the connector are outside this model. `InconsistentEntityException` and `InconsistentTypesException` are folded into `Roles.Error`.
