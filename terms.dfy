/** Pattern terms: the Jena nodes and triples a basic graph pattern is made of. */
module Terms {

  /** A node of a triple pattern, and the key under which the analyser records
      what it has inferred. Two literals are the same node only when lexical
      form, datatype URI and language tag all agree, so 1 (an integer) and "1"
      (a string) are two nodes. Other stands for every further kind of node a
      pattern can hold (a quoted triple, a graph node), told apart by a tag. */
  datatype Node =
    | URI(uri: string)
    | Blank(id: string)
    | Var(name: string)
    | Literal(lexicalForm: string, datatypeURI: string, lang: string)
    | Other(tag: string)

  datatype Triple = Triple(subj: Node, pred: Node, obj: Node) {
    /** n occurs in some position of this triple */
    predicate Has(n: Node) {
      n == subj || n == pred || n == obj
    }
  }

  /** n is a subject, predicate or object of some triple of ts */
  predicate Mentions(ts: seq<Triple>, n: Node) {
    exists t :: t in ts && t.Has(n)
  }

  /** Every node of every triple of ts, in order, with repetitions. */
  function NodesOf(ts: seq<Triple>): (ns: seq<Node>)
    ensures |ns| == 3 * |ts|
  {
    if ts == [] then [] else [ts[0].subj, ts[0].pred, ts[0].obj] + NodesOf(ts[1..])
  }

  /** ns holds every node of every triple of ts */
  ghost predicate Covers(ns: seq<Node>, ts: seq<Triple>) {
    forall t :: t in ts ==> t.subj in ns && t.pred in ns && t.obj in ns
  }

  /** The flattened node list holds exactly the nodes the pattern mentions. */
  lemma {:induction false} NodesOfMentions(ts: seq<Triple>, n: Node)
    ensures n in NodesOf(ts) <==> Mentions(ts, n)
  {
    if ts != [] {
      NodesOfMentions(ts[1..], n);
      assert ts == [ts[0]] + ts[1..];
      if Mentions(ts, n) {
        var t :| t in ts && t.Has(n);
        if t != ts[0] {
          assert t in ts[1..];
        }
      }
      if ts[0].Has(n) {
        assert ts[0] in ts;
      } else if n in NodesOf(ts[1..]) {
        var t :| t in ts[1..] && t.Has(n);
        assert t in ts;
      }
    }
  }

  lemma {:induction false} NodesOfCovers(ts: seq<Triple>)
    ensures Covers(NodesOf(ts), ts)
  {
    forall t | t in ts
      ensures t.subj in NodesOf(ts) && t.pred in NodesOf(ts) && t.obj in NodesOf(ts)
    {
      NodesOfMentions(ts, t.subj);
      NodesOfMentions(ts, t.pred);
      NodesOfMentions(ts, t.obj);
    }
  }
}
