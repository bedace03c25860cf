/** `HashMapExt::to_properties`: every (chart, score) entry of the merged map
    becomes an `info` node with one `param` child holding the 21 fields,
    with fields 0 and 1 stamped from the chart key. The map's iteration
    order is unspecified, so the order is a parameter: any listing of the
    keys without repetition. */
module CloudExt {
  import opened Ints
  import opened Wrappers
  import opened Kbin
  import opened CloudTypes
  import opened Seqs

  /** The row emitted for one entry. */
  function Row(c: Chart, s: Score): (v: seq<u32>)
    ensures |v| == ScoreLength
    ensures v[0] == c.songId && v[1] == c.difficulty
    ensures forall i :: 2 <= i < ScoreLength ==> v[i] == s.property[i]
  {
    ToProperty(s)[0 := c.songId][1 := c.difficulty]
  }

  function InfoNode(c: Chart, s: Score): Node {
    WithNodes("info", [WithValue("param", U32Array(Row(c, s)))])
  }

  /** The rows of the entries of `m`, listed in `order`. */
  function ToProperties(m: map<Chart, Score>, order: seq<Chart>): (nodes: seq<Node>)
    requires forall i :: 0 <= i < |order| ==> order[i] in m
    ensures |nodes| == |order|
    ensures forall i :: 0 <= i < |order| ==> nodes[i] == InfoNode(order[i], m[order[i]])
    decreases |order|
  {
    if order == [] then []
    else ToProperties(m, order[..|order| - 1]) + [InfoNode(order[|order| - 1], m[order[|order| - 1]])]
  }

  /** The set of rows the map stands for, whatever the order. */
  function RowSet(m: map<Chart, Score>): set<Node> {
    set c | c in m :: InfoNode(c, m[c])
  }

  /** Every emitted node is `info` with a single `param` child holding a
      21-long U32 array whose fields 0 and 1 are the entry's key and whose
      fields 2 to 20 are the entry's stored fields. */
  lemma EmittedRowShape(m: map<Chart, Score>, order: seq<Chart>, i: nat)
    requires forall j :: 0 <= j < |order| ==> order[j] in m
    requires i < |order|
    ensures var n := ToProperties(m, order)[i];
      && n.name == "info" && n.value == None && |n.children| == 1
      && n.children[0].name == "param" && n.children[0].children == []
      && n.children[0].value.Some? && n.children[0].value.value.U32Array?
      && var v := n.children[0].value.value.items;
      && |v| == ScoreLength
      && v[0] == order[i].songId && v[1] == order[i].difficulty
      && forall k :: 2 <= k < ScoreLength ==> v[k] == m[order[i]].property[k]
  {
  }

  /** Different keys give different rows. */
  lemma InfoNodeInjective(c: Chart, s: Score, d: Chart, t: Score)
    ensures InfoNode(c, s) == InfoNode(d, t) ==> c == d
  {
    var a, b := Row(c, s), Row(d, t);
    assert InfoNode(c, s).children[0].value == Some(U32Array(a));
    assert InfoNode(d, t).children[0].value == Some(U32Array(b));
    assert a[0] == c.songId && a[1] == c.difficulty && b[0] == d.songId && b[1] == d.difficulty;
  }

  /** With every key listed once, exactly one row is emitted per map entry:
      as many rows as entries, no row twice, and the rows are exactly those
      of the entries. */
  lemma OneRowPerEntry(m: map<Chart, Score>, order: seq<Chart>)
    requires Enumerates(order, m.Keys)
    ensures |ToProperties(m, order)| == |m|
    ensures Distinct(ToProperties(m, order))
    ensures forall i :: 0 <= i < |order| ==> ToProperties(m, order)[i] in RowSet(m)
    ensures forall c :: c in m ==> InfoNode(c, m[c]) in ToProperties(m, order)
  {
    var nodes := ToProperties(m, order);
    EnumerationLength(order, m.Keys);
    forall i, j | 0 <= i < j < |nodes| ensures nodes[i] != nodes[j] {
      assert order[i] != order[j];
      InfoNodeInjective(order[i], m[order[i]], order[j], m[order[j]]);
    }
    forall c | c in m ensures InfoNode(c, m[c]) in nodes {
      var i :| 0 <= i < |order| && order[i] == c;
      assert nodes[i] == InfoNode(c, m[c]);
    }
  }

  /** The emitted rows do not depend on the order: any two listings of the
      keys give the same multiset of rows. */
  lemma OrderIrrelevant(m: map<Chart, Score>, o1: seq<Chart>, o2: seq<Chart>)
    requires Enumerates(o1, m.Keys) && Enumerates(o2, m.Keys)
    ensures multiset(ToProperties(m, o1)) == multiset(ToProperties(m, o2))
  {
    var n1, n2 := ToProperties(m, o1), ToProperties(m, o2);
    OneRowPerEntry(m, o1);
    OneRowPerEntry(m, o2);
    forall i | 0 <= i < |n1| ensures n1[i] in n2 {
      assert n1[i] == InfoNode(o1[i], m[o1[i]]);
    }
    forall i | 0 <= i < |n2| ensures n2[i] in n1 {
      assert n2[i] == InfoNode(o2[i], m[o2[i]]);
    }
    DistinctSameElementsMultiset(n1, n2);
  }
}
