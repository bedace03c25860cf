/** The decoded property tree the game exchanges with its server: a named
    node holding either a typed value or child nodes. The byte codec is not
    part of this model. */
module Kbin {
  import opened Wrappers
  import opened Ints

  /** A node value: an array of u32 or some other value type. */
  datatype Value = U32Array(items: seq<u32>) | OtherValue

  datatype Node = Node(name: string, value: Option<Value>, children: seq<Node>)

  /** `Node::with_nodes`. */
  function WithNodes(name: string, children: seq<Node>): Node {
    Node(name, None, children)
  }

  /** `Node::with_value`. */
  function WithValue(name: string, v: Value): Node {
    Node(name, Some(v), [])
  }

  /** The first child called `name`, if any. */
  function Child(n: Node, name: string): (r: Option<Node>)
    ensures r.Some? ==> r.value in n.children && r.value.name == name
    ensures r.None? ==> forall c :: c in n.children ==> c.name != name
  {
    FirstNamed(n.children, name)
  }

  function FirstNamed(nodes: seq<Node>, name: string): (r: Option<Node>)
    ensures r.Some? ==> r.value in nodes && r.value.name == name
    ensures r.None? ==> forall c :: c in nodes ==> c.name != name
  {
    if nodes == [] then None
    else if nodes[0].name == name then Some(nodes[0])
    else FirstNamed(nodes[1..], name)
  }

  /** The node reached from `n` by following `path`, one child name per step. */
  function Find(n: Node, path: seq<string>): Option<Node>
    decreases |path|
  {
    if path == [] then Some(n)
    else match Child(n, path[0])
      case None => None
      case Some(c) => Find(c, path[1..])
  }
}
