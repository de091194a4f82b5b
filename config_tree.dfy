/**
 * An abstract configuration tree, standing for the ConfigurationNode capability the markers use:
 * child lookup, virtual (absent) nodes, typed reads with a default, value writes and list appends.
 * Nodes are values here: a write returns the updated node.
 */
module ConfigTree {
  import opened Results

  datatype Scalar = BoolValue(b: bool) | IntValue(i: int) | RealValue(r: real) | StringValue(s: string)

  /** A node's value: nothing yet, a scalar, named children, or an ordered list of children. */
  datatype Node =
    | Empty
    | Leaf(scalar: Scalar)
    | Fields(fields: map<string, Node>)
    | Items(items: seq<Node>)

  /** getNode(key): the named child, or None (a virtual node); below a virtual node everything is virtual. */
  function Get(n: Option<Node>, key: string): Option<Node> {
    if n.Some? && n.value.Fields? && key in n.value.fields then Some(n.value.fields[key]) else None
  }

  /** isVirtual(): the node is not attached to the tree. */
  predicate IsVirtual(n: Option<Node>) {
    n.None?
  }

  /** The node object getNode hands out, as a value: a virtual node starts out empty. */
  function OrEmpty(n: Option<Node>): Node {
    if n.Some? then n.value else Empty
  }

  /** The node is present and holds exactly this scalar. */
  predicate Holds(n: Option<Node>, s: Scalar) {
    n == Some(Leaf(s))
  }

  /** getChildrenList(): the list children, empty for a node that is not a list. */
  function ChildrenList(n: Option<Node>): seq<Node> {
    if n.Some? && n.value.Items? then n.value.items else []
  }

  /** getBoolean(def). */
  function GetBool(n: Option<Node>, def: bool): bool {
    if n.Some? && n.value.Leaf? && n.value.scalar.BoolValue? then n.value.scalar.b else def
  }

  /** getInt(def). */
  function GetInt(n: Option<Node>, def: int): int {
    if n.Some? && n.value.Leaf? && n.value.scalar.IntValue? then n.value.scalar.i else def
  }

  /** getDouble(def) and getFloat(def): a number of either kind is widened to a real. */
  function GetReal(n: Option<Node>, def: real): real {
    if n.Some? && n.value.Leaf? && n.value.scalar.RealValue? then n.value.scalar.r
    else if n.Some? && n.value.Leaf? && n.value.scalar.IntValue? then n.value.scalar.i as real
    else def
  }

  /** getString(def). */
  function GetString(n: Option<Node>, def: string): string {
    if n.Some? && n.value.Leaf? && n.value.scalar.StringValue? then n.value.scalar.s else def
  }

  /**
   * getNode(key).setValue(v) with a non-null v, or attaching a child built below a virtual node:
   * the child is replaced, every other key is left alone. A node that held no named children
   * becomes one that holds only this child.
   */
  function SetChild(n: Node, key: string, child: Node): (r: Node)
    ensures Get(Some(r), key) == Some(child)
    ensures forall k :: k != key ==> Get(Some(r), k) == Get(Some(n), k)
  {
    if n.Fields? then Fields(n.fields[key := child]) else Fields(map[key := child])
  }

  /** getNode(key).setValue(null): the child is detached; a virtual child stays virtual. */
  function RemoveChild(n: Node, key: string): (r: Node)
    ensures IsVirtual(Get(Some(r), key))
    ensures forall k :: k != key ==> Get(Some(r), k) == Get(Some(n), k)
  {
    if n.Fields? then Fields(n.fields - {key}) else n
  }

  /** appendListNode() followed by writes into the new entry: the entry goes at the end of the list. */
  function AppendItem(n: Node, item: Node): (r: Node)
    ensures r.Items?
    ensures ChildrenList(Some(r)) == ChildrenList(Some(n)) + [item]
  {
    if n.Items? then Items(n.items + [item]) else Items([item])
  }
}
