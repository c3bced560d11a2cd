/** The segment rule tree that the rule builder edits, as the heap of
    JavaScript objects it is.

    A rule object is a group when its `operator` is truthy and a condition
    otherwise. A group keeps its children in a `rules` array. Rule objects
    and arrays are shared by reference: the three edit operations copy only
    the root object (`{ ...currentRules }`) and then change nested objects
    and arrays in place, so the tree they were given sees most of the edit
    too. The model keeps that sharing: `Node` and `RuleList` are classes, and
    each operation is a method whose frame holds at most the objects the
    source may change. */
module RuleTree {
  import opened Common

  /** The scalar keys of a rule object. A key the object lacks in the source
      (`operator` on a condition; `field`, `condition`, `value` on a group) is
      held as the empty string, which the code treats alike. */
  datatype Attrs = Attrs(operator: string, field: string, condition: string, value: Value)

  /** The null-key attributes of a fresh group `{ operator, rules: [] }`. */
  function GroupAttrs(operator: string): Attrs { Attrs(operator, "", "", Blank) }

  /** The attributes of a fresh draft condition `{ field: '', condition: '', value: '' }`. */
  const DraftAttrs: Attrs := Attrs("", "", "", Blank)

  /** The `key` and `value` of one `updateRule` call. */
  datatype Assignment =
    | SetOperator(operator: string)
    | SetField(field: string)
    | SetCondition(condition: string)
    | SetValue(value: Value)

  /** `target[key] = value`: the named key takes the value, every other key
      keeps its old one. */
  function Assign(attrs: Attrs, a: Assignment): (r: Attrs)
    ensures r.operator == (if a.SetOperator? then a.operator else attrs.operator)
    ensures r.field == (if a.SetField? then a.field else attrs.field)
    ensures r.condition == (if a.SetCondition? then a.condition else attrs.condition)
    ensures r.value == (if a.SetValue? then a.value else attrs.value)
  {
    match a
    case SetOperator(o) => attrs.(operator := o)
    case SetField(f) => attrs.(field := f)
    case SetCondition(c) => attrs.(condition := c)
    case SetValue(v) => attrs.(value := v)
  }

  /** A JavaScript array of rule objects. */
  class RuleList {
    var items: seq<Node>

    constructor Empty()
      ensures items == []
    {
      items := [];
    }
  }

  /** A rule object. `rules` is null when the object has no `rules` key. */
  class Node {
    var attrs: Attrs
    var rules: RuleList?

    /** `{ operator, rules: [] }` */
    constructor Group(operator: string)
      ensures attrs == GroupAttrs(operator)
      ensures rules != null && fresh(rules) && rules.items == []
      ensures IsGroup(this) <==> operator != ""
    {
      var list := new RuleList.Empty();
      attrs := GroupAttrs(operator);
      rules := list;
    }

    /** `{ field: '', condition: '', value: '' }` */
    constructor Draft()
      ensures attrs == DraftAttrs && rules == null
      ensures !IsGroup(this)
    {
      attrs := DraftAttrs;
      rules := null;
    }

    /** `{ ...n }`: a new object with the same keys, sharing `n`'s array. */
    constructor CopyOf(n: Node)
      ensures attrs == n.attrs && rules == n.rules
    {
      attrs := n.attrs;
      rules := n.rules;
    }
  }

  /** A node is a group exactly when its `operator` is truthy. */
  predicate IsGroup(n: Node)
    reads n`attrs
  {
    n.attrs.operator != ""
  }

  /** `nodes` and `lists` hold every object reachable from them: the arrays
      of the nodes and the elements of the arrays. */
  ghost predicate Closed(nodes: set<Node>, lists: set<RuleList>)
    reads nodes`rules, lists`items
  {
    && (forall n :: n in nodes && n.rules != null ==> n.rules in lists)
    && (forall l, i :: l in lists && 0 <= i < |l.items| ==> l.items[i] in nodes)
  }

  /** The tree invariant the renderer relies on (it maps over every group's
      `rules`): the objects are closed and every group has an array. */
  ghost predicate WellFormed(nodes: set<Node>, lists: set<RuleList>)
    reads nodes`attrs, nodes`rules, lists`items
  {
    Closed(nodes, lists) && forall n :: n in nodes && IsGroup(n) ==> n.rules != null
  }

  /** `start`'s array, if any, belongs to `lists`. */
  ghost predicate Anchored(lists: set<RuleList>, start: Node)
    reads start`rules
  {
    start.rules == null || start.rules in lists
  }

  /** The node that `target = target.rules[path[i]]` reaches from `start`
      after the whole path, or null where the JavaScript walk would hit
      `undefined` (a missing array or an index past its end). */
  ghost function Resolve(nodes: set<Node>, lists: set<RuleList>, start: Node, path: seq<nat>): (r: Node?)
    requires Closed(nodes, lists) && Anchored(lists, start)
    reads start`rules, nodes`rules, lists`items
    ensures r != null ==> r == start || r in nodes
    decreases |path|
  {
    if path == [] then start
    else
      var parent := Resolve(nodes, lists, start, path[..|path| - 1]);
      var k := path[|path| - 1];
      if parent == null || parent.rules == null || k >= |parent.rules.items| then null
      else parent.rules.items[k]
  }

  /** The array of `n`, as a frame. */
  function ListOf(n: Node): (s: set<RuleList>)
    reads n`rules
    ensures s == {} <==> n.rules == null
  {
    if n.rules == null then {} else {n.rules}
  }

  /** The node an edit at `path` changes when it is not the copied root. */
  ghost function BelowRoot(nodes: set<Node>, lists: set<RuleList>, root: Node, path: seq<nat>): set<Node>
    requires Closed(nodes, lists) && Anchored(lists, root)
    reads root`rules, nodes`rules, lists`items
  {
    var t := Resolve(nodes, lists, root, path);
    if path == [] || t == null then {} else {t}
  }

  /** The path of the group `removeRule` edits: all of `path` but its last index. */
  function ParentPath(path: seq<nat>): (p: seq<nat>)
    ensures path != [] ==> path == p + [path[|path| - 1]]
    ensures path == [] ==> p == []
  {
    if path == [] then [] else path[..|path| - 1]
  }

  /** `path[path.length - 1]` as `splice` reads it: `undefined` for the empty
      path, which `splice` takes as index 0. */
  function RemovedIndex(path: seq<nat>): (k: nat)
    ensures path != [] ==> path == ParentPath(path) + [k]
    ensures path == [] ==> k == 0
  {
    if path == [] then 0 else path[|path| - 1]
  }

  /** `s.splice(k, 1)` on the array's contents. */
  function Splice(s: seq<Node>, k: nat): (r: seq<Node>)
    ensures k < |s| ==> |r| == |s| - 1
    ensures k < |s| ==> forall i :: 0 <= i < k ==> r[i] == s[i]
    ensures k < |s| ==> forall i :: k <= i < |r| ==> r[i] == s[i + 1]
    ensures k < |s| ==> multiset(r) + multiset{s[k]} == multiset(s)
    ensures k >= |s| ==> r == s
  {
    if k < |s| then
      assert s == s[..k] + [s[k]] + s[k + 1..];
      s[..k] + s[k + 1..]
    else s
  }

  /** The length of a node's top-level `rules`, if it has the array. */
  function TopLevel(n: Node): (r: Option<nat>)
    reads n`rules, if n.rules == null then {} else {n.rules}
    ensures r.Some? <==> n.rules != null
    ensures r.Some? ==> r.value == |n.rules.items|
  {
    if n.rules == null then None else Some(|n.rules.items|)
  }

  /** A prefix of a resolvable path is resolvable. */
  lemma {:induction false} PrefixResolves(nodes: set<Node>, lists: set<RuleList>, start: Node, path: seq<nat>, k: nat)
    requires Closed(nodes, lists) && Anchored(lists, start)
    requires k <= |path| && Resolve(nodes, lists, start, path) != null
    ensures Resolve(nodes, lists, start, path[..k]) != null
    decreases |path|
  {
    if k < |path| {
      var up := path[..|path| - 1];
      assert up[..k] == path[..k];
      PrefixResolves(nodes, lists, start, up, k);
    } else {
      assert path[..k] == path;
    }
  }

  /** Two objects sharing one array reach the same node along every non-empty
      path: the shallow copy of the root leads into the input's subtree. */
  lemma {:induction false} SharedRulesResolveAlike(nodes: set<Node>, lists: set<RuleList>, a: Node, b: Node, path: seq<nat>)
    requires Closed(nodes, lists) && Anchored(lists, a) && a.rules == b.rules
    requires path != []
    ensures Resolve(nodes, lists, a, path) == Resolve(nodes, lists, b, path)
    decreases |path|
  {
    if |path| > 1 {
      SharedRulesResolveAlike(nodes, lists, a, b, path[..|path| - 1]);
    }
  }

  /** One more index extends the walk by one step. */
  lemma StepResolve(nodes: set<Node>, lists: set<RuleList>, start: Node, path: seq<nat>, i: nat)
    requires Closed(nodes, lists) && Anchored(lists, start)
    requires i < |path| && Resolve(nodes, lists, start, path[..i + 1]) != null
    ensures var t := Resolve(nodes, lists, start, path[..i]);
      t != null && t.rules != null && path[i] < |t.rules.items|
      && Resolve(nodes, lists, start, path[..i + 1]) == t.rules.items[path[i]]
  {
    assert path[..i + 1][..i] == path[..i];
  }

  /** The walk the three edit operations share: `steps` rounds of
      `target = target.rules[path[i]]` starting at the copy of the root. The
      copy shares the root's array, so after one step the walk is inside the
      input tree. */
  method Descend(ghost nodes: set<Node>, ghost lists: set<RuleList>, root: Node, copy: Node, path: seq<nat>, steps: nat)
    returns (target: Node)
    requires Closed(nodes, lists) && root in nodes && copy.rules == root.rules
    requires steps <= |path| && Resolve(nodes, lists, root, path[..steps]) != null
    ensures steps == 0 ==> target == copy
    ensures steps > 0 ==> target == Resolve(nodes, lists, root, path[..steps]) && target in nodes
  {
    target := copy;
    var i := 0;
    while i < steps
      invariant 0 <= i <= steps
      invariant i == 0 ==> target == copy
      invariant i > 0 ==> target == Resolve(nodes, lists, root, path[..i])
    {
      PrefixResolves(nodes, lists, root, path[..steps], i + 1);
      assert path[..steps][..i + 1] == path[..i + 1];
      StepResolve(nodes, lists, root, path, i);
      target := target.rules.items[path[i]];
      i := i + 1;
    }
  }

  /** The start of every edit: copy the root shallowly, then walk `steps`
      indices of the path from the copy. */
  method CopyAndDescend(ghost nodes: set<Node>, ghost lists: set<RuleList>, root: Node, path: seq<nat>, steps: nat)
    returns (newRoot: Node, target: Node)
    requires Closed(nodes, lists) && root in nodes
    requires steps <= |path| && Resolve(nodes, lists, root, path[..steps]) != null
    ensures fresh(newRoot) && newRoot.attrs == root.attrs && newRoot.rules == root.rules
    ensures Closed(nodes + {newRoot}, lists)
    ensures WellFormed(nodes, lists) ==> WellFormed(nodes + {newRoot}, lists)
    ensures target == if steps == 0 then newRoot else Resolve(nodes, lists, root, path[..steps])
    ensures steps > 0 ==> target in nodes
  {
    newRoot := new Node.CopyOf(root);
    target := Descend(nodes, lists, root, newRoot, path, steps);
  }

  /** `updateRule(currentRules, path, key, value)`. */
  method UpdateRule(ghost nodes: set<Node>, ghost lists: set<RuleList>, root: Node, path: seq<nat>, a: Assignment)
    returns (newRoot: Node)
    requires Closed(nodes, lists) && root in nodes
    requires Resolve(nodes, lists, root, path) != null
    modifies BelowRoot(nodes, lists, root, path)`attrs
    ensures fresh(newRoot) && newRoot.rules == root.rules
    ensures Closed(nodes + {newRoot}, lists)
    // at the root the copy takes the edit and the input root does not
    ensures path == [] ==> newRoot.attrs == Assign(root.attrs, a) && root.attrs == old(root.attrs)
    // below the root the edited node is shared: the input reaches it too
    ensures path != [] ==>
      var t := old(Resolve(nodes, lists, root, path));
      && newRoot.attrs == old(root.attrs)
      && t.attrs == Assign(old(t.attrs), a)
      && Resolve(nodes, lists, root, path) == t
      && Resolve(nodes, lists, newRoot, path) == t
    // setting an operator only where there is an array keeps every group renderable
    ensures old(WellFormed(nodes, lists)) && (a.SetOperator? ==> old(Resolve(nodes, lists, root, path)).rules != null)
      ==> WellFormed(nodes + {newRoot}, lists)
  {
    assert path[..|path|] == path;
    var target;
    newRoot, target := CopyAndDescend(nodes, lists, root, path, |path|);
    if path != [] {
      SharedRulesResolveAlike(nodes, lists, root, newRoot, path);
    }
    AssignAt(nodes + {newRoot}, lists, target, a);
  }

  /** `target[key] = value` on one rule object. */
  method AssignAt(ghost nodes: set<Node>, ghost lists: set<RuleList>, target: Node, a: Assignment)
    requires target in nodes
    modifies target`attrs
    ensures target.attrs == Assign(old(target.attrs), a)
    // an operator set on an object with an array leaves every group with an array
    ensures old(WellFormed(nodes, lists)) && (a.SetOperator? ==> target.rules != null) ==> WellFormed(nodes, lists)
  {
    target.attrs := Assign(target.attrs, a);
  }

  /** The tail of `addRule` once the target is found: give it an array if
      it has none, then push one fresh rule object onto that array. */
  method AppendChild(ghost nodes: set<Node>, ghost lists: set<RuleList>, target: Node, isGroup: bool)
    returns (ghost child: Node, ghost nodes': set<Node>, ghost lists': set<RuleList>)
    requires Closed(nodes, lists) && target in nodes
    modifies target`rules, ListOf(target)
    ensures Closed(nodes', lists') && nodes <= nodes' && lists <= lists'
    ensures old(target.rules) != null ==> target.rules == old(target.rules)
    ensures old(target.rules) == null ==> target.rules != null && fresh(target.rules)
    ensures target.rules != null
    ensures target.rules.items == (if old(target.rules) == null then [] else old(target.rules.items)) + [child]
    ensures fresh(child) && child.attrs == (if isGroup then GroupAttrs("AND") else DraftAttrs)
    ensures if isGroup then child.rules != null && fresh(child.rules) && child.rules.items == [] else child.rules == null
    ensures old(WellFormed(nodes, lists)) ==> WellFormed(nodes', lists')
  {
    if target.rules == null {
      var list := new RuleList.Empty();
      target.rules := list;
    }
    var c: Node;
    if isGroup {
      c := new Node.Group("AND");
    } else {
      c := new Node.Draft();
    }
    target.rules.items := target.rules.items + [c];
    child := c;
    nodes' := nodes + {c};
    lists' := lists + {target.rules} + ListOf(c);
  }

  /** `addRule(currentRules, path, isGroup)`. The ghost results name the
      group that receives the new element (`t`), the array it had before
      (`before`) and the new element (`child`). */
  method AddRule(ghost nodes: set<Node>, ghost lists: set<RuleList>, root: Node, path: seq<nat>, isGroup: bool)
    returns (newRoot: Node, ghost t: Node, ghost before: RuleList?, ghost child: Node,
             ghost nodes': set<Node>, ghost lists': set<RuleList>)
    requires Closed(nodes, lists) && root in nodes
    requires Resolve(nodes, lists, root, path) != null
    modifies ListOf(Resolve(nodes, lists, root, path)), BelowRoot(nodes, lists, root, path)`rules
    ensures fresh(newRoot) && newRoot.attrs == old(root.attrs)
    ensures Closed(nodes', lists') && nodes + {newRoot} <= nodes' && lists <= lists'
    // the target is the copy at the root and the input's own node below it
    ensures t == if path == [] then newRoot else old(Resolve(nodes, lists, root, path))
    ensures before == old(Resolve(nodes, lists, root, path).rules)
    // an existing array is extended in place; a missing one is created first
    ensures t.rules != null && (before != null ==> t.rules == before) && (before == null ==> fresh(t.rules))
    // exactly one element is appended at the end: a fresh empty AND group or a fresh draft condition
    ensures t.rules.items == (if before == null then [] else old(before.items)) + [child]
    ensures fresh(child) && child.attrs == (if isGroup then GroupAttrs("AND") else DraftAttrs)
    ensures if isGroup then child.rules != null && fresh(child.rules) && child.rules.items == [] else child.rules == null
    // even at the root the input sees the new element through the shared array
    ensures old(root.rules) != null ==> newRoot.rules == root.rules == old(root.rules)
    ensures old(WellFormed(nodes, lists)) ==> WellFormed(nodes', lists')
  {
    t := Resolve(nodes, lists, root, path);
    before := t.rules;
    assert path[..|path|] == path;
    var target;
    newRoot, target := CopyAndDescend(nodes, lists, root, path, |path|);
    if path == [] {
      t := newRoot;
    }
    child, nodes', lists' := AppendChild(nodes + {newRoot}, lists, target, isGroup);
  }

  /** `removeRule(currentRules, path)`. */
  method RemoveRule(ghost nodes: set<Node>, ghost lists: set<RuleList>, root: Node, path: seq<nat>)
    returns (newRoot: Node)
    requires Closed(nodes, lists) && root in nodes
    requires var p := Resolve(nodes, lists, root, ParentPath(path)); p != null && p.rules != null
    modifies Resolve(nodes, lists, root, ParentPath(path)).rules
    ensures fresh(newRoot) && newRoot.attrs == old(root.attrs) && newRoot.rules == root.rules == old(root.rules)
    ensures Closed(nodes + {newRoot}, lists)
    // the parent's array, which the input shares, loses exactly one element
    ensures var l := old(Resolve(nodes, lists, root, ParentPath(path)).rules);
      l.items == Splice(old(l.items), RemovedIndex(path))
    ensures old(WellFormed(nodes, lists)) ==> WellFormed(nodes + {newRoot}, lists)
  {
    var steps := if path == [] then 0 else |path| - 1;
    assert path[..steps] == ParentPath(path);
    var parent;
    newRoot, parent := CopyAndDescend(nodes, lists, root, path, steps);
    var index := RemovedIndex(path);
    parent.rules.items := Splice(parent.rules.items, index);
  }

  /** Removing the element an add appended, at the index it was appended
      at, gives the array back its old contents: `removeRule(addRule(t, p),
      p + [k])` undoes the add when `k` was the group's length. */
  lemma SpliceUndoesAppend(s: seq<Node>, c: Node)
    ensures Splice(s + [c], |s|) == s
  {
  }
}
