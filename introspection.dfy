/** The object tree that listenObjects walks (controller/logcontroller.cpp:88-125),
    the subscriptions one walk makes, and the log messages of the two
    handlers those subscriptions lead to (controller/logcontroller.cpp:128-143).
    Qt's run-time reflection is replaced by plain data: each node says
    whether it is a widget and lists its actions, its meta-methods and its
    children. */
module Introspection {

  datatype MethodType = Method | Signal | Slot | Constructor
  datatype Access = Private | Protected | Public

  /** One entry of a meta-object's method table. */
  datatype MetaMethod = MetaMethod(name: string, methodType: MethodType, access: Access)

  /** An action attached to a widget, with its display text and object name. */
  datatype Action = Action(text: string, objectName: string)

  /** An object of the tree. Only widgets have actions in the walk, and only
      the children of a widget are visited. */
  datatype Node = Node(
    objectName: string,
    isWidget: bool,
    actions: seq<Action>,
    methods: seq<MetaMethod>,
    children: seq<Node>)

  /** A connection made by the walk: the triggered signal of an action, or
      a public signal of an object, both to the controller's handler. */
  datatype Subscription =
    | ActionTriggered(action: Action)
    | SignalConnection(emitter: string, signal: string)

  /** The meta-methods the walk connects when signal inspection is on. */
  predicate IsPublicSignal(m: MetaMethod) {
    m.methodType == Signal && m.access == Public
  }

  /** The connections of the actions loop: one per action, in order. */
  function ActionSubscriptions(actions: seq<Action>): (subs: seq<Subscription>)
  {
    if actions == [] then []
    else ActionSubscriptions(actions[..|actions| - 1]) + [ActionTriggered(actions[|actions| - 1])]
  }

  /** The connections of the meta-method loop: one per public signal, in
      method-table order. */
  function SignalSubscriptions(emitter: string, methods: seq<MetaMethod>): (subs: seq<Subscription>)
  {
    if methods == [] then []
    else
      var m := methods[|methods| - 1];
      SignalSubscriptions(emitter, methods[..|methods| - 1])
        + (if IsPublicSignal(m) then [SignalConnection(emitter, m.name)] else [])
  }

  /** The connections made for a node itself, before its children. */
  function OwnSubscriptions(n: Node, inspection: bool): (subs: seq<Subscription>)
  {
    (if n.isWidget then ActionSubscriptions(n.actions) else [])
      + (if inspection then SignalSubscriptions(n.objectName, n.methods) else [])
  }

  /** All connections one call of listenObjects on n makes, in the order it
      makes them: the node's own, then those of each child of a widget. */
  function Subscriptions(n: Node, inspection: bool): (subs: seq<Subscription>)
    decreases n, 1
  {
    OwnSubscriptions(n, inspection)
      + (if n.isWidget then ChildSubscriptions(n, |n.children|, inspection) else [])
  }

  /** The connections made for the first k children of n. */
  function ChildSubscriptions(n: Node, k: nat, inspection: bool): (subs: seq<Subscription>)
    requires k <= |n.children|
    decreases n, 0, k
  {
    if k == 0 then []
    else ChildSubscriptions(n, k - 1, inspection) + Subscriptions(n.children[k - 1], inspection)
  }

  // Reference definition: the nodes a walk visits, and what each contributes.

  /** The nodes the walk visits, depth first and in pre-order: the node,
      then, for a widget only, the visited nodes of each child. */
  function Reached(n: Node): (nodes: seq<Node>)
    ensures |nodes| > 0 && nodes[0] == n
    decreases n, 1
  {
    [n] + (if n.isWidget then ReachedChildren(n, |n.children|) else [])
  }

  function ReachedChildren(n: Node, k: nat): (nodes: seq<Node>)
    requires k <= |n.children|
    decreases n, 0, k
  {
    if k == 0 then [] else ReachedChildren(n, k - 1) + Reached(n.children[k - 1])
  }

  /** The own connections of a sequence of nodes, one node after another. */
  function Collect(nodes: seq<Node>, inspection: bool): (subs: seq<Subscription>)
  {
    if nodes == [] then [] else OwnSubscriptions(nodes[0], inspection) + Collect(nodes[1..], inspection)
  }

  lemma {:induction false} CollectAppend(a: seq<Node>, b: seq<Node>, inspection: bool)
    ensures Collect(a + b, inspection) == Collect(a, inspection) + Collect(b, inspection)
  {
    if a == [] {
      assert a + b == b;
    } else {
      assert (a + b)[0] == a[0] && (a + b)[1..] == a[1..] + b;
      CollectAppend(a[1..], b, inspection);
    }
  }

  /** The walk connects, in pre-order, exactly the own connections of every
      node it reaches: a widget's actions, every reached node's public
      signals when inspection is on, and nothing below a non-widget. */
  lemma {:induction false} SubscriptionsAreReachedOwn(n: Node, inspection: bool)
    ensures Subscriptions(n, inspection) == Collect(Reached(n), inspection)
    decreases n, 1
  {
    if n.isWidget {
      ChildSubscriptionsAreReachedOwn(n, |n.children|, inspection);
      CollectAppend([n], ReachedChildren(n, |n.children|), inspection);
    }
    assert Collect([n], inspection) == OwnSubscriptions(n, inspection) by {
      assert [n][1..] == [];
    }
  }

  lemma {:induction false} ChildSubscriptionsAreReachedOwn(n: Node, k: nat, inspection: bool)
    requires k <= |n.children|
    ensures ChildSubscriptions(n, k, inspection) == Collect(ReachedChildren(n, k), inspection)
    decreases n, 0, k
  {
    if k > 0 {
      ChildSubscriptionsAreReachedOwn(n, k - 1, inspection);
      SubscriptionsAreReachedOwn(n.children[k - 1], inspection);
      CollectAppend(ReachedChildren(n, k - 1), Reached(n.children[k - 1]), inspection);
    }
  }

  /** Every child of a widget is visited, with everything visited below it;
      a non-widget is visited alone. */
  lemma {:induction false} ReachedChildrenContain(n: Node, k: nat, i: nat)
    requires i < k <= |n.children|
    ensures forall m :: m in Reached(n.children[i]) ==> m in ReachedChildren(n, k)
    decreases k
  {
    if i < k - 1 {
      ReachedChildrenContain(n, k - 1, i);
    }
  }

  lemma ReachesEveryChild(n: Node)
    ensures n.isWidget ==> forall i, m :: 0 <= i < |n.children| && m in Reached(n.children[i]) ==> m in Reached(n)
    ensures !n.isWidget ==> Reached(n) == [n]
  {
    if n.isWidget {
      forall i, m | 0 <= i < |n.children| && m in Reached(n.children[i]) ensures m in Reached(n) {
        ReachedChildrenContain(n, |n.children|, i);
      }
    }
  }

  // Counting.

  /** The number of public signals in a method table. */
  function PublicSignalCount(methods: seq<MetaMethod>): (count: nat)
  {
    if methods == [] then 0
    else PublicSignalCount(methods[..|methods| - 1]) + (if IsPublicSignal(methods[|methods| - 1]) then 1 else 0)
  }

  /** What one node adds to the count: one per action of a widget, and one
      per public signal when inspection is on. */
  function OwnCount(n: Node, inspection: bool): (count: nat)
  {
    (if n.isWidget then |n.actions| else 0) + (if inspection then PublicSignalCount(n.methods) else 0)
  }

  /** The count a sequence of visited nodes adds up to. */
  function TotalCount(nodes: seq<Node>, inspection: bool): (count: nat)
  {
    if nodes == [] then 0 else OwnCount(nodes[0], inspection) + TotalCount(nodes[1..], inspection)
  }

  lemma {:induction false} OwnSubscriptionsCount(n: Node, inspection: bool)
    ensures |OwnSubscriptions(n, inspection)| == OwnCount(n, inspection)
  {
    ActionSubscriptionsLength(n.actions);
    SignalSubscriptionsLength(n.objectName, n.methods);
  }

  lemma {:induction false} ActionSubscriptionsLength(actions: seq<Action>)
    ensures |ActionSubscriptions(actions)| == |actions|
    decreases |actions|
  {
    if actions != [] {
      ActionSubscriptionsLength(actions[..|actions| - 1]);
    }
  }

  lemma {:induction false} SignalSubscriptionsLength(emitter: string, methods: seq<MetaMethod>)
    ensures |SignalSubscriptions(emitter, methods)| == PublicSignalCount(methods)
    decreases |methods|
  {
    if methods != [] {
      SignalSubscriptionsLength(emitter, methods[..|methods| - 1]);
    }
  }

  lemma {:induction false} CollectLength(nodes: seq<Node>, inspection: bool)
    ensures |Collect(nodes, inspection)| == TotalCount(nodes, inspection)
  {
    if nodes != [] {
      CollectLength(nodes[1..], inspection);
      OwnSubscriptionsCount(nodes[0], inspection);
    }
  }

  /** A walk attempts one connection per action of every reached widget
      and, with inspection on, one per public signal of every reached node. */
  lemma SubscriptionsCounted(n: Node, inspection: bool)
    ensures |Subscriptions(n, inspection)| == TotalCount(Reached(n), inspection)
  {
    SubscriptionsAreReachedOwn(n, inspection);
    CollectLength(Reached(n), inspection);
  }

  /** A widget with two actions and one widget child with one action, with
      inspection off: three connections. */
  lemma ThreeSubscriptions(a: Action, b: Action, c: Action, methods: seq<MetaMethod>)
    ensures var child := Node("child", true, [c], methods, []);
            var root := Node("root", true, [a, b], methods, [child]);
            |Subscriptions(root, false)| == 3
  {
    var child := Node("child", true, [c], methods, []);
    var root := Node("root", true, [a, b], methods, [child]);
    SubscriptionsCounted(root, false);
    assert Reached(child) == [child];
    assert ReachedChildren(root, 0) == [];
    assert ReachedChildren(root, 1) == [child];
    assert Reached(root) == [root, child];
    assert [root, child][1..] == [child];
    assert [child][1..] == [];
    assert OwnCount(root, false) == 2;
    assert OwnCount(child, false) == 1;
    assert TotalCount([child], false) == 1;
    assert TotalCount([root, child], false) == 3;
  }

  // The messages the two handlers log.

  /** The Info message of actionActivated: "[Action] - <text> - <name>". */
  function ActionMessage(action: Action): (msg: string)
    ensures |msg| == |"[Action] - "| + |action.text| + 3 + |action.objectName|
    ensures msg[..|"[Action] - "|] == "[Action] - "
    ensures msg[|"[Action] - "|..|"[Action] - "| + |action.text|] == action.text
    ensures msg[|"[Action] - "| + |action.text|..|"[Action] - "| + |action.text| + 3] == " - "
    ensures msg[|msg| - |action.objectName|..] == action.objectName
  {
    "[Action] - " + action.text + " - " + action.objectName
  }

  /** The Info message of signalActivated: "[signal] - <name>". */
  function SignalMessage(signal: string): (msg: string)
    ensures |msg| == |"[signal] - "| + |signal|
    ensures msg[..|"[signal] - "|] == "[signal] - " && msg[|"[signal] - "|..] == signal
  {
    "[signal] - " + signal
  }

}
