/** The command tree a client is sent, flattened into an array of nodes linked by their indices. */
module CommandTrees {
  import opened Prelude

  datatype Parser = Float(low: int, high: int) | Integer(low: int, high: int) | Text(behavior: nat)

  datatype Argument = Argument(name: string, parser: Parser)

  datatype Command = Command(alias: string, arguments: seq<Argument>, required: int)

  datatype NodeData = Root | Literal(name: string) | Typed(argument: Argument)

  datatype Node = Node(data: NodeData, executable: bool, children: seq<nat>)

  // ---- The array --------------------------------------------------------------------------------

  // Node i of a command whose first node has index `base`: its literal, then its arguments in a chain.
  function CommandNode(c: Command, base: nat, i: nat): Node
    requires i <= |c.arguments|
  {
    Node(if i == 0 then Literal(c.alias) else Typed(c.arguments[i - 1]),
         if i == 0 then c.required < 1 else 1 >= c.required,
         if i < |c.arguments| then [base + i + 1] else [])
  }

  function CommandNodes(c: Command, base: nat): seq<Node> {
    seq(|c.arguments| + 1, i requires 0 <= i <= |c.arguments| => CommandNode(c, base, i))
  }

  // All nodes but the root.
  function Body(commands: seq<Command>): seq<Node> {
    if commands == [] then []
    else
      var before := Body(commands[..|commands| - 1]);
      before + CommandNodes(commands[|commands| - 1], 1 + |before|)
  }

  // The indices of the commands' literals.
  function Bases(commands: seq<Command>): (bases: seq<nat>)
    ensures |bases| == |commands|
  {
    if commands == [] then []
    else Bases(commands[..|commands| - 1]) + [1 + |Body(commands[..|commands| - 1])|]
  }

  function Nodes(commands: seq<Command>): seq<Node> { [Node(Root, false, Bases(commands))] + Body(commands) }

  function WithChild(n: Node, child: nat): Node { n.(children := n.children + [child]) }

  lemma {:induction false} LastCommand(commands: seq<Command>)
    requires commands != []
    ensures var m := |commands| - 1;
            var body := Body(commands[..m]);
            Body(commands) == body + CommandNodes(commands[m], 1 + |body|)
            && Bases(commands) == Bases(commands[..m]) + [1 + |body|]
  {
  }

  lemma {:induction false} NextCommand(commands: seq<Command>, i: nat)
    requires i < |commands|
    ensures var body := Body(commands[..i]);
            Body(commands[..i + 1]) == body + CommandNodes(commands[i], 1 + |body|) &&
            Bases(commands[..i + 1]) == Bases(commands[..i]) + [1 + |body|]
  {
    assert commands[..i + 1][..i] == commands[..i];
    LastCommand(commands[..i + 1]);
  }

  // CommandsPacket::new, for as many nodes as an i32 can count.
  method NewCommandsPacket(commands: seq<Command>) returns (nodes: seq<Node>)
    requires |Nodes(commands)| <= I32_MAX
    ensures nodes == Nodes(commands)
  {
    var rootChildren;
    nodes, rootChildren := AddCommands(commands);
    nodes := AddRootChildren(nodes, rootChildren);
  }

  method AddCommands(commands: seq<Command>) returns (nodes: seq<Node>, rootChildren: seq<nat>)
    ensures nodes == [Node(Root, false, [])] + Body(commands)
    ensures rootChildren == Bases(commands)
  {
    nodes := [Node(Root, false, [])];
    rootChildren := [];
    ghost var body: seq<Node> := [];
    for i := 0 to |commands|
      invariant body == Body(commands[..i]) && nodes == [Node(Root, false, [])] + body
      invariant rootChildren == Bases(commands[..i])
    {
      NextCommand(commands, i);
      body := body + CommandNodes(commands[i], 1 + |body|);
      rootChildren := rootChildren + [|nodes|];
      nodes := AddCommand(nodes, commands[i]);
    }
    assert commands[..|commands|] == commands;
  }

  method AddRootChildren(before: seq<Node>, rootChildren: seq<nat>) returns (nodes: seq<Node>)
    requires before != [] && before[0].children == []
    ensures nodes == before[0 := before[0].(children := rootChildren)]
  {
    nodes := before;
    for i := 0 to |rootChildren|
      invariant nodes == before[0 := before[0].(children := rootChildren[..i])]
    {
      nodes := nodes[0 := WithChild(nodes[0], rootChildren[i])];
      assert rootChildren[..i + 1] == rootChildren[..i] + [rootChildren[i]];
    }
    assert rootChildren[..|rootChildren|] == rootChildren;
  }

  // A command with one more argument: the node before it gets a child.
  lemma {:induction false} OneMoreArgument(c: Command, base: nat, i: nat)
    requires i < |c.arguments|
    ensures var done := CommandNodes(c.(arguments := c.arguments[..i]), base);
            CommandNodes(c.(arguments := c.arguments[..i + 1]), base) ==
              done[i := WithChild(done[i], base + i + 1)] + [Node(Typed(c.arguments[i]), 1 >= c.required, [])]
  {
    var done := CommandNodes(c.(arguments := c.arguments[..i]), base);
    var more := CommandNodes(c.(arguments := c.arguments[..i + 1]), base);
    var expected := done[i := WithChild(done[i], base + i + 1)] + [Node(Typed(c.arguments[i]), 1 >= c.required, [])];
    assert |more| == |expected|;
    assert more[i].children == [base + i + 1];
    forall j | 0 <= j < |more|
      ensures more[j] == expected[j]
    {
    }
  }

  method AddCommand(before: seq<Node>, command: Command) returns (nodes: seq<Node>)
    ensures nodes == before + CommandNodes(command, |before|)
  {
    var current := |before|;
    nodes := before + [Node(Literal(command.alias), command.required < 1, [])];
    for i := 0 to |command.arguments|
      invariant current == |before| + i
      invariant nodes == before + CommandNodes(command.(arguments := command.arguments[..i]), |before|)
    {
      var index := |nodes|;
      OneMoreArgument(command, |before|, i);
      nodes := nodes[current := WithChild(nodes[current], index)];
      nodes := nodes + [Node(Typed(command.arguments[i]), index - current >= command.required, [])];
      current := index;
    }
    assert command.arguments[..|command.arguments|] == command.arguments;
  }

  // ---- A tree -----------------------------------------------------------------------------------

  // Below the root, a node's only child is the argument node after it, if the next node is one.
  predicate Linked(body: seq<Node>, i: nat)
    requires i < |body|
  {
    && !body[i].data.Root?
    && body[i].children == if i + 1 < |body| && body[i + 1].data.Typed? then [i + 2] else []
  }

  predicate Chained(body: seq<Node>) {
    && (body != [] ==> body[0].data.Literal?)
    && forall i :: 0 <= i < |body| ==> Linked(body, i)
  }

  lemma {:induction false} ChainedAppend(a: seq<Node>, c: Command)
    requires Chained(a)
    ensures Chained(a + CommandNodes(c, 1 + |a|))
  {
    var b := CommandNodes(c, 1 + |a|);
    var ab := a + b;
    forall i | 0 <= i < |ab|
      ensures Linked(ab, i)
    {
      if i < |a| {
        assert Linked(a, i);
        assert i + 1 == |a| ==> ab[i + 1] == b[0] == CommandNode(c, 1 + |a|, 0);
      } else {
        assert ab[i] == b[i - |a|] == CommandNode(c, 1 + |a|, i - |a|);
        assert i + 1 < |ab| ==> ab[i + 1] == b[i + 1 - |a|] == CommandNode(c, 1 + |a|, i + 1 - |a|);
      }
    }
  }

  // The root's children are the literals, in order.
  ghost predicate Rooted(bases: seq<nat>, body: seq<Node>) {
    && (forall i, j :: 0 <= i < j < |bases| ==> bases[i] < bases[j])
    && (forall k :: k in bases <==> 1 <= k <= |body| && body[k - 1].data.Literal?)
  }

  lemma {:induction false} RootedAppend(bases: seq<nat>, a: seq<Node>, c: Command)
    requires Rooted(bases, a)
    ensures Rooted(bases + [1 + |a|], a + CommandNodes(c, 1 + |a|))
  {
    var ab := a + CommandNodes(c, 1 + |a|);
    var more := bases + [1 + |a|];
    forall i, j | 0 <= i < j < |more|
      ensures more[i] < more[j]
    {
      assert i < |bases| ==> bases[i] in bases;
    }
    forall k: int
      ensures k in more <==> 1 <= k <= |ab| && ab[k - 1].data.Literal?
    {
      assert k in more <==> k in bases || k == 1 + |a|;
      if |a| < k <= |ab| {
        assert ab[k - 1] == CommandNode(c, 1 + |a|, k - 1 - |a|);
      }
    }
  }

  lemma {:induction false} LastIsLinked(commands: seq<Command>)
    requires commands != []
    requires var before := commands[..|commands| - 1]; Chained(Body(before)) && Rooted(Bases(before), Body(before))
    ensures Chained(Body(commands)) && Rooted(Bases(commands), Body(commands))
  {
    hide Chained, Rooted, Body, Bases, CommandNodes;
    var m := |commands| - 1;
    LastCommand(commands);
    ChainedAppend(Body(commands[..m]), commands[m]);
    RootedAppend(Bases(commands[..m]), Body(commands[..m]), commands[m]);
  }

  lemma {:induction false} BodyIsLinked(commands: seq<Command>)
    ensures Chained(Body(commands)) && Rooted(Bases(commands), Body(commands))
  {
    if commands == [] {
    } else {
      BodyIsLinked(commands[..|commands| - 1]);
      LastIsLinked(commands);
    }
  }

  function ParentOf(nodes: seq<Node>, k: nat): nat
    requires 0 < k < |nodes|
  {
    if nodes[k].data.Literal? then 0 else k - 1
  }

  // The parent of k lists it, and no other node does.
  predicate HasOneParent(nodes: seq<Node>, p: nat, k: nat)
    requires p < |nodes|
  {
    && (k in nodes[p].children ==> p < k < |nodes|)
    && (0 < k < |nodes| ==> (k in nodes[p].children <==> p == ParentOf(nodes, k)))
  }

  predicate NoRepeats(s: seq<nat>) { forall i, j :: 0 <= i < j < |s| ==> s[i] != s[j] }

  // Every node but the root is the child of one node, which comes before it, and only once.
  ghost predicate IsTree(nodes: seq<Node>) {
    && nodes != []
    && (forall p: nat, k: nat :: p < |nodes| ==> HasOneParent(nodes, p, k))
    && (forall p: nat :: p < |nodes| ==> NoRepeats(nodes[p].children))
  }

  // The children of a node below the root.
  lemma {:induction false} ChildBelow(body: seq<Node>, p: nat, k: int)
    requires Chained(body) && p < |body|
    ensures k in body[p].children <==> k == p + 2 <= |body| && body[p + 1].data.Typed?
  {
    assert Linked(body, p);
  }

  lemma {:induction false} ParentIsUnique(commands: seq<Command>, p: nat, k: nat)
    requires p < |Nodes(commands)|
    ensures HasOneParent(Nodes(commands), p, k)
  {
    var nodes, body := Nodes(commands), Body(commands);
    BodyIsLinked(commands);
    if 0 < k < |nodes| {
      assert nodes[k] == body[k - 1] && Linked(body, k - 1);
    }
    if p == 0 {
      assert k in Bases(commands) <==> 1 <= k <= |body| && body[k - 1].data.Literal?;
    } else {
      assert nodes[p] == body[p - 1];
      ChildBelow(body, p - 1, k);
    }
  }

  lemma {:induction false} ChildrenAreDistinct(commands: seq<Command>, p: nat)
    requires p < |Nodes(commands)|
    ensures NoRepeats(Nodes(commands)[p].children)
  {
    BodyIsLinked(commands);
    assert p > 0 ==> Linked(Body(commands), p - 1);
  }

  lemma {:induction false} NodesAreATree(commands: seq<Command>)
    ensures IsTree(Nodes(commands))
  {
    forall p: nat, k: nat | p < |Nodes(commands)|
      ensures HasOneParent(Nodes(commands), p, k)
    {
      ParentIsUnique(commands, p, k);
    }
    forall p: nat | p < |Nodes(commands)|
      ensures NoRepeats(Nodes(commands)[p].children)
    {
      ChildrenAreDistinct(commands, p);
    }
  }

  // The root is the first node and the only one of its kind, and is not a command.
  lemma {:induction false} RootIsFirst(commands: seq<Command>, k: nat)
    requires k < |Nodes(commands)|
    ensures Nodes(commands)[k].data.Root? <==> k == 0
    ensures !Nodes(commands)[0].executable
  {
    BodyIsLinked(commands);
    if k > 0 {
      assert Nodes(commands)[k] == Body(commands)[k - 1] && Linked(Body(commands), k - 1);
    }
  }

  // A path from the root down.
  predicate IsPath(nodes: seq<Node>, path: seq<nat>) {
    && path != [] && path[0] == 0
    && (forall i :: 0 <= i < |path| ==> path[i] < |nodes|)
    && forall i :: 0 < i < |path| ==> path[i] in nodes[path[i - 1]].children
  }

  // Every node is reached from the root.
  lemma {:induction false} EveryNodeIsReached(nodes: seq<Node>, k: nat) returns (path: seq<nat>)
    requires IsTree(nodes) && k < |nodes|
    ensures IsPath(nodes, path) && path[|path| - 1] == k
  {
    if k == 0 {
      path := [0];
    } else {
      assert HasOneParent(nodes, ParentOf(nodes, k), k);
      path := EveryNodeIsReached(nodes, ParentOf(nodes, k));
      path := path + [k];
    }
  }

  // ---- Reading it back --------------------------------------------------------------------------

  // The arguments below a node, following first children.
  function Chain(nodes: seq<Node>, k: nat): seq<Argument>
    decreases |nodes| - k
  {
    if k >= |nodes| || nodes[k].children == [] then []
    else
      var next := nodes[k].children[0];
      if k < next < |nodes| && nodes[next].data.Typed? then [nodes[next].data.argument] + Chain(nodes, next) else []
  }

  datatype Spoken = Spoken(alias: string, arguments: seq<Argument>)

  function ReadCommand(nodes: seq<Node>, k: nat): Spoken {
    Spoken(if k < |nodes| && nodes[k].data.Literal? then nodes[k].data.name else "", Chain(nodes, k))
  }

  function ReadCommands(nodes: seq<Node>): seq<Spoken>
    requires nodes != []
  {
    seq(|nodes[0].children|, i requires 0 <= i < |nodes[0].children| => ReadCommand(nodes, nodes[0].children[i]))
  }

  // The nodes of a command, from an index on.
  predicate Holds(nodes: seq<Node>, at: nat, c: Command, base: nat) {
    at + |c.arguments| < |nodes|
    && forall k :: at <= k <= at + |c.arguments| ==> nodes[k] == CommandNode(c, base, k - at)
  }

  // The nodes of every command are in their place.
  predicate Places(commands: seq<Command>, bases: seq<nat>, body: seq<Node>) {
    |bases| == |commands| &&
    forall i :: 0 <= i < |commands| ==> bases[i] >= 1 && Holds(body, bases[i] - 1, commands[i], bases[i])
  }

  lemma {:induction false} PlacesAppend(commands: seq<Command>, bases: seq<nat>, body: seq<Node>, c: Command)
    requires Places(commands, bases, body)
    ensures Places(commands + [c], bases + [1 + |body|], body + CommandNodes(c, 1 + |body|))
  {
  }

  lemma {:induction false} AllInPlace(commands: seq<Command>)
    ensures Places(commands, Bases(commands), Body(commands))
  {
    if commands == [] {
    } else {
      var m := |commands| - 1;
      AllInPlace(commands[..m]);
      PlacesAppend(commands[..m], Bases(commands[..m]), Body(commands[..m]), commands[m]);
      LastCommand(commands);
      assert commands == commands[..m] + [commands[m]];
    }
  }

  lemma {:induction false} ChainOfCommand(nodes: seq<Node>, c: Command, base: nat, i: nat)
    requires Holds(nodes, base, c, base) && i <= |c.arguments|
    ensures Chain(nodes, base + i) == c.arguments[i..]
    decreases |c.arguments| - i
  {
    var k := base + i;
    assert nodes[k] == CommandNode(c, base, i);
    if i < |c.arguments| {
      assert nodes[k + 1] == CommandNode(c, base, i + 1);
      ChainOfCommand(nodes, c, base, i + 1);
      assert c.arguments[i..] == [c.arguments[i]] + c.arguments[i + 1..];
    }
  }

  lemma {:induction false} HoldsBelowRoot(root: Node, body: seq<Node>, at: nat, c: Command, base: nat)
    requires Holds(body, at, c, base)
    ensures Holds([root] + body, at + 1, c, base)
  {
  }

  lemma {:induction false} HeldIsReadBack(nodes: seq<Node>, c: Command, base: nat)
    requires Holds(nodes, base, c, base)
    ensures ReadCommand(nodes, base) == Spoken(c.alias, c.arguments)
  {
    ChainOfCommand(nodes, c, base, 0);
    assert nodes[base] == CommandNode(c, base, 0);
    assert c.arguments[0..] == c.arguments;
  }

  function Speak(c: Command): Spoken { Spoken(c.alias, c.arguments) }

  lemma {:induction false} CommandIsReadBack(commands: seq<Command>, root: Node,
      bases: seq<nat>, body: seq<Node>, i: nat)
    requires i < |commands| && Places(commands, bases, body)
    ensures ReadCommand([root] + body, bases[i]) == Speak(commands[i])
  {
    HoldsBelowRoot(root, body, bases[i] - 1, commands[i], bases[i]);
    HeldIsReadBack([root] + body, commands[i], bases[i]);
  }

  // Walking the array from the root gives back the commands and their arguments, in order.
  lemma {:induction false} CommandsAreReadBack(commands: seq<Command>)
    ensures |ReadCommands(Nodes(commands))| == |commands|
    ensures forall i :: 0 <= i < |commands| ==> ReadCommands(Nodes(commands))[i] == Speak(commands[i])
  {
    AllInPlace(commands);
    forall i | 0 <= i < |commands|
      ensures ReadCommands(Nodes(commands))[i] == Speak(commands[i])
    {
      CommandIsReadBack(commands, Nodes(commands)[0], Bases(commands), Body(commands), i);
    }
  }

  // ---- Executable nodes -------------------------------------------------------------------------

  // A command can be run at a node once all its required arguments are given.
  predicate FlagsAreRight(c: Command, base: nat) {
    forall i :: 0 <= i <= |c.arguments| ==> (CommandNodes(c, base)[i].executable <==> i >= c.required)
  }

  // The flags are right exactly if at most one argument is required, or more than there are.
  lemma {:induction false} FlagsAreRightWhen(c: Command, base: nat)
    ensures FlagsAreRight(c, base) <==> c.required <= 1 || c.required > |c.arguments|
  {
    if 1 < c.required <= |c.arguments| {
      assert !CommandNodes(c, base)[c.required].executable;
    }
  }

  // With two required arguments the whole command is not marked as one that can be run.
  lemma {:induction false} TwoRequiredCannotRun(a: Argument, base: nat)
    ensures !FlagsAreRight(Command("transfer", [a, a], 2), base)
    ensures !CommandNodes(Command("transfer", [a, a], 2), base)[2].executable
  {
    FlagsAreRightWhen(Command("transfer", [a, a], 2), base);
  }
}
