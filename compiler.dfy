/**
  The variable environment and the tree builders of the interaction-combinator
  compiler of src/icombs/compiler.rs.

  The net itself (src/icombs/net.rs) is not part of this model: a net is
  abstracted as a counter of the wires created so far and a log of the
  `link` calls made, in order.  A wire is the two ends `Wire(n)` of the n-th
  wire created.  The types of the language (src/par/types.rs) are not part of
  this model either: `Type` distinguishes `!` and `?`, which the identity
  cases of `cast` look at, and leaves every other type opaque.
*/
module Icombs {
  import opened Wrappers
  import opened IndexMaps

  datatype Tree =
    | E
    | C(left: Tree, right: Tree)
    | D(left: Tree, right: Tree)
    | Wire(id: nat)
    | Package(id: nat)

  // ---------------------------------------------------------------------------
  // Multiplexing
  // ---------------------------------------------------------------------------

  /**
    `multiplex_trees`: no tree is the eraser, one tree is itself, and more
    are split at half their number (the first half rounded down) and joined
    by a `C` node.
  */
  function Multiplex(trees: seq<Tree>): Tree
    decreases |trees|
  {
    if |trees| == 0 then E
    else if |trees| == 1 then trees[0]
    else
      var half := |trees| / 2;
      C(Multiplex(trees[..half]), Multiplex(trees[half..]))
  }

  /** Reads `n` trees back out of a multiplexed tree, splitting as `Multiplex` does. */
  function Demultiplex(t: Tree, n: nat): seq<Tree>
    decreases n
  {
    if n == 0 then []
    else if n == 1 then [t]
    else
      match t
      case C(l, r) => Demultiplex(l, n / 2) + Demultiplex(r, n - n / 2)
      case _ => []
  }

  /** The trees of a multiplexed tree, read back in order, are the trees multiplexed. */
  lemma {:induction false} MultiplexRoundTrip(trees: seq<Tree>)
    ensures Demultiplex(Multiplex(trees), |trees|) == trees
    decreases |trees|
  {
    if |trees| >= 2 {
      var n := |trees|;
      var half := n / 2;
      var left, right := trees[..half], trees[half..];
      assert |left| == n / 2 && |right| == n - n / 2;
      MultiplexRoundTrip(left);
      MultiplexRoundTrip(right);
      var t := C(Multiplex(left), Multiplex(right));
      assert Multiplex(trees) == t;
      assert Demultiplex(t, n) == Demultiplex(Multiplex(left), |left|) + Demultiplex(Multiplex(right), |right|);
      assert left + right == trees;
    }
  }

  /** No tree multiplexes to the eraser and a single tree to itself. */
  lemma MultiplexFew(t: Tree)
    ensures Multiplex([]) == E && Multiplex([t]) == t
  {
  }

  /** The number of nodes on the longest path from the root to a leaf. */
  function Depth(t: Tree): nat {
    match t
    case C(l, r) => 1 + Max(Depth(l), Depth(r))
    case D(l, r) => 1 + Max(Depth(l), Depth(r))
    case _ => 0
  }

  function Max(a: nat, b: nat): nat { if a < b then b else a }

  function Pow2(k: nat): nat { if k == 0 then 1 else 2 * Pow2(k - 1) }

  /** The greatest depth among `trees` (0 for none). */
  function MaxDepth(trees: seq<Tree>): (m: nat)
    ensures forall i | 0 <= i < |trees| :: Depth(trees[i]) <= m
    ensures trees != [] ==> exists i | 0 <= i < |trees| :: Depth(trees[i]) == m
  {
    if trees == [] then 0
    else
      var rest := MaxDepth(trees[1..]);
      assert forall i | 1 <= i < |trees| :: trees[i] == trees[1..][i - 1];
      Max(Depth(trees[0]), rest)
  }

  /** A prefix has no deeper tree than the whole. */
  lemma MaxDepthPrefix(trees: seq<Tree>, hi: nat)
    requires hi <= |trees|
    ensures MaxDepth(trees[..hi]) <= MaxDepth(trees)
  {
    var s := trees[..hi];
    if s != [] {
      var i :| 0 <= i < |s| && Depth(s[i]) == MaxDepth(s);
      assert s[i] == trees[i];
    }
  }

  /** A suffix has no deeper tree than the whole. */
  lemma MaxDepthSuffix(trees: seq<Tree>, lo: nat)
    requires lo <= |trees|
    ensures MaxDepth(trees[lo..]) <= MaxDepth(trees)
  {
    var s := trees[lo..];
    if s != [] {
      var i :| 0 <= i < |s| && Depth(s[i]) == MaxDepth(s);
      assert s[i] == trees[lo + i];
    }
  }

  /**
    `multiplex_trees` builds a balanced tree: up to `2^k` trees sit at most
    `k` `C` nodes below the root, so the result is at most `k` deeper than the
    deepest tree multiplexed.
  */
  lemma {:induction false} MultiplexBalanced(trees: seq<Tree>, k: nat)
    requires |trees| <= Pow2(k)
    ensures Depth(Multiplex(trees)) <= k + MaxDepth(trees)
    decreases k
  {
    var n := |trees|;
    if n >= 2 {
      var half := n / 2;
      HalvesFit(n, k);
      var left, right := trees[..half], trees[half..];
      MultiplexBalanced(left, k - 1);
      MultiplexBalanced(right, k - 1);
      MaxDepthPrefix(trees, half);
      MaxDepthSuffix(trees, half);
      SplitDepth(trees, k - 1 + MaxDepth(trees));
    } else if n == 1 {
      assert Depth(trees[0]) <= MaxDepth(trees);
    }
  }

  /** Two or more trees multiplex to one `C` node above the trees of the two halves. */
  lemma SplitDepth(trees: seq<Tree>, bound: nat)
    requires |trees| >= 2
    requires Depth(Multiplex(trees[..|trees| / 2])) <= bound
    requires Depth(Multiplex(trees[|trees| / 2..])) <= bound
    ensures Depth(Multiplex(trees)) <= bound + 1
  {
    var l, r := Multiplex(trees[..|trees| / 2]), Multiplex(trees[|trees| / 2..]);
    assert Multiplex(trees) == C(l, r);
  }

  /** Both halves of `2..2^k` trees fit below `2^(k-1)`. */
  lemma HalvesFit(n: nat, k: nat)
    requires 2 <= n <= Pow2(k)
    ensures k >= 1 && n / 2 <= Pow2(k - 1) && n - n / 2 <= Pow2(k - 1)
  {
  }

  /** Equally many trees multiplex to the same tree only when they are the same trees. */
  lemma MultiplexInjective(a: seq<Tree>, b: seq<Tree>)
    requires |a| == |b| && Multiplex(a) == Multiplex(b)
    ensures a == b
  {
    MultiplexRoundTrip(a);
    MultiplexRoundTrip(b);
  }

  /** The slots of a choice among `outOf`: all erasers but slot `index`, which holds `payload`. */
  function ChoiceSlots(outOf: nat, index: nat, payload: Tree): seq<Tree> {
    seq(outOf, i => if i == index then payload else E)
  }

  /** The tree `choice_instance` builds for `tree` when the fresh wire it creates is `w`. */
  function ChoiceTree(w: nat, tree: Tree, index: nat, outOf: nat): Tree {
    C(Wire(w), Multiplex(ChoiceSlots(outOf, index, C(Wire(w), tree))))
  }

  /**
    A choice instance holds one end of its fresh wire and, read back, an
    eraser in every slot except the chosen one, which holds the other end of
    the wire and the tree.
  */
  lemma ChoiceTreeSlots(w: nat, tree: Tree, index: nat, outOf: nat)
    requires index < outOf
    ensures var r := ChoiceTree(w, tree, index, outOf);
      var slots := Demultiplex(r.right, outOf);
      r.left == Wire(w) && |slots| == outOf && slots[index] == C(Wire(w), tree) &&
      forall i | 0 <= i < outOf && i != index :: slots[i] == E
  {
    MultiplexRoundTrip(ChoiceSlots(outOf, index, C(Wire(w), tree)));
  }

  function Joined(cases: seq<(Tree, Tree)>): seq<Tree> {
    seq(|cases|, i requires 0 <= i < |cases| => C(cases[i].0, cases[i].1))
  }

  /**
    `either_instance`: the context tree beside the multiplexed cases, each
    case a `C` node of its two trees, the cases read back in their order.
  */
  function EitherInstance(contextOut: Tree, cases: seq<(Tree, Tree)>): (r: Tree)
    ensures r.C? && r.left == contextOut
    ensures var read := Demultiplex(r.right, |cases|);
      |read| == |cases| && forall i | 0 <= i < |cases| :: read[i] == C(cases[i].0, cases[i].1)
  {
    MultiplexRoundTrip(Joined(cases));
    C(contextOut, Multiplex(Joined(cases)))
  }

  // ---------------------------------------------------------------------------
  // Types and variables
  // ---------------------------------------------------------------------------

  datatype Type = Break | Continue | Opaque(id: nat, dualised: bool)

  /** The dual type: `!` and `?` are each other's dual; the dual of an opaque type flips it. */
  function Dual(t: Type): Type {
    match t
    case Break => Continue
    case Continue => Break
    case Opaque(id, dualised) => Opaque(id, !dualised)
  }

  datatype TypedTree = TypedTree(tree: Tree, ty: Type)

  /** `Linear` is used once; `Replicable` and `Boxed` may be used again (`Boxed` needs dereliction). */
  datatype Kind = Linear | Replicable | Boxed

  type Binding = (TypedTree, Kind)

  /** The state the compiler's methods change: the net (wires created, links made) and the variables. */
  datatype State = State(wires: nat, links: seq<(Tree, Tree)>, vars: IndexMap<string, Binding>)

  /**
    `use_variable`: a bound `Linear` variable is removed and its tree handed
    out; a bound `Replicable` or `Boxed` one is duplicated through a `D` node
    on two fresh wires, one end handed out and one left bound; an unbound
    global is compiled, bound as `Replicable` and handed out.  Any other
    name is an unknown variable, on which the source panics.
  */
  function UseSpec(s: State, globals: map<string, TypedTree>, name: string): (State, TypedTree, Kind)
    requires name in Keys(s.vars) || name in globals
  {
    match Get(s.vars, name)
    case Some(binding) =>
      var value := binding.0;
      var rest := SwapRemove(s.vars, name).0;
      if binding.1 == Linear then
        (State(s.wires, s.links, rest), value, Linear)
      else
        var kept := Wire(s.wires);
        var handed := Wire(s.wires + 1);
        (State(s.wires + 2, s.links + [(D(handed, kept), value.tree)], Insert(rest, name, (TypedTree(kept, value.ty), binding.1))),
         TypedTree(handed, value.ty), binding.1)
    case None =>
      var value := globals[name];
      (State(s.wires, s.links, Insert(s.vars, name, (value, Replicable))), value, Replicable)
  }

  /** Using a `Linear` variable hands out its tree unchanged, unbinds it and changes nothing else. */
  lemma UseLinear(s: State, globals: map<string, TypedTree>, name: string, value: TypedTree)
    requires UniqueKeys(s.vars) && Get(s.vars, name) == Some((value, Linear))
    ensures var (s', v, kind) := UseSpec(s, globals, name);
      v == value && kind == Linear && s'.wires == s.wires && s'.links == s.links &&
      UniqueKeys(s'.vars) && name !in Keys(s'.vars) &&
      forall k | k != name :: Get(s'.vars, k) == Get(s.vars, k)
  {
    SwapRemoveSpec(s.vars, name);
    forall k | k != name ensures Get(SwapRemove(s.vars, name).0, k) == Get(s.vars, k) {
      SwapRemoveGet(s.vars, name, k);
    }
  }

  /**
    Using a `Replicable` or `Boxed` variable keeps it bound, with the same
    kind and type, to a fresh wire; it hands out another fresh wire of the
    same type, and links the two through a `D` node to the old tree.
  */
  lemma UseShared(s: State, globals: map<string, TypedTree>, name: string, value: TypedTree, kind: Kind)
    requires UniqueKeys(s.vars) && Get(s.vars, name) == Some((value, kind)) && kind != Linear
    ensures var (s', v, k) := UseSpec(s, globals, name);
      v == TypedTree(Wire(s.wires + 1), value.ty) && k == kind &&
      s'.wires == s.wires + 2 &&
      s'.links == s.links + [(D(Wire(s.wires + 1), Wire(s.wires)), value.tree)] &&
      UniqueKeys(s'.vars) &&
      Get(s'.vars, name) == Some((TypedTree(Wire(s.wires), value.ty), kind)) &&
      forall k' | k' != name :: Get(s'.vars, k') == Get(s.vars, k')
  {
    var kept := (TypedTree(Wire(s.wires), value.ty), kind);
    SwapRemoveInsert(s.vars, name, kept);
    UseSharedState(s, globals, name, value, kind);
  }

  /** The whole state after using a `Replicable` or `Boxed` variable. */
  lemma UseSharedState(s: State, globals: map<string, TypedTree>, name: string, value: TypedTree, kind: Kind)
    requires Get(s.vars, name) == Some((value, kind)) && kind != Linear
    ensures UseSpec(s, globals, name) ==
      (State(s.wires + 2, s.links + [(D(Wire(s.wires + 1), Wire(s.wires)), value.tree)],
             Insert(SwapRemove(s.vars, name).0, name, (TypedTree(Wire(s.wires), value.ty), kind))),
       TypedTree(Wire(s.wires + 1), value.ty), kind)
  {
  }

  /** Using a global not yet bound hands out its compiled tree and binds it as `Replicable`. */
  lemma UseGlobal(s: State, globals: map<string, TypedTree>, name: string)
    requires UniqueKeys(s.vars) && name !in Keys(s.vars) && name in globals
    ensures var (s', v, kind) := UseSpec(s, globals, name);
      v == globals[name] && kind == Replicable && s'.wires == s.wires && s'.links == s.links &&
      UniqueKeys(s'.vars) && Get(s'.vars, name) == Some((globals[name], Replicable)) &&
      forall k | k != name :: Get(s'.vars, k) == Get(s.vars, k)
  {
    InsertKeepsUnique(s.vars, name, (globals[name], Replicable));
  }

  // ---------------------------------------------------------------------------
  // Captures
  // ---------------------------------------------------------------------------

  /** Every capture can be used when its turn comes (otherwise the source panics). */
  predicate Capturable(s: State, globals: map<string, TypedTree>, captures: seq<string>)
    decreases |captures|
  {
    captures == [] ||
    ((captures[0] in Keys(s.vars) || captures[0] in globals) &&
     Capturable(UseSpec(s, globals, captures[0]).0, globals, captures[1..]))
  }

  /**
    The first half of `with_captures`: every capture is used in turn and
    inserted into `captured`; the result is the state after those uses and
    the captured variables.
  */
  function CaptureSpec(s: State, globals: map<string, TypedTree>, captures: seq<string>, captured: IndexMap<string, Binding>)
    : (State, IndexMap<string, Binding>)
    requires Capturable(s, globals, captures)
    decreases |captures|
  {
    if captures == [] then (s, captured)
    else
      var used := UseSpec(s, globals, captures[0]);
      CaptureSpec(used.0, globals, captures[1..], Insert(captured, captures[0], (used.1, used.2)))
  }

  predicate LinearlyBound(vars: IndexMap<string, Binding>, x: string) {
    Get(vars, x).Some? && Get(vars, x).value.1 == Linear
  }

  /** Distinct captures, each bound as `Linear` and not captured yet. */
  predicate LinearCaptures(vars: IndexMap<string, Binding>, captures: seq<string>, captured: IndexMap<string, Binding>) {
    Distinct(captures) &&
    forall i | 0 <= i < |captures| :: LinearlyBound(vars, captures[i]) && captures[i] !in Keys(captured)
  }

  /** The bindings of `captures`, in their order. */
  function Moved(vars: IndexMap<string, Binding>, captures: seq<string>): seq<(string, Binding)> {
    if captures == [] then []
    else
      (match Get(vars, captures[0])
       case Some(b) => [(captures[0], b)]
       case None => [])
      + Moved(vars, captures[1..])
  }

  lemma {:induction false} MovedAgree(v1: IndexMap<string, Binding>, v2: IndexMap<string, Binding>, captures: seq<string>)
    requires forall c | c in captures :: Get(v1, c) == Get(v2, c)
    ensures Moved(v1, captures) == Moved(v2, captures)
  {
    if captures != [] {
      assert captures[0] in captures;
      MovedAgree(v1, v2, captures[1..]);
    }
  }

  /** Using the first of the linear captures leaves the others linear captures. */
  lemma LinearCapturesStep(s: State, globals: map<string, TypedTree>, captures: seq<string>, captured: IndexMap<string, Binding>)
    requires UniqueKeys(s.vars) && captures != [] && LinearCaptures(s.vars, captures, captured)
    ensures var x := captures[0];
      var used := UseSpec(s, globals, x);
      var captured' := Insert(captured, x, (used.1, used.2));
      used.0.wires == s.wires && used.0.links == s.links && UniqueKeys(used.0.vars) &&
      (forall k :: Get(used.0.vars, k) == if k == x then None else Get(s.vars, k)) &&
      captured' == captured + [(x, Get(s.vars, x).value)] &&
      LinearCaptures(used.0.vars, captures[1..], captured')
  {
    var x := captures[0];
    var value := Get(s.vars, x).value.0;
    UseLinear(s, globals, x, value);
    InsertNew(captured, x, (value, Linear));
    var used := UseSpec(s, globals, x);
    forall i | 0 <= i < |captures| - 1
      ensures LinearlyBound(used.0.vars, captures[1..][i])
    {
      assert captures[1..][i] == captures[i + 1] != x;
    }
  }

  /**
    Capturing distinct `Linear` variables unbinds them from the surrounding
    variables, keeps every other binding, and leaves the net untouched.
  */
  lemma {:induction false} CaptureUnbindsLinear(s: State, globals: map<string, TypedTree>, captures: seq<string>, captured: IndexMap<string, Binding>)
    requires UniqueKeys(s.vars) && LinearCaptures(s.vars, captures, captured)
    ensures Capturable(s, globals, captures)
    ensures var s' := CaptureSpec(s, globals, captures, captured).0;
      s'.wires == s.wires && s'.links == s.links && UniqueKeys(s'.vars) &&
      forall k :: Get(s'.vars, k) == if k in captures then None else Get(s.vars, k)
    decreases |captures|
  {
    LinearCapturable(s, globals, captures, captured);
    if captures != [] {
      var used := UseSpec(s, globals, captures[0]);
      LinearCapturesStep(s, globals, captures, captured);
      CaptureUnbindsLinear(used.0, globals, captures[1..], Insert(captured, captures[0], (used.1, used.2)));
      assert forall k :: k in captures <==> k == captures[0] || k in captures[1..];
    }
  }

  /** Distinct `Linear` captures can each be used when their turn comes. */
  lemma {:induction false} LinearCapturable(s: State, globals: map<string, TypedTree>, captures: seq<string>, captured: IndexMap<string, Binding>)
    requires UniqueKeys(s.vars) && LinearCaptures(s.vars, captures, captured)
    ensures Capturable(s, globals, captures)
    decreases |captures|
  {
    if captures != [] {
      var used := UseSpec(s, globals, captures[0]);
      LinearCapturesStep(s, globals, captures, captured);
      LinearCapturable(used.0, globals, captures[1..], Insert(captured, captures[0], (used.1, used.2)));
    }
  }

  /** Capturing distinct `Linear` variables moves their bindings, in the order of the captures, to the captured ones. */
  lemma {:induction false} CaptureMovesLinear(s: State, globals: map<string, TypedTree>, captures: seq<string>, captured: IndexMap<string, Binding>)
    requires UniqueKeys(s.vars) && LinearCaptures(s.vars, captures, captured)
    ensures Capturable(s, globals, captures)
    ensures CaptureSpec(s, globals, captures, captured).1 == captured + Moved(s.vars, captures)
    decreases |captures|
  {
    LinearCapturable(s, globals, captures, captured);
    if captures != [] {
      var x := captures[0];
      var used := UseSpec(s, globals, x);
      var captured' := Insert(captured, x, (used.1, used.2));
      LinearCapturesStep(s, globals, captures, captured);
      var rest := captures[1..];
      CaptureMovesLinear(used.0, globals, rest, captured');
      assert x !in rest by {
        forall i | 0 <= i < |rest| ensures rest[i] != x {
          assert rest[i] == captures[i + 1];
        }
      }
      MovedAgree(used.0.vars, s.vars, rest);
      var b := Get(s.vars, x).value;
      assert Moved(s.vars, captures) == [(x, b)] + Moved(s.vars, rest);
      assert CaptureSpec(s, globals, captures, captured).1 == CaptureSpec(used.0, globals, rest, captured').1;
      assert captured' == captured + [(x, b)];
      var moved, movedRest := Moved(s.vars, captures), Moved(s.vars, rest);
      AppendAssociates(captured, [(x, b)], movedRest);
      assert captured' + movedRest == captured + moved;
    }
  }


  /** The links that erase the variables left over when a capture scope closes, in their order. */
  function ErasureLinks(leftover: IndexMap<string, Binding>): seq<(Tree, Tree)> {
    seq(|leftover|, i requires 0 <= i < |leftover| => (leftover[i].1.0.tree, E))
  }

  predicate NoLinear(vars: IndexMap<string, Binding>) {
    forall i | 0 <= i < |vars| :: vars[i].1.1 != Linear
  }

  // ---------------------------------------------------------------------------
  // The compiler's variable environment
  // ---------------------------------------------------------------------------

  class Compiler {
    var wires: nat
    var links: seq<(Tree, Tree)>
    var vars: IndexMap<string, Binding>
    /** What `compile_global` returns for each global name it can compile. */
    const globals: map<string, TypedTree>

    function Snapshot(): State
      reads this
    {
      State(wires, links, vars)
    }

    ghost predicate Valid()
      reads this
    {
      UniqueKeys(vars)
    }

    constructor(globals: map<string, TypedTree>)
      ensures Snapshot() == State(0, [], []) && this.globals == globals && Valid()
    {
      wires := 0;
      links := [];
      vars := [];
      this.globals := globals;
    }

    /** `Net::create_wire`: the two ends of a new wire. */
    method CreateWire() returns (a: Tree, b: Tree)
      modifies this
      ensures a == Wire(old(wires)) && b == a
      ensures wires == old(wires) + 1 && links == old(links) && vars == old(vars)
    {
      a := Wire(wires);
      b := a;
      wires := wires + 1;
    }

    /** `Net::link`: the log gains the pair. */
    method Link(a: Tree, b: Tree)
      modifies this
      ensures links == old(links) + [(a, b)] && wires == old(wires) && vars == old(vars)
    {
      links := links + [(a, b)];
    }

    /** `create_typed_wire`: the two ends of a fresh wire, typed by `t` and its dual. */
    method CreateTypedWire(t: Type) returns (a: TypedTree, b: TypedTree)
      modifies this
      ensures a == TypedTree(Wire(old(wires)), t) && b == TypedTree(Wire(old(wires)), Dual(t))
      ensures wires == old(wires) + 1 && links == old(links) && vars == old(vars)
    {
      var v0, v1 := CreateWire();
      a := TypedTree(v0, t);
      b := TypedTree(v1, Dual(t));
    }

    /** `bind_variable`: binds a name not bound yet, as `Linear`, at the end of the table. */
    method BindVariable(name: string, tree: TypedTree)
      requires Valid() && name !in Keys(vars)
      modifies this
      ensures Valid() && vars == old(vars) + [(name, (tree, Linear))]
      ensures wires == old(wires) && links == old(links)
    {
      InsertNew(vars, name, (tree, Linear));
      InsertKeepsUnique(vars, name, (tree, Linear));
      vars := Insert(vars, name, (tree, Linear));
    }

    /** `use_variable`, proved against `UseSpec`. */
    method UseVariable(name: string) returns (value: TypedTree, kind: Kind)
      requires Valid() && (name in Keys(vars) || name in globals)
      modifies this
      ensures Valid()
      ensures (Snapshot(), value, kind) == UseSpec(old(Snapshot()), globals, name)
    {
      ghost var s := Snapshot();
      match Get(vars, name) {
        case Some(binding) =>
          var tree := binding.0;
          kind := binding.1;
          SwapRemoveSpec(vars, name);
          vars := SwapRemove(vars, name).0;
          if kind == Linear {
            value := tree;
          } else {
            var w0, w1 := CreateWire();
            var v0, v1 := CreateWire();
            Link(D(v0, w0), tree.tree);
            InsertKeepsUnique(vars, name, (TypedTree(w1, tree.ty), kind));
            vars := Insert(vars, name, (TypedTree(w1, tree.ty), kind));
            value := TypedTree(v1, tree.ty);
            UseSharedState(s, globals, name, tree, kind);
          }
        case None =>
          value := globals[name];
          kind := Replicable;
          InsertKeepsUnique(vars, name, (value, kind));
          vars := Insert(vars, name, (value, kind));
      }
    }

    /** `instantiate_variable`: `use_variable` without the kind; a `Boxed` variable is not supported. */
    method InstantiateVariable(name: string) returns (value: TypedTree)
      requires Valid() && (name in Keys(vars) || name in globals)
      requires !(Get(vars, name).Some? && Get(vars, name).value.1 == Boxed)
      modifies this
      ensures Valid()
      ensures (Snapshot(), value) == (UseSpec(old(Snapshot()), globals, name).0, UseSpec(old(Snapshot()), globals, name).1)
    {
      var kind;
      value, kind := UseVariable(name);
    }

    /**
      The first half of `with_captures`: uses every capture, makes the
      captured variables the current ones and returns the surrounding ones.
    */
    method EnterCaptures(captures: seq<string>) returns (outer: IndexMap<string, Binding>)
      requires Valid() && Capturable(Snapshot(), globals, captures)
      modifies this
      ensures var r := CaptureSpec(old(Snapshot()), globals, captures, []);
        Snapshot() == State(r.0.wires, r.0.links, r.1) && outer == r.0.vars
      ensures Valid() && UniqueKeys(outer)
    {
      var captured: IndexMap<string, Binding> := [];
      var i := 0;
      while i < |captures|
        invariant i <= |captures| && Valid() && UniqueKeys(captured)
        invariant Capturable(Snapshot(), globals, captures[i..])
        invariant CaptureSpec(old(Snapshot()), globals, captures, []) == CaptureSpec(Snapshot(), globals, captures[i..], captured)
      {
        assert captures[i..][0] == captures[i] && captures[i..][1..] == captures[i + 1..];
        var value, kind := UseVariable(captures[i]);
        InsertKeepsUnique(captured, captures[i], (value, kind));
        captured := Insert(captured, captures[i], (value, kind));
        i := i + 1;
      }
      assert captures[i..] == [];
      outer := vars;
      vars := captured;
    }

    /**
      The second half of `with_captures`: restores the surrounding variables
      and erases every captured variable left over, none of which may be
      `Linear` (on a `Linear` one the source panics).
    */
    method LeaveCaptures(outer: IndexMap<string, Binding>)
      requires NoLinear(vars) && UniqueKeys(outer)
      modifies this
      ensures Snapshot() == State(old(wires), old(links) + ErasureLinks(old(vars)), outer)
      ensures Valid()
    {
      var leftover := vars;
      vars := outer;
      var i := 0;
      while i < |leftover|
        invariant i <= |leftover|
        invariant Snapshot() == State(old(wires), old(links) + ErasureLinks(leftover[..i]), outer)
      {
        assert ErasureLinks(leftover[..i + 1]) == ErasureLinks(leftover[..i]) + [(leftover[i].1.0.tree, E)];
        Link(leftover[i].1.0.tree, E);
        i := i + 1;
      }
      assert leftover[..i] == leftover;
    }

    /** `choice_instance`, proved against `ChoiceTree`. */
    method ChoiceInstance(tree: Tree, index: nat, outOf: nat) returns (r: Tree)
      requires index < outOf
      modifies this
      ensures r == ChoiceTree(old(wires), tree, index, outOf)
      ensures wires == old(wires) + 1 && links == old(links) && vars == old(vars)
    {
      var w0, w1 := CreateWire();
      var trees := seq(outOf, i => E);
      trees := trees[index := C(w1, tree)];
      assert trees == ChoiceSlots(outOf, index, C(w1, tree));
      r := C(w0, Multiplex(trees));
    }

    /** The identity cases of `cast`: a `!` cast to `!`, or a `?` to `?`, is the tree itself. */
    method Cast(from: TypedTree, to: Type) returns (r: TypedTree)
      requires (from.ty.Break? && to.Break?) || (from.ty.Continue? && to.Continue?)
      ensures r == from && r.ty == to
    {
      r := from;
    }
  }
}
