/** The control-flow graph under construction and its analysis. */
module ControlFlow {
  import opened Wrappers
  import opened FlowSyntax
  import opened FlowGraph
  import opened FlowSimulation
  import opened FlowStatements
  import opened FlowShapes
  import opened FlowBuilt

  /** The bit of the unassigned entry, the bits of all its states, and its assignments. */
  datatype AssignmentList = AssignmentList(bit: nat, mask: set<nat>, stats: seq<(Block, nat)>)

  datatype LoopDescr = LoopDescr(nextBlock: Block, loopBlock: Block)

  function CtxOf(loops: seq<LoopDescr>, exceptions: seq<Block>): Context {
    Context(
      if loops == [] then None else Some(loops[|loops| - 1].nextBlock),
      if loops == [] then None else Some(loops[|loops| - 1].loopBlock),
      if exceptions == [] then None else Some(exceptions[|exceptions| - 1]))
  }

  lemma HandlerPushed(loops: seq<LoopDescr>, exceptions: seq<Block>, handler: Block)
    ensures CtxOf(loops, exceptions + [handler]) == CtxOf(loops, exceptions).(handler := Some(handler))
  {
  }

  class ControlFlow {
    // One row per block.
    var children: seq<set<Block>>
    var parents: seq<set<Block>>
    var stats: seq<seq<Stat>>
    var gen: seq<map<Entry, Generated>>

    var blocks: set<Block>
    var entries: set<Entry>
    var loops: seq<LoopDescr>
    var exceptions: seq<Block>
    var block: Option<Block>

    // The analysis: a number is a set of bit positions, one row per block.
    var assmts: map<Entry, AssignmentList>
    var bits: map<(Block, nat), nat>
    var iGen: seq<set<nat>>
    var iKill: seq<set<nat>>
    var iInput: seq<set<nat>>
    var iOutput: seq<set<nat>>

    ghost function Snap(): Graph
      reads this
    {
      Graph(children, stats)
    }

    ghost function Ctx(): Context
      reads this
    {
      CtxOf(loops, exceptions)
    }

    /** The rows of the blocks agree with each other. */
    ghost predicate Rows()
      reads this
    {
      && WellFormed(Snap()) && |stats| >= 2
      && parents == ParentsOf(children) && parents[ENTRY] == {}
      && gen == GensOf(stats)
      && EntriesOf(stats) <= entries
    }

    ghost predicate Valid()
      reads this
    {
      && Rows()
      && blocks == BlocksUpTo(|stats|)
      && (forall i :: 0 <= i < |loops| ==> ENTRY < loops[i].nextBlock < |stats| && ENTRY < loops[i].loopBlock < |stats|)
      && (forall i :: 0 <= i < |exceptions| ==> ENTRY < exceptions[i] < |stats|)
      && (block.Some? ==> block.value < |stats|)
    }

    ghost predicate Ready()
      reads this
    {
      Valid() && block.Some? && OpenBlock(Snap(), block.value)
    }

    constructor ()
      ensures Valid() && Snap() == Graph([{}, {}], [[], []]) && block == Some(ENTRY)
      ensures loops == [] && exceptions == [] && entries == {}
    {
      children, parents := [{}, {}], [{}, {}];
      stats, gen := [[], []], [map[], map[]];
      blocks, entries := {EXIT}, {};
      loops, exceptions := [], [];
      block := Some(ENTRY);
      assmts, bits := map[], map[];
      iGen, iKill, iInput, iOutput := [], [], [], [];
      new;
      RowsOfEmpty();
    }

    method AddChild(b: Block, c: Block)
      requires Valid() && b < |stats| && ENTRY < c < |stats|
      modifies this`children, this`parents
      ensures Valid() && Snap() == AddEdge(old(Snap()), b, c)
    {
      RowsAddEdge(Snap(), b, c);
      children := children[b := children[b] + {c}];
      parents := parents[c := parents[c] + {b}];
    }

    /** Goes on at a block that `b` leads to as well. */
    method GoOnAt(b: Block, c: Block)
      requires Valid() && b < |stats| && ENTRY < c < |stats|
      modifies this`children, this`parents, this`block
      ensures Valid() && block == Some(c) && Snap() == AddEdge(old(Snap()), b, c) == Edge(old(Snap()), b, c)
    {
      AddChild(b, c);
      block := Some(c);
    }

    /** The usual `if block: block.add_child(next)`. */
    method LinkTo(to: Option<Block>)
      requires Valid() && (to.Some? ==> ENTRY < to.value < |stats|)
      modifies this`children, this`parents
      ensures Valid() && Snap() == MaybeEdge(old(Snap()), block, to)
    {
      if block.Some? && to.Some? {
        AddChild(block.value, to.value);
      }
    }

    /** Goes on in `next`, if anything leads there. */
    method GoOnIn(next: Block)
      requires Valid() && next < |stats|
      modifies this`block
      ensures Valid() && Snap() == old(Snap()) && loops == old(loops) && exceptions == old(exceptions)
      ensures block == if HasParent(Snap(), next) then Some(next) else None
    {
      ParentsKnown(Snap(), next);
      block := if parents[next] != {} then Some(next) else None;
    }

    /** A floating block, linked to `parent` if given. */
    method NewBlock(parent: Option<Block>) returns (b: Block)
      requires Valid() && (parent.Some? ==> parent.value < |stats|)
      modifies this`children, this`parents, this`stats, this`gen, this`blocks
      ensures Valid() && b == |old(stats)|
      ensures Snap() == if parent.Some? then AddNext(old(Snap()), parent.value) else AddBlock(old(Snap()))
    {
      RowsAddBlock(Snap());
      b := |stats|;
      children, parents := children + [{}], parents + [{}];
      stats, gen := stats + [[]], gen + [map[]];
      blocks := blocks + {b};
      if parent.Some? {
        AddChild(parent.value, b);
      }
    }

    /** A block behind `parent`, or behind the current block, that becomes the current one. */
    method NextBlock(parent: Option<Block>)
      requires Valid() && (parent.Some? ==> parent.value < |stats|)
      modifies this`children, this`parents, this`stats, this`gen, this`blocks, this`block
      ensures Valid() && block == Some(|old(stats)|)
      ensures var from := if parent.Some? then parent else old(block);
        Snap() == if from.Some? then AddNext(old(Snap()), from.value) else AddBlock(old(Snap()))
    {
      var b := NewBlock(None);
      if parent.Some? {
        AddChild(parent.value, b);
      } else if block.Some? {
        AddChild(block.value, b);
      }
      block := Some(b);
    }

    method MarkReference(node: NodeId, entry: Entry)
      requires Valid()
      modifies this`stats, this`gen, this`entries
      ensures Valid()
      ensures Snap() == if block.Some? then AddStat(old(Snap()), block.value, Reference(node, entry)) else old(Snap())
    {
      if block.Some? {
        RowsAddStat(Snap(), block.value, Reference(node, entry));
        stats := stats[block.value := stats[block.value] + [Reference(node, entry)]];
        entries := entries + {entry};
      }
    }

    method MarkAssignment(lhs: NodeId, entry: Entry)
      requires Valid()
      modifies this`stats, this`gen, this`entries
      ensures Valid()
      ensures Snap() == if block.Some? then AddStat(old(Snap()), block.value, Assignment(lhs, entry)) else old(Snap())
    {
      if block.Some? {
        var b := block.value;
        RowsAddStat(Snap(), b, Assignment(lhs, entry));
        gen := gen[b := gen[b][entry := Assigned(|stats[b]|)]];
        stats := stats[b := stats[b] + [Assignment(lhs, entry)]];
        entries := entries + {entry};
      }
    }

    method MarkDeletion(node: NodeId, entry: Entry)
      requires Valid()
      modifies this`stats, this`gen, this`entries
      ensures Valid()
      ensures Snap() == if block.Some? then AddStat(old(Snap()), block.value, Deletion(node, entry)) else old(Snap())
    {
      if block.Some? {
        var b := block.value;
        RowsAddStat(Snap(), b, Deletion(node, entry));
        gen := gen[b := gen[b][entry := Uninitialized]];
        stats := stats[b := stats[b] + [Deletion(node, entry)]];
        entries := entries + {entry};
      }
    }

    // -------------------------------------------------------------- expressions

    method VisitExpr(e: Expr)
      requires Ready()
      modifies this
      ensures Valid() && block.Some? && loops == old(loops) && exceptions == old(exceptions)
      ensures Visited(old(Snap()), Snap(), old(block.value), block)
      ensures SimExpr(Snap(), e, old(block.value), |old(stats)[old(block.value)]|, block.value)
      ensures Place(Snap(), block.value) == BuiltExpr(e, old(Snap()), old(block.value))
      decreases e, 2
    {
      ghost var g0, b := Snap(), block.value;
      match e {
        case NoOperand =>
          SimNoOperand(g0, b);
        case Name(node, entry) =>
          MarkReference(node, entry);
          SimName(Snap(), node, entry, b);
        case Operands(x, y) =>
          VisitExpr(x);
          ghost var g1, e1 := Snap(), block.value;
          VisitExpr(y);
          GrownTransitive(g0, g1, Snap(), b, e1);
          ExtTransitive(g0, g1, Snap());
          SimOperands(g1, Snap(), x, y, b, |g0.stats[b]|, e1, block.value);
        case BoolBinop(_, _) => VisitBoolBinop(e);
        case CondExpr(_, _, _) => VisitCondExpr(e);
      }
    }

    /** An expression in a block of its own, behind `parent` or else the current block. */
    method VisitBehind(x: Expr, parent: Option<Block>) returns (ghost c: Block)
      requires Valid() && if parent.Some? then parent.value < |stats| else block.Some?
      modifies this
      ensures Valid() && block.Some? && loops == old(loops) && exceptions == old(exceptions)
      ensures Detour(old(Snap()), Snap(), if parent.Some? then parent.value else old(block.value), c, block)
      ensures SimExpr(Snap(), x, c, 0, block.value)
      ensures var b := if parent.Some? then parent.value else old(block.value);
        Place(Snap(), block.value) == BuiltExpr(x, Behind(old(Snap()), b), |old(stats)|)
      decreases x, 3
    {
      GrownByNext(Snap(), if parent.Some? then parent.value else block.value);
      NextBlock(parent);
      c := block.value;
      VisitExpr(x);
    }

    /** An operand in blocks of its own, between `parent` (or the current block) and `next`. */
    method VisitArm(x: Expr, parent: Option<Block>, next: Block)
      requires Valid() && ENTRY < next < |stats|
      requires if parent.Some? then parent.value < |stats| else block.Some?
      modifies this
      ensures Valid() && block.Some? && loops == old(loops) && exceptions == old(exceptions)
      ensures var b := if parent.Some? then parent.value else old(block.value);
        Attached(old(Snap()), Snap(), b) && SimArm(Snap(), x, b, next)
      ensures var b := if parent.Some? then parent.value else old(block.value);
        Snap() == BuiltArm(x, old(Snap()), b, next)
      decreases x, 4
    {
      ghost var g1, b := Snap(), if parent.Some? then parent.value else block.value;
      ghost var c := VisitBehind(x, parent);
      ghost var f, e := Snap(), block.value;
      AddChild(block.value, next);
      ArmShape(g1, f, x, b, c, e, next);
    }

    method VisitBoolBinop(e: Expr)
      requires Ready() && e.BoolBinop?
      modifies this
      ensures Valid() && block.Some? && loops == old(loops) && exceptions == old(exceptions)
      ensures Visited(old(Snap()), Snap(), old(block.value), block)
      ensures SimExpr(Snap(), e, old(block.value), |old(stats)[old(block.value)]|, block.value)
      ensures Place(Snap(), block.value) == BuiltExpr(e, old(Snap()), old(block.value))
      decreases e, 1
    {
      ghost var g0 := Snap();
      var next := NewBlock(None);
      var parent := block.value;
      ghost var g1, e1 := VisitOperands(e, next);
      ghost var g2 := Snap();
      GoOnAt(parent, next);
      BoolBinopShape(g0, g1, g2, e.operand1, e.operand2, parent, e1, next);
    }

    /** The operands of an `and` or `or`, the second one in a block of its own. */
    method VisitOperands(e: Expr, next: Block) returns (ghost g1: Graph, ghost e1: Block)
      requires Ready() && e.BoolBinop? && ENTRY < next < |stats|
      modifies this
      ensures Valid() && block.Some? && loops == old(loops) && exceptions == old(exceptions)
      ensures Visited(old(Snap()), g1, old(block.value), Some(e1))
      ensures SimExpr(g1, e.operand1, old(block.value), |old(stats)[old(block.value)]|, e1)
      ensures Attached(g1, Snap(), e1) && SimArm(Snap(), e.operand2, e1, next)
      ensures Place(g1, e1) == BuiltExpr(e.operand1, old(Snap()), old(block.value))
      ensures Snap() == BuiltArm(e.operand2, g1, e1, next)
      decreases e, 0
    {
      VisitExpr(e.operand1);
      g1, e1 := Snap(), block.value;
      VisitArm(e.operand2, None, next);
    }

    method VisitCondExpr(e: Expr)
      requires Ready() && e.CondExpr?
      modifies this
      ensures Valid() && block.Some? && loops == old(loops) && exceptions == old(exceptions)
      ensures Visited(old(Snap()), Snap(), old(block.value), block)
      ensures SimExpr(Snap(), e, old(block.value), |old(stats)[old(block.value)]|, block.value)
      ensures Place(Snap(), block.value) == BuiltExpr(e, old(Snap()), old(block.value))
      decreases e, 1
    {
      ghost var g0, b := Snap(), block.value;
      VisitExpr(e.condition);
      ghost var g1, e1 := Snap(), block.value;
      var next := NewBlock(None);
      VisitArms(e, next);
      block := Some(next);
      CondExprShape(g0, g1, Snap(), e, b, e1, next);
    }

    /** Two alternatives behind the current block. */
    method VisitArms(e: Expr, next: Block)
      requires Valid() && ENTRY < next < |stats| && block.Some? && e.CondExpr?
      modifies this
      ensures Valid() && loops == old(loops) && exceptions == old(exceptions)
      ensures Attached(old(Snap()), Snap(), old(block.value))
      ensures SimArm(Snap(), e.trueVal, old(block.value), next) && SimArm(Snap(), e.falseVal, old(block.value), next)
      ensures var b := old(block.value);
        Snap() == BuiltArm(e.falseVal, BuiltArm(e.trueVal, old(Snap()), b, next), b, next)
      decreases e, 0
    {
      ghost var g1 := Snap();
      var parent := block;
      VisitArm(e.trueVal, None, next);
      ghost var g2 := Snap();
      VisitArm(e.falseVal, parent, next);
      AttachedTransitive(g1, g2, Snap(), parent.value, parent.value);
      SimArmGrow(g2, Snap(), e.trueVal, parent.value, next);
    }

    // ------------------------------------------------------------------ targets

    /** Inside a `try`: an edge to the handler, and a new block to go on in. */
    method LinkHandler()
      requires Ready()
      modifies this
      ensures Valid() && block.Some? && loops == old(loops) && exceptions == old(exceptions)
      ensures (Snap(), block.value) == Link(old(Snap()), old(block.value), Ctx().handler)
      ensures Visited(old(Snap()), Snap(), old(block.value), block)
      ensures Place(Snap(), block.value) == BuiltLink(old(Snap()), old(block.value), Ctx().handler)
    {
      LinkAttached(Snap(), block.value, Ctx().handler);
      if exceptions != [] {
        LinkInto(exceptions[|exceptions| - 1]);
      }
    }

    method LinkInto(handler: Block)
      requires Ready() && ENTRY < handler < |stats|
      modifies this`children, this`parents, this`stats, this`gen, this`blocks, this`block
      ensures Valid() && block.Some? && (Snap(), block.value) == Link(old(Snap()), old(block.value), Some(handler))
    {
      AddChild(block.value, handler);
      NextBlock(None);
    }

    method MarkTarget(t: Target)
      requires Ready()
      modifies this
      ensures Valid() && block.Some? && loops == old(loops) && exceptions == old(exceptions)
      ensures Visited(old(Snap()), Snap(), old(block.value), block)
      ensures SimTarget(Snap(), t, old(block.value), |old(stats)[old(block.value)]|, block.value, old(Ctx()))
      ensures Place(Snap(), block.value) == BuiltTarget(t, old(Snap()), old(block.value), old(Ctx()).handler)
      decreases t, 1
    {
      ghost var g0, b, ctx := Snap(), block.value, Ctx();
      LinkHandler();
      MarkCore(t, ctx);
      ghost var g2, b2 := Snap(), block.value;
      LinkHandler();
      TargetShape(g0, g2, t, b, b2, ctx);
    }

    /** The part of marking a target between the two links to the handler. */
    method MarkCore(t: Target, ghost ctx: Context)
      requires Ready() && ctx == Ctx()
      modifies this
      ensures Valid() && block.Some? && loops == old(loops) && exceptions == old(exceptions)
      ensures Visited(old(Snap()), Snap(), old(block.value), block)
      ensures SimCore(old(Snap()), Snap(), t, old(block.value), block.value, ctx)
      ensures Place(Snap(), block.value) == BuiltCore(t, old(Snap()), old(block.value), ctx.handler)
      decreases t, 0
    {
      ghost var g1, b1 := Snap(), block.value;
      match t {
        case NameTarget(lhs, entry) =>
          SimNameCore(g1, lhs, entry, b1, ctx);
          MarkAssignment(lhs, entry);
        case SequenceTarget(args) =>
          MarkTargets(args, ctx);
          SimSequenceCore(g1, Snap(), args, b1, block.value, ctx);
        case OtherTarget(e) =>
          VisitExpr(e);
          SimOtherCore(g1, Snap(), e, b1, block.value, ctx);
      }
    }

    method MarkTargets(ts: Targets, ghost ctx: Context)
      requires Ready() && ctx == Ctx()
      modifies this
      ensures Valid() && block.Some? && loops == old(loops) && exceptions == old(exceptions)
      ensures Visited(old(Snap()), Snap(), old(block.value), block)
      ensures SimTargets(Snap(), ts, old(block.value), |old(stats)[old(block.value)]|, block.value, ctx)
      ensures Place(Snap(), block.value) == BuiltTargets(ts, old(Snap()), old(block.value), ctx.handler)
      decreases ts
    {
      ghost var g0, b := Snap(), block.value;
      match ts {
        case NoTargets =>
          SimNoTargets(g0, b, ctx);
        case MoreTargets(t, rest) =>
          MarkTarget(t);
          ghost var g1, e1 := Snap(), block.value;
          MarkTargets(rest, ctx);
          VisitedTransitive(g0, g1, Snap(), b, e1, block);
          SimMoreTargets(g1, Snap(), t, rest, b, |g0.stats[b]|, e1, block.value, ctx);
      }
    }

    // --------------------------------------------------------------- statements

    /** Visits a statement from the current block. */
    method VisitStmt(s: Stmt, ghost ctx: Context)
      requires Ready() && ctx == Ctx() && Supported(s, loops != [], exceptions != [])
      modifies this
      ensures Valid() && loops == old(loops) && exceptions == old(exceptions)
      ensures Visited(old(Snap()), Snap(), old(block.value), block)
      ensures Sim(Snap(), s, old(block.value), |old(stats)[old(block.value)]|, block, ctx)
      ensures End(Snap(), block) == BuiltStmt(s, old(Snap()), old(block.value), ctx)
      decreases s, 2
    {
      ghost var g0, b := Snap(), block.value;
      match s {
        case Pass =>
          SimPass(g0, b, ctx);
        case Then(_, _) => VisitThen(s, ctx);
        case ExprStat(e) =>
          VisitExpr(e);
          SimExprStat(Snap(), e, b, |g0.stats[b]|, block.value, ctx);
        case Assign(_, _) => VisitAssign(s, ctx);
        case Del(_, _) => VisitDel(s, ctx);
        case Assert(_, _) => VisitAssert(s, ctx);
        case If(_) => VisitIf(s, ctx);
        case While(_, _, _) => VisitWhile(s, ctx);
        case ForIn(_, _, _, _) => VisitForIn(s, ctx);
        case Break => VisitJump(s, ctx);
        case Continue => VisitJump(s, ctx);
        case Return(_) => VisitReturn(s, ctx);
        case Raise(_) => VisitRaise(s, ctx);
        case TryExcept(_, _, _) => VisitTryExcept(s, ctx);
      }
    }

    method VisitThen(s: Stmt, ghost ctx: Context)
      requires Ready() && ctx == Ctx() && Supported(s, loops != [], exceptions != []) && s.Then?
      modifies this
      ensures Valid() && loops == old(loops) && exceptions == old(exceptions)
      ensures Visited(old(Snap()), Snap(), old(block.value), block)
      ensures Sim(Snap(), s, old(block.value), |old(stats)[old(block.value)]|, block, ctx)
      ensures End(Snap(), block) == BuiltStmt(s, old(Snap()), old(block.value), ctx)
      decreases s, 1
    {
      ghost var g0, b := Snap(), block.value;
      VisitStmt(s.first, ctx);
      ghost var g1, e1 := Snap(), block;
      if block.Some? {
        VisitStmt(s.second, ctx);
        VisitedTransitive(g0, g1, Snap(), b, e1.value, block);
      }
      SimThen(g1, Snap(), s.first, s.second, b, |g0.stats[b]|, e1, block, ctx);
    }

    method VisitAssign(s: Stmt, ghost ctx: Context)
      requires Ready() && ctx == Ctx() && s.Assign?
      modifies this
      ensures Valid() && loops == old(loops) && exceptions == old(exceptions)
      ensures Visited(old(Snap()), Snap(), old(block.value), block)
      ensures Sim(Snap(), s, old(block.value), |old(stats)[old(block.value)]|, block, ctx)
      ensures End(Snap(), block) == BuiltStmt(s, old(Snap()), old(block.value), ctx)
      decreases s, 1
    {
      ghost var g0, b := Snap(), block.value;
      VisitExpr(s.rhs);
      ghost var g1, e1 := Snap(), block.value;
      MarkTargets(s.targets, ctx);
      VisitedTransitive(g0, g1, Snap(), b, e1, block);
      SimAssign(g1, Snap(), s.targets, s.rhs, b, |g0.stats[b]|, e1, block.value, ctx);
    }

    /** The runs follow the graph exactly if no handler is in force: a deletion gets no edges
        to the handler of the innermost `try`, whose block is still empty. */
    method VisitDel(s: Stmt, ghost ctx: Context)
      requires Ready() && ctx == Ctx() && s.Del?
      requires ctx.handler.Some? ==> FreshIn(Snap(), ctx.handler.value) && ctx.handler.value != block.value
      modifies this
      ensures Valid() && loops == old(loops) && exceptions == old(exceptions)
      ensures Visited(old(Snap()), Snap(), old(block.value), block)
      ensures Sim(Snap(), s, old(block.value), |old(stats)[old(block.value)]|, block, ctx) <==> exceptions == []
      ensures End(Snap(), block) == BuiltStmt(s, old(Snap()), old(block.value), ctx)
      decreases s, 1
    {
      ghost var k := |stats[block.value]|;
      MarkReference(s.node, s.entry);
      MarkDeletion(s.node, s.entry);
      DelExactly(Snap(), s.node, s.entry, block.value, k, ctx);
    }

    method VisitJump(s: Stmt, ghost ctx: Context)
      requires Ready() && ctx == Ctx() && (s.Break? || s.Continue?) && loops != []
      modifies this
      ensures Valid() && loops == old(loops) && exceptions == old(exceptions)
      ensures Visited(old(Snap()), Snap(), old(block.value), block)
      ensures Sim(Snap(), s, old(block.value), |old(stats)[old(block.value)]|, block, ctx)
      ensures End(Snap(), block) == BuiltStmt(s, old(Snap()), old(block.value), ctx)
      decreases s, 1
    {
      ghost var g0, b := Snap(), block.value;
      var loop := loops[|loops| - 1];
      var to := if s.Break? then loop.nextBlock else loop.loopBlock;
      AttachedByEdge(g0, b, to);
      AddChild(block.value, to);
      block := None;
      if s.Break? {
        SimBreak(Snap(), b, ctx);
      } else {
        SimContinue(Snap(), b, ctx);
      }
    }

    method VisitReturn(s: Stmt, ghost ctx: Context)
      requires Ready() && ctx == Ctx() && s.Return?
      modifies this
      ensures Valid() && loops == old(loops) && exceptions == old(exceptions)
      ensures Visited(old(Snap()), Snap(), old(block.value), block)
      ensures Sim(Snap(), s, old(block.value), |old(stats)[old(block.value)]|, block, ctx)
      ensures End(Snap(), block) == BuiltStmt(s, old(Snap()), old(block.value), ctx)
      decreases s, 1
    {
      ghost var g0, b := Snap(), block.value;
      VisitExpr(s.expr);
      ghost var g1, e := Snap(), block.value;
      LinkTo(Some(EXIT));
      block := None;
      LeaveShape(g0, g1, s.expr, b, |g0.stats[b]|, e, Some(EXIT));
      SimReturn(Snap(), s.expr, b, |g0.stats[b]|, e, ctx);
    }

    method VisitRaise(s: Stmt, ghost ctx: Context)
      requires Ready() && ctx == Ctx() && s.Raise?
      modifies this
      ensures Valid() && loops == old(loops) && exceptions == old(exceptions)
      ensures Visited(old(Snap()), Snap(), old(block.value), block)
      ensures Sim(Snap(), s, old(block.value), |old(stats)[old(block.value)]|, block, ctx)
      ensures End(Snap(), block) == BuiltRaise(s.expr, old(Snap()), old(block.value), ctx)
      decreases s, 1
    {
      ghost var g0, b := Snap(), block.value;
      VisitExpr(s.expr);
      ghost var g1, e := Snap(), block.value;
      var handler := if exceptions == [] then None else Some(exceptions[|exceptions| - 1]);
      LinkTo(handler);
      block := None;
      LeaveShape(g0, g1, s.expr, b, |g0.stats[b]|, e, handler);
      SimRaise(Snap(), s.expr, b, |g0.stats[b]|, e, ctx);
    }

    /** A statement in blocks of its own, behind `parent` and on to `next`. */
    method VisitBranch(s: Stmt, parent: Block, next: Block, ghost ctx: Context) returns (ghost c: Block)
      requires Valid() && ctx == Ctx() && Supported(s, loops != [], exceptions != [])
      requires parent < |stats| && ENTRY < next < |stats|
      modifies this
      ensures Valid() && loops == old(loops) && exceptions == old(exceptions)
      ensures Attached(old(Snap()), Snap(), parent) && SimBranch(Snap(), Some(s), parent, next, ctx)
      ensures Sim(Snap(), s, c, 0, block, ctx) && c in children[parent]
      ensures block.Some? ==> block.value >= |old(stats)|
      ensures End(Snap(), block) == BuiltBranch(s, old(Snap()), parent, next, ctx)
      decreases s, 3
    {
      ghost var g1 := Snap();
      NextBlock(Some(parent));
      c := block.value;
      GrownByNext(g1, parent);
      VisitStmt(s, ctx);
      BranchShape(g1, Snap(), s, parent, c, block, next, ctx);
      LinkTo(Some(next));
    }

    method VisitElse(orelse: Option<Stmt>, parent: Block, next: Block, ghost ctx: Context)
      requires Valid() && ctx == Ctx() && (orelse.Some? ==> Supported(orelse.value, loops != [], exceptions != []))
      requires parent < |stats| && ENTRY < next < |stats|
      modifies this
      ensures Valid() && loops == old(loops) && exceptions == old(exceptions)
      ensures Attached(old(Snap()), Snap(), parent) && SimBranch(Snap(), orelse, parent, next, ctx)
      ensures Snap() == BuiltElse(orelse, old(Snap()), parent, next, ctx)
      decreases orelse, 0
    {
      if orelse.Some? {
        ghost var _ := VisitBranch(orelse.value, parent, next, ctx);
      } else {
        NoElseShape(Snap(), parent, next, ctx);
        AddChild(parent, next);
      }
    }

    /** The `else` of a `try`, if its body has an end to go on from. */
    method VisitElseBehind(orelse: Option<Stmt>, next: Block, ghost ctx: Context)
      requires Valid() && ctx == Ctx() && (orelse.Some? ==> Supported(orelse.value, loops != [], exceptions != []))
      requires ENTRY < next < |stats| && block != Some(next)
      modifies this
      ensures Valid() && loops == old(loops) && exceptions == old(exceptions)
      ensures match old(block)
        case Some(b) => Attached(old(Snap()), Snap(), b) && SimBranch(Snap(), orelse, b, next, ctx)
        case None => Snap() == old(Snap())
      ensures old(block).Some? ==> Snap() == BuiltElse(orelse, old(Snap()), old(block.value), next, ctx)
      decreases orelse, 1
    {
      if block.Some? {
        VisitElse(orelse, block.value, next, ctx);
      }
    }

    method VisitIf(s: Stmt, ghost ctx: Context)
      requires Ready() && ctx == Ctx() && Supported(s, loops != [], exceptions != []) && s.If?
      modifies this
      ensures Valid() && loops == old(loops) && exceptions == old(exceptions)
      ensures Visited(old(Snap()), Snap(), old(block.value), block)
      ensures Sim(Snap(), s, old(block.value), |old(stats)[old(block.value)]|, block, ctx)
      ensures End(Snap(), block) == BuiltStmt(s, old(Snap()), old(block.value), ctx)
      decreases s, 1
    {
      ghost var g0, b := Snap(), block.value;
      var next := NewBlock(None);
      GrownByBlock(g0, b);
      VisitClauses(s.clauses, block.value, next, ctx);
      GoOnIn(next);
      IfShape(g0, Snap(), s.clauses, b, next, block, ctx);
    }

    method VisitClauses(cs: Clauses, parent: Block, next: Block, ghost ctx: Context)
      requires Valid() && ctx == Ctx() && SupportedClauses(cs, loops != [], exceptions != [])
      requires parent < |stats| && ENTRY < next < |stats|
      modifies this
      ensures Valid() && loops == old(loops) && exceptions == old(exceptions)
      ensures Attached(old(Snap()), Snap(), parent) && SimClauses(Snap(), cs, parent, next, ctx)
      ensures Snap() == BuiltClauses(cs, old(Snap()), parent, next, ctx)
      decreases cs
    {
      match cs {
        case LastClause(orelse) =>
          VisitElse(orelse, parent, next, ctx);
          SimLastClause(Snap(), orelse, parent, next, ctx);
        case Clause(condition, body, rest) =>
          ghost var g1 := Snap();
          ghost var c := VisitBehind(condition, Some(parent));
          ghost var f, e := Snap(), block.value;
          var end := block.value;
          ghost var _ := VisitBranch(body, end, next, ctx);
          ghost var g2 := Snap();
          VisitClauses(rest, end, next, ctx);
          ClauseShape(g1, f, g2, Snap(), cs, parent, c, e, next, ctx);
      }
    }

    method VisitAssert(s: Stmt, ghost ctx: Context)
      requires Ready() && ctx == Ctx() && s.Assert?
      modifies this
      ensures Valid() && loops == old(loops) && exceptions == old(exceptions)
      ensures Visited(old(Snap()), Snap(), old(block.value), block)
      ensures Sim(Snap(), s, old(block.value), |old(stats)[old(block.value)]|, block, ctx)
      ensures End(Snap(), block) == BuiltAssert(s, old(Snap()), old(block.value), ctx)
      decreases s, 1
    {
      ghost var g0, b := Snap(), block.value;
      var next := NewBlock(None);
      GrownByBlock(g0, b);
      ghost var g2, e := VisitAssertParts(s, next, ctx);
      AssertBuilt(s, g0, b, ctx, g2);
      AssertShape(g0, g2, s, b, next + 1, e, next, ctx);
    }

    /** The condition, the failure behind it in `g`, and the way on from the condition. */
    method VisitAssertParts(s: Stmt, next: Block, ghost ctx: Context) returns (ghost g: Graph, ghost e: Block)
      requires Ready() && ctx == Ctx() && s.Assert? && ENTRY < next < |stats| && block.value != next
      modifies this
      ensures Valid() && loops == old(loops) && exceptions == old(exceptions) && block == Some(next)
      ensures var c := |old(stats)|;
        && Attached(old(Snap()), g, old(block.value)) && c < |g.stats| && e < |g.stats|
        && c in g.children[old(block.value)] && SimExpr(g, s.condition, c, 0, e)
        && SimBranch(g, Some(Raise(s.failure)), e, next, ctx) && Snap() == AddEdge(g, c, next) == Edge(g, c, next)
      ensures var p := BuiltExpr(s.condition, Behind(old(Snap()), old(block.value)), |old(stats)|);
        g == BuiltRaise(s.failure, Behind(p.graph, p.block), |p.graph.stats|, ctx).graph
    {
      var parent := |stats|;
      e := VisitConditionAndFailure(s, next, ctx);
      g := Snap();
      GoOnAt(parent, next);
    }

    method VisitConditionAndFailure(s: Stmt, next: Block, ghost ctx: Context) returns (ghost e: Block)
      requires Ready() && ctx == Ctx() && s.Assert? && ENTRY < next < |stats| && block.value != next
      modifies this
      ensures Valid() && loops == old(loops) && exceptions == old(exceptions)
      ensures var c := |old(stats)|;
        && Attached(old(Snap()), Snap(), old(block.value)) && c < |stats| && e < |stats|
        && c in children[old(block.value)] && SimExpr(Snap(), s.condition, c, 0, e)
        && SimBranch(Snap(), Some(Raise(s.failure)), e, next, ctx)
      ensures var p := BuiltExpr(s.condition, Behind(old(Snap()), old(block.value)), |old(stats)|);
        Snap() == BuiltRaise(s.failure, Behind(p.graph, p.block), |p.graph.stats|, ctx).graph
    {
      ghost var g1, b := Snap(), block.value;
      ghost var c := VisitBehind(s.condition, None);
      ghost var f := Snap();
      e := block.value;
      VisitFailure(s.failure, next, ctx);
      AssertPartsShape(g1, f, Snap(), s, b, c, e, next, ctx);
    }

    /** The raising half of an assertion, behind the current block. */
    method VisitFailure(e: Expr, next: Block, ghost ctx: Context)
      requires Ready() && ctx == Ctx() && ENTRY < next < |stats| && block.value != next
      modifies this
      ensures Valid() && loops == old(loops) && exceptions == old(exceptions)
      ensures Attached(old(Snap()), Snap(), old(block.value))
        && SimBranch(Snap(), Some(Raise(e)), old(block.value), next, ctx)
      ensures Snap() == BuiltRaise(e, Behind(old(Snap()), old(block.value)), |old(stats)|, ctx).graph
      decreases e, 3
    {
      ghost var g1, b := Snap(), block.value;
      NextBlock(None);
      ghost var c := block.value;
      GrownByNext(g1, b);
      VisitRaise(Raise(e), ctx);
      BranchShape(g1, Snap(), Raise(e), b, c, block, next, ctx);
      LinkTo(Some(next));
    }

    // -------------------------------------------------------------------- loops

    /** Starts a loop: the condition block becomes the current one. */
    method StartLoop(ghost ctx: Context) returns (head: Block, next: Block)
      requires Ready() && ctx == Ctx()
      modifies this
      ensures Ready() && block == Some(head) && head == |old(stats)| && next == head + 1
      ensures Snap() == LoopStart(old(Snap()), old(block.value))
      ensures loops == old(loops) + [LoopDescr(next, head)] && exceptions == old(exceptions)
      ensures Ctx() == Inner(ctx, next, head)
    {
      LoopStartAttached(Snap(), block.value);
      NextBlock(None);
      head := block.value;
      next := NewBlock(None);
      loops := loops + [LoopDescr(next, head)];
    }

    /** The body of a loop between `parent` and `head`; `next`, if given, gets an edge too. */
    method VisitBody(s: Stmt, parent: Block, head: Block, next: Option<Block>, ghost ctx: Context)
      requires Valid() && ctx == Ctx() && Supported(s, loops != [], exceptions != []) && loops != []
      requires parent < |stats| && ENTRY < head < |stats| && (next.Some? ==> ENTRY < next.value < |stats|)
      modifies this
      ensures Valid() && loops == old(loops)[..|old(loops)| - 1] && exceptions == old(exceptions)
      ensures Attached(old(Snap()), Snap(), parent) && SimBranch(Snap(), Some(s), parent, head, ctx)
      ensures next.Some? ==> SimBranch(Snap(), Some(s), parent, next.value, ctx)
      ensures var r := BuiltBranch(s, old(Snap()), parent, head, ctx);
        Snap() == EdgeFrom(r.graph, r.block, next)
      decreases s, 4
    {
      ghost var f1 := Snap();
      ghost var c := VisitBranch(s, parent, head, ctx);
      loops := loops[..|loops| - 1];
      BodyEdgeShape(f1, Snap(), s, parent, c, head, block, next, ctx);
      LinkTo(next);
    }

    method VisitWhile(s: Stmt, ghost ctx: Context)
      requires Ready() && ctx == Ctx() && Supported(s, loops != [], exceptions != []) && s.While?
      modifies this
      ensures Valid() && loops == old(loops) && exceptions == old(exceptions)
      ensures Visited(old(Snap()), Snap(), old(block.value), block)
      ensures Sim(Snap(), s, old(block.value), |old(stats)[old(block.value)]|, block, ctx)
      ensures End(Snap(), block) == BuiltWhile(s, old(Snap()), old(block.value), ctx)
      decreases s, 1
    {
      var next := VisitWhileParts(s, ctx);
      GoOnIn(next);
    }

    method VisitWhileParts(s: Stmt, ghost ctx: Context) returns (next: Block)
      requires Ready() && ctx == Ctx() && Supported(s, loops != [], exceptions != []) && s.While?
      modifies this
      ensures Valid() && loops == old(loops) && exceptions == old(exceptions) && next < |stats|
      ensures var end := Joined(Snap(), next).block;
        && Visited(old(Snap()), Snap(), old(block.value), end)
        && Sim(Snap(), s, old(block.value), |old(stats)[old(block.value)]|, end, ctx)
      ensures Joined(Snap(), next) == BuiltWhile(s, old(Snap()), old(block.value), ctx)
      decreases s, 0, 1
    {
      ghost var g0, b := Snap(), block.value;
      assert Start(g0, b);
      var head;
      head, next := StartLoop(ctx);
      VisitExpr(s.condition);
      ghost var f1, e := Snap(), block.value;
      VisitWhileRest(s, head, next, ctx);
      WhileDone(s, g0, b, head, next, ctx, f1, e, Snap());
    }

    /** The body and the `else` of a loop, behind the end of its condition. */
    method VisitWhileRest(s: Stmt, head: Block, next: Block, ghost ctx: Context)
      requires Ready() && Ctx() == Inner(ctx, next, head) && s.While? && Supported(s, |loops| > 1, exceptions != [])
      requires loops != [] && CtxOf(loops[..|loops| - 1], exceptions) == ctx
      requires ENTRY < head < |stats| && ENTRY < next < |stats| && block.value != next
      modifies this
      ensures Valid() && loops == old(loops)[..|old(loops)| - 1] && exceptions == old(exceptions)
      ensures Attached(old(Snap()), Snap(), old(block.value))
      ensures SimBranch(Snap(), Some(s.body), old(block.value), head, Inner(ctx, next, head))
      ensures SimBranch(Snap(), Some(s.body), old(block.value), next, Inner(ctx, next, head))
      ensures SimBranch(Snap(), s.orelse, old(block.value), next, ctx)
      ensures Snap() == BuiltWhileRest(s, Place(old(Snap()), old(block.value)), head, next, ctx)
      decreases s, 0, 0
    {
      ghost var f1 := Snap();
      var e := block.value;
      VisitBody(s.body, e, head, Some(next), Inner(ctx, next, head));
      ghost var f2 := Snap();
      VisitElse(s.orelse, e, next, ctx);
      AttachedTransitive(f1, f2, Snap(), e, e);
      SimBranchGrow(f2, Snap(), Some(s.body), e, head, Inner(ctx, next, head));
      SimBranchGrow(f2, Snap(), Some(s.body), e, next, Inner(ctx, next, head));
    }

    method VisitForIn(s: Stmt, ghost ctx: Context)
      requires Ready() && ctx == Ctx() && Supported(s, loops != [], exceptions != []) && s.ForIn?
      modifies this
      ensures Valid() && loops == old(loops) && exceptions == old(exceptions)
      ensures Visited(old(Snap()), Snap(), old(block.value), block)
      ensures Sim(Snap(), s, old(block.value), |old(stats)[old(block.value)]|, block, ctx)
      ensures End(Snap(), block) == BuiltFor(s, old(Snap()), old(block.value), ctx)
      decreases s, 1
    {
      var next := VisitForParts(s, ctx);
      GoOnIn(next);
    }

    method VisitForParts(s: Stmt, ghost ctx: Context) returns (next: Block)
      requires Ready() && ctx == Ctx() && Supported(s, loops != [], exceptions != []) && s.ForIn?
      modifies this
      ensures Valid() && loops == old(loops) && exceptions == old(exceptions) && next < |stats|
      ensures var end := Joined(Snap(), next).block;
        && Visited(old(Snap()), Snap(), old(block.value), end)
        && Sim(Snap(), s, old(block.value), |old(stats)[old(block.value)]|, end, ctx)
      ensures Joined(Snap(), next) == BuiltFor(s, old(Snap()), old(block.value), ctx)
      decreases s, 0, 1
    {
      ghost var g0, b := Snap(), block.value;
      assert Start(g0, b);
      var head;
      head, next := StartLoop(ctx);
      VisitExpr(s.iterable);
      ghost var f1, e := Snap(), block.value;
      VisitForRest(s, head, next, ctx);
      ForDone(s, g0, b, head, next, ctx, f1, e, Snap());
    }

    method VisitForRest(s: Stmt, head: Block, next: Block, ghost ctx: Context)
      requires Ready() && Ctx() == Inner(ctx, next, head) && s.ForIn? && Supported(s, |loops| > 1, exceptions != [])
      requires loops != [] && CtxOf(loops[..|loops| - 1], exceptions) == ctx
      requires ENTRY < head < |stats| && ENTRY < next < |stats| && block.value != next
      modifies this
      ensures Valid() && loops == old(loops)[..|old(loops)| - 1] && exceptions == old(exceptions)
      ensures Attached(old(Snap()), Snap(), old(block.value))
      ensures SimItem(Snap(), Some(s.target), s.body, old(block.value), head, Inner(ctx, next, head))
      ensures SimBranch(Snap(), s.orelse, old(block.value), next, ctx)
      ensures Snap() == BuiltForRest(s, Place(old(Snap()), old(block.value)), head, next, ctx)
      decreases s, 0, 0
    {
      ghost var f1 := Snap();
      var e := block.value;
      VisitLoopItem(s.target, s.body, head, Inner(ctx, next, head));
      ghost var f2 := Snap();
      VisitElse(s.orelse, e, next, ctx);
      AttachedTransitive(f1, f2, Snap(), e, e);
      SimItemGrow(f2, Snap(), Some(s.target), s.body, e, head, Inner(ctx, next, head));
    }

    /** The target of a `for` loop and its body, behind the current block and back to `head`. */
    method VisitLoopItem(t: Target, s: Stmt, head: Block, ghost ctx: Context)
      requires Ready() && ctx == Ctx() && Supported(s, loops != [], exceptions != []) && loops != []
      requires ENTRY < head < |stats|
      modifies this
      ensures Valid() && loops == old(loops)[..|old(loops)| - 1] && exceptions == old(exceptions)
      ensures Attached(old(Snap()), Snap(), old(block.value))
        && SimItem(Snap(), Some(t), s, old(block.value), head, ctx)
      ensures var p := BuiltTarget(t, Behind(old(Snap()), old(block.value)), |old(stats)|, ctx.handler);
        Snap() == BuiltBranch(s, p.graph, p.block, head, ctx).graph
      decreases s, 5
    {
      ghost var f1, e := Snap(), block.value;
      ghost var c := VisitTarget(t);
      ghost var f2 := Snap();
      var u := block.value;
      VisitBody(s, u, head, None, ctx);
      LoopItemShape(f1, f2, Snap(), t, s, e, c, u, head, ctx);
    }

    /** The target of a loop or of an `except` clause, in a block of its own. */
    method VisitTarget(t: Target) returns (ghost c: Block)
      requires Valid() && block.Some?
      modifies this
      ensures Valid() && block.Some? && loops == old(loops) && exceptions == old(exceptions)
      ensures Detour(old(Snap()), Snap(), old(block.value), c, block)
      ensures SimTarget(Snap(), t, c, 0, block.value, old(Ctx()))
      ensures Place(Snap(), block.value) ==
        BuiltTarget(t, Behind(old(Snap()), old(block.value)), |old(stats)|, old(Ctx()).handler)
    {
      GrownByNext(Snap(), block.value);
      NextBlock(None);
      c := block.value;
      assert stats[c] == [];
      MarkTarget(t);
    }

    // --------------------------------------------------------------- exceptions

    method VisitTryExcept(s: Stmt, ghost ctx: Context)
      requires Ready() && ctx == Ctx() && Supported(s, loops != [], exceptions != []) && s.TryExcept?
      modifies this
      ensures Valid() && loops == old(loops) && exceptions == old(exceptions)
      ensures Visited(old(Snap()), Snap(), old(block.value), block)
      ensures Sim(Snap(), s, old(block.value), |old(stats)[old(block.value)]|, block, ctx)
      ensures End(Snap(), block) == BuiltTry(s, old(Snap()), old(block.value), ctx)
      decreases s, 1
    {
      ghost var g0, b := Snap(), block.value;
      var next := VisitTry(s, ctx);
      ghost var g := Snap();
      GoOnIn(next);
      TryShape(g0, g, s, b, next, block, ctx);
    }

    /** All of a `try`, its ends joining in `next`. */
    method VisitTry(s: Stmt, ghost ctx: Context) returns (next: Block)
      requires Ready() && ctx == Ctx() && Supported(s, loops != [], exceptions != []) && s.TryExcept?
      modifies this
      ensures Valid() && loops == old(loops) && exceptions == old(exceptions) && next == |old(stats)|
      ensures TryVisited(old(Snap()), Snap(), s, old(block.value), ctx)
      ensures Snap() == BuiltTryParts(s, BuiltTryStart(old(Snap()), old(block.value)), next, ctx)
      decreases s, 0, 4
    {
      ghost var g0, b := Snap(), block.value;
      assert Start(g0, b);
      var entryPoint;
      next, entryPoint := StartTry(ctx);
      TryStartBuilt(g0, b);
      VisitTryParts(s, next, entryPoint, g0, b, ctx);
    }

    method VisitTryParts(s: Stmt, next: Block, entryPoint: Block, ghost g0: Graph, ghost b: Block, ghost ctx: Context)
      requires Valid() && block == Some(next + 3) && s.TryExcept? && Supported(s, loops != [], |exceptions| > 1)
      requires TryStarted(g0, Snap(), b) && next == |g0.stats| && entryPoint == next + 2
      requires exceptions != [] && exceptions[|exceptions| - 1] == entryPoint
      requires Ctx() == ctx.(handler := Some(entryPoint)) && CtxOf(loops, exceptions[..|exceptions| - 1]) == ctx
      modifies this
      ensures Valid() && loops == old(loops) && exceptions == old(exceptions)[..|old(exceptions)| - 1]
      ensures TryVisited(g0, Snap(), s, b, ctx)
      ensures Snap() == BuiltTryParts(s, old(Snap()), next, ctx)
      decreases s, 0, 3
    {
      ghost var h := Snap();
      VisitGuarded(s, entryPoint, next, ctx);
      VisitTryHandlers(s, next, entryPoint, g0, h, b, ctx);
    }

    method VisitTryHandlers(s: Stmt, next: Block, entryPoint: Block, ghost g0: Graph, ghost h: Graph, ghost b: Block,
                            ghost ctx: Context)
      requires Valid() && ctx == Ctx() && s.TryExcept? && SupportedHandlers(s.handlers, loops != [], exceptions != [])
      requires TryStarted(g0, h, b) && next == |g0.stats| && entryPoint == next + 2
      requires Attached(h, Snap(), next + 3) && SimGuarded(Snap(), s, next + 3, entryPoint, next, ctx)
      requires Snap() == BuiltGuarded(s, h, next + 3, entryPoint, next, ctx)
      modifies this
      ensures Valid() && loops == old(loops) && exceptions == old(exceptions)
      ensures TryVisited(g0, Snap(), s, b, ctx)
      ensures Snap() == BuiltTryParts(s, h, next, ctx)
      decreases s, 0, 1
    {
      ghost var g2 := Snap();
      EntryStaysFresh(h, g2, entryPoint, next + 3);
      VisitHandlers(s.handlers, entryPoint, next, ctx);
      TryPartsShape(g0, h, g2, Snap(), s, b, next, entryPoint, next + 3, ctx);
    }

    /** The blocks that a `try` starts with; its handler is in force from here on. */
    method StartTry(ghost ctx: Context) returns (next: Block, entryPoint: Block)
      requires Ready() && ctx == Ctx()
      modifies this
      ensures Valid() && block == Some(next + 3) && next == |old(stats)| && entryPoint == next + 2
      ensures loops == old(loops) && exceptions == old(exceptions) + [entryPoint]
      ensures Ctx() == ctx.(handler := Some(entryPoint))
      ensures Snap() == BuiltTryStart(old(Snap()), old(block.value))
    {
      ghost var g0, b := Snap(), block.value;
      next, entryPoint := TryBlocks();
      PushHandler(entryPoint);
      LinkEntry(entryPoint, g0, b);
    }

    method PushHandler(handler: Block)
      requires Valid() && ENTRY < handler < |stats|
      modifies this`exceptions
      ensures Valid() && exceptions == old(exceptions) + [handler] && Ctx() == old(Ctx()).(handler := Some(handler))
    {
      HandlerPushed(loops, exceptions, handler);
      exceptions := exceptions + [handler];
    }

    method TryBlocks() returns (next: Block, entryPoint: Block)
      requires Valid()
      modifies this`children, this`parents, this`stats, this`gen, this`blocks
      ensures Valid() && next == |old(stats)| && entryPoint == next + 2 && |stats| == next + 3
      ensures Snap() == AddBlock(AddBlock(AddBlock(old(Snap()))))
    {
      next := NewBlock(None);
      var orphan := NewBlock(None);
      entryPoint := NewBlock(None);
    }

    method LinkEntry(entryPoint: Block, ghost g0: Graph, ghost b: Block)
      requires Valid() && block == Some(b) && ENTRY < entryPoint == |g0.stats| + 2
      requires b < |g0.children| && Snap() == AddBlock(AddBlock(AddBlock(g0)))
      modifies this`children, this`parents, this`stats, this`gen, this`blocks, this`block
      ensures Valid() && block == Some(entryPoint + 1)
      ensures Snap() == BuiltTryStart(g0, b)
    {
      NextBlock(None);
      AddChild(block.value, entryPoint);
    }

    /** The body of a `try` and its `else`, behind the current block; the handler is
        dropped between the two. */
    method VisitGuarded(s: Stmt, entryPoint: Block, next: Block, ghost ctx: Context)
      requires Valid() && block.Some? && s.TryExcept? && Supported(s, loops != [], |exceptions| > 1)
      requires exceptions != [] && exceptions[|exceptions| - 1] == entryPoint && ENTRY < next < |stats|
      requires Ctx() == ctx.(handler := Some(entryPoint)) && CtxOf(loops, exceptions[..|exceptions| - 1]) == ctx
      modifies this
      ensures Valid() && loops == old(loops) && exceptions == old(exceptions)[..|old(exceptions)| - 1]
      ensures Attached(old(Snap()), Snap(), old(block.value))
      ensures SimGuarded(Snap(), s, old(block.value), entryPoint, next, ctx) && Ctx() == ctx
      ensures Snap() == BuiltGuarded(s, old(Snap()), old(block.value), entryPoint, next, ctx)
      decreases s, 0, 2
    {
      ghost var h, a := Snap(), block.value;
      ghost var d := VisitTryBody(s, entryPoint, ctx);
      ghost var f2, f := Snap(), block;
      VisitElseBehind(s.orelse, next, ctx);
      GuardedShape(h, f2, Snap(), s, a, d, f, entryPoint, next, ctx);
    }

    /** The body of a `try` in a block of its own, with its handler on the stack. */
    method VisitTryBody(s: Stmt, entryPoint: Block, ghost ctx: Context) returns (ghost d: Block)
      requires Valid() && block.Some? && s.TryExcept? && Supported(s, loops != [], |exceptions| > 1)
      requires exceptions != [] && exceptions[|exceptions| - 1] == entryPoint
      requires Ctx() == ctx.(handler := Some(entryPoint)) && CtxOf(loops, exceptions[..|exceptions| - 1]) == ctx
      modifies this
      ensures Valid() && loops == old(loops) && exceptions == old(exceptions)[..|old(exceptions)| - 1] && Ctx() == ctx
      ensures Detour(old(Snap()), Snap(), old(block.value), d, block)
      ensures Sim(Snap(), s.body, d, 0, block, ctx.(handler := Some(entryPoint)))
      ensures End(Snap(), block) ==
        BuiltStmt(s.body, Behind(old(Snap()), old(block.value)), |old(stats)|, ctx.(handler := Some(entryPoint)))
      decreases s, 0, 0
    {
      GrownByNext(Snap(), block.value);
      NextBlock(None);
      d := block.value;
      VisitStmt(s.body, Ctx());
      PopHandler();
    }

    method PopHandler()
      requires Valid() && exceptions != []
      modifies this`exceptions
      ensures Valid() && exceptions == old(exceptions)[..|old(exceptions)| - 1]
    {
      exceptions := exceptions[..|exceptions| - 1];
    }

    method VisitHandlers(hs: Handlers, entryPoint: Block, next: Block, ghost ctx: Context)
      requires Valid() && ctx == Ctx() && SupportedHandlers(hs, loops != [], exceptions != [])
      requires FreshIn(Snap(), entryPoint) && entryPoint > EXIT && ENTRY < next < |stats|
      modifies this
      ensures Valid() && loops == old(loops) && exceptions == old(exceptions)
      ensures Grown(old(Snap()), Snap(), entryPoint) && Ext(old(Snap()), Snap())
      ensures SimHandlers(Snap(), hs, entryPoint, next, ctx)
      ensures Snap() == BuiltHandlers(hs, old(Snap()), entryPoint, next, ctx)
      decreases hs, 3
    {
      match hs {
        case NoHandlers => EndHandlers(entryPoint, next, ctx);
        case Handler(_, _, _, _) => VisitClause(hs, entryPoint, next, ctx);
      }
    }

    /** An edge to the handler outside, if there is one. */
    method LinkOutside(entryPoint: Block)
      requires Valid() && entryPoint < |stats|
      modifies this`children, this`parents
      ensures Valid() && Snap() == MaybeEdge(old(Snap()), Some(entryPoint), Ctx().handler)
    {
      if exceptions != [] {
        AddChild(entryPoint, exceptions[|exceptions| - 1]);
      }
    }

    /** Behind the last clause: an exception that no clause takes goes on outside. */
    method EndHandlers(entryPoint: Block, next: Block, ghost ctx: Context)
      requires Valid() && ctx == Ctx() && FreshIn(Snap(), entryPoint) && entryPoint > EXIT && ENTRY < next < |stats|
      modifies this
      ensures Valid() && loops == old(loops) && exceptions == old(exceptions)
      ensures Grown(old(Snap()), Snap(), entryPoint) && Ext(old(Snap()), Snap())
      ensures SimHandlers(Snap(), NoHandlers, entryPoint, next, ctx)
      ensures Snap() == BuiltHandlers(NoHandlers, old(Snap()), entryPoint, next, ctx)
    {
      NoHandlersShape(Snap(), entryPoint, next, ctx);
      LinkOutside(entryPoint);
    }

    method VisitClause(hs: Handlers, entryPoint: Block, next: Block, ghost ctx: Context)
      requires Valid() && ctx == Ctx() && SupportedHandlers(hs, loops != [], exceptions != []) && hs.Handler?
      requires FreshIn(Snap(), entryPoint) && entryPoint > EXIT && ENTRY < next < |stats|
      modifies this
      ensures Valid() && loops == old(loops) && exceptions == old(exceptions)
      ensures Grown(old(Snap()), Snap(), entryPoint) && Ext(old(Snap()), Snap())
      ensures SimHandlers(Snap(), hs, entryPoint, next, ctx)
      ensures Snap() == BuiltHandlers(hs, old(Snap()), entryPoint, next, ctx)
      decreases hs, 2
    {
      ghost var g1 := Snap();
      block := Some(entryPoint);
      var other, p := VisitClauseParts(hs, next, ctx);
      ghost var f := Snap();
      VisitHandlers(hs.rest, other, next, ctx);
      HandlerShape(g1, f, Snap(), hs, entryPoint, p, other, next, ctx);
    }

    method VisitClauseParts(hs: Handlers, next: Block, ghost ctx: Context) returns (other: Block, ghost p: Block)
      requires Ready() && ctx == Ctx() && SupportedHandlers(hs, loops != [], exceptions != []) && hs.Handler?
      requires stats[block.value] == [] && ENTRY < next < |stats|
      modifies this
      ensures Valid() && loops == old(loops) && exceptions == old(exceptions)
      ensures Grown(old(Snap()), Snap(), old(block.value)) && Ext(old(Snap()), Snap()) && p < |stats|
      ensures SimExpr(Snap(), hs.pattern, old(block.value), 0, p)
      ensures other in children[p] && FreshIn(Snap(), other) && other >= |old(stats)|
      ensures SimItem(Snap(), hs.target, hs.body, p, next, ctx)
      ensures var p := BuiltExpr(hs.pattern, old(Snap()), old(block.value));
        other == |p.graph.stats| &&
        Snap() == BuiltItem(hs.target, hs.body, Behind(p.graph, p.block), p.block, next, ctx)
      decreases hs, 1
    {
      ghost var g1, b := Snap(), block.value;
      VisitExpr(hs.pattern);
      ghost var f1 := Snap();
      p := block.value;
      GrownByNext(f1, p);
      other := NewBlock(block);
      VisitHandlerBody(hs.target, hs.body, next, ctx);
      ClausePartsShape(g1, f1, Snap(), hs, b, p, other, next, ctx);
    }

    /** The target and the body of an `except` clause, behind the current block. */
    method VisitHandlerBody(t: Option<Target>, s: Stmt, next: Block, ghost ctx: Context)
      requires Valid() && block.Some? && ctx == Ctx() && Supported(s, loops != [], exceptions != [])
      requires ENTRY < next < |stats|
      modifies this
      ensures Valid() && loops == old(loops) && exceptions == old(exceptions)
      ensures Attached(old(Snap()), Snap(), old(block.value)) && SimItem(Snap(), t, s, old(block.value), next, ctx)
      ensures Snap() == BuiltItem(t, s, old(Snap()), old(block.value), next, ctx)
      decreases s, 3
    {
      VisitItem(t, s, next, ctx);
      LinkTo(Some(next));
    }

    method VisitItem(t: Option<Target>, s: Stmt, next: Block, ghost ctx: Context)
      requires Valid() && block.Some? && ctx == Ctx() && Supported(s, loops != [], exceptions != [])
      requires ENTRY < next < |stats|
      modifies this
      ensures Valid() && loops == old(loops) && exceptions == old(exceptions)
      ensures var g := MaybeEdge(Snap(), block, Some(next));
        Attached(old(Snap()), g, old(block.value)) && SimItem(g, t, s, old(block.value), next, ctx)
      ensures EdgeFrom(Snap(), block, Some(next)) == BuiltItem(t, s, old(Snap()), old(block.value), next, ctx)
      decreases s, 3, 0
    {
      ghost var f2, p := Snap(), block.value;
      ghost var c := StartClause(t);
      ghost var f4, u := Snap(), block.value;
      VisitStmt(s, ctx);
      ClauseBodyShape(f2, f4, Snap(), t, s, p, c, u, block, next, ctx);
    }

    method StartClause(t: Option<Target>) returns (ghost c: Block)
      requires Valid() && block.Some?
      modifies this
      ensures Valid() && block.Some? && loops == old(loops) && exceptions == old(exceptions)
      ensures Detour(old(Snap()), Snap(), old(block.value), c, block)
      ensures if t.Some? then SimTarget(Snap(), t.value, c, 0, block.value, old(Ctx()))
              else block == Some(c) && stats[c] == []
      ensures Place(Snap(), block.value) == BuiltItemStart(t, old(Snap()), old(block.value), old(Ctx()))
    {
      if t.Some? {
        c := VisitTarget(t.value);
      } else {
        GrownByNext(Snap(), block.value);
        NextBlock(None);
        c := block.value;
      }
    }
  }
}
