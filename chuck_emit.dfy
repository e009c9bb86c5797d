/**
  The session state of the ChucK instruction emitter (src/core/chuck_emit.h):
  the compiled unit that receives instructions (Chuck_Code), the emitter that
  owns the active unit (Chuck_Emitter), and the disassembly-label stack.

  Objects of the type checker and of the virtual machine that the header only
  points to (environment, namespace, instructions, locals, ...) are opaque
  classes here: the emitter stores and compares the pointers but never looks
  inside them.
 */
module ChuckEmit {

  datatype Option<T> = None | Some(value: T)

  // Opaque handles for the objects the header only refers to by pointer.
  class Instr {}          // Chuck_Instr
  class InstrGoto {}      // Chuck_Instr_Goto, a pending jump to patch
  class InstrStmtStart {} // Chuck_Instr_Stmt_Start
  class Local {}          // Chuck_Local
  class Env {}            // Chuck_Env
  class Context {}        // Chuck_Context
  class Namespace {}      // Chuck_Namespace
  class Func {}           // Chuck_Func

  /** A request the emitter forwards to the frame of the active unit. */
  datatype FrameRequest =
    | ScopePushed
    | LocalAllocated(size: nat, name: string, isRef: bool, isObj: bool, isGlobal: bool)

  /**
    Chuck_Frame. Its layout (scopes, offsets, stack depth) is not part of this
    model; the frame is seen only through the log of the requests it received.
   */
  class Frame {
    ghost var requests: seq<FrameRequest>

    constructor ()
      ensures requests == []
    {
      requests := [];
    }

    method PushScope()
      modifies this`requests
      ensures requests == old(requests) + [ScopePushed]
    {
      requests := requests + [ScopePushed];
    }

    method AllocLocal(size: nat, name: string, isRef: bool, isObj: bool, isGlobal: bool)
      modifies this`requests
      ensures requests == old(requests) + [LocalAllocated(size, name, isRef, isObj, isGlobal)]
    {
      requests := requests + [LocalAllocated(size, name, isRef, isObj, isGlobal)];
    }
  }

  /** Chuck_Code: one compiled unit under construction. */
  class Code {
    var name: string
    var stackDepth: nat        // in bytes
    var needThis: bool
    var isStatic: bool
    var frame: Frame
    var code: seq<Instr>       // the instruction vector
    var stackCont: seq<InstrGoto>
    var stackBreak: seq<InstrGoto>
    var stackReturn: seq<InstrGoto>
    var filename: string

    /** A fresh unit: no instructions, no pending jumps, a new empty frame. */
    constructor ()
      ensures stackDepth == 0 && !needThis && !isStatic
      ensures fresh(frame) && frame.requests == []
      ensures code == [] && stackCont == [] && stackBreak == [] && stackReturn == []
      ensures name == "" && filename == ""
    {
      name := "";
      stackDepth := 0;
      needThis := false;
      isStatic := false;
      frame := new Frame();
      code := [];
      stackCont := [];
      stackBreak := [];
      stackReturn := [];
      filename := "";
    }
  }

  /** Chuck_Emitter: the per-session emitter state. */
  class Emitter {
    var env: Env?
    var code: Code?            // the unit currently receiving instructions
    var context: Context?
    var nspc: Namespace?
    var func: Func?
    var locals: seq<Local>
    var codeStack: seq<Code>
    var stmtStack: seq<InstrStmtStart>
    var dump: bool
    var dacReplacement: string
    var shouldReplaceDac: bool
    var codestrContext: seq<string>  // labels for the instruction dump

    /** A fresh emitter: nothing attached, nothing pending, no label. */
    constructor ()
      ensures env == null && code == null && context == null && nspc == null && func == null
      ensures !dump && !shouldReplaceDac && dacReplacement == ""
      ensures locals == [] && codeStack == [] && stmtStack == [] && codestrContext == []
    {
      env := null;
      code := null;
      context := null;
      nspc := null;
      func := null;
      locals := [];
      codeStack := [];
      stmtStack := [];
      dump := false;
      dacReplacement := "";
      shouldReplaceDac := false;
      codestrContext := [];
    }

    /** Appends an instruction to the active unit; only its instruction vector changes. */
    method Append(instr: Instr)
      requires code != null
      modifies code`code
      ensures code.code == old(code.code) + [instr]
      ensures code.code[..|old(code.code)|] == old(code.code)
    {
      code.code := code.code + [instr];
    }

    /** The index the next appended instruction will get: the current count. */
    method NextIndex() returns (index: nat)
      requires code != null
      ensures index == |code.code|
    {
      index := |code.code|;
    }

    /** Delegates to the frame; the unit's instructions and jump stacks stay as they are. */
    method PushScope()
      requires code != null
      modifies code.frame`requests
      ensures code.frame.requests == old(code.frame.requests) + [ScopePushed]
      ensures code.code == old(code.code) && code.stackCont == old(code.stackCont)
      ensures code.stackBreak == old(code.stackBreak) && code.stackReturn == old(code.stackReturn)
    {
      code.frame.PushScope();
    }

    /** Delegates to the frame; the unit's instructions and jump stacks stay as they are. */
    method AllocLocal(size: nat, name: string, isRef: bool, isObj: bool, isGlobal: bool)
      requires code != null
      modifies code.frame`requests
      ensures code.frame.requests
           == old(code.frame.requests) + [LocalAllocated(size, name, isRef, isObj, isGlobal)]
      ensures code.code == old(code.code) && code.stackCont == old(code.stackCont)
      ensures code.stackBreak == old(code.stackBreak) && code.stackReturn == old(code.stackReturn)
    {
      code.frame.AllocLocal(size, name, isRef, isObj, isGlobal);
    }

    method CodestrContextPush(prefix: string)
      modifies this`codestrContext
      ensures codestrContext == old(codestrContext) + [prefix]
      ensures CodestrContextTop() == prefix
      ensures code == old(code) && (code != null ==> code.code == old(code.code))
      ensures shouldReplaceDac == old(shouldReplaceDac) && dacReplacement == old(dacReplacement)
    {
      codestrContext := codestrContext + [prefix];
    }

    /** pop_back on an empty vector is undefined, so a label must be present. */
    method CodestrContextPop()
      requires codestrContext != []
      modifies this`codestrContext
      ensures codestrContext == old(codestrContext)[..|old(codestrContext)| - 1]
      ensures code == old(code) && (code != null ==> code.code == old(code.code))
      ensures shouldReplaceDac == old(shouldReplaceDac) && dacReplacement == old(dacReplacement)
    {
      codestrContext := codestrContext[..|codestrContext| - 1];
    }

    /** The innermost label, or "" when no label is pushed. */
    function CodestrContextTop(): (top: string)
      reads this
      ensures codestrContext == [] ==> top == ""
      ensures codestrContext != [] ==> top == codestrContext[|codestrContext| - 1]
    {
      if |codestrContext| > 0 then codestrContext[|codestrContext| - 1] else ""
    }
  }

  /**
    The forward-patching pattern: the index read just before an append is the
    position of the appended instruction, and everything before it is kept.
   */
  method AppendAtNextIndex(e: Emitter, instr: Instr) returns (index: nat)
    requires e.code != null
    modifies e.code`code
    ensures index == |old(e.code.code)|
    ensures |e.code.code| == index + 1 && e.code.code[index] == instr
    ensures e.code.code[..index] == old(e.code.code)
  {
    index := e.NextIndex();
    e.Append(instr);
  }

  /** A push followed by a top and a pop: top sees the pushed label, pop restores the stack. */
  method PushTopPop(e: Emitter, prefix: string) returns (top: string)
    modifies e`codestrContext
    ensures top == prefix
    ensures e.codestrContext == old(e.codestrContext)
  {
    e.CodestrContextPush(prefix);
    top := e.CodestrContextTop();
    e.CodestrContextPop();
  }

  /** Successive appends of `instrs`, one Append call per element, on an instruction vector. */
  function AppendAll(code: seq<Instr>, instrs: seq<Instr>): seq<Instr>
    decreases |instrs|
  {
    if instrs == [] then code else AppendAll(code + [instrs[0]], instrs[1..])
  }

  /**
    Any run of appends is a concatenation: the earlier instructions keep their
    indices (so jumps recorded by index stay valid) and the k-th appended
    instruction lands at the old count plus k.
   */
  lemma {:induction false} AppendAllIsConcatenation(code: seq<Instr>, instrs: seq<Instr>)
    ensures AppendAll(code, instrs) == code + instrs
    decreases |instrs|
  {
    if instrs != [] {
      AppendAllIsConcatenation(code + [instrs[0]], instrs[1..]);
      assert code + [instrs[0]] + instrs[1..] == code + instrs;
    }
  }

  /** Calls Append once per instruction, in order; the vector ends up as the fold AppendAll. */
  method AppendEach(e: Emitter, instrs: seq<Instr>)
    requires e.code != null
    modifies e.code`code
    ensures e.code.code == AppendAll(old(e.code.code), instrs)
    ensures e.code.code == old(e.code.code) + instrs
  {
    var i := 0;
    while i < |instrs|
      invariant 0 <= i <= |instrs|
      invariant e.code.code == old(e.code.code) + instrs[..i]
    {
      e.Append(instrs[i]);
      assert instrs[..i + 1] == instrs[..i] + [instrs[i]];
      i := i + 1;
    }
    assert instrs[..i] == instrs;
    AppendAllIsConcatenation(old(e.code.code), instrs);
  }

  // ---- sequences of label-stack operations ----

  /** One call on the label stack: codestr_context_push or codestr_context_pop. */
  datatype LabelOp = PushLabel(prefix: string) | PopLabel

  /** The label stack after a run of calls; None if a pop meets an empty stack. */
  function RunLabels(stack: seq<string>, ops: seq<LabelOp>): Option<seq<string>>
    decreases |ops|
  {
    if ops == [] then Some(stack)
    else match ops[0]
      case PushLabel(p) => RunLabels(stack + [p], ops[1..])
      case PopLabel =>
        if stack == [] then None else RunLabels(stack[..|stack| - 1], ops[1..])
  }

  /** Pushes minus pops. */
  function Net(ops: seq<LabelOp>): int
    decreases |ops|
  {
    if ops == [] then 0
    else (if ops[0].PushLabel? then 1 else -1) + Net(ops[1..])
  }

  /** Net change of the first n calls never drops below -k. */
  ghost predicate NeverBelow(ops: seq<LabelOp>, k: int)
  {
    forall n :: 0 <= n <= |ops| ==> Net(ops[..n]) >= -k
  }

  lemma NeverBelowTail(ops: seq<LabelOp>, k: int)
    requires ops != [] && NeverBelow(ops, k)
    ensures NeverBelow(ops[1..], k + (if ops[0].PushLabel? then 1 else -1))
  {
    var d := if ops[0].PushLabel? then 1 else -1;
    forall n | 0 <= n <= |ops[1..]|
      ensures Net(ops[1..][..n]) >= -(k + d)
    {
      assert ops[..n + 1][0] == ops[0];
      assert ops[..n + 1][1..] == ops[1..][..n];
      assert Net(ops[..n + 1]) >= -k;
    }
  }

  /**
    A run of calls that never pops more than k labels below its starting
    point succeeds, changes the depth by its net count and leaves all but the
    top k labels untouched.
   */
  lemma {:induction false} RunLabelsKeepsBase(stack: seq<string>, ops: seq<LabelOp>, k: nat)
    requires k <= |stack|
    requires NeverBelow(ops, k)
    ensures RunLabels(stack, ops).Some?
    ensures |RunLabels(stack, ops).value| == |stack| + Net(ops) >= |stack| - k
    ensures RunLabels(stack, ops).value[..|stack| - k] == stack[..|stack| - k]
    decreases |ops|
  {
    assert ops[..|ops|] == ops;
    if ops != [] {
      NeverBelowTail(ops, k);
      match ops[0]
      case PushLabel(p) =>
        RunLabelsKeepsBase(stack + [p], ops[1..], k + 1);
        assert (stack + [p])[..|stack| - k] == stack[..|stack| - k];
      case PopLabel =>
        assert ops[..1] == [PopLabel];
        assert Net(ops[..1]) == -1 by {
          assert ops[..1][1..] == [];
        }
        RunLabelsKeepsBase(stack[..|stack| - 1], ops[1..], k - 1);
    }
  }

  /** A balanced region of pushes and pops leaves the label stack exactly as it found it. */
  lemma BalancedRegionRestores(stack: seq<string>, ops: seq<LabelOp>)
    requires NeverBelow(ops, 0) && Net(ops) == 0
    ensures RunLabels(stack, ops) == Some(stack)
  {
    RunLabelsKeepsBase(stack, ops, 0);
    var after := RunLabels(stack, ops).value;
    assert after == after[..|stack|] == stack[..|stack|] == stack;
  }

  /** After pushing p and running a balanced region, the top label is p again. */
  lemma PushedLabelOnTopAfterRegion(stack: seq<string>, p: string, ops: seq<LabelOp>)
    requires NeverBelow(ops, 0) && Net(ops) == 0
    ensures RunLabels(stack, [PushLabel(p)] + ops) == Some(stack + [p])
  {
    assert ([PushLabel(p)] + ops)[1..] == ops;
    BalancedRegionRestores(stack + [p], ops);
  }

  /**
    Performs a run of label calls on the emitter, one CodestrContextPush or
    CodestrContextPop per operation; its label stack ends up as RunLabels
    predicts, so the lemmas above apply to the emitter itself.
   */
  method RunLabelCalls(e: Emitter, ops: seq<LabelOp>)
    requires RunLabels(e.codestrContext, ops).Some?
    modifies e`codestrContext
    ensures Some(e.codestrContext) == RunLabels(old(e.codestrContext), ops)
    decreases |ops|
  {
    if ops != [] {
      match ops[0] {
        case PushLabel(p) =>
          e.CodestrContextPush(p);
        case PopLabel =>
          e.CodestrContextPop();
      }
      RunLabelCalls(e, ops[1..]);
    }
  }
}
