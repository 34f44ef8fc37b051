/** The data of a workflow: values, component outputs, the component graph and the
    oracle that stands for everything a component's own code does. */
module WorkflowGraph {
  import opened Wrappers
  import Strings

  /** Component ids. The empty id plays the part of Python's None: it names no component. */
  type Id = string

  datatype Value =
    | Null
    | Bool(b: bool)
    | Num(n: real)
    | Infinite(positive: bool)
    | NaN
    | Str(s: string)
    | List(items: seq<Value>)
    | Dict(fields: map<string, Value>)
    | Stream(token: nat)  // a functools.partial still to be drained

  predicate Truthy(v: Value) {
    match v
    case Null => false
    case Bool(b) => b
    case Num(n) => n != 0.0
    case Infinite(_) => true
    case NaN => true
    case Str(s) => s != ""
    case List(items) => items != []
    case Dict(fields) => fields.Keys != {}
    case Stream(_) => true
  }

  /** What a reference such as `sys.query` or `cid@name` denotes. */
  datatype VarRef = Global(name: string) | Output(cpn: Id, name: string)

  /** Component outputs and canvas globals. */
  datatype Memory = Memory(outputs: map<Id, map<string, Value>>, globals: map<string, Value>)

  /** A missing output reads as the empty string. */
  function GetOut(mem: Memory, id: Id, key: string): Value {
    if id in mem.outputs && key in mem.outputs[id] then mem.outputs[id][key] else Str("")
  }

  function SetOut(mem: Memory, id: Id, key: string, v: Value): Memory {
    var row := if id in mem.outputs then mem.outputs[id] else map[];
    mem.(outputs := mem.outputs[id := row[key := v]])
  }

  const ERROR := "_ERROR"

  predicate HasError(mem: Memory, id: Id) {
    id in mem.outputs && ERROR in mem.outputs[id] && Truthy(mem.outputs[id][ERROR])
  }

  datatype Operator =
    | Contains | NotContains | StartWith | EndWith | Is | IsNot | Empty | NotEmpty
    | Eq | Ne | Gt | Lt | Ge | Le | Unknown

  datatype Operand = Constant(v: Value) | Variable(ref: VarRef) | BadMode

  datatype Condition = Condition(variable: Option<VarRef>, operator: Option<Operator>, operand: Operand)

  datatype Logic = And | Or | BadLogic

  /** A loop variable: copied from another variable, or set to a constant. An input mode that is neither
      stores the zero value of the declared type, which is a constant here. */
  datatype LoopVar = FromVariable(name: string, ref: VarRef) | FromConstant(name: string, v: Value)

  /** An output of an iteration declared with a reference to a component inside it. */
  datatype Collect = Collect(key: string, source: Id, variable: string)

  datatype Kind =
    | Begin
    | UserFillUp
    | Message
    | Iteration(itemsRef: VarRef, collects: seq<Collect>)
    | IterationItem
    | Loop(loopVars: seq<LoopVar>, maximum: int, conditions: seq<Condition>, logic: Logic)
    | LoopItem
    | ExitLoop
    | Categorize
    | Switch
    | Other

  datatype Handler = Handler(goto: seq<Id>, default: Value, comment: bool)

  datatype Component = Component(
    kind: Kind,
    downstream: seq<Id>,
    parent: Option<Id>,
    inputs: seq<Id>,          // the component ids its input elements refer to
    handler: Option<Handler>)

  /** `order` is the order in which the components dictionary is walked. */
  datatype Graph = Graph(order: seq<Id>, comp: map<Id, Component>)

  ghost predicate WellFormed(g: Graph) {
    && (forall c :: c in g.order <==> c in g.comp)
    && (forall i, j :: 0 <= i < j < |g.order| ==> g.order[i] != g.order[j])
    && "" !in g.comp
    && (forall c :: c in g.comp && g.comp[c].parent.Some? ==> g.comp[c].parent.value in g.comp)
    && (forall c :: c in g.comp && g.comp[c].kind.Iteration? ==> DistinctKeys(g.comp[c].kind.collects))
  }

  /** The outputs of a component form a dictionary. */
  ghost predicate DistinctKeys(collects: seq<Collect>) {
    forall i, j :: 0 <= i < j < |collects| ==> collects[i].key != collects[j].key
  }

  predicate IsBlock(k: Kind) { k.Iteration? || k.Loop? }

  predicate IsItem(k: Kind) { k.IterationItem? || k.LoopItem? }

  predicate HasParent(g: Graph, id: Id, p: Id) {
    id in g.comp && g.comp[id].parent == Some(p)
  }

  /** The item that starts the body of a block: the first in dictionary order, or nothing. */
  function StartOf(g: Graph, p: Id): Id
    requires p in g.comp
  {
    FirstItem(g, p, g.comp[p].kind.Iteration?, g.order)
  }

  function FirstItem(g: Graph, p: Id, iteration: bool, ids: seq<Id>): Id {
    if ids == [] then ""
    else if HasParent(g, ids[0], p)
            && (if iteration then g.comp[ids[0]].kind.IterationItem? else g.comp[ids[0]].kind.LoopItem?)
    then ids[0]
    else FirstItem(g, p, iteration, ids[1..])
  }

  function Lookup(g: Graph, mem: Memory, ref: VarRef): Result<Value> {
    match ref
    case Global(name) => if name in mem.globals then Ok(mem.globals[name]) else Raise
    case Output(cpn, name) => if cpn in g.comp then Ok(GetOut(mem, cpn, name)) else Raise
  }

  /** Everything the model does not look into. `invoke` is the effect of a component's own code,
      `stream` that of draining a message, and `cancelAt` the moment from which the task is
      seen as canceled. All are indexed by a tick that grows with every call, so one World stands for
      one arbitrary behaviour of the environment. */
  datatype World = World(
    invoke: (nat, Id, Memory) -> Memory,
    stream: (nat, Id, Memory) -> (Memory, string),
    cancelAt: Option<nat>)

  predicate Canceled(w: World, tick: nat, stage: nat) {
    w.cancelAt.Some? && w.cancelAt.value <= 4 * tick + stage
  }

  /** Whether a component id reads as a user form, whatever its case. */
  predicate NamedFillUp(id: Id) {
    |id| >= 10 && (Strings.Lower(id[..10]) == "userfillup" || NamedFillUp(id[1..]))
  }
}
