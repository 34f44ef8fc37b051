/** The components whose own code the model looks into: Iteration, IterationItem, Loop and LoopItem.
    Each function gives the memory and the item index after one invocation. */
module Components {
  import opened Wrappers
  import opened WorkflowGraph
  import opened LoopConditions

  /** `ComponentBase.invoke` when the component's code raises. */
  function Fail(g: Graph, mem: Memory, id: Id): Memory
    requires id in g.comp
  {
    match g.comp[id].handler
    case Some(h) =>
      if h.comment && Truthy(h.default) then SetOut(mem, id, "result", h.default)
      else SetOut(mem, id, ERROR, Str("exception"))
    case None => SetOut(mem, id, ERROR, Str("exception"))
  }

  function MarkCanceled(mem: Memory, id: Id): Memory {
    SetOut(mem, id, ERROR, Str("Task has been canceled"))
  }

  /** `output_collation` may raise half way: what was appended before stays. */
  datatype Collation = Collation(mem: Memory, raised: bool)

  function CollateOne(mem: Memory, p: Id, c: Collect): Collation {
    var res := GetOut(mem, p, c.key);
    var v := GetOut(mem, c.source, c.variable);
    if !Truthy(res) then Collation(SetOut(mem, p, c.key, List([v])), false)
    else if res.List? then Collation(SetOut(mem, p, c.key, List(res.items + [v])), false)
    else Collation(mem, true)
  }

  function CollateFrom(mem: Memory, p: Id, collects: seq<Collect>, cid: Id): Collation
    decreases |collects|
  {
    if collects == [] then Collation(mem, false)
    else if collects[0].source != cid then CollateFrom(mem, p, collects[1..], cid)
    else
      var r := CollateOne(mem, p, collects[0]);
      if r.raised then r else CollateFrom(r.mem, p, collects[1..], cid)
  }

  function CollateAll(g: Graph, mem: Memory, p: Id, collects: seq<Collect>, cids: seq<Id>): Collation
    decreases |cids|
  {
    if cids == [] then Collation(mem, false)
    else if !HasParent(g, cids[0], p) then CollateAll(g, mem, p, collects, cids[1..])
    else
      var r := CollateFrom(mem, p, collects, cids[0]);
      if r.raised then r else CollateAll(g, r.mem, p, collects, cids[1..])
  }

  datatype ItemStep = ItemStep(mem: Memory, idx: int)

  /** `arr[i]` in Python, where a negative index counts from the end. */
  function PyIndex(arr: seq<Value>, i: int): Result<Value> {
    if 0 <= i < |arr| then Ok(arr[i])
    else if -|arr| <= i < 0 then Ok(arr[|arr| + i])
    else Raise
  }

  function InvokeIterationItem(g: Graph, w: World, tick: nat, mem: Memory, idx: int, id: Id): ItemStep
    requires id in g.comp
  {
    if Canceled(w, tick, 1) then ItemStep(MarkCanceled(mem, id), idx)
    else
      match g.comp[id].parent
      case None => ItemStep(Fail(g, mem, id), idx)
      case Some(p) =>
        if p !in g.comp || !g.comp[p].kind.Iteration? then ItemStep(Fail(g, mem, id), idx)
        else
          var arr := Lookup(g, mem, g.comp[p].kind.itemsRef);
          if arr.Raise? then ItemStep(Fail(g, mem, id), idx)
          else if !arr.value.List? then ItemStep(Fail(g, mem, id), -1)
          else AdvanceIterationItem(g, w, tick, mem, idx, id, p, arr.value.items)
  }

  /** The rest of `IterationItem._invoke`, once the array is known. */
  function AdvanceIterationItem(g: Graph, w: World, tick: nat, mem: Memory, idx: int, id: Id, p: Id,
                                arr: seq<Value>): ItemStep
    requires id in g.comp && p in g.comp && g.comp[p].kind.Iteration?
  {
    if idx > 0 && Canceled(w, tick, 2) then ItemStep(MarkCanceled(mem, id), idx)
    else
      var c := if idx > 0 then CollateAll(g, mem, p, g.comp[p].kind.collects, g.order) else Collation(mem, false);
      if c.raised then ItemStep(Fail(g, c.mem, id), idx)
      else if idx >= |arr| then ItemStep(c.mem, -1)
      else if Canceled(w, tick, 3) then ItemStep(MarkCanceled(c.mem, id), idx)
      else
        var v := PyIndex(arr, idx);
        if v.Raise? then ItemStep(Fail(g, c.mem, id), idx)
        else ItemStep(Present(c.mem, id, v.value, idx), idx + 1)
  }

  /** Hand out one element of the array. */
  function Present(mem: Memory, id: Id, v: Value, idx: int): Memory {
    SetOut(SetOut(mem, id, "item", v), id, "index", Num(idx as real))
  }

  function InvokeLoopItem(g: Graph, w: World, tick: nat, mem: Memory, idx: int, id: Id): ItemStep
    requires id in g.comp
  {
    if Canceled(w, tick, 1) then ItemStep(MarkCanceled(mem, id), idx)
    else
      match g.comp[id].parent
      case None => ItemStep(Fail(g, mem, id), idx)
      case Some(p) =>
        if p !in g.comp || !g.comp[p].kind.Loop? then ItemStep(Fail(g, mem, id), idx)
        else if idx >= g.comp[p].kind.maximum then ItemStep(mem, -1)
        else if idx > 0 && Canceled(w, tick, 2) then ItemStep(MarkCanceled(mem, id), idx)
        else ItemStep(mem, idx + 1)
  }

  /** `LoopItem.end`, which may raise and which remembers a condition that came true. */
  function LoopItemEnd(g: Graph, mem: Memory, idx: int, id: Id): Result<bool>
    requires id in g.comp
  {
    if idx == -1 then Ok(true)
    else
      match g.comp[id].parent
      case None => Raise
      case Some(p) =>
        if p !in g.comp || !g.comp[p].kind.Loop? then Raise else ShouldEnd(g, mem, g.comp[p].kind)
  }

  function InvokeIteration(g: Graph, w: World, tick: nat, mem: Memory, id: Id): Memory
    requires id in g.comp && g.comp[id].kind.Iteration?
  {
    if Canceled(w, tick, 1) then MarkCanceled(mem, id)
    else
      var arr := Lookup(g, mem, g.comp[id].kind.itemsRef);
      if arr.Raise? then Fail(g, mem, id)
      else if !arr.value.List? then SetOut(mem, id, ERROR, Str("must be an array"))
      else mem
  }

  function InvokeLoop(g: Graph, w: World, tick: nat, mem: Memory, id: Id): Memory
    requires id in g.comp && g.comp[id].kind.Loop?
  {
    if Canceled(w, tick, 1) then MarkCanceled(mem, id) else SetLoopVars(g, mem, id, g.comp[id].kind.loopVars)
  }

  function SetLoopVars(g: Graph, mem: Memory, id: Id, vars: seq<LoopVar>): Memory
    requires id in g.comp
    decreases |vars|
  {
    if vars == [] then mem
    else
      match vars[0]
      case FromConstant(name, v) => SetLoopVars(g, SetOut(mem, id, name, v), id, vars[1..])
      case FromVariable(name, ref) =>
        var v := Lookup(g, mem, ref);
        if v.Raise? then Fail(g, mem, id) else SetLoopVars(g, SetOut(mem, id, name, v.value), id, vars[1..])
  }
}
