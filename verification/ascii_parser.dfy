/**
 * The bookkeeping state of the USDA (USD ASCII) parser `AsciiParser`: the
 * error and warning stacks, the prim path stack, the load-provenance flags
 * and the registered construction callbacks.
 */
module AsciiParserCore {
  import Lifo
  import Registry

  /** A C++ `int`. */
  newtype Int32 = x: int | -0x8000_0000 <= x < 0x8000_0000

  /**
   * Where the file being parsed was loaded from. The code that turns it into
   * the load flags is not part of this model; the type documents the header.
   */
  datatype LoadState = Toplevel | SubLayer | Reference | Payload

  /** The `kind` prim metadatum (documents the header; no modelled operation uses it). */
  datatype Kind = Model | Group | Assembly | Component | Subcomponent

  /** Advisory row/column position, recorded in diagnostics. */
  datatype Cursor = Cursor(row: Int32, col: Int32)

  /** One error or warning: its message and the cursor when it was reported. */
  datatype Diagnostic = Diagnostic(err: string, cursor: Cursor)

  /**
   * A callback slot holds a `std::function`, which may be empty; a non-empty
   * one is foreign code, known here only by an opaque id.
   */
  datatype Callback = Unset | Handler(id: nat)

  /** A C++ `size_t` converted to `bool`: true exactly when non-zero. */
  function SizeToBool(n: nat): bool
  {
    n != 0
  }

  class AsciiParser {
    var errStack: seq<Diagnostic>  // top at the end
    var warnStack: seq<Diagnostic>  // top at the end
    var pathStack: seq<string>  // top at the end
    var currCursor: Cursor

    // load flags
    var subLayered: bool
    var referenced: bool
    var payloaded: bool

    // callbacks
    var primIdxAssignFun: Callback
    var stageMetaProcessFun: Callback
    var primConstructFunMap: map<string, Callback>
    var postPrimConstructFunMap: map<string, Callback>

    /** The member initialisers: empty stacks, cursor (0, 0), no load flag, no callback. */
    constructor ()
      ensures errStack == [] && warnStack == [] && pathStack == []
      ensures currCursor == Cursor(0, 0)
      ensures !subLayered && !referenced && !payloaded
      ensures primIdxAssignFun == Unset && stageMetaProcessFun == Unset
      ensures primConstructFunMap == map[] && postPrimConstructFunMap == map[]
    {
      errStack, warnStack, pathStack := [], [], [];
      currCursor := Cursor(0, 0);
      subLayered, referenced, payloaded := false, false, false;
      primIdxAssignFun, stageMetaProcessFun := Unset, Unset;
      primConstructFunMap, postPrimConstructFunMap := map[], map[];
    }

    // ---- diagnostics ----

    /** Records an error at the current cursor. */
    method PushError(msg: string)
      modifies this`errStack
      ensures errStack == Lifo.Push(old(errStack), Diagnostic(msg, currCursor))
      ensures Lifo.Top(errStack).err == msg && Lifo.Top(errStack).cursor == currCursor
      ensures warnStack == old(warnStack) && pathStack == old(pathStack)
    {
      var diag := Diagnostic(msg, Cursor(currCursor.row, currCursor.col));
      errStack := errStack + [diag];
    }

    /** Cancels the most recent error, if there is one. */
    method PopError()
      modifies this`errStack
      ensures errStack == Lifo.Pop(old(errStack))
      ensures old(errStack) == [] ==> errStack == []
      ensures old(errStack) != [] ==> errStack + [Lifo.Top(old(errStack))] == old(errStack)
      ensures warnStack == old(warnStack) && pathStack == old(pathStack)
    {
      if errStack != [] {
        errStack := errStack[..|errStack| - 1];
      }
    }

    /** Records a warning at the current cursor. */
    method PushWarn(msg: string)
      modifies this`warnStack
      ensures warnStack == Lifo.Push(old(warnStack), Diagnostic(msg, currCursor))
      ensures Lifo.Top(warnStack).err == msg && Lifo.Top(warnStack).cursor == currCursor
      ensures errStack == old(errStack) && pathStack == old(pathStack)
    {
      var diag := Diagnostic(msg, Cursor(currCursor.row, currCursor.col));
      warnStack := warnStack + [diag];
    }

    /** Cancels the most recent warning, if there is one. */
    method PopWarn()
      modifies this`warnStack
      ensures warnStack == Lifo.Pop(old(warnStack))
      ensures old(warnStack) == [] ==> warnStack == []
      ensures old(warnStack) != [] ==> warnStack + [Lifo.Top(old(warnStack))] == old(warnStack)
      ensures errStack == old(errStack) && pathStack == old(pathStack)
    {
      if warnStack != [] {
        warnStack := warnStack[..|warnStack| - 1];
      }
    }

    // ---- load provenance ----

    function IsReferenced(): bool
      reads this
    {
      referenced
    }

    function IsSubLayered(): bool
      reads this
    {
      subLayered
    }

    function IsPayloaded(): bool
      reads this
    {
      payloaded
    }

    /** The file was read as the top layer: by none of references, subLayers, payload. */
    function IsToplevel(): (r: bool)
      reads this
      ensures r <==> !referenced && !subLayered && !payloaded
    {
      !IsReferenced() && !IsSubLayered() && !IsPayloaded()
    }

    // ---- prim path stack ----

    /** Despite its name, says only whether a prim path is open (the size converted to `bool`). */
    function PathStackDepth(): (r: bool)
      reads this
      ensures r <==> pathStack != []
    {
      SizeToBool(|pathStack|)
    }

    /** Enters the prim `p`. */
    method PushPath(p: string)
      modifies this`pathStack
      ensures pathStack == Lifo.Push(old(pathStack), p)
      ensures PathStackDepth()
      ensures errStack == old(errStack) && warnStack == old(warnStack)
    {
      pathStack := pathStack + [p];
    }

    /** Leaves the innermost prim, if any. */
    method PopPath()
      modifies this`pathStack
      ensures pathStack == Lifo.Pop(old(pathStack))
      ensures old(pathStack) == [] ==> pathStack == []
      ensures errStack == old(errStack) && warnStack == old(warnStack)
    {
      if pathStack != [] {
        pathStack := pathStack[..|pathStack| - 1];
      }
    }

    // ---- callback registry ----

    method RegisterPrimIdxAssignFunction(fun: Callback)
      modifies this`primIdxAssignFun
      ensures primIdxAssignFun == fun
    {
      primIdxAssignFun := fun;
    }

    method RegisterStageMetaProcessFunction(fun: Callback)
      modifies this`stageMetaProcessFun
      ensures stageMetaProcessFun == fun
    {
      stageMetaProcessFun := fun;
    }

    /** Installs `fun` as the construction callback for prims of type `primType`. */
    method RegisterPrimConstructFunction(primType: string, fun: Callback)
      modifies this`primConstructFunMap
      ensures primConstructFunMap == Registry.Register(old(primConstructFunMap), primType, fun)
      ensures primType in primConstructFunMap && primConstructFunMap[primType] == fun
      ensures forall t :: t in old(primConstructFunMap) && t != primType ==>
                t in primConstructFunMap && primConstructFunMap[t] == old(primConstructFunMap)[t]
    {
      primConstructFunMap := primConstructFunMap[primType := fun];
    }

    /** Installs `fun` as the callback run after constructing prims of type `primType`. */
    method RegisterPostPrimConstructFunction(primType: string, fun: Callback)
      modifies this`postPrimConstructFunMap
      ensures postPrimConstructFunMap == Registry.Register(old(postPrimConstructFunMap), primType, fun)
      ensures primType in postPrimConstructFunMap && postPrimConstructFunMap[primType] == fun
      ensures forall t :: t in old(postPrimConstructFunMap) && t != primType ==>
                t in postPrimConstructFunMap && postPrimConstructFunMap[t] == old(postPrimConstructFunMap)[t]
    {
      postPrimConstructFunMap := postPrimConstructFunMap[primType := fun];
    }
  }

  /**
   * The "cancel a recent parsing error" pattern: an error pushed by a
   * speculative production and popped when it is abandoned leaves no trace,
   * and the warnings and path are untouched.
   */
  method CancelRecentError(p: AsciiParser, msg: string)
    modifies p`errStack
    ensures p.errStack == old(p.errStack)
    ensures p.warnStack == old(p.warnStack) && p.pathStack == old(p.pathStack)
  {
    p.PushError(msg);
    p.PopError();
    Lifo.PopAfterPush(old(p.errStack), Diagnostic(msg, p.currCursor));
  }

  /** The same pattern for warnings: no trace, errors and path untouched. */
  method CancelRecentWarning(p: AsciiParser, msg: string)
    modifies p`warnStack
    ensures p.warnStack == old(p.warnStack)
    ensures p.errStack == old(p.errStack) && p.pathStack == old(p.pathStack)
  {
    p.PushWarn(msg);
    p.PopWarn();
    Lifo.PopAfterPush(old(p.warnStack), Diagnostic(msg, p.currCursor));
  }

  /** Entering a prim and leaving it restores the path stack. */
  method EnterAndLeavePrim(p: AsciiParser, name: string)
    modifies p`pathStack
    ensures p.pathStack == old(p.pathStack)
    ensures p.errStack == old(p.errStack) && p.warnStack == old(p.warnStack)
  {
    p.PushPath(name);
    p.PopPath();
    Lifo.PopAfterPush(old(p.pathStack), name);
  }
}
