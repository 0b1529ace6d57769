/**
 * The LLVM IR generator function: the per-function context that the lowering
 * passes update while they emit one function's body.
 *
 * LLVM handles (blocks, pointers, the return entity) are opaque values that are
 * compared by identity only. The LLVM function value behind a declaration is an
 * object whose only modelled state is its set of function-level attributes.
 */
module FunctionContext {
  import opened Wrappers
  import opened Text
  import opened Attributes

  /** An LLVM basic block handle. */
  datatype BasicBlock = BasicBlock(id: nat)

  /** A typed stack-slot pointer handle. */
  datatype Pointer = Pointer(id: nat)

  /** The function's return-value entity, fixed at construction. */
  datatype Return = Return(id: nat)

  /** Bookkeeping attached to functions that come from Yul. */
  datatype YulData = YulData(id: nat)

  /** The LLVM function value: its function-level attribute list. */
  class FunctionValue {
    var attributes: set<Attribute>

    constructor (attributes: set<Attribute>)
      ensures this.attributes == attributes
    {
      this.attributes := attributes;
    }
  }

  /** A copyable handle to a declared LLVM function; updates go to `value`. */
  datatype Declaration = Declaration(value: FunctionValue)

  /** The optimizer settings read by the attribute policies. */
  datatype Settings = Settings(levelMiddleEndSize: SizeLevel)

  datatype Optimizer = Optimizer(settings: Settings)

  /** The names of the three runtime entry functions that the front end emits itself. */
  datatype RuntimeNames = RuntimeNames(entry: string, deployCode: string, runtimeCode: string)

  class Function {
    /** The high-level source code name. */
    const name: string
    const declaration: Declaration
    /** Stack slots of the function's local variables, by source name. */
    var stack: map<string, Pointer>
    const returnEntity: Return
    /** The single entry block. */
    const entryBlock: BasicBlock
    /** The single return block that every high-level return jumps to. */
    const returnBlock: BasicBlock
    /** Set by the Yul lowering; absent for every other function. */
    var yulData: Option<YulData>

    constructor (name: string, declaration: Declaration, returnEntity: Return,
                 entryBlock: BasicBlock, returnBlock: BasicBlock)
      ensures this.name == name && this.declaration == declaration && this.returnEntity == returnEntity
      ensures this.entryBlock == entryBlock && this.returnBlock == returnBlock
      ensures stack == map[] && yulData == None
    {
      this.name := name;
      this.declaration := declaration;
      this.stack := map[];
      this.returnEntity := returnEntity;
      this.entryBlock := entryBlock;
      this.returnBlock := returnBlock;
      this.yulData := None;
    }

    /**
     * Whether a function is defined outside the front end: LLVM intrinsics and
     * reserved `__` names, except the three runtime entries the front end emits.
     */
    static function IsNameExternal(name: string, runtime: RuntimeNames): (r: bool)
      ensures StartsWith(name, "llvm.") ==> r
      ensures (StartsWith(name, "__") && name != runtime.entry && name != runtime.deployCode
               && name != runtime.runtimeCode) ==> r
      ensures (StartsWith(name, "__") && (name == runtime.entry || name == runtime.deployCode
               || name == runtime.runtimeCode)) ==> !r
      ensures (!StartsWith(name, "llvm.") && !StartsWith(name, "__")) ==> !r
    {
      assert StartsWith(name, "__") ==> name[0] == '_';
      assert StartsWith(name, "llvm.") ==> name[0] == 'l';
      StartsWith(name, "llvm.")
      || (StartsWith(name, "__")
          && name != runtime.entry
          && name != runtime.deployCode
          && name != runtime.runtimeCode)
    }

    /**
     * Adds `attributes` to the declaration in list order. With `force`,
     * AlwaysInline first removes NoInline and NoInline first removes
     * AlwaysInline. A `Memory` request panics as unimplemented.
     */
    static method SetAttributes(declaration: Declaration, attributes: seq<Attribute>, force: bool)
      returns (outcome: Outcome<()>)
      modifies declaration.value
      ensures outcome.Done? <==> AttributesAfterSet(old(declaration.value.attributes), attributes, force).Done?
      ensures outcome.Done? ==>
                AttributesAfterSet(old(declaration.value.attributes), attributes, force)
                == Done(declaration.value.attributes)
      ensures outcome.Panicked? ==>
                AttributesAfterSet(old(declaration.value.attributes), attributes, force)
                == Panicked(outcome.message)
    {
      var value := declaration.value;
      ghost var initial := value.attributes;
      var i := 0;
      while i < |attributes|
        invariant 0 <= i <= |attributes|
        invariant AttributesAfterSet(initial, attributes[..i], force) == Done(value.attributes)
      {
        var kind := attributes[i];
        assert attributes[..i + 1][..i] == attributes[..i];
        if kind == Memory {
          SetPanicsIffMemory(initial, attributes, force);
          return Panicked(MemoryUnimplemented);
        } else if kind == AlwaysInline && force {
          value.attributes := value.attributes - {NoInline};
          value.attributes := value.attributes + {AlwaysInline};
        } else if kind == NoInline && force {
          value.attributes := value.attributes - {AlwaysInline};
          value.attributes := value.attributes + {NoInline};
        } else {
          value.attributes := value.attributes + {kind};
        }
        i := i + 1;
      }
      assert attributes[..i] == attributes;
      return Done(());
    }

    /** Removes those of `attributes` that the declaration carries. */
    static method RemoveAttributes(declaration: Declaration, attributes: seq<Attribute>)
      modifies declaration.value
      ensures declaration.value.attributes == AttributesAfterRemove(old(declaration.value.attributes), attributes)
      ensures declaration.value.attributes == old(declaration.value.attributes) - Listed(attributes)
    {
      var value := declaration.value;
      ghost var initial := value.attributes;
      var i := 0;
      while i < |attributes|
        invariant 0 <= i <= |attributes|
        invariant AttributesAfterRemove(initial, attributes[..i]) == value.attributes
      {
        var attribute := attributes[i];
        assert attributes[..i + 1][..i] == attributes[..i];
        if attribute in value.attributes {
          value.attributes := value.attributes - {attribute};
        }
        i := i + 1;
      }
      assert attributes[..i] == attributes;
      RemoveIsDifference(initial, attributes);
    }

    /** Size attributes at level Z, and NoFree always. */
    static method SetDefaultAttributes(declaration: Declaration, optimizer: Optimizer)
      modifies declaration.value
      ensures declaration.value.attributes ==
                WithDefaultAttributes(old(declaration.value.attributes), optimizer.settings.levelMiddleEndSize)
      ensures declaration.value.attributes ==
                old(declaration.value.attributes)
                + if optimizer.settings.levelMiddleEndSize == Z then {OptimizeForSize, MinSize, NoFree} else {NoFree}
    {
      ghost var initial := declaration.value.attributes;
      var outcome: Outcome<()>;
      if optimizer.settings.levelMiddleEndSize == Z {
        SetPanicsIffMemory(declaration.value.attributes, [OptimizeForSize, MinSize], false);
        outcome := SetAttributes(declaration, [OptimizeForSize, MinSize], false);
      }
      SetPanicsIffMemory(declaration.value.attributes, [NoFree], false);
      outcome := SetAttributes(declaration, [NoFree], false);
      DefaultAttributesAdded(initial, optimizer.settings.levelMiddleEndSize);
    }

    /** NoInline at level Z for the front end's own runtime helpers. */
    static method SetFrontendRuntimeAttributes(declaration: Declaration, optimizer: Optimizer)
      modifies declaration.value
      ensures declaration.value.attributes ==
                WithFrontendRuntimeAttributes(old(declaration.value.attributes), optimizer.settings.levelMiddleEndSize)
      ensures declaration.value.attributes ==
                if optimizer.settings.levelMiddleEndSize == Z then old(declaration.value.attributes) + {NoInline}
                else old(declaration.value.attributes)
    {
      ghost var initial := declaration.value.attributes;
      if optimizer.settings.levelMiddleEndSize == Z {
        SetPanicsIffMemory(declaration.value.attributes, [NoInline], false);
        var outcome := SetAttributes(declaration, [NoInline], false);
      }
      FrontendRuntimeAttributesAdded(initial, optimizer.settings.levelMiddleEndSize);
    }

    /** MustProgress, NoUnwind and WillReturn for functions without side effects. */
    static method SetPureFunctionAttributes(declaration: Declaration)
      modifies declaration.value
      ensures declaration.value.attributes == WithPureFunctionAttributes(old(declaration.value.attributes))
      ensures declaration.value.attributes ==
                old(declaration.value.attributes) + {MustProgress, NoUnwind, WillReturn}
    {
      ghost var initial := declaration.value.attributes;
      SetPanicsIffMemory(declaration.value.attributes, [MustProgress, NoUnwind, WillReturn], false);
      var outcome := SetAttributes(declaration, [MustProgress, NoUnwind, WillReturn], false);
      PureFunctionAttributesAdded(initial);
    }

    /** The pointer bound to a stack variable, if any. */
    function GetStackPointer(name: string): (r: Option<Pointer>)
      reads this
      ensures r.Some? <==> name in stack
      ensures r.Some? ==> stack[name] == r.value
    {
      if name in stack then Some(stack[name]) else None
    }

    /**
     * Binds `name` to `pointer`, returning the pointer it shadows, if any;
     * every other binding is kept.
     */
    method InsertStackPointer(name: string, pointer: Pointer) returns (shadowed: Option<Pointer>)
      modifies this
      ensures shadowed == old(GetStackPointer(name))
      ensures GetStackPointer(name) == Some(pointer)
      ensures forall other :: other != name ==> GetStackPointer(other) == old(GetStackPointer(other))
      ensures stack.Keys == old(stack.Keys) + {name}
      ensures yulData == old(yulData)
    {
      shadowed := GetStackPointer(name);
      stack := stack[name := pointer];
    }

    /** Unbinds `name`; an unbound name leaves the table as it was. */
    method RemoveStackPointer(name: string)
      modifies this
      ensures GetStackPointer(name) == None
      ensures forall other :: other != name ==> GetStackPointer(other) == old(GetStackPointer(other))
      ensures stack.Keys == old(stack.Keys) - {name}
      ensures name !in old(stack) ==> stack == old(stack)
      ensures yulData == old(yulData)
    {
      stack := stack - {name};
    }

    /** Stores the Yul data, replacing any earlier value. */
    method SetYulData(data: YulData)
      modifies this
      ensures yulData == Some(data)
      ensures stack == old(stack)
    {
      yulData := Some(data);
    }

    /** The Yul data; calling it before `SetYulData` is a contract violation. */
    function Yul(): (data: YulData)
      reads this
      requires yulData.Some?
      ensures yulData == Some(data)
    {
      yulData.value
    }

    /**
     * Mutable access to the Yul data, which must have been set: whatever the
     * caller does through the reference is the edit `edit` of the old data.
     */
    method YulMut(edit: YulData -> YulData)
      requires yulData.Some?
      modifies this
      ensures yulData.Some? && Yul() == edit(old(Yul()))
      ensures stack == old(stack)
    {
      yulData := Some(edit(yulData.value));
    }
  }

  /**
   * A lowering pass that reuses a variable name in a nested scope: the
   * shadowed slot comes back from the insert, and after removal the name is
   * unbound.
   */
  method ShadowingScenario(declaration: Declaration, returnEntity: Return)
  {
    var f := new Function("foo", declaration, returnEntity, BasicBlock(0), BasicBlock(1));
    assert f.name == "foo" && f.entryBlock == BasicBlock(0) && f.returnBlock == BasicBlock(1);
    var shadowed := f.InsertStackPointer("x", Pointer(1));
    assert shadowed == None && f.GetStackPointer("x") == Some(Pointer(1));
    shadowed := f.InsertStackPointer("x", Pointer(2));
    assert shadowed == Some(Pointer(1)) && f.GetStackPointer("x") == Some(Pointer(2));
    f.RemoveStackPointer("x");
    assert f.GetStackPointer("x") == None;
    f.RemoveStackPointer("x");
    assert f.stack.Keys == {};
  }

  /**
   * Attribute policies on a fresh declaration: the default policy at level Z
   * and at level Zero, a forced AlwaysInline over NoInline, and a `Memory`
   * request that panics.
   */
  method AttributeScenario()
  {
    var value := new FunctionValue({});
    var declaration := Declaration(value);
    Function.SetDefaultAttributes(declaration, Optimizer(Settings(Z)));
    assert value.attributes == {OptimizeForSize, MinSize, NoFree};
    Function.SetDefaultAttributes(declaration, Optimizer(Settings(Z)));
    assert value.attributes == {OptimizeForSize, MinSize, NoFree};

    var other := new FunctionValue({});
    Function.SetDefaultAttributes(Declaration(other), Optimizer(Settings(Zero)));
    assert other.attributes == {NoFree};

    var outcome := Function.SetAttributes(declaration, [NoInline, AlwaysInline], true);
    SetAttributesEffect({OptimizeForSize, MinSize, NoFree}, [NoInline, AlwaysInline], true);
    assert AlwaysInline in value.attributes && NoInline !in value.attributes;

    ghost var before := value.attributes;
    outcome := Function.SetAttributes(declaration, [NoFree, Memory], false);
    SetPanicsIffMemory(before, [NoFree, Memory], false);
    assert outcome == Panicked(MemoryUnimplemented);
  }
}
