# Function context and standard-JSON error record, modelled in Dafny

This project models two parts of the revive compiler (Solidity/Yul to PolkaVM through LLVM IR).

- **The LLVM IR generator function** (`Function`): the per-function context that the lowering passes update while they emit a function's body. It holds the source name, the declaration, the return entity, the single entry block and the single return block. It also holds a table of stack slots by variable name and a Yul-data slot that is set later. Associated functions apply and remove function-level attributes on a declaration. Three attribute policies are built on them: default, front-end runtime and pure function.
- **The `solc --standard-json` output error record** (`Error`): the four canned warnings (`ecrecover`, `send`/`transfer`, `extcodesize`, `tx.origin`), appending a contract path to the formatted text, and rendering.

Files:

- `wrappers.dfy` (`Wrappers`): `Option`, `Result`, and `Outcome`, which is either a completed step or a panic with its message.
- `text.dfy` (`Text`): `StartsWith`, with the behaviour of Rust's `str::starts_with`.
- `attributes.dfy` (`Attributes`): the attribute enum and the size level. It holds `AttributesAfterSet` and `AttributesAfterRemove`, which follow the two attribute loops one element at a time. It also holds the three policy functions and the lemmas that state the net effect of each.
- `function_context.dfy` (`FunctionContext`): class `Function`. The stack table is a `map` field and the Yul slot an `Option` field; the methods update both. The attribute methods run `while` loops over the list and update the attribute set of the LLVM function value behind the declaration handle. Each method is proved against the matching function in `Attributes`.
- `standard_json_error.dfy` (`StandardJsonError`): the error record as a datatype, the canned constructors, `PushContractPath` and `Display`.

LLVM handles are opaque values compared only by identity: basic blocks, stack pointers, the return entity and the Yul data. A `Declaration` is a copyable handle to a `FunctionValue` object, whose only modelled state is its set of function-level attributes. Attribute methods therefore take a declaration and modify `declaration.value`, as the associated functions do in the source.

The names are taken from the source, in Dafny's casing:

- The accessors `name()`, `declaration()`, `r#return()`, `entry_block()` and `return_block()` are the `const` fields `name`, `declaration`, `returnEntity`, `entryBlock` and `returnBlock` of `Function`. Nothing can change them after construction.
- Error's `r#type` field is `errorType`.

Decisions the source leaves to the model:

- **`Memory` in `set_attributes`.** The `unimplemented!` panic on `Memory` is an explicit `Panicked` outcome. This makes "panics exactly when the list holds `Memory`" a provable statement.
- **Yul-data access.** `yul()` and `yul_mut()` panic when the slot is empty. Compiler-pass ordering guarantees the slot is set before they are called, so they are modelled as `requires yulData.Some?`.
- **Entry-point names.** The three runtime entry names are defined in a module that is not part of this model. `IsNameExternal` takes them as the parameter `RuntimeNames`.
- **Source-location parsing.** `SourceLocation::from_str` is the parameter `parse`. It returns `Err` where the parser fails, and `ParseLocation` turns that into no location.

## Model

| member | source | states |
|---|---|---|
| `FunctionContext.Function.constructor` | crates/llvm-context/src/polkavm/context/function/mod.rs:52-71 | name, declaration, return entity and both blocks are stored verbatim; the stack table starts empty and the Yul data absent |
| `FunctionContext.Function.IsNameExternal` | crates/llvm-context/src/polkavm/context/function/mod.rs:79-85 | names starting with `llvm.` are external; `__` names are external unless they are one of the three runtime entry names, which are not; names with neither prefix are not |
| `FunctionContext.Function.SetAttributes` | crates/llvm-context/src/polkavm/context/function/mod.rs:109-144 | the loop leaves exactly the attribute set `AttributesAfterSet` gives, or panics with its message, and it panics exactly when that function does |
| `Attributes.SetPanicsIffMemory` | crates/llvm-context/src/polkavm/context/function/mod.rs:115-117 | `set_attributes` panics if and only if the list holds `Memory`, with the "not implemented" message |
| `Attributes.SetAttributesEffect` | crates/llvm-context/src/polkavm/context/function/mod.rs:115-143 | on a `Memory`-free list every listed attribute outside {AlwaysInline, NoInline} is added. The pair becomes the plain union without force. With force it becomes exactly the last of the two in list order, or stays as it was if neither is listed |
| `Attributes.LastInlining` | crates/llvm-context/src/polkavm/context/function/mod.rs:118-137 | yields an entry of the pair that occurs in the list with no entry of the pair after it, and is absent exactly when the list holds neither |
| `Attributes.UnforcedSetIsUnion` | crates/llvm-context/src/polkavm/context/function/mod.rs:138-141 | without force the result is the old set plus the listed attributes, so AlwaysInline and NoInline can both be present |
| `Attributes.ForcedInliningIsExclusive` | crates/llvm-context/src/polkavm/context/function/mod.rs:118-137 | with force, once the list names AlwaysInline or NoInline, the last one named is present and the two are never both present |
| `Attributes.SetAttributesIdempotent` | crates/llvm-context/src/polkavm/context/function/mod.rs:109-144 | repeating a `set_attributes` call with the same list and force flag changes nothing more |
| `FunctionContext.Function.RemoveAttributes` | crates/llvm-context/src/polkavm/context/function/mod.rs:147-162 | the loop removes only attributes present when reached, and the result is the old set minus the listed attributes |
| `Attributes.RemoveIsDifference` | crates/llvm-context/src/polkavm/context/function/mod.rs:147-162 | removing present attributes one by one equals the set difference with the listed ones |
| `Attributes.RemoveAbsentIsNoOp` | crates/llvm-context/src/polkavm/context/function/mod.rs:148-156 | removing attributes none of which is present leaves the set unchanged and cannot fail |
| `FunctionContext.Function.SetDefaultAttributes` | crates/llvm-context/src/polkavm/context/function/mod.rs:166-181 | at size level Z adds exactly {OptimizeForSize, MinSize, NoFree}, at other levels exactly {NoFree} |
| `Attributes.DefaultAttributesAdded` | crates/llvm-context/src/polkavm/context/function/mod.rs:166-181 | the two `set_attributes` calls of the default policy add {OptimizeForSize, MinSize, NoFree} at level Z and {NoFree} otherwise |
| `Attributes.DefaultAttributesIdempotent` | crates/llvm-context/src/polkavm/context/function/mod.rs:166-181 | applying the default policy twice gives the same set as applying it once |
| `FunctionContext.Function.SetFrontendRuntimeAttributes` | crates/llvm-context/src/polkavm/context/function/mod.rs:184-192 | adds NoInline at level Z and changes nothing at other levels |
| `Attributes.FrontendRuntimeAttributesAdded` | crates/llvm-context/src/polkavm/context/function/mod.rs:184-192 | the front-end runtime policy is the old set plus NoInline at level Z and the old set otherwise |
| `FunctionContext.Function.SetPureFunctionAttributes` | crates/llvm-context/src/polkavm/context/function/mod.rs:195-209 | adds exactly {MustProgress, NoUnwind, WillReturn} |
| `Attributes.PureFunctionAttributesAdded` | crates/llvm-context/src/polkavm/context/function/mod.rs:195-209 | the pure-function policy is the old set plus {MustProgress, NoUnwind, WillReturn} |
| `FunctionContext.Function.InsertStackPointer` | crates/llvm-context/src/polkavm/context/function/mod.rs:211-219 | returns the pointer previously bound to the name, or none. Afterwards the name looks up to the new pointer, every other name keeps its binding, and the Yul data is untouched |
| `FunctionContext.Function.GetStackPointer` | crates/llvm-context/src/polkavm/context/function/mod.rs:222-224 | a partial lookup that is present exactly for bound names and yields the bound pointer |
| `FunctionContext.Function.RemoveStackPointer` | crates/llvm-context/src/polkavm/context/function/mod.rs:227-229 | the name becomes unbound and every other binding is kept; removing an unbound name leaves the table unchanged |
| `FunctionContext.Function.SetYulData` | crates/llvm-context/src/polkavm/context/function/mod.rs:261-263 | the slot holds the new data, replacing any earlier value, and the stack table is untouched |
| `FunctionContext.Function.Yul` | crates/llvm-context/src/polkavm/context/function/mod.rs:265-272 | callable only once the data is set, and then yields the stored data |
| `FunctionContext.Function.YulMut` | crates/llvm-context/src/polkavm/context/function/mod.rs:274-281 | callable only once the data is set; the caller's edit through the reference replaces the stored data by its edited value |
| `StandardJsonError.ParseLocation` | crates/solidity/src/solc/standard_json/output/error/mod.rs:49 | no source string gives no location; a string the parser rejects (`Err`) also gives no location, and the parse error is dropped rather than propagated; a parsed location is kept |
| `StandardJsonError.MessageEcrecover` | crates/solidity/src/solc/standard_json/output/error/mod.rs:34-52 | component "general", no error code, severity "warning", type "Warning", formatted text equal to the message, message beginning with "\nWarning: ", location as parsed |
| `StandardJsonError.MessageSendAndTransfer` | crates/solidity/src/solc/standard_json/output/error/mod.rs:55-77 | the same fixed fields, prefix and location rule for the `send`/`transfer` warning |
| `StandardJsonError.MessageExtcodesize` | crates/solidity/src/solc/standard_json/output/error/mod.rs:80-101 | the same fixed fields, prefix and location rule for the `extcodesize` warning |
| `StandardJsonError.MessageTxOrigin` | crates/solidity/src/solc/standard_json/output/error/mod.rs:104-122 | the same fixed fields, prefix and location rule for the `tx.origin` warning |
| `StandardJsonError.PushContractPath` | crates/solidity/src/solc/standard_json/output/error/mod.rs:124-128 | the formatted text becomes the old text followed by "\n--> " + path + "\n", keeping the old text as its prefix; message, component, error code, severity, location and type are unchanged |
| `StandardJsonError.Display` | crates/solidity/src/solc/standard_json/output/error/mod.rs:131-135 | renders exactly the formatted text |
| `StandardJsonError.DisplayOfCannedWarning` | crates/solidity/src/solc/standard_json/output/error/mod.rs:131-135 | a canned warning renders as its message, and after a pushed path as the message followed by the path line |
| `StandardJsonError.PushContractPathTwice` | crates/solidity/src/solc/standard_json/output/error/mod.rs:124-128 | two pushes append both path lines in order and leave the message as it was |

`FunctionContext.ShadowingScenario` and `FunctionContext.AttributeScenario` are client methods that use only these contracts. They show the following:

- Re-inserting `"x"` returns the shadowed pointer.
- After removal the name is unbound.
- The default policy at level Z gives {OptimizeForSize, MinSize, NoFree}, whether it is applied once or twice.
- At level Zero the default policy gives {NoFree}.
- A forced AlwaysInline after NoInline leaves only AlwaysInline.
- A list holding `Memory` panics.

## Left out

- `get_debug_scope` and `get_nth_param`: they only query LLVM debug info and LLVM parameters through the FFI.
- `return_pointer` and `return_data_size`: they delegate to the `Return` entity, and `return.rs` is not part of this model. `Return` is an opaque handle.
- The `llvm` context argument, `create_enum_attribute`, the `Attribute as u32` encoding and `AttributeLoc`: these are LLVM FFI. Attributes are a `set<Attribute>` on the function value.
- Attribute enum variants other than the ones named here: `attribute.rs` is not part of this model. `Attribute.Other(kind)` stands for all of them, and `set_attributes` adds them like any other non-inlining attribute.
- Internals of `Declaration`, `Pointer`, `YulData` and the runtime name constants: their modules are not part of this model, so they are opaque values or parameters.
- `SourceLocation::from_str`: its parser is not part of this model, so it is the parameter `parse`, returning `Ok` or `Err`. The fields of `SourceLocation` follow the standard-JSON `sourceLocation` object and are never inspected.
- `HashMap::with_capacity(64)`: a capacity hint with no observable effect.
- serde (`Serialize`, `Deserialize`, camelCase field names): a foreign library.
- The `fmt::Formatter` write error of `Display`: `Display` is modelled as the string it writes.
- Concurrency: every operation here is single-threaded.
- FunctionContext.Function.SetAttributes: on a panic it says nothing about the attributes already added by the earlier list entries, because the process ends at that point.
- FunctionContext.Function.Yul: the abort on unset data, with the message "The Yul data must have been initialized", is the precondition `yulData.Some?`, not an outcome, because compiler-pass ordering guarantees the data is set first.
- FunctionContext.Function.YulMut: the same abort on unset data, with the same message, is the precondition `yulData.Some?`, not an outcome.
- FunctionContext.Function.YulMut: the `&mut YulData` borrow is modelled as an edit function from the old data to the new. Aliasing of that reference is not modelled.
- StandardJsonError.PushContractPath: the in-place `&mut self` update is modelled as a function that returns the updated record. The record is a plain cloneable value, so no aliasing is lost.
