# GpgFrontend DataObject, modelled in Dafny

GpgFrontend's `DataObject` is an ordered, positional bundle of type-erased
values (`std::any`), handed around behind the shared handle `DataObjectPtr`
(`std::shared_ptr<DataObject>`), with a runtime check of its shape. This
project models that bundle and the helpers around it in
`src/core/model/DataObject.h`:

- appending a value, counting the values, reading the value at a position,
  and swapping the contents of two bundles;
- `Check<Args...>()`, which checks that the bundle holds exactly the listed
  types, position by position;
- `TransferParams`, which builds a shared bundle from an argument list, and
  `ExtractParams<T>`, which reads one parameter back as type `T`;
- the free function `swap`.

Type erasure is a closed datatype `Values.Value`. Each value carries a runtime
type, a `Values.TypeTag`, and two types match exactly when their tags are
equal. This mirrors `std::type_index` equality, which applies no conversions:
an `int` never matches `size_t`, and an empty `std::any` has type `void`.
The C++ template parameter lists `Args...` and `T` become values of type
`seq<TypeTag>` and `TypeTag`. The bundle is a class `DataObjects.DataObject`
whose field `items: seq<Value>` stands for the contents of its hidden `Impl`.
A `DataObjectPtr` (`std::shared_ptr<DataObject>`) is a `DataObject?`, where
null is the empty handle.

`Check` writes one error-log line at the first position whose type disagrees.
In the model that line is the second result `logged`, so the method's
contract can say where the loop stops. `Check` has no `modifies` clause, so
the verifier also establishes that it leaves the bundle unchanged.

Files: `wrappers.dfy` (Option, Result), `values.dfy` (values and their
runtime types), `shapes.dfy` (the shape of a bundle and the first mismatch),
`data_object.dfy` (the class, the free helpers, the lemmas connecting them,
and two client methods: `PingScenario` checks a `(std::string("hello"))` payload as
`(string)` and a `(42)` payload as `(string)`; `MismatchScenario` checks
`(42, std::string("x"))` as `(int, int)`, and also covers appending, a null handle and swapping).

`GetParameter` and `operator[]` are implemented in the hidden `Impl`
(DataObject.h:84-85), and the header shows no out-of-range behaviour, so an
in-range index is a precondition.

## Model

| member | source | states |
|---|---|---|
| `Shapes.Shape` | src/core/model/DataObject.h:69-72 | the type list compared by `Check` has one entry per stored value, and entry i is the runtime type of the value at position i |
| `Shapes.FirstMismatch` | src/core/model/DataObject.h:70-78 | for equal-length type lists: None exactly when the lists are equal; otherwise the reported position disagrees, its stored and expected types are the ones reported, and every earlier position agrees |
| `Shapes.FirstMismatchAt` | src/core/model/DataObject.h:70-78 | a disagreeing position with only agreeing positions before it is exactly the one the loop stops at and logs |
| `Shapes.ShapeAppend` | src/core/model/DataObject.h:55 | the runtime types of a concatenation are the two type lists concatenated, so appending extends a bundle's shape by the new value's type |
| `DataObjects.DataObject.constructor` | src/core/model/DataObject.h:45 | a default-constructed bundle is empty |
| `DataObjects.DataObject.FromList` | src/core/model/DataObject.h:47 | the initializer-list constructor stores the list's values in order |
| `DataObjects.DataObject.GetObjectSize` | src/core/model/DataObject.h:59 | the size is the number of stored values, and also the length of the shape `Check` compares against |
| `DataObjects.DataObject.GetParameter` | src/core/model/DataObject.h:53-57 | `GetParameter` and `operator[]` return the value stored at an in-range position, and its runtime type is that position's entry in the shape |
| `DataObjects.DataObject.AppendObject` | src/core/model/DataObject.h:55 | appends at the end: size grows by one, the new last parameter is the value, every earlier parameter is unchanged, and the shape gains the value's type |
| `DataObjects.DataObject.Swap` | src/core/model/DataObject.h:61-63 | both overloads exchange the full contents: this bundle holds the other's old sequence and the other holds this one's; self-swap changes nothing |
| `DataObjects.DataObject.Check` | src/core/model/DataObject.h:65-81 | true if and only if the size equals the number of expected types and every position's runtime type equals the expected type there (so an empty bundle checked against no types is true); on a size mismatch nothing is logged; otherwise the log names the first disagreeing position with its stored and expected types |
| `DataObjects.TransferParams` | src/core/model/DataObject.h:88-92 | returns a fresh, non-null bundle whose parameters are the arguments in order |
| `DataObjects.ExtractParams` | src/core/model/DataObject.h:94-100 | a null handle fails with the invalid-argument error, and that is its only failure of that kind; on a live handle it succeeds exactly when the stored type is the requested type, returns the stored value unchanged, and otherwise fails with the cast error |
| `DataObjects.SwapObjects` | src/core/model/DataObject.h:102 | the free `swap(a, b)` leaves `a` holding `b`'s old sequence and `b` holding `a`'s |
| `DataObjects.CheckedBundleUnpacks` | src/core/model/DataObject.h:65-100 | for a bundle of the expected size, `Check` passes if and only if every position can be extracted as its expected type; after a passing check, extracting position i as type t succeeds exactly when t is the expected type and yields the stored value |
| `DataObjects.TransferThenExtract` | src/core/model/DataObject.h:88-100 | round trip: for a bundle built from an argument list, extracting each position as its argument's type returns that argument |

## Left out

- The move constructor `DataObject(DataObject&&)` (line 51) and the destructor (line 49) are not modelled. What a moved-from bundle holds depends on the hidden `Impl`.
- The hidden `Impl` is not part of this model. So the model has no error for an out-of-range `GetParameter`/`operator[]`: an in-range index is a precondition.
- DataObjects.ExtractParams: the index is a 32-bit `int`, as in the header. On a live handle it must be non-negative and in range. What the hidden `Impl` does with a negative index converted to `size_t` is not modelled.
- DataObjects.CheckedBundleUnpacks: stated for bundles of at most 2^31 values. Those are the only positions a 32-bit `int` index can reach.
- DataObjects.TransferThenExtract: stated for argument lists of at most 2^31 values, for the same reason.
- DataObjects.ExtractParams: the requested type is never `void`, because `std::any_cast<void>` does not compile.
- DataObjects.DataObject.Check: the log record keeps the position and the two types. The type names as `type_info::name()` formats them, and the logger itself, are not modelled.
- The secure allocators `SecureUniquePtr` and `SecureCreateSharedObject` and shared-pointer reference counting are not modelled. They are foreign library calls, and a handle here is a plain nullable reference.
- The global module context, module registration and event dispatch (src/module/system/GlobalModuleContext.h) are not part of this model. The header shows only declarations; their behaviour lives in a hidden `Impl` and runs on concurrent task runners.
- The Qt widgets, settings dialogs, key-server test task and context-check thread are not part of this model. They are UI, persistence, network and thread start-up code.
- DataObjects.TransferParams: each argument is modelled as the `std::any` value it becomes, with its decayed type. The decay itself is not modelled: a string literal, for example, is stored as a `const char*`, and in the model that is `NamedValue("const char*", …)`, not a `StringValue`. A call with a single `DataObject&&` argument runs the move constructor instead of building a one-element bundle; that call is not modelled, since the move constructor is not.
- The open set of C++ types a `std::any` can hold is modelled as five built-in types plus `NamedType(name)` for any other type, identified by its name.
