# ShaderFoundry handle lists and the UI Toolkit dropdown slot, in Dafny

This project models two small stateful components of the Unity C# reference
source.

**The ShaderFoundry handle list** (`HandleListInternal`). A `FoundryHandle` is an
opaque reference into a shared `ShaderContainer`. A handle list is a value that
wraps one handle naming a *handle blob*. A blob is a variable-length run of
element handles that the container owns.
- The three `Build` overloads turn an in-memory list into a new blob. A null
  list gives `FoundryHandle.Invalid()` and allocates nothing. Any other list,
  the empty one included, gets one blob sized to the list. Each element's handle
  is written into it in order. The handle written is the element itself, its
  `Handle`, or `indexFunc` of it.
- The readers `Select`, `Enumerate` and `AsListEnumerable` read the size once
  and yield one projected value per index, in increasing order.
- `AsListEnumerable` yields nothing for a null container or an invalid handle.

**The dropdown factory slot** (`DropdownUtility`). This is a static field
holding an optional `Func<IGenericMenu>`.
- `CreateDropdown` uses the registered factory, or makes a default
  `GenericDropdownMenu` when none is registered.
- `RegisterMakeDropdownFunc` throws when a factory is already registered and
  leaves the slot alone. Otherwise it stores its argument.
- The argument may itself be null. Registering null succeeds and leaves the
  slot empty, so a later registration is still accepted. The model keeps this
  behaviour as written.

Modelling choices:
- `FoundryHandle` is `Invalid | At(index)`: the sentinel is a separate
  constructor, and every `At` handle is valid.
- The container is an arena class whose field `blobs` is a sequence of blobs.
  `At(i)` names `blobs[i]`. Blobs are only appended, so a newly allocated handle
  named nothing before the call. This is the freshness assumption on
  `AddHandleBlob`.
- A freshly allocated blob holds invalid handles.
- A C# `List<T>` that may be null is an `Option<seq<T>>`.
- A C# exception is an `Outcome` failure.
- The static field is the one field of a `DropdownUtility` object.
- The lazy `IEnumerable<T>` results are the sequences they produce.
- The `Select` loop is written once. `Enumerate` and `AsListEnumerable` call it
  with their own projection.
- `Build` and the public-type `Build` (`BuildTyped`) delegate to the
  `indexFunc` overload (`BuildIndexed`) with the identity and with the `Handle`
  property.
- `Mapped(f, s)` is the reference definition that the builders and readers are
  stated against.

## Model

| member | source | states |
|---|---|---|
| FoundryArena.Mapped | Modules/ShaderFoundry/ScriptBindings/HandleList.bindings.cs:59-60 | the projected sequence has the input's length, and value `i` is the projection of input element `i`, in order |
| FoundryArena.ShaderContainer.AddHandleBlob | Modules/ShaderFoundry/ScriptBindings/HandleList.bindings.cs:38 | the new handle is valid and named no blob before; one blob of `size` default elements is appended; existing blobs are unchanged |
| FoundryArena.ShaderContainer.SetHandleBlobElement | Modules/ShaderFoundry/ScriptBindings/HandleList.bindings.cs:40 | only element `i` of blob `h` changes, to `value` |
| FoundryArena.ShaderContainer.AddHandleBlobElement | Modules/ShaderFoundry/ScriptBindings/HandleList.bindings.cs:30 | blob `h` grows by one with `value` last; nothing else changes |
| FoundryArena.FoundryHandle.IsValid | Modules/ShaderFoundry/ScriptBindings/HandleList.bindings.cs:90 | a handle is valid exactly when it is not the `Invalid` sentinel, that is, for every `At` handle |
| ShaderFoundry.HandleListInternal.IsValid | Modules/ShaderFoundry/ScriptBindings/HandleList.bindings.cs:26 | a list is valid exactly when its handle is not the `Invalid` sentinel |
| ShaderFoundry.HandleListInternal.GetSize | Modules/ShaderFoundry/ScriptBindings/HandleList.bindings.cs:27 | the length of the blob the list's handle names; it requires a handle naming a blob (native failure behaviour not modelled) |
| ShaderFoundry.HandleListInternal.GetElement | Modules/ShaderFoundry/ScriptBindings/HandleList.bindings.cs:28 | element `elementIndex` of the blob the list's handle names; it requires a handle naming a blob and an index below its size (native failure behaviour not modelled) |
| ShaderFoundry.HandleListInternal.Invalid | Modules/ShaderFoundry/ScriptBindings/HandleList.bindings.cs:25 | the invalid list is not valid |
| ShaderFoundry.HandleListInternal.Empty | Modules/ShaderFoundry/ScriptBindings/HandleList.bindings.cs:32 | the empty list is the invalid list and is not valid |
| ShaderFoundry.HandleListInternal.SetElement | Modules/ShaderFoundry/ScriptBindings/HandleList.bindings.cs:29 | after the call, element `i` is the new handle; the size, the other elements and the other blobs are unchanged |
| ShaderFoundry.HandleListInternal.AddElement | Modules/ShaderFoundry/ScriptBindings/HandleList.bindings.cs:30 | the size grows by exactly one; the last element is the new handle; earlier elements and other blobs are unchanged |
| ShaderFoundry.HandleListInternal.BuildIndexed | Modules/ShaderFoundry/ScriptBindings/HandleList.bindings.cs:54-62 | a null list gives the invalid handle and allocates nothing; otherwise exactly one new blob is appended, of the list's length, whose element `i` is `indexFunc(items[i])`, and the returned handle names it |
| ShaderFoundry.HandleListInternal.Build | Modules/ShaderFoundry/ScriptBindings/HandleList.bindings.cs:34-42 | a null list gives the invalid handle and allocates nothing; otherwise exactly one new blob equal to `values` is appended (an empty list gives a valid handle to an empty blob) |
| ShaderFoundry.HandleListInternal.BuildTyped | Modules/ShaderFoundry/ScriptBindings/HandleList.bindings.cs:44-52 | a null list gives the invalid handle and allocates nothing; otherwise exactly one new blob is appended whose element `i` is `items[i].Handle` |
| ShaderFoundry.HandleListInternal.Select | Modules/ShaderFoundry/ScriptBindings/HandleList.bindings.cs:64-72 | yields exactly size-many values, value `i` being `func` of element `i`, in index order; it modifies nothing |
| ShaderFoundry.HandleListInternal.Enumerate | Modules/ShaderFoundry/ScriptBindings/HandleList.bindings.cs:74-83 | yields one reconstructed value per blob element, value `i` being `ConstructFromHandle(container, element i)`; it modifies nothing |
| HandleListUtilities.AsListEnumerable | Modules/ShaderFoundry/ScriptBindings/HandleList.bindings.cs:88-100 | yields nothing when the container is null or the handle invalid; otherwise `accessor(container, element i)` for each index in order; it modifies nothing |
| HandleListProperties.BuildSelectRoundTrip | Modules/ShaderFoundry/ScriptBindings/HandleList.bindings.cs:34-72 | `Select` with the identity over the handle `Build` returns yields exactly the values built from |
| HandleListProperties.TypedRoundTrip | Modules/ShaderFoundry/ScriptBindings/HandleList.bindings.cs:44-83 | if reconstructing an item's own handle keeps that handle, enumerating a list built from public-type items gives values with the items' handles, in order |
| HandleListProperties.EmptyAndAbsentDiffer | Modules/ShaderFoundry/ScriptBindings/HandleList.bindings.cs:34-42 | building from an empty list gives a valid handle to an empty blob; building from null gives the invalid handle; the two differ |
| HandleListProperties.BuildThenAppend | Modules/ShaderFoundry/ScriptBindings/HandleList.bindings.cs:30-42 | appending to a freshly built list gives the built values followed by the appended handle |
| UIElements.DropdownUtility.constructor | External/MirroredPackageSources/com.unity.ui/Core/DropdownUtility.cs:7 | the slot starts empty |
| UIElements.DropdownUtility.CreateDropdown | External/MirroredPackageSources/com.unity.ui/Core/DropdownUtility.cs:9-12 | the menu is the default `GenericDropdownMenu` exactly when no factory is registered, else the registered factory's menu; the slot is only read |
| UIElements.DropdownUtility.RegisterMakeDropdownFunc | External/MirroredPackageSources/com.unity.ui/Core/DropdownUtility.cs:14-20 | fails with `AlreadyRegistered` exactly when the slot was filled, and then leaves it unchanged; otherwise stores the argument |
| UIElements.FilledSlotStaysFilled | External/MirroredPackageSources/com.unity.ui/Core/DropdownUtility.cs:14-20 | once the slot holds a factory, no sequence of registration attempts changes or clears it |
| UIElements.FirstRegistrationWins | External/MirroredPackageSources/com.unity.ui/Core/DropdownUtility.cs:14-20 | from the empty slot, the factory that ends up registered is the first non-null one offered (`FirstFactory`) |

## Left out

- `Modules/GraphToolsFoundationEditor/StateComponents/GraphProcessing/GraphProcessingHelper.cs` is not part of this model. It looks up a stencil, saves an asset and dispatches to foreign processors, with no logic of its own.
- The native bodies of `Invalid`, `IsValid`, `GetSize`, `GetElement`, `SetElement` and `AddElement` are not visible. They are modelled as the arena contract the handle list relies on. What native code does on an invalid handle or an out-of-range index is not modelled: those calls require a handle naming a blob and an index within range.
- The container's real storage and allocation (`AddHandleBlob`, `SetHandleBlobElement`) are foreign. The arena stands in for them. Its freshness guarantee (a new blob handle named nothing before) is assumed of the native allocator. Its default elements (invalid handles) are assumed too.
- Allocation failure inside the container is not modelled.
- A handle that is valid but names something other than a blob is not modelled.
- `PublicTypeStatic<T>.ConstructFromHandle` is a parameter with no interpretation (`construct`). `IPublicType<T>.Handle` is a parameter too (`handleOf`). Neither may depend on the container's contents.
- BuildIndexed: the caller-supplied delegates `indexFunc` (the `Build` overloads), `func` (`Select`), `accessor` (`AsListEnumerable`) and the registered dropdown factory are modelled as pure functions. They never throw and never return null where a value is expected. They neither read nor change the container. The "exactly one new blob" contract of `BuildIndexed`, `Build` and `BuildTyped` holds only under that assumption. In C#, an `indexFunc` that throws at item k leaves behind the new blob with only its first k elements set. An `indexFunc` that allocates in the container adds further blobs after the new one.
- The `Build` overloads with a null container and a non-null list would throw a null-reference exception in C#. That case is excluded by their precondition.
- Select: yields the sequence as of the call. The lazy, pull-based evaluation of `yield return` is not captured: a mutation of the blob between two pulls would be seen by later pulls in C#. Restarting the enumeration is not captured either.
- Enumerate: the same laziness caveat as `Select` applies.
- AsListEnumerable: the same laziness caveat as `Select` applies.
- The `(uint)` casts of `Count` and the `uint` loop indices are modelled as `nat`. A list count is a non-negative `int`, so the casts never wrap.
- What a `GenericDropdownMenu` or `IGenericMenu` does is UI behaviour and not modelled. Menus and factories are opaque tokens.
- A factory may have side effects when invoked, or may return different menus on different calls. Neither is modelled: the menu is identified by the factory that made it.
- The slot's visibility across threads is not modelled.
- The exception message text is not modelled.
