/** Properties that relate several handle-list operations: what a reader
    yields from a list a builder has just written. */
module HandleListProperties {
  import opened Wrappers
  import opened FoundryArena
  import opened ShaderFoundry

  /** Round trip: `Select` with the identity over a freshly built list yields
      exactly the handles it was built from, in order. */
  method BuildSelectRoundTrip(container: ShaderContainer, values: seq<FoundryHandle>)
    returns (listHandle: FoundryHandle, r: seq<FoundryHandle>)
    modifies container
    ensures listHandle.IsValid() && container.HasBlob(listHandle)
    ensures r == values
  {
    listHandle := HandleListInternal.Build(container, Some(values));
    r := HandleListInternal(listHandle).Select(container, h => h);
  }

  /** Typed round trip: when reconstructing an item's own handle gives a
      value with that same handle, enumerating a list built from public-type
      items gives values whose handles are the items' handles, in order. */
  method TypedRoundTrip<T>(container: ShaderContainer, items: seq<T>, handleOf: T -> FoundryHandle,
                           construct: (ShaderContainer, FoundryHandle) -> T)
    returns (listHandle: FoundryHandle, r: seq<T>)
    requires forall x :: handleOf(construct(container, handleOf(x))) == handleOf(x)
    modifies container
    ensures listHandle.IsValid() && container.HasBlob(listHandle)
    ensures Mapped(handleOf, r) == Mapped(handleOf, items)
  {
    listHandle := HandleListInternal.BuildTyped(container, Some(items), handleOf);
    r := HandleListInternal.Enumerate(container, listHandle, construct);
  }

  /** A null list and an empty list both read as size zero, but only the
      empty list gets a (valid) blob. */
  method EmptyAndAbsentDiffer(container: ShaderContainer)
    returns (fromEmpty: FoundryHandle, fromNull: FoundryHandle)
    modifies container
    ensures fromEmpty.IsValid() && container.HasBlob(fromEmpty) && container.Blob(fromEmpty) == []
    ensures !fromNull.IsValid() && fromNull != fromEmpty
  {
    fromEmpty := HandleListInternal.Build(container, Some([]));
    fromNull := HandleListInternal.Build(container, None);
  }

  /** Appending to a built list puts the new handle after the built ones. */
  method BuildThenAppend(container: ShaderContainer, values: seq<FoundryHandle>, extra: FoundryHandle)
    returns (listHandle: FoundryHandle)
    modifies container
    ensures container.HasBlob(listHandle) && container.Blob(listHandle) == values + [extra]
  {
    listHandle := HandleListInternal.Build(container, Some(values));
    HandleListInternal(listHandle).AddElement(container, extra);
  }
}
