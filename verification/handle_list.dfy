/** The ShaderFoundry handle list: a value wrapping one handle that names a
    blob of element handles inside a shared `ShaderContainer`, the builders
    that fill a new blob from an in-memory list, and the readers that turn a
    blob back into the sequence of values it yields. */
module ShaderFoundry {
  import opened Wrappers
  import opened FoundryArena

  datatype HandleListInternal = HandleListInternal(listHandle: FoundryHandle) {

    /** The list over the invalid handle (native `Invalid()`). */
    static function Invalid(): (r: HandleListInternal)
      ensures !r.IsValid()
    {
      HandleListInternal(FoundryHandle.Invalid)
    }

    /** The canonical empty list; it is the invalid list and allocates nothing. */
    static function Empty(): (r: HandleListInternal)
      ensures !r.IsValid() && r == Invalid()
    {
      Invalid()
    }

    /** Native `IsValid`: the list is valid exactly when its handle is. */
    predicate IsValid()
      ensures IsValid() <==> listHandle != FoundryHandle.Invalid
    {
      listHandle.IsValid()
    }

    /** Number of elements of the designated blob (native `GetSize`). */
    function GetSize(container: ShaderContainer): (n: nat)
      reads container
      requires container.HasBlob(listHandle)
      ensures n == |container.blobs[listHandle.index]|
    {
      |container.Blob(listHandle)|
    }

    /** Element `elementIndex` of the designated blob (native `GetElement`). */
    function GetElement(container: ShaderContainer, elementIndex: nat): (e: FoundryHandle)
      reads container
      requires container.HasBlob(listHandle) && elementIndex < GetSize(container)
      ensures e == container.blobs[listHandle.index][elementIndex]
    {
      container.Blob(listHandle)[elementIndex]
    }

    /** Native `SetElement`: overwrites one element; the size, the other
        elements and every other blob stay as they were. */
    method SetElement(container: ShaderContainer, elementIndex: nat, handle: FoundryHandle)
      requires container.HasBlob(listHandle) && elementIndex < GetSize(container)
      modifies container
      ensures container.HasBlob(listHandle) && GetSize(container) == old(GetSize(container))
      ensures GetElement(container, elementIndex) == handle
      ensures forall k :: 0 <= k < GetSize(container) && k != elementIndex ==>
                GetElement(container, k) == old(GetElement(container, k))
      ensures |container.blobs| == old(|container.blobs|)
      ensures forall b :: 0 <= b < |container.blobs| && b != listHandle.index ==>
                container.blobs[b] == old(container.blobs[b])
    {
      container.SetHandleBlobElement(listHandle, elementIndex, handle);
    }

    /** Native `AddElement`: grows the blob by one, placing `value` last;
        earlier elements and every other blob stay as they were. */
    method AddElement(container: ShaderContainer, value: FoundryHandle)
      requires container.HasBlob(listHandle)
      modifies container
      ensures container.HasBlob(listHandle) && GetSize(container) == old(GetSize(container)) + 1
      ensures GetElement(container, GetSize(container) - 1) == value
      ensures container.Blob(listHandle)[..GetSize(container) - 1] == old(container.Blob(listHandle))
      ensures |container.blobs| == old(|container.blobs|)
      ensures forall b :: 0 <= b < |container.blobs| && b != listHandle.index ==>
                container.blobs[b] == old(container.blobs[b])
    {
      container.AddHandleBlobElement(listHandle, value);
    }

    /** The general builder (the overload taking `indexFunc`). A null list
        gives the invalid handle and allocates nothing; any other list, empty
        included, gets exactly one new blob holding `indexFunc` of each item,
        in order, and leaves every existing blob untouched. */
    static method BuildIndexed<T>(container: ShaderContainer?, items: Option<seq<T>>,
                                  indexFunc: T -> FoundryHandle)
      returns (listHandle: FoundryHandle)
      requires items.Some? ==> container != null
      modifies container
      ensures items.None? ==> listHandle == FoundryHandle.Invalid
      ensures items.None? && container != null ==> container.blobs == old(container.blobs)
      ensures items.Some? ==> container != null && listHandle == At(|old(container.blobs)|)
      ensures items.Some? ==>
                container != null && container.blobs == old(container.blobs) + [Mapped(indexFunc, items.value)]
    {
      if items.None? {
        return FoundryHandle.Invalid;
      }
      var values := items.value;
      listHandle := container.AddHandleBlob(|values|);
      ghost var before := old(container.blobs);
      var i := 0;
      while i < |values|
        invariant 0 <= i <= |values|
        invariant |container.blobs| == |before| + 1
        invariant container.blobs[..|before|] == before
        invariant |container.blobs[|before|]| == |values|
        invariant forall k :: 0 <= k < i ==> container.blobs[|before|][k] == indexFunc(values[k])
      {
        container.SetHandleBlobElement(listHandle, i, indexFunc(values[i]));
        i := i + 1;
      }
      assert container.blobs[|before|] == Mapped(indexFunc, values);
      assert container.blobs == container.blobs[..|before|] + [container.blobs[|before|]];
    }

    /** The builder over a list of handles: each handle is stored as it is. */
    static method Build(container: ShaderContainer?, values: Option<seq<FoundryHandle>>)
      returns (listHandle: FoundryHandle)
      requires values.Some? ==> container != null
      modifies container
      ensures values.None? ==> listHandle == FoundryHandle.Invalid
      ensures values.None? && container != null ==> container.blobs == old(container.blobs)
      ensures values.Some? ==> container != null && listHandle == At(|old(container.blobs)|)
      ensures values.Some? ==> container != null && container.blobs == old(container.blobs) + [values.value]
    {
      listHandle := BuildIndexed(container, values, h => h);
      if values.Some? {
        assert Mapped(h => h, values.value) == values.value;
      }
    }

    /** The builder over public types: each item's own `Handle` is stored.
        `handleOf` is the item type's `Handle` property. */
    static method BuildTyped<T>(container: ShaderContainer?, items: Option<seq<T>>,
                                handleOf: T -> FoundryHandle)
      returns (listHandle: FoundryHandle)
      requires items.Some? ==> container != null
      modifies container
      ensures items.None? ==> listHandle == FoundryHandle.Invalid
      ensures items.None? && container != null ==> container.blobs == old(container.blobs)
      ensures items.Some? ==> container != null && listHandle == At(|old(container.blobs)|)
      ensures items.Some? ==>
                container != null && container.blobs == old(container.blobs) + [Mapped(handleOf, items.value)]
    {
      listHandle := BuildIndexed(container, items, handleOf);
    }

    /** The values the list yields: the size is read once, then value `i` is
        `func` of element `i`, for every index in increasing order. Reading
        only, the container is left as it was. */
    method Select<T>(container: ShaderContainer, func: FoundryHandle -> T) returns (r: seq<T>)
      requires container.HasBlob(listHandle)
      ensures |r| == GetSize(container)
      ensures forall i :: 0 <= i < |r| ==> r[i] == func(GetElement(container, i))
    {
      var size := GetSize(container);
      r := [];
      var i := 0;
      while i < size
        invariant 0 <= i <= size
        invariant |r| == i
        invariant forall k :: 0 <= k < i ==> r[k] == func(GetElement(container, k))
      {
        var handle := GetElement(container, i);
        r := r + [func(handle)];
        i := i + 1;
      }
    }

    /** The public-type values of the list at `listHandle`: element `i`
        reconstructed by `construct` (the type's `ConstructFromHandle`). */
    static method Enumerate<T>(container: ShaderContainer, listHandle: FoundryHandle,
                               construct: (ShaderContainer, FoundryHandle) -> T)
      returns (r: seq<T>)
      requires container.HasBlob(listHandle)
      ensures |r| == |container.Blob(listHandle)|
      ensures forall i :: 0 <= i < |r| ==> r[i] == construct(container, container.Blob(listHandle)[i])
    {
      var list := HandleListInternal(listHandle);
      r := list.Select(container, h => construct(container, h));
    }
  }
}

/** Extension helpers over a raw list handle. */
module HandleListUtilities {
  import opened FoundryArena
  import opened ShaderFoundry

  /** The accessor's value of each element of the list at `listHandle`, in
      order; nothing at all when the container is null or the handle is
      invalid. */
  method AsListEnumerable<T>(listHandle: FoundryHandle, container: ShaderContainer?,
                             accessor: (ShaderContainer, FoundryHandle) -> T)
    returns (r: seq<T>)
    requires container != null && listHandle.IsValid() ==> container.HasBlob(listHandle)
    ensures container == null || !listHandle.IsValid() ==> r == []
    ensures container != null && listHandle.IsValid() ==>
              |r| == |container.Blob(listHandle)| &&
              forall i :: 0 <= i < |r| ==> r[i] == accessor(container, container.Blob(listHandle)[i])
  {
    r := [];
    if container != null && listHandle.IsValid() {
      var list := HandleListInternal(listHandle);
      r := list.Select(container, h => accessor(container, h));
    }
  }
}
