/** The shared ShaderFoundry container, seen through the handle-blob interface
    the handle list uses. The native container is modelled as an arena: a
    handle `At(i)` names the i-th blob ever allocated, and blobs are only
    appended, never removed. */
module FoundryArena {

  /** An opaque reference into a container. `Invalid` is the sentinel
      returned by `FoundryHandle.Invalid()`; every other handle is valid. */
  datatype FoundryHandle = Invalid | At(index: nat) {
    predicate IsValid()
      ensures IsValid() <==> this != Invalid
    {
      At?
    }
  }

  /** `f` applied to every element of `s`, in order. */
  function Mapped<A, B>(f: A -> B, s: seq<A>): (r: seq<B>)
    ensures |r| == |s|
    ensures forall i :: 0 <= i < |s| ==> r[i] == f(s[i])
  {
    if s == [] then [] else [f(s[0])] + Mapped(f, s[1..])
  }

  /** A freshly allocated blob: `size` elements, each the invalid handle. */
  function Defaults(size: nat): (r: seq<FoundryHandle>)
    ensures |r| == size
    ensures forall i :: 0 <= i < size ==> !r[i].IsValid()
  {
    seq(size, _ => Invalid)
  }

  class ShaderContainer {
    /** blobs[i] is the content of the blob named by `At(i)`. */
    var blobs: seq<seq<FoundryHandle>>

    constructor ()
      ensures blobs == []
    {
      blobs := [];
    }

    /** `h` names a blob allocated in this container. */
    predicate HasBlob(h: FoundryHandle)
      reads this
    {
      h.At? && h.index < |blobs|
    }

    function Blob(h: FoundryHandle): (b: seq<FoundryHandle>)
      reads this
      requires HasBlob(h)
    {
      blobs[h.index]
    }

    /** Allocates a new blob of `size` default elements. The handle returned
        is valid and named no blob before the call (freshness); every
        existing blob is kept as it was. */
    method AddHandleBlob(size: nat) returns (h: FoundryHandle)
      modifies this
      ensures h.IsValid() && !old(HasBlob(h)) && HasBlob(h)
      ensures h == At(|old(blobs)|)
      ensures blobs == old(blobs) + [Defaults(size)]
    {
      h := At(|blobs|);
      blobs := blobs + [Defaults(size)];
    }

    /** Overwrites element `i` of blob `h` in place; nothing else changes. */
    method SetHandleBlobElement(h: FoundryHandle, i: nat, value: FoundryHandle)
      requires HasBlob(h) && i < |Blob(h)|
      modifies this
      ensures blobs == old(blobs)[h.index := old(Blob(h))[i := value]]
    {
      blobs := blobs[h.index := blobs[h.index][i := value]];
    }

    /** Appends `value` to blob `h`; nothing else changes. */
    method AddHandleBlobElement(h: FoundryHandle, value: FoundryHandle)
      requires HasBlob(h)
      modifies this
      ensures blobs == old(blobs)[h.index := old(Blob(h)) + [value]]
    {
      blobs := blobs[h.index := blobs[h.index] + [value]];
    }
  }
}
