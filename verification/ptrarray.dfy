/**
 * The growable pointer array of src/util/array.c: `length` slots in use out of a
 * buffer of `size`. A slot holds a pointer or NULL; NULL is `None`. The buffer is
 * the sequence of used slots plus the capacity field; `malloc`, `realloc` and
 * `free` are not modelled.
 */
module PtrArray {
  import opened Base

  /** `getArray`: slot `i` when `0 <= i < length`, NULL otherwise. */
  function GetOf<T>(items: seq<Option<T>>, i: int): (r: Option<T>)
    ensures !(0 <= i < |items|) ==> r.None?
    ensures 0 <= i < |items| ==> r == items[i]
  {
    if 0 <= i < |items| then items[i] else None
  }

  /** `lastArray`: the last slot, or NULL when the array is empty. */
  function LastOf<T>(items: seq<Option<T>>): (r: Option<T>)
    ensures items == [] ==> r.None?
    ensures items != [] ==> r == items[|items| - 1]
  {
    if |items| > 0 then items[|items| - 1] else None
  }

  /** The non-NULL slots, in their original order: what `clearArray` copies. */
  function NonNull<T>(items: seq<Option<T>>): (r: seq<Option<T>>)
    ensures |r| <= |items|
    ensures forall j :: 0 <= j < |r| ==> r[j].Some?
  {
    if items == [] then []
    else if items[0].Some? then [items[0]] + NonNull(items[1..])
    else NonNull(items[1..])
  }

  /** A slot `NonNull` keeps is a non-NULL slot of the original, and every one is kept. */
  lemma {:induction false} NonNullKeeps<T>(items: seq<Option<T>>, x: T)
    ensures Some(x) in NonNull(items) <==> Some(x) in items
  {
    if items != [] {
      NonNullKeeps(items[1..], x);
      assert items == [items[0]] + items[1..];
    }
  }

  /** One more slot at the end adds itself to `NonNull` when it is not NULL. */
  lemma NonNullSnoc<T>(items: seq<Option<T>>, x: Option<T>)
    ensures NonNull(items + [x]) == NonNull(items) + (if x.Some? then [x] else [])
  {
    if items != [] {
      assert (items + [x])[1..] == items[1..] + [x];
      NonNullSnoc(items[1..], x);
    }
  }

  /** With no NULL slot, `NonNull` is the identity. */
  lemma {:induction false} NonNullOfFull<T>(items: seq<Option<T>>)
    requires forall j :: 0 <= j < |items| ==> items[j].Some?
    ensures NonNull(items) == items
  {
    if items != [] {
      NonNullOfFull(items[1..]);
      assert items == [items[0]] + items[1..];
    }
  }

  /** `a->size *= 1.5` on an `int`: the product truncated toward zero. */
  function Grown(size: nat): nat
  {
    size * 3 / 2
  }

  class PtrArray<T> {
    var items: seq<Option<T>>
    /** The capacity of the buffer. */
    var size: nat

    ghost predicate Valid()
      reads this
    {
      |items| <= size
    }

    function Length(): nat
      reads this
    {
      |items|
    }

    /** `newArray(s)` / `initArray`: empty, with room for `max(s, 2)` slots. */
    constructor (s: int)
      ensures Valid() && items == [] && size == if s < 2 then 2 else s
    {
      items := [];
      size := if s < 2 then 2 else s;
    }

    /** `trimArray`: the capacity shrinks to the length; the slots stay. */
    method Trim()
      modifies this
      ensures Valid() && items == old(items) && size == |items|
    {
      size := |items|;
    }

    /**
     * `pushArray`: a full buffer first grows to `floor(size * 1.5)` slots, then the
     * element goes to slot `length`; earlier slots stay. A full buffer of fewer
     * than two slots does not grow, and the store would overrun it.
     */
    method Push(el: Option<T>)
      requires Valid()
      requires |items| < size || size >= 2
      modifies this
      ensures Valid()
      ensures items == old(items) + [el]
      ensures size == if old(size) == old(|items|) then Grown(old(size)) else old(size)
    {
      if size == |items| {
        size := Grown(size);
      }
      items := items + [el];
    }

    /**
     * `removeArray`: NULLs slot `i`, leaving the length. Its guard `i < 0 && i >=
     * length` can never hold, so an index out of range would be written anyway; the
     * model demands an index in range.
     */
    method Remove(i: int)
      requires Valid() && 0 <= i < |items|
      modifies this
      ensures Valid() && size == old(size)
      ensures items == old(items)[i := None]
    {
      if i < 0 && i >= |items| {
        return;
      }
      items := items[i := None];
    }

    /**
     * `clearArray`: a new array, sized like this one, holding the non-NULL slots in
     * order; this array is left as it was.
     */
    method Clear() returns (r: PtrArray<T>)
      requires Valid()
      ensures fresh(r) && r.Valid()
      ensures r.items == NonNull(items)
      ensures r.size == if size < 2 then 2 else size
    {
      r := new PtrArray(size);
      var i := 0;
      while i < |items|
        invariant 0 <= i <= |items|
        invariant r.Valid() && r.items == NonNull(items[..i])
        invariant r.size == if size < 2 then 2 else size
      {
        NonNullSnoc(items[..i], items[i]);
        assert items[..i + 1] == items[..i] + [items[i]];
        if items[i] != None {
          r.Push(items[i]);
        }
        i := i + 1;
      }
      assert items[..i] == items;
    }

    /** `popArray`: removes and returns the last slot; NULL and no change when empty. */
    method Pop() returns (r: Option<T>)
      requires Valid()
      modifies this
      ensures Valid() && size == old(size)
      ensures r == LastOf(old(items))
      ensures items == if old(items) == [] then old(items) else old(items)[..|old(items)| - 1]
    {
      if |items| > 0 {
        r := items[|items| - 1];
        items := items[..|items| - 1];
      } else {
        r := None;
      }
    }

    /** `lastArray`: the last slot without removing it. */
    function Last(): (r: Option<T>)
      reads this
      ensures r == LastOf(items)
    {
      if |items| > 0 then items[|items| - 1] else None
    }

    /** `getArray`: slot `i`, or NULL outside `[0, length)`. */
    function Get(i: int): (r: Option<T>)
      reads this
      ensures r == GetOf(items, i)
    {
      if 0 <= i < |items| then items[i] else None
    }
  }

  /** Pushing then popping gives back the element and the array as it was. */
  method PushPop<T>(a: PtrArray<T>, el: Option<T>) returns (r: Option<T>)
    requires a.Valid() && (|a.items| < a.size || a.size >= 2)
    modifies a
    ensures r == el && a.items == old(a.items) && a.Valid()
  {
    a.Push(el);
    r := a.Pop();
  }
}
