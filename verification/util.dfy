/** The byte and string helpers of src/util.cpp, over arrays standing for C buffers. */
module Util {
  import opened Base

  /** Index of the first NUL of a buffer that holds one. */
  function StrLen(s: seq<char>): (n: nat)
    requires exists i :: 0 <= i < |s| && s[i] == '\0'
    ensures n < |s| && s[n] == '\0'
    ensures forall k :: 0 <= k < n ==> s[k] != '\0'
  {
    if s[0] == '\0' then 0
    else
      assert exists i :: 0 <= i < |s[1..]| && s[1..][i] == '\0' by {
        var i :| 0 <= i < |s| && s[i] == '\0';
        assert s[1..][i - 1] == '\0';
      }
      1 + StrLen(s[1..])
  }

  /**
   * `h_memcpy`: copies `n` elements from `src` (from `srcAt` on) to `dst` (from
   * `dstAt` on) in increasing index order. A C pointer is an array plus an offset;
   * like `memcpy` the two ranges must not overlap.
   */
  method MemCpy<T>(dst: array<T>, dstAt: nat, src: array<T>, srcAt: nat, n: nat)
    requires dstAt + n <= dst.Length && srcAt + n <= src.Length
    requires dst == src ==> dstAt + n <= srcAt || srcAt + n <= dstAt
    modifies dst
    ensures dst[dstAt..dstAt + n] == old(src[srcAt..srcAt + n])
    ensures dst[..dstAt] == old(dst[..dstAt]) && dst[dstAt + n..] == old(dst[dstAt + n..])
  {
    var i := 0;
    while i < n
      invariant 0 <= i <= n
      invariant forall k :: dstAt <= k < dstAt + i ==> dst[k] == old(src[srcAt + (k - dstAt)])
      invariant forall k :: srcAt + i <= k < srcAt + n ==> src[k] == old(src[k])
      invariant forall k :: 0 <= k < dst.Length && !(dstAt <= k < dstAt + i) ==> dst[k] == old(dst[k])
    {
      dst[dstAt + i] := src[srcAt + i];
      i := i + 1;
    }
  }

  /**
   * `h_memcpy_s`: -1 and no write when either buffer is null or `sz` exceeds the
   * declared destination size `dstSize`; otherwise a copy of `sz` elements and 0.
   */
  method MemCpyS<T>(dst: array?<T>, dstSize: nat, src: array?<T>, sz: nat) returns (r: int)
    requires dst != null ==> dstSize <= dst.Length
    requires dst != null && src != null && sz <= dstSize ==> sz <= src.Length
    modifies dst
    ensures r == (if dst == null || src == null || sz > dstSize then -1 else 0)
    ensures r == -1 ==> dst == null || dst[..] == old(dst[..])
    ensures r == 0 ==> dst != null && src != null && dst[..sz] == old(src[..sz]) && dst[sz..] == old(dst[sz..])
  {
    if dst == null || src == null || sz > dstSize {
      return -1;
    }
    if dst == src {
      // Copying a buffer onto itself writes every element back unchanged.
      return 0;
    }
    MemCpy(dst, 0, src, 0, sz);
    return 0;
  }

  /** `h_strlen`: 0 for a null pointer, otherwise the index of the first NUL. */
  method StrLenOf(s: array?<char>) returns (len: nat)
    requires s != null ==> exists i :: 0 <= i < s.Length && s[i] == '\0'
    ensures s == null ==> len == 0
    ensures s != null ==> len == StrLen(s[..])
  {
    if s == null || s[0] == '\0' {
      return 0;
    }
    len := 0;
    while s[len] != '\0'
      invariant 0 <= len <= StrLen(s[..])
      decreases StrLen(s[..]) - len
    {
      len := len + 1;
    }
  }

  /** `h_strnlen`: the length up to the first NUL, but never more than `maxLen`. */
  method StrNLen(s: array?<char>, maxLen: nat) returns (len: nat)
    requires s != null ==> maxLen <= s.Length || exists i :: 0 <= i < s.Length && s[i] == '\0'
    ensures s == null || maxLen == 0 ==> len == 0
    ensures len <= maxLen
    ensures s != null ==> len <= s.Length && forall k :: 0 <= k < len ==> s[k] != '\0'
    ensures s != null && len < maxLen ==> s[len] == '\0'
  {
    if s == null || maxLen == 0 {
      return 0;
    }
    ghost var bound: nat := maxLen;
    if maxLen > s.Length {
      var i :| 0 <= i < s.Length && s[i] == '\0';
      bound := i;
    }
    len := 0;
    while len < maxLen && s[len] != '\0'
      invariant 0 <= len <= bound <= maxLen && bound <= s.Length
      invariant bound < maxLen ==> s[bound] == '\0'
      invariant forall k :: 0 <= k < len ==> s[k] != '\0'
    {
      len := len + 1;
    }
  }
}
