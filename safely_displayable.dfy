/** `SafelyDisplayable` (vendor/qubes-utils-0.1.0/src/safely_displayable.rs):
    a string every code point of which the Qubes C library judges safe to
    display. The judgement itself is a foreign call and is a parameter here,
    `safe`, from code point to verdict. A Rust `&str` is UTF-8, so offsets
    are byte offsets: the sum of the UTF-8 lengths of the characters before. */
module Displayable {
  import opened Wrappers
  import opened Ints

  /** A wrapped string; `Deref` and `From` hand back `text` unchanged. */
  datatype SafelyDisplayable = SafelyDisplayable(text: string)

  /** The error of `try_from`: the code point refused and its byte offset. */
  datatype NotSafelyDisplayable = UnsafeCodePoint(codePoint: u32, offset: nat)

  function CodePoint(c: char): u32 {
    c as int as u32
  }

  /** The number of bytes UTF-8 spends on `c`. */
  function Utf8Len(c: char): (n: nat)
    ensures 1 <= n <= 4
    ensures n == 1 <==> c as int < 0x80
  {
    if c as int < 0x80 then 1
    else if c as int < 0x800 then 2
    else if c as int < 0x1_0000 then 3
    else 4
  }

  /** The byte offset of character `k` of `s`, as `char_indices` reports it. */
  function ByteOffset(s: string, k: nat): nat
    requires k <= |s|
  {
    if k == 0 then 0 else ByteOffset(s, k - 1) + Utf8Len(s[k - 1])
  }

  /** `try_from`: the first code point `safe` refuses, with its offset, or the
      string itself. */
  function TryFrom(value: string, safe: u32 -> bool): (r: Result<SafelyDisplayable, NotSafelyDisplayable>)
    ensures r.Ok? ==> r.value.text == value
    ensures r.Err? ==> !safe(r.error.codePoint) && exists i | 0 <= i < |value| :: CodePoint(value[i]) == r.error.codePoint
  {
    match Scan(value, 0, 0, safe)
    case None => Ok(SafelyDisplayable(value))
    case Some(e) => Err(e)
  }

  /** The loop of `try_from` from character `k`, which sits at byte `offset`. */
  function Scan(value: string, k: nat, offset: nat, safe: u32 -> bool): (r: Option<NotSafelyDisplayable>)
    requires k <= |value|
    ensures r.Some? ==> !safe(r.value.codePoint) && offset <= r.value.offset
    ensures r.Some? ==> exists i | k <= i < |value| :: CodePoint(value[i]) == r.value.codePoint
    decreases |value| - k
  {
    if k == |value| then None
    else if !safe(CodePoint(value[k])) then Some(UnsafeCodePoint(CodePoint(value[k]), offset))
    else Scan(value, k + 1, offset + Utf8Len(value[k]), safe)
  }

  predicate AllSafe(s: string, safe: u32 -> bool) {
    forall i | 0 <= i < |s| :: safe(CodePoint(s[i]))
  }

  /** Character `k` is the first one `safe` refuses. */
  predicate FirstUnsafe(s: string, k: nat, safe: u32 -> bool) {
    && k < |s|
    && !safe(CodePoint(s[k]))
    && forall j | 0 <= j < k :: safe(CodePoint(s[j]))
  }

  lemma {:induction false} ScanFindsNothing(value: string, k: nat, offset: nat, safe: u32 -> bool)
    requires k <= |value|
    ensures Scan(value, k, offset, safe).None? <==> forall i | k <= i < |value| :: safe(CodePoint(value[i]))
    decreases |value| - k
  {
    if k < |value| {
      ScanFindsNothing(value, k + 1, offset + Utf8Len(value[k]), safe);
    }
  }

  lemma {:induction false} ScanReportsFirst(value: string, k: nat, offset: nat, safe: u32 -> bool, first: nat)
    requires k <= first && FirstUnsafe(value, first, safe)
    requires offset == ByteOffset(value, k)
    ensures Scan(value, k, offset, safe) == Some(UnsafeCodePoint(CodePoint(value[first]), ByteOffset(value, first)))
    decreases |value| - k
  {
    if k < first {
      ScanReportsFirst(value, k + 1, offset + Utf8Len(value[k]), safe, first);
    }
  }

  /** The string is accepted, unchanged, exactly when every code point is
      safe. */
  lemma TryFromAccepts(value: string, safe: u32 -> bool)
    ensures TryFrom(value, safe).Ok? <==> AllSafe(value, safe)
    ensures TryFrom(value, safe).Ok? ==> TryFrom(value, safe).value.text == value
    ensures value == [] ==> TryFrom(value, safe) == Ok(SafelyDisplayable([]))
  {
    ScanFindsNothing(value, 0, 0, safe);
  }

  /** Otherwise the error names the first unsafe code point and its byte
      offset. */
  lemma TryFromReportsFirstUnsafe(value: string, safe: u32 -> bool, k: nat)
    requires FirstUnsafe(value, k, safe)
    ensures TryFrom(value, safe) == Err(UnsafeCodePoint(CodePoint(value[k]), ByteOffset(value, k)))
  {
    ScanReportsFirst(value, 0, 0, safe, k);
  }

  /** A refused string has a first unsafe code point. */
  lemma RefusedHasFirstUnsafe(value: string, safe: u32 -> bool) returns (k: nat)
    requires !AllSafe(value, safe)
    ensures FirstUnsafe(value, k, safe)
  {
    k := 0;
    while safe(CodePoint(value[k]))
      invariant k < |value| && forall j | 0 <= j < k :: safe(CodePoint(value[j]))
      invariant exists i | k <= i < |value| :: !safe(CodePoint(value[i]))
      decreases |value| - k
    {
      k := k + 1;
    }
  }

  /** Offsets grow by at least one byte per character, and equal the index
      on ASCII text. */
  lemma {:induction false} ByteOffsetBounds(s: string, k: nat)
    requires k <= |s|
    ensures k <= ByteOffset(s, k) <= 4 * k
    ensures (forall i | 0 <= i < k :: s[i] as int < 0x80) ==> ByteOffset(s, k) == k
  {
    if k > 0 {
      ByteOffsetBounds(s, k - 1);
    }
  }

  /** The library's own test: U+1F642, which the C library refuses, is
      reported at offset 0. */
  lemma SmileyRefused(safe: u32 -> bool)
    requires !safe(0x1F642)
    ensures TryFrom("\U{1F642}", safe) == Err(UnsafeCodePoint(0x1F642, 0))
  {
    assert CodePoint("\U{1F642}"[0]) == 0x1F642;
  }
}
