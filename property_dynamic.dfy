/**
 * The "dynamic" property type (src/data/property_dynamic.c): a string
 * property {value, size, flags} whose value is a heap block that the
 * property may or may not own. The default build is modelled, where
 * STRDUP, STRNDUP, REALLOC and FREE are the C library's strdup, strndup,
 * realloc and free; static_strndup of the static-buffer build is modelled
 * on its own at the end.
 *
 * A heap block is an object (`Block`), so that a value shared by two
 * properties (the same block) and a duplicated value (a fresh block with
 * equal contents) are told apart by identity. `live` is false once the
 * block has been freed. Allocation failure is the `allocOk` parameter.
 */
module PropertyDynamic {
  import opened Wrappers

  const NUL: char := '\0'

  /** The flag bits a property carries: the two ownership bits, the dynamic and const type tags, and `Foreign` for a bit of another property type. */
  datatype Flag = Owner | Raw | Dynamic | Const | Foreign(bit: nat)

  /** PROPERTY_DYNAMIC_TAG | is_owner: the flags of a property that owns a copied string. */
  const OwnedString: set<Flag> := {Dynamic, Owner}

  class Block {
    var chars: seq<char>
    var live: bool

    constructor (s: seq<char>)
      ensures chars == s && live
    {
      chars := s;
      live := true;
    }
  }

  class Property {
    var value: Block?
    var size: int
    var flags: set<Flag>

    constructor (value: Block?, size: int, flags: set<Flag>)
      ensures this.value == value && this.size == size && this.flags == flags
    {
      this.value := value;
      this.size := size;
      this.flags := flags;
    }
  }

  /** strlen: the number of characters before the first NUL (the whole block if it holds none). */
  function StrLen(s: seq<char>): (n: nat)
    ensures n <= |s|
    ensures forall i :: 0 <= i < n ==> s[i] != NUL
    ensures n < |s| ==> s[n] == NUL
  {
    if s == [] || s[0] == NUL then 0 else 1 + StrLen(s[1..])
  }

  /** The C string a block holds: its characters before the first NUL. */
  function CString(s: seq<char>): (r: seq<char>)
    ensures NUL !in r && r <= s
    ensures |r| < |s| ==> s[|r|] == NUL
  {
    s[..StrLen(s)]
  }

  /** A block whose first NUL is at n holds a C string of length n. */
  lemma StrLenAt(s: seq<char>, n: nat)
    requires n < |s| && s[n] == NUL
    requires forall i :: 0 <= i < n ==> s[i] != NUL
    ensures StrLen(s) == n
  {
  }

  /** The block strdup returns: the C string and its terminator, so the copy holds the same C string. */
  function Strdup(s: seq<char>): (r: seq<char>)
    ensures r == CString(s) + [NUL]
    ensures StrLen(r) == StrLen(s) && CString(r) == CString(s)
  {
    var r := s[..StrLen(s)] + [NUL];
    StrLenAt(r, StrLen(s));
    r
  }

  /**
   * The block strndup returns: at most n characters of the C string and a
   * terminator. A negative int converts to a huge size_t, so then the
   * whole C string is copied.
   */
  function Strndup(s: seq<char>, n: int): (r: seq<char>)
    ensures |r| >= 1 && r[|r| - 1] == NUL
    ensures r[..|r| - 1] <= CString(s)
    ensures 0 <= n < StrLen(s) ==> r[..|r| - 1] == s[..n]
    ensures (n < 0 || StrLen(s) <= n) ==> r[..|r| - 1] == CString(s)
  {
    var k := if n < 0 || StrLen(s) <= n then StrLen(s) else n;
    s[..k] + [NUL]
  }

  /** A raw property's size fits its block (the source's callers keep this). */
  predicate SizeFits(p: Property)
    reads p, p.value
  {
    p.value != null && (Raw in p.flags ==> 0 <= p.size <= |p.value.chars|)
  }

  /** The text a property denotes: its first `size` characters when raw, else its C string. */
  function Text(p: Property): seq<char>
    reads p, p.value
    requires SizeFits(p)
  {
    if Raw in p.flags then p.value.chars[..p.size] else CString(p.value.chars)
  }

  /** A fresh block with the given contents, or NULL when the allocator has no room. */
  method Allocate(s: seq<char>, allocOk: bool) returns (b: Block?)
    ensures allocOk ==> b != null && fresh(b) && b.chars == s && b.live
    ensures !allocOk ==> b == null
  {
    if allocOk {
      b := new Block(s);
    } else {
      b := null;
    }
  }

  /** free(b); free(NULL) does nothing. */
  method Free(b: Block?)
    requires b != null ==> b.live
    modifies b
    ensures b != null ==> !b.live && b.chars == old(b.chars)
  {
    if b != null {
      b.live := false;
    }
  }

  /**
   * dynmc_copy: from a non-owner the copy is shallow (same block, same
   * flags); from an owner dst gets a fresh block with the same text and
   * exactly the flags owner|dynamic, so `Raw` is not carried over.
   */
  method Copy(dst: Property, src: Property, allocOk: bool)
    requires Owner in src.flags ==> src.value != null
    modifies dst
    ensures dst.size == old(src.size)
    ensures Owner !in old(src.flags) ==> dst.value == old(src.value) && dst.flags == old(src.flags)
    ensures Owner in old(src.flags) ==> dst.flags == OwnedString
    ensures Owner in old(src.flags) && allocOk ==>
      dst.value != null && fresh(dst.value) && dst.value.live &&
      dst.value.chars == (if Raw in old(src.flags) then Strndup(old(src.value.chars), old(src.size))
                          else Strdup(old(src.value.chars)))
    ensures Owner in old(src.flags) && !allocOk ==> dst.value == null
  {
    dst.size := src.size;
    if Owner !in src.flags {
      dst.value := src.value;
      dst.flags := src.flags;
      return;
    }
    if Raw in src.flags {
      dst.value := Allocate(Strndup(src.value.chars, src.size), allocOk);
    } else {
      dst.value := Allocate(Strdup(src.value.chars), allocOk);
    }
    dst.flags := OwnedString;
  }

  /** dynmc_weak: dst shares src's block and size, and does not own it. */
  method Weak(dst: Property, src: Property)
    modifies dst
    ensures dst.value == old(src.value) && dst.size == old(src.size)
    ensures dst.flags == {Dynamic} && Owner !in dst.flags
  {
    dst.value := src.value;
    dst.size := src.size;
    dst.flags := {Dynamic};
  }

  /**
   * dynmc_move: dst takes src's block and size; ownership, if src had it,
   * passes to dst and src loses only that bit, so the two are never both
   * owners. (Moving a property onto itself drops its ownership, as the C
   * code re-reads the flags it has just overwritten.)
   */
  method Move(dst: Property, src: Property)
    modifies dst, src
    ensures dst.value == old(src.value) && dst.size == old(src.size)
    ensures dst.flags == if Owner in old(src.flags) && dst != src then {Dynamic, Owner} else {Dynamic}
    ensures dst != src ==> src.value == old(src.value) && src.size == old(src.size)
    ensures dst != src ==> src.flags == old(src.flags) - {Owner}
    ensures dst != src ==> !(Owner in dst.flags && Owner in src.flags)
  {
    dst.value := src.value;
    dst.size := src.size;
    dst.flags := {Dynamic};
    if Owner in src.flags {
      dst.flags := dst.flags + {Owner};
      src.flags := src.flags - {Owner};
    }
  }

  /** dynmc_destroy: frees the block only when the property owns it; the fields stay as they are. */
  method Destroy(dst: Property)
    requires Owner in dst.flags && dst.value != null ==> dst.value.live
    modifies dst.value
    ensures dst.value != null ==> dst.value.chars == old(dst.value.chars)
    ensures dst.value != null ==> dst.value.live == (old(dst.value.live) && Owner !in dst.flags)
  {
    if Owner in dst.flags {
      Free(dst.value);
    }
  }

  /**
   * dynmc_concat: a no-op unless dst owns its value; otherwise dst's block
   * (grown in place) holds dst's text, then src's text, then a NUL, and
   * size grows by the length of src's text. On allocation failure dst's
   * value becomes NULL and the old block is left allocated: realloc keeps
   * it, the pointer to it is overwritten, and the dynmc_destroy that
   * follows frees NULL.
   */
  method Concat(dst: Property, src: Property, allocOk: bool)
    requires Owner in dst.flags ==> SizeFits(dst) && SizeFits(src) && dst.value.live
    modifies dst, dst.value
    ensures Owner !in old(dst.flags) ==>
      dst.value == old(dst.value) && dst.size == old(dst.size) && dst.flags == old(dst.flags) &&
      (dst.value != null ==> dst.value.chars == old(dst.value.chars))
    ensures Owner in old(dst.flags) ==> dst.flags == old(dst.flags)
    ensures Owner in old(dst.flags) && allocOk ==>
      dst.value == old(dst.value) && dst.value.live &&
      dst.value.chars == old(Text(dst)) + old(Text(src)) + [NUL] &&
      dst.size == old(dst.size) + |old(Text(src))|
    ensures Owner in old(dst.flags) && !allocOk ==>
      dst.value == null && dst.size == old(dst.size) &&
      old(dst.value).live && old(dst.value).chars == old(dst.value.chars)
  {
    if Owner !in dst.flags {
      return;
    }
    var head := Text(dst);
    var tail := Text(src);
    var sizeDst := |head|;
    var sizeSrc := |tail|;
    if !allocOk {
      dst.value := null;
      Destroy(dst);
      return;
    }
    dst.size := dst.size + sizeSrc;
    dst.value.chars := head + tail + [NUL];
  }

  /**
   * The same operation with the release the failure path evidently
   * intends: when the block cannot be grown it is freed, so nothing is
   * left allocated and unreachable.
   */
  method ConcatReleasing(dst: Property, src: Property, allocOk: bool)
    requires Owner in dst.flags ==> SizeFits(dst) && SizeFits(src) && dst.value.live
    modifies dst, dst.value
    ensures Owner !in old(dst.flags) ==>
      dst.value == old(dst.value) && dst.size == old(dst.size) && dst.flags == old(dst.flags) &&
      (dst.value != null ==> dst.value.chars == old(dst.value.chars))
    ensures Owner in old(dst.flags) ==> dst.flags == old(dst.flags)
    ensures Owner in old(dst.flags) && allocOk ==>
      dst.value == old(dst.value) && dst.value.live &&
      dst.value.chars == old(Text(dst)) + old(Text(src)) + [NUL] &&
      dst.size == old(dst.size) + |old(Text(src))|
    ensures Owner in old(dst.flags) && !allocOk ==>
      dst.value == null && dst.size == old(dst.size) && !old(dst.value).live
  {
    if Owner !in dst.flags {
      return;
    }
    var head := Text(dst);
    var tail := Text(src);
    var sizeSrc := |tail|;
    if !allocOk {
      Destroy(dst);
      dst.value := null;
      return;
    }
    dst.size := dst.size + sizeSrc;
    dst.value.chars := head + tail + [NUL];
  }

  /** string_to_dynamic_property: an owned copy of a C string, size its strlen. */
  method StringToDynamic(name: seq<char>, allocOk: bool) returns (p: Property)
    ensures fresh(p) && p.size == StrLen(name) && p.flags == {Dynamic, Owner}
    ensures allocOk ==> p.value != null && fresh(p.value) && p.value.live && p.value.chars == Strdup(name)
    ensures !allocOk ==> p.value == null
  {
    var b := Allocate(Strdup(name), allocOk);
    p := new Property(b, StrLen(name), {Dynamic, Owner});
  }

  /** raw_to_dynamic_property: an owned raw copy of len characters, size len. */
  method RawToDynamic(name: seq<char>, len: int, allocOk: bool) returns (p: Property)
    ensures fresh(p) && p.size == len && p.flags == {Dynamic, Owner, Raw}
    ensures allocOk ==> p.value != null && fresh(p.value) && p.value.live && p.value.chars == Strndup(name, len)
    ensures !allocOk ==> p.value == null
  {
    var b := Allocate(Strndup(name, len), allocOk);
    p := new Property(b, len, {Dynamic, Owner, Raw});
  }

  /**
   * static_strndup of the static-buffer build: NULL for a size of zero or
   * less and when the static buffer has no room; otherwise exactly `size`
   * characters (NULs included, as memcpy copies them) and a terminator.
   */
  function StaticStrndup(ptr: seq<char>, size: int, allocOk: bool): (r: Option<seq<char>>)
    requires size <= 0 || size <= |ptr|
    ensures r.None? <==> size <= 0 || !allocOk
    ensures r.Some? ==> |r.value| == size + 1 && r.value[..size] == ptr[..size] && r.value[size] == NUL
  {
    if size <= 0 then None
    else if !allocOk then None
    else Some(ptr[..size] + [NUL])
  }

  /** static_strdup: static_strndup of the C string, so an empty string gives NULL, not "". */
  function StaticStrdup(ptr: seq<char>, allocOk: bool): (r: Option<seq<char>>)
    ensures StrLen(ptr) == 0 ==> r.None?
    ensures r.Some? ==> r.value == Strdup(ptr)
    ensures StrLen(ptr) > 0 && allocOk ==> r.Some?
  {
    StaticStrndup(ptr, StrLen(ptr), allocOk)
  }
}
