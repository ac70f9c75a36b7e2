/** The two table searches of the renderer: picking a queue family by its
    capability bits, and picking a memory type by a requirement mask and
    property bits. Both are first-match scans that fall off the end of the
    function when nothing matches (the value returned then is undefined), so
    here "a match exists" is a precondition. */
module DeviceSelect {
  import opened Vk

  /** getQueue's test: the family shares at least one bit with `wanted`
      (an intersection, not a superset test) and none with `unwanted`. */
  predicate QueueMatches(queueFlags: Flags, wanted: Flags, unwanted: Flags)
  {
    queueFlags & wanted != 0 && queueFlags & unwanted == 0
  }

  predicate HasQueueFrom(families: seq<Flags>, wanted: Flags, unwanted: Flags, start: nat)
  {
    exists i :: start <= i < |families| && QueueMatches(families[i], wanted, unwanted)
  }

  predicate HasQueue(families: seq<Flags>, wanted: Flags, unwanted: Flags)
  {
    HasQueueFrom(families, wanted, unwanted, 0)
  }

  /** The scan from index `start` on. */
  function GetQueueFrom(families: seq<Flags>, wanted: Flags, unwanted: Flags, start: nat): (idx: nat)
    requires start <= |families|
    requires HasQueueFrom(families, wanted, unwanted, start)
    ensures start <= idx < |families|
    ensures QueueMatches(families[idx], wanted, unwanted)
    ensures forall j :: start <= j < idx ==> !QueueMatches(families[j], wanted, unwanted)
    decreases |families| - start
  {
    if QueueMatches(families[start], wanted, unwanted) then start
    else GetQueueFrom(families, wanted, unwanted, start + 1)
  }

  /** getQueue(wanted, unwanted) over the queue-family table: the lowest
      index whose flags pass the test; every smaller index fails it. */
  function GetQueue(families: seq<Flags>, wanted: Flags, unwanted: Flags): (idx: nat)
    requires HasQueue(families, wanted, unwanted)
    ensures idx < |families|
    ensures QueueMatches(families[idx], wanted, unwanted)
    ensures forall j :: 0 <= j < idx ==> !QueueMatches(families[j], wanted, unwanted)
  {
    GetQueueFrom(families, wanted, unwanted, 0)
  }

  /** The first-match characterisation pins the result down: any index
      that passes the test with every smaller index failing is the one
      getQueue returns. */
  lemma GetQueueIsLeast(families: seq<Flags>, wanted: Flags, unwanted: Flags, k: nat)
    requires k < |families| && QueueMatches(families[k], wanted, unwanted)
    requires forall j :: 0 <= j < k ==> !QueueMatches(families[j], wanted, unwanted)
    ensures HasQueue(families, wanted, unwanted)
    ensures GetQueue(families, wanted, unwanted) == k
  {
    assert HasQueue(families, wanted, unwanted);
  }

  /** The three selections made when the device is created: graphics =
      getQueue(GRAPHICS), compute = getQueue(COMPUTE, excluding GRAPHICS),
      transfer = getQueue(TRANSFER, excluding GRAPHICS|COMPUTE). */
  predicate HasQueueFamilies(families: seq<Flags>)
  {
    && HasQueue(families, QUEUE_GRAPHICS, 0)
    && HasQueue(families, QUEUE_COMPUTE, QUEUE_GRAPHICS)
    && HasQueue(families, QUEUE_TRANSFER, QUEUE_GRAPHICS | QUEUE_COMPUTE)
  }

  function SelectFamilies(families: seq<Flags>): (f: Families)
    requires HasQueueFamilies(families)
    ensures f.graphics < |families| && f.compute < |families| && f.transfer < |families|
  {
    Families(
      GetQueue(families, QUEUE_GRAPHICS, 0),
      GetQueue(families, QUEUE_COMPUTE, QUEUE_GRAPHICS),
      GetQueue(families, QUEUE_TRANSFER, QUEUE_GRAPHICS | QUEUE_COMPUTE))
  }

  /** The three chosen families are pairwise distinct: the graphics family
      has the graphics bit the other two exclude, and the compute family has
      the compute bit the transfer family excludes. */
  lemma SelectedFamiliesDistinct(families: seq<Flags>)
    requires HasQueueFamilies(families)
    ensures var f := SelectFamilies(families);
      f.graphics != f.compute && f.graphics != f.transfer && f.compute != f.transfer
  {
    var f := SelectFamilies(families);
    var g, c, t := families[f.graphics], families[f.compute], families[f.transfer];
    assert g & QUEUE_GRAPHICS != 0;
    assert c & QUEUE_GRAPHICS == 0 && c & QUEUE_COMPUTE != 0;
    assert t & (QUEUE_GRAPHICS | QUEUE_COMPUTE) == 0;
    BitsOfUnion(t, QUEUE_GRAPHICS, QUEUE_COMPUTE);
  }

  lemma BitsOfUnion(x: Flags, a: Flags, b: Flags)
    requires x & (a | b) == 0
    ensures x & a == 0 && x & b == 0
  {
  }

  /** The requirement bit of memory type `idx`: `1 << idx`. */
  function TypeBit(idx: nat): (b: Flags)
    requires idx < 32
    ensures b != 0
  {
    (1 as Flags) << idx
  }

  /** getMemoryIndex's test on memory type `idx`: its bit is set in `mask`
      and its property flags contain every bit of `flags`. */
  predicate MemoryTypeMatches(propertyFlags: seq<Flags>, idx: nat, flags: Flags, mask: Flags)
    requires idx < |propertyFlags| <= 32
  {
    TypeBit(idx) & mask != 0 && propertyFlags[idx] & flags == flags
  }

  /** Some memory type from index `start` on passes the test. Written as
      the scan itself, one index at a time. */
  predicate HasMemoryTypeFrom(propertyFlags: seq<Flags>, flags: Flags, mask: Flags, start: nat)
    requires |propertyFlags| <= 32
    decreases |propertyFlags| - start
  {
    start < |propertyFlags|
    && (MemoryTypeMatches(propertyFlags, start, flags, mask) || HasMemoryTypeFrom(propertyFlags, flags, mask, start + 1))
  }

  predicate HasMemoryType(propertyFlags: seq<Flags>, flags: Flags, mask: Flags)
    requires |propertyFlags| <= 32
  {
    HasMemoryTypeFrom(propertyFlags, flags, mask, 0)
  }

  /** The scan succeeds from `start` exactly when some index at or after
      `start` passes the test. */
  lemma {:induction false} HasMemoryTypeFromIff(propertyFlags: seq<Flags>, flags: Flags, mask: Flags, start: nat)
    requires |propertyFlags| <= 32
    ensures HasMemoryTypeFrom(propertyFlags, flags, mask, start)
      <==> exists i :: start <= i < |propertyFlags| && MemoryTypeMatches(propertyFlags, i, flags, mask)
    decreases |propertyFlags| - start
  {
    if start < |propertyFlags| {
      HasMemoryTypeFromIff(propertyFlags, flags, mask, start + 1);
      if exists i :: start <= i < |propertyFlags| && MemoryTypeMatches(propertyFlags, i, flags, mask) {
        var i :| start <= i < |propertyFlags| && MemoryTypeMatches(propertyFlags, i, flags, mask);
        if i != start {
          assert start + 1 <= i;
        }
      }
    }
  }

  function GetMemoryIndexFrom(propertyFlags: seq<Flags>, flags: Flags, mask: Flags, start: nat): (idx: nat)
    requires |propertyFlags| <= 32
    requires HasMemoryTypeFrom(propertyFlags, flags, mask, start)
    ensures start <= idx < |propertyFlags|
    decreases |propertyFlags| - start
  {
    if MemoryTypeMatches(propertyFlags, start, flags, mask) then start
    else GetMemoryIndexFrom(propertyFlags, flags, mask, start + 1)
  }

  /** The scan from `start` stops at the first index passing the test. */
  lemma {:induction false} GetMemoryIndexFromIsFirst(propertyFlags: seq<Flags>, flags: Flags, mask: Flags, start: nat)
    requires |propertyFlags| <= 32
    requires HasMemoryTypeFrom(propertyFlags, flags, mask, start)
    ensures MemoryTypeMatches(propertyFlags, GetMemoryIndexFrom(propertyFlags, flags, mask, start), flags, mask)
    ensures forall j :: start <= j < GetMemoryIndexFrom(propertyFlags, flags, mask, start) ==> !MemoryTypeMatches(propertyFlags, j, flags, mask)
    decreases |propertyFlags| - start
  {
    if !MemoryTypeMatches(propertyFlags, start, flags, mask) {
      GetMemoryIndexFromIsFirst(propertyFlags, flags, mask, start + 1);
    }
  }

  /** getMemoryIndex(flags, mask) over the first memoryTypeCount (at most
      VK_MAX_MEMORY_TYPES = 32) memory types: the lowest index below the
      count whose bit is in `mask` and whose properties contain `flags`.
      What it finds is stated by GetMemoryIndexIsFirst. */
  function GetMemoryIndex(propertyFlags: seq<Flags>, flags: Flags, mask: Flags): (idx: nat)
    requires |propertyFlags| <= 32
    requires HasMemoryType(propertyFlags, flags, mask)
    ensures idx < |propertyFlags|
  {
    GetMemoryIndexFrom(propertyFlags, flags, mask, 0)
  }

  /** The index found has its bit in `mask` and every bit of `flags` among
      its properties, and every smaller index fails the test. */
  lemma GetMemoryIndexIsFirst(propertyFlags: seq<Flags>, flags: Flags, mask: Flags)
    requires |propertyFlags| <= 32
    requires HasMemoryType(propertyFlags, flags, mask)
    ensures var idx := GetMemoryIndex(propertyFlags, flags, mask);
      && TypeBit(idx) & mask != 0
      && propertyFlags[idx] & flags == flags
      && forall j :: 0 <= j < idx ==> !MemoryTypeMatches(propertyFlags, j, flags, mask)
  {
    GetMemoryIndexFromIsFirst(propertyFlags, flags, mask, 0);
  }

  /** From `start`, with every index before `k` failing and `k` passing,
      the scan succeeds and stops at `k`. */
  lemma {:induction false} GetMemoryIndexFromAt(propertyFlags: seq<Flags>, flags: Flags, mask: Flags, start: nat, k: nat)
    requires start <= k < |propertyFlags| <= 32 && MemoryTypeMatches(propertyFlags, k, flags, mask)
    requires forall j :: start <= j < k ==> !MemoryTypeMatches(propertyFlags, j, flags, mask)
    ensures HasMemoryTypeFrom(propertyFlags, flags, mask, start)
    ensures GetMemoryIndexFrom(propertyFlags, flags, mask, start) == k
    decreases k - start
  {
    if start < k {
      GetMemoryIndexFromAt(propertyFlags, flags, mask, start + 1, k);
    }
  }

  /** Any index passing the test with every smaller index failing it is
      the one getMemoryIndex returns. */
  lemma GetMemoryIndexIsLeast(propertyFlags: seq<Flags>, flags: Flags, mask: Flags, k: nat)
    requires k < |propertyFlags| <= 32 && MemoryTypeMatches(propertyFlags, k, flags, mask)
    requires forall j :: 0 <= j < k ==> !MemoryTypeMatches(propertyFlags, j, flags, mask)
    ensures HasMemoryType(propertyFlags, flags, mask)
    ensures GetMemoryIndex(propertyFlags, flags, mask) == k
  {
    GetMemoryIndexFromAt(propertyFlags, flags, mask, 0, k);
  }
}
