/** The pool allocator, nboxkrnl/ex/pool.cpp. */
module Pool {
  // Chunks of 64 size classes are cut from pages; the first word of a chunk is its size while it
  // is in use and the link to the next free chunk while it is not. A ledger keeps, beside the
  // memory, what the links mean.

  import opened Links
  import opened Seqs

  const PAGE_SIZE := 4096
  const POOL_SIZE := PAGE_SIZE
  const CHUNK_OVERHEAD := 8
  const NUM_CHUNK_LISTS := 64
  const NONE_TAG := 0x656e_6f4e

  function ChunkSize(i: nat): (size: nat)
    ensures size > 0
  {
    (i + 1) * 32
  }

  /** How often a size fits in a room. */
  function Fit(room: nat, size: nat): nat
    requires size > 0
  {
    if room < size then 0 else 1 + Fit(room - size, size)
  }

  lemma {:induction false} FitIsQuotient(room: nat, size: nat)
    requires size > 0
    ensures Fit(room, size) * size <= room < Fit(room, size) * size + size
    ensures Fit(room, size) == room / size
  {
    if room >= size {
      FitIsQuotient(room - size, size);
      assert (Fit(room - size, size) + 1) * size == Fit(room - size, size) * size + size;
    }
    QuotientIs(room, size, Fit(room, size));
  }

  lemma QuotientIs(a: nat, b: nat, q: nat)
    requires b > 0 && q * b <= a < q * b + b
    ensures a / b == q
  {
    var r := a / b;
    assert r * b <= a < r * b + b;
    if r < q { Times(r + 1, q, b); } else if q < r { Times(q + 1, r, b); }
  }

  lemma Times(m: nat, n: nat, k: nat)
    requires m <= n
    ensures m * k <= n * k
  {
  }

  function PerPage(i: nat): nat { Fit(POOL_SIZE, ChunkSize(i)) }

  /** How many chunks n pages are cut into. */
  function Chunks(n: nat, i: nat): nat { if n == 0 then 0 else Chunks(n - 1, i) + PerPage(i) }

  predicate Aligned(a: nat, unit: nat)
    requires unit > 0
  {
    if a < unit then a == 0 else Aligned(a - unit, unit)
  }

  /** This is the source's test of an address. */
  lemma {:induction false} PageAligned(a: nat)
    ensures Aligned(a, POOL_SIZE) <==> a % POOL_SIZE == 0
  {
    if a >= POOL_SIZE { PageAligned(a - POOL_SIZE); }
  }

  lemma {:induction false} ChunkAligned(a: nat)
    ensures Aligned(a, 32) <==> a % 32 == 0
  {
    if a >= 32 { ChunkAligned(a - 32); }
  }

  lemma {:induction false} AlignedSum(a: nat, b: nat, unit: nat)
    requires unit > 0 && Aligned(a, unit) && Aligned(b, unit)
    ensures Aligned(a + b, unit)
    decreases a
  {
    if a >= unit { AlignedSum(a - unit, b, unit); }
  }

  lemma {:induction false} PagesAreFiner(a: nat)
    requires Aligned(a, PAGE_SIZE)
    ensures Aligned(a, 32)
  {
    if a >= PAGE_SIZE {
      PagesAreFiner(a - PAGE_SIZE);
      ChunkAligned(PAGE_SIZE);
      AlignedSum(a - PAGE_SIZE, PAGE_SIZE, 32);
    }
  }

  lemma {:induction false} SizesAreAligned(i: nat)
    ensures Aligned(ChunkSize(i), 32)
  {
    if i > 0 { SizesAreAligned(i - 1); }
  }

  function ClassFor(bytes: nat): nat { (bytes + CHUNK_OVERHEAD - 1) / 32 }

  /** A chunk remembers its size class and the page it was cut from. */
  datatype Chunk = Chunk(cls: nat, page: nat)

  /** Per class the free chunks in list order; the blocks in use with their class; every chunk
      ever cut; the pages with the class they were cut for; and what the memory manager has
      handed out, page-aligned address to length. */
  datatype Ledger = Ledger(
    free: seq<seq<nat>>,
    live: map<nat, nat>,
    chunks: map<nat, Chunk>,
    pages: map<nat, nat>,
    regions: map<nat, nat>)

  function Empty(): Ledger { Ledger(seq(NUM_CHUNK_LISTS, _ => []), map[], map[], map[], map[]) }

  // ---------- what the ledger may look like ----------

  predicate IsChunk(chunks: map<nat, Chunk>, a: nat, i: nat) { a in chunks && chunks[a].cls == i }

  predicate Apart(a: nat, m: nat, b: nat, n: nat) { a + m <= b || b + n <= a }

  /** A region of the given length that the memory manager may return: aligned, not null, and
      apart from everything it has handed out. */
  predicate Fresh(l: Ledger, b: nat, length: nat) {
    && b > 0 && Aligned(b, PAGE_SIZE)
    && forall c :: c in l.regions ==> Apart(b, length, c, l.regions[c])
  }

  function Rounded(bytes: nat): nat { (bytes + PAGE_SIZE - 1) / PAGE_SIZE * PAGE_SIZE }

  ghost function LiveOf(live: map<nat, nat>, i: nat): set<nat> { set a | a in live && live[a] == i }

  ghost function PagesOf(pages: map<nat, nat>, i: nat): set<nat> { set b | b in pages && pages[b] == i }

  ghost predicate RegionsApart(regions: map<nat, nat>) {
    && (forall b :: b in regions ==> b > 0 && Aligned(b, PAGE_SIZE) && regions[b] > 0)
    && (forall b, c :: b in regions && c in regions && b != c ==> Apart(b, regions[b], c, regions[c]))
  }

  ghost predicate PagesOwned(pages: map<nat, nat>, regions: map<nat, nat>) {
    forall b :: b in pages ==> b in regions && regions[b] == PAGE_SIZE && pages[b] < NUM_CHUNK_LISTS
  }

  predicate InPage(pages: map<nat, nat>, a: nat, c: Chunk) {
    && c.page in pages && pages[c.page] == c.cls && Aligned(a, 32)
    && c.page <= a && a + ChunkSize(c.cls) <= c.page + PAGE_SIZE
  }

  /** Every chunk lies within its page, and no two chunks overlap. */
  ghost predicate Geometry(chunks: map<nat, Chunk>, pages: map<nat, nat>) {
    && (forall a :: a in chunks ==> InPage(pages, a, chunks[a]))
    && (forall a, b :: a in chunks && b in chunks && a != b ==>
          Apart(a, ChunkSize(chunks[a].cls), b, ChunkSize(chunks[b].cls)))
  }

  ghost predicate FreeList(list: seq<nat>, i: nat, live: map<nat, nat>, chunks: map<nat, Chunk>) {
    && NoDup(list)
    && forall a :: a in list ==> IsChunk(chunks, a, i) && a !in live
  }

  ghost predicate LiveChunks(live: map<nat, nat>, chunks: map<nat, Chunk>) {
    forall a :: a in live ==> live[a] < NUM_CHUNK_LISTS && IsChunk(chunks, a, live[a])
  }

  /** Free and live chunks of a class together are all that its pages were cut into. */
  ghost predicate Conserved(list: seq<nat>, i: nat, live: map<nat, nat>, pages: map<nat, nat>) {
    |list| + |LiveOf(live, i)| == Chunks(|PagesOf(pages, i)|, i)
  }

  ghost predicate ValidClass(l: Ledger, i: nat)
    requires i < |l.free|
  {
    FreeList(l.free[i], i, l.live, l.chunks) && Conserved(l.free[i], i, l.live, l.pages)
  }

  ghost predicate ValidLedger(l: Ledger) {
    && RegionsApart(l.regions) && PagesOwned(l.pages, l.regions) && Geometry(l.chunks, l.pages) && LiveChunks(l.live, l.chunks)
    && |l.free| == NUM_CHUNK_LISTS
    && forall i :: 0 <= i < NUM_CHUNK_LISTS ==> ValidClass(l, i)
  }

  // ---------- how the operations move the ledger ----------

  function PageChunks(a: nat, size: nat, n: nat): (s: seq<nat>)
    ensures |s| == n
    decreases n
  {
    if n == 0 then [] else [a] + PageChunks(a + size, size, n - 1)
  }

  function Cut(i: nat, page: nat): seq<nat> { PageChunks(page, ChunkSize(i), PerPage(i)) }

  function WithPage(l: Ledger, i: nat, page: nat): Ledger
    requires i < |l.free|
  {
    l.(free := l.free[i := Cut(i, page)],
       chunks := l.chunks + map a | a in Cut(i, page) :: Chunk(i, page),
       pages := l.pages[page := i], regions := l.regions[page := PAGE_SIZE])
  }

  function Taken(l: Ledger, i: nat): Ledger
    requires i < |l.free| && l.free[i] != []
  {
    l.(free := l.free[i := l.free[i][1..]], live := l.live[l.free[i][0] := i])
  }

  function GivenBack(l: Ledger, a: nat): Ledger
    requires a in l.live && l.live[a] < |l.free|
  {
    l.(free := l.free[l.live[a] := [a] + l.free[l.live[a]]], live := l.live - {a})
  }

  /** AllocChunk; `page` is what the memory manager returns if it is asked (0: nothing). */
  function Allocated(l: Ledger, i: nat, page: nat): (Ledger, nat)
    requires i < |l.free| && PerPage(i) > 0
  {
    if l.free[i] != [] then (Taken(l, i), l.free[i][0])
    else if page == 0 then (l, 0)
    else (Taken(WithPage(l, i, page), i), page)
  }

  predicate Large(bytes: nat) { bytes > POOL_SIZE / 2 - CHUNK_OVERHEAD }

  /** What the memory manager may return when a request makes the pool ask it. */
  predicate Offer(l: Ledger, bytes: nat, region: nat) {
    region == 0 || Fresh(l, region, if Large(bytes) then Rounded(bytes) else POOL_SIZE)
  }

  /** ExAllocatePoolWithTag: the new ledger and the pointer returned (0: none). */
  function Allocation(l: Ledger, bytes: nat, region: nat): (Ledger, nat)
    requires |l.free| == NUM_CHUNK_LISTS
  {
    if Large(bytes) then (if region == 0 then l else l.(regions := l.regions[region := Rounded(bytes)]), region)
    else
      ClassFits(ClassFor(bytes));
      var r := Allocated(l, ClassFor(bytes), region);
      (r.0, if r.1 == 0 then 0 else r.1 + CHUNK_OVERHEAD)
  }

  /** The pointers a caller holds: behind the header of a block in use, or a large region. */
  predicate Small(l: Ledger, p: nat) { p >= CHUNK_OVERHEAD && p - CHUNK_OVERHEAD in l.live }

  predicate Owned(l: Ledger, p: nat) { Small(l, p) || (p in l.regions && p !in l.pages) }

  /** How many bytes the owner may use. */
  function Extent(l: Ledger, p: nat): int
    requires Owned(l, p)
  {
    if Small(l, p) then ChunkSize(l.live[p - CHUNK_OVERHEAD]) - CHUNK_OVERHEAD else l.regions[p]
  }

  /** ExFreePoolWithTag for a pointer the caller holds. */
  function Freed(l: Ledger, p: nat): Ledger
    requires Owned(l, p) && (Small(l, p) ==> l.live[p - CHUNK_OVERHEAD] < |l.free|)
  {
    if Small(l, p) then GivenBack(l, p - CHUNK_OVERHEAD) else l.(regions := l.regions - {p})
  }

  // ---------- the heap in the form of the source ----------

  /** Each head starts the chain of its list. */
  ghost predicate Linked(word: map<nat, nat>, heads: seq<nat>, free: seq<seq<nat>>) {
    |heads| == |free| && forall j :: 0 <= j < |heads| ==> Chained(word, heads[j], free[j])
  }

  /** The header of a block in use holds its size. */
  ghost predicate Sized(word: map<nat, nat>, live: map<nat, nat>) {
    forall a :: a in live ==> a in word && word[a] == ChunkSize(live[a])
  }

  /** The pool's memory is what the ledger says. */
  ghost predicate Kept(word: map<nat, nat>, tag: map<nat, nat>, heads: seq<nat>, l: Ledger) {
    && ValidLedger(l) && Linked(word, heads, l.free)
    && Sized(word, l.live) && l.live.Keys <= tag.Keys
  }

  class PoolHeap {
    const ChunkListsHead: array<nat>
    var Word: map<nat, nat>        // the first header word of each chunk: size or link
    var Tag: map<nat, nat>
    ghost var ledger: Ledger

    ghost predicate Valid()
      reads this, ChunkListsHead
    {
      ChunkListsHead.Length == NUM_CHUNK_LISTS && Kept(Word, Tag, ChunkListsHead[..], ledger)
    }

    constructor ()
      ensures Valid() && ledger == Empty() && fresh(ChunkListsHead)
    {
      ChunkListsHead := new nat[NUM_CHUNK_LISTS](_ => 0);
      Word, Tag := map[], map[];
      ledger := Empty();
      new;
      EmptyValid();
    }

    /** Threads the chunks of a new page into a list. */
    method CreatePool(chunkSize: nat, start: nat)
      requires 0 < chunkSize <= POOL_SIZE && start > 0
      modifies this`Word
      ensures Chained(Word, start, PageChunks(start, chunkSize, POOL_SIZE / chunkSize))
      ensures forall a :: a < start || a >= start + POOL_SIZE ==> (a in Word <==> a in old(Word))
      ensures forall a :: (a < start || a >= start + POOL_SIZE) && a in Word ==> Word[a] == old(Word[a])
    {
      var n := POOL_SIZE / chunkSize;
      FitIsQuotient(POOL_SIZE, chunkSize);
      var addr := start;
      var i := 0;
      assert n >= 1;
      while i < n - 1
        invariant 0 <= i <= n - 1 && addr == start + i * chunkSize
        invariant Segment(Word, start, chunkSize, i)
        invariant forall a :: a < start || a >= start + POOL_SIZE ==> (a in Word <==> a in old(Word))
        invariant forall a :: (a < start || a >= start + POOL_SIZE) && a in Word ==> Word[a] == old(Word[a])
      {
        MulStep(i, n, chunkSize);
        SegmentGrows(Word, start, chunkSize, i);
        Word := Word[addr := addr + chunkSize];
        addr := addr + chunkSize;
        i := i + 1;
      }
      MulStep(i, n, chunkSize);
      SegmentCloses(Word, start, chunkSize, i);
      Word := Word[addr := 0];
    }

    /** AllocChunk's first half: a class with an empty list gets a new page, if there is one. */
    method Refill(i: nat, page: nat)
      requires Valid() && i < NUM_CHUNK_LISTS && ledger.free[i] == [] && page > 0 && Fresh(ledger, page, POOL_SIZE)
      modifies this, ChunkListsHead
      ensures Valid() && ledger == WithPage(old(ledger), i, page) && Tag == old(Tag)
    {
      hide ValidLedger;
      ClassFits(i);
      ghost var before := Word;
      FitIsQuotient(POOL_SIZE, ChunkSize(i));
      CreatePool(ChunkSize(i), page);
      ghost var heads := ChunkListsHead[..];
      OldChainsStay(before, Word, heads, ledger, page);
      ChunkListsHead[i] := page;
      assert ChunkListsHead[..] == heads[i := page];
      WithPageValid(ledger, i, page);
      ledger := WithPage(ledger, i, page);
    }

    /** AllocChunk's second half: the head of the list becomes the block. */
    method TakeHead(i: nat, tag: nat) returns (p: nat)
      requires Valid() && i < NUM_CHUNK_LISTS && ledger.free[i] != []
      modifies this, ChunkListsHead
      ensures Valid() && ledger == Taken(old(ledger), i)
      ensures p == old(ledger).free[i][0] + CHUNK_OVERHEAD && p - CHUNK_OVERHEAD in ledger.live
      ensures Tag == old(Tag)[p - CHUNK_OVERHEAD := tag]
    {
      hide ValidLedger;
      var addr: nat := ChunkListsHead[i];
      ghost var heads := ChunkListsHead[..];
      TakenKept(Word, Tag, heads, ledger, i, tag);
      ChunkListsHead[i] := Word[addr];
      assert ChunkListsHead[..] == heads[i := Word[addr]];
      Word := Word[addr := ChunkSize(i)];
      Tag := Tag[addr := tag];
      ledger := Taken(ledger, i);
      return addr + CHUNK_OVERHEAD;
    }

    method AllocChunk(i: nat, tag: nat, page: nat) returns (p: nat)
      requires Valid() && i < NUM_CHUNK_LISTS && (page == 0 || Fresh(ledger, page, POOL_SIZE))
      modifies this, ChunkListsHead
      ensures Valid() && PerPage(i) > 0 && ledger == Allocated(old(ledger), i, page).0
      ensures p == 0 <==> old(ledger).free[i] == [] && page == 0
      ensures p != 0 ==> p == Allocated(old(ledger), i, page).1 + CHUNK_OVERHEAD && Small(ledger, p)
      ensures Tag == if p == 0 then old(Tag) else old(Tag)[p - CHUNK_OVERHEAD := tag]
    {
      hide ValidLedger;
      ClassFits(i);
      if ChunkListsHead[i] == 0 {
        if page == 0 {
          return 0;
        }
        Refill(i, page);
      }
      p := TakeHead(i, tag);
    }

    method FreeChunk(addr: nat, i: nat)
      requires Valid() && addr > 0 && addr in ledger.live && ledger.live[addr] == i
      modifies this, ChunkListsHead
      ensures Valid() && ledger == GivenBack(old(ledger), addr) && Tag == old(Tag)
    {
      hide ValidLedger;
      ghost var heads := ChunkListsHead[..];
      GivenBackKept(Word, Tag, heads, ledger, addr);
      Word := Word[addr := ChunkListsHead[i]];
      ChunkListsHead[i] := addr;
      assert ChunkListsHead[..] == heads[i := addr];
      ledger := GivenBack(ledger, addr);
    }

    /** ExAllocatePoolWithTag for a small request: a pointer to a small block is never
        page-aligned; null is. */
    method AllocateSmall(bytes: nat, tag: nat, page: nat) returns (p: nat, asserted: bool)
      requires Valid() && !Large(bytes) && Offer(ledger, bytes, page)
      modifies this, ChunkListsHead
      ensures Valid() && (ledger, p) == Allocation(old(ledger), bytes, page)
      ensures !asserted <==> page == 0 && old(ledger).free[ClassFor(bytes)] == []
      ensures Tag == if p == 0 then old(Tag) else old(Tag)[p - CHUNK_OVERHEAD := tag]
    {
      hide ValidLedger;
      ClassIsRight(bytes);
      var listIdx := (bytes + CHUNK_OVERHEAD - 1) / 32;
      p := AllocChunk(listIdx, tag, page);
      asserted := p % POOL_SIZE != 0;
      PageAligned(p);
      if p != 0 { SmallBlocksUnaligned(ledger, p - CHUNK_OVERHEAD); }
    }

    /** The memory manager's books change; the pool's own memory does not. */
    ghost method Record(m: Ledger)
      requires Valid() && ValidLedger(m) && m.free == ledger.free && m.live == ledger.live
      modifies this`ledger
      ensures Valid() && ledger == m
    {
      ledger := m;
    }

    /** The memory manager has given a large region, or none. */
    ghost method RecordLarge(bytes: nat, region: nat)
      requires Valid() && Large(bytes) && Offer(ledger, bytes, region)
      modifies this`ledger
      ensures Valid() && ledger == Allocation(old(ledger), bytes, region).0
    {
      if region != 0 {
        LargeValid(ledger, region, Rounded(bytes));
        Record(ledger.(regions := ledger.regions[region := Rounded(bytes)]));
      }
    }

    /** `region` is what the memory manager returns if it is asked; `asserted` says whether the
        source's own check of the address of a small block passes. */
    method ExAllocatePoolWithTag(bytes: nat, tag: nat, region: nat) returns (p: nat, asserted: bool)
      requires Valid() && Offer(ledger, bytes, region)
      modifies this, ChunkListsHead
      ensures Valid() && (ledger, p) == Allocation(old(ledger), bytes, region)
      ensures !asserted <==> !Large(bytes) && region == 0 && old(ledger).free[ClassFor(bytes)] == []
      ensures Tag == if Large(bytes) || p == 0 then old(Tag) else old(Tag)[p - CHUNK_OVERHEAD := tag]
    {
      hide ValidLedger;
      if bytes > POOL_SIZE / 2 - CHUNK_OVERHEAD {
        RecordLarge(bytes, region);
        p, asserted := region, true;
      } else {
        p, asserted := AllocateSmall(bytes, tag, region);
      }
    }

    /** The path is chosen by alignment alone, the class by the size in the header; `asserted`
        says whether the source's own check of the tag passes. */
    method ExFreePoolWithTag(p: nat, tag: nat) returns (asserted: bool)
      requires Valid() && Owned(ledger, p)
      modifies this, ChunkListsHead
      ensures Valid() && ledger == Freed(old(ledger), p) && Tag == old(Tag)
      ensures asserted <==> !Small(old(ledger), p) || tag == NONE_TAG || tag == 0 || old(Tag)[p - CHUNK_OVERHEAD] == tag
    {
      hide ValidLedger;
      FreeTakesTheRightPath(ledger, p);
      PageAligned(p);
      if p % POOL_SIZE == 0 {
        RegionFreedValid(ledger, p);
        Record(ledger.(regions := ledger.regions - {p}));
        return true;
      }
      var header := p - CHUNK_OVERHEAD;
      asserted := tag == NONE_TAG || tag == 0 || Tag[header] == tag;
      ClassFromSize(ledger.live[header]);
      FreeChunk(header, (Word[header] - 1) / 32);
    }

    /** `managed` is the size that the memory manager keeps for a page-aligned pointer. */
    method ExQueryPoolBlockSize(p: nat, managed: nat) returns (size: int)
      requires Valid() && Owned(ledger, p) && (p in ledger.regions && p !in ledger.pages ==> managed == ledger.regions[p])
      ensures size == Extent(ledger, p)
    {
      FreeTakesTheRightPath(ledger, p);
      PageAligned(p);
      if p % POOL_SIZE == 0 {
        return managed;
      }
      size := Word[p - CHUNK_OVERHEAD] - CHUNK_OVERHEAD;
    }
  }

  lemma MulStep(i: nat, n: nat, size: nat)
    requires i < n && size > 0
    ensures i * size + size == (i + 1) * size <= n * size
    ensures 0 <= i * size < n * size
  {
  }

  /** The first n chunks from `a` on are linked, each to the next. */
  predicate Segment(word: map<nat, nat>, a: nat, size: nat, n: nat)
    decreases n
  {
    n == 0 || (a in word && word[a] == a + size && Segment(word, a + size, size, n - 1))
  }

  lemma {:induction false} SegmentGrows(word: map<nat, nat>, a: nat, size: nat, n: nat)
    requires size > 0 && Segment(word, a, size, n)
    ensures Segment(word[a + n * size := a + n * size + size], a, size, n + 1)
    decreases n
  {
    if n > 0 {
      SegmentGrows(word, a + size, size, n - 1);
      assert a + n * size == (a + size) + (n - 1) * size;
      assert n * size >= size;
    }
  }

  lemma {:induction false} SegmentCloses(word: map<nat, nat>, a: nat, size: nat, n: nat)
    requires size > 0 && a > 0 && Segment(word, a, size, n)
    ensures Chained(word[a + n * size := 0], a, PageChunks(a, size, n + 1))
    decreases n
  {
    var w := word[a + n * size := 0];
    if n > 0 {
      SegmentCloses(word, a + size, size, n - 1);
      assert a + n * size == (a + size) + (n - 1) * size;
      assert n * size >= size;
      assert PageChunks(a, size, n + 1) == [a] + PageChunks(a + size, size, n);
    } else {
      assert PageChunks(a, size, 1) == [a];
    }
  }

  // ---------- the ledger stays valid ----------

  lemma EmptyValid()
    ensures ValidLedger(Empty())
  {
    forall i | 0 <= i < NUM_CHUNK_LISTS ensures ValidClass(Empty(), i) {
      assert LiveOf(Empty().live, i) == {} && PagesOf(Empty().pages, i) == {};
    }
  }

  lemma {:induction false} ChainedSame(word: map<nat, nat>, word': map<nat, nat>, head: nat, list: seq<nat>)
    requires Chained(word, head, list)
    requires forall a :: a in list && a in word ==> a in word' && word'[a] == word[a]
    ensures Chained(word', head, list)
    decreases |list|
  {
    if list != [] {
      assert head in list;
      assert forall a :: a in list[1..] ==> a in list;
      ChainedSame(word, word', word[head], list[1..]);
    }
  }

  lemma ClassFits(i: nat)
    requires i < NUM_CHUNK_LISTS
    ensures ChunkSize(i) <= POOL_SIZE / 2 && PerPage(i) >= 2
  {
    var size := ChunkSize(i);
    assert Fit(POOL_SIZE, size) == 1 + Fit(POOL_SIZE - size, size);
    assert Fit(POOL_SIZE - size, size) >= 1;
  }

  /** The size in a header leads back to the class it was cut for. */
  lemma ClassFromSize(i: nat)
    ensures (ChunkSize(i) - 1) / 32 == i
  {
  }

  /** The class chosen for a request is the smallest whose chunks hold it and the header. */
  lemma ClassIsRight(bytes: nat)
    requires bytes <= POOL_SIZE / 2 - CHUNK_OVERHEAD
    ensures ClassFor(bytes) < NUM_CHUNK_LISTS
    ensures bytes + CHUNK_OVERHEAD <= ChunkSize(ClassFor(bytes)) < bytes + CHUNK_OVERHEAD + 32
  {
  }

  /** Pieces of a size in order, apart, and within a room. */
  ghost predicate Laid(s: seq<nat>, a: nat, size: nat, room: nat) {
    && (forall j :: 0 <= j < |s| ==> a <= s[j] && s[j] + size <= a + room)
    && (forall j, k :: 0 <= j < k < |s| ==> s[j] + size <= s[k])
  }

  lemma {:induction false} ChunksAreLaid(a: nat, size: nat, room: nat)
    requires size > 0
    ensures Laid(PageChunks(a, size, Fit(room, size)), a, size, room)
    decreases room
  {
    if room >= size {
      ChunksAreLaid(a + size, size, room - size);
      LaidBefore(PageChunks(a + size, size, Fit(room - size, size)), a, size, room);
    }
  }

  lemma LaidBefore(s: seq<nat>, a: nat, size: nat, room: nat)
    requires room >= size && Laid(s, a + size, size, room - size)
    ensures Laid([a] + s, a, size, room)
  {
    var r := [a] + s;
    forall j | 0 <= j < |r| ensures a <= r[j] && r[j] + size <= a + room {
      if j > 0 { assert r[j] == s[j - 1]; }
    }
    forall j, k | 0 <= j < k < |r| ensures r[j] + size <= r[k] {
      assert r[k] == s[k - 1];
      if j > 0 { assert r[j] == s[j - 1]; }
    }
  }

  lemma {:induction false} ChunksAreAligned(a: nat, size: nat, n: nat)
    requires Aligned(a, 32) && Aligned(size, 32)
    ensures forall x :: x in PageChunks(a, size, n) ==> Aligned(x, 32)
    decreases n
  {
    if n > 0 {
      AlignedSum(a, size, 32);
      ChunksAreAligned(a + size, size, n - 1);
    }
  }

  /** The chunks cut from a page are different, apart, and within the page. */
  lemma CutChunks(i: nat, page: nat)
    requires Aligned(page, PAGE_SIZE)
    ensures NoDup(Cut(i, page))
    ensures forall a :: a in Cut(i, page) ==> Aligned(a, 32) && page <= a && a + ChunkSize(i) <= page + PAGE_SIZE
    ensures forall a, b :: a in Cut(i, page) && b in Cut(i, page) && a != b ==> Apart(a, ChunkSize(i), b, ChunkSize(i))
  {
    var s := Cut(i, page);
    assert Laid(s, page, ChunkSize(i), POOL_SIZE) by { ChunksAreLaid(page, ChunkSize(i), POOL_SIZE); }
    assert forall a :: a in Cut(i, page) ==> Aligned(a, 32) by {
      PagesAreFiner(page);
      SizesAreAligned(i);
      ChunksAreAligned(page, ChunkSize(i), PerPage(i));
    }
  }

  /** Nothing that was cut before lies in a fresh region. */
  lemma PageOutside(l: Ledger, page: nat)
    requires ValidLedger(l) && Fresh(l, page, POOL_SIZE)
    ensures page !in l.pages && page !in l.regions
    ensures forall a :: a in l.chunks ==> a + ChunkSize(l.chunks[a].cls) <= page || a >= page + POOL_SIZE
  {
    assert page !in l.regions;
    forall a | a in l.chunks ensures a + ChunkSize(l.chunks[a].cls) <= page || a >= page + POOL_SIZE {
      assert InPage(l.pages, a, l.chunks[a]);
      assert Apart(page, POOL_SIZE, l.chunks[a].page, l.regions[l.chunks[a].page]);
    }
  }

  /** What is cut from a fresh page is new and apart from what was cut before. */
  lemma CutIsNew(l: Ledger, i: nat, page: nat)
    requires ValidLedger(l) && Fresh(l, page, POOL_SIZE)
    ensures forall a :: a in Cut(i, page) ==> a !in l.chunks
    ensures forall a, b :: a in Cut(i, page) && b in l.chunks ==>
              Apart(a, ChunkSize(i), b, ChunkSize(l.chunks[b].cls))
  {
    assert forall b :: b in l.chunks ==> b + ChunkSize(l.chunks[b].cls) <= page || b >= page + POOL_SIZE by {
      PageOutside(l, page);
    }
    assert forall a :: a in Cut(i, page) ==> page <= a && a + ChunkSize(i) <= page + PAGE_SIZE by { CutChunks(i, page); }
  }

  lemma GeometryGrows(chunks: map<nat, Chunk>, pages: map<nat, nat>, i: nat, page: nat)
    requires Geometry(chunks, pages) && page !in pages && Aligned(page, PAGE_SIZE)
    requires forall a :: a in Cut(i, page) ==> a !in chunks
    requires forall a, b :: a in Cut(i, page) && b in chunks ==> Apart(a, ChunkSize(i), b, ChunkSize(chunks[b].cls))
    ensures Geometry(chunks + map a | a in Cut(i, page) :: Chunk(i, page), pages[page := i])
  {
    var c := chunks + map a | a in Cut(i, page) :: Chunk(i, page);
    CutChunks(i, page);
    forall a | a in c ensures InPage(pages[page := i], a, c[a]) {
      if a !in Cut(i, page) { assert InPage(pages, a, chunks[a]); }
    }
    forall a, b | a in c && b in c && a != b ensures Apart(a, ChunkSize(c[a].cls), b, ChunkSize(c[b].cls)) {
      if a in Cut(i, page) {
        if b !in Cut(i, page) { assert b in chunks; }
      } else {
        assert a in chunks;
        if b !in Cut(i, page) { assert b in chunks; }
      }
    }
  }

  lemma WithPageGeometry(l: Ledger, i: nat, page: nat)
    requires ValidLedger(l) && i < NUM_CHUNK_LISTS && Fresh(l, page, POOL_SIZE)
    ensures Geometry(WithPage(l, i, page).chunks, WithPage(l, i, page).pages)
    ensures forall a :: a in Cut(i, page) ==> a !in l.chunks
  {
    assert page !in l.pages by { PageOutside(l, page); }
    CutIsNew(l, i, page);
    GeometryGrows(l.chunks, l.pages, i, page);
  }

  lemma OnePageMore(pages: map<nat, nat>, i: nat, page: nat)
    requires page !in pages
    ensures Chunks(|PagesOf(pages[page := i], i)|, i) == Chunks(|PagesOf(pages, i)|, i) + PerPage(i)
    ensures forall j: nat :: j != i ==> PagesOf(pages[page := i], j) == PagesOf(pages, j)
  {
    assert PagesOf(pages[page := i], i) == PagesOf(pages, i) + {page};
  }

  lemma WithPageClass(l: Ledger, i: nat, page: nat, j: nat)
    requires ValidLedger(l) && i < NUM_CHUNK_LISTS && j < NUM_CHUNK_LISTS && l.free[i] == [] && Fresh(l, page, POOL_SIZE)
    ensures ValidClass(WithPage(l, i, page), j)
  {
    assert ValidClass(l, j);
    WithPageGeometry(l, i, page);
    PageOutside(l, page);
    OnePageMore(l.pages, i, page);
    if j == i {
      CutChunks(i, page);
      assert forall a :: a in Cut(i, page) ==> a !in l.live;
    } else {
      assert forall a :: a in l.free[j] ==> IsChunk(l.chunks, a, j);
    }
  }

  lemma NewRegion(l: Ledger, b: nat, length: nat)
    requires RegionsApart(l.regions) && PagesOwned(l.pages, l.regions) && Fresh(l, b, length) && length > 0
    ensures b !in l.regions
    ensures RegionsApart(l.regions[b := length]) && PagesOwned(l.pages, l.regions[b := length])
  {
    assert b !in l.regions;
  }

  lemma WithPageValid(l: Ledger, i: nat, page: nat)
    requires ValidLedger(l) && i < NUM_CHUNK_LISTS && l.free[i] == [] && Fresh(l, page, POOL_SIZE)
    ensures ValidLedger(WithPage(l, i, page))
  {
    var m := WithPage(l, i, page);
    PageOutside(l, page);
    WithPageGeometry(l, i, page);
    NewRegion(l, page, PAGE_SIZE);
    assert LiveChunks(m.live, m.chunks);
    forall j | 0 <= j < NUM_CHUNK_LISTS ensures ValidClass(m, j) {
      WithPageClass(l, i, page, j);
    }
  }

  lemma OneBlockMore(live: map<nat, nat>, i: nat, a: nat)
    requires a !in live
    ensures |LiveOf(live[a := i], i)| == |LiveOf(live, i)| + 1
    ensures forall j: nat :: j != i ==> LiveOf(live[a := i], j) == LiveOf(live, j)
  {
    assert LiveOf(live[a := i], i) == LiveOf(live, i) + {a};
  }

  /** The head of a list is on no other list and not in use. */
  ghost predicate HeadIsOut(l: Ledger, i: nat)
    requires i < NUM_CHUNK_LISTS == |l.free| && l.free[i] != []
  {
    var a := l.free[i][0];
    && a > 0 && Aligned(a, 32) && a !in l.live && IsChunk(l.chunks, a, i)
    && a !in l.free[i][1..] && forall j :: 0 <= j < NUM_CHUNK_LISTS && j != i ==> a !in l.free[j]
  }

  lemma HeadsAreOut(l: Ledger)
    requires ValidLedger(l)
    ensures forall i :: 0 <= i < NUM_CHUNK_LISTS && l.free[i] != [] ==> HeadIsOut(l, i)
  {
    forall i | 0 <= i < NUM_CHUNK_LISTS && l.free[i] != [] ensures HeadIsOut(l, i) {
      var a := l.free[i][0];
      assert ValidClass(l, i) && a in l.free[i];
      assert IsChunk(l.chunks, a, i) && InPage(l.pages, a, l.chunks[a]);
      forall j | 0 <= j < NUM_CHUNK_LISTS && j != i ensures a !in l.free[j] {
        assert ValidClass(l, j);
        assert forall x :: x in l.free[j] ==> IsChunk(l.chunks, x, j);
      }
    }
  }

  lemma FreeListPop(list: seq<nat>, i: nat, live: map<nat, nat>, chunks: map<nat, Chunk>)
    requires FreeList(list, i, live, chunks) && list != []
    ensures FreeList(list[1..], i, live[list[0] := i], chunks)
  {
    assert forall a :: a in list[1..] ==> a in list && a != list[0];
  }

  lemma TakenValid(l: Ledger, i: nat)
    requires ValidLedger(l) && i < NUM_CHUNK_LISTS && l.free[i] != []
    ensures ValidLedger(Taken(l, i))
  {
    var m, a := Taken(l, i), l.free[i][0];
    assert HeadIsOut(l, i) by { HeadsAreOut(l); }
    OneBlockMore(l.live, i, a);
    forall j | 0 <= j < NUM_CHUNK_LISTS ensures ValidClass(m, j) {
      assert ValidClass(l, j);
      if j == i { FreeListPop(l.free[i], i, l.live, l.chunks); }
    }
  }

  /** Writing to a fresh page touches no chain and no header. */
  lemma OldChainsStay(word: map<nat, nat>, word': map<nat, nat>, heads: seq<nat>, l: Ledger, page: nat)
    requires ValidLedger(l) && Fresh(l, page, POOL_SIZE)
    requires Sized(word, l.live) && Linked(word, heads, l.free)
    requires forall a :: (a < page || a >= page + POOL_SIZE) && a in word ==> a in word' && word'[a] == word[a]
    ensures Sized(word', l.live) && Linked(word', heads, l.free)
  {
    PageOutside(l, page);
    forall j | 0 <= j < NUM_CHUNK_LISTS ensures Chained(word', heads[j], l.free[j]) {
      assert ValidClass(l, j);
      ChainedSame(word, word', heads[j], l.free[j]);
    }
  }

  /** Storing into the head of a list takes it off its list and leaves the others alone. */
  lemma LinkedPop(word: map<nat, nat>, heads: seq<nat>, free: seq<seq<nat>>, i: nat, w: nat)
    requires Linked(word, heads, free) && i < |free| && free[i] != []
    requires free[i][0] !in free[i][1..] && forall j :: 0 <= j < |free| && j != i ==> free[i][0] !in free[j]
    ensures heads[i] == free[i][0] && heads[i] in word
    ensures Linked(word[heads[i] := w], heads[i := word[heads[i]]], free[i := free[i][1..]])
  {
    var a := heads[i];
    assert Chained(word, a, free[i]);
    var word', heads', free' := word[a := w], heads[i := word[a]], free[i := free[i][1..]];
    forall j | 0 <= j < |heads'| ensures Chained(word', heads'[j], free'[j]) {
      if j == i {
        ChainedElsewhere(word, a, w, word[a], free[i][1..]);
      } else {
        ChainedElsewhere(word, a, w, heads[j], free[j]);
      }
    }
  }

  lemma TakenKept(word: map<nat, nat>, tag: map<nat, nat>, heads: seq<nat>, l: Ledger, i: nat, t: nat)
    requires Kept(word, tag, heads, l) && i < NUM_CHUNK_LISTS && l.free[i] != []
    ensures heads[i] == l.free[i][0] && heads[i] in word
    ensures Kept(word[heads[i] := ChunkSize(i)], tag[heads[i] := t], heads[i := word[heads[i]]], Taken(l, i))
  {
    assert |l.free| == |heads| == NUM_CHUNK_LISTS;
    assert HeadIsOut(l, i) by { HeadsAreOut(l); }
    assert ValidLedger(Taken(l, i)) by { TakenValid(l, i); }
    LinkedPop(word, heads, l.free, i, ChunkSize(i));
    hide ValidLedger, Linked, HeadIsOut;
  }

  lemma LinkedPush(word: map<nat, nat>, heads: seq<nat>, free: seq<seq<nat>>, i: nat, a: nat)
    requires Linked(word, heads, free) && i < |free| && a > 0
    requires forall j :: 0 <= j < |free| ==> a !in free[j]
    ensures Linked(word[a := heads[i]], heads[i := a], free[i := [a] + free[i]])
  {
    var word', heads', free' := word[a := heads[i]], heads[i := a], free[i := [a] + free[i]];
    forall j | 0 <= j < |heads'| ensures Chained(word', heads'[j], free'[j]) {
      ChainedElsewhere(word, a, heads[i], heads[j], free[j]);
      assert j == i ==> ([a] + free[i])[1..] == free[i];
    }
  }

  lemma FreeListPush(list: seq<nat>, i: nat, a: nat, live: map<nat, nat>, chunks: map<nat, Chunk>)
    requires FreeList(list, i, live, chunks) && a in live
    ensures a !in list && FreeList(list, i, live - {a}, chunks)
    ensures IsChunk(chunks, a, i) ==> FreeList([a] + list, i, live - {a}, chunks)
  {
  }

  lemma LiveIsNotFree(l: Ledger, a: nat)
    requires ValidLedger(l) && a in l.live
    ensures IsChunk(l.chunks, a, l.live[a]) && l.live[a] < NUM_CHUNK_LISTS == |l.free|
    ensures forall j :: 0 <= j < NUM_CHUNK_LISTS ==> a !in l.free[j]
  {
    forall j | 0 <= j < NUM_CHUNK_LISTS ensures a !in l.free[j] { assert ValidClass(l, j); }
  }

  lemma GivenBackClass(l: Ledger, a: nat, j: nat)
    requires a in l.live && l.live[a] < |l.free| && j < |l.free| && ValidClass(l, j) && IsChunk(l.chunks, a, l.live[a])
    ensures ValidClass(GivenBack(l, a), j)
  {
    var m, i := GivenBack(l, a), l.live[a];
    assert m.live[a := i] == l.live;
    OneBlockMore(m.live, i, a);
    FreeListPush(l.free[j], j, a, l.live, l.chunks);
  }

  lemma GivenBackValid(l: Ledger, a: nat)
    requires ValidLedger(l) && a in l.live
    ensures l.live[a] < |l.free| && ValidLedger(GivenBack(l, a))
  {
    assert LiveChunks(l.live - {a}, l.chunks);
    forall j | 0 <= j < NUM_CHUNK_LISTS ensures ValidClass(GivenBack(l, a), j) {
      assert ValidClass(l, j);
      GivenBackClass(l, a, j);
    }
  }

  lemma GivenBackKept(word: map<nat, nat>, tag: map<nat, nat>, heads: seq<nat>, l: Ledger, a: nat)
    requires Kept(word, tag, heads, l) && a in l.live && a > 0
    ensures l.live[a] < NUM_CHUNK_LISTS
    ensures Kept(word[a := heads[l.live[a]]], tag, heads[l.live[a] := a], GivenBack(l, a))
  {
    assert l.live[a] < |l.free| && ValidLedger(GivenBack(l, a)) by { GivenBackValid(l, a); }
    LiveIsNotFree(l, a);
    LinkedPush(word, heads, l.free, l.live[a], a);
  }

  lemma RegionValid(l: Ledger, regions: map<nat, nat>)
    requires ValidLedger(l) && RegionsApart(regions) && PagesOwned(l.pages, regions)
    ensures ValidLedger(l.(regions := regions))
  {
    forall j | 0 <= j < NUM_CHUNK_LISTS ensures ValidClass(l.(regions := regions), j) {
      assert ValidClass(l, j);
    }
  }

  lemma LargeValid(l: Ledger, b: nat, length: nat)
    requires ValidLedger(l) && Fresh(l, b, length) && length > 0
    ensures ValidLedger(l.(regions := l.regions[b := length]))
  {
    NewRegion(l, b, length);
    RegionValid(l, l.regions[b := length]);
  }

  lemma RegionFreedValid(l: Ledger, b: nat)
    requires ValidLedger(l) && b in l.regions && b !in l.pages
    ensures ValidLedger(l.(regions := l.regions - {b}))
  {
    RegionValid(l, l.regions - {b});
  }

  // ---------- what the pool promises ----------

  /** A request goes to the memory manager exactly when no chunk of any class holds it. */
  lemma LargeExactly(bytes: nat)
    ensures Large(bytes) <==> forall i :: 0 <= i < NUM_CHUNK_LISTS ==> ChunkSize(i) < bytes + CHUNK_OVERHEAD
  {
    assert ChunkSize(NUM_CHUNK_LISTS - 1) == POOL_SIZE / 2;
    forall i | 0 <= i < NUM_CHUNK_LISTS ensures ChunkSize(i) <= POOL_SIZE / 2 { ClassFits(i); }
  }

  /** It is then met with the fewest whole pages that hold it. */
  lemma FewestPages(bytes: nat)
    ensures Rounded(bytes) % PAGE_SIZE == 0 && bytes <= Rounded(bytes) < bytes + PAGE_SIZE
  {
  }

  lemma Misaligned(a: nat)
    requires Aligned(a, 32)
    ensures !Aligned(a + CHUNK_OVERHEAD, POOL_SIZE)
  {
    if Aligned(a + CHUNK_OVERHEAD, POOL_SIZE) {
      PagesAreFiner(a + CHUNK_OVERHEAD);
      ChunkAligned(a + CHUNK_OVERHEAD);
      ChunkAligned(a);
    }
  }

  /** The address of a small block is never page-aligned, so freeing it picks the right path. */
  lemma SmallBlocksUnaligned(l: Ledger, a: nat)
    requires ValidLedger(l) && a in l.live
    ensures !Aligned(a + CHUNK_OVERHEAD, POOL_SIZE) && a > 0
  {
    assert InPage(l.pages, a, l.chunks[a]);
    Misaligned(a);
  }

  /** Freeing looks only at the alignment of the pointer; that is enough. */
  lemma FreeTakesTheRightPath(l: Ledger, p: nat)
    requires ValidLedger(l) && Owned(l, p)
    ensures Aligned(p, POOL_SIZE) <==> !Small(l, p)
    ensures Small(l, p) ==> p > CHUNK_OVERHEAD
  {
    hide ValidLedger;
    if Small(l, p) { SmallBlocksUnaligned(l, p - CHUNK_OVERHEAD); } else { RegionsAreAligned(l, p); }
  }

  lemma RegionsAreAligned(l: Ledger, p: nat)
    requires ValidLedger(l) && p in l.regions
    ensures p > 0 && Aligned(p, PAGE_SIZE) && l.regions[p] > 0
  {
  }

  /** No pointer is both: a block in use and a region. */
  lemma BlockOrRegion(l: Ledger, p: nat)
    requires ValidLedger(l) && Small(l, p)
    ensures p !in l.regions
  {
    SmallBlocksUnaligned(l, p - CHUNK_OVERHEAD);
    assert RegionsApart(l.regions);
  }

  /** A block in use stays within its page, header included, and is apart from every other
      block, every free chunk and every large region. */
  lemma LiveBlocksAreDisjoint(l: Ledger, a: nat, b: nat)
    requires ValidLedger(l) && a in l.live
    ensures InPage(l.pages, a, Chunk(l.live[a], l.chunks[a].page))
    ensures b in l.live && b != a ==> Apart(a, ChunkSize(l.live[a]), b, ChunkSize(l.live[b]))
    ensures forall j :: 0 <= j < NUM_CHUNK_LISTS && b in l.free[j] ==> Apart(a, ChunkSize(l.live[a]), b, ChunkSize(j))
    ensures b in l.regions && b !in l.pages ==> Apart(a, ChunkSize(l.live[a]), b, l.regions[b])
  {
    assert IsChunk(l.chunks, a, l.live[a]) && InPage(l.pages, a, l.chunks[a]);
    if b in l.live && b != a { assert IsChunk(l.chunks, b, l.live[b]); }
    forall j | 0 <= j < NUM_CHUNK_LISTS && b in l.free[j] ensures Apart(a, ChunkSize(l.live[a]), b, ChunkSize(j)) {
      assert ValidClass(l, j);
      assert IsChunk(l.chunks, b, j);
    }
    if b in l.regions && b !in l.pages {
      var c := l.chunks[a].page;
      assert Apart(c, l.regions[c], b, l.regions[b]);
    }
  }

  /** Freeing and allocating again in the same class returns the same chunk: the block went
      back to the class it came from, and everything else is as it was. */
  lemma FreeThenAllocate(l: Ledger, a: nat, page: nat)
    requires ValidLedger(l) && a in l.live
    ensures l.live[a] < |l.free|
    ensures var i := l.live[a];
            GivenBack(l, a).free[i] != [] && PerPage(i) > 0 && Allocated(GivenBack(l, a), i, page) == (l, a)
  {
    assert l.live[a] < NUM_CHUNK_LISTS == |l.free|;
    BackAndForth(l, a, page);
  }

  lemma BackAndForth(l: Ledger, a: nat, page: nat)
    requires a in l.live && l.live[a] < NUM_CHUNK_LISTS == |l.free|
    ensures var i := l.live[a];
            GivenBack(l, a).free[i] != [] && PerPage(i) > 0 && Allocated(GivenBack(l, a), i, page) == (l, a)
  {
    var i, m := l.live[a], GivenBack(l, a);
    ClassFits(i);
    assert m.free[i][1..] == l.free[i];
    assert Taken(m, i).free == l.free;
    assert Taken(m, i).live == l.live;
  }

  lemma AllocationValid(l: Ledger)
    requires ValidLedger(l)
    ensures forall bytes, region :: Offer(l, bytes, region) ==> ValidLedger(Allocation(l, bytes, region).0)
  {
    forall bytes, region | Offer(l, bytes, region) ensures ValidLedger(Allocation(l, bytes, region).0) {
      if Large(bytes) {
        if region != 0 { LargeValid(l, region, Rounded(bytes)); }
      } else {
        var i := ClassFor(bytes);
        ClassFits(i);
        if l.free[i] != [] {
          TakenValid(l, i);
        } else if region != 0 {
          WithPageValid(l, i, region);
          TakenValid(WithPage(l, i, region), i);
        }
      }
    }
  }

  /** A step that changes nothing for the owner of q. */
  predicate Leaves(l: Ledger, m: Ledger, q: nat) {
    (Owned(m, q) <==> Owned(l, q)) && (Owned(l, q) ==> Extent(m, q) == Extent(l, q))
  }

  /** A step after which p is owned, and was not before, with at least n bytes. */
  predicate Gains(l: Ledger, m: Ledger, p: nat, n: int) {
    !Owned(l, p) && Owned(m, p) && Extent(m, p) >= n
  }

  lemma TakenHolds(l: Ledger, i: nat, q: nat)
    requires ValidLedger(l) && i < NUM_CHUNK_LISTS && l.free[i] != []
    ensures var m, p := Taken(l, i), l.free[i][0] + CHUNK_OVERHEAD;
            p > CHUNK_OVERHEAD && Gains(l, m, p, ChunkSize(i) - CHUNK_OVERHEAD) && (q != p ==> Leaves(l, m, q))
  {
    var a := l.free[i][0];
    assert HeadIsOut(l, i) by { HeadsAreOut(l); }
    assert a + CHUNK_OVERHEAD !in l.regions by {
      Misaligned(a);
      assert RegionsApart(l.regions);
    }
  }

  lemma WithPageHolds(l: Ledger, i: nat, page: nat, q: nat)
    requires ValidLedger(l) && i < NUM_CHUNK_LISTS && Fresh(l, page, POOL_SIZE)
    ensures Leaves(l, WithPage(l, i, page), q)
  {
    PageOutside(l, page);
  }

  lemma NoBlockAt(l: Ledger, p: nat)
    requires ValidLedger(l) && Aligned(p, POOL_SIZE)
    ensures !Small(l, p)
  {
    forall a | a in l.live ensures !Aligned(a + CHUNK_OVERHEAD, POOL_SIZE) { SmallBlocksUnaligned(l, a); }
  }

  lemma LargeHolds(l: Ledger, bytes: nat, region: nat, q: nat)
    requires ValidLedger(l) && Large(bytes) && region > 0 && Fresh(l, region, Rounded(bytes))
    ensures var m := Allocation(l, bytes, region).0;
            Gains(l, m, region, bytes) && (q != region ==> Leaves(l, m, q))
  {
    assert region !in l.regions;
    NoBlockAt(l, region);
  }

  /** A block that is returned was not owned, holds the bytes asked for, and leaves every other
      owner its extent; no block is returned exactly when the memory manager gave none. */
  lemma AllocationHolds(l: Ledger, bytes: nat, region: nat, q: nat)
    requires ValidLedger(l) && Offer(l, bytes, region)
    ensures var (m, p) := Allocation(l, bytes, region);
            && (p == 0 <==> region == 0 && (Large(bytes) || l.free[ClassFor(bytes)] == []))
            && (p == 0 ==> m == l)
            && (p != 0 ==> Gains(l, m, p, bytes))
            && (q != p ==> Leaves(l, m, q))
  {
    hide ValidLedger;
    if Large(bytes) {
      if region != 0 { LargeHolds(l, bytes, region, q); }
    } else {
      ClassIsRight(bytes);
      SmallHolds(l, ClassFor(bytes), region, q);
    }
  }

  lemma SmallHolds(l: Ledger, i: nat, page: nat, q: nat)
    requires ValidLedger(l) && i < NUM_CHUNK_LISTS && (page == 0 || Fresh(l, page, POOL_SIZE))
    ensures PerPage(i) > 0
    ensures var (m, a) := Allocated(l, i, page);
            var p := a + CHUNK_OVERHEAD;
            && (a == 0 <==> page == 0 && l.free[i] == [])
            && (a == 0 ==> m == l)
            && (a != 0 ==> Gains(l, m, p, ChunkSize(i) - CHUNK_OVERHEAD))
            && (q != p || a == 0 ==> Leaves(l, m, q))
  {
    assert |l.free| == NUM_CHUNK_LISTS;
    hide ValidLedger;
    ClassFits(i);
    if l.free[i] != [] {
      TakenHolds(l, i, q);
    } else if page != 0 {
      WithPageHolds(l, i, page, q);
      WithPageHolds(l, i, page, page + CHUNK_OVERHEAD);
      assert ValidLedger(WithPage(l, i, page)) by { WithPageValid(l, i, page); }
      TakenHolds(WithPage(l, i, page), i, q);
    }
  }

  /** What two owners may use does not overlap. */
  lemma OwnedAreApart(l: Ledger, p: nat, q: nat)
    requires ValidLedger(l) && Owned(l, p) && Owned(l, q) && p != q
    ensures Extent(l, p) > 0 && Extent(l, q) > 0 && Apart(p, Extent(l, p), q, Extent(l, q))
  {
    if Small(l, p) {
      SmallIsApart(l, p, q);
    } else if Small(l, q) {
      SmallIsApart(l, q, p);
    } else {
      RegionsAreAligned(l, p);
      RegionsAreAligned(l, q);
      assert Apart(p, l.regions[p], q, l.regions[q]);
    }
  }

  lemma SmallIsApart(l: Ledger, p: nat, q: nat)
    requires ValidLedger(l) && Small(l, p) && Owned(l, q) && p != q
    ensures Extent(l, p) > 0 && Extent(l, q) > 0 && Apart(p, Extent(l, p), q, Extent(l, q))
  {
    hide ValidLedger;
    var a := p - CHUNK_OVERHEAD;
    if Small(l, q) {
      assert Apart(a, ChunkSize(l.live[a]), q - CHUNK_OVERHEAD, ChunkSize(l.live[q - CHUNK_OVERHEAD])) by {
        LiveBlocksAreDisjoint(l, a, q - CHUNK_OVERHEAD);
      }
    } else {
      assert Apart(a, ChunkSize(l.live[a]), q, l.regions[q]) by { LiveBlocksAreDisjoint(l, a, q); }
      RegionsAreAligned(l, q);
    }
  }

  lemma FreedValid(l: Ledger, p: nat)
    requires ValidLedger(l) && Owned(l, p)
    ensures ValidLedger(Freed(l, p))
  {
    hide ValidLedger;
    if Small(l, p) { GivenBackValid(l, p - CHUNK_OVERHEAD); } else { RegionFreedValid(l, p); }
  }

  /** Freeing ends one ownership and touches no other. */
  lemma FreedHolds(l: Ledger, p: nat, q: nat)
    requires ValidLedger(l) && Owned(l, p)
    ensures Owned(Freed(l, p), q) <==> Owned(l, q) && q != p
    ensures q != p ==> Leaves(l, Freed(l, p), q)
  {
    if Small(l, p) { BlockOrRegion(l, p); }
    FreedOnce(l, p, q);
  }

  lemma FreedOnce(l: Ledger, p: nat, q: nat)
    requires Owned(l, p) && (Small(l, p) ==> l.live[p - CHUNK_OVERHEAD] < |l.free| && p !in l.regions)
    ensures Owned(Freed(l, p), q) <==> Owned(l, q) && q != p
    ensures q != p ==> Leaves(l, Freed(l, p), q)
  {
  }

  // ---------- histories ----------

  /** Requests and frees, with what the memory manager would return. */
  datatype Op = Alloc(bytes: nat, region: nat) | Free(p: nat)

  predicate Allowed(l: Ledger, op: Op) {
    match op
    case Alloc(bytes, region) => |l.free| == NUM_CHUNK_LISTS && Offer(l, bytes, region)
    case Free(p) => Owned(l, p) && (Small(l, p) ==> l.live[p - CHUNK_OVERHEAD] < |l.free|)
  }

  function Step(l: Ledger, op: Op): Ledger
    requires Allowed(l, op)
  {
    match op
    case Alloc(bytes, region) => Allocation(l, bytes, region).0
    case Free(p) => Freed(l, p)
  }

  ghost predicate IsHistory(ls: seq<Ledger>, ops: seq<Op>) {
    && |ls| == |ops| + 1 && ls[0] == Empty()
    && forall i {:trigger ops[i]} :: 0 <= i < |ops| ==> Allowed(ls[i], ops[i]) && ls[i + 1] == Step(ls[i], ops[i])
  }

  /** Whatever is allocated and freed, in whatever order, and whenever memory runs out: the free
      lists hold no duplicates, and per class free and live chunks are all that was cut. */
  lemma {:induction false} HistoriesAreValid(ls: seq<Ledger>, ops: seq<Op>, k: nat)
    requires IsHistory(ls, ops) && k < |ls|
    ensures forall j :: 0 <= j <= k ==> ValidLedger(ls[j])
  {
    if k == 0 {
      EmptyValid();
    } else {
      HistoriesAreValid(ls, ops, k - 1);
      var l, op := ls[k - 1], ops[k - 1];
      assert Allowed(l, op) && ls[k] == Step(l, op);
      match op {
        case Alloc(bytes, region) => AllocationValid(l);
        case Free(p) => FreedValid(l, p);
      }
    }
  }

  /** A block keeps its extent until it is freed. */
  lemma {:induction false} BlocksStay(ls: seq<Ledger>, ops: seq<Op>, i: nat, k: nat, p: nat)
    requires IsHistory(ls, ops) && i <= k < |ls| && Owned(ls[i], p)
    requires forall t :: i <= t < k ==> ops[t] != Free(p)
    ensures Owned(ls[k], p) && Extent(ls[k], p) == Extent(ls[i], p)
    decreases k
  {
    if i < k {
      BlocksStay(ls, ops, i, k - 1, p);
      assert ValidLedger(ls[k - 1]) by { HistoriesAreValid(ls, ops, k - 1); }
      assert Allowed(ls[k - 1], ops[k - 1]) && ls[k] == Step(ls[k - 1], ops[k - 1]);
      StepKeepsOthers(ls[k - 1], ops[k - 1], p);
    }
  }

  lemma StepKeepsOthers(l: Ledger, op: Op, p: nat)
    requires ValidLedger(l) && Allowed(l, op) && Owned(l, p) && op != Free(p)
    ensures Owned(Step(l, op), p) && Extent(Step(l, op), p) == Extent(l, p)
  {
    match op {
      case Alloc(bytes, region) => AllocationHolds(l, bytes, region, p);
      case Free(q) => FreedHolds(l, q, p);
    }
  }

  /** Over every history: what the i-th request was given holds the bytes it asked for until it
      is freed, and all that while overlaps nothing that anyone else owns. */
  lemma BlocksKeepTheirBytes(ls: seq<Ledger>, ops: seq<Op>, i: nat, k: nat, p: nat)
    requires IsHistory(ls, ops) && i < k < |ls| && ops[i].Alloc? && |ls[i].free| == NUM_CHUNK_LISTS
    requires p == Allocation(ls[i], ops[i].bytes, ops[i].region).1 && p != 0
    requires forall t :: i < t < k ==> ops[t] != Free(p)
    ensures Owned(ls[k], p) && Extent(ls[k], p) >= ops[i].bytes
    ensures forall q :: Owned(ls[k], q) && q != p ==> Apart(p, ops[i].bytes, q, Extent(ls[k], q))
  {
    HistoriesAreValid(ls, ops, i);
    assert Allowed(ls[i], ops[i]) && ls[i + 1] == Step(ls[i], ops[i]);
    AllocationHolds(ls[i], ops[i].bytes, ops[i].region, p);
    BlocksStay(ls, ops, i + 1, k, p);
    HistoriesAreValid(ls, ops, k);
    forall q | Owned(ls[k], q) && q != p ensures Apart(p, ops[i].bytes, q, Extent(ls[k], q)) {
      OwnedAreApart(ls[k], p, q);
    }
  }

  /** The address assertion fails on a small request to an empty heap when there is no memory:
      it takes the null pointer for a page-aligned block. */
  lemma OutOfMemoryLooksAligned(bytes: nat)
    requires !Large(bytes)
    ensures ValidLedger(Empty()) && Offer(Empty(), bytes, 0)
    ensures Allocation(Empty(), bytes, 0) == (Empty(), 0) && 0 % POOL_SIZE == 0
  {
    EmptyValid();
    ClassFits(ClassFor(bytes));
  }
}
