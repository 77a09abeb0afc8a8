/** Whole runs of malloc, calloc and free on one heap, from heap_init on. */
module HeapRuns {
  import opened Words
  import opened HeapBlocks

  datatype Op =
    | Malloc(size: nat)
    | Calloc(num: nat, size: nat)
    | Free(ptr: nat)

  /** What a caller holds: how many bytes it asked for and the block it was given. */
  datatype Grant = Grant(request: nat, block: Block)

  /** `live` maps each pointer handed out and not yet freed to its grant, as it was made. */
  datatype State = State(blocks: seq<Block>, live: map<nat, Grant>)

  /** The number of bytes the caller meant. */
  function Request(op: Op): nat
    requires !op.Free?
  {
    match op
    case Malloc(n) => n
    case Calloc(num, n) => num * n
  }

  /** The aligned size that the allocator makes of it, in 32 bits. */
  function Taken(op: Op): nat
    requires !op.Free?
  {
    Align(Request(op) % U32)
  }

  /** The arguments are 32-bit values. */
  predicate SmallArguments(op: Op)
  {
    match op
    case Malloc(n) => n < U32
    case Calloc(num, n) => num < U32 && n < U32
    case Free(_) => true
  }

  function Allocated(start: nat, s: State, request: nat): State
  {
    var n := Align(request % U32);
    var b := Granted(start, s.blocks, n);
    State(Allocate(start, s.blocks, n), s.live[b.addr + HDR := Grant(request, b)])
  }

  function Freed(start: nat, s: State, p: nat): State
  {
    if p < start || p < HDR then s
    else State(Release(s.blocks, p - HDR), s.live - {p})
  }

  function Step(start: nat, s: State, op: Op): State
  {
    if op.Free? then Freed(start, s, op.ptr) else Allocated(start, s, Request(op))
  }

  /** What the allocator demands of its callers: sizes are 32-bit values, the memory below
      `limit` suffices, and free gets a live pointer or one below the heap. */
  ghost predicate Legal(start: nat, limit: nat, s: State, op: Op)
  {
    match op
    case Malloc(n) => n < U32 && End(start, Step(start, s, op).blocks) <= limit
    case Calloc(num, n) => num < U32 && n < U32 && End(start, Step(start, s, op).blocks) <= limit
    case Free(p) => p < start || p in s.live
  }

  function Run(start: nat, ops: seq<Op>): State
  {
    if ops == [] then State([], map[])
    else Step(start, Run(start, ops[..|ops| - 1]), ops[|ops| - 1])
  }

  ghost predicate LegalRun(start: nat, limit: nat, ops: seq<Op>)
  {
    ops == [] ||
    (LegalRun(start, limit, ops[..|ops| - 1]) &&
     Legal(start, limit, Run(start, ops[..|ops| - 1]), ops[|ops| - 1]))
  }

  lemma RunSnoc(start: nat, ops: seq<Op>, op: Op)
    ensures Run(start, ops + [op]) == Step(start, Run(start, ops), op)
    ensures forall limit :: LegalRun(start, limit, ops + [op]) <==>
              LegalRun(start, limit, ops) && Legal(start, limit, Run(start, ops), op)
  {
    assert (ops + [op])[..|ops|] == ops;
  }

  /** The request is covered unless it wraps 32 bits when aligned. */
  ghost predicate Enough(request: nat, b: Block)
  {
    request <= b.size <==> request <= 0xFFFF_FFE0
  }

  /** The blocks in use are exactly those granted, each found at its pointer. */
  ghost predicate Tracked(us: set<Block>, live: map<nat, Grant>)
  {
    && us == (set p | p in live :: live[p].block)
    && (forall p :: p in live ==> live[p].block.addr + HDR == p && Enough(live[p].request, live[p].block))
  }

  ghost predicate Safe(start: nat, limit: nat, s: State)
  {
    WellFormed(start, s.blocks) && End(start, s.blocks) <= limit && Tracked(Used(s.blocks), s.live)
  }

  lemma GrantIsUsed(us: set<Block>, live: map<nat, Grant>, p: nat)
    requires Tracked(us, live) && p in live
    ensures live[p].block in us
  {
  }

  lemma TrackedAdd(us: set<Block>, live: map<nat, Grant>, g: Block, request: nat)
    requires Tracked(us, live) && Enough(request, g) && g.addr + HDR !in live
    ensures Tracked(us + {g}, live[g.addr + HDR := Grant(request, g)])
  {
    var live' := live[g.addr + HDR := Grant(request, g)];
    forall p | p in live
      ensures live[p].block in set p | p in live' :: live'[p].block
    {
      assert p in live' && live'[p].block == live[p].block;
    }
    assert live'[g.addr + HDR].block == g;
    assert us + {g} == set p | p in live' :: live'[p].block;
  }

  lemma TrackedRemove(us: set<Block>, live: map<nat, Grant>, p: nat)
    requires Tracked(us, live) && p in live
    ensures Tracked(us - {live[p].block}, live - {p})
  {
    var live' := live - {p};
    forall b | b in us && b != live[p].block
      ensures b in set q | q in live' :: live'[q].block
    {
      var q :| q in live && live[q].block == b;
      assert q in live' && live'[q].block == b;
    }
    assert us - {live[p].block} == set q | q in live' :: live'[q].block;
  }

  /** There is memory behind the heap, should n aligned bytes need it. */
  ghost predicate Room(start: nat, limit: nat, bs: seq<Block>, n: nat)
  {
    FirstFit(bs, n) == |bs| ==> End(start, bs) + HDR + n <= limit
  }

  /** An allocation is legal if its arguments are 32-bit values and there is room: only a
      request that no free block fits needs memory behind the heap. */
  lemma LegalAllocation(start: nat, limit: nat, s: State, op: Op)
    requires WellFormed(start, s.blocks) && End(start, s.blocks) <= limit && !op.Free?
    ensures Legal(start, limit, s, op) <==> SmallArguments(op) && Room(start, limit, s.blocks, Taken(op))
  {
    AlignCovers(Request(op) % U32);
    GrantedFacts(start, s.blocks, Taken(op));
  }

  /** A 32-bit request is the number of bytes the caller meant. */
  lemma SmallRequest(n: nat)
    requires n < U32
    ensures Taken(Malloc(n)) == Align(n)
  {
  }

  lemma AllocateSafe(start: nat, limit: nat, s: State, request: nat)
    requires Safe(start, limit, s) && limit <= U32
    requires End(start, Allocate(start, s.blocks, Align(request % U32))) <= limit
    ensures Safe(start, limit, Allocated(start, s, request))
  {
    var n := Align(request % U32);
    GrantEnough(start, limit, s.blocks, request, n);
    GrantTracked(start, s, request, n, Granted(start, s.blocks, n));
  }

  lemma GrantEnough(start: nat, limit: nat, bs: seq<Block>, request: nat, n: nat)
    requires WellFormed(start, bs) && n == Align(request % U32)
    requires End(start, Allocate(start, bs, n)) <= limit <= U32
    ensures n % 32 == 0 && WellFormed(start, Allocate(start, bs, n)) && Enough(request, Granted(start, bs, n))
  {
    AlignCovers(request % U32);
    GrantedFacts(start, bs, n);
    EnoughSize(limit, request, Granted(start, bs, n));
  }

  lemma GrantTracked(start: nat, s: State, request: nat, n: nat, b: Block)
    requires WellFormed(start, s.blocks) && n % 32 == 0 && Tracked(Used(s.blocks), s.live)
    requires b == Granted(start, s.blocks, n) && Enough(request, b)
    ensures Tracked(Used(Allocate(start, s.blocks, n)), s.live[b.addr + HDR := Grant(request, b)])
  {
    assert Used(Allocate(start, s.blocks, n)) == Used(s.blocks) + {b} by {
      AllocateUsed(start, s.blocks, n);
    }
    NotGrantedYet(start, s, n);
    TrackedAdd(Used(s.blocks), s.live, b, request);
  }

  lemma EnoughSize(limit: nat, request: nat, b: Block)
    requires b.Limit() <= limit <= U32 && Align(request % U32) <= b.size < Align(request % U32) + SPLIT_MIN
    ensures Enough(request, b)
  {
  }

  /** The pointer handed out was not live before. */
  lemma NotGrantedYet(start: nat, s: State, n: nat)
    requires WellFormed(start, s.blocks) && n % 32 == 0 && Tracked(Used(s.blocks), s.live)
    ensures Granted(start, s.blocks, n).addr + HDR !in s.live
  {
    var p := Granted(start, s.blocks, n).addr + HDR;
    GrantedFacts(start, s.blocks, n);
    if p in s.live {
      GrantIsUsed(Used(s.blocks), s.live, p);
      var i := IndexOf(s.blocks, s.live[p].block);
      KeptByAllocate(start, s.blocks, n, i);
    }
  }

  lemma IndexOf(us: seq<Block>, b: Block) returns (i: nat)
    requires b in Used(us)
    ensures i < |us| && us[i] == b && b.used
  {
    i :| 0 <= i < |us| && us[i] == b;
  }

  lemma FreeSafe(start: nat, limit: nat, s: State, p: nat)
    requires Safe(start, limit, s) && p in s.live
    ensures p >= start + HDR && Safe(start, limit, Freed(start, s, p))
  {
    var b := s.live[p].block;
    GrantIsUsed(Used(s.blocks), s.live, p);
    var i := IndexOf(s.blocks, b);
    WithinEnd(start, s.blocks, i);
    ReleaseLaws(start, s.blocks, i);
    ReleaseUsed(start, s.blocks, i);
    TrackedRemove(Used(s.blocks), s.live, p);
  }

  lemma StepSafe(start: nat, limit: nat, s: State, op: Op)
    requires Safe(start, limit, s) && Legal(start, limit, s, op) && limit <= U32
    ensures Safe(start, limit, Step(start, s, op))
  {
    if !op.Free? {
      AllocateSafe(start, limit, s, Request(op));
    } else if op.ptr >= start && op.ptr >= HDR {
      FreeSafe(start, limit, s, op.ptr);
    }
  }

  /** Every reachable heap is well formed, and its used blocks are exactly the live pointers,
      each with room for its request unless that request wraps 32 bits when aligned. */
  lemma {:induction false} RunSafe(start: nat, limit: nat, ops: seq<Op>)
    requires limit <= U32 && start <= limit && LegalRun(start, limit, ops)
    ensures Safe(start, limit, Run(start, ops))
    decreases |ops|
  {
    if ops != [] {
      var ops' := ops[..|ops| - 1];
      var op := ops[|ops| - 1];
      RunSafe(start, limit, ops');
      StepSafe(start, limit, Run(start, ops'), op);
    }
  }

  lemma DisjointInState(start: nat, limit: nat, s: State, p: nat, q: nat)
    requires Safe(start, limit, s) && p in s.live && q in s.live && p != q
    ensures p >= start + 32 && (p - start) % 32 == 0
    ensures p + s.live[p].block.size <= q - 32 || q + s.live[q].block.size <= p - 32
  {
    GrantIsUsed(Used(s.blocks), s.live, p);
    GrantIsUsed(Used(s.blocks), s.live, q);
    SameBlock(start, s.blocks, s.live[p].block, s.live[q].block);
    var i := IndexOf(s.blocks, s.live[p].block);
    Aligned(start, s.blocks, i);
  }

  /** Live pointers stand on 32-byte boundaries of the heap, and two of them never share a
      byte: one block ends before the header of the other begins. */
  lemma LiveDisjoint(start: nat, limit: nat, ops: seq<Op>, p: nat, q: nat)
    requires limit <= U32 && start <= limit && LegalRun(start, limit, ops)
    requires p in Run(start, ops).live && q in Run(start, ops).live && p != q
    ensures p >= start + 32 && (p - start) % 32 == 0
    ensures var live := Run(start, ops).live;
            p + live[p].block.size <= q - 32 || q + live[q].block.size <= p - 32
  {
    RunSafe(start, limit, ops);
    DisjointInState(start, limit, Run(start, ops), p, q);
  }

  lemma KeptByStep(start: nat, limit: nat, s: State, op: Op, p: nat)
    requires Safe(start, limit, s) && Legal(start, limit, s, op) && limit <= U32
    requires p in s.live
    ensures var s' := Step(start, s, op);
            && (p in s'.live <==> op != Free(p))
            && (op != Free(p) ==> s'.live[p] == s.live[p])
  {
    if !op.Free? {
      AlignCovers(Request(op) % U32);
      NotGrantedYet(start, s, Align(Request(op) % U32));
    } else if op.ptr == p {
      FreeSafe(start, limit, s, p);
    }
  }

  /** A live block keeps its place and its size: the grant stays the one made when the pointer
      was handed out, its block stays in the list, and it goes only when it is freed. */
  lemma LiveBlockKept(start: nat, limit: nat, ops: seq<Op>, op: Op, p: nat)
    requires limit <= U32 && start <= limit && LegalRun(start, limit, ops + [op])
    requires p in Run(start, ops).live
    ensures var s, s' := Run(start, ops), Run(start, ops + [op]);
            && (p in s'.live <==> op != Free(p))
            && (op != Free(p) ==> s'.live[p] == s.live[p] && s.live[p].block in Used(s'.blocks))
  {
    assert (ops + [op])[..|ops + [op]| - 1] == ops;
    RunSafe(start, limit, ops);
    KeptByStep(start, limit, Run(start, ops), op, p);
    StepSafe(start, limit, Run(start, ops), op);
  }

  /** Once everything has been freed, the heap is one free block over its whole span. */
  lemma AllFreed(start: nat, limit: nat, ops: seq<Op>)
    requires limit <= U32 && start <= limit && LegalRun(start, limit, ops)
    requires Run(start, ops).blocks != [] && Run(start, ops).live == map[]
    ensures var bs := Run(start, ops).blocks;
            |bs| == 1 && !bs[0].used && bs[0].addr == start && bs[0].Limit() == End(start, bs)
  {
    RunSafe(start, limit, ops);
    forall b | b in Run(start, ops).blocks
      ensures !b.used
    {
      assert b.used ==> b in Used(Run(start, ops).blocks);
    }
    AllFree(start, Run(start, ops).blocks);
  }
}
