/** The Arkiv command sweep: walk a newest-first listing down the sequence axis, keep
    the lowest candidates, then dispatch them ascending under a strict replay counter.

    The node is a parameter: it answers each query for a window, or fails. */
module ArkivSweep {

  const PAGE_N: nat := 6
  const MAX_PER_SWEEP: nat := 8
  const MAX_PAGES: nat := 3
  const CAND_MAX: nat := MAX_PER_SWEEP + PAGE_N
  const MAX_RESWEEPS: nat := 8
  const UINT64_MAX: nat := 0xFFFF_FFFF_FFFF_FFFF

  type Number = s: nat | s <= UINT64_MAX

  /** What validation makes of an entity apart from its sequence number. */
  datatype Kind = Malformed | Refused | Command | LocalOp

  datatype Entity = Entity(num: Number, kind: Kind)
  {
    predicate Valid() { kind.Command? || kind.LocalOp? }
  }

  datatype Reply = Failed | Page(entities: seq<Entity>)

  /** One query: how many went before it, and the window's two exclusive bounds. */
  type Node = (nat, Number, Number) -> Reply

  datatype Candidates = Candidates(list: seq<Entity>, evicted: bool)

  datatype Ending = Complete | Incomplete | Aborted

  datatype Gather = Gather(got: Candidates, ending: Ending)

  // Gathering.

  function InsertSorted(s: seq<Entity>, e: Entity): (r: seq<Entity>)
    ensures |r| == |s| + 1
  {
    if s == [] || s[|s| - 1].num <= e.num then s + [e]
    else InsertSorted(s[..|s| - 1], e) + [s[|s| - 1]]
  }

  /** Where the insertion lands: behind everything not above it. */
  lemma {:induction false} InsertSortedAt(s: seq<Entity>, e: Entity, i: nat)
    requires i <= |s| && (forall k :: i <= k < |s| ==> e.num < s[k].num)
    requires i > 0 ==> s[i - 1].num <= e.num
    ensures InsertSorted(s, e) == s[..i] + [e] + s[i..]
  {
    if i == |s| {
      assert s[..i] == s && s[i..] == [];
    } else {
      var t := s[..|s| - 1];
      InsertSortedAt(t, e, i);
      assert t[..i] == s[..i] && t[i..] + [s[|s| - 1]] == s[i..];
    }
  }

  lemma InsertedAt(s: seq<Entity>, e: Entity, i: nat, r: seq<Entity>)
    requires i <= |s| && |r| == |s| + 1 && (forall k :: i <= k < |s| ==> e.num < s[k].num)
    requires i > 0 ==> s[i - 1].num <= e.num
    requires (forall k :: 0 <= k < i ==> r[k] == s[k]) && r[i] == e && forall k :: i < k < |r| ==> r[k] == s[k - 1]
    ensures r == InsertSorted(s, e)
  {
    InsertSortedAt(s, e, i);
    assert r == s[..i] + [e] + s[i..];
  }

  /** A full list lets a newcomer in only below its highest, which is evicted. */
  function Insert(c: Candidates, e: Entity): (c': Candidates)
    ensures |c.list| <= CAND_MAX ==> |c'.list| <= CAND_MAX
  {
    if |c.list| < CAND_MAX then Candidates(InsertSorted(c.list, e), c.evicted)
    else if c.list[CAND_MAX - 1].num <= e.num then Candidates(c.list, true)
    else Candidates(InsertSorted(c.list[..CAND_MAX - 1], e), true)
  }

  predicate InWindow(e: Entity, last: Number, floor: Number) { last < e.num < floor }

  /** The candidates after the first `n` entities of a page. */
  function Absorb(c: Candidates, page: seq<Entity>, last: Number, floor: Number, n: nat): (c': Candidates)
    requires n <= |page|
    ensures |c.list| <= CAND_MAX ==> |c'.list| <= CAND_MAX
  {
    if n == 0 then c
    else
      var c' := Absorb(c, page, last, floor, n - 1);
      if InWindow(page[n - 1], last, floor) then Insert(c', page[n - 1]) else c'
  }

  function Added(page: seq<Entity>, last: Number, floor: Number, n: nat): nat
    requires n <= |page|
  {
    if n == 0 then 0 else Added(page, last, floor, n - 1) + if InWindow(page[n - 1], last, floor) then 1 else 0
  }

  /** The lowest number the page added to the walk; the top number when it added none. */
  function LowestOf(page: seq<Entity>, last: Number, floor: Number, n: nat): Number
    requires n <= |page|
  {
    if n == 0 then UINT64_MAX
    else
      var m := LowestOf(page, last, floor, n - 1);
      if InWindow(page[n - 1], last, floor) && page[n - 1].num < m then page[n - 1].num else m
  }

  /** What one answered page means for the walk: done, or on below the lowest it showed. */
  function GatherFrom(node: Node, last: Number, floor: Number, pages: nat, c: Candidates): Gather
    decreases MAX_PAGES - pages
  {
    if MAX_PAGES <= pages then Gather(c, Incomplete)
    else
      match node(pages, last, floor)
      case Failed => Gather(c, Aborted)
      case Page(page) =>
        var n := |page|;
        var c' := Absorb(c, page, last, floor, n);
        if n < PAGE_N then Gather(c', Complete)
        else if Added(page, last, floor, n) == 0 then Gather(c', Incomplete)
        else if LowestOf(page, last, floor, n) <= last + 1 then Gather(c', Complete)
        else GatherFrom(node, last, LowestOf(page, last, floor, n), pages + 1, c')
  }

  const NONE: Candidates := Candidates([], false)

  function Gathered(node: Node, last: Number): Gather {
    GatherFrom(node, last, UINT64_MAX, 0, NONE)
  }

  // Dispatching.

  datatype Progress = Progress(at: nat, last: Number, log: seq<Entity>, stop: bool)

  /** One candidate: skipped at or below the counter, otherwise validated; acceptance
      moves the counter to it. */
  function Try(p: Progress, e: Entity): Progress {
    if p.last < e.num && e.Valid() then
      Progress(p.at + 1, e.num, p.log + [e], e.kind.LocalOp? || MAX_PER_SWEEP <= |p.log| + 1)
    else p.(at := p.at + 1)
  }

  function Dispatch(list: seq<Entity>, p: Progress): (p': Progress)
    requires p.at <= |list|
    ensures p.at <= p'.at <= |list|
    decreases |list| - p.at
  {
    if p.at == |list| || p.stop then p else Dispatch(list, Try(p, list[p.at]))
  }

  /** The counter, what was dispatched, how many candidates were attempted, and
      whether the sweep reports more. */
  datatype Sweep = Sweep(last: Number, log: seq<Entity>, attempted: seq<Entity>, more: bool)

  function SweepOf(g: Gather, last: Number): Sweep {
    if g.ending.Aborted? then Sweep(last, [], [], false)
    else
      var p := Dispatch(g.got.list, Progress(0, last, [], false));
      Sweep(p.last, p.log, g.got.list[..p.at],
            p.log != [] && (p.at < |g.got.list| || g.got.evicted || g.ending.Incomplete?))
  }

  function SweepOnce(node: Node, last: Number): Sweep { SweepOf(Gathered(node, last), last) }

  /** Re-arm while a sweep reports more: `k` more sweeps at most. */
  function Rearm(node: Node, last: Number, k: nat): seq<Entity>
    decreases k
  {
    var s := SweepOnce(node, last);
    if s.more && k > 0 then s.log + Rearm(node, s.last, k - 1) else s.log
  }

  /** The sweep as the firmware runs it: one static candidate array, and the counter. */
  class Sweeper {
    const cand: array<Entity>
    var nc: nat
    var evicted: bool
    var lastCtr: Number

    ghost predicate Valid() reads this { cand.Length == CAND_MAX && nc <= CAND_MAX }

    ghost function Held(): (c: Candidates)
      requires Valid()
      reads this, cand
      ensures |c.list| <= CAND_MAX
    {
      Candidates(cand[..nc], evicted)
    }

    constructor (last: Number)
      ensures Valid() && fresh(cand) && Held() == NONE && lastCtr == last
    {
      cand := new Entity[CAND_MAX](_ => Entity(0, Malformed));
      nc, evicted, lastCtr := 0, false, last;
    }

    /** Shift what is above the newcomer up by one and drop it into the gap. */
    method Place(e: Entity)
      requires Valid() && nc < CAND_MAX
      modifies this`nc, cand
      ensures Valid() && cand[..nc] == InsertSorted(old(cand[..nc]), e)
    {
      ghost var kept := cand[..nc];
      var i := nc;
      nc := nc + 1;
      while i > 0 && cand[i - 1].num > e.num
        invariant 0 <= i < nc <= CAND_MAX && nc == |kept| + 1
        invariant forall k :: 0 <= k < i ==> cand[k] == kept[k]
        invariant forall k :: i < k < nc ==> cand[k] == kept[k - 1]
        invariant forall k :: i <= k < |kept| ==> kept[k].num > e.num
      {
        cand[i] := cand[i - 1];
        i := i - 1;
      }
      cand[i] := e;
      InsertedAt(kept, e, i, cand[..nc]);
    }

    method Enter(e: Entity)
      requires Valid()
      modifies this`nc, this`evicted, cand
      ensures Valid() && Held() == Insert(old(Held()), e)
    {
      ghost var was := cand[..nc];
      if nc >= CAND_MAX {
        if e.num >= cand[CAND_MAX - 1].num { evicted := true; return; }
        nc := CAND_MAX - 1;
        evicted := true;
        assert cand[..nc] == was[..CAND_MAX - 1];
      }
      Place(e);
    }

    /** One page, entity by entity. */
    method TakePage(page: seq<Entity>, floor: Number) returns (added: nat, pageMin: Number)
      requires Valid()
      modifies this`nc, this`evicted, cand
      ensures Valid() && Held() == Absorb(old(Held()), page, lastCtr, floor, |page|)
      ensures added == Added(page, lastCtr, floor, |page|) && pageMin == LowestOf(page, lastCtr, floor, |page|)
    {
      added, pageMin := 0, UINT64_MAX;
      for i := 0 to |page|
        invariant Valid() && Held() == Absorb(old(Held()), page, lastCtr, floor, i)
        invariant added == Added(page, lastCtr, floor, i) && pageMin == LowestOf(page, lastCtr, floor, i)
      {
        var e := page[i];
        if e.num <= lastCtr || e.num >= floor { continue; }
        added := added + 1;
        if e.num < pageMin { pageMin := e.num; }
        Enter(e);
      }
    }

    method GatherAll(node: Node) returns (ending: Ending)
      requires Valid()
      modifies this`nc, this`evicted, cand
      ensures Valid() && Gather(Held(), ending) == Gathered(node, lastCtr)
    {
      nc, evicted := 0, false;
      var floor: Number := UINT64_MAX;
      var pages := 0;
      assert Held() == NONE;
      while pages < MAX_PAGES
        invariant Valid() && 0 <= pages <= MAX_PAGES
        invariant GatherFrom(node, lastCtr, floor, pages, Held()) == Gathered(node, lastCtr)
      {
        var reply := node(pages, lastCtr, floor);
        if reply.Failed? { return Aborted; }
        var added, pageMin := TakePage(reply.entities, floor);
        if |reply.entities| < PAGE_N { return Complete; }
        if added == 0 { return Incomplete; }
        if pageMin <= lastCtr + 1 { return Complete; }
        floor := pageMin;
        pages := pages + 1;
      }
      return Incomplete;
    }

    method PollOnce(node: Node) returns (more: bool, ghost log: seq<Entity>, ghost attempted: seq<Entity>)
      requires Valid()
      modifies this, cand
      ensures Valid() && Sweep(lastCtr, log, attempted, more) == SweepOnce(node, old(lastCtr))
      ensures Gathered(node, old(lastCtr)).ending.Aborted? ==> lastCtr == old(lastCtr) && log == [] && !more
    {
      var ending := GatherAll(node);
      var i, dispatched, stop := 0, 0, false;
      log := [];
      ghost var start := Progress(0, lastCtr, [], false);
      if ending != Aborted {
        while i < nc && !stop
          invariant Valid() && i <= nc && |log| == dispatched
          invariant Held() == Gathered(node, old(lastCtr)).got
          invariant Dispatch(Held().list, Progress(i, lastCtr, log, stop)) == Dispatch(Held().list, start)
          invariant !stop ==> dispatched < MAX_PER_SWEEP
        {
          var e := cand[i];
          if e.num > lastCtr {
            if e.kind.Command? || e.kind.LocalOp? {
              lastCtr := e.num;
              log := log + [e];
              dispatched := dispatched + 1;
              if e.kind.LocalOp? { stop := true; }
            }
            if dispatched >= MAX_PER_SWEEP { stop := true; }
          }
          i := i + 1;
        }
      }
      attempted := cand[..i];
      more := dispatched > 0 && (i < nc || evicted || ending != Complete);
    }
  }
}
