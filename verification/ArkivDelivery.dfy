/** What a sweep delivers. Against any node at all the dispatched numbers only climb;
    against a node that answers with the newest page of the window, nothing that is
    pending is passed over, up to the reach of three pages. */
module ArkivDelivery {
  import opened ArkivSweep

  const REACH: nat := MAX_PAGES * PAGE_N

  function Min(a: int, b: int): int { if a < b then a else b }
  function Max(a: int, b: int): int { if a < b then b else a }

  // Any node.

  predicate Climbing(s: seq<Entity>) { forall i, j :: 0 <= i < j < |s| ==> s[i].num < s[j].num }

  function LastOf(log: seq<Entity>, last: Number): Number { if log == [] then last else log[|log| - 1].num }

  predicate Climbed(log: seq<Entity>, last: Number) {
    && Climbing(log)
    && forall i :: 0 <= i < |log| ==> last < log[i].num && log[i].Valid()
  }

  lemma {:induction false} DispatchClimbs(list: seq<Entity>, p: Progress, last: Number)
    requires p.at <= |list| && Climbed(p.log, last) && p.last == LastOf(p.log, last)
    requires |p.log| <= MAX_PER_SWEEP && (|p.log| == MAX_PER_SWEEP ==> p.stop)
    ensures var p' := Dispatch(list, p);
            Climbed(p'.log, last) && p'.last == LastOf(p'.log, last) && |p'.log| <= MAX_PER_SWEEP
    decreases |list| - p.at
  {
    if p.at < |list| && !p.stop { DispatchClimbs(list, Try(p, list[p.at]), last); }
  }

  /** Whatever the node answers: at most eight commands, valid, ascending, all above the
      old counter, and the counter ends at the last of them. */
  lemma SweepClimbs(node: Node, last: Number)
    ensures var s := SweepOnce(node, last);
            Climbed(s.log, last) && s.last == LastOf(s.log, last) && |s.log| <= MAX_PER_SWEEP
  {
    DispatchClimbs(Gathered(node, last).got.list, Progress(0, last, [], false), last);
  }

  /** No number is dispatched twice, however many sweeps a re-arm makes. */
  lemma {:induction false} RearmClimbs(node: Node, last: Number, k: nat)
    ensures Climbed(Rearm(node, last, k), last)
    decreases k
  {
    var s := SweepOnce(node, last);
    SweepClimbs(node, last);
    if s.more && k > 0 {
      RearmClimbs(node, s.last, k - 1);
      var rest := Rearm(node, s.last, k - 1);
      assert forall i :: 0 <= i < |s.log| ==> s.log[i].num <= s.last;
    }
  }

  // The node as the design assumes it: one fixed set of entities, listed newest first.

  /** The entities of the device in sequence order; the top number is never used. */
  predicate Chain(chain: seq<Entity>) {
    Climbing(chain) && forall i :: 0 <= i < |chain| ==> chain[i].num < UINT64_MAX
  }

  function Below(chain: seq<Entity>, bound: nat): (n: nat)
    ensures n <= |chain|
    ensures n < |chain| ==> bound <= chain[n].num
    ensures n > 0 ==> chain[n - 1].num < bound
  {
    if chain == [] || chain[|chain| - 1].num < bound then |chain|
    else Below(chain[..|chain| - 1], bound)
  }

  function Pending(chain: seq<Entity>, last: Number): seq<Entity> { chain[Below(chain, last + 1)..] }

  function Reversed(s: seq<Entity>): (r: seq<Entity>)
    ensures |r| == |s|
  {
    if s == [] then [] else [s[|s| - 1]] + Reversed(s[..|s| - 1])
  }

  lemma {:induction false} ReversedAt(s: seq<Entity>, i: nat)
    requires i < |s|
    ensures Reversed(s)[i] == s[|s| - 1 - i]
  {
    if i > 0 { ReversedAt(s[..|s| - 1], i - 1); }
  }

  function NewestPage(chain: seq<Entity>, last: Number, floor: Number): seq<Entity> {
    var lo, hi := Below(chain, last + 1), Below(chain, floor);
    if hi <= lo then [] else Reversed(chain[Max(lo, hi - PAGE_N)..hi])
  }

  /** Every query is answered with the newest page of its window, or fails. */
  ghost predicate Honest(node: Node, chain: seq<Entity>) {
    forall p, last, floor :: node(p, last, floor) == Failed || node(p, last, floor) == Page(NewestPage(chain, last, floor))
  }

  ghost predicate Up(node: Node) { forall p, last, floor :: node(p, last, floor) != Failed }

  /** The lowest candidates of `chain[k..]`, and whether that left any out. */
  function Lowest(chain: seq<Entity>, k: nat): Candidates
    requires k <= |chain|
  {
    Candidates(chain[k..Min(k + CAND_MAX, |chain|)], CAND_MAX < |chain| - k)
  }

  lemma InsertFront(chain: seq<Entity>, k: nat)
    requires Climbing(chain) && 0 < k <= |chain|
    ensures Insert(Lowest(chain, k), chain[k - 1]) == Lowest(chain, k - 1)
  {
    var c, e := Lowest(chain, k), chain[k - 1];
    var kept := if |c.list| < CAND_MAX then c.list else c.list[..CAND_MAX - 1];
    InsertSortedAt(kept, e, 0);
    assert kept[..0] + [e] + kept[0..] == chain[k - 1..Min(k - 1 + CAND_MAX, |chain|)];
  }

  /** What the first `n` entities of a page, newest first, come to. */
  predicate Taken(chain: seq<Entity>, page: seq<Entity>, last: Number, floor: Number, hi: nat, n: nat)
    requires n <= |page| && n <= hi <= |chain|
  {
    && Absorb(Lowest(chain, hi), page, last, floor, n) == Lowest(chain, hi - n)
    && Added(page, last, floor, n) == n
    && (n > 0 ==> LowestOf(page, last, floor, n) == chain[hi - n].num)
  }

  lemma TakeOneMore(chain: seq<Entity>, page: seq<Entity>, last: Number, floor: Number, hi: nat, n: nat)
    requires Climbing(chain) && n < |page| && n < hi <= |chain| && Taken(chain, page, last, floor, hi, n)
    requires page[n] == chain[hi - n - 1] && InWindow(page[n], last, floor)
    ensures Taken(chain, page, last, floor, hi, n + 1)
  {
    InsertFront(chain, hi - n);
    assert n > 0 ==> chain[hi - n - 1].num < chain[hi - n].num;
  }

  lemma {:induction false} AbsorbNewest(chain: seq<Entity>, page: seq<Entity>, last: Number, floor: Number,
                                        lo: nat, hi: nat, n: nat)
    requires Climbing(chain) && lo <= hi <= |chain| && n <= hi - lo && page == Reversed(chain[lo..hi])
    requires forall i :: lo <= i < hi ==> InWindow(chain[i], last, floor)
    ensures Taken(chain, page, last, floor, hi, n)
    decreases n
  {
    if n > 0 {
      AbsorbNewest(chain, page, last, floor, lo, hi, n - 1);
      ReversedAt(chain[lo..hi], n - 1);
      TakeOneMore(chain, page, last, floor, hi, n - 1);
    }
  }

  lemma BelowAt(chain: seq<Entity>, k: nat)
    requires Climbing(chain) && k < |chain|
    ensures Below(chain, chain[k].num) == k
  {
  }

  lemma WholeWindow(chain: seq<Entity>, last: Number, floor: Number, lo: nat, hi: nat)
    requires Climbing(chain) && lo < hi <= |chain| && last < chain[lo].num && chain[hi - 1].num < floor
    ensures forall i :: lo <= i < hi ==> InWindow(chain[i], last, floor)
  {
  }

  lemma {:induction false} ShowNewest(chain: seq<Entity>, page: seq<Entity>, last: Number, floor: Number, lo: nat, hi: nat)
    requires Chain(chain) && lo == Below(chain, last + 1) && hi == Below(chain, floor) && lo <= hi
    requires page == NewestPage(chain, last, floor)
    ensures |page| == hi - Max(lo, hi - PAGE_N) && Taken(chain, page, last, floor, hi, |page|)
  {
    if lo < hi {
      var from := Max(lo, hi - PAGE_N);
      assert page == Reversed(chain[from..hi]);
      assert last < chain[lo].num && chain[hi - 1].num < floor;
      NewestTaken(chain, last, floor, lo, hi, from);
    }
  }

  lemma NewestTaken(chain: seq<Entity>, last: Number, floor: Number, lo: nat, hi: nat, from: nat)
    requires Climbing(chain) && lo <= from < hi <= |chain| && last < chain[lo].num && chain[hi - 1].num < floor
    ensures Taken(chain, Reversed(chain[from..hi]), last, floor, hi, hi - from)
  {
    WholeWindow(chain, last, floor, lo, hi);
    AbsorbNewest(chain, Reversed(chain[from..hi]), last, floor, from, hi, hi - from);
  }

  /** One answered query of the walk, whose window ends at `hi`. */
  lemma GatherPage(node: Node, chain: seq<Entity>, last: Number, floor: Number, pages: nat, lo: nat, hi: nat)
    requires Chain(chain) && pages < MAX_PAGES && node(pages, last, floor) == Page(NewestPage(chain, last, floor))
    requires lo == Below(chain, last + 1) && hi == Below(chain, floor) && lo <= hi
    ensures var from := Max(lo, hi - PAGE_N);
            GatherFrom(node, last, floor, pages, Lowest(chain, hi))
            == if hi - from < PAGE_N || chain[from].num <= last + 1 then Gather(Lowest(chain, from), Complete)
               else GatherFrom(node, last, chain[from].num, pages + 1, Lowest(chain, from))
  {
    ShowNewest(chain, NewestPage(chain, last, floor), last, floor, lo, hi);
    PageTaken(node, chain, NewestPage(chain, last, floor), last, floor, pages, Max(lo, hi - PAGE_N), hi);
  }

  lemma PageTaken(node: Node, chain: seq<Entity>, page: seq<Entity>, last: Number, floor: Number, pages: nat, from: nat, hi: nat)
    requires pages < MAX_PAGES && node(pages, last, floor) == Page(page)
    requires from <= hi <= |chain| && |page| == hi - from <= PAGE_N && Taken(chain, page, last, floor, hi, |page|)
    ensures GatherFrom(node, last, floor, pages, Lowest(chain, hi))
            == if hi - from < PAGE_N || chain[from].num <= last + 1 then Gather(Lowest(chain, from), Complete)
               else GatherFrom(node, last, chain[from].num, pages + 1, Lowest(chain, from))
  {
  }

  /** What a walk with room for `budget` more entities ends with: it stops at the lowest
      pending entity or where the budget ends, and keeps the lowest of what it saw. */
  predicate Reached(chain: seq<Entity>, last: Number, lo: nat, hi: nat, budget: nat, g: Gather)
    requires lo <= hi <= |chain|
  {
    && g.got == Lowest(chain, Max(lo, hi - budget))
    && (g.ending.Complete? <==> hi - lo < budget || (hi - lo == budget > 0 && chain[lo].num == last + 1))
    && !g.ending.Aborted?
  }

  lemma ReachedAtOnce(chain: seq<Entity>, last: Number, lo: nat, hi: nat, budget: nat, from: nat)
    requires Climbing(chain) && lo <= hi <= |chain| && from == Max(lo, hi - PAGE_N) && PAGE_N <= budget
    requires lo < |chain| ==> last < chain[lo].num
    requires hi - from < PAGE_N || chain[from].num <= last + 1
    ensures Reached(chain, last, lo, hi, budget, Gather(Lowest(chain, from), Complete))
  {
  }

  lemma ReachedFurther(chain: seq<Entity>, last: Number, lo: nat, hi: nat, budget: nat, from: nat, g: Gather)
    requires Climbing(chain) && lo <= from <= hi <= |chain| && from == hi - PAGE_N && PAGE_N <= budget
    requires last + 1 < chain[from].num && Reached(chain, last, lo, from, budget - PAGE_N, g)
    ensures Reached(chain, last, lo, hi, budget, g)
  {
  }

  lemma {:induction false} UpNeverAborts(node: Node, last: Number, floor: Number, pages: nat, c: Candidates)
    requires Up(node)
    ensures !GatherFrom(node, last, floor, pages, c).ending.Aborted?
    decreases MAX_PAGES - pages
  {
    if pages < MAX_PAGES {
      var page := node(pages, last, floor).entities;
      UpNeverAborts(node, last, LowestOf(page, last, floor, |page|), pages + 1, Absorb(c, page, last, floor, |page|));
    }
  }

  /** The answers along one walk are honest, as far as it goes. */
  predicate HonestWalk(node: Node, chain: seq<Entity>, last: Number, floor: Number, pages: nat, lo: nat, hi: nat)
    requires lo <= hi <= |chain| && pages <= MAX_PAGES
    decreases MAX_PAGES - pages
  {
    var from := Max(lo, hi - PAGE_N);
    || pages == MAX_PAGES
    || node(pages, last, floor) == Failed
    || (&& node(pages, last, floor) == Page(NewestPage(chain, last, floor))
        && (hi - from < PAGE_N || chain[from].num <= last + 1
            || HonestWalk(node, chain, last, chain[from].num, pages + 1, lo, from)))
  }

  lemma {:induction false} HonestWalks(node: Node, chain: seq<Entity>, last: Number, floor: Number, pages: nat, lo: nat, hi: nat)
    requires Honest(node, chain) && lo <= hi <= |chain| && pages <= MAX_PAGES
    ensures HonestWalk(node, chain, last, floor, pages, lo, hi)
    decreases MAX_PAGES - pages
  {
    var from := Max(lo, hi - PAGE_N);
    if pages < MAX_PAGES && hi - from == PAGE_N { HonestWalks(node, chain, last, chain[from].num, pages + 1, lo, from); }
  }

  predicate Walked(chain: seq<Entity>, last: Number, lo: nat, hi: nat, pages: nat, g: Gather)
    requires lo <= hi <= |chain| && pages <= MAX_PAGES
  {
    g.ending.Aborted? || Reached(chain, last, lo, hi, PAGE_N * (MAX_PAGES - pages), g)
  }

  lemma WalkStops(node: Node, chain: seq<Entity>, last: Number, floor: Number, pages: nat, lo: nat, hi: nat)
    requires pages <= MAX_PAGES && lo <= hi <= |chain|
    requires pages == MAX_PAGES || node(pages, last, floor) == Failed
    ensures Walked(chain, last, lo, hi, pages, GatherFrom(node, last, floor, pages, Lowest(chain, hi)))
  {
  }

  lemma WalkGoesOn(chain: seq<Entity>, last: Number, pages: nat, lo: nat, hi: nat, from: nat, g: Gather)
    requires Climbing(chain) && lo <= from <= hi <= |chain| && from == hi - PAGE_N && pages < MAX_PAGES
    requires last + 1 < chain[from].num && Walked(chain, last, lo, from, pages + 1, g)
    ensures Walked(chain, last, lo, hi, pages, g)
  {
    if !g.ending.Aborted? { ReachedFurther(chain, last, lo, hi, PAGE_N * (MAX_PAGES - pages), from, g); }
  }

  lemma WalkEnds(chain: seq<Entity>, last: Number, pages: nat, lo: nat, hi: nat, from: nat)
    requires Climbing(chain) && lo <= hi <= |chain| && from == Max(lo, hi - PAGE_N) && pages < MAX_PAGES
    requires lo < |chain| ==> last < chain[lo].num
    requires hi - from < PAGE_N || chain[from].num <= last + 1
    ensures Walked(chain, last, lo, hi, pages, Gather(Lowest(chain, from), Complete))
  {
    ReachedAtOnce(chain, last, lo, hi, PAGE_N * (MAX_PAGES - pages), from);
  }

  lemma {:induction false} GatherHonest(node: Node, chain: seq<Entity>, last: Number, floor: Number, pages: nat,
                                        lo: nat, hi: nat)
    requires Chain(chain) && pages <= MAX_PAGES
    requires lo == Below(chain, last + 1) && hi == Below(chain, floor) && lo <= hi
    requires HonestWalk(node, chain, last, floor, pages, lo, hi)
    ensures Walked(chain, last, lo, hi, pages, GatherFrom(node, last, floor, pages, Lowest(chain, hi)))
    decreases MAX_PAGES - pages
  {
    if pages == MAX_PAGES || node(pages, last, floor) == Failed {
      WalkStops(node, chain, last, floor, pages, lo, hi);
    } else {
      GatherPage(node, chain, last, floor, pages, lo, hi);
      var from := Max(lo, hi - PAGE_N);
      if hi - from < PAGE_N || chain[from].num <= last + 1 {
        WalkEnds(chain, last, pages, lo, hi, from);
      } else {
        BelowAt(chain, from);
        GatherHonest(node, chain, last, chain[from].num, pages + 1, lo, from);
        WalkGoesOn(chain, last, pages, lo, hi, from, GatherFrom(node, last, chain[from].num, pages + 1, Lowest(chain, from)));
      }
    }
  }

  /** What a gather that did not fail hands to the dispatch, of the `n` pending entities. */
  predicate Hands(pending: seq<Entity>, last: Number, g: Gather) {
    var n, k := |pending|, Max(0, |pending| - REACH);
    && g.got == Candidates(pending[k..Min(k + CAND_MAX, n)], CAND_MAX < n - k)
    && (g.ending.Complete? <==> n < REACH || (n == REACH && pending[0].num == last + 1))
    && !g.ending.Aborted?
  }

  lemma SuffixSlice(s: seq<Entity>, lo: nat, i: nat, j: nat)
    requires lo <= |s| && i <= j <= |s| - lo
    ensures s[lo..][i..j] == s[lo + i..lo + j]
  {
  }

  lemma ReachedHands(chain: seq<Entity>, last: Number, lo: nat, g: Gather)
    requires lo <= |chain| && Reached(chain, last, lo, |chain|, REACH, g)
    ensures Hands(chain[lo..], last, g)
  {
    var pending, k := chain[lo..], Max(0, |chain| - lo - REACH);
    SuffixSlice(chain, lo, k, Min(k + CAND_MAX, |pending|));
  }

  lemma WholeChainBelow(chain: seq<Entity>)
    requires Chain(chain)
    ensures Below(chain, UINT64_MAX) == |chain| && Lowest(chain, |chain|) == NONE
  {
  }

  /** A complete gather leaves exactly the lowest candidates in ascending order; one that
      ran out of pages, the lowest of the newest eighteen. */
  lemma GatherHandsLowest(node: Node, chain: seq<Entity>, last: Number)
    requires Honest(node, chain) && Chain(chain)
    ensures Gathered(node, last).ending.Aborted? || Hands(Pending(chain, last), last, Gathered(node, last))
    ensures Up(node) ==> !Gathered(node, last).ending.Aborted?
  {
    HonestWalks(node, chain, last, UINT64_MAX, 0, Below(chain, last + 1), |chain|);
    WalkHandsLowest(node, chain, last);
    if Up(node) { UpNeverAborts(node, last, UINT64_MAX, 0, NONE); }
  }

  /** The answers to the queries of one sweep are honest. */
  predicate HonestSweep(node: Node, chain: seq<Entity>, last: Number) {
    HonestWalk(node, chain, last, UINT64_MAX, 0, Below(chain, last + 1), |chain|)
  }

  lemma WalkHandsLowest(node: Node, chain: seq<Entity>, last: Number)
    requires HonestSweep(node, chain, last) && Chain(chain)
    ensures Gathered(node, last).ending.Aborted? || Hands(Pending(chain, last), last, Gathered(node, last))
  {
    var lo := Below(chain, last + 1);
    WholeChainBelow(chain);
    GatherHonest(node, chain, last, UINT64_MAX, 0, lo, |chain|);
    var g := Gathered(node, last);
    if !g.ending.Aborted? { ReachedHands(chain, last, lo, g); }
  }

  // Dispatching a list that climbs.

  function Accepted(s: seq<Entity>): (r: seq<Entity>)
    ensures |r| <= |s|
  {
    if s == [] then []
    else Accepted(s[..|s| - 1]) + if s[|s| - 1].Valid() then [s[|s| - 1]] else []
  }

  lemma {:induction false} AcceptedMembers(s: seq<Entity>)
    ensures forall e :: e in Accepted(s) <==> e in s && e.Valid()
  {
    if s != [] {
      AcceptedMembers(s[..|s| - 1]);
      assert s == s[..|s| - 1] + [s[|s| - 1]];
    }
  }

  lemma {:induction false} AcceptedConcat(a: seq<Entity>, b: seq<Entity>)
    ensures Accepted(a + b) == Accepted(a) + Accepted(b)
  {
    if b == [] {
      assert a + b == a;
    } else {
      AcceptedConcat(a, b[..|b| - 1]);
      assert (a + b)[..|a + b| - 1] == a + b[..|b| - 1];
    }
  }

  lemma AcceptedNext(list: seq<Entity>, at: nat)
    requires at < |list|
    ensures Accepted(list[..at + 1]) == Accepted(list[..at]) + if list[at].Valid() then [list[at]] else []
  {
    assert list[..at + 1][..at] == list[..at];
  }

  /** How far the dispatch of a climbing list has come. */
  predicate Along(list: seq<Entity>, last: Number, p: Progress) {
    && p.at <= |list|
    && p.log == Accepted(list[..p.at]) && last <= p.last == LastOf(p.log, last)
    && (forall i :: p.at <= i < |list| ==> p.last < list[i].num)
    && (p.stop ==> p.log != [])
    && (p.stop && p.log[|p.log| - 1].kind.Command? ==> |p.log| == MAX_PER_SWEEP)
    && |p.log| <= MAX_PER_SWEEP && (|p.log| == MAX_PER_SWEEP ==> p.stop)
  }

  lemma {:induction false} DispatchAlong(list: seq<Entity>, last: Number, p: Progress)
    requires Climbing(list) && Along(list, last, p)
    ensures var p' := Dispatch(list, p); Along(list, last, p') && (p'.at == |list| || p'.stop)
    decreases |list| - p.at
  {
    if p.at < |list| && !p.stop {
      AcceptedNext(list, p.at);
      DispatchAlong(list, last, Try(p, list[p.at]));
    }
  }

  /** The progress `p` is where the sweep's dispatch of `list` stopped. */
  predicate Ends(list: seq<Entity>, last: Number, p: Progress, s: Sweep) {
    && Climbing(list) && Along(list, last, p) && (p.at == |list| || p.stop)
    && s.attempted == list[..p.at] && s.log == p.log && s.last == p.last
  }

  lemma PendingClimbs(chain: seq<Entity>, last: Number)
    requires Chain(chain)
    ensures var pending := Pending(chain, last);
            Climbing(pending) && forall i :: 0 <= i < |pending| ==> last < pending[i].num
  {
    var pending, lo := Pending(chain, last), Below(chain, last + 1);
    forall i | 0 <= i < |pending| ensures last < pending[i].num {
      assert pending[0] == chain[lo] && pending[i] == chain[lo + i];
      assert i > 0 ==> chain[lo].num < chain[lo + i].num;
    }
  }

  lemma SliceClimbs(pending: seq<Entity>, last: Number, i: nat, j: nat)
    requires i <= j <= |pending| && Climbing(pending) && forall k :: 0 <= k < |pending| ==> last < pending[k].num
    ensures Climbing(pending[i..j]) && forall k :: 0 <= k < |pending[i..j]| ==> last < pending[i..j][k].num
  {
  }

  /** Where the dispatch of what a gather hands over stops. */
  lemma SweepAlong(pending: seq<Entity>, g: Gather, last: Number) returns (p: Progress)
    requires Climbing(pending) && (forall i :: 0 <= i < |pending| ==> last < pending[i].num) && Hands(pending, last, g)
    ensures var s := SweepOf(g, last);
            && Ends(g.got.list, last, p, s)
            && (s.more <==> p.log != [] && (p.at < |g.got.list| || g.got.evicted || g.ending.Incomplete?))
  {
    var k := Max(0, |pending| - REACH);
    SliceClimbs(pending, last, k, Min(k + CAND_MAX, |pending|));
    var start := Progress(0, last, [], false);
    assert g.got.list[..0] == [];
    DispatchAlong(g.got.list, last, start);
    p := Dispatch(g.got.list, start);
  }

  /** An entity the sweep moved past without trying it: rejected for good from now on. */
  predicate Passed(e: Entity, s: Sweep) { e.num <= s.last && e !in s.attempted }

  predicate Burned(pending: seq<Entity>, s: Sweep) { exists e :: e in pending && Passed(e, s) }

  /** One that would have been dispatched. */
  predicate ValidBurned(pending: seq<Entity>, s: Sweep) { exists e :: e in pending && e.Valid() && Passed(e, s) }

  predicate SomeValid(list: seq<Entity>) { exists e :: e in list && e.Valid() }

  /** The pending entities beyond the reach of three pages. */
  function Beyond(pending: seq<Entity>): seq<Entity> { pending[..|pending| - |Tail(pending)|] }

  /** The candidates that a sweep gets to see. */
  function InSight(pending: seq<Entity>): seq<Entity> {
    var k := Max(0, |pending| - REACH);
    pending[k..Min(k + CAND_MAX, |pending|)]
  }

  /** A sweep burns just the entities beyond the newest eighteen pending, all of them, and only
      when one of the lowest fourteen of those eighteen is valid. */
  lemma BurnsExactlyBeyondReach(node: Node, chain: seq<Entity>, last: Number)
    requires Honest(node, chain) && Chain(chain) && !Gathered(node, last).ending.Aborted?
    ensures var (pending, s) := (Pending(chain, last), SweepOnce(node, last));
            && (forall e :: e in pending ==> (Passed(e, s) <==> SomeValid(InSight(pending)) && e in Beyond(pending)))
            && (Burned(pending, s) <==> SomeValid(InSight(pending)) && REACH < |pending|)
            && (ValidBurned(pending, s) <==> SomeValid(InSight(pending)) && SomeValid(Beyond(pending)))
  {
    var pending := Pending(chain, last);
    GatherHandsLowest(node, chain, last);
    PendingClimbs(chain, last);
    PassedExactly(pending, Gathered(node, last), last);
    BurnedFromPassed(pending, SweepOnce(node, last));
  }

  lemma BurnedFromPassed(pending: seq<Entity>, s: Sweep)
    requires forall e :: e in pending ==> (Passed(e, s) <==> SomeValid(InSight(pending)) && e in Beyond(pending))
    ensures Burned(pending, s) <==> SomeValid(InSight(pending)) && REACH < |pending|
    ensures ValidBurned(pending, s) <==> SomeValid(InSight(pending)) && SomeValid(Beyond(pending))
  {
    var old' := Beyond(pending);
    assert forall e :: e in old' ==> e in pending;
    if REACH < |pending| { assert old'[0] in old'; }
  }

  function Commands(n: nat): seq<Entity>
    requires n < UINT64_MAX
  {
    seq(n, i requires 0 <= i < n => Entity(i + 1, Command))
  }

  function NewestOf(chain: seq<Entity>): Node {
    (p: nat, last: Number, floor: Number) => Page(NewestPage(chain, last, floor))
  }

  lemma NewestIsHonest(chain: seq<Entity>)
    ensures Honest(NewestOf(chain), chain) && Up(NewestOf(chain))
  {
  }

  lemma CommandsPending(n: nat)
    requires 0 < n < UINT64_MAX
    ensures Chain(Commands(n)) && Pending(Commands(n), 0) == Commands(n)
  {
    BelowAt(Commands(n), 0);
    assert Commands(n)[0..] == Commands(n);
  }

  lemma FirstInSight(n: nat)
    requires REACH < n < UINT64_MAX
    ensures SomeValid(InSight(Commands(n)))
  {
    assert InSight(Commands(n))[0] == Commands(n)[n - REACH];
    assert InSight(Commands(n))[0] in InSight(Commands(n));
  }

  /** Nineteen commands at once are too many, against a node that does all it should. */
  lemma NineteenBurn()
    ensures var (chain, node) := (Commands(REACH + 1), NewestOf(Commands(REACH + 1)));
            && Chain(chain) && Honest(node, chain) && Up(node) && |Pending(chain, 0)| == REACH + 1
            && ValidBurned(Pending(chain, 0), SweepOnce(node, 0))
  {
    var (chain, node) := (Commands(REACH + 1), NewestOf(Commands(REACH + 1)));
    NewestIsHonest(chain);
    CommandsPending(REACH + 1);
    FirstInSight(REACH + 1);
    assert Beyond(Commands(REACH + 1))[0] in Beyond(Commands(REACH + 1));
    UpNeverAborts(node, 0, UINT64_MAX, 0, NONE);
    BurnsExactlyBeyondReach(node, chain, 0);
  }

  lemma PassedExactly(pending: seq<Entity>, g: Gather, last: Number)
    requires Climbing(pending) && (forall i :: 0 <= i < |pending| ==> last < pending[i].num) && Hands(pending, last, g)
    ensures forall e :: e in pending ==>
      (Passed(e, SweepOf(g, last)) <==> SomeValid(InSight(pending)) && e in Beyond(pending))
  {
    var p := SweepAlong(pending, g, last);
    forall i | 0 <= i < |pending|
      ensures Passed(pending[i], SweepOf(g, last)) <==> SomeValid(InSight(pending)) && pending[i] in Beyond(pending)
    {
      PassedAt(pending, last, p, SweepOf(g, last), i);
    }
  }

  lemma PassedAt(pending: seq<Entity>, last: Number, p: Progress, s: Sweep, i: nat)
    requires Climbing(pending) && (forall j :: 0 <= j < |pending| ==> last < pending[j].num)
    requires Ends(InSight(pending), last, p, s) && i < |pending|
    ensures Passed(pending[i], s) <==> SomeValid(InSight(pending)) && pending[i] in Beyond(pending)
  {
    var k := Max(0, |pending| - REACH);
    BeyondAt(pending, i);
    if !SomeValid(InSight(pending)) {
      NoneAccepted(InSight(pending)[..p.at]);
    } else if i < k {
      BeyondReachBurned(pending, InSight(pending), last, p, i);
    } else {
      InReachNotBurned(pending, InSight(pending), last, p, i);
    }
  }

  lemma BeyondAt(pending: seq<Entity>, i: nat)
    requires Climbing(pending) && i < |pending|
    ensures pending[i] in Beyond(pending) <==> i < Max(0, |pending| - REACH)
  {
    var old' := Beyond(pending);
    if i < |old'| { assert old'[i] == pending[i]; }
  }

  lemma LoggedLast(list: seq<Entity>, last: Number, p: Progress) returns (j: nat)
    requires Along(list, last, p) && p.log != []
    ensures j < p.at && list[j].num == p.last
  {
    AcceptedMembers(list[..p.at]);
    assert p.log[|p.log| - 1] in list[..p.at];
    j :| 0 <= j < p.at && list[j] == p.log[|p.log| - 1];
  }

  lemma InReachNotBurned(pending: seq<Entity>, list: seq<Entity>, last: Number, p: Progress, i: nat)
    requires Climbing(pending) && (forall j :: 0 <= j < |pending| ==> last < pending[j].num)
    requires list == InSight(pending) && Along(list, last, p) && Max(0, |pending| - REACH) <= i < |pending|
    ensures pending[i].num <= p.last ==> pending[i] in list[..p.at]
  {
    var k := Max(0, |pending| - REACH);
    if pending[i].num <= p.last {
      assert p.log != [];
      var j := LoggedLast(list, last, p);
      assert list[j] == pending[k + j];
      assert i <= k + j;
      assert list[..p.at][i - k] == pending[i];
    }
  }

  lemma BeyondReachBurned(pending: seq<Entity>, list: seq<Entity>, last: Number, p: Progress, i: nat)
    requires Climbing(pending) && list == InSight(pending) && i < Max(0, |pending| - REACH)
    requires Along(list, last, p) && (p.at == |list| || p.stop) && SomeValid(list)
    ensures pending[i].num <= p.last && pending[i] !in list[..p.at]
  {
    var k := |pending| - REACH;
    if p.log == [] {
      assert list[..p.at] == list;
      AcceptedMembers(list);
    }
    var j := LoggedLast(list, last, p);
    assert list[j] == pending[k + j];
    forall l | 0 <= l < p.at ensures list[..p.at][l] != pending[i] { assert list[l] == pending[k + l]; }
  }

  // What a re-arm dispatches, in terms of what is pending alone.

  /** How many of these candidates lie up to the last one dispatched, with room for `room`. */
  function Passes(list: seq<Entity>, room: nat): (m: nat)
    ensures m <= |list|
  {
    if list == [] || room == 0 then 0
    else if list[0].kind.LocalOp? then 1
    else if list[0].Valid() then 1 + Passes(list[1..], room - 1)
    else
      var m := Passes(list[1..], room);
      if m == 0 then 0 else m + 1
  }

  /** The same for one sweep over the entities pending. */
  function Round(s: seq<Entity>): (m: nat)
    ensures m <= |s| && m <= CAND_MAX
  {
    Passes(s[..Min(CAND_MAX, |s|)], MAX_PER_SWEEP)
  }

  /** What so many sweeps dispatch. */
  function Drained(s: seq<Entity>, sweeps: nat): seq<Entity>
    decreases sweeps
  {
    if sweeps == 0 || Round(s) == 0 then [] else Accepted(s[..Round(s)]) + Drained(s[Round(s)..], sweeps - 1)
  }

  lemma AcceptedCut(s: seq<Entity>, at: nat)
    requires at <= |s|
    ensures Accepted(s) == Accepted(s[..at]) + Accepted(s[at..])
  {
    assert s == s[..at] + s[at..];
    AcceptedConcat(s[..at], s[at..]);
  }

  predicate NoneValid(s: seq<Entity>) { forall i :: 0 <= i < |s| ==> !s[i].Valid() }

  lemma {:induction false} NoneAccepted(s: seq<Entity>)
    ensures NoneValid(s) <==> Accepted(s) == []
  {
    if s != [] {
      NoneAccepted(s[..|s| - 1]);
      assert forall i :: 0 <= i < |s| - 1 ==> s[..|s| - 1][i] == s[i];
    }
  }

  /** Nothing passed means nothing valid, and what was passed last was valid. */
  lemma {:induction false} PassesStop(list: seq<Entity>, room: nat)
    requires room > 0
    ensures var m := Passes(list, room); if m == 0 then NoneValid(list) else list[m - 1].Valid()
  {
    if list != [] && !list[0].kind.LocalOp? {
      if !list[0].Valid() {
        PassesStop(list[1..], room);
        assert forall i :: 0 < i < |list| ==> list[i] == list[1..][i - 1];
      } else if room > 1 {
        PassesStop(list[1..], room - 1);
      }
    }
  }

  /** Where the dispatch of `list` from `p` on has come: it took the next `m`, and passed over
      nothing valid behind them. */
  predicate Took(list: seq<Entity>, p: Progress, m: nat, p': Progress) {
    && p.at + m <= p'.at <= |list|
    && p'.log == p.log + Accepted(list[p.at..p.at + m])
    && p'.last == (if m == 0 then p.last else list[p.at + m - 1].num)
    && NoneValid(list[p.at + m..p'.at]) && (p'.at == |list| || p'.stop)
  }

  lemma AcceptedOne(e: Entity, rest: seq<Entity>)
    ensures Accepted([e] + rest) == (if e.Valid() then [e] else []) + Accepted(rest)
  {
    AcceptedConcat([e], rest);
    assert [e][..0] == [];
  }

  lemma TookValid(list: seq<Entity>, p: Progress, q: Progress, m: nat, p': Progress)
    requires p.at < |list| && list[p.at].Valid() && Took(list, q, m, p')
    requires q.at == p.at + 1 && q.log == p.log + [list[p.at]] && q.last == list[p.at].num
    ensures Took(list, p, m + 1, p')
  {
    assert list[p.at..q.at + m] == [list[p.at]] + list[q.at..q.at + m];
    AcceptedOne(list[p.at], list[q.at..q.at + m]);
  }

  lemma TookNone(list: seq<Entity>, p: Progress, q: Progress, p': Progress)
    requires p.at < |list| && !list[p.at].Valid() && Took(list, q, 0, p') && q == p.(at := p.at + 1)
    ensures Took(list, p, 0, p')
  {
    assert list[p.at..p.at] == [] && list[q.at..q.at] == [];
    assert list[p.at..p'.at] == [list[p.at]] + list[q.at..p'.at];
  }

  lemma TookRefused(list: seq<Entity>, p: Progress, q: Progress, m: nat, p': Progress)
    requires p.at < |list| && !list[p.at].Valid() && Took(list, q, m, p') && q == p.(at := p.at + 1) && m > 0
    ensures Took(list, p, m + 1, p')
  {
    assert list[p.at..q.at + m] == [list[p.at]] + list[q.at..q.at + m];
    AcceptedOne(list[p.at], list[q.at..q.at + m]);
  }

  lemma PassesNext(list: seq<Entity>, at: nat, room: nat)
    requires at < |list| && room > 0
    ensures Passes(list[at..], room)
         == if list[at].kind.LocalOp? then 1
            else if list[at].Valid() then 1 + Passes(list[at + 1..], room - 1)
            else if Passes(list[at + 1..], room) == 0 then 0 else 1 + Passes(list[at + 1..], room)
  {
    assert list[at..][1..] == list[at + 1..];
  }

  lemma StopsHere(list: seq<Entity>, q: Progress)
    requires q.at <= |list| && (q.stop || q.at == |list|)
    ensures Dispatch(list, q) == q && Took(list, q, 0, q)
  {
    assert list[q.at..q.at] == [];
  }

  /** How the count with candidate `p.at` follows from the count behind it. */
  lemma PassesStep(list: seq<Entity>, p: Progress, q: Progress)
    requires p.at < |list| && |p.log| < MAX_PER_SWEEP && p.last < list[p.at].num && q == Try(p, list[p.at])
    requires |q.log| <= MAX_PER_SWEEP
    ensures var m := if q.stop then 0 else Passes(list[q.at..], MAX_PER_SWEEP - |q.log|);
            !p.stop ==> Passes(list[p.at..], MAX_PER_SWEEP - |p.log|) == WithOne(list[p.at], m)
  {
    PassesNext(list, p.at, MAX_PER_SWEEP - |p.log|);
  }

  function WithOne(e: Entity, m: nat): nat { if e.Valid() || m > 0 then m + 1 else 0 }

  lemma TookOne(list: seq<Entity>, p: Progress, q: Progress, m: nat, p': Progress)
    requires p.at < |list| && p.last < list[p.at].num && q == Try(p, list[p.at]) && Took(list, q, m, p')
    requires !list[p.at].Valid() ==> q == p.(at := p.at + 1)
    ensures Took(list, p, WithOne(list[p.at], m), p')
  {
    if list[p.at].Valid() { TookValid(list, p, q, m, p'); }
    else if m == 0 { TookNone(list, p, q, p'); }
    else { TookRefused(list, p, q, m, p'); }
  }

  lemma {:induction false} DispatchPasses(list: seq<Entity>, p: Progress)
    requires Climbing(list) && p.at <= |list| && |p.log| < MAX_PER_SWEEP && !p.stop
    requires forall i :: p.at <= i < |list| ==> p.last < list[i].num
    ensures Took(list, p, Passes(list[p.at..], MAX_PER_SWEEP - |p.log|), Dispatch(list, p))
    decreases |list| - p.at
  {
    if p.at == |list| {
      StopsHere(list, p);
    } else {
      var q := Try(p, list[p.at]);
      PassesStep(list, p, q);
      if q.stop {
        StopsHere(list, q);
        TookOne(list, p, q, 0, q);
      } else {
        DispatchPasses(list, q);
        TookOne(list, p, q, Passes(list[q.at..], MAX_PER_SWEEP - |q.log|), Dispatch(list, q));
      }
    }
  }

  /** The part of what is pending that three pages reach. */
  function Tail(pending: seq<Entity>): (t: seq<Entity>)
    ensures |t| <= REACH
  {
    pending[Max(0, |pending| - REACH)..]
  }

  /** What a sweep does to the tail of what is pending: it dispatches a round of it, and when it
      reports no more, either it dispatched nothing or nothing valid is left. */
  predicate Swept(t: seq<Entity>, last: Number, s: Sweep) {
    && s.log == Accepted(t[..Round(t)])
    && s.last == (if Round(t) == 0 then last else t[Round(t) - 1].num)
    && (s.more ==> Round(t) > 0)
    && (!s.more && Round(t) > 0 ==> NoneValid(t[Round(t)..]))
  }

  lemma TailClimbs(pending: seq<Entity>, last: Number)
    requires Climbing(pending) && forall i :: 0 <= i < |pending| ==> last < pending[i].num
    ensures var t := Tail(pending); Climbing(t) && forall i :: 0 <= i < |t| ==> last < t[i].num
  {
    assert forall i :: 0 <= i < |Tail(pending)| ==> Tail(pending)[i] == pending[Max(0, |pending| - REACH) + i];
  }

  lemma RoundStop(s: seq<Entity>)
    ensures if Round(s) == 0 then NoneValid(s[..Min(CAND_MAX, |s|)]) else s[Round(s) - 1].Valid()
  {
    PassesStop(s[..Min(CAND_MAX, |s|)], MAX_PER_SWEEP);
  }

  lemma RoundAccepts(s: seq<Entity>)
    ensures Accepted(s[..Round(s)]) == [] <==> Round(s) == 0
  {
    RoundStop(s);
    NoneAccepted(s[..Round(s)]);
    if Round(s) > 0 { assert s[..Round(s)][Round(s) - 1] == s[Round(s) - 1]; }
  }

  /** The dispatch of what a gather hands over takes a round of the tail. */
  lemma RoundTaken(t: seq<Entity>, last: Number) returns (p: Progress)
    requires Climbing(t) && forall i :: 0 <= i < |t| ==> last < t[i].num
    ensures var list := t[..Min(CAND_MAX, |t|)];
            && p == Dispatch(list, Progress(0, last, [], false)) && Round(t) <= p.at <= |list|
            && p.log == Accepted(t[..Round(t)]) && p.last == (if Round(t) == 0 then last else t[Round(t) - 1].num)
            && NoneValid(list[Round(t)..p.at])
  {
    var list := t[..Min(CAND_MAX, |t|)];
    DispatchPasses(list, Progress(0, last, [], false));
    p := Dispatch(list, Progress(0, last, [], false));
    assert list[0..] == list && list[0..Round(t)] == t[..Round(t)];
  }

  lemma HandsTail(pending: seq<Entity>, last: Number, g: Gather)
    requires Hands(pending, last, g)
    ensures var t := Tail(pending);
            && g.got.list == t[..Min(CAND_MAX, |t|)] && (g.got.evicted <==> CAND_MAX < |t|) && !g.ending.Aborted?
  {
  }

  lemma SweepRound(pending: seq<Entity>, g: Gather, last: Number)
    requires Climbing(pending) && (forall i :: 0 <= i < |pending| ==> last < pending[i].num) && Hands(pending, last, g)
    ensures Swept(Tail(pending), last, SweepOf(g, last))
  {
    TailClimbs(pending, last);
    HandsTail(pending, last, g);
    TailSwept(Tail(pending), g, last);
  }

  lemma TailSwept(t: seq<Entity>, g: Gather, last: Number)
    requires Climbing(t) && forall i :: 0 <= i < |t| ==> last < t[i].num
    requires g.got.list == t[..Min(CAND_MAX, |t|)] && (g.got.evicted <==> CAND_MAX < |t|) && !g.ending.Aborted?
    ensures Swept(t, last, SweepOf(g, last))
  {
    var p := RoundTaken(t, last);
    RoundAccepts(t);
    if p.at == |t| { assert g.got.list[Round(t)..p.at] == t[Round(t)..]; }
  }

  lemma BelowBehind(chain: seq<Entity>, k: nat)
    requires Climbing(chain) && k < |chain|
    ensures Below(chain, chain[k].num + 1) == k + 1
  {
  }

  /** Raising the counter to a pending entity leaves what is behind it. */
  lemma PendingBehind(chain: seq<Entity>, last: Number, k: nat)
    requires Chain(chain) && k < |Pending(chain, last)|
    ensures Pending(chain, Pending(chain, last)[k].num) == Pending(chain, last)[k + 1..]
  {
    var lo := Below(chain, last + 1);
    assert Pending(chain, last)[k] == chain[lo + k];
    BelowBehind(chain, lo + k);
  }

  lemma DrainedNothing(s: seq<Entity>, sweeps: nat)
    requires NoneValid(s)
    ensures Drained(s, sweeps) == []
  {
    RoundStop(s);
  }

  lemma TailSplit(pending: seq<Entity>, t: seq<Entity>, m: nat, at: nat)
    requires t == Tail(pending) && 0 < m <= |t| && at == |pending| - |t| + m
    ensures t[m - 1] == pending[at - 1] && t[m..] == pending[at..]
  {
  }

  lemma TailOfShort(pending: seq<Entity>)
    requires |pending| <= REACH
    ensures Tail(pending) == pending
  {
  }

  /** The tail behind the round that a sweep dispatched. */
  lemma TailBehind(chain: seq<Entity>, last: Number, pending: seq<Entity>, t: seq<Entity>, m: nat)
    requires Chain(chain) && pending == Pending(chain, last) && t == Tail(pending) && 0 < m <= |t|
    ensures Tail(Pending(chain, t[m - 1].num)) == t[m..]
  {
    var at := |pending| - |t| + m;
    TailSplit(pending, t, m, at);
    PendingBehind(chain, last, at - 1);
    TailOfShort(pending[at..]);
  }

  lemma SweepOnceSwept(node: Node, chain: seq<Entity>, last: Number)
    requires Honest(node, chain) && Up(node) && Chain(chain)
    ensures Swept(Tail(Pending(chain, last)), last, SweepOnce(node, last))
  {
    GatherHandsLowest(node, chain, last);
    PendingClimbs(chain, last);
    SweepRound(Pending(chain, last), Gathered(node, last), last);
  }

  /** Every sweep of a re-arm does to the tail of what is then pending what it should. */
  predicate Sweeps(node: Node, chain: seq<Entity>, last: Number, k: nat)
    decreases k
  {
    var s := SweepOnce(node, last);
    Swept(Tail(Pending(chain, last)), last, s) && (s.more && k > 0 ==> Sweeps(node, chain, s.last, k - 1))
  }

  lemma {:induction false} AllSwept(node: Node, chain: seq<Entity>, last: Number, k: nat)
    requires Honest(node, chain) && Up(node) && Chain(chain)
    ensures Sweeps(node, chain, last, k)
    decreases k
  {
    SweepOnceSwept(node, chain, last);
    if k > 0 { AllSwept(node, chain, SweepOnce(node, last).last, k - 1); }
  }

  lemma {:induction false} RearmDrained(node: Node, chain: seq<Entity>, last: Number, k: nat, t: seq<Entity>, s: Sweep)
    requires Sweeps(node, chain, last, k) && Chain(chain) && t == Tail(Pending(chain, last)) && s == SweepOnce(node, last)
    ensures Rearm(node, last, k) == Drained(t, k + 1)
    decreases k
  {
    var rest := [];
    if s.more && k > 0 {
      TailBehind(chain, last, Pending(chain, last), t, Round(t));
      RearmDrained(node, chain, s.last, k - 1, t[Round(t)..], SweepOnce(node, s.last));
      rest := Rearm(node, s.last, k - 1);
    }
    RearmUnfolds(node, last, k);
    DrainedFollows(t, last, s, k, rest);
  }

  /** What a re-arm dispatches is fixed by the newest eighteen pending entities. */
  lemma RearmDispatches(node: Node, chain: seq<Entity>, last: Number, k: nat)
    requires Honest(node, chain) && Up(node) && Chain(chain)
    ensures Rearm(node, last, k) == Drained(Tail(Pending(chain, last)), k + 1)
  {
    AllSwept(node, chain, last, k);
    RearmDrained(node, chain, last, k, Tail(Pending(chain, last)), SweepOnce(node, last));
  }

  lemma RearmUnfolds(node: Node, last: Number, k: nat)
    ensures var s := SweepOnce(node, last);
            Rearm(node, last, k) == if s.more && k > 0 then s.log + Rearm(node, s.last, k - 1) else s.log
  {
  }

  lemma DrainedFollows(t: seq<Entity>, last: Number, s: Sweep, k: nat, rest: seq<Entity>)
    requires Swept(t, last, s) && (s.more && k > 0 ==> rest == Drained(t[Round(t)..], k))
    ensures Drained(t, k + 1) == if s.more && k > 0 then s.log + rest else s.log
  {
    RoundAccepts(t);
    if Round(t) > 0 {
      if !s.more { DrainedNothing(t[Round(t)..], k); }
      assert s.log + [] == s.log;
    }
  }

  // When that is everything.

  /** Fourteen or more entities in a row that are refused, and a valid one behind them. */
  ghost predicate Gap(s: seq<Entity>) { exists i, j :: GapAt(s, i, j) }

  predicate GapAt(s: seq<Entity>, i: nat, j: nat) {
    i + CAND_MAX <= j < |s| && s[j].Valid() && NoneValid(s[i..j])
  }

  /** How many sweeps find something to dispatch. */
  function Rounds(s: seq<Entity>): nat
    decreases |s|
  {
    if Round(s) == 0 then 0 else 1 + Rounds(s[Round(s)..])
  }

  lemma FirstValid(s: seq<Entity>, j: nat) returns (i: nat)
    requires j < |s| && s[j].Valid()
    ensures i <= j && s[i].Valid() && NoneValid(s[..i])
  {
    i := 0;
    while !s[i].Valid()
      invariant i <= j && forall k :: 0 <= k < i ==> !s[k].Valid()
      decreases j - i
    {
      i := i + 1;
    }
  }

  /** A sweep that finds nothing leaves something valid exactly behind a gap. */
  lemma StuckAtGap(s: seq<Entity>)
    requires Round(s) == 0
    ensures Gap(s) <==> Accepted(s) != []
  {
    RoundStop(s);
    NoneAccepted(s);
    if !NoneValid(s) {
      var j :| 0 <= j < |s| && s[j].Valid();
      var i := FirstValid(s, j);
      FirstNotSeen(s, i);
      assert s[0..i] == s[..i];
      assert GapAt(s, 0, i);
    }
  }

  lemma FirstNotSeen(s: seq<Entity>, i: nat)
    requires i < |s| && s[i].Valid() && NoneValid(s[..Min(CAND_MAX, |s|)])
    ensures CAND_MAX <= i
  {
  }

  /** A round neither bridges a gap nor makes one. */
  lemma GapBehindRound(s: seq<Entity>)
    requires Round(s) > 0
    ensures Gap(s) <==> Gap(s[Round(s)..])
  {
    var m := Round(s);
    RoundStop(s);
    if Gap(s) {
      var i: nat, j: nat :| GapAt(s, i, j);
      GapIsBehind(s, m, i, j);
    }
    if Gap(s[m..]) {
      var i: nat, j: nat :| GapAt(s[m..], i, j);
      assert s[m..][i..j] == s[i + m..j + m];
      assert GapAt(s, i + m, j + m);
    }
  }

  lemma GapIsBehind(s: seq<Entity>, m: nat, i: nat, j: nat)
    requires GapAt(s, i, j) && 0 < m <= CAND_MAX && m <= |s| && s[m - 1].Valid()
    ensures Gap(s[m..])
  {
    forall k | i <= k < j ensures !s[k].Valid() { assert s[i..j][k - i] == s[k]; }
    assert s[m..][i - m..j - m] == s[i..j];
    assert GapAt(s[m..], i - m, j - m);
  }

  /** So many sweeps drain the tail exactly when they suffice and no gap stops them. */
  lemma {:induction false} DrainsExactly(s: seq<Entity>, sweeps: nat)
    ensures Drained(s, sweeps) == Accepted(s) <==> Rounds(s) <= sweeps && !Gap(s)
    ensures |Drained(s, sweeps)| <= |Accepted(s)|
    decreases sweeps
  {
    var m := Round(s);
    if m == 0 {
      StuckAtGap(s);
    } else {
      AcceptedCut(s, m);
      GapBehindRound(s);
      RoundAccepts(s);
      if sweeps > 0 {
        DrainsExactly(s[m..], sweeps - 1);
        var a, x, y := Accepted(s[..m]), Drained(s[m..], sweeps - 1), Accepted(s[m..]);
        assert a + x == a + y ==> x == (a + x)[|a|..] == (a + y)[|a|..] == y;
      }
    }
  }

  lemma TailDrains(old': seq<Entity>, new': seq<Entity>, sweeps: nat)
    ensures Drained(new', sweeps) == Accepted(old' + new') <==> NoneValid(old') && !Gap(new') && Rounds(new') <= sweeps
  {
    DrainsExactly(new', sweeps);
    AcceptedConcat(old', new');
    NoneAccepted(old');
    assert [] + Accepted(new') == Accepted(new');
  }

  lemma PendingDrains(pending: seq<Entity>, sweeps: nat)
    ensures Drained(Tail(pending), sweeps) == Accepted(pending) <==>
              NoneValid(Beyond(pending)) && !Gap(Tail(pending)) && Rounds(Tail(pending)) <= sweeps
  {
    TailDrains(Beyond(pending), Tail(pending), sweeps);
    assert pending == Beyond(pending) + Tail(pending);
  }

  /** One re-arm of the poll task dispatches every valid pending command, once, in sequence
      order, exactly when none is older than the newest eighteen pending entities, no fourteen
      refused ones in a row stand before a valid one, and nine sweeps suffice. */
  lemma RearmDrains(node: Node, chain: seq<Entity>, last: Number)
    requires Honest(node, chain) && Up(node) && Chain(chain)
    ensures var pending := Pending(chain, last);
            Rearm(node, last, MAX_RESWEEPS) == Accepted(pending) <==>
              NoneValid(Beyond(pending)) && !Gap(Tail(pending)) && Rounds(Tail(pending)) <= MAX_RESWEEPS + 1
  {
    RearmDispatches(node, chain, last, MAX_RESWEEPS);
    PendingDrains(Pending(chain, last), MAX_RESWEEPS + 1);
  }

  predicate NoLocalOps(s: seq<Entity>) { forall i :: 0 <= i < |s| ==> !s[i].kind.LocalOp? }

  lemma AcceptedFront(e: Entity, rest: seq<Entity>, m: nat)
    requires m <= |rest|
    ensures Accepted(([e] + rest)[..m + 1]) == (if e.Valid() then [e] else []) + Accepted(rest[..m])
    ensures Accepted([e] + rest) == (if e.Valid() then [e] else []) + Accepted(rest)
  {
    assert ([e] + rest)[..m + 1] == [e] + rest[..m];
    AcceptedOne(e, rest[..m]);
    AcceptedOne(e, rest);
  }

  /** Without an operation on the device itself, a sweep takes all valid candidates or eight. */
  lemma {:induction false} PassesAll(list: seq<Entity>, room: nat)
    requires NoLocalOps(list)
    ensures |Accepted(list[..Passes(list, room)])| == Min(room, |Accepted(list)|)
  {
    if list == [] || room == 0 {
      assert list[..0] == [];
    } else {
      var e, rest := list[0], list[1..];
      var left := if e.Valid() then room - 1 else room;
      var m := Passes(rest, left);
      PassesAll(rest, left);
      assert list == [e] + rest;
      AcceptedFront(e, rest, m);
      assert m == 0 ==> Accepted(rest[..m]) == Accepted(list[..0]) by { assert rest[..0] == list[..0]; }
    }
  }

  lemma NoneInRound(s: seq<Entity>)
    requires NoneValid(s)
    ensures Rounds(s) == 0
  {
    RoundStop(s);
  }

  lemma {:induction false} SmallRounds(s: seq<Entity>, a: nat)
    requires NoLocalOps(s) && |s| <= CAND_MAX && |Accepted(s)| <= MAX_PER_SWEEP * a
    ensures Rounds(s) <= a
    decreases a
  {
    var m := Round(s);
    assert s[..|s|] == s;
    PassesAll(s, MAX_PER_SWEEP);
    AcceptedCut(s, m);
    NoneAccepted(s);
    if a == 0 {
      NoneInRound(s);
    } else if m > 0 {
      assert forall i :: 0 <= i < |s[m..]| ==> s[m..][i] == s[m + i];
      SmallRounds(s[m..], a - 1);
    }
  }

  lemma {:induction false} FewRounds(s: seq<Entity>)
    requires NoLocalOps(s)
    ensures Rounds(s) <= 2 + Max(0, |s| - CAND_MAX)
    decreases |s|
  {
    var m := Round(s);
    if |s| <= CAND_MAX {
      SmallRounds(s, 2);
    } else if m > 0 {
      assert forall i :: 0 <= i < |s[m..]| ==> s[m..][i] == s[m + i];
      FewRounds(s[m..]);
    }
  }

  /** Without operations on the device itself nine sweeps always suffice. */
  lemma CommandsDrain(node: Node, chain: seq<Entity>, last: Number)
    requires Honest(node, chain) && Up(node) && Chain(chain) && NoLocalOps(Tail(Pending(chain, last)))
    ensures var pending := Pending(chain, last);
            Rearm(node, last, MAX_RESWEEPS) == Accepted(pending) <==>
              NoneValid(Beyond(pending)) && !Gap(Tail(pending))
  {
    RearmDrains(node, chain, last);
    FewRounds(Tail(Pending(chain, last)));
  }
}
