/** The reference machine for the outgoing queue: two lines sorted by place and at
    most one item in flight. Every step of the slot array is a step of this machine. */
module DispatchLines {
  import opened DispatchQueue
  import opened DispatchRuns

  datatype Lines = Lines(critical: seq<Slot>, other: seq<Slot>, flying: seq<Slot>, lastToken: nat, streak: nat)

  predicate InClass(x: Slot, critical: bool) { x.Waiting() && x.item.request.critical == critical }

  predicate AllIn(line: seq<Slot>, critical: bool) { forall x :: x in line ==> InClass(x, critical) }

  predicate Ascending(line: seq<Slot>)
    requires forall x :: x in line ==> x.Held?
  {
    forall i, j :: 0 <= i < j < |line| ==> line[i].order < line[j].order
  }

  // The machine.

  function Living(line: seq<Slot>, now: nat): (r: seq<Slot>)
    requires forall x :: x in line ==> x.Held?
    ensures forall x :: x in r <==> x in line && !x.item.request.Expired(now)
  {
    if line == [] then []
    else (if line[0].item.request.Expired(now) then [] else [line[0]]) + Living(line[1..], now)
  }

  /** The first item of a line that has not expired; `|line|` when there is none. */
  function FirstLiving(line: seq<Slot>, now: nat): (k: nat)
    requires forall x :: x in line ==> x.Held?
    ensures k <= |line|
    ensures k < |line| ==> !line[k].item.request.Expired(now)
    ensures forall i :: 0 <= i < k ==> line[i].item.request.Expired(now)
  {
    if line == [] || !line[0].item.request.Expired(now) then 0 else 1 + FirstLiving(line[1..], now)
  }

  function Front(line: seq<Slot>, now: nat): (k: nat)
    requires forall x :: x in line ==> x.Held?
    ensures k <= |line|
  {
    var k := FirstLiving(line, now);
    if k < |line| && line[k].retryAfter <= now then k else |line|
  }

  function Insert(line: seq<Slot>, x: Slot): (r: seq<Slot>)
    requires x.Held? && forall y :: y in line ==> y.Held?
    ensures forall y :: y in r <==> y == x || y in line
    ensures |r| == |line| + 1
  {
    if line == [] || x.order < line[0].order then [x] + line else [line[0]] + Insert(line[1..], x)
  }

  function CountNoncriticalIn(line: seq<Slot>): nat {
    if line == [] then 0 else CountNoncriticalIn(line[..|line| - 1]) + if line[|line| - 1].Noncritical() then 1 else 0
  }

  predicate Crowded(m: Lines, r: Request) {
    || |m.critical| + |m.other| + |m.flying| == CAPACITY
    || (!r.critical && CAPACITY - CRITICAL_RESERVE <= |m.other| + CountNoncriticalIn(m.flying))
  }

  predicate Supersedes(m: Lines, r: Request, k: nat) { k < |m.other| && m.other[k].Superseded(r) }

  ghost predicate SubmitNext(m: Lines, m': Lines, r: Request) {
    var newest := Item(r, m.lastToken + 1);
    if |r.topic| == 0 || r.qos < 0 || 2 < r.qos || m.lastToken == UINT64_MAX || Oversize(r) then m' == m
    else if exists k: nat :: Supersedes(m, r, k) then
      exists k: nat :: Supersedes(m, r, k)
        && m' == m.(other := m.other[k := m.other[k].(item := newest)], lastToken := m.lastToken + 1)
    else if Crowded(m, r) then m' == m
    else
      var x := Held(newest, m.lastToken + 1, 0, false);
      m' == m.(critical := if r.critical then m.critical + [x] else m.critical,
               other := if r.critical then m.other else m.other + [x],
               lastToken := m.lastToken + 1)
  }

  predicate WellFormed(m: Lines) {
    && AllIn(m.critical, true) && AllIn(m.other, false)
    && Ascending(m.critical) && Ascending(m.other)
    && |m.flying| <= 1 && (forall x :: x in m.flying ==> x.Held? && x.inflight)
  }

  function ExpireNext(m: Lines, now: nat): Lines
    requires WellFormed(m)
  {
    m.(critical := Living(m.critical, now), other := Living(m.other, now))
  }

  function Without(line: seq<Slot>, k: nat): seq<Slot>
    requires k < |line|
  {
    line[..k] + line[k + 1..]
  }

  function ClaimNext(m: Lines, now: nat): Lines
    requires WellFormed(m)
  {
    var c, o := Front(m.critical, now), Front(m.other, now);
    if m.flying != [] then m
    else if c < |m.critical| && (o == |m.other| || m.streak < CRITICAL_BURST) then
      m.(critical := Without(m.critical, c), flying := [m.critical[c].(inflight := true)],
         streak := if m.streak < CRITICAL_BURST then m.streak + 1 else m.streak)
    else if o < |m.other| then
      m.(other := Without(m.other, o), flying := [m.other[o].(inflight := true)], streak := 0)
    else m
  }

  function FinishNext(m: Lines, result: Result, now: nat, retryAfter: nat): Lines
    requires WellFormed(m) && m.flying != []
  {
    var x := m.flying[0];
    var back := x.(inflight := false, retryAfter := retryAfter);
    if !result.Retry? || x.item.request.Expired(now) then m.(flying := [])
    else if x.item.request.critical then m.(critical := Insert(m.critical, back), flying := [])
    else m.(other := Insert(m.other, back), flying := [])
  }

  /** One step of the machine; `named` says whether a completion names the item in flight. */
  ghost predicate Next(m: Lines, m': Lines, call: Call, now: nat, named: bool)
    requires WellFormed(m)
  {
    match call
    case Submits(r) => SubmitNext(m, m', r)
    case Expires => m' == ExpireNext(m, now)
    case Claims => m' == ClaimNext(m, now)
    case Finishes(_, token, result, retryAfter) =>
      if named then m.flying != [] && m.flying[0].item.token == token && m' == FinishNext(m, result, now, retryAfter)
      else m' == m
  }

  // The lines of a slot array.

  function Line(s: seq<Slot>, critical: bool, n: nat): (line: seq<Slot>)
    requires n <= |s|
    ensures AllIn(line, critical)
    ensures forall x :: x in line <==> exists i :: 0 <= i < n && s[i] == x && InClass(x, critical)
  {
    if n == 0 then []
    else if InClass(s[n - 1], critical) then Insert(Line(s, critical, n - 1), s[n - 1])
    else Line(s, critical, n - 1)
  }

  function Flying(s: seq<Slot>, n: nat): (f: seq<Slot>)
    requires n <= |s|
    ensures forall x :: x in f ==> x.Held? && x.inflight
  {
    if n == 0 then []
    else Flying(s, n - 1) + if s[n - 1].Held? && s[n - 1].inflight then [s[n - 1]] else []
  }

  function LinesOf(q: Queue): Lines
    requires Sized(q)
  {
    Lines(Line(q.slots, true, CAPACITY), Line(q.slots, false, CAPACITY), Flying(q.slots, CAPACITY),
          q.lastToken, q.streak)
  }

  predicate Apart(s: seq<Slot>) {
    forall i, j :: 0 <= i < j < |s| && s[i].Held? && s[j].Held? ==> s[i].order != s[j].order
  }

  lemma {:induction false} InsertAscending(line: seq<Slot>, x: Slot)
    requires x.Held? && (forall y :: y in line ==> y.Held?) && Ascending(line)
    requires forall y :: y in line ==> y.order != x.order
    ensures Ascending(Insert(line, x))
  {
    if line == [] {
    } else if x.order < line[0].order {
      assert forall i :: 0 < i < |line| ==> line[0].order < line[i].order;
    } else {
      InsertAscending(line[1..], x);
      var rest := Insert(line[1..], x);
      forall i | 0 <= i < |rest| ensures line[0].order < rest[i].order {
        assert rest[i] in rest;
      }
    }
  }

  lemma {:induction false} LineAscending(s: seq<Slot>, critical: bool, n: nat)
    requires n <= |s| && Apart(s)
    ensures Ascending(Line(s, critical, n))
  {
    if n > 0 {
      LineAscending(s, critical, n - 1);
      if InClass(s[n - 1], critical) { InsertAscending(Line(s, critical, n - 1), s[n - 1]); }
    }
  }

  /** Sorted lines with the same members are the same line. */
  lemma {:induction false} SameMembersSameLine(a: seq<Slot>, b: seq<Slot>)
    requires forall x :: x in a ==> x.Held?
    requires forall x :: x in a <==> x in b
    requires Ascending(a) && Ascending(b)
    ensures a == b
  {
    assert b != [] ==> b[0] in b;
    if a != [] {
      assert a[0] in b;
      assert b[0] in a;
      assert a[0] == b[0];
      forall x ensures x in a[1..] <==> x in b[1..] {
        if x in a[1..] {
          var i :| 0 < i < |a| && a[i] == x;
          assert a[0].order < a[i].order;
          assert x in b;
        }
        if x in b[1..] {
          var i :| 0 < i < |b| && b[i] == x;
          assert b[0].order < b[i].order;
          assert x in a;
        }
      }
      SameMembersSameLine(a[1..], b[1..]);
    }
  }

  lemma {:induction false} LivingAscending(line: seq<Slot>, now: nat)
    requires (forall x :: x in line ==> x.Held?) && Ascending(line)
    ensures Ascending(Living(line, now))
  {
    if line != [] {
      LivingAscending(line[1..], now);
      var rest := Living(line[1..], now);
      forall i | 0 <= i < |rest| ensures line[0].order < rest[i].order {
        assert rest[i] in rest;
        assert rest[i] in line[1..];
      }
    }
  }

  lemma LineIs(s: seq<Slot>, critical: bool, line: seq<Slot>)
    requires Apart(s) && AllIn(line, critical) && Ascending(line)
    requires forall x :: InClass(x, critical) ==> (x in line <==> x in s)
    ensures Line(s, critical, |s|) == line
  {
    LineAscending(s, critical, |s|);
    SameMembersSameLine(Line(s, critical, |s|), line);
  }

  lemma UpdateMembers(s: seq<Slot>, at: nat, y: Slot, x: Slot)
    requires at < |s| && Apart(s) && x.Held?
    ensures x in s[at := y] <==> x == y || (x in s && x != s[at])
  {
    var t := s[at := y];
    if x in t && x != y {
      var i :| 0 <= i < |t| && t[i] == x;
      assert s[i] == x;
    }
    if x == y { assert t[at] == x; }
    if x in s && x != s[at] {
      var i :| 0 <= i < |s| && s[i] == x;
      assert t[i] == x;
    }
  }

  /** The line of a class after one slot changes from `s[at]` to `y`. */
  lemma LineAfterUpdate(s: seq<Slot>, at: nat, y: Slot, critical: bool, line: seq<Slot>)
    requires at < |s| && Apart(s) && Apart(s[at := y])
    requires AllIn(line, critical) && Ascending(line)
    requires forall x :: InClass(x, critical) ==> (x in line <==> x == y || (x in Line(s, critical, |s|) && x != s[at]))
    ensures Line(s[at := y], critical, |s|) == line
  {
    forall x | InClass(x, critical) ensures x in line <==> x in s[at := y] { UpdateMembers(s, at, y, x); }
    LineIs(s[at := y], critical, line);
  }

  lemma FlyingUnfolds(s: seq<Slot>, n: nat)
    requires 0 < n <= |s|
    ensures var x := s[n - 1];
            Flying(s, n) == if x.Held? && x.inflight then Flying(s, n - 1) + [x] else Flying(s, n - 1)
  {
    assert Flying(s, n - 1) + [] == Flying(s, n - 1);
  }

  lemma {:induction false} FlyingNone(s: seq<Slot>, n: nat)
    requires n <= |s| && !AnyInflight(s, n)
    ensures Flying(s, n) == []
  {
    if n > 0 { FlyingNone(s, n - 1); }
  }

  /** Only slot `at` is in flight. */
  lemma {:induction false} FlyingOnly(s: seq<Slot>, at: nat, n: nat)
    requires at < n <= |s| && s[at].Held? && s[at].inflight
    requires forall i :: 0 <= i < n && i != at ==> !(s[i].Held? && s[i].inflight)
    ensures Flying(s, n) == [s[at]]
  {
    FlyingUnfolds(s, n);
    if at == n - 1 { FlyingNone(s, at); } else { FlyingOnly(s, at, n - 1); }
  }

  lemma FlyingOne(s: seq<Slot>, at: nat, n: nat)
    requires at < n <= |s| && OneInflight(s) && s[at].Held? && s[at].inflight
    ensures Flying(s, n) == [s[at]]
  {
    FlyingOnly(s, at, n);
  }

  lemma LinesWellFormed(q: Queue)
    requires Sized(q) && Apart(q.slots) && OneInflight(q.slots)
    ensures WellFormed(LinesOf(q))
    ensures AnyInflight(q.slots, CAPACITY) <==> Flying(q.slots, CAPACITY) != []
  {
    LineAscending(q.slots, true, CAPACITY);
    LineAscending(q.slots, false, CAPACITY);
    if AnyInflight(q.slots, CAPACITY) {
      var i :| 0 <= i < CAPACITY && q.slots[i].Held? && q.slots[i].inflight;
      FlyingOne(q.slots, i, CAPACITY);
    } else {
      FlyingNone(q.slots, CAPACITY);
    }
  }

  function CountIn(s: seq<Slot>, critical: bool, n: nat): nat
    requires n <= |s|
  {
    if n == 0 then 0 else CountIn(s, critical, n - 1) + if InClass(s[n - 1], critical) then 1 else 0
  }

  function CountFlying(s: seq<Slot>, n: nat): nat
    requires n <= |s|
  {
    if n == 0 then 0 else CountFlying(s, n - 1) + if s[n - 1].Held? && s[n - 1].inflight then 1 else 0
  }

  function CountOtherFlying(s: seq<Slot>, n: nat): nat
    requires n <= |s|
  {
    if n == 0 then 0 else CountOtherFlying(s, n - 1) + if s[n - 1].Noncritical() && s[n - 1].inflight then 1 else 0
  }

  lemma {:induction false} CountsAddUp(s: seq<Slot>, n: nat)
    requires n <= |s|
    ensures CountHeld(s, n) == CountIn(s, true, n) + CountIn(s, false, n) + CountFlying(s, n)
    ensures CountNoncritical(s, n) == CountIn(s, false, n) + CountOtherFlying(s, n)
  {
    if n > 0 { CountsAddUp(s, n - 1); }
  }

  lemma {:induction false} LineLength(s: seq<Slot>, critical: bool, n: nat)
    requires n <= |s|
    ensures |Line(s, critical, n)| == CountIn(s, critical, n)
  {
    if n > 0 { LineLength(s, critical, n - 1); }
  }

  lemma CountSnoc(line: seq<Slot>, x: Slot)
    ensures CountNoncriticalIn(line + [x]) == CountNoncriticalIn(line) + if x.Noncritical() then 1 else 0
  {
    assert (line + [x])[..|line|] == line;
  }

  lemma {:induction false} FlyingLength(s: seq<Slot>, n: nat)
    requires n <= |s|
    ensures |Flying(s, n)| == CountFlying(s, n) && CountNoncriticalIn(Flying(s, n)) == CountOtherFlying(s, n)
  {
    if n > 0 {
      FlyingLength(s, n - 1);
      FlyingUnfolds(s, n);
      CountSnoc(Flying(s, n - 1), s[n - 1]);
    }
  }

  lemma LineSizes(s: seq<Slot>, n: nat)
    requires n <= |s|
    ensures CountHeld(s, n) == |Line(s, true, n)| + |Line(s, false, n)| + |Flying(s, n)|
    ensures CountNoncritical(s, n) == |Line(s, false, n)| + CountNoncriticalIn(Flying(s, n))
  {
    CountsAddUp(s, n);
    LineLength(s, true, n);
    LineLength(s, false, n);
    FlyingLength(s, n);
  }

  lemma {:induction false} FullWhenAllHeld(s: seq<Slot>, n: nat)
    requires n <= |s|
    ensures CountHeld(s, n) <= n
    ensures CountHeld(s, n) == n <==> forall i :: 0 <= i < n ==> s[i].Held?
  {
    if n > 0 { FullWhenAllHeld(s, n - 1); }
  }

  /** The array's occupancy test, said of the lines. */
  lemma CrowdedIsNoRoom(q: Queue, r: Request)
    requires Sized(q)
    ensures Crowded(LinesOf(q), r) <==> NoRoom(q, r)
  {
    LineSizes(q.slots, CAPACITY);
    FullWhenAllHeld(q.slots, CAPACITY);
  }

  lemma AppendAscending(line: seq<Slot>, x: Slot)
    requires (forall y :: y in line ==> y.Held?) && Ascending(line) && x.Held?
    requires forall y :: y in line ==> y.order < x.order
    ensures Ascending(line + [x])
  {
  }

  // Each operation of the array is a step of the machine.

  lemma UnchangedLine(s: seq<Slot>, at: nat, y: Slot, critical: bool)
    requires at < |s| && Apart(s) && Apart(s[at := y])
    requires !InClass(s[at], critical) && !InClass(y, critical)
    ensures Line(s[at := y], critical, |s|) == Line(s, critical, |s|)
  {
    LineAscending(s, critical, |s|);
    LineAfterUpdate(s, at, y, critical, Line(s, critical, |s|));
  }

  lemma AppendedLine(s: seq<Slot>, at: nat, y: Slot, critical: bool)
    requires at < |s| && Apart(s) && s[at].Free? && InClass(y, critical)
    requires forall i :: 0 <= i < |s| && s[i].Held? ==> s[i].order < y.order
    ensures Line(s[at := y], critical, |s|) == Line(s, critical, |s|) + [y]
  {
    LineAscending(s, critical, |s|);
    AppendAscending(Line(s, critical, |s|), y);
    LineAfterUpdate(s, at, y, critical, Line(s, critical, |s|) + [y]);
  }

  lemma ReplacedLine(s: seq<Slot>, at: nat, y: Slot, critical: bool) returns (k: nat)
    requires at < |s| && Apart(s) && InClass(s[at], critical) && InClass(y, critical) && y.order == s[at].order
    ensures k < |Line(s, critical, |s|)| && Line(s, critical, |s|)[k] == s[at]
    ensures Line(s[at := y], critical, |s|) == Line(s, critical, |s|)[k := y]
  {
    var line := Line(s, critical, |s|);
    LineAscending(s, critical, |s|);
    assert s[at] in line;
    k :| 0 <= k < |line| && line[k] == s[at];
    forall x | InClass(x, critical) ensures x in line[k := y] <==> x == y || (x in line && x != s[at]) {
      UpdateMembers(line, k, y, x);
    }
    LineAfterUpdate(s, at, y, critical, line[k := y]);
  }

  lemma {:induction false} WithoutMembers(line: seq<Slot>, k: nat)
    requires k < |line| && (forall x :: x in line ==> x.Held?) && Ascending(line)
    ensures Ascending(Without(line, k))
    ensures forall x :: x in Without(line, k) <==> x in line && x != line[k]
  {
    var w := Without(line, k);
    forall x ensures x in w <==> x in line && x != line[k] {
      if x in line && x != line[k] {
        var i :| 0 <= i < |line| && line[i] == x;
        assert x == if i < k then w[i] else w[i - 1];
      }
      if x in w {
        var i :| 0 <= i < |w| && w[i] == x;
        assert x == line[if i < k then i else i + 1];
        assert x.order != line[k].order;
      }
    }
  }

  lemma RemovedLine(s: seq<Slot>, at: nat, y: Slot, critical: bool, k: nat)
    requires at < |s| && Apart(s) && Apart(s[at := y]) && InClass(s[at], critical) && !InClass(y, critical)
    requires k < |Line(s, critical, |s|)| && Line(s, critical, |s|)[k] == s[at]
    ensures Line(s[at := y], critical, |s|) == Without(Line(s, critical, |s|), k)
  {
    LineAscending(s, critical, |s|);
    WithoutMembers(Line(s, critical, |s|), k);
    LineAfterUpdate(s, at, y, critical, Without(Line(s, critical, |s|), k));
  }

  lemma ReturnedLine(s: seq<Slot>, at: nat, y: Slot, critical: bool)
    requires at < |s| && Apart(s) && s[at].Held? && s[at].inflight && InClass(y, critical) && y.order == s[at].order
    ensures Line(s[at := y], critical, |s|) == Insert(Line(s, critical, |s|), y)
  {
    LineAscending(s, critical, |s|);
    InsertAscending(Line(s, critical, |s|), y);
    LineAfterUpdate(s, at, y, critical, Insert(Line(s, critical, |s|), y));
  }

  lemma {:induction false} SweptLine(s: seq<Slot>, now: nat, critical: bool)
    requires Apart(s)
    ensures Line(Swept(s, now, |s|), critical, |s|) == Living(Line(s, critical, |s|), now)
  {
    var t := Swept(s, now, |s|);
    LineAscending(s, critical, |s|);
    LivingAscending(Line(s, critical, |s|), now);
    forall x | InClass(x, critical) ensures x in Living(Line(s, critical, |s|), now) <==> x in t {
      if x in s && !x.Due(now) {
        var i :| 0 <= i < |s| && s[i] == x;
        assert t[i] == x;
      }
    }
    LineIs(t, critical, Living(Line(s, critical, |s|), now));
  }

  lemma OldestIsFirstLiving(line: seq<Slot>, now: nat, j: nat)
    requires (forall x :: x in line ==> x.Held?) && Ascending(line)
    requires j < |line| && !line[j].item.request.Expired(now)
    requires forall x :: x in line && !x.item.request.Expired(now) ==> line[j].order <= x.order
    ensures FirstLiving(line, now) == j
  {
    var k := FirstLiving(line, now);
    assert k < |line| ==> line[k] in line;
  }

  /** The head found by scanning the array is the first living item of the line. */
  lemma HeadIsFirstLiving(s: seq<Slot>, critical: bool, now: nat)
    requires |s| == CAPACITY && Apart(s)
    ensures var h, line := Head(s, critical, now, CAPACITY), Line(s, critical, CAPACITY);
            var k := FirstLiving(line, now);
            if h == CAPACITY then k == |line| else k < |line| && line[k] == s[h]
  {
    var h, line := Head(s, critical, now, CAPACITY), Line(s, critical, CAPACITY);
    forall x | x in line && !x.item.request.Expired(now) ensures h != CAPACITY && s[h].order <= x.order {
      var i :| 0 <= i < CAPACITY && s[i] == x;
      assert s[i].Ready(critical, now);
    }
    var k := FirstLiving(line, now);
    assert k < |line| ==> line[k] in line;
    if h != CAPACITY {
      LineAscending(s, critical, CAPACITY);
      assert s[h] in line;
      var j :| 0 <= j < |line| && line[j] == s[h];
      OldestIsFirstLiving(line, now, j);
    }
  }

  // Each operation of the array is a step of the machine.

  lemma PlaceRefines(q: Queue, r: Request, at: nat)
    requires Sized(q) && Placed(q, []) && OneInflight(q.slots) && at < CAPACITY && q.slots[at].Free?
    ensures var m, m' := LinesOf(q), LinesOf(Place(q, r, at));
            var x := Held(Item(r, q.lastToken + 1), q.lastToken + 1, 0, false);
            m' == m.(critical := if r.critical then m.critical + [x] else m.critical,
                     other := if r.critical then m.other else m.other + [x],
                     lastToken := m.lastToken + 1)
  {
    var x := Held(Item(r, q.lastToken + 1), q.lastToken + 1, 0, false);
    AppendedLine(q.slots, at, x, r.critical);
    UnchangedLine(q.slots, at, x, !r.critical);
    FlyingSame(q.slots, q.slots[at := x], CAPACITY);
  }

  lemma {:induction false} FlyingSame(s: seq<Slot>, t: seq<Slot>, n: nat)
    requires n <= |s| && n <= |t|
    requires forall i :: 0 <= i < n && s[i] != t[i] ==> !(s[i].Held? && s[i].inflight) && !(t[i].Held? && t[i].inflight)
    ensures Flying(s, n) == Flying(t, n)
  {
    if n > 0 { FlyingSame(s, t, n - 1); }
  }

  /** Giving a waiting noncritical slot a newer item changes one place of the other line. */
  lemma SupersededLines(s: seq<Slot>, at: nat, y: Slot) returns (k: nat)
    requires at < |s| && Apart(s) && InClass(s[at], false) && InClass(y, false) && y.order == s[at].order
    ensures k < |Line(s, false, |s|)| && Line(s, false, |s|)[k] == s[at]
    ensures Line(s[at := y], false, |s|) == Line(s, false, |s|)[k := y]
    ensures Line(s[at := y], true, |s|) == Line(s, true, |s|)
    ensures Flying(s[at := y], |s|) == Flying(s, |s|)
  {
    k := ReplacedLine(s, at, y, false);
    UnchangedLine(s, at, y, true);
    FlyingSame(s, s[at := y], |s|);
  }

  lemma {:induction false} SupersedeRefines(q: Queue, r: Request, at: nat) returns (k: nat)
    requires Sized(q) && Apart(q.slots) && at < CAPACITY && q.slots[at].Superseded(r)
    ensures var m, m' := LinesOf(q), LinesOf(Supersede(q, r, at));
            && Supersedes(m, r, k)
            && m' == m.(other := m.other[k := m.other[k].(item := Item(r, m.lastToken + 1))], lastToken := m.lastToken + 1)
  {
    var y := q.slots[at].(item := Item(r, q.lastToken + 1));
    k := SupersededLines(q.slots, at, y);
    assert LinesOf(q).other[k] == q.slots[at] && Supersede(q, r, at).slots == q.slots[at := y];
  }

  lemma {:induction false} SubmitRefines(q: Queue, r: Request, q': Queue)
    requires Sized(q) && Placed(q, []) && OneInflight(q.slots)
    requires q' == AfterSubmit(q, r).q
    ensures SubmitNext(LinesOf(q), LinesOf(q'), r)
  {
    var m := LinesOf(q);
    if !BadRequest(q, r) && !Oversize(r) {
      var older := LastSuperseded(q.slots, r, CAPACITY);
      CrowdedIsNoRoom(q, r);
      if older != CAPACITY {
        var k := SupersedeRefines(q, r, older);
      } else {
        forall k: nat ensures !Supersedes(m, r, k) {
          if k < |m.other| { assert m.other[k] in m.other; }
        }
        if !NoRoom(q, r) { PlaceRefines(q, r, FirstFree(q.slots, CAPACITY)); }
      }
    }
  }

  lemma {:induction false} ExpireRefines(q: Queue, now: nat, q': Queue)
    requires Sized(q) && Apart(q.slots) && OneInflight(q.slots)
    requires q' == AfterExpire(q, now)
    ensures WellFormed(LinesOf(q)) && LinesOf(q') == ExpireNext(LinesOf(q), now)
  {
    LinesWellFormed(q);
    SweptLine(q.slots, now, true);
    SweptLine(q.slots, now, false);
    FlyingSame(q.slots, Swept(q.slots, now, CAPACITY), CAPACITY);
  }

  lemma LaunchRefines(q: Queue, at: nat, critical: bool, k: nat, streak: nat)
    requires Sized(q) && Apart(q.slots) && at < CAPACITY && InClass(q.slots[at], critical)
    requires OneInflight(q.slots) && !AnyInflight(q.slots, CAPACITY)
    requires var line := Line(q.slots, critical, CAPACITY); k < |line| && line[k] == q.slots[at]
    ensures var m, m' := LinesOf(q), LinesOf(Launch(q, at, streak));
            && m'.flying == [q.slots[at].(inflight := true)] && m'.streak == streak && m'.lastToken == m.lastToken
            && m'.critical == (if critical then Without(m.critical, k) else m.critical)
            && m'.other == if critical then m.other else Without(m.other, k)
  {
    var y := q.slots[at].(inflight := true);
    RemovedLine(q.slots, at, y, critical, k);
    UnchangedLine(q.slots, at, y, !critical);
    FlyingOne(q.slots[at := y], at, CAPACITY);
  }

  lemma FrontIsEligible(q: Queue, critical: bool, now: nat)
    requires Sized(q) && Apart(q.slots)
    ensures var e, line := Eligible(q.slots, critical, now), Line(q.slots, critical, CAPACITY);
            var k := Front(line, now);
            if e == CAPACITY then k == |line| else k < |line| && line[k] == q.slots[e] && InClass(q.slots[e], critical)
  {
    HeadIsFirstLiving(q.slots, critical, now);
  }

  lemma {:induction false} ClaimRefines(q: Queue, now: nat, q': Queue)
    requires Sized(q) && Apart(q.slots) && OneInflight(q.slots)
    requires q' == AfterClaim(q, now).q
    ensures WellFormed(LinesOf(q)) && LinesOf(q') == ClaimNext(LinesOf(q), now)
  {
    LinesWellFormed(q);
    var c, o := Eligible(q.slots, true, now), Eligible(q.slots, false, now);
    FrontIsEligible(q, true, now);
    FrontIsEligible(q, false, now);
    if !AnyInflight(q.slots, CAPACITY) {
      if CriticalFirst(q, now) {
        LaunchRefines(q, c, true, Front(LinesOf(q).critical, now), if q.streak < CRITICAL_BURST then q.streak + 1 else q.streak);
      } else if o != CAPACITY {
        LaunchRefines(q, o, false, Front(LinesOf(q).other, now), 0);
      }
    }
  }

  lemma LandedFlying(s: seq<Slot>, at: nat, y: Slot)
    requires at < |s| && OneInflight(s) && s[at].Held? && s[at].inflight && !(y.Held? && y.inflight)
    ensures Flying(s[at := y], |s|) == []
  {
    FlyingNone(s[at := y], |s|);
  }

  lemma {:induction false} FinishRefines(q: Queue, slot: nat, token: nat, result: Result, now: nat, retryAfter: nat, q': Queue)
    requires Sized(q) && Apart(q.slots) && OneInflight(q.slots) && Concludes(q, slot, token)
    requires q' == AfterFinish(q, slot, token, result, now, retryAfter)
    ensures var m := LinesOf(q);
            && WellFormed(m) && m.flying == [q.slots[slot]]
            && LinesOf(q') == FinishNext(m, result, now, retryAfter)
  {
    LinesWellFormed(q);
    FlyingOne(q.slots, slot, CAPACITY);
    var x := q.slots[slot];
    var y := q'.slots[slot];
    LandedFlying(q.slots, slot, y);
    if y.Free? { ReleasedLines(q.slots, slot); } else { ReturnedLines(q.slots, slot, y); }
  }

  lemma ReleasedLines(s: seq<Slot>, at: nat)
    requires at < |s| && Apart(s) && s[at].Held? && s[at].inflight
    ensures Line(s[at := Free], true, |s|) == Line(s, true, |s|)
    ensures Line(s[at := Free], false, |s|) == Line(s, false, |s|)
  {
    UnchangedLine(s, at, Free, true);
    UnchangedLine(s, at, Free, false);
  }

  lemma ReturnedLines(s: seq<Slot>, at: nat, y: Slot)
    requires at < |s| && Apart(s) && s[at].Held? && s[at].inflight && y.Waiting() && y.order == s[at].order
    ensures var c := y.item.request.critical;
            && Line(s[at := y], c, |s|) == Insert(Line(s, c, |s|), y)
            && Line(s[at := y], !c, |s|) == Line(s, !c, |s|)
  {
    ReturnedLine(s, at, y, y.item.request.critical);
    UnchangedLine(s, at, y, !y.item.request.critical);
  }

  predicate Fit(q: Queue) { Sized(q) && Apart(q.slots) && OneInflight(q.slots) }

  /** The call takes the lines of one array to the lines of the next. */
  ghost predicate Moves(q: Queue, q': Queue, call: Call, now: nat)
    requires Sized(q) && Sized(q')
  {
    && WellFormed(LinesOf(q))
    && Next(LinesOf(q), LinesOf(q'), call, now, call.Finishes? && Concludes(q, call.slot, call.token))
  }

  ghost predicate Refines(h: History, e: Event, h': History)
    requires Sized(h.q) && Sized(h'.q)
  {
    Moves(h.q, h'.q, e.call, h.now + e.elapsed)
  }

  lemma {:induction false} CallRefines(h: History, e: Event, h': History)
    requires Fit(h.q) && Placed(h.q, []) && h' == Step(h, e)
    ensures Refines(h, e, h')
  {
    var q, q', c, now := h.q, h'.q, e.call, h.now + e.elapsed;
    if c.Submits? { LinesWellFormed(q); SubmitRefines(q, c.r, q'); }
    else if c.Expires? { ExpireRefines(q, now, q'); }
    else if c.Claims? { ClaimRefines(q, now, q'); }
    else if Concludes(q, c.slot, c.token) { FinishRefines(q, c.slot, c.token, c.result, now, c.retryAfter, q'); }
    else { LinesWellFormed(q); }
  }

  lemma ReachedFit(run: seq<Event>)
    ensures Fit(Execute(run).q) && Placed(Execute(run).q, [])
  {
    ReachedInvariant(run);
  }

  /** Every step the slot array takes, from every reachable state, is a step of the machine. */
  lemma {:induction false} StepRefines(run: seq<Event>, e: Event)
    ensures Refines(Execute(run), e, Execute(run + [e]))
  {
    ReachedFit(run);
    var h' := Execute(run + [e]);
    assert (run + [e])[..|run|] == run;
    CallRefines(Execute(run), e, h');
  }
}
