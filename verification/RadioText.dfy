/** Reading AT responses: which text is a complete answer, and what its lines say. */
module RadioText {
  import opened Wrappers

  const CAPACITY: nat := 512
  const UINT_MAX: nat := 0xFFFF_FFFF

  datatype Status = Wait | Ok | Error

  predicate Horizontal(c: char) { c == ' ' || c == '\t' || c == '\r' }
  predicate Digit(c: char) { '0' <= c <= '9' }

  function DigitValue(c: char): nat
    requires Digit(c)
  {
    c as nat - '0' as nat
  }

  function TrimLeft(s: string): (r: string)
    ensures |r| <= |s| && (r == "" || !Horizontal(r[0]))
  {
    if s != "" && Horizontal(s[0]) then TrimLeft(s[1..]) else s
  }

  function TrimRight(s: string): (r: string)
    ensures |r| <= |s| && (r == "" || !Horizontal(r[|r| - 1]))
  {
    if s != "" && Horizontal(s[|s| - 1]) then TrimRight(s[..|s| - 1]) else s
  }

  function Trim(s: string): (r: string)
    ensures |r| <= |s|
  {
    TrimRight(TrimLeft(s))
  }

  predicate StartsWith(s: string, prefix: string) { |prefix| <= |s| && s[..|prefix|] == prefix }

  /** Where the first line feed is; the length of the text when there is none. */
  function FeedAt(s: string): (k: nat)
    ensures k <= |s| && (k < |s| ==> s[k] == '\n') && forall i :: 0 <= i < k ==> s[i] != '\n'
  {
    if s == "" || s[0] == '\n' then 0 else 1 + FeedAt(s[1..])
  }

  /** The complete lines, trimmed; what follows the last line feed is still in flight. */
  function Lines(s: string): seq<string> {
    var k := FeedAt(s);
    if k == |s| then [] else [Trim(s[..k])] + Lines(s[k + 1..])
  }

  predicate Printable(c: char) {
    var v := c as nat;
    (0x20 <= v || c == '\r' || c == '\n' || c == '\t') && v <= 0x7e
  }

  predicate ErrorLine(line: string) {
    || line == "ERROR" || StartsWith(line, "+CME ERROR:") || StartsWith(line, "+CMS ERROR:")
    || line == "NO CARRIER" || line == "NO ANSWER" || line == "BUSY"
  }

  function ScanLines(lines: seq<string>, ok: bool): Status {
    if lines == [] then (if ok then Ok else Wait)
    else if ErrorLine(lines[0]) then Error
    else if lines[0] == "OK" then (if ok then Error else ScanLines(lines[1..], true))
    else ScanLines(lines[1..], ok)
  }

  predicate AllPrintable(s: string) { forall i :: 0 <= i < |s| ==> Printable(s[i]) }

  function ResponseStatus(s: string): Status {
    if CAPACITY <= |s| then Error
    else if s == "" then Wait
    else if !AllPrintable(s) then Error
    else ScanLines(Lines(s), false)
  }

  method Classify(s: string) returns (status: Status)
    ensures status == ResponseStatus(s)
  {
    if |s| >= CAPACITY { return Error; }
    if |s| == 0 { return Wait; }
    for i := 0 to |s|
      invariant forall k :: 0 <= k < i ==> Printable(s[k])
    {
      var c := s[i] as nat;
      if (c < 0x20 && s[i] != '\r' && s[i] != '\n' && s[i] != '\t') || c > 0x7e { return Error; }
    }
    var ok, remaining := false, s;
    ghost var whole := ScanLines(Lines(s), false);
    while FeedAt(remaining) < |remaining|
      invariant ScanLines(Lines(remaining), ok) == whole
      decreases |remaining|
    {
      var k := FeedAt(remaining);
      LinesFrom(remaining, k);
      var line := Trim(remaining[..k]);
      remaining := remaining[k + 1..];
      if ErrorLine(line) { return Error; }
      if line == "OK" {
        if ok { return Error; }
        ok := true;
      }
    }
    return if ok then Ok else Wait;
  }

  // What the classification means.

  function CountOk(lines: seq<string>): nat {
    if lines == [] then 0 else CountOk(lines[1..]) + if lines[0] == "OK" then 1 else 0
  }

  predicate NoErrorLine(lines: seq<string>) { forall i :: 0 <= i < |lines| ==> !ErrorLine(lines[i]) }

  lemma {:induction false} ScanExact(lines: seq<string>, ok: bool)
    ensures var oks := CountOk(lines) + if ok then 1 else 0;
            ScanLines(lines, ok) == if !NoErrorLine(lines) || 1 < oks then Error else if oks == 1 then Ok else Wait
  {
    if lines != [] {
      ScanExact(lines[1..], ok);
      ScanExact(lines[1..], true);
      assert NoErrorLine(lines) <==> !ErrorLine(lines[0]) && NoErrorLine(lines[1..]) by {
        assert forall i :: 0 <= i < |lines[1..]| ==> lines[1..][i] == lines[i + 1];
        assert forall i :: 0 < i < |lines| ==> lines[i] == lines[1..][i - 1];
      }
    }
  }

  /** An answer is accepted exactly when it is short, printable, has one OK line and no
      terminal error. */
  lemma {:induction false} OkExactly(s: string)
    ensures ResponseStatus(s) == Ok <==>
      |s| < CAPACITY && AllPrintable(s) && NoErrorLine(Lines(s)) && CountOk(Lines(s)) == 1
  {
    ScanExact(Lines(s), false);
  }

  lemma {:induction false} PrefixCons(x: string, a: seq<string>, b: seq<string>)
    requires a <= b
    ensures [x] + a <= [x] + b
  {
  }

  lemma {:induction false} LinesFrom(s: string, k: nat)
    requires k == FeedAt(s) < |s|
    ensures Lines(s) == [Trim(s[..k])] + Lines(s[k + 1..])
  {
  }

  /** Text behind the first line feed leaves the first line alone. */
  lemma {:induction false} FirstLineStays(s: string, more: string, k: nat)
    requires k == FeedAt(s) < |s|
    ensures Lines(s + more) == [Trim(s[..k])] + Lines(s[k + 1..] + more)
  {
    FeedStays(s, more);
    LinesFrom(s + more, k);
    assert (s + more)[..k] == s[..k];
    assert (s + more)[k + 1..] == s[k + 1..] + more;
  }

  lemma {:induction false} LinesGrow(s: string, more: string)
    ensures Lines(s) <= Lines(s + more)
    decreases |s|
  {
    var k := FeedAt(s);
    if k < |s| {
      LinesGrow(s[k + 1..], more);
      LinesFrom(s, k);
      FirstLineStays(s, more, k);
      PrefixCons(Trim(s[..k]), Lines(s[k + 1..]), Lines(s[k + 1..] + more));
    }
  }

  lemma {:induction false} FeedStays(s: string, more: string)
    requires FeedAt(s) < |s|
    ensures FeedAt(s + more) == FeedAt(s)
  {
    if s[0] != '\n' {
      FeedStays(s[1..], more);
      assert (s + more)[1..] == s[1..] + more;
    }
  }

  lemma {:induction false} CountOkConcat(a: seq<string>, b: seq<string>)
    ensures CountOk(a + b) == CountOk(a) + CountOk(b)
  {
    if a == [] {
      assert a + b == b;
    } else {
      CountOkConcat(a[1..], b);
      assert (a + b)[1..] == a[1..] + b;
    }
  }

  /** More of a response never takes an error back, nor a completed OK to waiting again. */
  lemma {:induction false} StatusOnlyHardens(s: string, more: string)
    ensures ResponseStatus(s) == Error ==> ResponseStatus(s + more) == Error
    ensures ResponseStatus(s) == Ok ==> ResponseStatus(s + more) != Wait
  {
    var t := s + more;
    LinesGrow(s, more);
    var a, b := Lines(s), Lines(t)[|Lines(s)|..];
    assert Lines(t) == a + b;
    CountOkConcat(a, b);
    ScanExact(a, false);
    ScanExact(a + b, false);
    assert forall i :: 0 <= i < |a| ==> (a + b)[i] == a[i];
    assert forall i :: 0 <= i < |s| ==> t[i] == s[i];
  }

  // Values.

  datatype Named = Other | Malformed | Value(text: string)

  /** A line of the form `key: value`, with white space around the colon. */
  function NamedValue(line: string, key: string): Named {
    if !StartsWith(line, key) then Other
    else
      var rest := line[|key|..];
      if rest != "" && rest[0] != ':' && !Horizontal(rest[0]) then Other
      else
        var t := Trim(rest);
        if t == "" || t[0] != ':' then Malformed else Value(Trim(t[1..]))
  }

  function DigitsEnd(s: string): (k: nat)
    ensures k <= |s| && (forall i :: 0 <= i < k ==> Digit(s[i])) && (k < |s| ==> !Digit(s[k]))
  {
    if s != "" && Digit(s[0]) then 1 + DigitsEnd(s[1..]) else 0
  }

  function NumberOf(digits: string): nat
    requires forall i :: 0 <= i < |digits| ==> Digit(digits[i])
  {
    if digits == "" then 0
    else 10 * NumberOf(digits[..|digits| - 1]) + DigitValue(digits[|digits| - 1])
  }

  datatype Taken = Taken(number: nat, rest: string) | NotTaken

  /** An unsigned number in front, and what is left behind it. */
  function TakeUnsigned(text: string): (r: Taken)
    ensures r.Taken? ==> |r.rest| < |text|
  {
    var t := Trim(text);
    var k := DigitsEnd(t);
    if k == 0 || UINT_MAX < NumberOf(t[..k]) then NotTaken else Taken(NumberOf(t[..k]), Trim(t[k..]))
  }

  lemma {:induction false} LongerNumber(s: string, k: nat)
    requires (forall i :: 0 <= i < |s| ==> Digit(s[i])) && k <= |s|
    ensures NumberOf(s[..k]) <= NumberOf(s)
  {
    if k < |s| {
      LongerNumber(s[..|s| - 1], k);
      assert s[..|s| - 1][..k] == s[..k];
    } else {
      assert s[..k] == s;
    }
  }

  method ReadUnsigned(text: string) returns (r: Taken)
    ensures r == TakeUnsigned(text)
  {
    var t := Trim(text);
    var value, count := 0, 0;
    ghost var end := DigitsEnd(t);
    while count < |t| && Digit(t[count])
      invariant 0 <= count <= end
      invariant value == NumberOf(t[..count]) && value <= UINT_MAX
    {
      var digit := DigitValue(t[count]);
      assert t[..count + 1][..count] == t[..count];
      if value > (UINT_MAX - digit) / 10 {
        assert t[..end][..count + 1] == t[..count + 1];
        LongerNumber(t[..end], count + 1);
        return NotTaken;
      }
      value := value * 10 + digit;
      count := count + 1;
    }
    assert count == end;
    if count == 0 { return NotTaken; }
    return Taken(value, Trim(t[count..]));
  }

  datatype ScalarScan = ScalarScan(found: bool, value: nat, terminal: bool)

  /** One line of a scalar read-back; none when the response is to be refused. */
  function ScalarLine(c: ScalarScan, line: string, key: string): Option<ScalarScan> {
    var c := c.(terminal := c.terminal || line == "OK");
    match NamedValue(line, key)
    case Malformed => None
    case Other => Some(c)
    case Value(text) =>
      var n := TakeUnsigned(text);
      if c.terminal || c.found || n.NotTaken? || n.rest != "" then None
      else Some(c.(found := true, value := n.number))
  }

  function ScalarLines(c: ScalarScan, lines: seq<string>, key: string): Option<ScalarScan>
    decreases |lines|
  {
    if lines == [] then Some(c)
    else
      var c' := ScalarLine(c, lines[0], key);
      if c'.None? then None else ScalarLines(c'.value, lines[1..], key)
  }

  function ScalarOf(response: string, key: string): Option<nat> {
    var c := ScalarLines(ScalarScan(false, 0, false), Lines(response), key);
    if c.None? || !c.value.found then None else Some(c.value.value)
  }

  method ReadScalarLine(c: ScalarScan, line: string, key: string) returns (c': Option<ScalarScan>)
    ensures c' == ScalarLine(c, line, key)
  {
    var terminal := c.terminal || line == "OK";
    var named := NamedValue(line, key);
    if named.Malformed? { return None; }
    if named.Other? { return Some(c.(terminal := terminal)); }
    var n := ReadUnsigned(named.text);
    if terminal || c.found || n.NotTaken? || n.rest != "" { return None; }
    return Some(ScalarScan(true, n.number, terminal));
  }

  method ReadScalarText(response: string, key: string) returns (value: Option<nat>)
    ensures value == ScalarOf(response, key)
  {
    var remaining, c := response, ScalarScan(false, 0, false);
    ghost var whole := ScalarLines(c, Lines(response), key);
    while FeedAt(remaining) < |remaining|
      invariant ScalarLines(c, Lines(remaining), key) == whole
      decreases |remaining|
    {
      var k := FeedAt(remaining);
      LinesFrom(remaining, k);
      var next := ReadScalarLine(c, Trim(remaining[..k]), key);
      if next.None? { return None; }
      remaining, c := remaining[k + 1..], next.value;
    }
    return if c.found then Some(c.value) else None;
  }

  // Bands.

  datatype Settings = Invalid | Mismatch | Match

  /** A comma-separated list of numbers. */
  function Numbers(text: string): (r: Option<seq<nat>>)
    decreases |text|
  {
    var n := TakeUnsigned(text);
    if n.NotTaken? then None
    else if n.rest == "" then Some([n.number])
    else if n.rest[0] != ',' then None
    else
      var more := Numbers(n.rest[1..]);
      if more.None? then None else Some([n.number] + more.value)
  }

  /** Bands are from 1 to 255 and named once. */
  predicate Bands(list: seq<nat>) {
    && (forall i :: 0 <= i < |list| ==> 0 < list[i] <= 255)
    && forall i, j :: 0 <= i < j < |list| ==> list[i] != list[j]
  }

  predicate WantedBands(list: seq<nat>) { |list| == 2 && 3 in list && 20 in list }

  datatype BandScan = BandScan(found: bool, matches: bool, terminal: bool)

  const NB_IOT: string := "\"NB-IOT\""
  const CAT_M: string := "\"CAT-M\""

  /** The bands listed behind the CAT-M tag. */
  function CatMBands(text: string): Option<seq<nat>>
    requires StartsWith(text, CAT_M)
  {
    var rest := Trim(text[|CAT_M|..]);
    if rest == "" || rest[0] != ',' then None else Numbers(rest[1..])
  }

  function ListVerdict(list: Option<seq<nat>>): Option<bool> {
    if list.None? || !Bands(list.value) then None else Some(WantedBands(list.value))
  }

  function BandLine(c: BandScan, line: string): Option<BandScan> {
    var c := c.(terminal := c.terminal || line == "OK");
    match NamedValue(line, "+CBANDCFG")
    case Malformed => None
    case Other => Some(c)
    case Value(text) =>
      if StartsWith(text, NB_IOT) then Some(c)
      else if !StartsWith(text, CAT_M) || c.found || c.terminal then None
      else
        var wanted := ListVerdict(CatMBands(text));
        if wanted.None? then None else Some(c.(found := true, matches := wanted.value))
  }

  function BandLines(c: BandScan, lines: seq<string>): Option<BandScan>
    decreases |lines|
  {
    if lines == [] then Some(c)
    else
      var c' := BandLine(c, lines[0]);
      if c'.None? then None else BandLines(c'.value, lines[1..])
  }

  function BandsOf(response: string): Settings {
    var c := BandLines(BandScan(false, false, false), Lines(response));
    if c.None? || !c.value.found then Invalid else if c.value.matches then Match else Mismatch
  }

  /** The list of a line that names the CAT-M bands. */
  function ListOn(line: string): Option<seq<nat>> {
    match NamedValue(line, "+CBANDCFG")
    case Value(text) =>
      if StartsWith(text, NB_IOT) || !StartsWith(text, CAT_M) then None else CatMBands(text)
    case _ => None
  }

  predicate Intact(lines: seq<string>, key: string) {
    forall i :: 0 <= i < |lines| ==> !NamedValue(lines[i], key).Malformed?
  }

  /** The line says something of bands other than those of NB-IoT. */
  predicate Telling(line: string) {
    NamedValue(line, "+CBANDCFG").Value? && !StartsWith(NamedValue(line, "+CBANDCFG").text, NB_IOT)
  }

  predicate NoneTelling(lines: seq<string>) { forall i :: 0 <= i < |lines| ==> !Telling(lines[i]) }

  /** Line `k` alone tells of bands, in front of any OK, and its list is `list`. */
  predicate ListAt(lines: seq<string>, k: nat, list: seq<nat>) {
    && k < |lines| && ListOn(lines[k]) == Some(list) && "OK" !in lines[..k]
    && NoneTelling(lines[..k]) && NoneTelling(lines[k + 1..])
  }

  /** The lines name the CAT-M bands once, in front of any OK, as `list`. */
  ghost predicate Show(lines: seq<string>, list: seq<nat>) {
    Intact(lines, "+CBANDCFG") && exists k: nat :: ListAt(lines, k, list)
  }

  ghost predicate ShowsWanted(response: string) { Show(Lines(response), [3, 20]) || Show(Lines(response), [20, 3]) }

  /** Once the bands were found, the rest may only be silent about them. */
  lemma {:induction false} FoundScans(c: BandScan, lines: seq<string>)
    requires c.found
    ensures var r := BandLines(c, lines);
            && (r.Some? <==> Intact(lines, "+CBANDCFG") && NoneTelling(lines))
            && (r.Some? ==> r.value.found && r.value.matches == c.matches)
    decreases |lines|
  {
    if lines != [] {
      var line, rest := lines[0], lines[1..];
      assert lines == [line] + rest;
      if BandLine(c, line).Some? { FoundScans(BandLine(c, line).value, rest); }
    }
  }

  predicate WantedAt(lines: seq<string>, k: nat) { ListAt(lines, k, [3, 20]) || ListAt(lines, k, [20, 3]) }

  lemma WantedExactly(list: seq<nat>)
    ensures Bands(list) && WantedBands(list) <==> list == [3, 20] || list == [20, 3]
  {
    if |list| == 2 { assert list == [list[0], list[1]]; }
  }

  lemma SilentInFront(line: string, s: seq<string>)
    requires !Telling(line)
    ensures NoneTelling([line] + s) <==> NoneTelling(s)
    ensures "OK" !in [line] + s <==> line != "OK" && "OK" !in s
  {
    assert forall i :: 0 <= i < |s| ==> s[i] == ([line] + s)[i + 1];
  }

  lemma {:induction false} LaterAt(line: string, rest: seq<string>, k: nat, list: seq<nat>)
    requires !Telling(line)
    ensures ListAt([line] + rest, k + 1, list) <==> line != "OK" && ListAt(rest, k, list)
    ensures !ListAt([line] + rest, 0, list)
  {
    var lines := [line] + rest;
    if k < |rest| {
      assert lines[..k + 1] == [line] + rest[..k] && lines[k + 2..] == rest[k + 1..] && lines[k + 1] == rest[k];
      SilentInFront(line, rest[..k]);
    }
  }

  lemma HereAt(line: string, rest: seq<string>, k: nat, list: seq<nat>)
    requires Telling(line)
    ensures ListAt([line] + rest, k, list) <==> k == 0 && ListOn(line) == Some(list) && NoneTelling(rest)
  {
    var lines := [line] + rest;
    assert lines[1..] == rest;
    if 0 < k < |lines| { assert lines[..k][0] == line; }
  }

  lemma TellingReads(c: BandScan, line: string)
    requires Telling(line) && !c.found && line != "OK"
    ensures BandLine(c, line)
         == if c.terminal || ListOn(line).None? || !Bands(ListOn(line).value) then None
            else Some(c.(found := true, matches := WantedBands(ListOn(line).value)))
  {
  }

  lemma {:induction false} UnfoundScans(c: BandScan, lines: seq<string>)
    requires !c.found && !c.matches
    ensures var r := BandLines(c, lines);
            (r.Some? && r.value.found && r.value.matches) <==>
              !c.terminal && Intact(lines, "+CBANDCFG") && exists k: nat :: WantedAt(lines, k)
    decreases |lines|
  {
    if lines != [] {
      var line, rest := lines[0], lines[1..];
      assert lines == [line] + rest;
      assert Intact(lines, "+CBANDCFG") <==> !NamedValue(line, "+CBANDCFG").Malformed? && Intact(rest, "+CBANDCFG");
      if Telling(line) {
        TellingScans(c, line, rest);
      } else if !NamedValue(line, "+CBANDCFG").Malformed? {
        UnfoundScans(c.(terminal := c.terminal || line == "OK"), rest);
        SilentWanted(line, rest);
      }
    }
  }

  lemma {:induction false} SilentWanted(line: string, rest: seq<string>)
    requires !Telling(line)
    ensures (exists k: nat :: WantedAt([line] + rest, k)) <==> line != "OK" && exists k: nat :: WantedAt(rest, k)
  {
    forall k: nat, list: seq<nat>
      ensures ListAt([line] + rest, k + 1, list) <==> line != "OK" && ListAt(rest, k, list)
      ensures !ListAt([line] + rest, 0, list)
    {
      LaterAt(line, rest, k, list);
    }
    if exists k: nat :: WantedAt([line] + rest, k) {
      var k: nat :| WantedAt([line] + rest, k);
      assert k > 0 && WantedAt(rest, k - 1);
    }
    if line != "OK" && exists k: nat :: WantedAt(rest, k) {
      var k: nat :| WantedAt(rest, k);
      assert WantedAt([line] + rest, k + 1);
    }
  }

  lemma {:induction false} TellingWanted(line: string, rest: seq<string>)
    requires Telling(line)
    ensures (exists k: nat :: WantedAt([line] + rest, k)) <==>
              NoneTelling(rest) && (ListOn(line) == Some([3, 20]) || ListOn(line) == Some([20, 3]))
  {
    HereAt(line, rest, 0, [3, 20]);
    HereAt(line, rest, 0, [20, 3]);
    if exists k: nat :: WantedAt([line] + rest, k) {
      var k: nat :| WantedAt([line] + rest, k);
      HereAt(line, rest, k, [3, 20]);
      HereAt(line, rest, k, [20, 3]);
    } else {
      assert !WantedAt([line] + rest, 0);
    }
  }

  lemma {:induction false} TellingScans(c: BandScan, line: string, rest: seq<string>)
    requires Telling(line) && !c.found
    ensures var r := BandLines(c, [line] + rest);
            (r.Some? && r.value.found && r.value.matches) <==>
              !c.terminal && Intact([line] + rest, "+CBANDCFG") && exists k: nat :: WantedAt([line] + rest, k)
  {
    var lines := [line] + rest;
    assert lines[1..] == rest;
    assert Intact(lines, "+CBANDCFG") <==> Intact(rest, "+CBANDCFG") by {
      assert forall i :: 0 <= i < |rest| ==> rest[i] == lines[i + 1];
    }
    TellingWanted(line, rest);
    TellingReads(c, line);
    if ListOn(line).Some? { WantedExactly(ListOn(line).value); }
    var c' := BandLine(c, line);
    if c'.Some? { FoundScans(c'.value, rest); }
  }

  lemma {:induction false} WantedShown(lines: seq<string>)
    ensures Intact(lines, "+CBANDCFG") && (exists k: nat :: WantedAt(lines, k)) <==> Show(lines, [3, 20]) || Show(lines, [20, 3])
  {
    if exists k: nat :: WantedAt(lines, k) {
      var k: nat :| WantedAt(lines, k);
      assert ListAt(lines, k, [3, 20]) || ListAt(lines, k, [20, 3]);
    }
    if exists k: nat :: ListAt(lines, k, [3, 20]) {
      var k: nat :| ListAt(lines, k, [3, 20]);
      assert WantedAt(lines, k);
    }
    if exists k: nat :: ListAt(lines, k, [20, 3]) {
      var k: nat :| ListAt(lines, k, [20, 3]);
      assert WantedAt(lines, k);
    }
  }

  /** The bands read back match exactly when the response shows B3 and B20, in either order. */
  lemma {:induction false} MatchExactly(response: string)
    ensures BandsOf(response).Match? <==> ShowsWanted(response)
  {
    UnfoundScans(BandScan(false, false, false), Lines(response));
    WantedShown(Lines(response));
  }

  /** What a list goes on with behind the number just taken. */
  function More(n: Taken): Option<seq<nat>>
    requires n.Taken?
  {
    if n.rest == "" then Some([]) else if n.rest[0] != ',' then None else Numbers(n.rest[1..])
  }

  lemma {:induction false} NumbersStep(list: seq<nat>, text: string, n: Taken)
    requires n == TakeUnsigned(text) && n.Taken?
    ensures Joined(list, Numbers(text)) == Joined(list + [n.number], More(n))
  {
    var more := More(n);
    assert [n.number] + [] == [n.number];
    assert Numbers(text) == if more.None? then None else Some([n.number] + more.value);
    if more.Some? { assert list + ([n.number] + more.value) == list + [n.number] + more.value; }
  }

  /** The list so far, with what the rest of the text adds. */
  function Joined(list: seq<nat>, more: Option<seq<nat>>): Option<seq<nat>> {
    if more.None? then None else Some(list + more.value)
  }

  lemma JoinedEmpty(more: Option<seq<nat>>)
    ensures Joined([], more) == more
  {
    if more.Some? { assert [] + more.value == more.value; }
  }

  lemma BadBand(list: seq<nat>, b: nat, more: Option<seq<nat>>)
    requires b == 0 || 255 < b || b in list
    ensures ListVerdict(Joined(list + [b], more)).None?
  {
    if more.Some? {
      var all := list + [b] + more.value;
      assert all[|list|] == b;
      if b in list {
        var i :| 0 <= i < |list| && list[i] == b;
        assert all[i] == b;
      }
    }
  }

  predicate Marks(flags: seq<bool>, list: seq<nat>) {
    |flags| == 256 && Bands(list) && forall b :: 0 <= b < 256 ==> (flags[b] <==> b in list)
  }

  lemma MarksStep(flags: seq<bool>, list: seq<nat>, b: nat)
    requires Marks(flags, list) && 0 < b <= 255 && !flags[b]
    ensures Marks(flags[b := true], list + [b])
  {
  }

  lemma MarksVerdict(flags: seq<bool>, list: seq<nat>)
    requires Marks(flags, list)
    ensures ListVerdict(Joined(list, Some([]))) == Some(|list| == 2 && flags[3] && flags[20])
  {
    assert list + [] == list;
  }

  /** The band list against one flag for each band. */
  method ReadBandList(text: string) returns (wanted: Option<bool>)
    ensures wanted == ListVerdict(Numbers(text))
  {
    var seen := new bool[256](_ => false);
    var count, rest := 0, text;
    ghost var list: seq<nat> := [];
    JoinedEmpty(Numbers(text));
    while true
      invariant Marks(seen[..], list) && count == |list|
      invariant Numbers(text) == Joined(list, Numbers(rest))
      decreases |rest|
    {
      var n := ReadUnsigned(rest);
      if n.NotTaken? { return None; }
      NumbersStep(list, rest, n);
      if n.number == 0 || n.number > 255 || seen[n.number] {
        assert n.number == 0 || n.number > 255 || seen[..][n.number];
        BadBand(list, n.number, More(n));
        return None;
      }
      ghost var before := seen[..];
      MarksStep(before, list, n.number);
      seen[n.number] := true;
      assert seen[..] == before[n.number := true];
      list := list + [n.number];
      count := count + 1;
      if n.rest == "" {
        MarksVerdict(seen[..], list);
        return Some(count == 2 && seen[3] && seen[20]);
      }
      if n.rest[0] != ',' { return None; }
      rest := n.rest[1..];
    }
  }

  method ReadBandLine(c: BandScan, line: string) returns (c': Option<BandScan>)
    ensures c' == BandLine(c, line)
  {
    var terminal := c.terminal || line == "OK";
    var named := NamedValue(line, "+CBANDCFG");
    if named.Malformed? { return None; }
    if named.Other? || StartsWith(named.text, NB_IOT) { return Some(c.(terminal := terminal)); }
    if !StartsWith(named.text, CAT_M) || c.found || terminal { return None; }
    var rest := Trim(named.text[|CAT_M|..]);
    if rest == "" || rest[0] != ',' { return None; }
    var wanted := ReadBandList(rest[1..]);
    if wanted.None? { return None; }
    return Some(BandScan(true, wanted.value, terminal));
  }

  method ReadBandsText(response: string) returns (result: Settings)
    ensures result == BandsOf(response)
  {
    var remaining, c := response, BandScan(false, false, false);
    ghost var whole := BandLines(c, Lines(response));
    while FeedAt(remaining) < |remaining|
      invariant BandLines(c, Lines(remaining)) == whole
      decreases |remaining|
    {
      var k := FeedAt(remaining);
      LinesFrom(remaining, k);
      var next := ReadBandLine(c, Trim(remaining[..k]));
      if next.None? { return Invalid; }
      remaining, c := remaining[k + 1..], next.value;
    }
    return if !c.found then Invalid else if c.matches then Match else Mismatch;
  }
}
