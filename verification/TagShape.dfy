/** Version-shaped image tags and the newer-tag hint (internal/updatecheck/tags.go). */
module TagShape {
  import opened Options
  import opened Sequences

  /** An optional v, dot-separated numbers, and everything after them verbatim. */
  datatype Shape = Shape(v: bool, nums: seq<nat>, suffix: string)

  /** The largest number the platform's integer parser accepts. */
  const MAX_INT := 0x7fff_ffff_ffff_ffff

  predicate IsDigit(c: char) {
    '0' <= c <= '9'
  }

  function Digit(c: char): nat
    requires IsDigit(c)
  {
    c as int - '0' as int
  }

  predicate AllDigits(s: string) {
    forall i :: 0 <= i < |s| ==> IsDigit(s[i])
  }

  /** The number a digit group spells, leading zeros allowed. */
  function Value(s: string): nat
    requires AllDigits(s)
  {
    if s == [] then 0 else 10 * Value(s[..|s| - 1]) + Digit(s[|s| - 1])
  }

  /** Numbers are read in decimal. */
  lemma ValueIsDecimal(s: string, c: char)
    requires AllDigits(s) && IsDigit(c)
    ensures Value("0") == 0 && Value("1") == 1 && Value("2") == 2 && Value("3") == 3 && Value("4") == 4
    ensures Value("5") == 5 && Value("6") == 6 && Value("7") == 7 && Value("8") == 8 && Value("9") == 9
    ensures Value(s + [c]) == 10 * Value(s) + Value([c])
  {
    assert (s + [c])[..|s|] == s && [c][..0] == [];
  }

  /** How many digits a string begins with. */
  function DigitRun(s: string): (n: nat)
    ensures n <= |s| && AllDigits(s[..n]) && (n < |s| ==> !IsDigit(s[n]))
  {
    if s == [] || !IsDigit(s[0]) then 0
    else
      var n := 1 + DigitRun(s[1..]);
      assert forall i :: 1 <= i < n ==> s[i] == s[1..][i - 1];
      n
  }

  datatype Numbers = Numbers(nums: seq<nat>, suffix: string)

  /** The numbers and the suffix of what follows the prefix or a dot. */
  function ParseNumbers(rest: string, first: bool): Option<Numbers>
    decreases |rest|
  {
    var i := DigitRun(rest);
    if i == 0 then
      if first then None else Some(Numbers([], "." + rest))
    else if Value(rest[..i]) > MAX_INT then None
    else if i == |rest| || rest[i] != '.' then Some(Numbers([Value(rest[..i])], rest[i..]))
    else
      var more := ParseNumbers(rest[i + 1..], false);
      if more.None? then None else Some(Numbers([Value(rest[..i])] + more.value.nums, more.value.suffix))
  }

  function Parse(tag: string): Option<Shape> {
    var v := tag != [] && tag[0] == 'v';
    var n := ParseNumbers(if v then tag[1..] else tag, true);
    if n.None? then None else Some(Shape(v, n.value.nums, n.value.suffix))
  }

  // ---------- the grammar of a version-shaped tag ----------

  predicate IsGroup(g: string) {
    g != [] && AllDigits(g) && Value(g) <= 0x7fff_ffff_ffff_ffff
  }

  /** Groups joined by dots. */
  function Joined(groups: seq<string>): string {
    if groups == [] then "" else if |groups| == 1 then groups[0] else groups[0] + "." + Joined(groups[1..])
  }

  predicate AreGroups(groups: seq<string>) {
    forall k :: 0 <= k < |groups| ==> IsGroup(groups[k])
  }

  function Values(groups: seq<string>): seq<nat>
    requires AreGroups(groups)
  {
    if groups == [] then []
    else
      assert IsGroup(groups[0]);
      [Value(groups[0])] + Values(groups[1..])
  }

  /** The suffix does not continue the numbers. */
  predicate Stops(suffix: string) {
    suffix != [] ==> !IsDigit(suffix[0]) && (suffix[0] == '.' && |suffix| > 1 ==> !IsDigit(suffix[1]))
  }

  ghost predicate Spelled(rest: string, groups: seq<string>, n: Numbers) {
    && groups != [] && AreGroups(groups)
    && n.nums == Values(groups) && Stops(n.suffix) && rest == Joined(groups) + n.suffix
  }

  /** The tag is the shape's prefix, digit groups spelling its numbers joined by dots, and its suffix. */
  ghost predicate HasShape(tag: string, s: Shape) {
    exists groups: seq<string> :: SpelledTag(tag, s, groups)
  }

  ghost predicate VersionShaped(tag: string) {
    exists s: Shape :: HasShape(tag, s)
  }

  ghost predicate SpelledTag(tag: string, s: Shape, groups: seq<string>) {
    (s.v ==> StartsWithV(tag)) && Spelled(if s.v then DropV(tag) else tag, groups, Numbers(s.nums, s.suffix))
  }

  predicate StartsWithV(tag: string) {
    tag != [] && tag[0] == 'v'
  }

  function DropV(tag: string): string {
    if StartsWithV(tag) then tag[1..] else tag
  }

  lemma {:induction false} DigitRunOf(g: string, rest: string)
    requires AllDigits(g) && (rest != [] ==> !IsDigit(rest[0]))
    ensures DigitRun(g + rest) == |g|
  {
    if g != [] {
      assert (g + rest)[1..] == g[1..] + rest;
      DigitRunOf(g[1..], rest);
    } else {
      assert g + rest == rest;
    }
  }

  lemma OneValue(g: string)
    requires IsGroup(g)
    ensures Values([g]) == [Value(g)]
  {
    assert [g][1..] == [];
    assert Values([g]) == [Value(g)] + Values([]);
  }

  lemma OneGroupIsParsed(g: string, suffix: string, first: bool)
    requires IsGroup(g) && Stops(suffix)
    ensures ParseNumbers(g + suffix, first) == Some(Numbers([Value(g)], suffix))
  {
    var rest := g + suffix;
    DigitRunOf(g, suffix);
    assert rest[..|g|] == g && rest[|g|..] == suffix;
    if suffix != [] && suffix[0] == '.' {
      var tail := rest[|g| + 1..];
      assert tail == suffix[1..];
      assert "." + tail == suffix;
      assert ParseNumbers(tail, false) == Some(Numbers([], suffix));
      assert [Value(g)] + [] == [Value(g)];
    }
  }

  /** What is spelled by the grammar is parsed back. */
  lemma {:induction false} SpelledIsParsed(rest: string, groups: seq<string>, n: Numbers, first: bool)
    requires Spelled(rest, groups, n)
    ensures ParseNumbers(rest, first) == Some(n)
    decreases |groups|
  {
    var g := groups[0];
    assert IsGroup(g);
    if |groups| == 1 {
      assert groups == [g];
      OneValue(g);
      assert rest == g + n.suffix;
      OneGroupIsParsed(g, n.suffix, first);
    } else {
      var after := Joined(groups[1..]) + n.suffix;
      assert rest == g + ("." + after);
      DigitRunOf(g, "." + after);
      assert rest[..|g|] == g && rest[|g| + 1..] == after && rest[|g|] == '.';
      SpelledIsParsed(after, groups[1..], Numbers(Values(groups[1..]), n.suffix), false);
    }
  }

  /** One digit group and the suffix after it. */
  lemma OneGroup(g: string, suffix: string)
    requires IsGroup(g) && Stops(suffix)
    ensures Spelled(g + suffix, [g], Numbers([Value(g)], suffix))
  {
    OneValue(g);
  }

  lemma MoreGroups(g: string, rest: string, groups: seq<string>, n: Numbers)
    requires IsGroup(g) && Spelled(rest, groups, n)
    ensures Spelled(g + ("." + rest), [g] + groups, Numbers([Value(g)] + n.nums, n.suffix))
  {
    var all := [g] + groups;
    assert all[1..] == groups;
    assert Joined(all) == g + "." + Joined(groups);
    assert g + ("." + rest) == Joined(all) + n.suffix;
  }

  /** What is parsed is spelled by the grammar. */
  lemma {:induction false} ParsedIsSpelled(rest: string) returns (groups: seq<string>)
    requires ParseNumbers(rest, true).Some?
    ensures Spelled(rest, groups, ParseNumbers(rest, true).value)
    decreases |rest|
  {
    var i := DigitRun(rest);
    var g := rest[..i];
    assert IsGroup(g);
    if i == |rest| || rest[i] != '.' {
      OneGroup(g, rest[i..]);
      assert rest == g + rest[i..];
      return [g];
    }
    var tail := rest[i + 1..];
    assert rest == g + ("." + tail);
    if DigitRun(tail) == 0 {
      OneGroup(g, "." + tail);
      assert [Value(g)] + [] == [Value(g)];
      return [g];
    }
    var more := ParsedIsSpelled(tail);
    MoreGroups(g, tail, more, ParseNumbers(tail, true).value);
    return [g] + more;
  }

  /** Parsing is the inverse of the grammar, both ways: a tag parses to a shape iff it has that shape. */
  lemma ParsesIffHasShape(tag: string, s: Shape)
    ensures Parse(tag) == Some(s) <==> HasShape(tag, s)
  {
    if Parse(tag) == Some(s) {
      var groups := ParsedIsSpelled(DropV(tag));
      assert SpelledTag(tag, s, groups);
    }
    if HasShape(tag, s) {
      var groups: seq<string> :| SpelledTag(tag, s, groups);
      assert IsGroup(groups[0]);
      if !s.v {
        assert tag[0] == groups[0][0];
      }
      SpelledIsParsed(DropV(tag), groups, Numbers(s.nums, s.suffix), true);
    }
  }

  // ---------- printing ----------

  function DigitChar(d: nat): (c: char)
    requires d < 10
    ensures IsDigit(c) && Digit(c) == d
  {
    ('0' as int + d) as char
  }

  function Decimal(n: nat): (s: string)
    ensures s != [] && AllDigits(s) && Value(s) == n
  {
    if n < 10 then [DigitChar(n)]
    else
      var s := Decimal(n / 10) + [DigitChar(n % 10)];
      assert s[..|s| - 1] == Decimal(n / 10);
      s
  }

  function Decimals(nums: seq<nat>): seq<string> {
    if nums == [] then [] else [Decimal(nums[0])] + Decimals(nums[1..])
  }

  function Print(s: Shape): string {
    (if s.v then "v" else "") + Joined(Decimals(s.nums)) + s.suffix
  }

  predicate WellFormed(s: Shape) {
    s.nums != [] && Stops(s.suffix) && forall k :: 0 <= k < |s.nums| ==> s.nums[k] <= MAX_INT
  }

  lemma {:induction false} DecimalsAreGroups(nums: seq<nat>)
    requires forall k :: 0 <= k < |nums| ==> nums[k] <= MAX_INT
    ensures |Decimals(nums)| == |nums| && AreGroups(Decimals(nums))
    ensures Values(Decimals(nums)) == nums
  {
    if nums != [] {
      DecimalsAreGroups(nums[1..]);
      var d := Decimals(nums);
      assert d[1..] == Decimals(nums[1..]);
      assert forall k :: 1 <= k < |nums| ==> d[k] == d[1..][k - 1];
    }
  }

  /** Parsing inverts printing on every well-formed shape. */
  lemma PrintedIsParsed(s: Shape)
    requires WellFormed(s)
    ensures Parse(Print(s)) == Some(s)
  {
    DecimalsAreGroups(s.nums);
    var rest := Joined(Decimals(s.nums)) + s.suffix;
    assert Spelled(rest, Decimals(s.nums), Numbers(s.nums, s.suffix));
    if s.v {
      assert Print(s) == "v" + rest;
      assert DropV(Print(s)) == rest;
    } else {
      assert Print(s) == rest;
    }
    assert SpelledTag(Print(s), s, Decimals(s.nums));
    ParsesIffHasShape(Print(s), s);
  }

  /** Exactly the well-formed shapes are parsed from some tag. */
  lemma ParsedIsWellFormed(tag: string)
    requires Parse(tag).Some?
    ensures WellFormed(Parse(tag).value)
  {
    var s := Parse(tag).value;
    ParsesIffHasShape(tag, s);
    var groups: seq<string> :| SpelledTag(tag, s, groups);
    ValuesAreSmall(groups);
  }

  lemma {:induction false} ValuesAreSmall(groups: seq<string>)
    requires AreGroups(groups)
    ensures |Values(groups)| == |groups| && forall k :: 0 <= k < |groups| ==> Values(groups)[k] <= MAX_INT
  {
    if groups != [] {
      assert IsGroup(groups[0]);
      ValuesAreSmall(groups[1..]);
    }
  }

  // ---------- the loop ----------

  method ParseTagShape(tag: string) returns (s: Option<Shape>)
    ensures s == Parse(tag)
    ensures if s.Some? then HasShape(tag, s.value) else !VersionShaped(tag)
  {
    forall shape
      ensures Parse(tag) == Some(shape) <==> HasShape(tag, shape)
    {
      ParsesIffHasShape(tag, shape);
    }
    var v, rest := false, tag;
    if tag != [] && tag[0] == 'v' {
      v, rest := true, tag[1..];
    }
    var n := ParseRest(rest);
    return if n.None? then None else Some(Shape(v, n.value.nums, n.value.suffix));
  }

  method ParseRest(tail: string) returns (n: Option<Numbers>)
    ensures n == ParseNumbers(tail, true)
  {
    var rest, nums: seq<nat> := tail, [];
    PrependNone(ParseNumbers(tail, true));
    while true
      invariant ParseNumbers(tail, true) == Prepended(nums, ParseNumbers(rest, nums == []))
      decreases |rest|
    {
      var i := ScanDigits(rest);
      if i == 0 {
        assert nums + [] == nums;
        return if |nums| == 0 then None else Some(Numbers(nums, "." + rest));
      }
      var value := Value(rest[..i]);
      if value > MAX_INT {
        return None;
      }
      PrependMore(nums, rest, i);
      nums := nums + [value];
      rest := rest[i..];
      if rest == [] || rest[0] != '.' {
        return Some(Numbers(nums, rest));
      }
      rest := rest[1..];
    }
  }

  method ScanDigits(rest: string) returns (i: nat)
    ensures i == DigitRun(rest)
  {
    i := 0;
    while i < |rest| && IsDigit(rest[i])
      invariant i <= |rest| && DigitRun(rest) == i + DigitRun(rest[i..])
    {
      assert rest[i..][1..] == rest[i + 1..];
      i := i + 1;
    }
  }

  function Prepended(nums: seq<nat>, n: Option<Numbers>): Option<Numbers> {
    if n.None? then None else Some(Numbers(nums + n.value.nums, n.value.suffix))
  }

  lemma PrependNone(n: Option<Numbers>)
    ensures Prepended([], n) == n
  {
    if n.Some? {
      assert [] + n.value.nums == n.value.nums;
    }
  }

  lemma Reassociate(a: seq<nat>, x: nat, b: seq<nat>)
    ensures a + ([x] + b) == (a + [x]) + b
  {
  }

  lemma PrependMore(nums: seq<nat>, rest: string, i: nat)
    requires 0 < i == DigitRun(rest) && Value(rest[..i]) <= MAX_INT
    ensures Prepended(nums, ParseNumbers(rest, nums == [])) ==
      if i == |rest| || rest[i] != '.' then Some(Numbers(nums + [Value(rest[..i])], rest[i..]))
      else Prepended(nums + [Value(rest[..i])], ParseNumbers(rest[i + 1..], false))
  {
    if i < |rest| && rest[i] == '.' && ParseNumbers(rest[i + 1..], false).Some? {
      Reassociate(nums, Value(rest[..i]), ParseNumbers(rest[i + 1..], false).value.nums);
    }
  }

  // ---------- comparing shapes ----------

  predicate Comparable(a: Shape, b: Shape) {
    a.v == b.v && a.suffix == b.suffix && |a.nums| == |b.nums|
  }

  /** The first number that differs is smaller. */
  ghost predicate Older(a: Shape, b: Shape)
    requires |a.nums| == |b.nums|
  {
    exists i :: SmallerAt(a.nums, b.nums, i)
  }

  predicate SmallerAt(a: seq<nat>, b: seq<nat>, i: int)
    requires |a| == |b|
  {
    0 <= i < |a| && a[i] < b[i] && forall j :: 0 <= j < i ==> a[j] == b[j]
  }

  method Less(a: Shape, b: Shape) returns (less: bool)
    requires |a.nums| == |b.nums|
    ensures less == Older(a, b)
  {
    for i := 0 to |a.nums|
      invariant forall j :: 0 <= j < i ==> a.nums[j] == b.nums[j]
    {
      if a.nums[i] != b.nums[i] {
        if a.nums[i] < b.nums[i] {
          assert SmallerAt(a.nums, b.nums, i);
        }
        return a.nums[i] < b.nums[i];
      }
    }
    return false;
  }

  /** A strict total order on the shapes of one class. */
  lemma OlderIsAnOrder(a: Shape, b: Shape, c: Shape)
    requires Comparable(a, b) && Comparable(b, c)
    ensures !Older(a, a)
    ensures Older(a, b) && Older(b, c) ==> Older(a, c)
    ensures Older(a, b) ==> !Older(b, a)
    ensures Older(a, b) || Older(b, a) || a == b
  {
    if Older(a, b) && Older(b, c) {
      var i :| SmallerAt(a.nums, b.nums, i);
      var j :| SmallerAt(b.nums, c.nums, j);
      assert SmallerAt(a.nums, c.nums, if i < j then i else j);
    }
    OlderIsTotal(a, b);
  }

  lemma OlderIsTotal(a: Shape, b: Shape)
    requires Comparable(a, b)
    ensures Older(a, b) || Older(b, a) || a == b
  {
    if a.nums != b.nums {
      var i := FirstDifference(a.nums, b.nums);
      assert SmallerAt(a.nums, b.nums, i) || SmallerAt(b.nums, a.nums, i);
    }
  }

  lemma {:induction false} FirstDifference(a: seq<nat>, b: seq<nat>) returns (i: nat)
    requires |a| == |b| && a != b
    ensures i < |a| && a[i] != b[i] && forall j :: 0 <= j < i ==> a[j] == b[j]
  {
    i := 0;
    while i < |a| && a[i] == b[i]
      invariant i <= |a| && forall j :: 0 <= j < i ==> a[j] == b[j]
    {
      i := i + 1;
    }
  }

  // ---------- the hint ----------

  /** The tag is of the running shape and newer. */
  ghost predicate Qualifies(cur: Shape, t: string) {
    Parse(t).Some? && Comparable(cur, Parse(t).value) && Older(cur, Parse(t).value)
  }

  /** The newest qualifying tag of a list, the first of them when several spell the same numbers. */
  ghost predicate IsNewest(cur: Shape, tags: seq<string>, k: nat) {
    && k < |tags| && Qualifies(cur, tags[k])
    && (forall j :: 0 <= j < |tags| && Qualifies(cur, tags[j]) ==> !Older(Parse(tags[k]).value, Parse(tags[j]).value))
    && (forall j :: 0 <= j < k && Qualifies(cur, tags[j]) ==> Older(Parse(tags[j]).value, Parse(tags[k]).value))
  }

  ghost predicate NoneQualifies(cur: Shape, tags: seq<string>) {
    forall j :: 0 <= j < |tags| ==> !Qualifies(cur, tags[j])
  }

  lemma NewestStays(cur: Shape, tags: seq<string>, k: nat, t: string)
    requires IsNewest(cur, tags, k) && (Qualifies(cur, t) ==> !Older(Parse(tags[k]).value, Parse(t).value))
    ensures IsNewest(cur, tags + [t], k)
  {
  }

  lemma NewestMoves(cur: Shape, tags: seq<string>, k: nat, t: string)
    requires IsNewest(cur, tags, k) && Qualifies(cur, t) && Older(Parse(tags[k]).value, Parse(t).value)
    ensures IsNewest(cur, tags + [t], |tags|)
  {
    var top, new_ := Parse(tags[k]).value, Parse(t).value;
    OlderIsAnOrder(new_, new_, new_);
    forall j | 0 <= j < |tags| && Qualifies(cur, tags[j])
      ensures Older(Parse(tags[j]).value, new_) && !Older(new_, Parse(tags[j]).value)
    {
      var s := Parse(tags[j]).value;
      OlderIsTotal(s, top);
      OlderIsAnOrder(s, top, new_);
      OlderIsAnOrder(s, new_, new_);
    }
  }

  lemma FirstNewest(cur: Shape, tags: seq<string>, t: string)
    requires NoneQualifies(cur, tags) && Qualifies(cur, t)
    ensures IsNewest(cur, tags + [t], |tags|)
  {
    OlderIsAnOrder(Parse(t).value, Parse(t).value, Parse(t).value);
  }

  /** A newer tag than the best so far qualifies, as the best is at least the running one. */
  lemma NewerQualifies(cur: Shape, top: Shape, t: string)
    requires Parse(t).Some? && Comparable(cur, Parse(t).value) && Comparable(cur, top)
             && (top == cur || Older(cur, top))
    requires Older(top, Parse(t).value)
    ensures Qualifies(cur, t)
  {
    OlderIsAnOrder(cur, top, Parse(t).value);
  }

  /** Where the search stands after some tags. */
  ghost predicate Standing(cur: Shape, tags: seq<string>, top: Shape, best: string, at: nat) {
    && Comparable(cur, top) && (top == cur || Older(cur, top))
    && if best == "" then top == cur && NoneQualifies(cur, tags)
       else IsNewest(cur, tags, at) && best == tags[at] && Parse(best) == Some(top)
  }

  lemma StandingMoves(cur: Shape, tags: seq<string>, top: Shape, best: string, at: nat, t: string)
    requires Standing(cur, tags, top, best, at) && Parse(t).Some? && Comparable(cur, Parse(t).value)
             && Older(top, Parse(t).value)
    ensures Standing(cur, tags + [t], Parse(t).value, t, |tags|)
  {
    NewerQualifies(cur, top, t);
    if best == "" {
      FirstNewest(cur, tags, t);
    } else {
      NewestMoves(cur, tags, at, t);
    }
  }

  lemma StandingStays(cur: Shape, tags: seq<string>, top: Shape, best: string, at: nat, t: string)
    requires Standing(cur, tags, top, best, at)
    requires Parse(t).Some? && Comparable(cur, Parse(t).value) ==> !Older(top, Parse(t).value)
    ensures Standing(cur, tags + [t], top, best, at)
  {
    if best != "" {
      NewestStays(cur, tags, at, t);
    }
  }

  lemma StandingNext(cur: Shape, tags: seq<string>, i: nat, top: Shape, best: string, at: nat, newer: bool)
    requires i < |tags| && Standing(cur, tags[..i], top, best, at)
    requires newer <==>
               Parse(tags[i]).Some? && Comparable(cur, Parse(tags[i]).value) && Older(top, Parse(tags[i]).value)
    ensures if newer then Standing(cur, tags[..i + 1], Parse(tags[i]).value, tags[i], i)
            else Standing(cur, tags[..i + 1], top, best, at)
  {
    TakeMore(tags, i);
    if newer {
      StandingMoves(cur, tags[..i], top, best, at, tags[i]);
    } else {
      StandingStays(cur, tags[..i], top, best, at, tags[i]);
    }
  }

  lemma StandingSuggests(cur: Shape, tags: seq<string>, top: Shape, best: string, at: nat)
    requires Standing(cur, tags, top, best, at)
    ensures Suggested(cur, tags, best)
  {
  }

  /** The hint: none when nothing qualifies, otherwise the newest. */
  ghost predicate Suggested(cur: Shape, tags: seq<string>, best: string) {
    if NoneQualifies(cur, tags) then best == ""
    else exists k: nat :: IsNewest(cur, tags, k) && best == tags[k]
  }

  lemma HintIsNewest(cur: Shape, tags: seq<string>, best: string)
    requires Suggested(cur, tags, best)
    ensures best == "" <==> NoneQualifies(cur, tags)
    ensures best != "" ==> best in tags && Qualifies(cur, best)
    ensures best != "" ==> forall t :: t in tags && Qualifies(cur, t) ==> !Older(Parse(best).value, Parse(t).value)
  {
    EmptyHasNoShape();
    if !NoneQualifies(cur, tags) {
      var k: nat :| IsNewest(cur, tags, k) && best == tags[k];
      forall t | t in tags && Qualifies(cur, t)
        ensures !Older(Parse(best).value, Parse(t).value)
      {
        var j :| 0 <= j < |tags| && tags[j] == t;
      }
    }
  }

  lemma SameTagsQualify(cur: Shape, tags: seq<string>, others: seq<string>)
    requires forall t :: t in tags <==> t in others
    ensures NoneQualifies(cur, tags) ==> NoneQualifies(cur, others)
  {
    forall j | 0 <= j < |others| && NoneQualifies(cur, tags)
      ensures !Qualifies(cur, others[j])
    {
      assert others[j] in tags;
      var i :| 0 <= i < |tags| && tags[i] == others[j];
    }
  }

  /** The order of the registry's list matters at most for how the same numbers are spelled. */
  lemma HintIgnoresOrder(cur: Shape, tags: seq<string>, others: seq<string>, best: string, other: string)
    requires Suggested(cur, tags, best) && Suggested(cur, others, other)
    requires forall t :: t in tags <==> t in others
    ensures best == "" <==> other == ""
    ensures best != "" ==> Parse(best) == Parse(other)
  {
    HintIsNewest(cur, tags, best);
    HintIsNewest(cur, others, other);
    SameTagsQualify(cur, tags, others);
    SameTagsQualify(cur, others, tags);
    if best != "" {
      OlderIsTotal(Parse(best).value, Parse(other).value);
    }
  }

  lemma EmptyHasNoShape()
    ensures Parse("") == None
  {
  }

  // ---------- the hint, by the grammar ----------

  ghost predicate NewerNumbers(a: seq<nat>, b: seq<nat>) {
    |a| == |b| && exists i :: 0 <= i < |a| && a[i] < b[i] && a[..i] == b[..i]
  }

  /** Both tags are version-shaped, with the same prefix, suffix and count of numbers, and the first number
      that differs is greater in the second. */
  ghost predicate SpellsNewer(running: string, t: string) {
    exists a: Shape, b: Shape :: HasShape(running, a) && HasShape(t, b)
      && a.v == b.v && a.suffix == b.suffix && NewerNumbers(a.nums, b.nums)
  }

  lemma OlderIffNewerNumbers(a: Shape, b: Shape)
    ensures Comparable(a, b) && Older(a, b) <==> a.v == b.v && a.suffix == b.suffix && NewerNumbers(a.nums, b.nums)
  {
    if Comparable(a, b) && Older(a, b) {
      var i :| SmallerAt(a.nums, b.nums, i);
      assert a.nums[..i] == b.nums[..i];
    }
    if NewerNumbers(a.nums, b.nums) {
      var i :| 0 <= i < |a.nums| && a.nums[i] < b.nums[i] && a.nums[..i] == b.nums[..i];
      assert forall j :: 0 <= j < i ==> a.nums[j] == a.nums[..i][j] == b.nums[j];
      assert SmallerAt(a.nums, b.nums, i);
    }
  }

  lemma QualifiesIffSpelled(running: string, t: string)
    ensures SpellsNewer(running, t) <==> Parse(running).Some? && Qualifies(Parse(running).value, t)
  {
    if SpellsNewer(running, t) {
      var a: Shape, b: Shape :| HasShape(running, a) && HasShape(t, b)
        && a.v == b.v && a.suffix == b.suffix && NewerNumbers(a.nums, b.nums);
      ParsesIffHasShape(running, a);
      ParsesIffHasShape(t, b);
      OlderIffNewerNumbers(a, b);
    }
    if Parse(running).Some? && Qualifies(Parse(running).value, t) {
      ParsesIffHasShape(running, Parse(running).value);
      ParsesIffHasShape(t, Parse(t).value);
      OlderIffNewerNumbers(Parse(running).value, Parse(t).value);
    }
  }

  /** The suggested tag is one that spells a newer version than the running tag, than which no tag of the
      list spells a newer one; none is suggested exactly when no tag does. */
  ghost predicate Hints(running: string, tags: seq<string>, best: string) {
    && (best == "" <==> forall t :: t in tags ==> !SpellsNewer(running, t))
    && (best != "" ==> best in tags && SpellsNewer(running, best))
    && (best != "" ==> forall t :: t in tags ==> !SpellsNewer(best, t))
  }

  /** Nothing in the list is newer than the newest. */
  lemma NothingIsNewer(cur: Shape, tags: seq<string>, best: string, t: string)
    requires Suggested(cur, tags, best) && best != "" && t in tags
    ensures !SpellsNewer(best, t)
  {
    HintIsNewest(cur, tags, best);
    QualifiesIffSpelled(best, t);
    QualifiesOnwards(cur, best, t);
  }

  lemma QualifiesOnwards(cur: Shape, best: string, t: string)
    requires Qualifies(cur, best)
    ensures Qualifies(Parse(best).value, t) ==> Qualifies(cur, t)
  {
    if Qualifies(Parse(best).value, t) {
      OlderIsAnOrder(cur, Parse(best).value, Parse(t).value);
    }
  }

  lemma NoneIsSpelled(running: string, tags: seq<string>)
    requires Parse(running).Some?
    ensures NoneQualifies(Parse(running).value, tags) <==> forall t :: t in tags ==> !SpellsNewer(running, t)
  {
    forall t
      ensures SpellsNewer(running, t) <==> Qualifies(Parse(running).value, t)
    {
      QualifiesIffSpelled(running, t);
    }
    if !NoneQualifies(Parse(running).value, tags) {
      var j :| 0 <= j < |tags| && Qualifies(Parse(running).value, tags[j]);
      assert tags[j] in tags && SpellsNewer(running, tags[j]);
    }
  }

  lemma SuggestedHints(running: string, tags: seq<string>, best: string)
    requires if Parse(running).None? then best == "" else Suggested(Parse(running).value, tags, best)
    ensures Hints(running, tags, best)
  {
    if Parse(running).None? {
      forall t
        ensures !SpellsNewer(running, t)
      {
        QualifiesIffSpelled(running, t);
      }
    } else {
      HintIsNewest(Parse(running).value, tags, best);
      NoneIsSpelled(running, tags);
      QualifiesIffSpelled(running, best);
      forall t | best != "" && t in tags
        ensures !SpellsNewer(best, t)
      {
        NothingIsNewer(Parse(running).value, tags, best, t);
      }
    }
  }

  /** Empty when the running tag has no shape or nothing is newer; otherwise the newest. */
  method NewerTag(running: string, tags: seq<string>) returns (best: string)
    ensures Parse(running).None? ==> best == ""
    ensures Parse(running).Some? ==> Suggested(Parse(running).value, tags, best)
    ensures Hints(running, tags, best)
  {
    var parsed := ParseTagShape(running);
    if parsed.None? {
      SuggestedHints(running, tags, "");
      return "";
    }
    var cur := parsed.value;
    var top := cur;
    best := "";
    ghost var at: nat := 0;
    for i := 0 to |tags|
      invariant Standing(cur, tags[..i], top, best, at)
    {
      var s := ParseTagShape(tags[i]);
      var newer := false;
      if s.Some? && Comparable(cur, s.value) {
        newer := Less(top, s.value);
      }
      StandingNext(cur, tags, i, top, best, at, newer);
      if newer {
        top, best, at := s.value, tags[i], i;
      }
    }
    TakeAll(tags);
    StandingSuggests(cur, tags, top, best, at);
    SuggestedHints(running, tags, best);
  }
}
