/** parseField, isWild and Parse (pkg/cron/cron.go) against the set each field denotes. */
module CronField {
  import opened Messages
  import opened Text
  import opened CronSearch

  const MAX_INT := 0x7FFF_FFFF_FFFF_FFFF

  // ---------- strconv.Atoi ----------

  predicate AllDigits(s: string)
  {
    s != "" && forall i :: 0 <= i < |s| ==> '0' <= s[i] <= '9'
  }

  function Digits(s: string): int
    requires forall i :: 0 <= i < |s| ==> '0' <= s[i] <= '9'
  {
    if s == "" then 0 else 10 * Digits(s[..|s| - 1]) + (s[|s| - 1] as int - '0' as int)
  }

  function Atoi(s: string): (r: Option<int>)
    ensures r.Some? ==> -MAX_INT - 1 <= r.value <= MAX_INT
  {
    var signed := s != "" && (s[0] == '-' || s[0] == '+');
    var digits := if signed then s[1..] else s;
    if !AllDigits(digits) then None
    else
      var n := if signed && s[0] == '-' then 0 - Digits(digits) else Digits(digits);
      if -MAX_INT - 1 <= n <= MAX_INT then Some(n) else None
  }

  // strings.SplitN(s, sep, 2), when s contains sep.
  function SplitTwo(s: string, sep: char): (parts: (string, string))
    requires sep in s
    ensures s == parts.0 + [sep] + parts.1 && sep !in parts.0
  {
    if s[0] == sep then ("", s[1..])
    else var rest := SplitTwo(s[1..], sep); ([s[0]] + rest.0, rest.1)
  }

  // parseRange
  function ParseRange(s: string, lo: int, hi: int): (r: Option<(int, int)>)
    ensures r.Some? ==> lo <= r.value.0 <= r.value.1 <= hi
  {
    if '-' !in s then None
    else
      var parts := SplitTwo(s, '-');
      var start, end := Atoi(parts.0), Atoi(parts.1);
      if start.None? || end.None? then None
      else if start.value < lo || end.value > hi || start.value > end.value then None
      else Some((start.value, end.value))
  }

  // ---------- what a field denotes ----------

  // base/step
  datatype Stepped = Stepped(start: int, end: int, step: int)

  function ParseStepped(field: string, lo: int, hi: int): (r: Option<Stepped>)
    requires '/' in field
    ensures r.Some? && lo <= hi ==> lo <= r.value.start <= r.value.end <= hi && 1 <= r.value.step <= MAX_INT
  {
    var parts := SplitTwo(field, '/');
    var step := Atoi(parts.1);
    if step.None? || step.value <= 0 then None
    else if parts.0 == "*" then Some(Stepped(lo, hi, step.value))
    else
      var range := ParseRange(parts.0, lo, hi);
      if range.None? then None else Some(Stepped(range.value.0, range.value.1, step.value))
  }

  function Interval(lo: int, hi: int): (r: set<int>)
    ensures forall v :: v in r <==> lo <= v <= hi
    decreases hi - lo
  {
    if lo > hi then {} else {lo} + Interval(lo + 1, hi)
  }

  // v is one of start, start + step, start + 2 step, ...
  predicate OnStep(start: int, step: int, v: int)
    requires step > 0
    decreases v - start
  {
    v == start || (v > start && OnStep(start, step, v - step))
  }

  function Steps(start: int, end: int, step: int): set<int>
    requires step > 0
  {
    set v | start <= v <= end && OnStep(start, step, v)
  }

  // One list element: *, N, N-M, */S or N-M/S.
  function ItemSet(field: string, lo: int, hi: int): Option<set<int>>
  {
    if '/' in field then
      var s := ParseStepped(field, lo, hi);
      if s.None? || s.value.step <= 0 then None
      else Some(Steps(s.value.start, s.value.end, s.value.step))
    else if field == "*" then Some(Interval(lo, hi))
    else if '-' in field then
      var range := ParseRange(field, lo, hi);
      if range.None? then None else Some(Interval(range.value.0, range.value.1))
    else
      var v := Atoi(field);
      if v.None? || v.value < lo || v.value > hi then None else Some({v.value})
  }

  function UnionOf(parts: seq<string>, lo: int, hi: int): Option<set<int>>
  {
    if parts == [] then Some({})
    else
      var init, last := UnionOf(parts[..|parts| - 1], lo, hi), ItemSet(parts[|parts| - 1], lo, hi);
      if init.None? || last.None? then None else Some(init.value + last.value)
  }

  // The list grammar: the union of its elements, if they are all well-formed.
  function FieldSet(field: string, lo: int, hi: int): Option<set<int>>
  {
    UnionOf(Split(field, ','), lo, hi)
  }

  // Go's int wraps in the step loop when start + step exceeds the largest int.
  predicate ItemWraps(field: string, lo: int, hi: int)
  {
    '/' in field
    && var s := ParseStepped(field, lo, hi); s.Some? && s.value.start + s.value.step > MAX_INT
  }

  predicate SomeWraps(parts: seq<string>, lo: int, hi: int)
  {
    exists i :: 0 <= i < |parts| && ItemWraps(parts[i], lo, hi)
  }

  predicate Wraps(field: string, lo: int, hi: int)
  {
    SomeWraps(Split(field, ','), lo, hi)
  }

  // ---------- loops ----------

  ghost function Elements(vals: seq<int>): set<int> { set v | v in vals }

  lemma {:induction false} StepGap(start: int, step: int, a: int, b: int)
    requires step > 0 && a <= b < a + step && OnStep(start, step, a) && OnStep(start, step, b)
    ensures a == b
    decreases a - start
  {
    if a > start && b > start { StepGap(start, step, a - step, b - step); }
  }

  function WrapInt(v: int): int { if v > MAX_INT then v - 0x1_0000_0000_0000_0000 else v }

  // for v := start; v <= end; v += step, in Go's int.
  method StepValues(start: int, end: int, step: int) returns (vals: seq<int>)
    requires 0 <= start <= end <= 59 && 1 <= step <= MAX_INT
    ensures start + step <= MAX_INT ==>
              vals != [] && Increasing(vals) && Elements(vals) == Steps(start, end, step)
    ensures start + step > MAX_INT ==> exists v :: v in vals && v < 0
    ensures start + step > MAX_INT ==> vals == WrappedList(start, MAX_INT + 1 - step)
  {
    hide WrappedList;
    if start + step > MAX_INT {
      vals := WrappedValues(start, end, step);
      return;
    }
    vals := [];
    var v := start;
    while v <= end
      invariant start <= v && OnStep(start, step, v) && (vals == [] ==> v == start)
      invariant Increasing(vals)
      invariant forall i :: 0 <= i < |vals| ==> start <= vals[i] < v && vals[i] <= end && OnStep(start, step, vals[i])
      invariant forall x :: start <= x < v && OnStep(start, step, x) ==> x <= end ==> x in vals
      decreases end - v
    {
      forall x | v <= x < v + step && OnStep(start, step, x) ensures x == v {
        StepGap(start, step, v, x);
      }
      AppendLarger(vals, v);
      vals := vals + [v];
      v := WrapInt(v + step);
    }
    assert Elements(vals) == Steps(start, end, step);
  }

  lemma AppendLarger(vals: seq<int>, v: int)
    requires Increasing(vals) && forall i :: 0 <= i < |vals| ==> vals[i] < v
    ensures Increasing(vals + [v])
  {}

  // What the loop collects where it wraps, with step = MAX_INT + 1 - gap: it alternates between
  // values of the range, going down, and values far below it.
  function WrappedList(v: int, gap: int): (vals: seq<int>)
    requires gap > 0
    ensures vals != [] && vals[0] == v
    decreases if v < 0 then 0 else v + 1
  {
    if v < gap then [v] else [v, v - gap - MAX_INT - 1] + WrappedList(v - 2 * gap, gap)
  }

  // What is still to come at v, inside the range or far below it.
  function WrappedRest(v: int, end: int, gap: int): seq<int>
    requires gap > 0
  {
    if v > end then []
    else if v >= -gap then WrappedList(v, gap)
    else [v] + WrappedList(v + MAX_INT + 1 - gap, gap)
  }

  lemma WrappedStep(v: int, end: int, gap: int)
    requires 1 <= gap <= 59 && v <= end <= 59
    requires v >= -gap || -gap <= v + MAX_INT + 1 - gap <= end
    ensures var next := WrapInt(v + MAX_INT + 1 - gap);
      && WrappedRest(v, end, gap) == [v] + WrappedRest(next, end, gap)
      && (next > end || next >= -gap || -gap <= next + MAX_INT + 1 - gap <= end)
  {
    hide WrappedList;
    if v >= -gap { WrappedUnfolds(v, gap); }
  }

  lemma TwoFirst(x: int, y: int, rest: seq<int>)
    ensures [x, y] + rest == [x] + ([y] + rest)
  {}

  lemma WrappedUnfolds(v: int, gap: int)
    requires gap > 0
    ensures WrappedList(v, gap)
         == [v] + if v < gap then [] else [v - gap - MAX_INT - 1] + WrappedList(v - 2 * gap, gap)
  {
    if v >= gap {
      TwoFirst(v, v - gap - MAX_INT - 1, WrappedList(v - 2 * gap, gap));
    }
  }

  // The same loop where it wraps.
  method WrappedValues(start: int, end: int, step: int) returns (vals: seq<int>)
    requires 0 <= start <= end <= 59 && 1 <= step <= MAX_INT && start + step > MAX_INT
    ensures vals == WrappedList(start, MAX_INT + 1 - step)
    ensures exists v :: v in vals && v < 0
  {
    hide WrappedList, WrappedRest;
    vals := [];
    var v := start;
    ghost var gap := MAX_INT + 1 - step;
    WrappedAll(start, end, gap);
    while v <= end
      invariant v > end || v >= -gap || -gap <= v + step <= end
      invariant WrappedList(start, gap) == vals + WrappedRest(v, end, gap)
      decreases if v > end then 0 else if v >= -1000 then 2 * (v + 1000) else 2 * (v + step + 1000) + 1
    {
      WrappedStep(v, end, gap);
      Regroup(vals, v, WrappedRest(WrapInt(v + step), end, gap));
      vals := vals + [v];
      v := WrapInt(v + step);
    }
    WrappedDone(v, end, gap);
    WrappedNegative(start, gap);
  }

  lemma WrappedAll(start: int, end: int, gap: int)
    requires gap > 0 && 0 <= start <= end
    ensures WrappedRest(start, end, gap) == WrappedList(start, gap)
  {}

  lemma WrappedDone(v: int, end: int, gap: int)
    requires gap > 0 && v > end
    ensures WrappedRest(v, end, gap) == []
  {}

  lemma WrappedNegative(start: int, gap: int)
    requires 0 < gap <= start <= 59
    ensures exists v :: v in WrappedList(start, gap) && v < 0
  {
    var vals := WrappedList(start, gap);
    assert |vals| >= 2 && vals[1] == start - gap - MAX_INT - 1;
    assert vals[1] in vals;
  }

  lemma Regroup(a: seq<int>, x: int, b: seq<int>)
    ensures a + ([x] + b) == a + [x] + b
  {}

  // for v := lo; v <= hi; v++
  method IntervalValues(lo: int, hi: int) returns (vals: seq<int>)
    requires lo <= hi
    ensures FieldOk(vals, lo, hi) && Elements(vals) == Interval(lo, hi)
  {
    vals := [];
    var v := lo;
    while v <= hi
      invariant lo <= v <= hi + 1 && |vals| == v - lo
      invariant forall i :: 0 <= i < |vals| ==> vals[i] == lo + i
    {
      vals := vals + [v];
      v := v + 1;
    }
    forall x ensures x in Elements(vals) <==> x in Interval(lo, hi) {
      if lo <= x <= hi { assert vals[x - lo] == x; }
    }
  }

  // ---------- parseField ----------

  // What a field parses to: its set, in order, unless a step wraps; then something below lo.
  ghost predicate Denotes(vals: seq<int>, denoted: set<int>, wraps: bool, lo: int, hi: int)
  {
    if wraps then exists v :: v in vals && v < 0
    else FieldOk(vals, lo, hi) && Elements(vals) == denoted
  }

  function WrappedItem(field: string, lo: int, hi: int): seq<int>
    requires 0 <= lo <= hi <= 59 && ItemWraps(field, lo, hi)
  {
    var s := ParseStepped(field, lo, hi).value;
    WrappedList(s.start, MAX_INT + 1 - s.step)
  }

  // One list element.
  method ParseItem(field: string, lo: int, hi: int) returns (r: Option<seq<int>>)
    requires 0 <= lo <= hi <= 59
    ensures r.Some? <==> ItemSet(field, lo, hi).Some?
    ensures r.Some? ==> Denotes(r.value, ItemSet(field, lo, hi).value, ItemWraps(field, lo, hi), lo, hi)
    ensures ItemWraps(field, lo, hi) ==> r == Some(WrappedItem(field, lo, hi))
  {
    hide Atoi, SplitTwo, AllDigits, OnStep, WrappedList;
    if '/' in field {
      var s := ParseStepped(field, lo, hi);
      if s.None? {
        return None;
      }
      var vals := StepValues(s.value.start, s.value.end, s.value.step);
      if !ItemWraps(field, lo, hi) { StepsInBounds(vals, s.value.start, s.value.end, s.value.step); }
      return Some(vals);
    }
    if field == "*" {
      var vals := IntervalValues(lo, hi);
      return Some(vals);
    }
    if '-' in field {
      var range := ParseRange(field, lo, hi);
      if range.None? {
        return None;
      }
      var vals := IntervalValues(range.value.0, range.value.1);
      return Some(vals);
    }
    var v := Atoi(field);
    if v.None? || v.value < lo || v.value > hi {
      return None;
    }
    assert Elements([v.value]) == {v.value};
    return Some([v.value]);
  }

  lemma StepsInBounds(vals: seq<int>, start: int, end: int, step: int)
    requires step > 0 && Elements(vals) == Steps(start, end, step)
    ensures forall i :: 0 <= i < |vals| ==> start <= vals[i] <= end
  {
    forall i | 0 <= i < |vals| ensures start <= vals[i] <= end {
      assert vals[i] in Elements(vals);
    }
  }

  // ---------- comma-separated lists ----------

  lemma Pick<T>(s: set<T>) returns (x: T)
    requires s != {}
    ensures x in s
  {
    x :| x in s;
  }

  lemma {:induction false} HasLeast(s: set<int>) returns (m: int)
    requires s != {}
    ensures m in s && forall x :: x in s ==> m <= x
  {
    var x := Pick(s);
    var rest := s - {x};
    m := x;
    if rest != {} {
      var n := HasLeast(rest);
      if n < x { m := n; }
    }
    assert forall y :: y in s ==> y == x || y in rest;
  }

  // The keys of a map through sort.Ints.
  method SortedKeys(keys: set<int>) returns (s: seq<int>)
    ensures Increasing(s) && Elements(s) == keys
  {
    s := [];
    var rest := keys;
    while rest != {}
      invariant Increasing(s)
      invariant forall x :: x in keys <==> x in rest || x in s
      invariant forall x, i :: x in rest && 0 <= i < |s| ==> s[i] < x
      decreases rest
    {
      ghost var m := HasLeast(rest);
      var x :| x in rest && forall y :: y in rest ==> x <= y;
      AppendLarger(s, x);
      s := s + [x];
      rest := rest - {x};
    }
    assert forall x :: x in Elements(s) <==> x in keys;
  }

  lemma UnionStep(parts: seq<string>, i: nat, lo: int, hi: int)
    requires i < |parts|
    ensures UnionOf(parts[..i + 1], lo, hi)
         == var init, last := UnionOf(parts[..i], lo, hi), ItemSet(parts[i], lo, hi);
            if init.None? || last.None? then None else Some(init.value + last.value)
  {
    assert parts[..i + 1][..i] == parts[..i];
  }

  // A list stays malformed, whatever follows a malformed element.
  lemma {:induction false} MalformedStays(parts: seq<string>, i: nat, n: nat, lo: int, hi: int)
    requires i <= n <= |parts| && UnionOf(parts[..i], lo, hi).None?
    ensures UnionOf(parts[..n], lo, hi).None?
  {
    hide UnionOf, ItemSet;
    if i == n {
    } else {
      MalformedStays(parts, i, n - 1, lo, hi);
      UnionStep(parts, n - 1, lo, hi);
    }
  }

  // The set collected so far, against the elements read so far.
  ghost predicate Collected(keys: set<int>, denoted: set<int>, wraps: bool, lo: int, hi: int)
  {
    if wraps then exists v :: v in keys && v < 0
    else keys == denoted && forall v :: v in keys ==> lo <= v <= hi
  }

  lemma SomeWrapsStep(parts: seq<string>, i: nat, lo: int, hi: int)
    requires i < |parts|
    ensures SomeWraps(parts[..i + 1], lo, hi) <==> SomeWraps(parts[..i], lo, hi) || ItemWraps(parts[i], lo, hi)
  {
    hide ItemWraps;
    assert forall k :: 0 <= k < i ==> parts[..i][k] == parts[..i + 1][k];
    assert parts[..i + 1][i] == parts[i];
  }

  lemma CollectOne(
    keys: set<int>, denoted: set<int>, wraps: bool, vals: seq<int>, item: set<int>, itemWraps: bool, lo: int, hi: int)
    requires Collected(keys, denoted, wraps, lo, hi) && Denotes(vals, item, itemWraps, lo, hi)
    ensures Collected(keys + Elements(vals), denoted + item, wraps || itemWraps, lo, hi)
  {
    hide Increasing;
    assert forall v :: v in vals ==> v in Elements(vals);
  }

  // parseField: an error exactly on malformed fields; otherwise the values of the field, in
  // increasing order and within bounds, unless a step wraps.
  method ParseField(field: string, lo: int, hi: int) returns (r: Option<seq<int>>)
    requires 0 <= lo <= hi <= 59
    ensures r.Some? <==> FieldSet(field, lo, hi).Some?
    ensures r.Some? ==> Denotes(r.value, FieldSet(field, lo, hi).value, Wraps(field, lo, hi), lo, hi)
    ensures ',' !in field && ItemWraps(field, lo, hi) ==> r == Some(WrappedItem(field, lo, hi))
  {
    hide WrappedItem;
    hide ItemSet, ItemWraps, UnionOf, Split, Collected, Denotes, SomeWraps;
    var parts := Split(field, ',');
    assert parts[..|parts|] == parts;
    if ',' !in field {
      SplitPlain(field, ',');
      r := ParseItem(field, lo, hi);
      SingleList(field, lo, hi);
      return;
    }
    var keys := {};
    NothingCollected(lo, hi);
    assert parts[..0] == [];
    for i := 0 to |parts|
      invariant UnionOf(parts[..i], lo, hi).Some?
      invariant Collected(keys, UnionOf(parts[..i], lo, hi).value, SomeWraps(parts[..i], lo, hi), lo, hi)
    {
      var vals := ParseItem(parts[i], lo, hi);
      UnionStep(parts, i, lo, hi);
      if vals.None? {
        MalformedStays(parts, i + 1, |parts|, lo, hi);
        return None;
      }
      SomeWrapsStep(parts, i, lo, hi);
      CollectOne(keys, UnionOf(parts[..i], lo, hi).value, SomeWraps(parts[..i], lo, hi),
                 vals.value, ItemSet(parts[i], lo, hi).value, ItemWraps(parts[i], lo, hi), lo, hi);
      keys := keys + set v | v in vals.value;
    }
    var s := SortedKeys(keys);
    SortedDenotes(s, keys, parts, lo, hi);
    assert SomeWraps(parts, lo, hi) <==> Wraps(field, lo, hi);
    return Some(s);
  }

  lemma SingleList(field: string, lo: int, hi: int)
    requires Split(field, ',') == [field]
    ensures FieldSet(field, lo, hi) == ItemSet(field, lo, hi)
    ensures Wraps(field, lo, hi) <==> ItemWraps(field, lo, hi)
  {
    hide ItemSet, ItemWraps;
    assert [field][..0] == [];
    var item := ItemSet(field, lo, hi);
    assert UnionOf([], lo, hi) == Some({});
    assert UnionOf([field], lo, hi) == if item.None? then None else Some({} + item.value);
    assert item.Some? ==> {} + item.value == item.value;
    assert Split(field, ',')[0] == field;
  }

  lemma NothingCollected(lo: int, hi: int)
    ensures UnionOf([], lo, hi) == Some({}) && Collected({}, {}, SomeWraps([], lo, hi), lo, hi)
  {}

  lemma {:induction false} UnionNonEmpty(parts: seq<string>, lo: int, hi: int)
    requires lo <= hi && parts != [] && UnionOf(parts, lo, hi).Some?
    ensures UnionOf(parts, lo, hi).value != {}
  {
    hide Atoi, SplitTwo;
    var item := ItemSet(parts[|parts| - 1], lo, hi).value;
    var field := parts[|parts| - 1];
    if '/' in field {
      assert ParseStepped(field, lo, hi).value.start in item;
    } else if field == "*" {
      assert lo in item;
    } else if '-' in field {
      assert ParseRange(field, lo, hi).value.0 in item;
    } else {
      assert Atoi(field).value in item;
    }
  }

  lemma SortedDenotes(s: seq<int>, keys: set<int>, parts: seq<string>, lo: int, hi: int)
    requires lo <= hi && parts != [] && UnionOf(parts, lo, hi).Some? && Increasing(s) && Elements(s) == keys
    requires Collected(keys, UnionOf(parts, lo, hi).value, SomeWraps(parts, lo, hi), lo, hi)
    ensures Denotes(s, UnionOf(parts, lo, hi).value, SomeWraps(parts, lo, hi), lo, hi)
  {
    hide ItemSet, ItemWraps, UnionOf, Increasing;
    UnionNonEmpty(parts, lo, hi);
    assert forall v :: v in keys <==> v in s;
    forall i | 0 <= i < |s| ensures s[i] in keys { assert s[i] in s; }
    var denoted := UnionOf(parts, lo, hi).value;
    var x := Pick(denoted);
    assert x in keys ==> x in s;
  }

  // Outside the wrapping steps, and only there, a field parses to a proper set.
  lemma ProperExactly(field: string, vals: seq<int>, lo: int, hi: int)
    requires 0 <= lo && FieldSet(field, lo, hi).Some?
    requires Denotes(vals, FieldSet(field, lo, hi).value, Wraps(field, lo, hi), lo, hi)
    ensures FieldOk(vals, lo, hi) && Elements(vals) == FieldSet(field, lo, hi).value <==> !Wraps(field, lo, hi)
  {
    hide FieldSet, Wraps;
    if Wraps(field, lo, hi) {
      var v :| v in vals && v < 0;
      var i :| 0 <= i < |vals| && vals[i] == v;
    }
  }

  lemma DigitsSnoc(s: string, d: char)
    requires '0' <= d <= '9' && forall i :: 0 <= i < |s| ==> '0' <= s[i] <= '9'
    ensures Digits(s + [d]) == 10 * Digits(s) + (d as int - '0' as int)
  {
    assert (s + [d])[..|s|] == s;
  }

  const LARGEST := "9223372036854775807"

  lemma LargestDigits7()
    ensures Digits("9223372") == 9223372
  {
    hide Digits;
    OneDigit('9');
    DigitsSnoc("9", '2');
    assert "9" + ['2'] == "92";
    DigitsSnoc("92", '2');
    assert "92" + ['2'] == "922";
    DigitsSnoc("922", '3');
    assert "922" + ['3'] == "9223";
    DigitsSnoc("9223", '3');
    assert "9223" + ['3'] == "92233";
    DigitsSnoc("92233", '7');
    assert "92233" + ['7'] == "922337";
    DigitsSnoc("922337", '2');
    assert "922337" + ['2'] == "9223372";
  }

  lemma LargestDigits13()
    ensures Digits("9223372036854") == 9223372036854
  {
    hide Digits;
    LargestDigits7();
    DigitsSnoc("9223372", '0');
    assert "9223372" + ['0'] == "92233720";
    DigitsSnoc("92233720", '3');
    assert "92233720" + ['3'] == "922337203";
    DigitsSnoc("922337203", '6');
    assert "922337203" + ['6'] == "9223372036";
    DigitsSnoc("9223372036", '8');
    assert "9223372036" + ['8'] == "92233720368";
    DigitsSnoc("92233720368", '5');
    assert "92233720368" + ['5'] == "922337203685";
    DigitsSnoc("922337203685", '4');
    assert "922337203685" + ['4'] == "9223372036854";
  }

  lemma LargestDigits19()
    ensures Digits("9223372036854775807") == 9223372036854775807
  {
    hide Digits;
    LargestDigits13();
    DigitsSnoc("9223372036854", '7');
    assert "9223372036854" + ['7'] == "92233720368547";
    DigitsSnoc("92233720368547", '7');
    assert "92233720368547" + ['7'] == "922337203685477";
    DigitsSnoc("922337203685477", '5');
    assert "922337203685477" + ['5'] == "9223372036854775";
    DigitsSnoc("9223372036854775", '8');
    assert "9223372036854775" + ['8'] == "92233720368547758";
    DigitsSnoc("92233720368547758", '0');
    assert "92233720368547758" + ['0'] == "922337203685477580";
    DigitsSnoc("922337203685477580", '7');
    assert "922337203685477580" + ['7'] == "9223372036854775807";
  }

  lemma OneDigit(d: char)
    requires '0' <= d <= '9'
    ensures Digits([d]) == d as int - '0' as int
  {
    assert [d][..0] == "";
  }

  lemma LargestValue()
    ensures Atoi(LARGEST) == Some(MAX_INT)
  {
    hide Digits;
    LargestDigits19();
  }

  // "*/9223372036854775807", which parses and wraps in a field that does not start at 0, as the
  // day of the month and the month.
  lemma LargestStepWraps(lo: int, hi: int)
    requires 0 < lo <= hi
    ensures Wraps("*/" + LARGEST, lo, hi) && FieldSet("*/" + LARGEST, lo, hi).Some?
  {
    hide Atoi, UnionOf, SomeWraps;
    var field := "*/" + LARGEST;
    LargestValue();
    SplitStep(LARGEST);
    assert ',' !in field;
    SplitPlain(field, ',');
    SingleList(field, lo, hi);
    assert ItemWraps(field, lo, hi);
  }

  // As the day of the month, its list is 1, the smallest integer, -1: the binary search for a day,
  // made for sorted lists, finds none of them, not even the 1 it denotes.
  lemma LargestStepFindsNothing(hi: int, day: int)
    requires 1 <= hi <= 59 && 1 <= day
    ensures var field := "*/" + LARGEST;
      && ItemWraps(field, 1, hi) && WrappedItem(field, 1, hi) == [1, -MAX_INT - 1, -1]
      && FieldSet(field, 1, hi) == Some({1})
      && !Contains(WrappedItem(field, 1, hi), day)
  {
    hide Atoi, UnionOf, Contains, Steps, WrappedList, Split, OnStep;
    var field := "*/" + LARGEST;
    LargestValue();
    SplitStep(LARGEST);
    assert ItemWraps(field, 1, hi);
    LargestList();
    SplitPlain(field, ',');
    SingleList(field, 1, hi);
    LargeStepAlone(hi);
    NotFound(day);
  }

  lemma LargestList()
    ensures WrappedList(1, 1) == [1, -MAX_INT - 1, -1]
  {
    hide WrappedList;
    WrappedUnfolds(1, 1);
    WrappedUnfolds(-1, 1);
  }

  lemma NotFound(day: int)
    requires 1 <= day
    ensures !Contains([1, -MAX_INT - 1, -1], day)
  {
    var s := [1, -MAX_INT - 1, -1];
    assert Search(s, day, 3, 3) == 3;
    assert Search(s, day, 2, 3) == 3;
  }

  lemma LargeStepAlone(hi: int)
    requires 1 <= hi <= 59
    ensures Steps(1, hi, MAX_INT) == {1}
  {
    forall v | 1 <= v <= hi ensures OnStep(1, MAX_INT, v) <==> v == 1 {
      assert v > 1 ==> !OnStep(1, MAX_INT, v - MAX_INT);
    }
  }

  lemma SplitStep(step: string)
    ensures SplitTwo("*/" + step, '/') == ("*", step)
  {
    var field := "*/" + step;
    assert field[0] == '*' && field[1..] == "/" + step && field[1..][0] == '/' && field[1..][1..] == step;
    assert ['*'] + "" == "*";
  }

  // ---------- isWild and Parse ----------

  lemma {:induction false} IncreasingSpread(s: seq<int>, i: nat, j: nat)
    requires Increasing(s) && i <= j < |s|
    ensures s[j] - s[i] >= j - i
    decreases j - i
  {
    if i == j {
    } else {
      IncreasingSpread(s, i, j - 1);
    }
  }

  lemma FullIsInterval(s: seq<int>, lo: int, hi: int)
    requires FieldOk(s, lo, hi) && |s| == hi - lo + 1
    ensures Elements(s) == Interval(lo, hi)
  {
    hide Interval, Increasing;
    var n := |s| - 1;
    forall v | lo <= v <= hi ensures v in s {
      IncreasingSpread(s, 0, v - lo);
      IncreasingSpread(s, v - lo, n);
      assert s[v - lo] == v;
    }
  }

  // An increasing list of exactly the values of an interval is as long as the interval.
  lemma {:induction false} IntervalIsFull(s: seq<int>, lo: int, hi: int)
    requires Increasing(s) && s != [] && lo <= hi
    requires forall v :: v in s <==> lo <= v <= hi
    ensures |s| == hi - lo + 1
    decreases hi - lo
  {
    var n := |s| - 1;
    assert hi in s && lo in s && s[n] in s && s[0] in s;
    assert s[n] == hi && s[0] == lo;
    if lo == hi {
    } else {
      var init := s[..n];
      assert init[0] == lo;
      forall v ensures v in init <==> lo <= v <= hi - 1 {
        if v in s {
          var k: int :| 0 <= k < |s| && s[k] == v;
          assert k < n ==> init[k] == v;
        }
      }
      IntervalIsFull(init, lo, hi - 1);
    }
  }

  // As many values as the interval has: all of them.
  lemma FullInterval(s: seq<int>, lo: int, hi: int)
    requires FieldOk(s, lo, hi)
    ensures |s| == hi - lo + 1 <==> Elements(s) == Interval(lo, hi)
  {
    hide Interval, Increasing;
    assert lo <= s[0] <= hi;
    if |s| == hi - lo + 1 {
      FullIsInterval(s, lo, hi);
    } else if Elements(s) == Interval(lo, hi) {
      assert forall v :: v in s <==> v in Elements(s);
      IntervalIsFull(s, lo, hi);
    }
  }

  method IsWild(field: string, lo: int, hi: int) returns (wild: bool)
    requires 0 <= lo <= hi <= 59
    ensures !Wraps(field, lo, hi) ==> (wild <==> FieldSet(field, lo, hi) == Some(Interval(lo, hi)))
    ensures ',' !in field && ItemWraps(field, lo, hi) ==> (wild <==> |WrappedItem(field, lo, hi)| == hi - lo + 1)
  {
    hide FieldSet, Wraps, Increasing, Interval, ItemWraps, WrappedItem;
    var vals := ParseField(field, lo, hi);
    if vals.None? {
      return false;
    }
    if !Wraps(field, lo, hi) { FullInterval(vals.value, lo, hi); }
    return |vals.value| == hi - lo + 1;
  }

  // What a parsed field holds.
  ghost predicate FieldParsed(vals: seq<int>, field: string, lo: int, hi: int)
  {
    FieldOk(vals, lo, hi) && FieldSet(field, lo, hi) == Some(Elements(vals))
  }

  predicate AnyWraps(fields: seq<string>)
    requires |fields| == 5
  {
    Wraps(fields[0], 0, 59) || Wraps(fields[1], 0, 23) || Wraps(fields[2], 1, 31)
    || Wraps(fields[3], 1, 12) || Wraps(fields[4], 0, 6)
  }

  // Parse, on the white-space separated fields of the expression.
  method Parse(fields: seq<string>) returns (r: Option<Cron>)
    ensures r.Some? <==>
              && |fields| == 5
              && FieldSet(fields[0], 0, 59).Some? && FieldSet(fields[1], 0, 23).Some?
              && FieldSet(fields[2], 1, 31).Some? && FieldSet(fields[3], 1, 12).Some?
              && FieldSet(fields[4], 0, 6).Some?
    ensures r.Some? && !AnyWraps(fields) ==>
              var c := r.value;
              && Parsed(c)
              && FieldParsed(c.minute, fields[0], 0, 59) && FieldParsed(c.hour, fields[1], 0, 23)
              && FieldParsed(c.dom, fields[2], 1, 31) && FieldParsed(c.month, fields[3], 1, 12)
              && FieldParsed(c.dow, fields[4], 0, 6)
              && (c.domWild <==> FieldSet(fields[2], 1, 31) == Some(Interval(1, 31)))
              && (c.dowWild <==> FieldSet(fields[4], 0, 6) == Some(Interval(0, 6)))
  {
    hide FieldSet, Wraps, Increasing, Interval, Elements;
    if |fields| != 5 {
      return None;
    }
    var minute := ParseField(fields[0], 0, 59);
    if minute.None? { return None; }
    var hour := ParseField(fields[1], 0, 23);
    if hour.None? { return None; }
    var dom := ParseField(fields[2], 1, 31);
    if dom.None? { return None; }
    var month := ParseField(fields[3], 1, 12);
    if month.None? { return None; }
    var dow := ParseField(fields[4], 0, 6);
    if dow.None? { return None; }
    var domWild := IsWild(fields[2], 1, 31);
    var dowWild := IsWild(fields[4], 0, 6);
    return Some(Cron(minute.value, hour.value, dom.value, month.value, dow.value, domWild, dowWild));
  }

  // ---------- what the texts of a field mean ----------

  function DigitChar(d: nat): char
    requires d < 10
  {
    (d + '0' as int) as char
  }

  // A number in decimal.
  function Decimal(n: nat): (s: string)
    ensures s != "" && forall i :: 0 <= i < |s| ==> '0' <= s[i] <= '9'
  {
    if n < 10 then [DigitChar(n)] else Decimal(n / 10) + [DigitChar(n % 10)]
  }

  lemma {:induction false} DigitsDecimal(n: nat)
    ensures Digits(Decimal(n)) == n
  {
    if n < 10 {
      OneDigit(DigitChar(n));
    } else {
      DigitsDecimal(n / 10);
      DigitsSnoc(Decimal(n / 10), DigitChar(n % 10));
    }
  }

  lemma AtoiDecimal(n: nat)
    requires n <= MAX_INT
    ensures Atoi(Decimal(n)) == Some(n)
    ensures '-' !in Decimal(n) && '/' !in Decimal(n) && ',' !in Decimal(n) && Decimal(n) != "*"
  {
    hide Decimal, Digits;
    DigitsDecimal(n);
    assert forall c :: c in Decimal(n) ==> '0' <= c <= '9';
  }

  lemma {:induction false} SplitTwoAt(a: string, sep: char, b: string)
    requires sep !in a
    ensures SplitTwo(a + [sep] + b, sep) == (a, b)
  {
    var s := a + [sep] + b;
    if a == "" {
      assert s[0] == sep && s[1..] == b;
    } else {
      assert s[0] == a[0] && s[1..] == a[1..] + [sep] + b;
      SplitTwoAt(a[1..], sep, b);
      assert [a[0]] + a[1..] == a;
    }
  }

  // Two numbers joined by a dash are read as those two numbers.
  lemma RangeText(a: nat, b: nat, lo: int, hi: int)
    requires a <= MAX_INT && b <= MAX_INT
    ensures ParseRange(Decimal(a) + "-" + Decimal(b), lo, hi)
         == if lo <= a <= b <= hi then Some((a, b)) else None
  {
    hide Atoi, SplitTwo, Decimal;
    AtoiDecimal(a);
    AtoiDecimal(b);
    SplitTwoAt(Decimal(a), '-', Decimal(b));
    assert Decimal(a) + "-" + Decimal(b) == Decimal(a) + ['-'] + Decimal(b);
  }

  // Every step-th value from start on, up to end.
  lemma StepsAre(start: int, end: int, step: int, v: int)
    requires step > 0
    ensures v in Steps(start, end, step) <==> start <= v <= end && Reached(start, step, v)
  {
    hide OnStep;
    if start <= v { OnStepExactly(start, step, v); }
  }

  predicate IsStep(start: int, step: int, k: nat, v: int) { v == start + k * step }

  // v is start plus a number of steps.
  ghost predicate Reached(start: int, step: int, v: int)
  {
    exists k: nat :: IsStep(start, step, k, v)
  }

  lemma {:induction false} OnStepExactly(start: int, step: int, v: int)
    requires step > 0 && start <= v
    ensures OnStep(start, step, v) <==> Reached(start, step, v)
    decreases v - start
  {
    if v == start {
      assert IsStep(start, step, 0, v);
    } else if v - step < start {
      NoStepBetween(start, step, v);
    } else {
      OnStepExactly(start, step, v - step);
      hide Reached;
      OneStepMore(start, step, v);
    }
  }

  lemma NoStepBetween(start: int, step: int, v: int)
    requires step > 0 && start < v < start + step
    ensures !OnStep(start, step, v) && !Reached(start, step, v)
  {
    assert !OnStep(start, step, v - step);
    forall k: nat ensures !IsStep(start, step, k, v) {
      if k >= 1 { Multiple(k, step); }
    }
  }

  lemma Multiple(k: nat, step: int)
    requires k >= 1 && step > 0
    ensures k * step >= step
  {
    assert k * step == (k - 1) * step + step;
  }

  lemma OneStepMore(start: int, step: int, v: int)
    requires step > 0 && start <= v - step
    ensures Reached(start, step, v) <==> Reached(start, step, v - step)
  {
    if Reached(start, step, v) {
      var k: nat :| IsStep(start, step, k, v);
      assert k >= 1;
      assert (k - 1) * step == k * step - step;
      assert IsStep(start, step, k - 1, v - step);
    }
    if Reached(start, step, v - step) {
      var k: nat :| IsStep(start, step, k, v - step);
      assert (k + 1) * step == k * step + step;
      assert IsStep(start, step, k + 1, v);
    }
  }

  // The five forms of a list element, on their texts.
  lemma ItemTexts(a: nat, b: nat, step: nat, lo: int, hi: int)
    requires a <= MAX_INT && b <= MAX_INT && step <= MAX_INT
    ensures ItemSet("*", lo, hi) == Some(Interval(lo, hi))
    ensures ItemSet(Decimal(a), lo, hi) == if lo <= a <= hi then Some({a}) else None
    ensures ItemSet(Decimal(a) + "-" + Decimal(b), lo, hi) == if lo <= a <= b <= hi then Some(Interval(a, b)) else None
    ensures ItemSet("*/" + Decimal(step), lo, hi) == if step > 0 then Some(Steps(lo, hi, step)) else None
    ensures ItemSet(Decimal(a) + "-" + Decimal(b) + "/" + Decimal(step), lo, hi)
         == if step > 0 && lo <= a <= b <= hi then Some(Steps(a, b, step)) else None
  {
    hide Atoi, SplitTwo, Decimal, Interval, Steps, ParseRange;
    AtoiDecimal(a);
    AtoiDecimal(b);
    AtoiDecimal(step);
    RangeText(a, b, lo, hi);
    SplitTwoAt("*", '/', Decimal(step));
    assert "*/" + Decimal(step) == "*" + ['/'] + Decimal(step);
    SteppedRange(Decimal(a) + "-" + Decimal(b), step, lo, hi);
  }

  lemma SteppedRange(range: string, step: nat, lo: int, hi: int)
    requires step <= MAX_INT && '/' !in range && '-' in range
    ensures ParseStepped(range + "/" + Decimal(step), lo, hi)
         == if step == 0 || ParseRange(range, lo, hi).None? then None
            else Some(Stepped(ParseRange(range, lo, hi).value.0, ParseRange(range, lo, hi).value.1, step))
  {
    hide Atoi, SplitTwo, Decimal, ParseRange;
    AtoiDecimal(step);
    SplitTwoAt(range, '/', Decimal(step));
    assert range + "/" + Decimal(step) == range + ['/'] + Decimal(step);
  }

  // A list denotes what its elements denote together.
  lemma {:induction false} ListUnion(parts: seq<string>, lo: int, hi: int, v: int)
    ensures UnionOf(parts, lo, hi).Some? <==> forall i :: 0 <= i < |parts| ==> ItemSet(parts[i], lo, hi).Some?
    ensures UnionOf(parts, lo, hi).Some? ==>
      (v in UnionOf(parts, lo, hi).value <==>
       exists i :: 0 <= i < |parts| && ItemSet(parts[i], lo, hi).Some? && v in ItemSet(parts[i], lo, hi).value)
  {
    hide ItemSet;
    if parts == [] {
    } else {
      var n := |parts| - 1;
      ListUnion(parts[..n], lo, hi, v);
    }
  }
}
