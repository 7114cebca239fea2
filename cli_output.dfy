/**
 * What the command line prints for a listing: sizes scaled to a unit no
 * higher than the configured `sum` and printed at a fixed width of twelve
 * characters, entry names with the listed path removed, and the total size.
 *
 * Sizes are integers: dividing by 1024 is an exact power-of-two scaling, so
 * the scaled value is kept as the pair (bytes, divisor) and rounding is done
 * on integers. Console lines are returned as sequences of strings.
 */
module CliOutput {
  import opened Results
  import opened S3Client

  /** The units in increasing order; `Units[k]` stands for 1024^k bytes. */
  const Units: seq<string> := ["B", "K", "M", "G", "T"]

  /** `Divisors[k]` is 1024^k. */
  const Divisors: seq<nat> := [1, 1024, 1048576, 1073741824, 1099511627776]

  /** The ten spaces a printed number is padded with on the left. */
  const Padding: string := "          "

  /**
   * A scaled size: the value is `bytes / divisor` in `unit`; `printed` (the source's `print`) is the
   * fixed-width text of that value rounded, a space, and the unit.
   */
  datatype SizeResult = SizeResult(bytes: nat, divisor: nat, unit: string, printed: string)

  // ---------------------------------------------------------------------------
  // Decimal digits
  // ---------------------------------------------------------------------------

  predicate IsDigits(s: string) {
    forall i :: 0 <= i < |s| ==> '0' <= s[i] <= '9'
  }

  function DigitChar(d: nat): (c: char)
    requires d < 10
    ensures '0' <= c <= '9' && c as int - '0' as int == d
  {
    (d + '0' as int) as char
  }

  /** The decimal text of `n`, as `toString` writes an integer: no leading zeros. */
  function DecimalString(n: nat): (s: string)
    ensures |s| >= 1 && IsDigits(s)
    ensures |s| > 1 ==> s[0] != '0'
    decreases n
  {
    if n < 10 then [DigitChar(n)] else DecimalString(n / 10) + [DigitChar(n % 10)]
  }

  /** The number a string of decimal digits denotes. */
  function DecimalValue(s: string): nat
    requires IsDigits(s)
    decreases |s|
  {
    if s == [] then 0 else 10 * DecimalValue(s[..|s| - 1]) + (s[|s| - 1] as int - '0' as int)
  }

  /** The printed digits denote exactly the rounded value. */
  lemma {:induction false} DecimalRoundTrip(n: nat)
    ensures DecimalValue(DecimalString(n)) == n
    decreases n
  {
    if n >= 10 {
      DecimalRoundTrip(n / 10);
      var s := DecimalString(n);
      assert s[..|s| - 1] == DecimalString(n / 10);
    }
  }

  // ---------------------------------------------------------------------------
  // Rounding and the fixed-width field
  // ---------------------------------------------------------------------------

  /**
   * `Math.round(n / d)` for `n >= 0`: the integer `r` with
   * `r <= n / d + 1/2 < r + 1`, so halves round up.
   */
  function RoundDiv(n: nat, d: nat): (r: nat)
    requires d > 0
    ensures 2 * r * d <= 2 * n + d < 2 * (r + 1) * d
  {
    var q := (2 * n + d) / (2 * d);
    assert (2 * n + d) == q * (2 * d) + (2 * n + d) % (2 * d);
    q
  }

  /**
   * The last ten characters of the digits padded with ten spaces, a space,
   * and the unit: always twelve characters, the number right-aligned, and
   * only the last ten digits kept of a longer number.
   */
  function FixedWidth(digits: string, unit: string): (printed: string)
    requires |unit| == 1
    ensures |printed| == 12
    ensures printed[10] == ' ' && printed[11..] == unit
    ensures |digits| <= 10 ==> printed[..10] == Padding[..10 - |digits|] + digits
    ensures |digits| > 10 ==> printed[..10] == digits[|digits| - 10..]
  {
    var numStr := Padding + digits;
    var field := numStr[|numStr| - 10..];
    if |digits| <= 10 then
      assert field == Padding[|digits|..] + digits;
      assert Padding[|digits|..] == Padding[..10 - |digits|];
      field + " " + unit
    else
      assert field == digits[|digits| - 10..];
      assert (field + " " + unit)[..10] == field;
      field + " " + unit
  }

  // ---------------------------------------------------------------------------
  // Unit scaling
  // ---------------------------------------------------------------------------

  /**
   * The highest unit index scaling may reach: that of `sum` when it names a
   * unit, and `T`'s when it names none.
   */
  function UnitCap(sum: string): (k: nat)
    ensures k < |Units|
    ensures sum in Units ==> Units[k] == sum
    ensures sum !in Units ==> k == |Units| - 1
  {
    if sum == "B" then 0
    else if sum == "K" then 1
    else if sum == "M" then 2
    else if sum == "G" then 3
    else 4
  }

  /**
   * The unit index a size scales to under cap `cap`: the largest index
   * `k <= cap` with `size > 1024^k`, or 0 when there is none.
   */
  function ScaleIndex(size: nat, cap: nat): (k: nat)
    requires cap < |Units|
    ensures k <= cap
    ensures k > 0 ==> size > Divisors[k]
    ensures k < cap ==> size <= Divisors[k + 1]
    decreases cap
  {
    if cap == 0 then 0
    else if size > Divisors[cap] then cap
    else ScaleIndex(size, cap - 1)
  }

  /** The three properties of `ScaleIndex` determine it. */
  lemma ScaleIndexUnique(size: nat, cap: nat, j: nat)
    requires j <= cap < |Units|
    requires j > 0 ==> size > Divisors[j]
    requires j < cap ==> size <= Divisors[j + 1]
    ensures j == ScaleIndex(size, cap)
  {
    var k := ScaleIndex(size, cap);
    assert forall a, b :: 0 <= a <= b < |Divisors| ==> Divisors[a] <= Divisors[b];
    if k < j {
      assert false;
    } else if j < k {
      assert false;
    }
  }

  /**
   * The scaled size of `bytes` under the configured `sum`: in the unit
   * `ScaleIndex` picks, printed rounded at the fixed width.
   */
  function ScaledSize(bytes: nat, sum: string): (r: SizeResult)
    ensures r.unit in Units && |r.printed| == 12
    ensures sum == "B" ==> r.unit == "B" && r.divisor == 1
    ensures sum in Units ==> UnitCap(r.unit) <= UnitCap(sum)
  {
    var k := ScaleIndex(bytes, UnitCap(sum));
    SizeResult(bytes, Divisors[k], Units[k], FixedWidth(DecimalString(RoundDiv(bytes, Divisors[k])), Units[k]))
  }

  /**
   * Scale `size` one unit at a time while the unit is not yet `sum` and the
   * value still exceeds 1024 of the current unit, up to `T`; then print it.
   */
  method Size(size: nat, sum: string) returns (r: SizeResult)
    ensures r == ScaledSize(size, sum)
  {
    ghost var k := 0;
    var divisor := 1;
    var modifier := "B";
    // (size / divisor) / 1024 > 1 on the exact quotient is size > divisor * 1024
    if sum != modifier && size > divisor * 1024 {
      divisor, modifier := divisor * 1024, "K";
      k := 1;
    }
    if sum != modifier && size > divisor * 1024 {
      divisor, modifier := divisor * 1024, "M";
      k := 2;
    }
    if sum != modifier && size > divisor * 1024 {
      divisor, modifier := divisor * 1024, "G";
      k := 3;
    }
    if sum != modifier && size > divisor * 1024 {
      divisor, modifier := divisor * 1024, "T";
      k := 4;
    }
    assert divisor == Divisors[k] && modifier == Units[k];
    ScaleIndexUnique(size, UnitCap(sum), k);
    var rounded := RoundDiv(size, divisor);
    var numStr := Padding + DecimalString(rounded);
    r := SizeResult(size, divisor, modifier, numStr[|numStr| - 10..] + " " + modifier);
  }

  /** An exact mebibyte does not exceed 1024 K, so auto-scaling leaves it at 1024 K. */
  lemma ExactMebibyteStaysInK(sum: string)
    requires sum !in Units
    ensures ScaleIndex(1048576, UnitCap(sum)) == 1 && Units[1] == "K"
    ensures RoundDiv(1048576, Divisors[1]) == 1024
  {
    assert ScaleIndex(1048576, 4) == ScaleIndex(1048576, 1);
  }

  // ---------------------------------------------------------------------------
  // Totals
  // ---------------------------------------------------------------------------

  /** The sum of the sizes of a run of entries. */
  function SumSizes(entries: seq<ObjectEntry>): nat
    decreases |entries|
  {
    if entries == [] then 0 else entries[0].size + SumSizes(entries[1..])
  }

  /** The total of two runs of entries is the sum of their totals. */
  lemma {:induction false} SumSizesConcat(a: seq<ObjectEntry>, b: seq<ObjectEntry>)
    ensures SumSizes(a + b) == SumSizes(a) + SumSizes(b)
    decreases |a|
  {
    if a == [] {
      assert a + b == b;
    } else {
      assert (a + b)[1..] == a[1..] + b;
      SumSizesConcat(a[1..], b);
    }
  }

  /** The sum of the per-page totals of a run of pages. */
  function PagesTotal(pages: seq<Page>): nat
    decreases |pages|
  {
    if pages == [] then 0 else SumSizes(ContentsOf(pages[0])) + PagesTotal(pages[1..])
  }

  /** The total of an aggregated listing is the sum of what each page holds. */
  lemma {:induction false} AggregateTotal(pages: seq<Page>)
    ensures SumSizes(Aggregate(pages).contents) == PagesTotal(pages)
    decreases |pages|
  {
    if pages != [] {
      AggregateTotal(pages[1..]);
      SumSizesConcat(ContentsOf(pages[0]), Aggregate(pages[1..]).contents);
    }
  }

  /** The line `Total Size: ` and the printed total. */
  function TotalLine(total: nat, sum: string): (line: string)
    ensures |line| == 24 && line[..12] == "Total Size: "
  {
    "Total Size: " + ScaledSize(total, sum).printed
  }

  /** A listing with no contents totals zero, printed right-aligned in bytes. */
  lemma EmptyTotal(sum: string)
    ensures SumSizes([]) == 0
    ensures TotalLine(0, sum) == "Total Size:          0 B"
  {
    assert ScaleIndex(0, UnitCap(sum)) == 0;
    assert RoundDiv(0, 1) == 0;
    var printed := FixedWidth(DecimalString(0), "B");
    assert printed[..10] == "         0";
    assert printed == printed[..10] + " B";
  }

  /**
   * The `size` command's handler: add up the size of every entry of
   * `Contents` (nothing when the property is absent) and print the total.
   */
  method TotalSize(contents: Option<seq<ObjectEntry>>, sum: string) returns (lines: seq<string>)
    ensures lines == [TotalLine(SumSizes(contents.GetOr([])), sum)]
  {
    var totalSize := 0;
    if contents.Some? {
      var entries := contents.value;
      for i := 0 to |entries|
        invariant totalSize == SumSizes(entries[..i])
      {
        SumSizesConcat(entries[..i], [entries[i]]);
        assert entries[..i + 1] == entries[..i] + [entries[i]];
        totalSize := totalSize + entries[i].size;
      }
      assert entries[..|entries|] == entries;
    }
    var total := Size(totalSize, sum);
    lines := ["Total Size: " + total.printed];
  }

  // ---------------------------------------------------------------------------
  // Names relative to the listed path
  // ---------------------------------------------------------------------------

  predicate OccursAt(s: string, pattern: string, i: nat) {
    i + |pattern| <= |s| && s[i..i + |pattern|] == pattern
  }

  /** The first position at or after `from` where `pattern` occurs in `s`. */
  function IndexOf(s: string, pattern: string, from: nat): (r: Option<nat>)
    ensures r.Some? ==> from <= r.value && OccursAt(s, pattern, r.value)
    ensures r.Some? ==> forall j :: from <= j < r.value ==> !OccursAt(s, pattern, j)
    ensures r.None? ==> forall j :: from <= j ==> !OccursAt(s, pattern, j)
    decreases |s| - from
  {
    if from + |pattern| > |s| then None
    else if s[from..from + |pattern|] == pattern then Some(from)
    else IndexOf(s, pattern, from + 1)
  }

  /** `s.replace(pattern, "")` with a string pattern. */
  function RemoveFirst(s: string, pattern: string): string {
    match IndexOf(s, pattern, 0)
    case None => s
    case Some(i) => s[..i] + s[i + |pattern|..]
  }

  /**
   * Name stripping removes the first occurrence of the pattern and nothing
   * else: the result with the pattern put back at that position is the
   * original; with no occurrence the string is unchanged.
   */
  lemma RemoveFirstSpec(s: string, pattern: string)
    ensures IndexOf(s, pattern, 0).None? ==> RemoveFirst(s, pattern) == s
    ensures IndexOf(s, pattern, 0).Some? ==>
              var i, r := IndexOf(s, pattern, 0).value, RemoveFirst(s, pattern);
              |r| == |s| - |pattern| && (forall j :: 0 <= j < i ==> !OccursAt(s, pattern, j)) &&
              s == r[..i] + pattern + r[i..]
  {
    match IndexOf(s, pattern, 0)
    case None =>
    case Some(i) =>
      var r := s[..i] + s[i + |pattern|..];
      assert r[..i] == s[..i] && r[i..] == s[i + |pattern|..];
      assert s == s[..i] + s[i..i + |pattern|] + s[i + |pattern|..];
  }

  /** The printed name of a common prefix. */
  function PrefixLines(prefixes: seq<CommonPrefix>, path: string): seq<string> {
    seq(|prefixes|, i requires 0 <= i < |prefixes| => RemoveFirst(prefixes[i].prefix, path))
  }

  /**
   * What one entry prints: its printed size, three spaces and its name, or
   * nothing when the name is empty once `path` is removed.
   */
  function EntryOutput(e: ObjectEntry, path: string, sum: string): Option<string> {
    var name := RemoveFirst(e.key, path);
    if name != "" then Some(ScaledSize(e.size, sum).printed + "   " + name) else None
  }

  /** The values of the options that are present, in order. */
  function Present<T>(xs: seq<Option<T>>): seq<T>
    decreases |xs|
  {
    if xs == [] then [] else (if xs[0].Some? then [xs[0].value] else []) + Present(xs[1..])
  }

  lemma {:induction false} PresentConcat<T>(a: seq<Option<T>>, b: seq<Option<T>>)
    ensures Present(a + b) == Present(a) + Present(b)
    decreases |a|
  {
    if a == [] {
      assert a + b == b;
    } else {
      var head := if a[0].Some? then [a[0].value] else [];
      assert (a + b)[0] == a[0] && (a + b)[1..] == a[1..] + b;
      assert Present(a + b) == head + Present(a[1..] + b);
      PresentConcat(a[1..], b);
      assert Present(a) == head + Present(a[1..]);
    }
  }

  lemma {:induction false} PresentCount<T>(xs: seq<Option<T>>)
    ensures |Present(xs)| <= |xs|
    ensures (forall i :: 0 <= i < |xs| ==> xs[i].Some?) ==> |Present(xs)| == |xs|
    decreases |xs|
  {
    if xs != [] {
      PresentCount(xs[1..]);
      assert forall i :: 0 <= i < |xs| - 1 ==> xs[1..][i] == xs[i + 1];
    }
  }

  /** What each entry prints, entry by entry. */
  function EntryOutputs(entries: seq<ObjectEntry>, path: string, sum: string): seq<Option<string>> {
    seq(|entries|, i requires 0 <= i < |entries| => EntryOutput(entries[i], path, sum))
  }

  /** The lines of the entries whose name is not empty once `path` is removed. */
  function EntryLines(entries: seq<ObjectEntry>, path: string, sum: string): seq<string> {
    Present(EntryOutputs(entries, path, sum))
  }

  /** At most one line per entry, and exactly one when every name is non-empty. */
  lemma EntryLinesCount(entries: seq<ObjectEntry>, path: string, sum: string)
    ensures |EntryLines(entries, path, sum)| <= |entries|
    ensures (forall i :: 0 <= i < |entries| ==> RemoveFirst(entries[i].key, path) != "")
            ==> |EntryLines(entries, path, sum)| == |entries|
  {
    PresentCount(EntryOutputs(entries, path, sum));
  }

  /** One more entry adds its size to the total and its line, if it has a name. */
  lemma EntryStep(entries: seq<ObjectEntry>, i: nat, path: string, sum: string)
    requires i < |entries|
    ensures SumSizes(entries[..i + 1]) == SumSizes(entries[..i]) + entries[i].size
    ensures EntryLines(entries[..i + 1], path, sum) ==
              EntryLines(entries[..i], path, sum) + Present([EntryOutput(entries[i], path, sum)])
  {
    var obj := entries[i];
    SumSizesConcat(entries[..i], [obj]);
    assert entries[..i + 1] == entries[..i] + [obj];
    var outs := EntryOutputs(entries[..i], path, sum);
    assert EntryOutputs(entries[..i + 1], path, sum) == outs + [EntryOutput(obj, path, sum)];
    PresentConcat(outs, [EntryOutput(obj, path, sum)]);
  }

  /** The `forEach` over `CommonPrefixes`: each prefix with `path` removed. */
  method PrefixNames(prefixes: seq<CommonPrefix>, path: string) returns (lines: seq<string>)
    ensures lines == PrefixLines(prefixes, path)
  {
    lines := [];
    for i := 0 to |prefixes|
      invariant lines == PrefixLines(prefixes[..i], path)
    {
      var name := RemoveFirst(prefixes[i].prefix, path);
      assert PrefixLines(prefixes[..i + 1], path) == PrefixLines(prefixes[..i], path) + [name];
      lines := lines + [name];
    }
    assert prefixes[..|prefixes|] == prefixes;
  }

  /**
   * The `forEach` over `Contents`: add every size to the total, and print
   * the entries whose name is not empty once `path` is removed.
   */
  method EntryNames(entries: seq<ObjectEntry>, path: string, sum: string)
    returns (lines: seq<string>, totalSize: nat)
    ensures lines == EntryLines(entries, path, sum)
    ensures totalSize == SumSizes(entries)
  {
    totalSize := 0;
    lines := [];
    for i := 0 to |entries|
      invariant totalSize == SumSizes(entries[..i])
      invariant lines == EntryLines(entries[..i], path, sum)
    {
      var obj := entries[i];
      EntryStep(entries, i, path, sum);
      totalSize := totalSize + obj.size;
      var name := RemoveFirst(obj.key, path);
      assert [EntryOutput(obj, path, sum)][1..] == [];
      if name != "" {
        var s := Size(obj.size, sum);
        lines := lines + [s.printed + "   " + name];
      }
    }
    assert entries[..|entries|] == entries;
  }

  /**
   * The `list` and `search` commands' handler: one line per common prefix,
   * one per entry whose name is not empty once `path` is removed, and the
   * total of every entry's size, including those not printed.
   */
  method ListObjects(commonPrefixes: Option<seq<CommonPrefix>>, contents: Option<seq<ObjectEntry>>,
                     path: string, sum: string)
    returns (lines: seq<string>)
    ensures lines == PrefixLines(commonPrefixes.GetOr([]), path)
                     + EntryLines(contents.GetOr([]), path, sum)
                     + [TotalLine(SumSizes(contents.GetOr([])), sum)]
  {
    var totalSize := 0;
    lines := [];
    if commonPrefixes.Some? {
      lines := PrefixNames(commonPrefixes.value, path);
    }
    if contents.Some? {
      var entryLines;
      entryLines, totalSize := EntryNames(contents.value, path, sum);
      lines := lines + entryLines;
    }
    var total := Size(totalSize, sum);
    lines := lines + ["Total Size: " + total.printed];
  }
}
