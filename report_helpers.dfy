/**
 * The rank lookup (src/report.helpers.ts).
 *
 * Ranks are stored in shard files, one per two-character name prefix, each a
 * list of `name:rank` lines. The directory and the file reading are outside
 * the model: the lookup receives the lines of the shard file it would open.
 */
module ReportHelpers {
  import opened Optional

  // ---------------------------------------------------------------------------
  // The shard file name: `rankHashFn`.
  // ---------------------------------------------------------------------------

  /** The length of the shard key of `name`: two characters, or fewer for a shorter name. */
  function ShardKeyLength(name: string): (k: nat)
    ensures k <= 2 && k <= |name|
    ensures k == 2 || k == |name|
  {
    if |name| < 2 then |name| else 2
  }

  /** `str.slice(0, 2) + ".txt"`: the shard file holding `name`'s line. */
  function ShardFileName(name: string): (f: string)
    ensures |f| == ShardKeyLength(name) + 4
    ensures f[..ShardKeyLength(name)] == name[..ShardKeyLength(name)]
    ensures f[ShardKeyLength(name)..] == ".txt"
  {
    name[..ShardKeyLength(name)] + ".txt"
  }

  /** Two names share a shard file exactly when they share their first two characters. */
  lemma SameShard(a: string, b: string)
    ensures ShardFileName(a) == ShardFileName(b) <==>
      a[..ShardKeyLength(a)] == b[..ShardKeyLength(b)]
  {
  }

  // ---------------------------------------------------------------------------
  // Lines: `line.split(":")` and the line format.
  // ---------------------------------------------------------------------------

  /**
   * `s.split([sep])` as JavaScript does it: the pieces between separators, with
   * an empty piece before a leading, after a trailing and between two adjacent
   * separators, and one piece for a string without separator.
   */
  function Split(s: string, sep: char): (parts: seq<string>)
    ensures |parts| >= 1
    ensures forall i :: 0 <= i < |parts| ==> sep !in parts[i]
    ensures sep !in s ==> parts == [s]
    ensures sep in s ==> |parts| > 1
    decreases |s|
  {
    if s == [] then [[]]
    else
      var rest := Split(s[1..], sep);
      if s[0] == sep then [[]] + rest
      else
        var first := [s[0]] + rest[0];
        assert forall c :: c in first ==> c == s[0] || c in rest[0];
        assert [s[0]] + s[1..] == s;
        [first] + rest[1..]
  }

  /** The inverse of `Split`: the pieces with `sep` between each two. */
  function Join(parts: seq<string>, sep: char): string
    requires |parts| >= 1
    decreases |parts|
  {
    if |parts| == 1 then parts[0] else parts[0] + [sep] + Join(parts[1..], sep)
  }

  /** Splitting and joining again gives back the line. */
  lemma {:induction false} JoinSplit(s: string, sep: char)
    ensures Join(Split(s, sep), sep) == s
    decreases |s|
  {
    if s != [] {
      JoinSplit(s[1..], sep);
      var rest := Split(s[1..], sep);
      if s[0] == sep {
        assert ([[]] + rest)[1..] == rest;
        assert s == [sep] + s[1..];
      } else {
        var parts := [[s[0]] + rest[0]] + rest[1..];
        if |rest| == 1 {
          assert s == [s[0]] + s[1..];
        } else {
          assert parts[1..] == rest[1..];
          assert Join(rest, sep) == rest[0] + [sep] + Join(rest[1..], sep);
          assert s == [s[0]] + s[1..];
        }
      }
    }
  }

  /** Joining pieces free of the separator and splitting again gives back the pieces. */
  lemma {:induction false} SplitJoin(parts: seq<string>, sep: char)
    requires |parts| >= 1
    requires forall i :: 0 <= i < |parts| ==> sep !in parts[i]
    ensures Split(Join(parts, sep), sep) == parts
    decreases |parts|
  {
    if |parts| > 1 {
      SplitJoin(parts[1..], sep);
      SplitPrefix(parts[0], Join(parts[1..], sep), sep);
      assert [parts[0]] + parts[1..] == parts;
    }
  }

  /** A separator-free piece followed by the separator splits off as the first part. */
  lemma {:induction false} SplitPrefix(p: string, t: string, sep: char)
    requires sep !in p
    ensures Split(p + [sep] + t, sep) == [p] + Split(t, sep)
    decreases |p|
  {
    if p == [] {
      assert p + [sep] + t == [sep] + t;
      assert ([sep] + t)[1..] == t;
    } else {
      var s := p + [sep] + t;
      assert s[0] == p[0] && s[0] != sep;
      assert s[1..] == p[1..] + [sep] + t;
      SplitPrefix(p[1..], t, sep);
      var rest := Split(s[1..], sep);
      assert rest[0] == p[1..] && rest[1..] == Split(t, sep);
      assert [p[0]] + p[1..] == p;
    }
  }

  /** The first piece is the text before the first separator, or all of `s` when it has none. */
  lemma {:induction false} SplitFirst(s: string, sep: char)
    ensures var p := Split(s, sep)[0]; |p| <= |s| && p == s[..|p|] && (|p| < |s| ==> s[|p|] == sep)
    decreases |s|
  {
    if s != [] && s[0] != sep {
      SplitFirst(s[1..], sep);
      var q := Split(s[1..], sep)[0];
      assert Split(s, sep)[0] == [s[0]] + q;
    }
  }

  // ---------------------------------------------------------------------------
  // Decimal numbers: `parseInt` on the digits a line carries.
  // ---------------------------------------------------------------------------

  predicate IsDigit(c: char)
  {
    '0' <= c <= '9'
  }

  /** The number of leading decimal digits of `s`. */
  function DigitPrefix(s: string): (k: nat)
    ensures k <= |s|
    ensures forall i :: 0 <= i < k ==> IsDigit(s[i])
    ensures k < |s| ==> !IsDigit(s[k])
    decreases |s|
  {
    if s != [] && IsDigit(s[0]) then 1 + DigitPrefix(s[1..]) else 0
  }

  /** The value of a string of decimal digits, most significant first. */
  function DecimalValue(ds: string): nat
    decreases |ds|
  {
    if ds == [] then 0
    else DecimalValue(ds[..|ds| - 1]) * 10 + DigitValue(ds[|ds| - 1])
  }

  function DigitValue(c: char): (v: nat)
    ensures v <= 9 || !IsDigit(c)
  {
    if IsDigit(c) then (c as int - '0' as int) else 0
  }

  /**
   * `parseInt(s)` for a string that starts with its digits: the value of the
   * leading digits, and `None` (JavaScript's `NaN`) when there are none.
   */
  function ParseInt(s: string): (n: Option<nat>)
    ensures n.None? <==> DigitPrefix(s) == 0
    ensures n.Some? ==> n.value == DecimalValue(s[..DigitPrefix(s)])
  {
    var k := DigitPrefix(s);
    if k == 0 then None else Some(DecimalValue(s[..k]))
  }

  /** The decimal digits of `n`, without leading zeros. */
  function ShowDecimal(n: nat): (s: string)
    ensures |s| >= 1
    ensures forall i :: 0 <= i < |s| ==> IsDigit(s[i])
    decreases n
  {
    if n < 10 then [('0' as int + n) as char]
    else ShowDecimal(n / 10) + [('0' as int + n % 10) as char]
  }

  /** Reading back the digits of `n` gives `n`. */
  lemma {:induction false} DecimalRoundTrip(n: nat)
    ensures DecimalValue(ShowDecimal(n)) == n
    decreases n
  {
    if n >= 10 {
      DecimalRoundTrip(n / 10);
      var s := ShowDecimal(n);
      assert s[..|s| - 1] == ShowDecimal(n / 10);
    }
  }

  /** `parseInt` reads the number a rank line was written with. */
  lemma ParseShowDecimal(n: nat)
    ensures ParseInt(ShowDecimal(n)) == Some(n)
  {
    var s := ShowDecimal(n);
    AllDigitsPrefix(s);
    assert s[..|s|] == s;
    DecimalRoundTrip(n);
  }

  /** A string made only of digits is its own digit prefix. */
  lemma AllDigitsPrefix(s: string)
    requires forall i :: 0 <= i < |s| ==> IsDigit(s[i])
    ensures DigitPrefix(s) == |s|
  {
  }

  // ---------------------------------------------------------------------------
  // The lookup: `getGlobalRank`.
  // ---------------------------------------------------------------------------

  /** The name a shard line is for: its text before the first colon. */
  function LineName(line: string): (n: string)
    ensures ':' !in n
    ensures |n| <= |line| && n == line[..|n|]
    ensures |n| < |line| ==> line[|n|] == ':'
  {
    SplitFirst(line, ':');
    Split(line, ':')[0]
  }

  /**
   * The rank a shard line gives: `parseInt` of its second colon-separated part,
   * `None` (`NaN`) when the line has no colon or that part has no leading digits.
   */
  function LineRank(line: string): (r: Option<nat>)
    ensures ':' !in line ==> r.None?
    ensures ':' in line ==> r == ParseInt(Split(line[|LineName(line)| + 1..], ':')[0])
  {
    var parts := Split(line, ':');
    if ':' !in line then
      // `parts` is `[line]`: there is no second piece and `parseInt(undefined)` is `NaN`
      None
    else
      var n := LineName(line);
      assert line == n + [':'] + line[|n| + 1..];
      SplitPrefix(n, line[|n| + 1..], ':');
      ParseInt(parts[1])
  }

  /** A shard line as the rank files hold it. */
  function FormatLine(name: string, rank: nat): string
  {
    name + ":" + ShowDecimal(rank)
  }

  /** A formatted line reads back as the name and rank it was written with. */
  lemma FormatLineRoundTrip(name: string, rank: nat)
    requires ':' !in name
    ensures LineName(FormatLine(name, rank)) == name
    ensures LineRank(FormatLine(name, rank)) == Some(rank)
  {
    var digits := ShowDecimal(rank);
    assert ':' !in digits by {
      forall i | 0 <= i < |digits| ensures digits[i] != ':' {
        assert IsDigit(digits[i]);
      }
    }
    SplitPrefix(name, digits, ':');
    assert FormatLine(name, rank) == name + [':'] + digits;
    ParseShowDecimal(rank);
  }

  /**
   * `getGlobalRank`, given the lines of the name's shard file: scans them in
   * order and returns the rank of the first line for `name`, or 0 ("not in the
   * top million") when no line is for it.
   */
  method GetGlobalRank(name: string, lines: seq<string>) returns (rank: Option<nat>)
    ensures (forall i :: 0 <= i < |lines| ==> LineName(lines[i]) != name) ==> rank == Some(0)
    ensures forall i :: (0 <= i < |lines| && LineName(lines[i]) == name
      && forall j :: 0 <= j < i ==> LineName(lines[j]) != name) ==> rank == LineRank(lines[i])
  {
    for i := 0 to |lines|
      invariant forall j :: 0 <= j < i ==> LineName(lines[j]) != name
    {
      var parts := Split(lines[i], ':');
      if name == parts[0] {
        return if |parts| > 1 then ParseInt(parts[1]) else None;
      }
    }
    return Some(0);
  }

  /** The shard line `name:rank`, first for its name, makes the lookup return `rank`. */
  lemma LookupFindsFormattedLine(name: string, rank: nat, before: seq<string>, after: seq<string>)
    requires ':' !in name
    requires forall j :: 0 <= j < |before| ==> LineName(before[j]) != name
    ensures var lines := before + [FormatLine(name, rank)] + after;
      LineName(lines[|before|]) == name && LineRank(lines[|before|]) == Some(rank)
      && forall j :: 0 <= j < |before| ==> LineName(lines[j]) != name
  {
    FormatLineRoundTrip(name, rank);
    var lines := before + [FormatLine(name, rank)] + after;
    assert lines[|before|] == FormatLine(name, rank);
    assert forall j :: 0 <= j < |before| ==> lines[j] == before[j];
  }

  /** Looking `name` up in a shard whose first line for it is `name:rank` returns `rank`. */
  method LookupFormatted(name: string, rank: nat, before: seq<string>, after: seq<string>)
    returns (r: Option<nat>)
    requires ':' !in name
    requires forall j :: 0 <= j < |before| ==> LineName(before[j]) != name
    ensures r == Some(rank)
  {
    LookupFindsFormattedLine(name, rank, before, after);
    r := GetGlobalRank(name, before + [FormatLine(name, rank)] + after);
  }
}
