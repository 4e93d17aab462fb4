/*
 * Shared vocabulary of the model: optional values and outcomes, and the
 * handful of Python string operations the pipeline relies on, written out
 * with Python's own semantics (str.split(), str.split(sep), str.strip(),
 * str(int), the `in` substring test and sorted() on strings).
 */
module Common {

  datatype Option<T> = None | Some(value: T)

  /** An operation that either returns a value or raises an exception. */
  datatype Result<T> = Success(value: T) | Failure(error: string)

  // ---------------------------------------------------------------------
  // Characters
  // ---------------------------------------------------------------------

  /** The characters for which Python's str.isspace() holds. */
  predicate IsSpace(c: char) {
    var n := c as int;
    n == 0x20 || (0x09 <= n <= 0x0d) || (0x1c <= n <= 0x1f) || n == 0x85 || n == 0xa0
    || n == 0x1680 || (0x2000 <= n <= 0x200a) || n == 0x2028 || n == 0x2029
    || n == 0x202f || n == 0x205f || n == 0x3000
  }

  predicate IsAsciiUpper(c: char) { 'A' <= c <= 'Z' }
  predicate IsAsciiLower(c: char) { 'a' <= c <= 'z' }
  predicate IsAsciiDigit(c: char) { '0' <= c <= '9' }
  predicate IsAsciiAlnum(c: char) { IsAsciiUpper(c) || IsAsciiLower(c) || IsAsciiDigit(c) }

  function LowerChar(c: char): (r: char)
    ensures IsAsciiUpper(c) ==> IsAsciiLower(r)
    ensures !IsAsciiUpper(c) ==> r == c
  {
    if IsAsciiUpper(c) then (c as int + 32) as char else c
  }

  function UpperChar(c: char): (r: char)
    ensures IsAsciiLower(c) ==> IsAsciiUpper(r)
    ensures !IsAsciiLower(c) ==> r == c
  {
    if IsAsciiLower(c) then (c as int - 32) as char else c
  }

  // ---------------------------------------------------------------------
  // Whole strings
  // ---------------------------------------------------------------------

  /** str.lower() on the ASCII letters. */
  function Lower(s: string): (r: string)
    ensures |r| == |s|
    ensures forall i :: 0 <= i < |s| ==> r[i] == LowerChar(s[i])
  {
    seq(|s|, i requires 0 <= i < |s| => LowerChar(s[i]))
  }

  /** str.upper() on the ASCII letters. */
  function Upper(s: string): (r: string)
    ensures |r| == |s|
    ensures forall i :: 0 <= i < |s| ==> r[i] == UpperChar(s[i])
  {
    if s == [] then [] else [UpperChar(s[0])] + Upper(s[1..])
  }

  /** `not s.strip()`: the string is empty or made of whitespace only. */
  predicate IsBlank(s: string) {
    forall i :: 0 <= i < |s| ==> IsSpace(s[i])
  }

  predicate StartsWith(s: string, prefix: string) {
    |prefix| <= |s| && s[..|prefix|] == prefix
  }

  predicate EndsWith(s: string, suffix: string) {
    |suffix| <= |s| && s[|s| - |suffix|..] == suffix
  }

  /**
   * Joining a directory and a relative name, as os.path.join and pathlib's
   * `/` both do: no separator is added after an empty directory or one that
   * already ends with "/".
   */
  function PathJoin(directory: string, name: string): (r: string)
    ensures EndsWith(r, name)
  {
    if directory == "" then name
    else if EndsWith(directory, "/") then directory + name
    else directory + "/" + name
  }

  /** Python's `sub in s`: sub occurs somewhere in s (the empty string occurs everywhere). */
  predicate OccursAt(s: string, sub: string, i: int) {
    0 <= i && i + |sub| <= |s| && s[i..i + |sub|] == sub
  }

  function Contains(s: string, sub: string): (r: bool)
    ensures r <==> exists i :: OccursAt(s, sub, i)
    decreases |s|
  {
    if |sub| > |s| then false
    else if StartsWith(s, sub) then (assert OccursAt(s, sub, 0); true)
    else
      var rest := Contains(s[1..], sub);
      assert forall i :: OccursAt(s[1..], sub, i) ==> OccursAt(s, sub, i + 1);
      assert forall i :: OccursAt(s, sub, i) && i > 0 ==> OccursAt(s[1..], sub, i - 1);
      rest
  }

  lemma ContainsItself(s: string)
    ensures Contains(s, s)
  {
    assert OccursAt(s, s, 0);
  }

  lemma ContainsInConcat(a: string, s: string, b: string)
    ensures Contains(a + s + b, s)
  {
    assert (a + s + b)[|a|..|a| + |s|] == s;
    assert OccursAt(a + s + b, s, |a|);
  }

  lemma ContainsWidens(s: string, mid: string, sub: string)
    requires Contains(mid, sub)
    ensures forall a, b :: Contains(a + mid + b, sub)
  {
    var i :| OccursAt(mid, sub, i);
    forall a: string, b: string ensures Contains(a + mid + b, sub) {
      assert (a + mid + b)[|a| + i..|a| + i + |sub|] == mid[i..i + |sub|];
      assert OccursAt(a + mid + b, sub, |a| + i);
    }
  }

  /** A string containing mid contains everything mid contains. */
  lemma ContainsTransitive(s: string, mid: string, sub: string)
    requires Contains(s, mid) && Contains(mid, sub)
    ensures Contains(s, sub)
  {
    var i :| OccursAt(s, mid, i);
    var j :| OccursAt(mid, sub, j);
    forall t | 0 <= t < |sub|
      ensures s[i + j..i + j + |sub|][t] == sub[t]
    {
      assert s[i + j + t] == s[i..i + |mid|][j + t] == mid[j + t];
      assert mid[j + t] == mid[j..j + |sub|][t];
    }
    assert OccursAt(s, sub, i + j);
  }

  /** "sep".join(parts) */
  function Join(parts: seq<string>, sep: string): (r: string)
    ensures parts == [] ==> r == ""
    ensures |parts| == 1 ==> r == parts[0]
  {
    if parts == [] then ""
    else if |parts| == 1 then parts[0]
    else parts[0] + sep + Join(parts[1..], sep)
  }

  lemma JoinAppend(parts: seq<string>, last: string, sep: string)
    requires parts != []
    ensures Join(parts + [last], sep) == Join(parts, sep) + sep + last
  {
    if |parts| == 1 {
      assert parts + [last] == [parts[0], last];
    } else {
      assert (parts + [last])[1..] == parts[1..] + [last];
      JoinAppend(parts[1..], last, sep);
    }
  }

  /** The joined string begins with the first part. */
  lemma JoinStartsWithFirst(parts: seq<string>, sep: string)
    requires parts != []
    ensures StartsWith(Join(parts, sep), parts[0])
  {
    if |parts| > 1 {
      assert Join(parts, sep) == parts[0] + (sep + Join(parts[1..], sep));
    }
  }

  /** Every part is found inside the joined string. */
  lemma JoinContainsPart(parts: seq<string>, sep: string, k: int)
    requires 0 <= k < |parts|
    ensures Contains(Join(parts, sep), parts[k])
  {
    if |parts| == 1 {
      ContainsItself(parts[0]);
      assert Join(parts, sep) == "" + parts[0] + "";
    } else if k == 0 {
      ContainsInConcat("", parts[0], sep + Join(parts[1..], sep));
      assert "" + parts[0] + (sep + Join(parts[1..], sep)) == Join(parts, sep);
    } else {
      JoinContainsPart(parts[1..], sep, k - 1);
      ContainsWidens(parts[0] + sep, Join(parts[1..], sep), parts[k]);
      assert (parts[0] + sep) + Join(parts[1..], sep) + "" == Join(parts, sep);
    }
  }

  function Repeat(s: string, n: nat): string {
    if n == 0 then "" else s + Repeat(s, n - 1)
  }

  // ---------------------------------------------------------------------
  // Splitting
  // ---------------------------------------------------------------------

  /** Index of the first occurrence of c in s. */
  function IndexOf(s: string, c: char): (r: nat)
    requires c in s
    ensures r < |s| && s[r] == c && c !in s[..r]
  {
    if s[0] == c then 0 else 1 + IndexOf(s[1..], c)
  }

  /**
   * s.split(sep) for a one-character separator, built from the back: a
   * separator closes the current piece and opens an empty one, any other
   * character extends the last piece.
   */
  function SplitOn(s: string, sep: char): (r: seq<string>)
    ensures |r| >= 1
    decreases |s|
  {
    if s == [] then [""]
    else
      var init := SplitOn(s[..|s| - 1], sep);
      if s[|s| - 1] == sep then init + [""]
      else init[..|init| - 1] + [init[|init| - 1] + [s[|s| - 1]]]
  }

  /** Joining the pieces back with the separator gives the text that was split. */
  lemma {:induction false} SplitJoinRoundTrip(s: string, sep: char)
    ensures Join(SplitOn(s, sep), [sep]) == s
    decreases |s|
  {
    if s != [] {
      var front := s[..|s| - 1];
      var init := SplitOn(front, sep);
      SplitJoinRoundTrip(front, sep);
      if s[|s| - 1] == sep {
        JoinAppendPiece(init, [sep]);
      } else {
        JoinExtendLast(init, [sep], s[|s| - 1]);
      }
      assert front + [s[|s| - 1]] == s;
    }
  }

  /** A new last piece lands after one more separator. */
  lemma {:induction false} JoinAppendPiece(parts: seq<string>, sep: string)
    requires parts != []
    ensures Join(parts + [""], sep) == Join(parts, sep) + sep
    decreases |parts|
  {
    if |parts| > 1 {
      JoinAppendPiece(parts[1..], sep);
      assert (parts + [""])[1..] == parts[1..] + [""];
    }
  }

  /** A character added to the last piece lands at the very end. */
  lemma {:induction false} JoinExtendLast(parts: seq<string>, sep: string, c: char)
    requires parts != []
    ensures Join(parts[..|parts| - 1] + [parts[|parts| - 1] + [c]], sep) == Join(parts, sep) + [c]
    decreases |parts|
  {
    var longer := parts[..|parts| - 1] + [parts[|parts| - 1] + [c]];
    if |parts| > 1 {
      JoinExtendLast(parts[1..], sep, c);
      assert longer[1..] == parts[1..][..|parts| - 2] + [parts[|parts| - 1] + [c]];
    }
  }

  /** s.split(sep, 1)[1] when sep occurs: everything after the first sep. */
  function AfterFirst(s: string, sep: char): (r: string)
    requires sep in s
    ensures |r| < |s|
    ensures exists i :: 0 <= i < |s| && s[i] == sep && sep !in s[..i] && r == s[i + 1..]
  {
    var i := IndexOf(s, sep);
    s[i + 1..]
  }

  /** s.split() with no argument: the maximal runs of non-whitespace characters. */
  function Words(s: string): seq<string> {
    SplitWords(s, "")
  }

  /** The words of s, the first of them continuing `word`, the run read so far. */
  function SplitWords(s: string, word: string): seq<string> {
    if s == [] then (if word == "" then [] else [word])
    else if IsSpace(s[0]) then (if word == "" then [] else [word]) + SplitWords(s[1..], "")
    else SplitWords(s[1..], word + [s[0]])
  }

  /** Every word is a non-empty run without whitespace. */
  lemma {:induction false} WordsAreRuns(s: string)
    ensures forall k :: 0 <= k < |Words(s)| ==> Words(s)[k] != "" && !HasSpace(Words(s)[k])
  {
    SplitWordsAreRuns(s, "");
  }

  predicate HasSpace(w: string) {
    exists i :: 0 <= i < |w| && IsSpace(w[i])
  }

  lemma {:induction false} SplitWordsAreRuns(s: string, word: string)
    requires !HasSpace(word)
    ensures forall k :: 0 <= k < |SplitWords(s, word)| ==> SplitWords(s, word)[k] != "" && !HasSpace(SplitWords(s, word)[k])
  {
    if s == [] {
    } else if IsSpace(s[0]) {
      SplitWordsAreRuns(s[1..], "");
    } else {
      assert !HasSpace(word + [s[0]]) by {
        forall i | 0 <= i < |word + [s[0]]|
          ensures !IsSpace((word + [s[0]])[i])
        {
          if i < |word| {
            assert (word + [s[0]])[i] == word[i];
          }
        }
      }
      SplitWordsAreRuns(s[1..], word + [s[0]]);
    }
  }

  // ---------------------------------------------------------------------
  // Numbers as text
  // ---------------------------------------------------------------------

  function DigitChar(d: nat): (c: char)
    requires d < 10
    ensures IsAsciiDigit(c)
  {
    ('0' as int + d) as char
  }

  /** str(n) for a natural number. */
  function NatToString(n: nat): (r: string)
    ensures r != []
    ensures forall i :: 0 <= i < |r| ==> IsAsciiDigit(r[i])
  {
    if n < 10 then [DigitChar(n)] else NatToString(n / 10) + [DigitChar(n % 10)]
  }

  /** str(i) for an integer. */
  function IntToString(i: int): (r: string)
    ensures r != []
    ensures i >= 0 ==> r == NatToString(i)
    ensures i < 0 ==> r == "-" + NatToString(-i)
  {
    if i >= 0 then NatToString(i) else "-" + NatToString(-i)
  }

  // ---------------------------------------------------------------------
  // Order of strings, as Python's sorted() compares them (by code point)
  // ---------------------------------------------------------------------

  predicate StrLe(a: string, b: string)
    decreases |a|
  {
    a == [] || (b != [] && (a[0] < b[0] || (a[0] == b[0] && StrLe(a[1..], b[1..]))))
  }

  lemma {:induction false} StrLeTotal(a: string, b: string)
    ensures StrLe(a, b) || StrLe(b, a)
    decreases |a|
  {
    if a != [] && b != [] && a[0] == b[0] {
      StrLeTotal(a[1..], b[1..]);
    }
  }

  lemma {:induction false} StrLeTrans(a: string, b: string, c: string)
    requires StrLe(a, b) && StrLe(b, c)
    ensures StrLe(a, c)
    decreases |a|
  {
    if a != [] && b != [] && c != [] && a[0] == b[0] && b[0] == c[0] {
      StrLeTrans(a[1..], b[1..], c[1..]);
    }
  }

  predicate SortedStrings(xs: seq<string>) {
    forall i, j :: 0 <= i < j < |xs| ==> StrLe(xs[i], xs[j])
  }

  function InsertString(x: string, xs: seq<string>): (r: seq<string>)
    requires SortedStrings(xs)
    ensures SortedStrings(r)
    ensures multiset(r) == multiset(xs) + multiset{x}
  {
    if xs == [] then [x]
    else if StrLe(x, xs[0]) then
      InsertAtFront(x, xs);
      [x] + xs
    else
      StrLeTotal(x, xs[0]);
      var rest := InsertString(x, xs[1..]);
      InsertBehindHead(x, xs, rest);
      [xs[0]] + rest
  }

  /** x at most the head of a sorted list keeps it sorted in front. */
  lemma InsertAtFront(x: string, xs: seq<string>)
    requires SortedStrings(xs) && xs != [] && StrLe(x, xs[0])
    ensures SortedStrings([x] + xs)
  {
    forall j | 0 <= j < |xs| ensures StrLe(x, xs[j]) {
      if j > 0 { StrLeTrans(x, xs[0], xs[j]); }
    }
  }

  /** The head stays first when x went into the sorted tail behind it. */
  lemma InsertBehindHead(x: string, xs: seq<string>, rest: seq<string>)
    requires SortedStrings(xs) && xs != [] && StrLe(xs[0], x)
    requires SortedStrings(rest) && multiset(rest) == multiset(xs[1..]) + multiset{x}
    ensures SortedStrings([xs[0]] + rest)
    ensures multiset([xs[0]] + rest) == multiset(xs) + multiset{x}
  {
    forall k | 0 <= k < |rest| ensures StrLe(xs[0], rest[k]) {
      assert rest[k] in multiset(rest);
      if rest[k] != x {
        assert rest[k] in multiset(xs[1..]);
        var j :| 0 <= j < |xs[1..]| && xs[1..][j] == rest[k];
        assert xs[j + 1] == rest[k];
      }
    }
    assert xs == [xs[0]] + xs[1..];
  }

  /** sorted(xs) on strings: ordered, and a permutation of its input. */
  function SortStrings(xs: seq<string>): (r: seq<string>)
    ensures SortedStrings(r)
    ensures multiset(r) == multiset(xs)
    ensures |r| == |xs|
  {
    if xs == [] then []
    else
      assert xs == [xs[0]] + xs[1..];
      InsertString(xs[0], SortStrings(xs[1..]))
  }

  // ---------------------------------------------------------------------
  // Sequences
  // ---------------------------------------------------------------------

  /** list(dict.fromkeys(xs)): the distinct elements in order of first occurrence. */
  function Distinct<T(==)>(xs: seq<T>): (r: seq<T>)
    ensures forall i :: 0 <= i < |r| ==> r[i] in xs
    ensures forall i :: 0 <= i < |xs| ==> xs[i] in r
    ensures forall i, j :: 0 <= i < j < |r| ==> r[i] != r[j]
  {
    if xs == [] then []
    else
      var init := Distinct(xs[..|xs| - 1]);
      assert xs == xs[..|xs| - 1] + [xs[|xs| - 1]];
      if xs[|xs| - 1] in init then init else init + [xs[|xs| - 1]]
  }

  /** Python's s[start:] for any integer start, negative ones counting from the end. */
  function PySliceFrom<T>(s: seq<T>, start: int): (r: seq<T>)
    ensures start >= 0 ==> r == s[if start <= |s| then start else |s|..]
    ensures start < 0 ==> r == s[if -start <= |s| then |s| + start else 0..]
  {
    if start >= 0 then s[if start <= |s| then start else |s|..]
    else s[if -start <= |s| then |s| + start else 0..]
  }

  // ---------------------------------------------------------------------
  // String-valued dictionaries (Dict[str, str])
  // ---------------------------------------------------------------------

  type StrMap = seq<(string, string)>

  /** d.get(k): the first binding of k. */
  function Lookup(d: StrMap, k: string): (r: Option<string>)
    ensures r.None? <==> forall i :: 0 <= i < |d| ==> d[i].0 != k
    ensures r.Some? ==> exists i :: 0 <= i < |d| && d[i] == (k, r.value)
  {
    if d == [] then None
    else if d[0].0 == k then Some(d[0].1)
    else
      var r := Lookup(d[1..], k);
      assert forall i :: 1 <= i < |d| ==> d[i] == d[1..][i - 1];
      r
  }

  /** When no earlier entry has the same key, d.get(d[j].0) finds entry j. */
  lemma {:induction false} LookupAt(d: StrMap, j: int)
    requires 0 <= j < |d|
    requires forall i :: 0 <= i < j ==> d[i].0 != d[j].0
    ensures Lookup(d, d[j].0) == Some(d[j].1)
  {
    if j > 0 {
      LookupAt(d[1..], j - 1);
    }
  }

  /** d.get(k, default) */
  function LookupOr(d: StrMap, k: string, default: string): string {
    match Lookup(d, k)
    case Some(v) => v
    case None => default
  }

  // ---------------------------------------------------------------------
  // Order-preserving selection ([x for x in xs if p(x)])
  // ---------------------------------------------------------------------

  /** The positions whose flag is set, in increasing order. */
  function SelectedIndices(flags: seq<bool>): (r: seq<nat>)
    ensures forall k :: 0 <= k < |r| ==> r[k] < |flags| && flags[r[k]]
    ensures forall i :: 0 <= i < |flags| && flags[i] ==> i in r
    ensures forall k, l :: 0 <= k < l < |r| ==> r[k] < r[l]
    ensures |r| <= |flags|
  {
    if flags == [] then []
    else
      var front := SelectedIndices(flags[..|flags| - 1]);
      if flags[|flags| - 1] then front + [|flags| - 1] else front
  }

  function Select<T>(xs: seq<T>, flags: seq<bool>): (r: seq<T>)
    requires |xs| == |flags|
  {
    var idx := SelectedIndices(flags);
    seq(|idx|, k requires 0 <= k < |idx| => xs[idx[k]])
  }

  /**
   * Select keeps exactly the flagged elements, in their original order: its
   * result is xs read at increasing positions, which are the flagged ones.
   */
  lemma SelectIsOrderedFilter<T>(xs: seq<T>, flags: seq<bool>)
    requires |xs| == |flags|
    ensures var idx := SelectedIndices(flags);
      |Select(xs, flags)| == |idx| &&
      (forall k :: 0 <= k < |idx| ==> idx[k] < |xs| && flags[idx[k]] && Select(xs, flags)[k] == xs[idx[k]]) &&
      (forall k, l :: 0 <= k < l < |idx| ==> idx[k] < idx[l]) &&
      (forall i :: 0 <= i < |xs| && flags[i] ==> exists k :: 0 <= k < |idx| && idx[k] == i)
  {
    var idx := SelectedIndices(flags);
    forall i | 0 <= i < |xs| && flags[i]
      ensures exists k :: 0 <= k < |idx| && idx[k] == i
    {
      assert i in idx;
    }
  }

  // ---------------------------------------------------------------------
  // Scanning a list from its newest entry
  // ---------------------------------------------------------------------

  /**
   * `for m in reversed(xs)` where each entry either raises (Failure), returns
   * a value (Some), or lets the scan go on (None); `default` when the scan
   * runs out.
   */
  function LastDecided<T>(cs: seq<Result<Option<T>>>, default: T): Result<T> {
    if cs == [] then Success(default)
    else
      match cs[|cs| - 1]
      case Failure(e) => Failure(e)
      case Success(Some(x)) => Success(x)
      case Success(None) => LastDecided(cs[..|cs| - 1], default)
  }

  /** A value found comes from the newest deciding entry; the default means no entry decided. */
  lemma {:induction false} LastDecidedIsNewest<T>(cs: seq<Result<Option<T>>>, default: T, x: T)
    requires LastDecided(cs, default) == Success(x)
    ensures ((forall i :: 0 <= i < |cs| ==> cs[i] == Success(None)) && x == default) ||
      exists k :: 0 <= k < |cs| && cs[k] == Success(Some(x)) && forall j :: k < j < |cs| ==> cs[j] == Success(None)
  {
    if cs != [] && cs[|cs| - 1] == Success(None) {
      var front := cs[..|cs| - 1];
      LastDecidedIsNewest(front, default, x);
      assert forall i :: 0 <= i < |front| ==> front[i] == cs[i];
    }
  }

  lemma {:induction false} LastDecidedOfNothing<T>(cs: seq<Result<Option<T>>>, default: T)
    requires forall i :: 0 <= i < |cs| ==> cs[i] == Success(None)
    ensures LastDecided(cs, default) == Success(default)
  {
    if cs != [] {
      var front := cs[..|cs| - 1];
      assert forall i :: 0 <= i < |front| ==> front[i] == cs[i];
      LastDecidedOfNothing(front, default);
    }
  }
}
