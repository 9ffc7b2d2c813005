/** The pieces of the Python runtime that the modelled code leans on:
    the exceptions it can raise, `None`, list indexing, `str.split`,
    `str.replace` and `int()` on a decimal numeral. */
module Py {

  /** The exceptions the modelled code can raise, in Python's own terms. */
  datatype Error =
    | IndexError                  // list or split-result index out of range
    | KeyError(key: string)       // missing dict key
    | ValueError                  // int() of a non-numeral
    | TypeError(reason: string)   // e.g. subscripting None, unexpected keyword argument
    | UnboundLocal(name: string)  // a local read before any assignment
    | MissingAttribute(name: string)
    | Raised(message: string)     // a bare `raise Exception(message)`

  /** Python's `None` or a value. */
  datatype Option<+T> = None | Some(value: T)

  /** The outcome of a Python expression: a value, or the exception it raises.
      Failure-compatible, so `:-` models "an exception propagates". */
  datatype Result<+T> = Ok(value: T) | Err(error: Error) {
    predicate IsFailure() {
      Err?
    }

    function PropagateFailure<U>(): Result<U>
      requires Err?
    {
      Err(error)
    }

    function Extract(): T
      requires Ok?
    {
      value
    }
  }

  /** `xs[i]` for a non-negative literal index `i`. */
  function Item<T>(xs: seq<T>, i: nat): (r: Result<T>)
    ensures r.Ok? <==> i < |xs|
    ensures r.Ok? ==> r.value == xs[i]
    ensures r.Err? ==> r.error == IndexError
  {
    if i < |xs| then Ok(xs[i]) else Err(IndexError)
  }

  /** `x[i]` where `x` may be `None`: subscripting `None` is a TypeError. */
  function ItemOf<T>(x: Option<seq<T>>, i: nat): (r: Result<T>)
    ensures x.None? ==> r == Err(TypeError("'NoneType' object is not subscriptable"))
    ensures x.Some? ==> r == Item(x.value, i)
  {
    match x
    case None => Err(TypeError("'NoneType' object is not subscriptable"))
    case Some(xs) => Item(xs, i)
  }

  /** `m[key]` on a dict. */
  function Lookup<V>(m: map<string, V>, key: string): (r: Result<V>)
    ensures r.Ok? <==> key in m
    ensures r.Ok? ==> r.value == m[key]
    ensures r.Err? ==> r.error == KeyError(key)
  {
    if key in m then Ok(m[key]) else Err(KeyError(key))
  }

  /** `xs[idx]` with Python's reading of a negative index as counted from the end. */
  function PyIndex<T>(xs: seq<T>, idx: int): (r: Result<T>)
    ensures r.Ok? <==> -|xs| <= idx < |xs|
    ensures r.Ok? && 0 <= idx ==> r.value == xs[idx]
    ensures r.Ok? && idx < 0 ==> r.value == xs[|xs| + idx]
    ensures r.Err? ==> r.error == IndexError
  {
    if 0 <= idx < |xs| then Ok(xs[idx])
    else if -|xs| <= idx < 0 then Ok(xs[|xs| + idx])
    else Err(IndexError)
  }

  // ---------------------------------------------------------------------------
  // Substring search

  /** `pat` occurs in `s` starting at index `k`. */
  predicate OccursAt(s: string, pat: string, k: int) {
    0 <= k && k + |pat| <= |s| && s[k..k + |pat|] == pat
  }

  /** Python's `pat in s`. */
  predicate Contains(s: string, pat: string) {
    exists k | 0 <= k <= |s| :: OccursAt(s, pat, k)
  }

  /** `k` is the leftmost occurrence of `pat` in `s`. */
  predicate FirstAt(s: string, pat: string, k: int) {
    OccursAt(s, pat, k) && forall j | 0 <= j < k :: !OccursAt(s, pat, j)
  }

  /** The first character of `pat` does not occur again in `pat`, so two
      occurrences of `pat` can never overlap. Every separator the modelled
      code uses has this shape. */
  predicate HeadUnique(pat: string) {
    |pat| > 0 && forall i | 1 <= i < |pat| :: pat[i] != pat[0]
  }

  /** The leftmost occurrence of `pat` at or after `from`, as `str.find(pat, from)`. */
  function FindFrom(s: string, pat: string, from: nat): (r: Option<nat>)
    requires |pat| > 0
    ensures r.Some? ==> from <= r.value && OccursAt(s, pat, r.value)
    ensures forall k | from <= k && (r.None? || k < r.value) :: !OccursAt(s, pat, k)
    decreases |s| - from
  {
    if |s| < from + |pat| then None
    else if s[from..from + |pat|] == pat then Some(from)
    else FindFrom(s, pat, from + 1)
  }

  /** The result of `FindFrom` is pinned down by where the occurrences are. */
  lemma FindFromIs(s: string, pat: string, from: nat, r: Option<nat>)
    requires |pat| > 0
    requires r.Some? ==> from <= r.value && OccursAt(s, pat, r.value)
    requires forall k | from <= k && (r.None? || k < r.value) :: !OccursAt(s, pat, k)
    ensures FindFrom(s, pat, from) == r
  {
  }

  lemma FindFirst(s: string, pat: string)
    requires |pat| > 0
    ensures FindFrom(s, pat, 0).None? <==> !Contains(s, pat)
    ensures FindFrom(s, pat, 0).Some? ==> FirstAt(s, pat, FindFrom(s, pat, 0).value)
  {
  }

  /** An occurrence inside a prefix is an occurrence in the whole. */
  lemma OccursPrefix(a: string, b: string, pat: string, k: int)
    requires k + |pat| <= |a|
    ensures OccursAt(a + b, pat, k) <==> OccursAt(a, pat, k)
  {
    if 0 <= k {
      assert (a + b)[k..k + |pat|] == a[k..k + |pat|];
    }
  }

  /** If `p` holds no `pat` and `rest` starts with `pat`, no occurrence of
      `pat` in `p + rest` starts inside `p`: one straddling the seam would
      put `pat[0]` at a later position of `pat`. */
  lemma {:induction false} NoOccurrenceBefore(p: string, rest: string, pat: string)
    requires HeadUnique(pat)
    requires !Contains(p, pat)
    requires |pat| <= |rest| && rest[..|pat|] == pat
    ensures forall k | 0 <= k < |p| :: !OccursAt(p + rest, pat, k)
  {
    forall k | 0 <= k < |p|
      ensures !OccursAt(p + rest, pat, k)
    {
      if k + |pat| <= |p| {
        OccursPrefix(p, rest, pat, k);
        assert !OccursAt(p, pat, k);
      } else {
        var d := |p| - k;
        assert (p + rest)[|p|] == pat[0];
      }
    }
  }

  /** With a head-unique `pat`, the first occurrence in `p + pat + x` is at `|p|`
      whenever `p` holds none. */
  lemma FirstAfterPrefix(p: string, pat: string, x: string)
    requires HeadUnique(pat)
    requires !Contains(p, pat)
    ensures FindFrom(p + pat + x, pat, 0) == Some(|p|)
  {
    var s := p + pat + x;
    assert s == p + (pat + x);
    NoOccurrenceBefore(p, pat + x, pat);
    assert s[|p|..|p| + |pat|] == pat;
    FindFromIs(s, pat, 0, Some(|p|));
  }

  /** No character of `s` is `c`. */
  predicate Lacks(s: string, c: char) {
    forall i | 0 <= i < |s| :: s[i] != c
  }

  lemma LacksJoin(a: string, b: string, c: char)
    requires Lacks(a, c) && Lacks(b, c)
    ensures Lacks(a + b, c)
  {
  }

  /** A string none of whose characters is `pat[0]` holds no `pat`. */
  lemma AvoidsHead(s: string, pat: string)
    requires |pat| > 0
    requires forall i | 0 <= i < |s| :: s[i] != pat[0]
    ensures !Contains(s, pat)
  {
    forall k | 0 <= k <= |s|
      ensures !OccursAt(s, pat, k)
    {
      if k + |pat| <= |s| {
        assert s[k..k + |pat|][0] == s[k];
      }
    }
  }

  // ---------------------------------------------------------------------------
  // str.split

  /** `s.split(sep)[1]`: the text between the first `sep` and the next one (or
      the end); an IndexError when `sep` does not occur. */
  function SplitSecond(s: string, sep: string): (r: Result<string>)
    requires |sep| > 0
    ensures r.Err? <==> !Contains(s, sep)
    ensures r.Err? ==> r.error == IndexError
    ensures r.Ok? ==> !Contains(r.value, sep)
    ensures r.Ok? ==> exists i | 0 <= i <= |s| :: FirstAt(s, sep, i) && Delimits(s, sep, i + |sep|, r.value)
  {
    FindFirst(s, sep);
    match FindFrom(s, sep, 0)
    case None => Err(IndexError)
    case Some(i) =>
      var start := i + |sep|;
      var piece := match FindFrom(s, sep, start)
        case None => s[start..]
        case Some(j) => s[start..j];
      PieceAvoids(s, sep, start, piece);
      Ok(piece)
  }

  /** Round trip of `split(sep)[1]`: the piece placed after a separator-free
      prefix and the first `sep` comes back, whether it is followed by the end
      of the string or by another `sep`. */
  lemma SplitSecondOf(p: string, sep: string, x: string, t: string)
    requires HeadUnique(sep)
    requires !Contains(p, sep) && !Contains(x, sep)
    requires t == [] || (|sep| <= |t| && t[..|sep|] == sep)
    ensures SplitSecond(p + sep + x + t, sep) == Ok(x)
  {
    var s := p + sep + x + t;
    assert s == p + sep + (x + t);
    FirstAfterPrefix(p, sep, x + t);
    var start := |p| + |sep|;
    assert s[start..] == x + t;
    NextAfterPiece(s, start, x, t, sep);
    if t == [] {
      assert s[start..] == x;
    } else {
      assert s[start..start + |x|] == x;
    }
  }

  /** The search that ends the piece `x` stops at the `sep` opening `t`, or
      finds nothing when `t` is empty. */
  lemma NextAfterPiece(s: string, start: nat, x: string, t: string, sep: string)
    requires HeadUnique(sep)
    requires !Contains(x, sep)
    requires t == [] || (|sep| <= |t| && t[..|sep|] == sep)
    requires start <= |s| && s[start..] == x + t
    ensures FindFrom(s, sep, start) == if t == [] then None else Some(start + |x|)
  {
    if t == [] {
      NothingAfter(s, start, x, sep);
    } else {
      StopsAtSeparator(s, start, x, t, sep);
    }
  }

  lemma NothingAfter(s: string, start: nat, x: string, sep: string)
    requires |sep| > 0
    requires !Contains(x, sep)
    requires start <= |s| && s[start..] == x
    ensures FindFrom(s, sep, start) == None
  {
    forall k | start <= k
      ensures !OccursAt(s, sep, k)
    {
      OccursSuffix(s, start, sep, k - start);
    }
    FindFromIs(s, sep, start, None);
  }

  lemma StopsAtSeparator(s: string, start: nat, x: string, t: string, sep: string)
    requires HeadUnique(sep)
    requires !Contains(x, sep)
    requires |sep| <= |t| && t[..|sep|] == sep
    requires start <= |s| && s[start..] == x + t
    ensures FindFrom(s, sep, start) == Some(start + |x|)
  {
    NoOccurrenceBefore(x, t, sep);
    SeparatorAt(x, t, sep);
    forall k | start <= k < start + |x|
      ensures !OccursAt(s, sep, k)
    {
      OccursSuffix(s, start, sep, k - start);
    }
    OccursSuffix(s, start, sep, |x|);
    FindFromIs(s, sep, start, Some(start + |x|));
  }

  lemma SeparatorAt(x: string, t: string, sep: string)
    requires |sep| <= |t| && t[..|sep|] == sep
    ensures OccursAt(x + t, sep, |x|)
  {
    assert (x + t)[|x|..|x| + |sep|] == sep;
  }

  /** An occurrence in a suffix is an occurrence in the whole, shifted. */
  lemma OccursSuffix(s: string, start: nat, pat: string, k: nat)
    requires start <= |s|
    ensures OccursAt(s, pat, start + k) <==> OccursAt(s[start..], pat, k)
  {
    if start + k + |pat| <= |s| {
      assert s[start..][k..k + |pat|] == s[start + k..start + k + |pat|];
    }
  }

  /** `piece` starts at `start` in `s` and is followed by the end of `s` or by `sep`. */
  predicate Delimits(s: string, sep: string, start: int, piece: string) {
    0 <= start && start + |piece| <= |s| && s[start..start + |piece|] == piece
    && (start + |piece| == |s| || OccursAt(s, sep, start + |piece|))
  }

  lemma PieceAvoids(s: string, sep: string, start: nat, piece: string)
    requires |sep| > 0 && start + |piece| <= |s| && s[start..start + |piece|] == piece
    requires forall k | start <= k < start + |piece| :: !OccursAt(s, sep, k)
    ensures !Contains(piece, sep)
  {
    if Contains(piece, sep) {
      var k :| 0 <= k <= |piece| && OccursAt(piece, sep, k);
      forall i | 0 <= i < |sep|
        ensures s[start + k + i] == sep[i]
      {
        assert piece[k + i] == s[start + k + i];
        assert piece[k..k + |sep|][i] == sep[i];
      }
      assert s[start + k..start + k + |sep|] == sep;
      assert OccursAt(s, sep, start + k);
    }
  }

  /** `s.split(sep, 1)[1]`: everything after the first `sep`; an IndexError
      when `sep` does not occur. */
  function AfterFirst(s: string, sep: string): (r: Result<string>)
    requires |sep| > 0
    ensures r.Err? <==> !Contains(s, sep)
    ensures r.Err? ==> r.error == IndexError
    ensures r.Ok? ==> exists i | 0 <= i <= |s| :: FirstAt(s, sep, i) && s == s[..i] + sep + r.value
  {
    FindFirst(s, sep);
    match FindFrom(s, sep, 0)
    case None => Err(IndexError)
    case Some(i) =>
      assert s == s[..i] + sep + s[i + |sep|..];
      Ok(s[i + |sep|..])
  }

  /** Round trip of `split(sep, 1)[1]`. */
  lemma AfterFirstOf(p: string, sep: string, x: string)
    requires HeadUnique(sep)
    requires !Contains(p, sep)
    ensures AfterFirst(p + sep + x, sep) == Ok(x)
  {
    FirstAfterPrefix(p, sep, x);
    assert (p + sep + x)[|p| + |sep|..] == x;
  }

  /** `s.split(sep, 1)[0]`: everything before the first `sep`, or all of `s`. */
  function BeforeFirst(s: string, sep: string): (r: string)
    requires |sep| > 0
    ensures !Contains(r, sep)
    ensures |r| <= |s| && r == s[..|r|]
    ensures |r| < |s| <==> Contains(s, sep)
    ensures |r| < |s| ==> OccursAt(s, sep, |r|)
  {
    FindFirst(s, sep);
    match FindFrom(s, sep, 0)
    case None => s
    case Some(i) =>
      PieceAvoids(s, sep, 0, s[..i]);
      s[..i]
  }

  /** Round trip of `split(sep, 1)[0]`. */
  lemma BeforeFirstOf(x: string, sep: string, y: string)
    requires HeadUnique(sep)
    requires !Contains(x, sep)
    ensures BeforeFirst(x + sep + y, sep) == x
  {
    FirstAfterPrefix(x, sep, y);
    assert (x + sep + y)[..|x|] == x;
  }

  // ---------------------------------------------------------------------------
  // str.replace

  /** `s.replace(pat, rep)`: every occurrence found scanning left to right,
      without overlaps, is replaced. */
  function ReplaceAll(s: string, pat: string, rep: string): (r: string)
    requires |pat| > 0
    ensures !Contains(s, pat) ==> r == s
    ensures |rep| <= |pat| ==> |r| <= |s|
    ensures |rep| < |pat| && Contains(s, pat) ==> |r| < |s|
    decreases |s|
  {
    FindFirst(s, pat);
    match FindFrom(s, pat, 0)
    case None => s
    case Some(i) => s[..i] + rep + ReplaceAll(s[i + |pat|..], pat, rep)
  }

  /** Replacing distributes over a leading occurrence: the part before it is
      kept, the occurrence becomes `rep`, and the rest is replaced in turn. */
  lemma ReplaceAllSplits(p: string, pat: string, x: string, rep: string)
    requires HeadUnique(pat)
    requires !Contains(p, pat)
    ensures ReplaceAll(p + pat + x, pat, rep) == p + rep + ReplaceAll(x, pat, rep)
  {
    var s := p + pat + x;
    FirstAfterPrefix(p, pat, x);
    assert s[..|p|] == p;
    assert s[|p| + |pat|..] == x;
  }

  // ---------------------------------------------------------------------------
  // int() on decimal numerals

  predicate IsDigit(c: char) {
    '0' <= c <= '9'
  }

  predicate AllDigits(s: string) {
    forall i | 0 <= i < |s| :: IsDigit(s[i])
  }

  /** The value of a string of decimal digits, most significant first. */
  function DigitsValue(s: string): nat
    requires AllDigits(s)
  {
    if |s| == 0 then 0
    else 10 * DigitsValue(s[..|s| - 1]) + (s[|s| - 1] as int - '0' as int)
  }

  /** `int(s)` restricted to plain decimal numerals. */
  function ParseInt(s: string): (r: Result<int>)
    ensures r.Ok? <==> |s| > 0 && AllDigits(s)
    ensures r.Err? ==> r.error == ValueError
    ensures r.Ok? ==> 0 <= r.value
  {
    if |s| > 0 && AllDigits(s) then Ok(DigitsValue(s)) else Err(ValueError)
  }

  /** The decimal numeral of `n` without leading zeros, as `str(n)`. */
  function Decimal(n: nat): (s: string)
    ensures |s| > 0 && AllDigits(s)
    ensures |s| > 1 ==> s[0] != '0'
  {
    if n < 10 then ['0' + n as char]
    else Decimal(n / 10) + ['0' + (n % 10) as char]
  }

  /** `int(str(n)) == n`. */
  lemma {:induction false} ParseDecimal(n: nat)
    ensures DigitsValue(Decimal(n)) == n
    ensures ParseInt(Decimal(n)) == Ok(n)
  {
    if n >= 10 {
      ParseDecimal(n / 10);
      var s := Decimal(n);
      assert s[..|s| - 1] == Decimal(n / 10);
    }
  }
}
