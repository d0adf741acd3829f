/** The parts of PHP's value and string semantics that the form helper relies on:
    `empty()`, `strpos(...) === false`, `substr($s, -$n)`, `str_replace($m, '', $s)`
    and `implode('', $parts)`. */
module Php {

  datatype Option<T> = None | Some(value: T)

  /** A PHP scalar as it reaches the form helper: null, a boolean (a checkbox's
      checked state), an integer (a checkbox's value) or a string. */
  datatype Value = Null | Bool(b: bool) | Int(i: int) | Str(s: string)

  /** `empty()` on a string: exactly "" and "0" are empty. */
  predicate EmptyStr(s: string) {
    s == "" || s == "0"
  }

  /** `empty()` on a scalar: null, false, 0, "" and "0". */
  predicate IsEmpty(v: Value) {
    match v
    case Null => true
    case Bool(b) => !b
    case Int(i) => i == 0
    case Str(s) => EmptyStr(s)
  }

  /** The five scalars `empty()` holds for. */
  lemma EmptyValues(v: Value)
    ensures IsEmpty(v) <==> v == Null || v == Bool(false) || v == Int(0) || v == Str("") || v == Str("0")
  {
  }

  /** The needle `n` starts at index `i` of the haystack `h`. */
  predicate OccursAt(h: string, n: string, i: int) {
    0 <= i && i + |n| <= |h| && h[i..i + |n|] == n
  }

  /** The needle occurs somewhere in the haystack. */
  ghost predicate Contains(h: string, n: string) {
    exists i :: OccursAt(h, n, i)
  }

  /** `s` ends with `suffix`. */
  predicate EndsWith(s: string, suffix: string) {
    |suffix| <= |s| && s[|s| - |suffix|..] == suffix
  }

  /** Dropping the first character shifts every occurrence one place to the left. */
  lemma OccursAtTail(h: string, n: string, i: int)
    requires |h| > 0 && 0 <= i
    ensures OccursAt(h[1..], n, i) <==> OccursAt(h, n, i + 1)
  {
    if i + |n| <= |h| - 1 {
      assert h[1..][i..i + |n|] == h[i + 1..i + 1 + |n|];
    }
  }

  /** An occurrence is either at the front or in the tail. */
  lemma ContainsTail(h: string, n: string)
    requires |h| > 0
    ensures Contains(h, n) <==> OccursAt(h, n, 0) || Contains(h[1..], n)
  {
    if Contains(h, n) && !OccursAt(h, n, 0) {
      var i :| OccursAt(h, n, i);
      OccursAtTail(h, n, i - 1);
    }
    if Contains(h[1..], n) {
      var i :| OccursAt(h[1..], n, i);
      OccursAtTail(h, n, i);
    }
  }

  /** A string always contains each of its suffixes. */
  lemma ContainsSuffix(x: string, n: string)
    ensures OccursAt(x + n, n, |x|) && Contains(x + n, n)
  {
    assert (x + n)[|x|..|x| + |n|] == n;
    assert OccursAt(x + n, n, |x|);
  }

  /** `strpos($h, $n)`: the first index at which `n` occurs, or None for PHP's `false`.
      An empty needle yields 0, as in PHP 8. */
  function Strpos(h: string, n: string): (r: Option<nat>)
    ensures r.Some? ==> OccursAt(h, n, r.value)
    ensures r.Some? ==> forall j :: 0 <= j < r.value ==> !OccursAt(h, n, j)
    ensures r.None? <==> !Contains(h, n)
    decreases |h|
  {
    if |h| < |n| then None
    else if h[..|n|] == n then
      assert OccursAt(h, n, 0);
      Some(0)
    else
      ContainsTail(h, n);
      match Strpos(h[1..], n)
      case None => None
      case Some(k) =>
        OccursAtTail(h, n, k);
        assert forall j :: 1 <= j <= k ==> (OccursAt(h, n, j) <==> OccursAt(h[1..], n, j - 1)) by {
          forall j | 1 <= j <= k
            ensures OccursAt(h, n, j) <==> OccursAt(h[1..], n, j - 1)
          {
            OccursAtTail(h, n, j - 1);
          }
        }
        Some(k + 1)
  }

  /** `substr($s, -$n)`: the last `n` characters of `s`; the whole of `s` when it is
      shorter than `n` (PHP clamps the start to 0) or when `n` is 0 (`-0` is `0`). */
  function SubstrFromEnd(s: string, n: nat): (r: string)
    ensures EndsWith(s, r)
    ensures 0 < n <= |s| ==> |r| == n
    ensures (n == 0 || |s| < n) ==> r == s
  {
    if n == 0 || |s| < n then s else s[|s| - n..]
  }

  /** For a non-empty marker, PHP's `substr($s, -strlen($m)) == $m` is a suffix test. */
  lemma SubstrFromEndIsSuffixTest(s: string, m: string)
    requires m != ""
    ensures SubstrFromEnd(s, |m|) == m <==> EndsWith(s, m)
  {
  }

  /** `str_replace($m, '', $s)`: scans `s` from the left and deletes every
      non-overlapping occurrence of `m`; an empty `m` leaves `s` as it is. */
  function StrRemove(s: string, m: string): (r: string)
    ensures |r| <= |s|
    ensures m == "" ==> r == s
    decreases |s|
  {
    if m == "" || |s| < |m| then s
    else if s[..|m|] == m then StrRemove(s[|m|..], m)
    else [s[0]] + StrRemove(s[1..], m)
  }

  /** Removing a marker that does not occur changes nothing. */
  lemma {:induction false} StrRemoveAbsent(s: string, m: string)
    requires !Contains(s, m)
    ensures StrRemove(s, m) == s
  {
    if m != "" && |s| >= |m| {
      assert !OccursAt(s, m, 0);
      ContainsTail(s, m);
      StrRemoveAbsent(s[1..], m);
      assert [s[0]] + s[1..] == s;
    }
  }

  /** `str_replace` deletes a marker at the front and carries on after it. */
  lemma StrRemoveLeading(m: string, x: string)
    ensures StrRemove(m + x, m) == StrRemove(x, m)
  {
    if m != "" {
      assert (m + x)[..|m|] == m && (m + x)[|m|..] == x;
    }
  }

  /** When the first occurrence of the marker in `p + m + y` is the one right after
      `p`, `str_replace` keeps `p`, drops that marker and carries on with `y`. */
  lemma {:induction false} StrRemoveFirst(p: string, m: string, y: string)
    requires m != ""
    requires forall i :: 0 <= i < |p| ==> !OccursAt(p + m + y, m, i)
    ensures StrRemove(p + m + y, m) == p + StrRemove(y, m)
  {
    var s := p + m + y;
    if p == [] {
      assert s == m + y;
      StrRemoveLeading(m, y);
    } else {
      assert !OccursAt(s, m, 0);
      assert |s| >= |m| && s[..|m|] != m;
      assert StrRemove(s, m) == [s[0]] + StrRemove(s[1..], m);
      var t := p[1..] + m + y;
      assert s[1..] == t && s[0] == p[0];
      forall i | 0 <= i < |p| - 1
        ensures !OccursAt(t, m, i)
      {
        OccursAtTail(s, m, i);
      }
      StrRemoveFirst(p[1..], m, y);
      assert [p[0]] + (p[1..] + StrRemove(y, m)) == p + StrRemove(y, m);
    }
  }

  /** When the marker occurs in `p + m` only at the very end, `str_replace` removes
      exactly that trailing marker. */
  lemma StrRemoveTrailing(p: string, m: string)
    requires m != ""
    requires forall i :: 0 <= i < |p| ==> !OccursAt(p + m, m, i)
    ensures StrRemove(p + m, m) == p
  {
    assert p + m + "" == p + m;
    StrRemoveFirst(p, m, "");
  }

  /** `a` is a prefix and `b` a suffix of `a + b`. */
  lemma Affixes(a: string, b: string)
    ensures (a + b)[..|a|] == a
    ensures EndsWith(a + b, b)
  {
    assert (a + b)[|a + b| - |b|..] == b;
  }

  /** `implode('', $parts)`: the parts concatenated in order. */
  function Implode(parts: seq<string>): string {
    if parts == [] then "" else parts[0] + Implode(parts[1..])
  }

  /** Imploding a concatenation is concatenating the two implosions. */
  lemma {:induction false} ImplodeAppend(a: seq<string>, b: seq<string>)
    ensures Implode(a + b) == Implode(a) + Implode(b)
  {
    if a == [] {
      assert a + b == b;
    } else {
      assert (a + b)[1..] == a[1..] + b;
      ImplodeAppend(a[1..], b);
    }
  }
}
