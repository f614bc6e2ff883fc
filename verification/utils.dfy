/** The small helpers of `src/utils.ts`, plus the JavaScript string and
    array built-ins the engines rely on (`slice`, `endsWith`, `join`,
    `split`, `repeat`, `trim`, `at(-1)`), written out with their exact
    edge-case behaviour.
 */
module Utils {

  import opened Tree

  // ---------------------------------------------------------------------
  // arrify
  // ---------------------------------------------------------------------

  /** `arrify(value)`: `null` gives no element, an array is its own list of
      elements, anything else is a one-element list. */
  function Arrify(v: Value): (r: seq<Value>)
    ensures v.Null? ==> r == []
    ensures v.Arr? ==> r == v.items
    ensures !v.Null? && !v.Arr? ==> r == [v]
  {
    match v
    case Null => []
    case Arr(items) => items
    case _ => [v]
  }

  // ---------------------------------------------------------------------
  // groupBy
  // ---------------------------------------------------------------------

  /** Number of occurrences of `k` in `ks`. */
  function Count(ks: seq<string>, k: string): nat {
    if |ks| == 0 then 0 else (if ks[0] == k then 1 else 0) + Count(ks[1..], k)
  }

  function RepeatItem<T>(x: T, n: nat): (r: seq<T>)
    ensures |r| == n
    ensures forall j :: 0 <= j < n ==> r[j] == x
  {
    if n == 0 then [] else [x] + RepeatItem(x, n - 1)
  }

  function GetOr<T>(groups: map<string, seq<T>>, k: string): seq<T> {
    if k in groups then groups[k] else []
  }

  /** One step of the `groupBy` reduction: push `x` onto the group of every
      key in `keys`, creating missing groups. */
  function AddToGroups<T>(groups: map<string, seq<T>>, keys: seq<string>, x: T): map<string, seq<T>>
    decreases |keys|
  {
    if |keys| == 0 then groups
    else AddToGroups(groups[keys[0] := GetOr(groups, keys[0]) + [x]], keys[1..], x)
  }

  /** `groupBy(list, groupFn)`: a left fold over the list. */
  function GroupBy<T>(xs: seq<T>, f: T -> seq<string>): map<string, seq<T>> {
    if |xs| == 0 then map[]
    else AddToGroups(GroupBy(xs[..|xs| - 1], f), f(xs[|xs| - 1]), xs[|xs| - 1])
  }

  /** Reference definition of one group: the elements of `xs` in list order,
      each repeated once per occurrence of `k` among its keys. */
  function Group<T>(xs: seq<T>, f: T -> seq<string>, k: string): seq<T> {
    if |xs| == 0 then []
    else Group(xs[..|xs| - 1], f, k) + RepeatItem(xs[|xs| - 1], Count(f(xs[|xs| - 1]), k))
  }

  lemma {:induction false} CountPositive(ks: seq<string>, k: string)
    ensures Count(ks, k) > 0 <==> k in ks
  {
    if |ks| > 0 {
      CountPositive(ks[1..], k);
      assert ks == [ks[0]] + ks[1..];
    }
  }

  lemma {:induction false} AddToGroupsSpec<T>(groups: map<string, seq<T>>, keys: seq<string>, x: T)
    ensures forall k :: k in AddToGroups(groups, keys, x) <==> k in groups || k in keys
    ensures forall k :: GetOr(AddToGroups(groups, keys, x), k) == GetOr(groups, k) + RepeatItem(x, Count(keys, k))
    decreases |keys|
  {
    if |keys| > 0 {
      var g := groups[keys[0] := GetOr(groups, keys[0]) + [x]];
      AddToGroupsSpec(g, keys[1..], x);
      assert keys == [keys[0]] + keys[1..];
      forall k ensures GetOr(AddToGroups(groups, keys, x), k) == GetOr(groups, k) + RepeatItem(x, Count(keys, k)) {
        if k == keys[0] {
          assert RepeatItem(x, Count(keys, k)) == [x] + RepeatItem(x, Count(keys[1..], k));
        }
      }
    }
  }

  /** `groupBy` agrees with the reference groups: every group holds exactly
      the elements that produced its key, in list order. */
  lemma {:induction false} GroupByContents<T>(xs: seq<T>, f: T -> seq<string>)
    ensures forall k :: GetOr(GroupBy(xs, f), k) == Group(xs, f, k)
  {
    if |xs| > 0 {
      GroupByContents(xs[..|xs| - 1], f);
      AddToGroupsSpec(GroupBy(xs[..|xs| - 1], f), f(xs[|xs| - 1]), xs[|xs| - 1]);
    }
  }

  /** A key is present in the grouping exactly when some element produced it. */
  lemma {:induction false} GroupByKeys<T>(xs: seq<T>, f: T -> seq<string>)
    ensures forall k :: k in GroupBy(xs, f) <==> exists i :: 0 <= i < |xs| && k in f(xs[i])
  {
    if |xs| > 0 {
      var init := xs[..|xs| - 1];
      GroupByKeys(init, f);
      AddToGroupsSpec(GroupBy(init, f), f(xs[|xs| - 1]), xs[|xs| - 1]);
      forall k ensures k in GroupBy(xs, f) <==> exists i :: 0 <= i < |xs| && k in f(xs[i]) {
        if k in GroupBy(xs, f) && k !in f(xs[|xs| - 1]) {
          var i :| 0 <= i < |init| && k in f(init[i]);
          assert xs[i] == init[i];
        }
        if exists i :: 0 <= i < |xs| && k in f(xs[i]) {
          var i :| 0 <= i < |xs| && k in f(xs[i]);
          if i < |init| {
            assert init[i] == xs[i];
          }
        }
      }
    }
  }

  lemma {:induction false} GroupAppend<T>(a: seq<T>, b: seq<T>, f: T -> seq<string>, k: string)
    ensures Group(a + b, f, k) == Group(a, f, k) + Group(b, f, k)
    decreases |b|
  {
    if |b| == 0 {
      assert a + b == a;
    } else {
      var b' := b[..|b| - 1];
      GroupAppend(a, b', f, k);
      assert (a + b)[..|a + b| - 1] == a + b';
      assert (a + b)[|a + b| - 1] == b[|b| - 1];
    }
  }

  /** An element whose key list is empty belongs to no group: dropping it
      from the list changes no group. */
  lemma GroupSkipsKeyless<T>(xs: seq<T>, i: nat, f: T -> seq<string>, k: string)
    requires i < |xs| && f(xs[i]) == []
    ensures Group(xs[..i] + xs[i + 1..], f, k) == Group(xs, f, k)
  {
    assert xs == xs[..i] + [xs[i]] + xs[i + 1..];
    GroupAppend(xs[..i] + [xs[i]], xs[i + 1..], f, k);
    GroupAppend(xs[..i], [xs[i]], f, k);
    GroupAppend(xs[..i], xs[i + 1..], f, k);
    assert Group([xs[i]], f, k) == [] by {
      assert [xs[i]][..0] == [];
    }
  }

  /** Every member of a group produced the group's key. */
  lemma {:induction false} GroupMembersHaveKey<T>(xs: seq<T>, f: T -> seq<string>, k: string)
    ensures forall j :: 0 <= j < |Group(xs, f, k)| ==> k in f(Group(xs, f, k)[j])
  {
    if |xs| > 0 {
      var init := xs[..|xs| - 1];
      var x := xs[|xs| - 1];
      GroupMembersHaveKey(init, f, k);
      CountPositive(f(x), k);
    }
  }

  /** A property shared by every element of the list is shared by every
      member of every group. */
  lemma {:induction false} GroupMembersKeep<T>(xs: seq<T>, f: T -> seq<string>, k: string, p: T -> bool)
    requires forall i :: 0 <= i < |xs| ==> p(xs[i])
    ensures forall j :: 0 <= j < |Group(xs, f, k)| ==> p(Group(xs, f, k)[j])
  {
    if |xs| > 0 {
      GroupMembersKeep(xs[..|xs| - 1], f, k, p);
    }
  }

  // ---------------------------------------------------------------------
  // splitAt and the slice index rule
  // ---------------------------------------------------------------------

  /** How `slice` reads an index: a negative index counts from the end, and
      every index is clamped to `[0, len]`. */
  function RelativeIndex(len: nat, i: int): (k: nat)
    ensures k <= len
    ensures 0 <= i <= len ==> k == i
    ensures -(len as int) <= i < 0 ==> k as int == len as int + i
    ensures i > len as int ==> k == len
    ensures i < -(len as int) ==> k == 0
  {
    if i < 0 then (if len + i < 0 then 0 else len + i)
    else if i <= len then i else len
  }

  /** `splitAt(input, index)` = `[input.slice(0, index), input.slice(index)]`. */
  function SplitAt<T>(xs: seq<T>, i: int): (r: (seq<T>, seq<T>))
    ensures r.0 + r.1 == xs
    ensures |xs| > 0 && i == -1 ==> r.1 == [xs[|xs| - 1]]
    ensures 0 <= i <= |xs| ==> |r.0| == i
  {
    var k := RelativeIndex(|xs|, i);
    (xs[..k], xs[k..])
  }

  /** `path.at(-1) ?? ''` */
  function LastOr(xs: seq<string>, default: string): (r: string)
    ensures |xs| > 0 ==> r == xs[|xs| - 1]
    ensures |xs| == 0 ==> r == default
  {
    if |xs| == 0 then default else xs[|xs| - 1]
  }

  /** `a` is `b` with some elements left out, the rest in their order. */
  predicate IsSubsequence<T(==)>(a: seq<T>, b: seq<T>)
    decreases |b|
  {
    |a| == 0
    || (|b| > 0 && ((a[0] == b[0] && IsSubsequence(a[1..], b[1..])) || IsSubsequence(a, b[1..])))
  }

  lemma {:induction false} SubsequenceLength<T>(a: seq<T>, b: seq<T>)
    requires IsSubsequence(a, b)
    ensures |a| <= |b|
    decreases |b|
  {
    if |a| > 0 {
      if a[0] == b[0] && IsSubsequence(a[1..], b[1..]) {
        SubsequenceLength(a[1..], b[1..]);
      } else {
        SubsequenceLength(a, b[1..]);
      }
    }
  }

  lemma {:induction false} SubsequenceOfSelf<T>(a: seq<T>)
    ensures IsSubsequence(a, a)
    decreases |a|
  {
    if |a| > 0 {
      SubsequenceOfSelf(a[1..]);
    }
  }

  // ---------------------------------------------------------------------
  // Strings
  // ---------------------------------------------------------------------

  /** `s.endsWith(suffix)` */
  predicate EndsWith(s: string, suffix: string) {
    |suffix| <= |s| && s[|s| - |suffix|..] == suffix
  }

  /** `trimSuffix(str, suffix)` exactly as written: `str.slice(0, -suffix.length)`
      with an empty suffix is `str.slice(0, -0)`, the empty string. */
  function TrimSuffixAsWritten(s: string, suffix: string): (r: string)
    ensures !EndsWith(s, suffix) ==> r == s
    ensures EndsWith(s, suffix) && |suffix| > 0 ==> r + suffix == s
    ensures |suffix| == 0 ==> r == ""
  {
    if EndsWith(s, suffix) then s[..RelativeIndex(|s|, -|suffix|)] else s
  }

  /** `trimSuffix` as evidently intended: remove the suffix when present. */
  function TrimSuffix(s: string, suffix: string): (r: string)
    ensures EndsWith(s, suffix) ==> r + suffix == s
    ensures !EndsWith(s, suffix) ==> r == s
  {
    if EndsWith(s, suffix) then s[..|s| - |suffix|] else s
  }

  /** The two definitions differ only on the empty suffix, which every
      string ends with. */
  lemma TrimSuffixAgrees(s: string, suffix: string)
    requires |suffix| > 0
    ensures TrimSuffixAsWritten(s, suffix) == TrimSuffix(s, suffix)
  {
  }

  lemma TrimSuffixEmptyCounterexample()
    ensures TrimSuffixAsWritten("server", "") == ""
    ensures TrimSuffix("server", "") == "server"
  {
    assert EndsWith("server", "");
  }

  /** `parts.join(sep)` */
  function Join(parts: seq<string>, sep: string): string {
    if |parts| == 0 then ""
    else if |parts| == 1 then parts[0]
    else parts[0] + sep + Join(parts[1..], sep)
  }

  function IndexOf(s: string, c: char): (i: nat)
    requires c in s
    ensures i < |s| && s[i] == c && c !in s[..i]
  {
    if s[0] == c then 0
    else
      assert s == [s[0]] + s[1..];
      var j := IndexOf(s[1..], c);
      assert s[..j + 1] == [s[0]] + s[1..][..j];
      j + 1
  }

  /** No piece holds the separator. */
  predicate Unseparated(parts: seq<string>, c: char) {
    forall i :: 0 <= i < |parts| ==> c !in parts[i]
  }

  /** `s.split(c)` for a one-character separator: the pieces between the
      separators; an empty string gives one empty piece. */
  function SplitOn(s: string, c: char): (parts: seq<string>)
    ensures |parts| >= 1
    ensures Unseparated(parts, c)
    ensures Join(parts, [c]) == s
    decreases |s|
  {
    if c !in s then [s]
    else
      var i := IndexOf(s, c);
      var rest := SplitOn(s[i + 1..], c);
      assert s == s[..i] + [c] + s[i + 1..];
      [s[..i]] + rest
  }

  /** Splitting a join of separator-free pieces gives the pieces back. */
  lemma {:induction false} SplitJoinRoundTrip(parts: seq<string>, c: char)
    requires |parts| >= 1
    requires Unseparated(parts, c)
    ensures SplitOn(Join(parts, [c]), c) == parts
    decreases |parts|
  {
    if |parts| == 1 {
      assert c !in parts[0];
    } else {
      var s := Join(parts, [c]);
      var tail := Join(parts[1..], [c]);
      assert s == parts[0] + [c] + tail;
      assert c !in parts[0];
      assert s[|parts[0]|] == c;
      assert s[..|parts[0]|] == parts[0];
      var i := IndexOf(s, c);
      assert i == |parts[0]|;
      assert s[i + 1..] == tail;
      SplitJoinRoundTrip(parts[1..], c);
    }
  }

  /** `s.repeat(n)` */
  function Repeat(s: string, n: nat): (r: string)
    ensures |r| == |s| * n
  {
    if n == 0 then "" else s + Repeat(s, n - 1)
  }

  lemma {:induction false} RepeatSpaces(n: nat)
    ensures |Repeat(" ", n)| == n
    ensures forall i :: 0 <= i < n ==> Repeat(" ", n)[i] == ' '
  {
    if n > 0 {
      RepeatSpaces(n - 1);
      assert Repeat(" ", n) == " " + Repeat(" ", n - 1);
    }
  }

  /** ECMAScript WhiteSpace and LineTerminator code points, the set that
      `String.prototype.trim` strips. */
  predicate IsJsWhitespace(c: char) {
    var x := c as int;
    x == 0x09 || x == 0x0A || x == 0x0B || x == 0x0C || x == 0x0D || x == 0x20
    || x == 0xA0 || x == 0x1680 || (0x2000 <= x <= 0x200A) || x == 0x2028
    || x == 0x2029 || x == 0x202F || x == 0x205F || x == 0x3000 || x == 0xFEFF
  }

  function TrimStartCount(s: string): (n: nat)
    ensures n <= |s|
    ensures forall i :: 0 <= i < n ==> IsJsWhitespace(s[i])
    ensures n < |s| ==> !IsJsWhitespace(s[n])
  {
    if |s| == 0 || !IsJsWhitespace(s[0]) then 0
    else 1 + TrimStartCount(s[1..])
  }

  function TrimEndCount(s: string): (n: nat)
    ensures n <= |s|
    ensures forall i :: |s| - n <= i < |s| ==> IsJsWhitespace(s[i])
    ensures n < |s| ==> !IsJsWhitespace(s[|s| - n - 1])
  {
    if |s| == 0 || !IsJsWhitespace(s[|s| - 1]) then 0
    else 1 + TrimEndCount(s[..|s| - 1])
  }

  /** `s.trim()`: the longest slice of `s` that neither starts nor ends with
      whitespace, obtained by dropping only whitespace at both ends. */
  function Trim(s: string): (r: string)
    ensures exists i, j ::
              && 0 <= i <= j <= |s| && r == s[i..j]
              && (forall k :: 0 <= k < i ==> IsJsWhitespace(s[k]))
              && (forall k :: j <= k < |s| ==> IsJsWhitespace(s[k]))
    ensures |r| > 0 ==> !IsJsWhitespace(r[0]) && !IsJsWhitespace(r[|r| - 1])
    ensures (forall k :: 0 <= k < |s| ==> !IsJsWhitespace(s[k])) ==> r == s
  {
    var a := TrimStartCount(s);
    var b := TrimEndCount(s[a..]);
    TrimBounds(s, a, b);
    s[a..|s| - b]
  }

  lemma TrimBounds(s: string, a: nat, b: nat)
    requires a == TrimStartCount(s) && b == TrimEndCount(s[a..])
    ensures a <= |s| - b <= |s|
    ensures (forall k :: 0 <= k < a ==> IsJsWhitespace(s[k]))
    ensures (forall k :: |s| - b <= k < |s| ==> IsJsWhitespace(s[k]))
    ensures var r := s[a..|s| - b];
            |r| > 0 ==> !IsJsWhitespace(r[0]) && !IsJsWhitespace(r[|r| - 1])
    ensures (forall k :: 0 <= k < |s| ==> !IsJsWhitespace(s[k])) ==> a == 0 && b == 0
    ensures exists i, j ::
              && 0 <= i <= j <= |s| && s[a..|s| - b] == s[i..j]
              && (forall k :: 0 <= k < i ==> IsJsWhitespace(s[k]))
              && (forall k :: j <= k < |s| ==> IsJsWhitespace(s[k]))
  {
    var rest := s[a..];
    assert forall k :: |s| - b <= k < |s| ==> s[k] == rest[k - a];
    var r := s[a..|s| - b];
    if |r| > 0 {
      assert r[0] == s[a];
      assert r[|r| - 1] == rest[|rest| - b - 1];
    }
    var j := |s| - b;
    assert 0 <= a <= j <= |s| && s[a..|s| - b] == s[a..j];
  }

  // ---------------------------------------------------------------------
  // Number formatting
  // ---------------------------------------------------------------------

  predicate IsDigit(c: char) {
    '0' <= c <= '9'
  }

  function DigitChar(d: nat): (c: char)
    requires d < 10
    ensures IsDigit(c)
  {
    ['0', '1', '2', '3', '4', '5', '6', '7', '8', '9'][d]
  }

  function NatToString(n: nat): (r: string)
    ensures |r| >= 1
    ensures forall i :: 0 <= i < |r| ==> IsDigit(r[i])
    ensures |r| > 1 ==> r[0] != '0'
  {
    if n < 10 then [DigitChar(n)]
    else
      var r := NatToString(n / 10) + [DigitChar(n % 10)];
      assert r[0] == NatToString(n / 10)[0];
      r
  }

  /** `String(n)` for an integral number. */
  function NumberToString(n: int): (r: string)
    ensures n >= 0 ==> r == NatToString(n)
    ensures n < 0 ==> r == "-" + NatToString(-n)
  {
    if n < 0 then "-" + NatToString(-n) else NatToString(n)
  }
}
