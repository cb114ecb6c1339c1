/** Small value-level building blocks shared by the store and the screens:
    an Option type, duplicate-free sequences, the order-preserving union that
    `[...new Set(xs)]` computes, `filter(x => x !== y)`, substring search,
    lower-casing and the whitespace test behind `trim()`. */
module Basics {

  datatype Option<+T> = None | Some(value: T)

  /** `o ?? d` */
  function GetOr<T>(o: Option<T>, d: T): (r: T)
    ensures o.Some? ==> r == o.value
    ensures o.None? ==> r == d
  {
    match o
    case Some(v) => v
    case None => d
  }

  function Max(a: int, b: int): (r: int)
    ensures r >= a && r >= b && (r == a || r == b)
  {
    if a >= b then a else b
  }

  function Min(a: int, b: int): (r: int)
    ensures r <= a && r <= b && (r == a || r == b)
  {
    if a <= b then a else b
  }

  /** `Math.max(lo, Math.min(hi, x))` */
  function Clamp(lo: int, hi: int, x: int): (r: int)
    requires lo <= hi
    ensures lo <= r <= hi
    ensures lo <= x <= hi ==> r == x
    ensures x < lo ==> r == lo
    ensures x > hi ==> r == hi
  {
    Max(lo, Min(hi, x))
  }

  /** `(n / len) * 100` for a part `n` of a positive whole `len`. */
  function Percent(n: nat, len: nat): (r: real)
    requires 0 < len && n <= len
    ensures r * (len as real) == 100.0 * (n as real)
    ensures r == 100.0 * (n as real) / (len as real)
    ensures 0.0 <= r <= 100.0
    ensures r == 100.0 <==> n == len
    ensures r == 0.0 <==> n == 0
  {
    var x, y := n as real, len as real;
    var r := 100.0 * x / y;
    assert r * y == 100.0 * x;
    assert r <= 100.0 by {
      assert 100.0 * x <= 100.0 * y;
    }
    assert r >= 0.0;
    r
  }

  ghost predicate NoDup<T>(s: seq<T>) {
    forall i, j :: 0 <= i < j < |s| ==> s[i] != s[j]
  }

  /** `s.indexOf(x)`: the first position holding `x`, or -1. */
  function IndexOf<T(==)>(s: seq<T>, x: T): (r: int)
    ensures -1 <= r < |s|
    ensures r == -1 <==> x !in s
    ensures 0 <= r ==> s[r] == x && x !in s[..r]
  {
    if s == [] then -1
    else if s[0] == x then 0
    else
      var k := IndexOf(s[1..], x);
      if k == -1 then -1
      else
        assert s[..k + 1] == [s[0]] + s[1..][..k];
        k + 1
  }

  /** The position of the first element whose key is `id`, or -1. */
  function FindIndexBy<T, K(==)>(s: seq<T>, key: T -> K, id: K): (r: int)
    ensures -1 <= r < |s|
    ensures r == -1 <==> forall k :: 0 <= k < |s| ==> key(s[k]) != id
    ensures 0 <= r ==> key(s[r]) == id && forall k :: 0 <= k < r ==> key(s[k]) != id
  {
    if s == [] then -1
    else if key(s[0]) == id then 0
    else
      var k := FindIndexBy(s[1..], key, id);
      if k == -1 then -1 else k + 1
  }

  /** `s.find(x => key(x) === id)`: the first element whose key is `id`. */
  function FindBy<T, K(==)>(s: seq<T>, key: T -> K, id: K): (r: Option<T>)
    ensures r.None? <==> forall k :: 0 <= k < |s| ==> key(s[k]) != id
    ensures r.Some? ==> exists k :: 0 <= k < |s| && s[k] == r.value && key(s[k]) == id
                                    && forall j :: 0 <= j < k ==> key(s[j]) != id
  {
    var i := FindIndexBy(s, key, id);
    if i == -1 then None else Some(s[i])
  }

  /** Number of occurrences of `x` in `s`. */
  function Count<T(==)>(s: seq<T>, x: T): (n: nat)
    ensures n <= |s|
    ensures n == 0 <==> x !in s
  {
    if s == [] then 0 else (if s[0] == x then 1 else 0) + Count(s[1..], x)
  }

  lemma {:induction false} CountAppend<T>(a: seq<T>, b: seq<T>, x: T)
    ensures Count(a + b, x) == Count(a, x) + Count(b, x)
  {
    if a == [] {
      assert a + b == b;
    } else {
      assert (a + b)[1..] == a[1..] + b;
      CountAppend(a[1..], b, x);
    }
  }

  /** `s.push(x)` when `earned`: the prefix is kept, `x` is counted once
      more when it was pushed and nothing else changes. */
  function PushIf<T(==,!new)>(s: seq<T>, earned: bool, x: T): (r: seq<T>)
    ensures |r| == |s| + (if earned then 1 else 0) && r[..|s|] == s
    ensures forall k :: |s| <= k < |r| ==> r[k] == x
    ensures r == s + (if earned then [x] else [])
    ensures forall y :: Count(r, y) == Count(s, y) + (if earned && y == x then 1 else 0)
  {
    if earned then
      assert (s + [x])[..|s|] == s;
      assert forall y :: Count(s + [x], y) == Count(s, y) + Count([x], y) by {
        forall y ensures Count(s + [x], y) == Count(s, y) + Count([x], y) {
          CountAppend(s, [x], y);
        }
      }
      s + [x]
    else s
  }

  /** `if (!s.includes(x)) s.push(x)`: afterwards `x` is held, at most
      once if it was not held before, and nothing else changes. */
  function AddOnce<T(==,!new)>(s: seq<T>, x: T): (r: seq<T>)
    ensures |s| <= |r| <= |s| + 1 && r[..|s|] == s && x in r
    ensures x in s ==> r == s
    ensures x !in s ==> |r| == |s| + 1 && Count(r, x) == 1
    ensures forall y :: y != x ==> Count(r, y) == Count(s, y)
  {
    PushIf(s, x !in s, x)
  }

  /** Appends, in order, every element of `xs` that is not yet present:
      the tail of iterating a JavaScript `Set` built from `acc + xs`. */
  function AppendNew<T(==,!new)>(acc: seq<T>, xs: seq<T>): (r: seq<T>)
    ensures NoDup(acc) ==> NoDup(r)
    ensures forall x :: x in r <==> x in acc || x in xs
    ensures |acc| <= |r| && r[..|acc|] == acc
    decreases |xs|
  {
    if xs == [] then acc
    else AppendNew(if xs[0] in acc then acc else acc + [xs[0]], xs[1..])
  }

  /** `[...new Set(s)]`: the first occurrence of every element, in order. */
  function Dedup<T(==,!new)>(s: seq<T>): (r: seq<T>)
    ensures NoDup(r)
    ensures forall x :: x in r <==> x in s
  {
    AppendNew([], s)
  }

  lemma {:induction false} AppendNewConcat<T(!new)>(acc: seq<T>, a: seq<T>, b: seq<T>)
    ensures AppendNew(acc, a + b) == AppendNew(AppendNew(acc, a), b)
    decreases |a|
  {
    if a == [] {
      assert a + b == b;
    } else {
      assert (a + b)[0] == a[0];
      assert (a + b)[1..] == a[1..] + b;
      AppendNewConcat(if a[0] in acc then acc else acc + [a[0]], a[1..], b);
    }
  }

  lemma {:induction false} AppendNewDistinct<T(!new)>(acc: seq<T>, xs: seq<T>)
    requires NoDup(acc + xs)
    ensures AppendNew(acc, xs) == acc + xs
    decreases |xs|
  {
    if xs != [] {
      assert xs[0] == (acc + xs)[|acc|];
      assert xs[0] !in acc by {
        forall i | 0 <= i < |acc| ensures acc[i] != xs[0] {
          assert acc[i] == (acc + xs)[i];
        }
      }
      assert acc + xs == (acc + [xs[0]]) + xs[1..];
      AppendNewDistinct(acc + [xs[0]], xs[1..]);
    }
  }

  /** The union `[...new Set([...prior, ...extra])]` keeps a duplicate-free
      `prior` as its prefix and adds the new elements of `extra` after it. */
  lemma DedupUnion<T(!new)>(prior: seq<T>, extra: seq<T>)
    requires NoDup(prior)
    ensures Dedup(prior + extra) == AppendNew(prior, extra)
  {
    AppendNewConcat([], prior, extra);
    assert [] + prior == prior;
    AppendNewDistinct([], prior);
  }

  /** `s.filter(y => y !== x)` */
  function RemoveAll<T(==,!new)>(s: seq<T>, x: T): (r: seq<T>)
    ensures x !in r
    ensures forall y :: y in r <==> y in s && y != x
    ensures |r| <= |s|
    ensures NoDup(s) ==> NoDup(r)
  {
    if s == [] then []
    else if s[0] == x then RemoveAll(s[1..], x)
    else
      var tail := RemoveAll(s[1..], x);
      assert NoDup(s) ==> NoDup([s[0]] + tail) by {
        if NoDup(s) {
          forall k | 0 <= k < |s| - 1 ensures s[1..][k] != s[0] {
            assert s[1..][k] == s[k + 1];
          }
          assert s[0] !in tail;
        }
      }
      [s[0]] + tail
  }

  lemma {:induction false} RemoveAbsent<T(!new)>(s: seq<T>, x: T)
    requires x !in s
    ensures RemoveAll(s, x) == s
  {
    if s != [] {
      RemoveAbsent(s[1..], x);
    }
  }

  /** Removal drops exactly the occurrences of the value. */
  lemma {:induction false} RemoveAllLength<T(!new)>(s: seq<T>, x: T)
    ensures |RemoveAll(s, x)| == |s| - Count(s, x)
  {
    if s != [] {
      RemoveAllLength(s[1..], x);
    }
  }

  lemma {:induction false} RemoveAllConcat<T(!new)>(a: seq<T>, b: seq<T>, x: T)
    ensures RemoveAll(a + b, x) == RemoveAll(a, x) + RemoveAll(b, x)
  {
    if a == [] {
      assert a + b == b;
    } else {
      assert (a + b)[0] == a[0];
      assert (a + b)[1..] == a[1..] + b;
      RemoveAllConcat(a[1..], b, x);
    }
  }

  /** `s.includes(x) ? s.filter(y => y !== x) : [...s, x]` */
  function Toggle<T(==,!new)>(s: seq<T>, x: T): (r: seq<T>)
    ensures x in s ==> x !in r && forall y :: y in r <==> y in s && y != x
    ensures x !in s ==> r == s + [x]
    ensures NoDup(s) ==> NoDup(r)
  {
    if x in s then RemoveAll(s, x) else s + [x]
  }

  /** Toggling an absent element twice gives the list back. */
  lemma ToggleTwice<T(!new)>(s: seq<T>, x: T)
    requires x !in s
    ensures Toggle(Toggle(s, x), x) == s
  {
    RemoveAllConcat(s, [x], x);
    RemoveAbsent(s, x);
    assert RemoveAll([x], x) == [];
  }

  /** `word` occurs in `text` starting at position `i`. */
  predicate OccursAt(text: string, word: string, i: int) {
    0 <= i <= |text| - |word| && text[i..i + |word|] == word
  }

  /** `text.includes(word)` */
  predicate Contains(text: string, word: string) {
    exists i | 0 <= i <= |text| - |word| :: OccursAt(text, word, i)
  }

  /** A text containing a word contains every slice of the word. */
  lemma ContainsSlice(text: string, word: string, a: nat, b: nat)
    requires Contains(text, word) && a <= b <= |word|
    ensures Contains(text, word[a..b])
  {
    var i :| 0 <= i <= |text| - |word| && OccursAt(text, word, i);
    assert text[i..i + |word|] == word;
    forall k | 0 <= k < b - a ensures text[i + a..i + b][k] == word[a..b][k] {
      assert text[i + a + k] == text[i..i + |word|][a + k];
    }
    assert text[i + a..i + b] == word[a..b];
    assert OccursAt(text, word[a..b], i + a);
  }

  /** A word spliced into a text is contained in the result. */
  lemma ContainsMiddle(before: string, word: string, after: string)
    ensures Contains(before + word + after, word)
  {
    var text := before + word + after;
    assert text[|before|..|before| + |word|] == word;
    assert OccursAt(text, word, |before|);
  }

  /** A word holding a character that the text lacks cannot occur in it. */
  lemma AbsentCharNotContained(text: string, word: string, k: nat)
    requires k < |word| && word[k] !in text
    ensures !Contains(text, word)
  {
    forall i | OccursAt(text, word, i) ensures false {
    }
  }

  /** Lower-casing of one character: the ASCII and Latin-1 capitals, which
      cover the Spanish alphabet (Á É Í Ó Ú Ñ Ü). */
  function LowerChar(c: char): (d: char)
    ensures 'A' <= c <= 'Z' ==> d as int == c as int + 32
    ensures '\U{00C0}' <= c <= '\U{00DE}' && c != '\U{00D7}' ==> d as int == c as int + 32
    ensures !('A' <= c <= 'Z') && !('\U{00C0}' <= c <= '\U{00DE}' && c != '\U{00D7}') ==> d == c
  {
    if 'A' <= c <= 'Z' || ('\U{00C0}' <= c <= '\U{00DE}' && c != '\U{00D7}') then
      (c as int + 32) as char
    else c
  }

  /** `text.toLowerCase()`, character by character. */
  function Lower(s: string): (r: string)
    ensures |r| == |s|
    ensures forall i :: 0 <= i < |s| ==> r[i] == LowerChar(s[i])
  {
    seq(|s|, i requires 0 <= i < |s| => LowerChar(s[i]))
  }

  /** The characters that `String.prototype.trim` removes. */
  predicate IsWhitespace(c: char) {
    c == ' ' || c == '\t' || c == '\n' || c == '\r' || c == '\U{000B}' || c == '\U{000C}'
    || c == '\U{00A0}' || c == '\U{1680}' || ('\U{2000}' <= c <= '\U{200A}')
    || c == '\U{2028}' || c == '\U{2029}' || c == '\U{202F}' || c == '\U{205F}'
    || c == '\U{3000}' || c == '\U{FEFF}'
  }

  /** `s.trim()` is truthy, i.e. the trimmed string is not empty. */
  predicate HasContent(s: string) {
    exists i :: 0 <= i < |s| && !IsWhitespace(s[i])
  }
}
