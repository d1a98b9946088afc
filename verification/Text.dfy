/**
 The string operations of the Go standard library that cupboard relies on,
 over sequences of Unicode scalar values.
 */
module Text {

  // ---------------------------------------------------------------- trimming

  /** unicode.IsSpace: the Latin-1 spaces and the code points with property White_Space. */
  predicate IsSpace(c: char) {
    var n := c as int;
    || 0x09 <= n <= 0x0D || n == 0x20 || n == 0x85 || n == 0xA0 || n == 0x1680
    || 0x2000 <= n <= 0x200A || n == 0x2028 || n == 0x2029 || n == 0x202F || n == 0x205F || n == 0x3000
  }

  predicate Trimmed(s: string) {
    s != "" ==> !IsSpace(s[0]) && !IsSpace(s[|s| - 1])
  }

  predicate Blank(s: string) {
    forall i :: 0 <= i < |s| ==> IsSpace(s[i])
  }

  function TrimLeft(s: string): (r: string)
    ensures r != "" ==> !IsSpace(r[0])
  {
    if s != "" && IsSpace(s[0]) then TrimLeft(s[1..]) else s
  }

  function TrimRight(s: string): (r: string)
    ensures r != "" ==> !IsSpace(r[|r| - 1])
    ensures r <= s
  {
    if s != "" && IsSpace(s[|s| - 1]) then TrimRight(s[..|s| - 1]) else s
  }

  /** strings.TrimSpace */
  function TrimSpace(s: string): (r: string)
    ensures Trimmed(r)
  {
    TrimRight(TrimLeft(s))
  }

  /** A string without outer whitespace is its own trimming, so trimming is idempotent. */
  lemma TrimFixed(s: string)
    requires Trimmed(s)
    ensures TrimSpace(s) == s
  {
  }

  lemma {:induction false} TrimLeftPadded(a: string, s: string)
    requires Blank(a) && (s != "" ==> !IsSpace(s[0]))
    ensures TrimLeft(a + s) == s
  {
    if a == "" {
      assert a + s == s;
    } else {
      assert (a + s)[0] == a[0] && (a + s)[1..] == a[1..] + s;
      TrimLeftPadded(a[1..], s);
    }
  }

  lemma {:induction false} TrimRightPadded(s: string, b: string)
    requires Blank(b) && (s != "" ==> !IsSpace(s[|s| - 1]))
    ensures TrimRight(s + b) == s
  {
    if b == "" {
      assert s + b == s;
    } else {
      var n := |s + b| - 1;
      assert (s + b)[n] == b[|b| - 1] && (s + b)[..n] == s + b[..|b| - 1];
      TrimRightPadded(s, b[..|b| - 1]);
    }
  }

  /** Outer whitespace never matters to TrimSpace. */
  lemma TrimPadded(a: string, s: string, b: string)
    requires Blank(a) && Blank(b) && Trimmed(s)
    ensures TrimSpace(a + s + b) == s
  {
    if s == "" {
      assert a + s + b == (a + b) + "";
      TrimLeftPadded(a + b, "");
    } else {
      assert a + s + b == a + (s + b);
      TrimLeftPadded(a, s + b);
      TrimRightPadded(s, b);
    }
  }

  /** TrimSpace takes whitespace off both ends, and nothing else. */
  lemma {:induction false} TrimSplits(s: string) returns (a: string, b: string)
    ensures s == a + TrimSpace(s) + b && Blank(a) && Blank(b)
    decreases |s|
  {
    if s == "" {
      a, b := "", "";
    } else if IsSpace(s[0]) {
      a, b := TrimSplits(s[1..]);
      a := [s[0]] + a;
    } else {
      a, b := "", s[|TrimRight(s)|..];
      TrimRightRest(s);
    }
  }

  lemma {:induction false} TrimRightRest(s: string)
    ensures Blank(s[|TrimRight(s)|..])
  {
    if s != "" && IsSpace(s[|s| - 1]) {
      var t := s[..|s| - 1];
      TrimRightRest(t);
      var k := |TrimRight(t)|;
      assert forall i :: 0 <= i < |t| - k ==> s[k..][i] == t[k..][i];
    }
  }

  lemma BlankTrims(s: string)
    ensures TrimSpace(s) == "" <==> Blank(s)
  {
    var a, b := TrimSplits(s);
    if TrimSpace(s) == "" {
      assert s == a + b;
    } else {
      var k := |a|;
      assert s[k] == TrimSpace(s)[0];
    }
  }

  // ----------------------------------------------------- splitting and joining

  /** strings.IndexByte, with |s| standing for "absent". */
  function IndexOf(s: string, c: char): (i: nat)
    ensures i <= |s|
    ensures forall k :: 0 <= k < i ==> s[k] != c
    ensures i < |s| ==> s[i] == c
  {
    if s == "" || s[0] == c then 0 else 1 + IndexOf(s[1..], c)
  }

  /** strings.Split and strings.SplitSeq on a one-character separator. */
  function Split(s: string, c: char): (parts: seq<string>)
    ensures |parts| > 0
    decreases |s|
  {
    var i := IndexOf(s, c);
    if i == |s| then [s] else [s[..i]] + Split(s[i + 1..], c)
  }

  /** strings.Join on a one-character separator. */
  function Join(parts: seq<string>, c: char): string {
    if parts == [] then "" else
    if |parts| == 1 then parts[0] else parts[0] + [c] + Join(parts[1..], c)
  }

  lemma IndexOfFirst(a: string, b: string, c: char)
    requires c !in a
    ensures IndexOf(a + [c] + b, c) == |a|
    ensures IndexOf(a, c) == |a|
  {
    var s := a + [c] + b;
    assert s[|a|] == c && forall k :: 0 <= k < |a| ==> s[k] == a[k] && a[k] != c;
  }

  lemma SplitFirst(a: string, b: string, c: char)
    requires c !in a
    ensures Split(a + [c] + b, c) == [a] + Split(b, c)
  {
    IndexOfFirst(a, b, c);
    var s := a + [c] + b;
    assert s[..|a|] == a && s[|a| + 1..] == b;
  }

  lemma {:induction false} SplitJoin(parts: seq<string>, c: char)
    requires parts != []
    requires forall i :: 0 <= i < |parts| ==> c !in parts[i]
    ensures Split(Join(parts, c), c) == parts
  {
    if |parts| == 1 {
      IndexOfFirst(parts[0], "", c);
    } else {
      var rest := Join(parts[1..], c);
      SplitJoin(parts[1..], c);
      SplitFirst(parts[0], rest, c);
    }
  }

  lemma {:induction false} SplitPartsLack(s: string, c: char)
    ensures forall i :: 0 <= i < |Split(s, c)| ==> c !in Split(s, c)[i]
    decreases |s|
  {
    var i := IndexOf(s, c);
    if i < |s| {
      SplitPartsLack(s[i + 1..], c);
    } else {
      assert s[..i] == s;
    }
  }

  datatype Cut = Cut(before: string, after: string, found: bool)

  /** strings.Cut, and strings.SplitN with n = 2, around the first separator. */
  function CutAt(s: string, c: char): (r: Cut)
    ensures r.found <==> c in s
    ensures r.found ==> s == r.before + [c] + r.after && c !in r.before
    ensures !r.found ==> r.before == s && r.after == ""
  {
    var i := IndexOf(s, c);
    if i < |s| then Cut(s[..i], s[i + 1..], true) else
      assert s[..i] == s;
      Cut(s, "", false)
  }

  lemma CutFirst(a: string, b: string, c: char)
    requires c !in a
    ensures CutAt(a + [c] + b, c) == Cut(a, b, true)
  {
    IndexOfFirst(a, b, c);
    var s := a + [c] + b;
    assert s[..|a|] == a && s[|a| + 1..] == b;
  }

  // ----------------------------------------------------------------- ordering

  /** Go's `<` on strings: lexicographic. */
  predicate LexLess(a: string, b: string) {
    if a == "" then b != "" else
    if b == "" then false else
    if a[0] != b[0] then a[0] < b[0] else LexLess(a[1..], b[1..])
  }

  lemma {:induction false} LexTotal(a: string, b: string)
    ensures LexLess(a, b) || LexLess(b, a) || a == b
    ensures !(LexLess(a, b) && LexLess(b, a)) && !LexLess(a, a)
  {
    if a != "" {
      LexTotal(a[1..], if b == "" then a[1..] else b[1..]);
      if b != "" && a[0] == b[0] && a[1..] == b[1..] {
        assert a == [a[0]] + a[1..] == b;
      }
    }
  }

  lemma {:induction false} LexTransitive(a: string, b: string, c: string)
    requires LexLess(a, b) && LexLess(b, c)
    ensures LexLess(a, c)
  {
    if a != "" && a[0] == b[0] == c[0] {
      LexTransitive(a[1..], b[1..], c[1..]);
    }
  }

  /** a comes before b at position i: they agree up to there, and then a ends or has the
      smaller character. */
  predicate LessAt(a: string, b: string, i: nat) {
    i <= |a| && i < |b| && a[..i] == b[..i] && (i == |a| || a[i] < b[i])
  }

  ghost predicate Less(a: string, b: string) {
    exists i: nat :: LessAt(a, b, i)
  }

  /** What comes first is told at the first difference. */
  lemma {:induction false} LexLessIff(a: string, b: string)
    ensures LexLess(a, b) <==> Less(a, b)
  {
    if a == "" {
      assert b != "" ==> LessAt(a, b, 0);
    } else if b != "" && a[0] == b[0] {
      LexLessIff(a[1..], b[1..]);
      if LexLess(a, b) {
        var i: nat :| LessAt(a[1..], b[1..], i);
        assert a[..i + 1] == [a[0]] + a[1..][..i] && b[..i + 1] == [b[0]] + b[1..][..i];
        assert LessAt(a, b, i + 1);
      }
      if Less(a, b) {
        var i: nat :| LessAt(a, b, i);
        assert i > 0 && a[1..][..i - 1] == a[..i][1..] && b[1..][..i - 1] == b[..i][1..];
        assert LessAt(a[1..], b[1..], i - 1);
      }
    } else if b != "" {
      assert a[0] < b[0] ==> LessAt(a, b, 0);
      assert forall i: nat :: 0 < i <= |a| && i <= |b| ==> a[..i][0] == a[0] && b[..i][0] == b[0];
    }
  }

  // ------------------------------------------------------------- case folding

  /** strings.EqualFold for the simple case folding `fold`, which sends each
      code point to the representative of its folding orbit. */
  predicate EqualFold(fold: char -> char, a: string, b: string) {
    |a| == |b| && forall i :: 0 <= i < |a| ==> fold(a[i]) == fold(b[i])
  }

  /** The string with every character folded. */
  function Folded(fold: char -> char, s: string): string {
    seq(|s|, i requires 0 <= i < |s| => fold(s[i]))
  }

  /** Two strings are equal under folding exactly when folding makes them equal. */
  lemma EqualFoldIff(fold: char -> char, a: string, b: string)
    ensures EqualFold(fold, a, b) <==> Folded(fold, a) == Folded(fold, b)
  {
    if Folded(fold, a) == Folded(fold, b) {
      forall i | 0 <= i < |a| ensures |a| == |b| && fold(a[i]) == fold(b[i]) {
        assert Folded(fold, a)[i] == fold(a[i]) && Folded(fold, b)[i] == fold(b[i]);
      }
      assert |Folded(fold, a)| == |Folded(fold, b)|;
    }
  }

  // ------------------------------------------------- lists of trimmed labels

  predicate NoDuplicates<T(==)>(xs: seq<T>) {
    forall i, j :: 0 <= i < j < |xs| ==> xs[i] != xs[j]
  }

  /** Trim every entry, drop the blank ones, keep the first of equal ones. */
  function Normalized(xs: seq<string>): (r: seq<string>)
    ensures NoDuplicates(r)
    ensures forall x :: x in r ==> x != "" && Trimmed(x)
    ensures forall i :: 0 <= i < |xs| && TrimSpace(xs[i]) != "" ==> TrimSpace(xs[i]) in r
    ensures forall x :: x in r ==> exists i :: 0 <= i < |xs| && TrimSpace(xs[i]) == x
  {
    if xs == [] then [] else
      var n := |xs| - 1;
      var r := Normalized(xs[..n]);
      var x := TrimSpace(xs[n]);
      assert forall i :: 0 <= i < n ==> xs[..n][i] == xs[i];
      if x == "" || x in r then r else r + [x]
  }

  /** One more turn of the loop that normalises. */
  lemma NormalizedSnoc(xs: seq<string>, x: string)
    ensures Normalized(xs + [x])
         == if TrimSpace(x) == "" || TrimSpace(x) in Normalized(xs) then Normalized(xs) else Normalized(xs) + [TrimSpace(x)]
  {
    assert (xs + [x])[..|xs|] == xs;
  }

  /** Where a label first occurs in a list. */
  ghost predicate FirstAt(xs: seq<string>, x: string, i: nat) {
    i < |xs| && TrimSpace(xs[i]) == x && forall j :: 0 <= j < i ==> TrimSpace(xs[j]) != x
  }

  /** Labels keep the order in which they first occur. */
  lemma {:induction false} NormalizedInOrder(xs: seq<string>, j: nat, k: nat) returns (m: nat, n: nat)
    requires j < k < |Normalized(xs)|
    ensures m < n && FirstAt(xs, Normalized(xs)[j], m) && FirstAt(xs, Normalized(xs)[k], n)
  {
    hide TrimSpace, Trimmed;
    var last := |xs| - 1;
    var r := Normalized(xs[..last]);
    assert forall i :: 0 <= i < last ==> xs[..last][i] == xs[i];
    if k < |r| {
      m, n := NormalizedInOrder(xs[..last], j, k);
    } else {
      m := NormalizedFirst(xs[..last], j);
      n := last;
      assert forall i :: 0 <= i < last ==> TrimSpace(xs[i]) != TrimSpace(xs[last]);
    }
  }

  lemma NormalizedFirst(xs: seq<string>, j: nat) returns (m: nat)
    requires j < |Normalized(xs)|
    ensures FirstAt(xs, Normalized(xs)[j], m)
  {
    var x := Normalized(xs)[j];
    hide TrimSpace, Normalized;
    assert x in Normalized(xs);
    m :| m < |xs| && TrimSpace(xs[m]) == x;
    m := FirstOf(xs, x, m);
  }

  lemma {:induction false} FirstOf(xs: seq<string>, x: string, n: nat) returns (m: nat)
    requires n < |xs| && TrimSpace(xs[n]) == x
    ensures FirstAt(xs, x, m)
  {
    if i: nat :| i < n && TrimSpace(xs[i]) == x {
      m := FirstOf(xs, x, i);
    } else {
      m := n;
    }
  }

  lemma {:induction false} NormalizedFixed(xs: seq<string>)
    requires NoDuplicates(xs) && forall x :: x in xs ==> x != "" && Trimmed(x)
    ensures Normalized(xs) == xs
  {
    if xs != [] {
      var n := |xs| - 1;
      assert xs == xs[..n] + [xs[n]];
      assert forall x :: x in xs[..n] ==> x in xs;
      NormalizedFixed(xs[..n]);
      TrimFixed(xs[n]);
    }
  }
}
