/** Go strings and the library calls the two programs make on them.

    A Go string is a sequence of bytes. Here it is a `string` whose every `char` stands for one
    byte; nothing below depends on a character being at most 0xFF, so each result also covers
    every byte string. */
module Strings {

  predicate IsAlnum(c: char) {
    'a' <= c <= 'z' || 'A' <= c <= 'Z' || '0' <= c <= '9'
  }

  /** The alphabet of template names, which is also the alphabet of Kubernetes label values. */
  predicate IsNameChar(c: char) {
    IsAlnum(c) || c == '.' || c == '-' || c == '_'
  }

  // ---- strings.TrimSpace ----

  /** The UTF-8 encodings of the white-space code points Go's `unicode.IsSpace` accepts. */
  predicate IsSpaceRune(r: string) {
    match |r|
    case 1 => r[0] == '\t' || r[0] == '\n' || r[0] == '\U{0B}' || r[0] == '\U{0C}' || r[0] == '\r' || r[0] == ' '
    case 2 => r[0] == '\U{C2}' && (r[1] == '\U{85}' || r[1] == '\U{A0}')
    case 3 =>
      || (r[0] == '\U{E1}' && r[1] == '\U{9A}' && r[2] == '\U{80}')
      || (r[0] == '\U{E2}' && r[1] == '\U{80}' &&
          ('\U{80}' <= r[2] <= '\U{8A}' || r[2] == '\U{A8}' || r[2] == '\U{A9}' || r[2] == '\U{AF}'))
      || (r[0] == '\U{E2}' && r[1] == '\U{81}' && r[2] == '\U{9F}')
      || (r[0] == '\U{E3}' && r[1] == '\U{80}' && r[2] == '\U{80}')
    case _ => false
  }

  /** Length in bytes of the white-space code point `s` starts with, 0 if it starts with another. */
  function LeadingSpace(s: string): nat {
    if |s| >= 1 && IsSpaceRune(s[..1]) then 1
    else if |s| >= 2 && IsSpaceRune(s[..2]) then 2
    else if |s| >= 3 && IsSpaceRune(s[..3]) then 3
    else 0
  }

  function TrailingSpace(s: string): nat {
    if |s| >= 1 && IsSpaceRune(s[|s| - 1..]) then 1
    else if |s| >= 2 && IsSpaceRune(s[|s| - 2..]) then 2
    else if |s| >= 3 && IsSpaceRune(s[|s| - 3..]) then 3
    else 0
  }

  function TrimLeftSpace(s: string): string {
    var n := LeadingSpace(s);
    if n == 0 then s else TrimLeftSpace(s[n..])
  }

  function TrimRightSpace(s: string): string {
    var n := TrailingSpace(s);
    if n == 0 then s else TrimRightSpace(s[..|s| - n])
  }

  function TrimSpace(s: string): string {
    TrimRightSpace(TrimLeftSpace(s))
  }

  /** A name byte neither starts nor ends the encoding of a white-space code point. */
  lemma NamesAreNotSpace(r: string)
    requires r != "" && (IsNameChar(r[0]) || IsNameChar(r[|r| - 1]))
    ensures !IsSpaceRune(r)
  {}

  lemma NamesHaveNoOuterSpace(s: string)
    requires s != "" && IsNameChar(s[0]) && IsNameChar(s[|s| - 1])
    ensures LeadingSpace(s) == 0 && TrailingSpace(s) == 0
  {
    hide IsSpaceRune, IsNameChar;
    forall n: nat | 1 <= n <= |s| ensures !IsSpaceRune(s[..n]) && !IsSpaceRune(s[|s| - n..]) {
      NamesAreNotSpace(s[..n]);
      NamesAreNotSpace(s[|s| - n..]);
    }
  }

  lemma TrimKeepsNames(s: string)
    requires forall c :: c in s ==> IsNameChar(c)
    ensures TrimSpace(s) == s
  {
    hide LeadingSpace, TrailingSpace, IsNameChar;
    if s == "" {
      assert LeadingSpace("") == 0 && TrailingSpace("") == 0 by { EmptyHasNoSpace(); }
    } else {
      assert s[0] in s && s[|s| - 1] in s;
      NamesHaveNoOuterSpace(s);
    }
  }

  lemma EmptyHasNoSpace()
    ensures LeadingSpace("") == 0 && TrailingSpace("") == 0
  {}

  /** A run of white-space code points. */
  predicate AllSpace(s: string)
    decreases |s|
  {
    s == "" || exists n :: 1 <= n <= 3 && n <= |s| && IsSpaceRune(s[..n]) && AllSpace(s[n..])
  }

  lemma {:induction false} TrimLeftMeaning(s: string) returns (left: string)
    ensures s == left + TrimLeftSpace(s) && AllSpace(left) && LeadingSpace(TrimLeftSpace(s)) == 0
  {
    var n := LeadingSpace(s);
    LeadingIsSpace(s);
    hide IsSpaceRune, LeadingSpace, AllSpace;
    if n == 0 {
      left := "";
      NoSpace();
      assert "" + s == s;
    } else {
      var head, tail := s[..n], s[n..];
      assert s == head + tail;
      assert TrimLeftSpace(s) == TrimLeftSpace(tail);
      hide TrimLeftSpace;
      var rest := TrimLeftMeaning(tail);
      left := head + rest;
      OneSpace(head);
      AllSpaceJoins(head, rest);
      Regroup(head, rest, TrimLeftSpace(tail));
    }
  }

  lemma Regroup(a: string, b: string, c: string)
    ensures a + b + c == a + (b + c)
  {}

  lemma LeadingIsSpace(s: string)
    ensures var n := LeadingSpace(s);
      n <= 3 && n <= |s| && (n > 0 ==> IsSpaceRune(s[..n]))
  {
    hide IsSpaceRune;
  }

  lemma {:induction false} AllSpaceJoins(a: string, b: string)
    requires AllSpace(a) && AllSpace(b)
    ensures AllSpace(a + b)
    decreases |a|
  {
    hide IsSpaceRune;
    if a == "" {
      assert a + b == b;
    } else {
      var n :| 1 <= n <= 3 && n <= |a| && IsSpaceRune(a[..n]) && AllSpace(a[n..]);
      AllSpaceJoins(a[n..], b);
      assert (a + b)[..n] == a[..n] && (a + b)[n..] == a[n..] + b;
    }
  }

  lemma OneSpace(r: string)
    requires 1 <= |r| <= 3 && IsSpaceRune(r)
    ensures AllSpace(r)
  {
    hide IsSpaceRune;
    assert r[..|r|] == r && AllSpace(r[|r|..]);
  }

  lemma {:induction false} TrimRightMeaning(s: string) returns (right: string)
    ensures s == TrimRightSpace(s) + right && AllSpace(right) && TrailingSpace(TrimRightSpace(s)) == 0
  {
    var n := TrailingSpace(s);
    TrailingIsSpace(s);
    hide IsSpaceRune, AllSpace, TrailingSpace;
    if n == 0 {
      right := "";
      NoSpace();
      assert s + "" == s;
    } else {
      var init, last := s[..|s| - n], s[|s| - n..];
      var rest := TrimRightMeaning(init);
      right := rest + last;
      OneSpace(last);
      AllSpaceJoins(rest, last);
      assert TrimRightSpace(s) == TrimRightSpace(init);
      assert s == init + last;
      assert TrimRightSpace(init) + right == (TrimRightSpace(init) + rest) + last;
    }
  }

  lemma TrailingIsSpace(s: string)
    ensures var n := TrailingSpace(s);
      n <= 3 && n <= |s| && (n > 0 ==> IsSpaceRune(s[|s| - n..]))
  {
    hide IsSpaceRune;
  }

  lemma NoSpace()
    ensures AllSpace("")
  {}

  /** Trimming takes white-space code points off both ends, nothing else, and as many as there are on the
      right once those on the left are gone. */
  lemma TrimMeaning(s: string) returns (left: string, right: string)
    ensures s == left + TrimSpace(s) + right && AllSpace(left) && AllSpace(right)
    ensures TrailingSpace(TrimSpace(s)) == 0 && LeadingSpace(TrimSpace(s) + right) == 0
  {
    hide AllSpace, LeadingSpace, TrailingSpace, TrimLeftSpace, TrimRightSpace;
    var inner := TrimLeftSpace(s);
    left := TrimLeftMeaning(s);
    right := TrimRightMeaning(inner);
    assert left + TrimSpace(s) + right == left + (TrimSpace(s) + right);
  }

  // ---- strings.Split and strings.Join with a one-byte separator ----

  function Split(s: string, sep: char): (parts: seq<string>)
    ensures |parts| > 0
  {
    if s == "" then [""]
    else
      var rest := Split(s[1..], sep);
      if s[0] == sep then [""] + rest else [[s[0]] + rest[0]] + rest[1..]
  }

  function Join(parts: seq<string>, sep: char): string {
    if |parts| == 0 then ""
    else if |parts| == 1 then parts[0]
    else parts[0] + [sep] + Join(parts[1..], sep)
  }

  lemma {:induction false} SplitWithoutSep(s: string, sep: char)
    requires sep !in s
    ensures Split(s, sep) == [s]
  {
    if s != "" {
      SplitWithoutSep(s[1..], sep);
      assert [s[0]] + s[1..] == s;
    }
  }

  lemma {:induction false} SplitAtSep(head: string, rest: string, sep: char)
    requires sep !in head
    ensures Split(head + [sep] + rest, sep) == [head] + Split(rest, sep)
  {
    var s := head + [sep] + rest;
    if head == "" {
      assert s[1..] == rest;
    } else {
      SplitAtSep(head[1..], rest, sep);
      assert s[1..] == head[1..] + [sep] + rest;
      assert [s[0]] + head[1..] == head;
    }
  }

  lemma {:induction false} SplitJoin(parts: seq<string>, sep: char)
    requires |parts| > 0
    requires forall p :: p in parts ==> sep !in p
    ensures Split(Join(parts, sep), sep) == parts
  {
    if |parts| == 1 {
      SplitWithoutSep(parts[0], sep);
    } else {
      SplitAtSep(parts[0], Join(parts[1..], sep), sep);
      SplitJoin(parts[1..], sep);
    }
  }

  /** Splitting loses nothing, and no part contains the separator. */
  lemma {:induction false} SplitMeaning(s: string, sep: char)
    ensures var parts := Split(s, sep);
      Join(parts, sep) == s && forall i :: 0 <= i < |parts| ==> sep !in parts[i]
  {
    if s != "" {
      SplitMeaning(s[1..], sep);
      var rest := Split(s[1..], sep);
      assert s == [s[0]] + s[1..];
      if s[0] == sep {
        assert ([""] + rest)[1..] == rest;
      } else if |rest| > 1 {
        assert ([[s[0]] + rest[0]] + rest[1..])[1..] == rest[1..];
        assert [s[0]] + rest[0] + [sep] + Join(rest[1..], sep) == [s[0]] + (rest[0] + [sep] + Join(rest[1..], sep));
      }
    }
  }

  // ---- sort.Strings: the byte-wise order and a stable sort by it ----

  predicate Leq(a: string, b: string) {
    a == "" || (b != "" && (a[0] < b[0] || (a[0] == b[0] && Leq(a[1..], b[1..]))))
  }

  lemma {:induction false} LeqTotal(a: string, b: string)
    ensures Leq(a, b) || Leq(b, a)
  {
    if a != "" && b != "" { LeqTotal(a[1..], b[1..]); }
  }

  lemma {:induction false} LeqAntisymmetric(a: string, b: string)
    requires Leq(a, b) && Leq(b, a)
    ensures a == b
  {
    if a != "" && b != "" {
      LeqAntisymmetric(a[1..], b[1..]);
      assert a == [a[0]] + a[1..] && b == [b[0]] + b[1..];
    }
  }

  lemma {:induction false} LeqTransitive(a: string, b: string, c: string)
    requires Leq(a, b) && Leq(b, c)
    ensures Leq(a, c)
  {
    if a != "" && a[0] == b[0] == c[0] { LeqTransitive(a[1..], b[1..], c[1..]); }
  }

  /** The order is decided at the first byte that differs; a prefix comes first. */
  lemma {:induction false} LeqMeaning(a: string, b: string)
    ensures Leq(a, b) <==> a <= b || exists n :: 0 <= n < |a| && n < |b| && a[..n] == b[..n] && a[n] < b[n]
  {
    if a != "" && b != "" && a[0] == b[0] {
      LeqMeaning(a[1..], b[1..]);
      assert a == [a[0]] + a[1..] && b == [b[0]] + b[1..];
      if n :| 0 <= n < |a| && n < |b| && a[..n] == b[..n] && a[n] < b[n] {
        assert a[1..][..n - 1] == a[..n][1..] && b[1..][..n - 1] == b[..n][1..] && a[1..][n - 1] < b[1..][n - 1];
      }
      if n :| 0 <= n < |a| - 1 && n < |b| - 1 && a[1..][..n] == b[1..][..n] && a[1..][n] < b[1..][n] {
        assert a[..n + 1] == [a[0]] + a[1..][..n] && b[..n + 1] == [b[0]] + b[1..][..n] && a[n + 1] < b[n + 1];
      }
    } else if a != "" && b != "" {
      forall n: nat ensures SameUpTo(a, b, n) ==> a[0] == b[0] { SameHead(a, b, n); }
      assert a[0] < b[0] ==> a[..0] == b[..0];
    }
  }

  predicate SameUpTo(a: string, b: string, n: nat) {
    0 < n <= |a| && n <= |b| && a[..n] == b[..n]
  }

  lemma SameHead(a: string, b: string, n: nat)
    ensures SameUpTo(a, b, n) ==> a[0] == b[0]
  {
    if SameUpTo(a, b, n) { assert a[..n][0] == b[..n][0]; }
  }

  predicate Ordered(s: seq<string>) {
    forall i, j :: 0 <= i < j < |s| ==> Leq(s[i], s[j])
  }

  predicate Distinct<T(==)>(s: seq<T>) {
    forall i, j :: 0 <= i < j < |s| ==> s[i] != s[j]
  }

  function Insert(x: string, s: seq<string>): (r: seq<string>)
    requires Ordered(s)
    ensures Ordered(r) && multiset(r) == multiset(s) + multiset{x}
  {
    if s == [] then [x]
    else if Leq(x, s[0]) then
      assert forall j :: 1 <= j < |s| ==> Leq(x, s[j]) by {
        forall j | 1 <= j < |s| ensures Leq(x, s[j]) { LeqTransitive(x, s[0], s[j]); }
      }
      [x] + s
    else
      LeqTotal(x, s[0]);
      var tail := Insert(x, s[1..]);
      assert s == [s[0]] + s[1..];
      assert forall j :: 0 <= j < |tail| ==> Leq(s[0], tail[j]) by {
        forall j | 0 <= j < |tail| ensures Leq(s[0], tail[j]) {
          assert tail[j] in multiset(tail);
          assert tail[j] == x || tail[j] in s[1..];
        }
      }
      [s[0]] + tail
  }

  function Sort(s: seq<string>): (r: seq<string>)
    ensures Ordered(r) && multiset(r) == multiset(s)
  {
    if s == [] then []
    else
      assert s == s[..|s| - 1] + [s[|s| - 1]];
      Insert(s[|s| - 1], Sort(s[..|s| - 1]))
  }

  lemma SortKeepsElements(s: seq<string>)
    ensures |Sort(s)| == |s|
    ensures forall x :: x in Sort(s) <==> x in s
    ensures Distinct(s) ==> Distinct(Sort(s))
  {
    var r := Sort(s);
    assert |multiset(r)| == |multiset(s)|;
    forall x ensures x in r <==> x in s {
      assert x in r <==> x in multiset(r);
      assert x in s <==> x in multiset(s);
    }
    if Distinct(s) {
      forall i, j | 0 <= i < j < |r| ensures r[i] != r[j] {
        if r[i] == r[j] {
          CountTwice(r, i, j);
          CountOnce(s, r[i]);
        }
      }
    }
  }

  lemma CountTwice<T>(s: seq<T>, i: nat, j: nat)
    requires i < j < |s| && s[i] == s[j]
    ensures multiset(s)[s[i]] >= 2
  {
    assert s == s[..j] + s[j..];
    assert s[i] == s[..j][i] && s[j] == s[j..][0];
    assert s[i] in multiset(s[..j]) && s[j] in multiset(s[j..]);
  }

  lemma {:induction false} CountOnce<T>(s: seq<T>, x: T)
    requires Distinct(s)
    ensures multiset(s)[x] <= 1
  {
    if |s| > 0 {
      CountOnce(s[1..], x);
      assert s == [s[0]] + s[1..];
      if s[0] == x { assert x !in s[1..]; }
    }
  }

  lemma HeadIsIn<T>(s: seq<T>)
    ensures s != [] ==> s[0] in s
  {}

  lemma NoElements<T>(a: seq<T>, b: seq<T>)
    requires |a| == 0 && forall x :: x in b ==> x in a
    ensures b == []
  {
    if b != [] {
      HeadIsIn(b);
      assert false;
    }
  }

  /** A duplicate-free sorted list is determined by its elements. */
  lemma {:induction false} OrderedDistinctUnique(a: seq<string>, b: seq<string>)
    requires Ordered(a) && Ordered(b) && Distinct(a) && Distinct(b)
    requires forall x :: x in a <==> x in b
    ensures a == b
  {
    if |a| == 0 || |b| == 0 {
      if |a| == 0 { NoElements(a, b); } else { NoElements(b, a); }
    } else {
      assert a[0] == b[0] by {
        assert a[0] in b && b[0] in a;
        var i :| 0 <= i < |b| && b[i] == a[0];
        var j :| 0 <= j < |a| && a[j] == b[0];
        if i != 0 && j != 0 { LeqAntisymmetric(a[0], b[0]); }
      }
      forall x ensures x in a[1..] <==> x in b[1..] {
        assert a == [a[0]] + a[1..] && b == [b[0]] + b[1..];
        if x in a[1..] { assert x in b && x != a[0]; }
        if x in b[1..] { assert x in a && x != b[0]; }
      }
      OrderedDistinctUnique(a[1..], b[1..]);
    }
  }
}
