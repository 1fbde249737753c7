/** The pieces of Rust's `str` and slice API that the studio's parsers are
    written with: searching, prefix and suffix tests, `split`, `splitn(2, _)`,
    `replace`, `trim`, integer parsing and decimal formatting. Sequences of
    any element type serve both `&str` (as `seq<char>`) and `&[u8]`. */
module Text {
  import opened Base

  predicate StartsWith<T(==)>(s: seq<T>, p: seq<T>)
  {
    |p| <= |s| && s[..|p|] == p
  }

  predicate EndsWith<T(==)>(s: seq<T>, p: seq<T>)
  {
    |p| <= |s| && s[|s| - |p|..] == p
  }

  /** The text p occurs in s at position i. */
  predicate OccursAt<T(==)>(s: seq<T>, p: seq<T>, i: nat)
  {
    i + |p| <= |s| && s[i..i + |p|] == p
  }

  /** The first position at or after i where p occurs. */
  function FindFrom<T(==)>(s: seq<T>, p: seq<T>, i: nat): (r: Option<nat>)
    ensures r.Some? ==> i <= r.value && OccursAt(s, p, r.value)
                        && forall k :: i <= k < r.value ==> !OccursAt(s, p, k)
    ensures r.None? ==> forall k :: i <= k ==> !OccursAt(s, p, k)
    decreases |s| - i
  {
    if i + |p| > |s| then None
    else if s[i..i + |p|] == p then Some(i)
    else FindFrom(s, p, i + 1)
  }

  /** `find` / `windows(..).position(..)`: the first position where p occurs;
      an empty p occurs at 0. */
  function Find<T(==)>(s: seq<T>, p: seq<T>): (r: Option<nat>)
    ensures r.Some? <==> exists k :: OccursAt(s, p, k)
    ensures r.Some? ==> OccursAt(s, p, r.value) && forall k :: 0 <= k < r.value ==> !OccursAt(s, p, k)
  {
    FindFrom(s, p, 0)
  }

  predicate Contains<T(==)>(s: seq<T>, p: seq<T>)
  {
    Find(s, p).Some?
  }

  lemma {:induction false} FindEmpty<T>(s: seq<T>)
    ensures Find(s, []) == Some(0)
  {
    assert s[0..0] == [];
  }

  /** Searching for one element: the position of its first occurrence. */
  lemma {:induction false} FindOne<T>(s: seq<T>, c: T)
    ensures Find(s, [c]).Some? <==> c in s
    ensures Find(s, [c]).Some? ==> s[Find(s, [c]).value] == c && c !in s[..Find(s, [c]).value]
  {
    if c in s {
      var k :| 0 <= k < |s| && s[k] == c;
      assert s[k..k + 1] == [c];
      assert OccursAt(s, [c], k);
    }
    var r := Find(s, [c]);
    if r.Some? {
      assert s[r.value..r.value + 1] == [c];
      assert s[r.value] == c;
      forall k | 0 <= k < r.value
        ensures s[..r.value][k] != c
      {
        assert s[k..k + 1] == [s[k]];
        assert !OccursAt(s, [c], k);
        assert s[..r.value][k] == s[k];
      }
    }
  }

  /** An occurrence in a suffix is one in the whole text, shifted. */
  lemma {:induction false} OccursAtShift<T>(s: seq<T>, p: seq<T>, i: nat, k: nat)
    requires i <= |s|
    ensures OccursAt(s[i..], p, k) <==> OccursAt(s, p, i + k)
  {
    if i + k + |p| <= |s| {
      assert s[i..][k..k + |p|] == s[i + k..i + k + |p|];
    }
  }

  /** `iter().position(..)` from i on: the first index whose element
      satisfies p(a, _). */
  function FirstWhere<A, T>(xs: seq<T>, p: (A, T) -> bool, a: A, i: nat): (r: Option<nat>)
    requires i <= |xs|
    ensures r.None? ==> forall k :: i <= k < |xs| ==> !p(a, xs[k])
    ensures r.Some? ==> (i <= r.value < |xs| && p(a, xs[r.value])
                         && forall k :: i <= k < r.value ==> !p(a, xs[k]))
    decreases |xs| - i
  {
    if i == |xs| then None
    else if p(a, xs[i]) then Some(i)
    else FirstWhere(xs, p, a, i + 1)
  }

  /** `filter_map` with a `for` loop's order: the values f gives, in order,
      where it gives one. */
  function SomeValues<T, U>(xs: seq<T>, f: T -> Option<U>): seq<U>
  {
    if |xs| == 0 then []
    else
      var y := f(xs[|xs| - 1]);
      SomeValues(xs[..|xs| - 1], f) + (if y.Some? then [y.value] else [])
  }

  /** Every value is f of some element, and there are no more values than
      elements. */
  lemma {:induction false} SomeValuesFrom<T, U>(xs: seq<T>, f: T -> Option<U>)
    ensures |SomeValues(xs, f)| <= |xs|
    ensures forall k :: 0 <= k < |SomeValues(xs, f)| ==>
      exists j :: 0 <= j < |xs| && f(xs[j]) == Some(SomeValues(xs, f)[k])
    decreases |xs|
  {
    if |xs| > 0 {
      var init := xs[..|xs| - 1];
      SomeValuesFrom(init, f);
      var r := SomeValues(xs, f);
      forall k | 0 <= k < |r|
        ensures exists j :: 0 <= j < |xs| && f(xs[j]) == Some(r[k])
      {
        if k < |SomeValues(init, f)| {
          var j :| 0 <= j < |init| && f(init[j]) == Some(SomeValues(init, f)[k]);
          assert xs[j] == init[j];
        } else {
          assert f(xs[|xs| - 1]) == Some(r[k]);
        }
      }
    }
  }

  /** When f gives a value for every element, there is one value per
      element, in order. */
  lemma {:induction false} SomeValuesAll<T, U>(xs: seq<T>, f: T -> Option<U>)
    requires forall j :: 0 <= j < |xs| ==> f(xs[j]).Some?
    ensures |SomeValues(xs, f)| == |xs|
    ensures forall j :: 0 <= j < |xs| ==> Some(SomeValues(xs, f)[j]) == f(xs[j])
    decreases |xs|
  {
    if |xs| > 0 {
      var init := xs[..|xs| - 1];
      assert forall j :: 0 <= j < |init| ==> init[j] == xs[j];
      SomeValuesAll(init, f);
    }
  }

  // ---------------------------------------------------------------------
  // split, joined back

  /** `split` on a non-empty separator: the pieces between its occurrences,
      searched left to right, and the rest after the last one. */
  function Split<T(==)>(s: seq<T>, sep: seq<T>): (r: seq<seq<T>>)
    requires |sep| > 0
    ensures |r| > 0
    decreases |s|
  {
    var f := Find(s, sep);
    if f.None? then [s] else [s[..f.value]] + Split(s[f.value + |sep|..], sep)
  }

  /** No piece of a split contains the separator. */
  lemma {:induction false} SplitPiecesFree<T>(s: seq<T>, sep: seq<T>)
    requires |sep| > 0
    ensures forall k :: 0 <= k < |Split(s, sep)| ==> !Contains(Split(s, sep)[k], sep)
    decreases |s|
  {
    SplitUnfold(s, sep);
    var f := Find(s, sep);
    if f.Some? {
      var rest := s[f.value + |sep|..];
      NoEarlierOccurrence(s, sep, f.value);
      SplitPiecesFree(rest, sep);
      var r := Split(s, sep);
      forall k | 0 <= k < |r| ensures !Contains(r[k], sep) {
        if k > 0 { assert r[k] == Split(rest, sep)[k - 1]; }
      }
    }
  }

  /** Before the first occurrence of sep there is none inside s[..i]. */
  lemma {:induction false} NoEarlierOccurrence<T>(s: seq<T>, sep: seq<T>, i: nat)
    requires |sep| > 0 && Find(s, sep) == Some(i)
    ensures !Contains(s[..i], sep)
  {
    if Contains(s[..i], sep) {
      var k := Find(s[..i], sep).value;
      assert s[..i][k..k + |sep|] == s[k..k + |sep|];
      assert OccursAt(s, sep, k);
    }
  }

  /** The pieces put back together with the separator between them. */
  function Join<T>(pieces: seq<seq<T>>, sep: seq<T>): seq<T>
  {
    if |pieces| == 0 then []
    else if |pieces| == 1 then pieces[0]
    else pieces[0] + sep + Join(pieces[1..], sep)
  }

  /** Split, one step: no occurrence gives the text itself, else the piece
      before the first occurrence and the split of the rest. */
  lemma {:induction false} SplitUnfold<T>(s: seq<T>, sep: seq<T>)
    requires |sep| > 0
    ensures Find(s, sep).None? ==> Split(s, sep) == [s]
    ensures Find(s, sep).Some? ==> (Find(s, sep).value + |sep| <= |s|
      && Split(s, sep) == [s[..Find(s, sep).value]] + Split(s[Find(s, sep).value + |sep|..], sep))
  {
  }

  /** Split at a known first occurrence i. */
  lemma {:induction false} SplitAt<T>(s: seq<T>, sep: seq<T>, i: nat)
    requires |sep| > 0 && Find(s, sep) == Some(i)
    ensures i + |sep| <= |s| && Split(s, sep) == [s[..i]] + Split(s[i + |sep|..], sep)
  {
  }

  lemma {:induction false} JoinCons<T>(a: seq<T>, pieces: seq<seq<T>>, sep: seq<T>)
    requires |pieces| > 0
    ensures Join([a] + pieces, sep) == a + sep + Join(pieces, sep)
  {
    assert ([a] + pieces)[1..] == pieces;
  }

  /** Joining the pieces of a split with its separator gives back the text. */
  lemma {:induction false} JoinSplit<T>(s: seq<T>, sep: seq<T>)
    requires |sep| > 0
    ensures Join(Split(s, sep), sep) == s
    decreases |s|
  {
    SplitUnfold(s, sep);
    var f := Find(s, sep);
    if f.Some? {
      var i := f.value;
      var rest := s[i + |sep|..];
      JoinSplit(rest, sep);
      JoinCons(s[..i], Split(rest, sep), sep);
      assert s[i..i + |sep|] == sep;
      assert s == s[..i] + sep + rest;
    }
  }

  /** The number of occurrences that a left-to-right non-overlapping scan
      finds. */
  function Occurrences<T(==)>(s: seq<T>, sep: seq<T>): nat
    requires |sep| > 0
    decreases |s|
  {
    var f := Find(s, sep);
    if f.None? then 0 else 1 + Occurrences(s[f.value + |sep|..], sep)
  }

  /** A split has one more piece than the scan finds occurrences. */
  lemma {:induction false} SplitCount<T>(s: seq<T>, sep: seq<T>)
    requires |sep| > 0
    ensures |Split(s, sep)| == Occurrences(s, sep) + 1
    decreases |s|
  {
    var f := Find(s, sep);
    if f.Some? {
      SplitCount(s[f.value + |sep|..], sep);
    }
  }

  /** A text without the separator is its own single piece. */
  lemma {:induction false} SplitAbsent<T>(s: seq<T>, sep: seq<T>)
    requires |sep| > 0 && !Contains(s, sep)
    ensures Split(s, sep) == [s]
  {
  }

  /** Splitting two texts free of c joined by one c gives back the two. */
  lemma {:induction false} SplitAroundOne<T>(a: seq<T>, c: T, b: seq<T>)
    requires c !in a && c !in b
    ensures Split(a + [c] + b, [c]) == [a, b]
  {
    var s := a + [c] + b;
    assert forall j :: 0 <= j < |a| ==> s[j] == a[j];
    FindAt(s, c, |a|);
    SplitAt(s, [c], |a|);
    assert s[..|a|] == a && s[|a| + 1..] == b;
    FindOne(b, c);
    SplitUnfold(b, [c]);
  }

  /** A text free of c, one c, then anything: the text is the first piece. */
  lemma {:induction false} SplitAfter<T>(a: seq<T>, c: T, b: seq<T>)
    requires c !in a
    ensures Split(a + [c] + b, [c]) == [a] + Split(b, [c])
  {
    var s := a + [c] + b;
    assert forall j :: 0 <= j < |a| ==> s[j] == a[j];
    FindAt(s, c, |a|);
    SplitAt(s, [c], |a|);
    assert s[..|a|] == a && s[|a| + 1..] == b;
  }

  /** The search from k for one element stops at the first i at or after k
      that holds it. */
  lemma {:induction false} FindFromAt<T>(s: seq<T>, c: T, k: nat, i: nat)
    requires k <= i < |s| && s[i] == c && forall j :: k <= j < i ==> s[j] != c
    ensures FindFrom(s, [c], k) == Some(i)
    decreases i - k
  {
    assert s[k..k + 1] == [s[k]];
    if k < i {
      FindFromAt(s, c, k + 1, i);
    }
  }

  /** An element found at i with none before it is found at i. */
  lemma {:induction false} FindAt<T>(s: seq<T>, c: T, i: nat)
    requires i < |s| && s[i] == c && forall j :: 0 <= j < i ==> s[j] != c
    ensures Find(s, [c]) == Some(i)
  {
    FindFromAt(s, c, 0, i);
  }

  /** Splitting on one element, one element at a time: a leading c ends an
      empty first piece, any other leading element starts the first piece. */
  lemma {:induction false} SplitOneCons<T>(s: seq<T>, c: T)
    requires |s| > 0
    ensures s[0] == c ==> Split(s, [c]) == [[]] + Split(s[1..], [c])
    ensures s[0] != c ==> (Split(s, [c])
      == [[s[0]] + Split(s[1..], [c])[0]] + Split(s[1..], [c])[1..])
  {
    if s[0] == c {
      FindAt(s, c, 0);
      SplitAt(s, [c], 0);
    } else if c in s {
      SplitOneLater(s, c);
    } else {
      SplitOneAbsent(s, c);
      assert [s[0]] + s[1..] == s;
    }
  }

  lemma {:induction false} SplitOneAbsent<T>(s: seq<T>, c: T)
    requires |s| > 0 && c !in s
    ensures Split(s, [c]) == [s] && Split(s[1..], [c]) == [s[1..]]
  {
    var t := s[1..];
    assert c !in t;
    FindOne(s, c);
    FindOne(t, c);
    SplitUnfold(s, [c]);
    SplitUnfold(t, [c]);
  }

  lemma {:induction false} SplitOneLater<T>(s: seq<T>, c: T)
    requires |s| > 0 && s[0] != c && c in s
    ensures Split(s, [c]) == [[s[0]] + Split(s[1..], [c])[0]] + Split(s[1..], [c])[1..]
  {
    var t := s[1..];
    FindOne(s, c);
    var i := Find(s, [c]).value;
    assert i >= 1;
    assert forall j :: 0 <= j < i - 1 ==> t[j] == s[..i][j + 1];
    FindAt(t, c, i - 1);
    SplitAt(s, [c], i);
    SplitAt(t, [c], i - 1);
    assert s[..i] == [s[0]] + t[..i - 1];
    assert s[i + 1..] == t[i..];
  }

  /** `splitn(2, c)`: the text before the first c, and the rest after it if
      there is a c. */
  function SplitOnce<T(==)>(s: seq<T>, c: T): (r: (seq<T>, Option<seq<T>>))
    ensures r.1.None? <==> c !in s
    ensures c !in r.0
    ensures r.1.Some? ==> s == r.0 + [c] + r.1.value
    ensures r.1.None? ==> r.0 == s
  {
    FindOne(s, c);
    var f := Find(s, [c]);
    if f.None? then (s, None) else (s[..f.value], Some(s[f.value + 1..]))
  }

  /** A part free of c, one c and a rest split back into the part and the
      rest. */
  lemma {:induction false} SplitOnceOf<T>(a: seq<T>, c: T, b: seq<T>)
    requires c !in a
    ensures SplitOnce(a + [c] + b, c) == (a, Some(b))
  {
    var s := a + [c] + b;
    assert s[|a|] == c;
    var r := SplitOnce(s, c);
    var x, y := r.0, r.1.value;
    assert s == x + [c] + y;
    if |x| < |a| {
      assert false;
    }
    if |x| > |a| {
      assert false;
    }
    assert x == s[..|a|] == a;
    assert y == s[|a| + 1..] == b;
  }

  // ---------------------------------------------------------------------
  // replace

  /** `replace`: every occurrence of a non-empty `from`, found left to right
      without overlap, replaced by `to`. */
  function Replace<T(==)>(s: seq<T>, from: seq<T>, to: seq<T>): (r: seq<T>)
    requires |from| > 0
    ensures !Contains(s, from) ==> r == s
    decreases |s|
  {
    var f := Find(s, from);
    if f.None? then s else s[..f.value] + to + Replace(s[f.value + |from|..], from, to)
  }

  /** A text with one occurrence of `from`, none of whose elements before
      it starts `from`: that occurrence is replaced and nothing else. */
  lemma {:induction false} ReplaceOne<T>(a: seq<T>, from: seq<T>, b: seq<T>, to: seq<T>)
    requires |from| > 0 && from[0] !in a && !Contains(b, from)
    ensures Replace(a + from + b, from, to) == a + to + b
  {
    var s := a + from + b;
    assert s[|a|..|a| + |from|] == from;
    forall k | 0 <= k < |a| ensures !OccursAt(s, from, k) {
      assert s[k] == a[k];
      if k + |from| <= |s| { assert s[k..k + |from|][0] == s[k]; }
    }
    FindFirstAt(s, from, 0, |a|);
    assert s[..|a|] == a && s[|a| + |from|..] == b;
  }

  /** An occurrence at i with none from k up to i is the one found from k. */
  lemma {:induction false} FindFirstAt<T>(s: seq<T>, p: seq<T>, k: nat, i: nat)
    requires k <= i && OccursAt(s, p, i) && forall j :: k <= j < i ==> !OccursAt(s, p, j)
    ensures FindFrom(s, p, k) == Some(i)
    decreases i - k
  {
    if k < i {
      FindFirstAt(s, p, k + 1, i);
    }
  }

  /** Each c replaced by `to`, element by element. */
  function Subst<T(==)>(s: seq<T>, c: T, to: seq<T>): seq<T>
    decreases |s|
  {
    if |s| == 0 then [] else (if s[0] == c then to else [s[0]]) + Subst(s[1..], c, to)
  }

  lemma {:induction false} SubstAppend<T>(a: seq<T>, b: seq<T>, c: T, to: seq<T>)
    ensures Subst(a + b, c, to) == Subst(a, c, to) + Subst(b, c, to)
    decreases |a|
  {
    if |a| > 0 {
      assert (a + b)[1..] == a[1..] + b;
      SubstAppend(a[1..], b, c, to);
    } else {
      assert a + b == b;
    }
  }

  lemma {:induction false} SubstOne<T>(x: T, c: T, to: seq<T>)
    ensures Subst([x], c, to) == if x == c then to else [x]
  {
    assert [x][1..] == [];
  }

  lemma {:induction false} SubstAbsent<T>(a: seq<T>, c: T, to: seq<T>)
    requires c !in a
    ensures Subst(a, c, to) == a
    decreases |a|
  {
    if |a| > 0 {
      SubstAbsent(a[1..], c, to);
    }
  }

  /** `replace` of one element is the element-by-element substitution. */
  lemma {:induction false} ReplaceIsSubst<T>(s: seq<T>, c: T, to: seq<T>)
    ensures Replace(s, [c], to) == Subst(s, c, to)
    decreases |s|
  {
    FindOne(s, c);
    var f := Find(s, [c]);
    if f.None? {
      SubstAbsent(s, c, to);
    } else {
      var i := f.value;
      var rest := s[i + 1..];
      ReplaceIsSubst(rest, c, to);
      assert s == s[..i] + [c] + rest;
      SubstAppend(s[..i] + [c], rest, c, to);
      SubstAppend(s[..i], [c], c, to);
      SubstAbsent(s[..i], c, to);
      assert Subst([c], c, to) == to;
    }
  }

  /** Replacing one element with a text that does not contain it leaves no
      occurrence of it. */
  lemma {:induction false} ReplaceRemoves<T>(s: seq<T>, c: T, to: seq<T>)
    requires c !in to
    ensures c !in Replace(s, [c], to)
    decreases |s|
  {
    FindOne(s, c);
    var f := Find(s, [c]);
    if f.Some? {
      var i := f.value;
      var rest := s[i + 1..];
      ReplaceRemoves(rest, c, to);
      var tail := Replace(rest, [c], to);
      assert Replace(s, [c], to) == s[..i] + to + tail;
    }
  }

  /** An element that neither the text nor the replacement contains is not
      brought in by the replacement. */
  lemma {:induction false} ReplaceKeepsAbsent<T>(s: seq<T>, from: seq<T>, to: seq<T>, c: T)
    requires |from| > 0 && c !in s && c !in to
    ensures c !in Replace(s, from, to)
    decreases |s|
  {
    var f := Find(s, from);
    if f.Some? {
      var i := f.value;
      var rest := s[i + |from|..];
      assert s == s[..i] + s[i..i + |from|] + rest;
      ReplaceKeepsAbsent(rest, from, to, c);
      var tail := Replace(rest, from, to);
      assert Replace(s, from, to) == s[..i] + to + tail;
    }
  }

  // ---------------------------------------------------------------------
  // trim

  /** Unicode's White_Space property, which `char::is_whitespace` and `trim`
      test. */
  predicate IsWhitespace(c: char)
  {
    var n := c as int;
    (9 <= n <= 13) || n == 0x20 || n == 0x85 || n == 0xA0 || n == 0x1680
    || (0x2000 <= n <= 0x200A) || n == 0x2028 || n == 0x2029 || n == 0x202F
    || n == 0x205F || n == 0x3000
  }

  function TrimStart(s: string): (r: string)
    ensures |r| <= |s| && EndsWith(s, r)
    ensures |r| > 0 ==> !IsWhitespace(r[0])
    ensures forall k :: 0 <= k < |s| - |r| ==> IsWhitespace(s[k])
  {
    if |s| > 0 && IsWhitespace(s[0]) then TrimStart(s[1..]) else s
  }

  function TrimEnd(s: string): (r: string)
    ensures |r| <= |s| && StartsWith(s, r)
    ensures |r| > 0 ==> !IsWhitespace(r[|r| - 1])
    ensures forall k :: |r| <= k < |s| ==> IsWhitespace(s[k])
  {
    if |s| > 0 && IsWhitespace(s[|s| - 1]) then TrimEnd(s[..|s| - 1]) else s
  }

  /** `trim`: the text without its leading and trailing white space. */
  function Trim(s: string): (r: string)
    ensures |r| <= |s|
    ensures |r| > 0 ==> !IsWhitespace(r[0]) && !IsWhitespace(r[|r| - 1])
    ensures (forall k :: 0 <= k < |s| ==> !IsWhitespace(s[k])) ==> r == s
  {
    TrimEnd(TrimStart(s))
  }

  /** A text that neither starts nor ends with white space is its own trim. */
  lemma {:induction false} TrimPlain(s: string)
    requires |s| > 0 && !IsWhitespace(s[0]) && !IsWhitespace(s[|s| - 1])
    ensures Trim(s) == s
  {
    assert TrimStart(s) == s;
    assert TrimEnd(s) == s;
  }

  /** One leading space before such a text: trimming removes just the
      space. */
  lemma {:induction false} TrimLeadingSpace(s: string)
    requires |s| > 0 && !IsWhitespace(s[0]) && !IsWhitespace(s[|s| - 1])
    ensures Trim([' '] + s) == s
  {
    var p := [' '] + s;
    assert p[1..] == s;
    assert TrimStart(s) == s;
    assert TrimStart(p) == s;
    assert TrimEnd(s) == s;
  }

  // ---------------------------------------------------------------------
  // Integers in decimal

  predicate IsDigit(c: char) { '0' <= c <= '9' }

  function DigitValue(c: char): nat
    requires IsDigit(c)
  {
    c as int - '0' as int
  }

  /** The value of a string of decimal digits, most significant first. */
  function DigitsValue(s: string): nat
    requires forall k :: 0 <= k < |s| ==> IsDigit(s[k])
  {
    if |s| == 0 then 0 else 10 * DigitsValue(s[..|s| - 1]) + DigitValue(s[|s| - 1])
  }

  /** `str::parse` for an unsigned integer type whose largest value is max:
      an optional `+`, then at least one ASCII digit and nothing else, with
      a value not above max. */
  function ParseUnsigned(s: string, max: nat): (r: Option<nat>)
    ensures r.Some? ==> r.value <= max
  {
    var digits := if |s| > 0 && s[0] == '+' then s[1..] else s;
    if |digits| == 0 || exists k :: 0 <= k < |digits| && !IsDigit(digits[k]) then None
    else if DigitsValue(digits) > max then None
    else Some(DigitsValue(digits))
  }

  /** `parse::<usize>()`. */
  function ParseUsize(s: string): Option<nat>
  {
    ParseUnsigned(s, USIZE_MAX)
  }

  /** `parse::<u8>()`. */
  function ParseU8(s: string): Option<nat>
  {
    ParseUnsigned(s, 255)
  }

  /** `to_string()` of an unsigned integer: its decimal digits without
      leading zeros. */
  function NatToString(n: nat): (r: string)
    ensures |r| > 0 && forall k :: 0 <= k < |r| ==> IsDigit(r[k])
    ensures DigitsValue(r) == n
    ensures |r| > 1 ==> r[0] != '0'
  {
    var d := [(n % 10 + '0' as int) as char];
    if n < 10 then d
    else
      var r := NatToString(n / 10) + d;
      assert r[..|r| - 1] == NatToString(n / 10);
      r
  }

  /** Formatting and parsing agree: what `to_string` writes, `parse` reads
      back. */
  lemma {:induction false} ParseNatToString(n: nat, max: nat)
    requires n <= max
    ensures ParseUnsigned(NatToString(n), max) == Some(n)
  {
    var s := NatToString(n);
    assert s[0] != '+';
  }

  /** Two values have the same decimal text only when they are equal. */
  lemma {:induction false} NatToStringInjective(a: nat, b: nat)
    requires NatToString(a) == NatToString(b)
    ensures a == b
  {
  }
}
