/** studio/render.rs: the one page template of the studio, its `{{TOKEN}}`
    placeholders, and the safety net that blanks those left unfilled. */
module Render {
  import opened Base
  import opened Text

  /** `Page`: the five tabs, in the order of their discriminants. */
  datatype Page = Architect | Dataset | Train | Evaluate | Test

  /** `page as u8`. */
  function Discriminant(p: Page): (r: nat)
    ensures r < 5
  {
    match p
    case Architect => 0
    case Dataset => 1
    case Train => 2
    case Evaluate => 3
    case Test => 4
  }

  /** Distinct tabs have distinct discriminants. */
  lemma {:induction false} DiscriminantInjective(p: Page, q: Page)
    requires Discriminant(p) == Discriminant(q)
    ensures p == q
  {
  }

  /** The text of `page as u8` is one digit, `'0'` to `'4'`. */
  lemma {:induction false} DiscriminantText(p: Page)
    ensures NatToString(Discriminant(p)) == [('0' as int + Discriminant(p)) as char]
  {
  }

  /** Two c characters in a row start at k: `{{` for c = `{`, `}}` for
      c = `}`. */
  predicate PairAt(s: string, c: char, k: int)
  {
    0 <= k && k + 1 < |s| && s[k] == c && s[k + 1] == c
  }

  /** A pair is an occurrence of the two-character text. */
  lemma {:induction false} PairAtOccurs(s: string, c: char, k: nat)
    ensures PairAt(s, c, k) <==> OccursAt(s, [c, c], k)
  {
    if k + 2 <= |s| {
      assert s[k..k + 2] == [s[k], s[k + 1]];
    }
  }

  /** `find` for a pair from i on. */
  function FindPair(s: string, c: char, i: nat): (r: Option<nat>)
    requires i <= |s|
    ensures r.Some? ==> (i <= r.value && PairAt(s, c, r.value)
                         && forall k :: i <= k < r.value ==> !PairAt(s, c, k))
    ensures r.None? ==> forall k :: i <= k < |s| ==> !PairAt(s, c, k)
    decreases |s| - i
  {
    if i + 1 >= |s| then None
    else if s[i] == c && s[i + 1] == c then Some(i)
    else FindPair(s, c, i + 1)
  }

  /** Some `{{` is followed, at or after it, by a `}}`. */
  predicate HasPlaceholder(s: string)
  {
    exists k, m :: 0 <= k <= m < |s| && PairAt(s, '{', k) && PairAt(s, '}', m)
  }

  /** The span one pass of `blank_remaining` deletes: from the first `{{`
      through the end of the first `}}` after it. */
  function Span(html: string): (r: Option<(nat, nat)>)
    ensures r.None? <==> !HasPlaceholder(html)
    ensures r.Some? ==> (r.value.0 + 4 <= r.value.1 <= |html|
      && PairAt(html, '{', r.value.0) && PairAt(html, '}', r.value.1 - 2)
      && (forall k :: 0 <= k < r.value.0 ==> !PairAt(html, '{', k))
      && (forall k :: r.value.0 <= k < r.value.1 - 2 ==> !PairAt(html, '}', k)))
  {
    var open := FindPair(html, '{', 0);
    if open.None? then None
    else
      var i := open.value;
      var close := FindPair(html, '}', i);
      if close.None? then None
      else
        var m := close.value;
        assert m != i && m != i + 1;
        Some((i, m + 2))
  }

  /** One pass: the span deleted, or nothing to do. */
  function BlankPass(html: string): (r: Option<string>)
    ensures r.None? <==> !HasPlaceholder(html)
    ensures r.Some? ==> |r.value| + 4 <= |html|
  {
    match Span(html)
    case None => None
    case Some((i, j)) => Some(html[..i] + html[j..])
  }

  /** What `blank_remaining` returns: passes until none applies. */
  function Blanked(html: string): (r: string)
    ensures |r| <= |html|
    decreases |html|
  {
    match BlankPass(html)
    case None => html
    case Some(h) => Blanked(h)
  }

  /** `blank_remaining`: the while loop deleting one span per pass, in place. */
  method BlankRemaining(html: string) returns (r: string)
    ensures r == Blanked(html)
  {
    r := html;
    while true
      invariant Blanked(r) == Blanked(html)
      decreases |r|
    {
      var open := FindPair(r, '{', 0);
      if open.None? {
        return;
      }
      var start := open.value;
      var close := FindPair(r, '}', start);
      if close.None? {
        return;
      }
      var absEnd := close.value + 2;
      r := r[..start] + r[absEnd..];
    }
  }

  /** The result holds no `{{` followed by a `}}`. */
  lemma {:induction false} BlankedClean(html: string)
    ensures !HasPlaceholder(Blanked(html))
    decreases |html|
  {
    var p := BlankPass(html);
    if p.Some? {
      BlankedClean(p.value);
    }
  }

  /** A text without placeholders, one without any `{{` in particular, comes
      back unchanged; so blanking twice is blanking once. */
  lemma {:induction false} BlankedUnchanged(html: string)
    ensures !HasPlaceholder(html) ==> Blanked(html) == html
    ensures !Contains(html, "{{") ==> Blanked(html) == html
    ensures Blanked(Blanked(html)) == Blanked(html)
  {
    assert "{{" == ['{', '{'];
    if !Contains(html, "{{") {
      forall k | 0 <= k < |html| ensures !PairAt(html, '{', k) {
        PairAtOccurs(html, '{', k);
      }
    }
    BlankedClean(html);
  }

  /** Every pass removes at least the four characters of `{{}}`, so a text
      with a placeholder gets strictly shorter. */
  lemma {:induction false} BlankedShortens(html: string)
    requires HasPlaceholder(html)
    ensures |Blanked(html)| + 4 <= |html|
  {
  }

  /** A `{{` with no `}}` after it is kept, with everything after it: a text
      free of `{`, then an unclosed `{{` and a rest free of `}`, comes back
      whole. */
  lemma {:induction false} BlankedKeepsUnclosed(a: string, b: string)
    requires '{' !in a && '}' !in b
    ensures Blanked(a + ['{', '{'] + b) == a + ['{', '{'] + b
  {
    var s := a + ['{', '{'] + b;
    var n := |a|;
    assert s[n] == '{' && s[n + 1] == '{';
    forall k | 0 <= k < n ensures !PairAt(s, '{', k) {
      assert s[k] == a[k];
    }
    forall m | n + 2 <= m < |s| ensures !PairAt(s, '}', m) {
      assert s[m] == b[m - n - 2];
    }
  }

  /** A token between two texts free of braces is cut out with its braces. */
  lemma {:induction false} BlankedToken(a: string, t: string, b: string)
    requires '{' !in a && '}' !in a && '{' !in t && '}' !in t && '{' !in b && '}' !in b
    ensures Blanked(a + ['{', '{'] + t + ['}', '}'] + b) == a + b
  {
    var s := a + ['{', '{'] + t + ['}', '}'] + b;
    var i := |a|;
    var j := |a| + |t| + 4;
    assert PairAt(s, '{', i) && PairAt(s, '}', j - 2);
    assert HasPlaceholder(s);
    var span := Span(s).value;
    forall k | 0 <= k < i ensures !PairAt(s, '{', k) {
      assert s[k] == a[k];
    }
    assert s[i] == '{' && s[i + 1] == '{';
    forall c | i + 2 <= c < j - 2 ensures !PairAt(s, '}', c) {
      assert s[c] == t[c - i - 2];
    }
    assert s[..i] + s[j..] == a + b;
    var r := a + b;
    forall k | 0 <= k < |r| ensures !PairAt(r, '{', k) {
      if k < i { assert r[k] == a[k]; } else { assert r[k] == b[k - i]; }
    }
  }

  /** The global tokens, filled before the page's own: the tab mask, the
      active tab's discriminant and whether training runs. */
  function FillGlobals(template: string, page: Page, tabUnlock: Byte, running: bool): string
  {
    var h := Replace(template, "{{TAB_UNLOCK}}", NatToString(tabUnlock));
    var h := Replace(h, "{{ACTIVE_TAB}}", NatToString(Discriminant(page)));
    Replace(h, "{{TRAINING_RUNNING}}", if running then "true" else "false")
  }

  /** The active-tab token, where it is the only one in the text, becomes
      the tab's digit. */
  lemma {:induction false} ActiveTabFilled(a: string, b: string, page: Page)
    requires '{' !in a && !Contains(b, "{{ACTIVE_TAB}}")
    ensures Replace(a + "{{ACTIVE_TAB}}" + b, "{{ACTIVE_TAB}}", NatToString(Discriminant(page)))
      == a + [('0' as int + Discriminant(page)) as char] + b
  {
    DiscriminantText(page);
    ReplaceOne(a, "{{ACTIVE_TAB}}", b, NatToString(Discriminant(page)));
  }

  /** The training token, where it is the only one in the text, becomes
      `true` or `false`. */
  lemma {:induction false} RunningFilled(a: string, b: string, running: bool)
    requires '{' !in a && !Contains(b, "{{TRAINING_RUNNING}}")
    ensures Replace(a + "{{TRAINING_RUNNING}}" + b, "{{TRAINING_RUNNING}}", if running then "true" else "false")
      == a + (if running then "true" else "false") + b
  {
    ReplaceOne(a, "{{TRAINING_RUNNING}}", b, if running then "true" else "false");
  }

  /** `render_page`: the global tokens first, then the tab's own `fill`,
      then the leftovers blanked. */
  method RenderPage(template: string, page: Page, tabUnlock: Byte, running: bool, fill: string -> string)
    returns (html: string)
    ensures html == Blanked(fill(FillGlobals(template, page, tabUnlock, running)))
    ensures !HasPlaceholder(html)
  {
    html := template;
    html := Replace(html, "{{TAB_UNLOCK}}", NatToString(tabUnlock));
    html := Replace(html, "{{ACTIVE_TAB}}", NatToString(Discriminant(page)));
    html := Replace(html, "{{TRAINING_RUNNING}}", if running then "true" else "false");
    html := fill(html);
    BlankedClean(html);
    html := BlankRemaining(html);
  }
}
