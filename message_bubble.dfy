/**
  `formatContent` of the message bubble: the text of a chat message is cut
  into plain segments and `[text](url)` links, found by the global pattern
  `\[([^\]]+)\]\(([^)]+)\)` scanned left to right. The rendering into
  elements is left out; a segment stands for the element it becomes.
 */
module MessageBubble {
  import opened Types
  import opened Text
  import opened Seqs

  /** A `<span>` of plain text or an `<a>` link with its text and target. */
  datatype Segment = Plain(text: string) | Link(text: string, url: string)

  /** The markdown a segment was read from. */
  function Render(s: Segment): string
  {
    match s
    case Plain(x) => x
    case Link(t, u) => "[" + t + "](" + u + ")"
  }

  /**
    An independent reading of the pattern: at position `p` the text spells
    `[t](u)` with `t` non-empty and free of `]`, `u` non-empty and free of `)`.
   */
  ghost predicate IsLinkAt(text: string, p: nat, t: string, u: string)
  {
    |t| > 0 && |u| > 0 && ']' !in t && ')' !in u &&
    p + |t| + |u| + 4 <= |text| &&
    text[p..p + |t| + |u| + 4] == "[" + t + "](" + u + ")"
  }

  /** One match of the pattern: where it starts, its two groups. */
  datatype LinkMatch = LinkMatch(offset: nat, t: string, u: string)

  /** The index just past the match (`offset + match.length`). */
  function End(m: LinkMatch): nat
  {
    m.offset + |m.t| + |m.u| + 4
  }

  /** The first index at or after `i` holding `c`, or `|text|` when there is none. */
  function FindFrom(text: string, i: nat, c: char): (k: nat)
    requires i <= |text|
    ensures i <= k <= |text|
    ensures k < |text| ==> text[k] == c
    ensures forall j :: i <= j < k ==> text[j] != c
    decreases |text| - i
  {
    if i == |text| || text[i] == c then i else FindFrom(text, i + 1, c)
  }

  /**
    The pattern tried at position `p`: `[`, the longest run without `]`
    (non-empty), `](`, the longest run without `)` (non-empty), `)`. The
    character classes exclude their own terminators, so the greedy runs are
    the only candidates and no backtracking can find another match here.
   */
  function MatchAt(text: string, p: nat): (r: Option<LinkMatch>)
    ensures r.Some? ==> r.value.offset == p && IsLinkAt(text, p, r.value.t, r.value.u)
  {
    if p >= |text| || text[p] != '[' then None
    else
      var k1 := FindFrom(text, p + 1, ']');
      if k1 == p + 1 || k1 + 1 >= |text| || text[k1 + 1] != '(' then None
      else
        var k2 := FindFrom(text, k1 + 2, ')');
        if k2 == k1 + 2 || k2 == |text| then None
        else
          var m := LinkMatch(p, text[p + 1..k1], text[k1 + 2..k2]);
          assert text[p..k2 + 1] == "[" + m.t + "](" + m.u + ")" by {
            assert text[p..k2 + 1] == [text[p]] + text[p + 1..k1] + [text[k1], text[k1 + 1]] + text[k1 + 2..k2] + [text[k2]];
          }
          Some(m)
  }

  /** `FindFrom` stops at the first occurrence, wherever that is. */
  lemma FindFromExact(text: string, i: nat, c: char, k: nat)
    requires i <= k < |text| && text[k] == c
    requires forall j :: i <= j < k ==> text[j] != c
    ensures FindFrom(text, i, c) == k
  {
  }

  /** Where the text spells `[t](u)`, its four delimiters and two groups sit at fixed offsets. */
  lemma LinkParts(text: string, p: nat, t: string, u: string)
    requires IsLinkAt(text, p, t, u)
    ensures text[p] == '[' && text[p + 1 + |t|] == ']' && text[p + 2 + |t|] == '('
    ensures text[p + 3 + |t| + |u|] == ')'
    ensures text[p + 1..p + 1 + |t|] == t && text[p + 3 + |t|..p + 3 + |t| + |u|] == u
  {
    var n := |t| + |u| + 4;
    var w := "[" + t + "](" + u + ")";
    var pre := "[" + t + "](";
    assert w == pre + u + ")";
    var slice := text[p..p + n];
    assert slice == w;
    assert text[p] == slice[0] && text[p + 1 + |t|] == slice[1 + |t|];
    assert text[p + 2 + |t|] == slice[2 + |t|] && text[p + 3 + |t| + |u|] == slice[3 + |t| + |u|];
    forall j | 0 <= j < |t|
      ensures text[p + 1..p + 1 + |t|][j] == t[j]
    {
      assert text[p + 1 + j] == slice[1 + j] == w[1 + j];
    }
    forall j | 0 <= j < |u|
      ensures text[p + 3 + |t|..p + 3 + |t| + |u|][j] == u[j]
    {
      assert text[p + 3 + |t| + j] == slice[|pre| + j] == w[|pre| + j];
    }
  }

  /** A run copied from `g`, which lacks `c`, holds no `c`. */
  lemma RunLacks(text: string, a: nat, g: string, c: char)
    requires a + |g| <= |text| && text[a..a + |g|] == g && c !in g
    ensures forall j :: a <= j < a + |g| ==> text[j] != c
  {
    forall j | a <= j < a + |g|
      ensures text[j] != c
    {
      assert text[j] == text[a..a + |g|][j - a] == g[j - a];
    }
  }

  /** Wherever the text spells a link, the pattern matches there, with those groups. */
  lemma MatchAtComplete(text: string, p: nat, t: string, u: string)
    requires IsLinkAt(text, p, t, u)
    ensures MatchAt(text, p) == Some(LinkMatch(p, t, u))
  {
    LinkParts(text, p, t, u);
    var k1 := p + 1 + |t|;
    var k2 := k1 + 2 + |u|;
    RunLacks(text, p + 1, t, ']');
    FindFromExact(text, p + 1, ']', k1);
    RunLacks(text, k1 + 2, u, ')');
    FindFromExact(text, k1 + 2, ')', k2);
  }

  /**
    The next match at or after `from`, as the global pattern finds it: the
    leftmost position where the pattern matches.
   */
  function NextMatch(text: string, from: nat): (r: Option<LinkMatch>)
    ensures r.Some? ==>
      from <= r.value.offset && MatchAt(text, r.value.offset) == r &&
      forall q :: from <= q < r.value.offset ==> MatchAt(text, q).None?
    ensures r.None? ==> forall q :: from <= q ==> MatchAt(text, q).None?
    decreases |text| - from
  {
    if from >= |text| then None
    else if MatchAt(text, from).Some? then MatchAt(text, from)
    else NextMatch(text, from + 1)
  }

  /** A plain segment for `text[last..offset]`, only when it is non-empty. */
  function Gap(text: string, last: nat, offset: nat): seq<Segment>
    requires last <= offset <= |text|
  {
    if offset > last then [Plain(text[last..offset])] else []
  }

  /**
    The segments the scan emits from cursor `last` on: the text before the
    next match (if any), the link, and the rest after the match; at the end,
    what remains after the cursor (if any).
   */
  function Tokens(text: string, last: nat): seq<Segment>
    requires last <= |text|
    decreases |text| - last
  {
    match NextMatch(text, last)
    case None => Gap(text, last, |text|)
    case Some(m) => Gap(text, last, m.offset) + [Link(m.t, m.u)] + Tokens(text, End(m))
  }

  /** `formatContent(text)`: without a single match, one block holding the whole text. */
  function Formatted(text: string): seq<Segment>
  {
    if NextMatch(text, 0).None? then [Plain(text)] else Tokens(text, 0)
  }

  /**
    `formatContent` with its cursor `lastIndex`: each match pushes the text
    since the cursor (when non-empty) and the link, and moves the cursor to
    the end of the match; the text after the last match is pushed last.
   */
  method FormatContent(text: string) returns (elements: seq<Segment>)
    ensures elements == Formatted(text)
  {
    if NextMatch(text, 0).None? {
      return [Plain(text)];
    }
    elements := [];
    var lastIndex := 0;
    var next := NextMatch(text, 0);
    while next.Some?
      invariant lastIndex <= |text|
      invariant next == NextMatch(text, lastIndex)
      invariant elements + Tokens(text, lastIndex) == Tokens(text, 0)
      decreases |text| - lastIndex
    {
      var m := next.value;
      ghost var before := elements;
      ghost var gap := Gap(text, lastIndex, m.offset);
      ghost var rest := Tokens(text, End(m));
      assert Tokens(text, lastIndex) == gap + [Link(m.t, m.u)] + rest;
      if m.offset > lastIndex {
        elements := elements + [Plain(text[lastIndex..m.offset])];
      }
      elements := elements + [Link(m.t, m.u)];
      assert elements == before + gap + [Link(m.t, m.u)];
      AppendAssoc(before, gap + [Link(m.t, m.u)], rest);
      AppendAssoc(before, gap, [Link(m.t, m.u)]);
      lastIndex := End(m);
      next := NextMatch(text, lastIndex);
    }
    assert Tokens(text, lastIndex) == Gap(text, lastIndex, |text|);
    if lastIndex < |text| {
      assert text[lastIndex..|text|] == text[lastIndex..];
      elements := elements + [Plain(text[lastIndex..])];
    } else {
      assert elements + [] == elements;
    }
  }

  /** What one link segment renders back to is exactly the matched text. */
  lemma RenderMatch(text: string, m: LinkMatch)
    requires MatchAt(text, m.offset) == Some(m)
    ensures End(m) <= |text| && Render(Link(m.t, m.u)) == text[m.offset..End(m)]
  {
  }

  /** The gap before a match renders back to the text it was cut from. */
  lemma RenderGap(text: string, last: nat, offset: nat)
    requires last <= offset <= |text|
    ensures ConcatMap(Render, Gap(text, last, offset)) == text[last..offset]
  {
    if offset > last {
      assert [Plain(text[last..offset])][1..] == [];
    }
  }

  /** One scan step renders back to the text up to the end of its match. */
  lemma RenderStep(text: string, last: nat, m: LinkMatch, rest: seq<Segment>)
    requires last <= m.offset && MatchAt(text, m.offset) == Some(m)
    ensures End(m) <= |text|
    ensures ConcatMap(Render, Gap(text, last, m.offset) + [Link(m.t, m.u)] + rest) ==
      text[last..End(m)] + ConcatMap(Render, rest)
  {
    var gap := Gap(text, last, m.offset);
    RenderMatch(text, m);
    RenderGap(text, last, m.offset);
    ConcatMapAppend(Render, gap + [Link(m.t, m.u)], rest);
    ConcatMapSnoc(Render, gap, Link(m.t, m.u));
    assert text[last..End(m)] == text[last..m.offset] + text[m.offset..End(m)];
  }

  /** Rendering the segments from the cursor on gives back the rest of the text. */
  lemma {:induction false} TokensRender(text: string, last: nat)
    requires last <= |text|
    ensures ConcatMap(Render, Tokens(text, last)) == text[last..]
    decreases |text| - last
  {
    match NextMatch(text, last)
    case None =>
      RenderGap(text, last, |text|);
      assert text[last..|text|] == text[last..];
    case Some(m) =>
      RenderStep(text, last, m, Tokens(text, End(m)));
      TokensRender(text, End(m));
      assert text[last..] == text[last..End(m)] + text[End(m)..];
  }

  /**
    Reconstruction: concatenating the plain segments and `[t](u)` for each
    link, in order, gives back the original text.
   */
  lemma FormattedRender(text: string)
    ensures ConcatMap(Render, Formatted(text)) == text
  {
    if NextMatch(text, 0).None? {
      assert [Plain(text)][1..] == [];
    } else {
      TokensRender(text, 0);
    }
  }

  /**
    Every segment of the scan is well formed: a plain segment is never
    empty, a link has non-empty text without `]` and a non-empty target
    without `)`.
   */
  lemma {:induction false} TokensWellFormed(text: string, last: nat)
    requires last <= |text|
    ensures forall s :: s in Tokens(text, last) ==>
      (s.Plain? ==> s.text != "") &&
      (s.Link? ==> |s.text| > 0 && ']' !in s.text && |s.url| > 0 && ')' !in s.url)
    decreases |text| - last
  {
    match NextMatch(text, last)
    case None =>
    case Some(m) =>
      TokensWellFormed(text, End(m));
  }

  /** A link spelled inside a slice of the text is spelled at the same place in the text. */
  lemma LinkInSlice(text: string, a: nat, b: nat, q: nat, t: string, u: string)
    requires a <= b <= |text|
    requires IsLinkAt(text[a..b], q, t, u)
    ensures IsLinkAt(text, a + q, t, u)
  {
    var n := |t| + |u| + 4;
    forall i | a + q <= i < a + q + n
      ensures text[i] == text[a..b][i - a]
    {
    }
    assert text[a..b][q..q + n] == text[a + q..a + q + n];
  }

  /** No match of the pattern lies wholly inside `s`. */
  ghost predicate HoldsNoLink(s: string)
  {
    forall q :: 0 <= q < |s| ==> MatchAt(s, q).None?
  }

  /** The slice `text[a..b]` holds no link when no match starts in `[a, b)`. */
  lemma SliceHoldsNoLink(text: string, a: nat, b: nat)
    requires a <= b <= |text|
    requires forall q :: a <= q < b ==> MatchAt(text, q).None?
    ensures HoldsNoLink(text[a..b])
  {
    forall q | 0 <= q < b - a
      ensures MatchAt(text[a..b], q).None?
    {
      var r := MatchAt(text[a..b], q);
      if r.Some? {
        LinkInSlice(text, a, b, q, r.value.t, r.value.u);
        MatchAtComplete(text, a + q, r.value.t, r.value.u);
        assert false;
      }
    }
  }

  /**
    Matches are taken leftmost first: no plain segment of the scan holds a
    link the scan could have taken.
   */
  lemma {:induction false} TokensPlainHoldNoLink(text: string, last: nat)
    requires last <= |text|
    ensures forall s :: s in Tokens(text, last) && s.Plain? ==> HoldsNoLink(s.text)
    decreases |text| - last
  {
    match NextMatch(text, last)
    case None =>
      SliceHoldsNoLink(text, last, |text|);
    case Some(m) =>
      SliceHoldsNoLink(text, last, m.offset);
      TokensPlainHoldNoLink(text, End(m));
  }

  /**
    The bubble shows the whole text as one plain block exactly when the text
    holds no link; otherwise every segment is well formed and no plain
    segment holds a link.
   */
  lemma FormattedShape(text: string)
    ensures Formatted(text) == [Plain(text)] <==> HoldsNoLink(text)
    ensures !HoldsNoLink(text) ==> forall s :: s in Formatted(text) ==>
      (s.Plain? ==> s.text != "" && HoldsNoLink(s.text)) &&
      (s.Link? ==> |s.text| > 0 && ']' !in s.text && |s.url| > 0 && ')' !in s.url)
  {
    var r := NextMatch(text, 0);
    if r.None? {
      assert HoldsNoLink(text);
    } else {
      var m := r.value;
      assert Link(m.t, m.u) in Tokens(text, 0);
      assert !HoldsNoLink(text) by {
        assert MatchAt(text, m.offset).Some?;
      }
      TokensWellFormed(text, 0);
      TokensPlainHoldNoLink(text, 0);
    }
  }
}
