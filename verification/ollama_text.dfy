/**
 The text scanners of the Ollama provider (`llm/provider/ollama/ollama.go`): removal
 of `<think>` blocks, extraction of the first JSON object, and the truncations tried
 when an embedding input is too long.
 */
module OllamaText {
  import opened Common

  // ---------- Searching, ASCII case ignored ----------

  function Lower(c: char): char { if 'A' <= c <= 'Z' then c - 'A' + 'a' else c }

  /** `n`, in lower case, stands at `i` whatever the case of its letters. */
  predicate MatchAt(s: string, i: int, n: string) {
    0 <= i <= |s| - |n| && forall k :: 0 <= k < |n| ==> Lower(s[i + k]) == n[k]
  }

  predicate Has(s: string, n: string) { exists i :: 0 <= i <= |s| && MatchAt(s, i, n) }

  function IndexFrom(s: string, n: string, i: nat): (r: int)
    requires i <= |s| + 1
    ensures r == -1 || (i <= r && MatchAt(s, r, n))
    ensures forall j :: i <= j < (if r == -1 then |s| + 1 else r) ==> !MatchAt(s, j, n)
    decreases |s| + 1 - i
  {
    if i + |n| > |s| then -1 else if MatchAt(s, i, n) then i else IndexFrom(s, n, i + 1)
  }

  function IndexFold(s: string, n: string): (r: int)
    ensures r == -1 <==> !Has(s, n)
    ensures r != -1 ==> MatchAt(s, r, n) && forall j :: 0 <= j < r ==> !MatchAt(s, j, n)
  {
    IndexFrom(s, n, 0)
  }

  method IndexFoldASCII(s: string, n: string) returns (r: int)
    ensures r == IndexFold(s, n)
  {
    if n == "" {
      assert MatchAt(s, 0, n);
      return 0;
    }
    var i := 0;
    while i + |n| <= |s|
      invariant 0 <= i <= |s| + 1
      invariant forall j :: 0 <= j < i ==> !MatchAt(s, j, n)
    {
      if MatchAt(s, i, n) {
        return i;
      }
      i := i + 1;
    }
    return -1;
  }

  // ---------- Think blocks ----------

  const OPEN := "<think>"
  const CLOSE := "</think>"

  predicate IsBlank(c: char) { c in " \t\r\n" }

  /** `unicode.IsSpace`. */
  predicate IsSpace(c: char) {
    c in " \t\n\r" || c == '\U{B}' || c == '\U{C}' || c == '\U{85}' || c == '\U{A0}' || c == '\U{1680}'
    || '\U{2000}' <= c <= '\U{200A}' || c == '\U{2028}' || c == '\U{2029}' || c == '\U{202F}'
    || c == '\U{205F}' || c == '\U{3000}'
  }

  function TrimLeft(s: string): (r: string)
    ensures |r| <= |s| && r == s[|s| - |r|..] && (r == "" || !IsBlank(r[0]))
    ensures forall i :: 0 <= i < |s| - |r| ==> IsBlank(s[i])
  {
    if s == "" || !IsBlank(s[0]) then s else TrimLeft(s[1..])
  }

  function TrimSpaceLeft(s: string): (r: string)
    ensures |r| <= |s| && (r == "" || !IsSpace(r[0]))
  {
    if s == "" || !IsSpace(s[0]) then s else TrimSpaceLeft(s[1..])
  }

  function TrimSpaceRight(s: string): (r: string)
    ensures |r| <= |s| && r == s[..|r|] && (r == "" || !IsSpace(r[|r| - 1]))
  {
    if s == "" || !IsSpace(s[|s| - 1]) then s else TrimSpaceRight(s[..|s| - 1])
  }

  function TrimSpace(s: string): (r: string)
    ensures |r| <= |s| && (r == "" || (!IsSpace(r[0]) && !IsSpace(r[|r| - 1])))
  {
    TrimSpaceRight(TrimSpaceLeft(s))
  }

  lemma {:induction false} TrimLeftTakesOnlySpace(s: string)
    ensures var r := TrimSpaceLeft(s);
      r == s[|s| - |r|..] && forall i :: 0 <= i < |s| - |r| ==> IsSpace(s[i])
    decreases |s|
  {
    if s != "" && IsSpace(s[0]) {
      TrimLeftTakesOnlySpace(s[1..]);
      assert forall i :: 0 < i < |s| ==> s[i] == s[1..][i - 1];
    }
  }

  lemma {:induction false} TrimRightTakesOnlySpace(s: string)
    ensures var r := TrimSpaceRight(s);
      r == s[..|r|] && forall i :: |r| <= i < |s| ==> IsSpace(s[i])
    decreases |s|
  {
    if s != "" && IsSpace(s[|s| - 1]) {
      TrimRightTakesOnlySpace(s[..|s| - 1]);
    }
  }

  /** Trimming takes white space from both ends, all of it and nothing else. */
  lemma TrimSpaceTakesOnlySpace(s: string) returns (a: nat, b: nat)
    ensures a <= b <= |s| && TrimSpace(s) == s[a..b]
    ensures forall i :: 0 <= i < a || b <= i < |s| ==> IsSpace(s[i])
    ensures a < b ==> !IsSpace(s[a]) && !IsSpace(s[b - 1])
  {
    var left := TrimSpaceLeft(s);
    var right := TrimSpaceRight(left);
    TrimLeftTakesOnlySpace(s);
    TrimRightTakesOnlySpace(left);
    a, b := |s| - |left|, |s| - |left| + |right|;
    Sandwiched(s, left, right);
  }

  lemma Sandwiched(s: string, left: string, right: string)
    requires |left| <= |s| && left == s[|s| - |left|..] && |right| <= |left| && right == left[..|right|]
    ensures var a := |s| - |left|;
      && right == s[a..a + |right|] && (forall i :: a <= i < |s| ==> s[i] == left[i - a])
      && (right != "" ==> right[0] == s[a] && right[|right| - 1] == s[a + |right| - 1])
  {
  }

  /** What the scanner takes for one letter in either case, for a blank, and for white space. */
  lemma CharacterClasses(c: char, d: char)
    requires !('A' <= d <= 'Z')
    ensures Lower(c) == d <==> (c == d || ('a' <= d <= 'z' && c as int + 32 == d as int))
    ensures IsBlank(c) <==> c == ' ' || c == '\t' || c == '\r' || c == '\n'
    ensures IsBlank(c) ==> IsSpace(c)
    ensures c < '\U{80}' ==> (IsSpace(c) <==> IsBlank(c) || c == '\U{B}' || c == '\U{C}')
  {
  }

  /** A text as the removal grammar reads it: each piece of text, then a think block with the blanks after it. */
  datatype Doc =
    | Plain(text: string)
    | Unterminated(text: string, open: string, body: string)
    | Block(text: string, open: string, body: string, close: string, blanks: string, rest: Doc)

  function Source(d: Doc): string {
    match d
    case Plain(text) => text
    case Unterminated(text, open, body) => text + (open + body)
    case Block(text, open, body, close, blanks, rest) => text + (open + (body + (close + (blanks + Source(rest)))))
  }

  /** What is left of it. */
  function Shown(d: Doc): string {
    match d
    case Plain(text) => text
    case Unterminated(text, _, _) => text
    case Block(text, _, _, _, _, rest) => text + Shown(rest)
  }

  predicate IsTag(s: string, n: string) { |s| == |n| && MatchAt(s, 0, n) }

  /** Text holds no opening tag, a body no closing one, and blanks are all the blanks there are. */
  predicate WellFormed(d: Doc) {
    && !Has(d.text, OPEN)
    && (!d.Plain? ==> IsTag(d.open, OPEN) && !Has(d.body, CLOSE))
    && (d.Block? ==>
          && IsTag(d.close, CLOSE)
          && (forall i :: 0 <= i < |d.blanks| ==> IsBlank(d.blanks[i]))
          && (Source(d.rest) == "" || !IsBlank(Source(d.rest)[0]))
          && WellFormed(d.rest))
  }

  /** A text cut around the first tag in it. */
  datatype Cut = Cut(before: string, tag: string, after: string)

  function CutAtTag(s: string, n: string): Option<Cut> {
    var o := IndexFold(s, n);
    if o == -1 then None else Some(Cut(s[..o], s[o..o + |n|], s[o + |n|..]))
  }

  lemma MatchWithin(s: string, n: string, t: string, at: nat)
    requires at + |s| <= |t| && t[at..at + |s|] == s
    ensures forall i :: 0 <= i <= |s| - |n| ==> (MatchAt(s, i, n) <==> MatchAt(t, at + i, n))
  {
    assert forall j :: 0 <= j < |s| ==> s[j] == t[at + j];
    forall i | 0 <= i <= |s| - |n|
      ensures MatchAt(s, i, n) <==> MatchAt(t, at + i, n)
    {
      forall k | 0 <= k < |n|
        ensures Lower(s[i + k]) == n[k] <==> Lower(t[at + i + k]) == n[k]
      {
      }
    }
  }

  lemma CutIsFaithful(s: string, n: string)
    requires n != ""
    ensures CutAtTag(s, n).None? ==> !Has(s, n)
    ensures CutAtTag(s, n).Some? ==>
      var c := CutAtTag(s, n).value;
      && s == c.before + (c.tag + c.after) && !Has(c.before, n) && IsTag(c.tag, n)
  {
    var o := IndexFold(s, n);
    if o != -1 {
      forall i | 0 <= i <= o
        ensures !MatchAt(s[..o], i, n)
      {
        MatchWithin(s[..o], n, s, 0);
      }
      MatchWithin(s[o..o + |n|], n, s, o);
      assert MatchAt(s, o + 0, n);
    }
  }

  /** Nothing of a tag but its first character can start one. */
  predicate NoOverlap(n: string) { n != "" && forall k :: 0 < k < |n| ==> n[k] != n[0] }

  lemma Mismatch(s: string, i: nat, n: string, k: nat)
    requires k < |n| && i + k < |s| && Lower(s[i + k]) != n[k]
    ensures !MatchAt(s, i, n)
  {
  }

  lemma NoTagAcross(text: string, tag: string, rest: string, n: string, i: nat)
    requires !Has(text, n) && IsTag(tag, n) && NoOverlap(n) && i < |text|
    ensures !MatchAt(text + (tag + rest), i, n)
  {
    var s := text + (tag + rest);
    if i + |n| <= |text| {
      assert s[0..|text|] == text;
      MatchWithin(text, n, s, 0);
      assert !MatchAt(text, i, n) && !MatchAt(s, 0 + i, n);
    } else {
      var k := |text| - i;
      assert MatchAt(tag, 0, n) && Lower(tag[0 + 0]) == n[0];
      assert s[i + k] == tag[0];
      Mismatch(s, i, n, k);
    }
  }

  lemma FirstTag(text: string, tag: string, rest: string, n: string)
    requires !Has(text, n) && IsTag(tag, n) && NoOverlap(n)
    ensures IndexFold(text + (tag + rest), n) == |text|
  {
    var s := text + (tag + rest);
    assert s[|text|..|text| + |tag|] == tag;
    MatchWithin(tag, n, s, |text|);
    assert MatchAt(tag, 0, n) && MatchAt(s, |text| + 0, n);
    forall i: nat | i < |text|
      ensures !MatchAt(s, i, n)
    {
      NoTagAcross(text, tag, rest, n, i);
    }
    assert Has(s, n);
  }

  /** A text without a tag, a tag and anything after it are cut just so. */
  lemma CutIsUnique(text: string, tag: string, rest: string, n: string)
    requires !Has(text, n) && IsTag(tag, n) && NoOverlap(n)
    ensures CutAtTag(text + (tag + rest), n) == Some(Cut(text, tag, rest))
  {
    FirstTag(text, tag, rest, n);
    CutInThree(text, tag, rest);
  }

  lemma CutInThree(a: string, b: string, c: string)
    ensures var s := a + (b + c);
      s[..|a|] == a && s[|a|..|a| + |b|] == b && s[|a| + |b|..] == c
  {
  }

  function Blanks(s: string): string { s[..|s| - |TrimLeft(s)|] }

  function Parse(s: string): Doc
    decreases |s|, 1
  {
    var o := CutAtTag(s, OPEN);
    if o.None? then Plain(s) else ParseBlock(o.value)
  }

  /** The rest of a text from an opening tag on. */
  function ParseBlock(o: Cut): Doc
    decreases |o.after|, 2
  {
    var c := CutAtTag(o.after, CLOSE);
    if c.None? then Unterminated(o.before, o.tag, o.after)
    else Block(o.before, o.tag, c.value.before, c.value.tag, Blanks(c.value.after), Parse(TrimLeft(c.value.after)))
  }

  /** Every text is read, whole, as a well-formed document. */
  lemma {:induction false} ParseIsFaithful(s: string)
    ensures Source(Parse(s)) == s && WellFormed(Parse(s))
    decreases |s|, 1
  {
    CutIsFaithful(s, OPEN);
    var o := CutAtTag(s, OPEN);
    if o.Some? {
      ParseBlockIsFaithful(o.value);
    }
  }

  lemma {:induction false} ParseBlockIsFaithful(o: Cut)
    requires !Has(o.before, OPEN) && IsTag(o.tag, OPEN)
    ensures Source(ParseBlock(o)) == o.before + (o.tag + o.after) && WellFormed(ParseBlock(o))
    decreases |o.after|, 2
  {
    CutIsFaithful(o.after, CLOSE);
    var c := CutAtTag(o.after, CLOSE);
    if c.Some? {
      var next := TrimLeft(c.value.after);
      ParseIsFaithful(next);
      RestFits(o, c.value, Parse(next));
    }
  }

  lemma TailParts(s: string)
    ensures s == Blanks(s) + TrimLeft(s) && forall i :: 0 <= i < |Blanks(s)| ==> IsBlank(Blanks(s)[i])
  {
  }

  lemma RestFits(o: Cut, c: Cut, rest: Doc)
    requires !Has(o.before, OPEN) && IsTag(o.tag, OPEN) && o.after == c.before + (c.tag + c.after)
    requires !Has(c.before, CLOSE) && IsTag(c.tag, CLOSE) && WellFormed(rest) && Source(rest) == TrimLeft(c.after)
    ensures var d := Block(o.before, o.tag, c.before, c.tag, Blanks(c.after), rest);
      Source(d) == o.before + (o.tag + o.after) && WellFormed(d)
  {
    TailParts(c.after);
  }

  lemma TrimBlanks(blanks: string, rest: string)
    requires forall i :: 0 <= i < |blanks| ==> IsBlank(blanks[i])
    requires rest == "" || !IsBlank(rest[0])
    ensures TrimLeft(blanks + rest) == rest && Blanks(blanks + rest) == blanks
    decreases |blanks|
  {
    if blanks == "" {
      assert blanks + rest == rest;
    } else {
      assert (blanks + rest)[1..] == blanks[1..] + rest;
      TrimBlanks(blanks[1..], rest);
    }
  }

  lemma TagsDoNotOverlap()
    ensures NoOverlap(OPEN) && NoOverlap(CLOSE)
  {
  }

  /** There is only one such reading, so what is left is determined by the grammar alone. */
  lemma {:induction false} ReadingIsUnique(d: Doc)
    requires WellFormed(d)
    ensures Parse(Source(d)) == d
    decreases d
  {
    TagsDoNotOverlap();
    match d
    case Plain(text) =>
    case Unterminated(text, open, body) =>
      CutIsUnique(text, open, body, OPEN);
    case Block(text, open, body, close, blanks, rest) =>
      var tail := blanks + Source(rest);
      CutIsUnique(text, open, body + (close + tail), OPEN);
      CutIsUnique(body, close, tail, CLOSE);
      TrimBlanks(blanks, Source(rest));
      ReadingIsUnique(rest);
  }

  /**
   `stripThinkTags`: the text without its think blocks, each with the blanks after it,
   trimmed; a block left open takes the rest of the text with it.
   */
  method StripThinkTags(s: string) returns (r: string)
    ensures r == TrimSpace(Shown(Parse(s)))
  {
    if s == "" {
      return s;
    }
    var b, rest := "", s;
    assert Pending(b, rest, s);
    while true
      invariant Pending(b, rest, s)
      decreases |rest|
    {
      var open := NextTag(rest, OPEN);
      if open.None? {
        b := b + rest;
        break;
      }
      CutAhead(b, rest, s, open.value);
      b := b + open.value.before;
      var close := NextTag(open.value.after, CLOSE);
      if close.None? {
        break;
      }
      rest := TrimLeft(close.value.after);
    }
    return TrimSpace(b);
  }

  /** The text before the next tag, the tag, and the text after it. */
  method NextTag(s: string, n: string) returns (r: Option<Cut>)
    requires n != ""
    ensures r == CutAtTag(s, n)
    ensures r.Some? ==> |r.value.after| < |s|
  {
    var i := IndexFoldASCII(s, n);
    if i < 0 {
      return None;
    }
    return Some(Cut(s[..i], s[i..i + |n|], s[i + |n|..]));
  }

  function Kept(s: string): string { Shown(Parse(s)) }

  /** What is still to be read completes what has been kept. */
  predicate Pending(b: string, rest: string, s: string) { b + Kept(rest) == Kept(s) }

  lemma CutAhead(b: string, rest: string, s: string, o: Cut)
    requires Pending(b, rest, s) && CutAtTag(rest, OPEN) == Some(o)
    ensures var c := CutAtTag(o.after, CLOSE);
      if c.None? then b + o.before == Kept(s) else Pending(b + o.before, TrimLeft(c.value.after), s)
  {
    KeptAround(rest, o);
    var c := CutAtTag(o.after, CLOSE);
    PendingAfter(Kept, b, rest, s, o.before, if c.None? then None else Some(TrimLeft(c.value.after)));
  }

  lemma PendingAfter(kept: string -> string, b: string, rest: string, s: string, before: string, next: Option<string>)
    requires b + kept(rest) == kept(s)
    requires kept(rest) == before + if next.None? then "" else kept(next.value)
    ensures if next.None? then b + before == kept(s) else (b + before) + kept(next.value) == kept(s)
  {
    if next.Some? {
      Regroup(b, before, kept(next.value));
    }
  }

  lemma KeptAround(s: string, o: Cut)
    requires CutAtTag(s, OPEN) == Some(o)
    ensures var c := CutAtTag(o.after, CLOSE);
      Kept(s) == o.before + if c.None? then "" else Kept(TrimLeft(c.value.after))
  {
    assert Parse(s) == ParseBlock(o);
  }

  /** What `StripThinkTags` returns. */
  function Stripped(s: string): string { TrimSpace(Shown(Parse(s))) }

  lemma {:induction false} ShownIsShorter(d: Doc)
    requires WellFormed(d)
    ensures |Shown(d)| <= |Source(d)|
    ensures !d.Plain? ==> |Shown(d)| < |Source(d)|
    decreases d
  {
    if d.Block? {
      ShownIsShorter(d.rest);
    }
  }

  // ---------- When an opening tag is left ----------

  /** A tag begun by the last `k` characters of one text and finished by the start of the next. */
  predicate StraddlesAt(t: string, r: string, n: string, k: int) {
    0 < k < |n| && MatchAt(t, |t| - k, n[..k]) && MatchAt(r, 0, n[k..])
  }

  predicate Straddles(t: string, r: string, n: string) { exists k :: 0 < k < |n| && StraddlesAt(t, r, n, k) }

  lemma AcrossTheSeam(t: string, r: string, n: string, i: nat)
    requires i < |t| < i + |n|
    ensures MatchAt(t + r, i, n) <==> StraddlesAt(t, r, n, |t| - i)
  {
    var s, k := t + r, |t| - i;
    if MatchAt(s, i, n) {
      forall j | 0 <= j < k
        ensures Lower(t[|t| - k + j]) == n[..k][j]
      {
        assert s[i + j] == t[|t| - k + j];
      }
      forall j | 0 <= j < |n| - k
        ensures Lower(r[0 + j]) == n[k..][j]
      {
        assert s[i + (k + j)] == r[j] && Lower(s[i + (k + j)]) == n[k + j];
      }
    }
    if StraddlesAt(t, r, n, k) {
      forall j | 0 <= j < |n|
        ensures Lower(s[i + j]) == n[j]
      {
        if j < k {
          assert s[i + j] == t[|t| - k + j] && n[..k][j] == n[j];
        } else {
          assert s[i + j] == r[0 + (j - k)] && n[k..][j - k] == n[j];
        }
      }
    }
  }

  /** Joining two texts leaves the tags of each, and those that straddle the seam. */
  lemma HasInJoined(t: string, r: string, n: string)
    requires n != ""
    ensures Has(t + r, n) <==> Has(t, n) || Has(r, n) || Straddles(t, r, n)
  {
    if Has(t + r, n) {
      var i :| 0 <= i <= |t + r| && MatchAt(t + r, i, n);
      TagSomewhere(t, r, n, i);
    }
    if Has(t, n) {
      var i :| 0 <= i <= |t| && MatchAt(t, i, n);
      assert MatchAt(t + r, i, n);
    } else if Has(r, n) {
      var i :| 0 <= i <= |r| && MatchAt(r, i, n);
      assert MatchAt(t + r, |t| + i, n);
    } else if Straddles(t, r, n) {
      var k :| 0 < k < |n| && StraddlesAt(t, r, n, k);
      AcrossTheSeam(t, r, n, |t| - k);
    }
  }

  lemma TagSomewhere(t: string, r: string, n: string, i: nat)
    requires n != "" && MatchAt(t + r, i, n)
    ensures Has(t, n) || Has(r, n) || Straddles(t, r, n)
  {
    if i + |n| <= |t| {
      assert MatchAt(t, i, n);
    } else if i >= |t| {
      assert MatchAt(t + r, |t| + (i - |t|), n);
      assert MatchAt(r, i - |t|, n);
    } else {
      AcrossTheSeam(t, r, n, i);
    }
  }

  /** Somewhere a text ends in the start of an opening tag which what is shown after the block goes on to finish. */
  predicate Joins(d: Doc) { d.Block? && (Straddles(d.text, Shown(d.rest), OPEN) || Joins(d.rest)) }

  lemma {:induction false} TagShownIff(d: Doc)
    requires WellFormed(d)
    ensures Has(Shown(d), OPEN) <==> Joins(d)
    decreases d
  {
    if d.Block? {
      TagShownIff(d.rest);
      HasInJoined(d.text, Shown(d.rest), OPEN);
    }
  }

  /** A tag that neither begins nor ends with white space survives trimming. */
  predicate Solid(n: string) { n != "" && (forall c :: IsSpace(c) ==> Lower(c) != n[0] && Lower(c) != n[|n| - 1]) }

  lemma {:induction false} TrimLeftKeepsTags(s: string, n: string)
    requires Solid(n)
    ensures Has(TrimSpaceLeft(s), n) <==> Has(s, n)
    decreases |s|
  {
    if s != "" && IsSpace(s[0]) {
      TrimLeftKeepsTags(s[1..], n);
      HasInJoined([s[0]], s[1..], n);
      assert [s[0]] + s[1..] == s;
    }
  }

  lemma {:induction false} TrimRightKeepsTags(s: string, n: string)
    requires Solid(n)
    ensures Has(TrimSpaceRight(s), n) <==> Has(s, n)
    decreases |s|
  {
    if s != "" && IsSpace(s[|s| - 1]) {
      var init, c := s[..|s| - 1], s[|s| - 1];
      TrimRightKeepsTags(init, n);
      HasInJoined(init, [c], n);
      assert init + [c] == s;
    }
  }

  /**
   An opening tag is left exactly when, in the reading of the input, the text before
   some block ends in the start of a tag that what follows the block finishes; and
   exactly then does stripping again change the text.
   */
  lemma StrippingAgainIff(s: string)
    ensures Has(Stripped(s), OPEN) <==> Joins(Parse(s))
    ensures Stripped(Stripped(s)) == Stripped(s) <==> !Joins(Parse(s))
  {
    ParseIsFaithful(s);
    TagShownIff(Parse(s));
    TrimLeftKeepsTags(Shown(Parse(s)), OPEN);
    TrimRightKeepsTags(TrimSpaceLeft(Shown(Parse(s))), OPEN);
    TagLeftIff(s);
  }

  lemma TagLeftIff(s: string)
    ensures Stripped(Stripped(s)) == Stripped(s) <==> !Has(Stripped(s), OPEN)
  {
    var r := Stripped(s);
    if Has(r, OPEN) {
      ParseIsFaithful(r);
      ShownIsShorter(Parse(r));
    }
  }

  /** The text `<thi<think></think>nk>` is one: what is left of it is a tag. */
  lemma ATagCanBeLeft() returns (d: Doc)
    ensures WellFormed(d) && Stripped(Source(d)) == OPEN
  {
    d := OneBlock("<thi", "nk>", OPEN, "", CLOSE);
  }

  lemma OneBlock(left: string, right: string, open: string, body: string, close: string) returns (d: Doc)
    requires |left| < |OPEN| && |right| < |OPEN| && right != "" && !IsBlank(right[0])
    requires open == OPEN && close == CLOSE && body == ""
    ensures WellFormed(d) && Stripped(Source(d)) == TrimSpace(left + right)
  {
    d := Block(left, open, body, close, body, Plain(right));
    ReadingIsUnique(d);
    assert Shown(d) == left + Shown(Plain(right));
  }

  // ---------- The first JSON object ----------

  function Depth(s: string): int {
    if s == "" then 0
    else Depth(s[..|s| - 1]) + (var c := s[|s| - 1]; if c == '{' then 1 else if c == '}' then -1 else 0)
  }

  lemma DepthNext(s: string, a: nat, i: nat)
    requires a <= i < |s|
    ensures Depth(s[a..i + 1]) == Depth(s[a..i]) + if s[i] == '{' then 1 else if s[i] == '}' then -1 else 0
  {
    assert s[a..i + 1][..i - a] == s[a..i];
  }

  /** From the first brace `a`, the first point at which every brace is closed. */
  predicate FirstObject(s: string, a: int, b: int) {
    && 0 <= a < b <= |s| && s[a] == '{' && (forall j :: 0 <= j < a ==> s[j] != '{')
    && Depth(s[a..b]) == 0 && forall c :: a < c < b ==> Depth(s[a..c]) > 0
  }

  /**
   `extractJSONFromText` returns that object, which is unique, or nothing when there is
   none.
   */
  method ExtractJSON(text: string) returns (r: string)
    ensures r != "" <==> exists a, b :: FirstObject(text, a, b)
    ensures forall a, b :: FirstObject(text, a, b) ==> r == text[a..b]
  {
    var first := 0;
    while first < |text| && text[first] != '{'
      invariant 0 <= first <= |text|
      invariant forall j :: 0 <= j < first ==> text[j] != '{'
    {
      first := first + 1;
    }
    if first == |text| {
      return "";
    }
    var braces, i := 0, first;
    while i < |text|
      invariant first <= i <= |text|
      invariant braces == Depth(text[first..i])
      invariant forall c :: first < c <= i ==> Depth(text[first..c]) > 0
    {
      DepthNext(text, first, i);
      if text[i] == '{' {
        braces := braces + 1;
      } else if text[i] == '}' {
        braces := braces - 1;
        if braces == 0 {
          OnlyObject(text, first, i + 1);
          assert FirstObject(text, first, i + 1);
          r := text[first..i + 1];
          assert |r| > 0;
          return;
        }
      }
      i := i + 1;
    }
    return "";
  }

  lemma OnlyObject(text: string, first: nat, end: nat)
    requires FirstObject(text, first, end)
    ensures forall a, b :: FirstObject(text, a, b) ==> a == first && b == end
  {
    forall a, b | FirstObject(text, a, b)
      ensures a == first && b == end
    {
      assert a == first;
      assert Depth(text[first..b]) == 0 && Depth(text[first..end]) == 0;
    }
  }

  /** Brace-balanced text: an object is braces around characters and objects. */
  datatype Tree = Leaf(c: char) | Node(items: seq<Tree>)

  function RenderAll(ts: seq<Tree>): string
    decreases ts
  {
    if ts == [] then "" else RenderAll(ts[..|ts| - 1]) + Render(ts[|ts| - 1])
  }

  function Render(t: Tree): string
    decreases t
  {
    match t
    case Leaf(c) => [c]
    case Node(items) => "{" + RenderAll(items) + "}"
  }

  predicate Braceless(t: Tree)
    decreases t
  {
    match t
    case Leaf(c) => c != '{' && c != '}'
    case Node(items) => forall i :: 0 <= i < |items| ==> Braceless(items[i])
  }

  lemma {:induction false} DepthConcat(s: string, t: string)
    ensures Depth(s + t) == Depth(s) + Depth(t)
    decreases |t|
  {
    if t == "" {
      assert s + t == s;
    } else {
      assert (s + t)[..|s + t| - 1] == s + t[..|t| - 1];
      DepthConcat(s, t[..|t| - 1]);
    }
  }

  lemma DepthOne(c: char)
    ensures Depth([c]) == if c == '{' then 1 else if c == '}' then -1 else 0
  {
    assert [c][..0] == "";
  }

  predicate Balanced(s: string) { Depth(s) == 0 && forall c :: 0 <= c <= |s| ==> Depth(s[..c]) >= 0 }

  lemma BalancedConcat(s: string, t: string)
    requires Balanced(s) && Balanced(t)
    ensures Balanced(s + t)
  {
    DepthConcat(s, t);
    forall c | 0 <= c <= |s + t|
      ensures Depth((s + t)[..c]) >= 0
    {
      if c <= |s| {
        assert (s + t)[..c] == s[..c];
      } else {
        assert (s + t)[..c] == s + t[..c - |s|];
        DepthConcat(s, t[..c - |s|]);
      }
    }
  }

  /** An object closes at its last character, and not before. */
  lemma NodeCloses(inner: string)
    requires Balanced(inner)
    ensures Depth("{" + inner + "}") == 0
    ensures forall c :: 0 < c < |inner| + 2 ==> Depth(("{" + inner + "}")[..c]) > 0
  {
    var s := "{" + inner + "}";
    DepthOne('{');
    DepthOne('}');
    DepthConcat("{", inner);
    DepthConcat("{" + inner, "}");
    forall c | 0 < c < |inner| + 2
      ensures Depth(s[..c]) > 0
    {
      assert s[..c] == "{" + inner[..c - 1];
      DepthConcat("{", inner[..c - 1]);
    }
  }

  lemma {:induction false} TreesAreBalanced(ts: seq<Tree>)
    requires forall i :: 0 <= i < |ts| ==> Braceless(ts[i])
    ensures Balanced(RenderAll(ts))
    decreases ts
  {
    if ts != [] {
      var t := ts[|ts| - 1];
      TreesAreBalanced(ts[..|ts| - 1]);
      TreeIsBalanced(t);
      BalancedConcat(RenderAll(ts[..|ts| - 1]), Render(t));
    }
  }

  lemma {:induction false} TreeIsBalanced(t: Tree)
    requires Braceless(t)
    ensures Balanced(Render(t))
    decreases t
  {
    match t
    case Leaf(c) =>
      DepthOne(c);
      assert [c][..0] == "" && [c][..1] == [c];
    case Node(items) =>
      TreesAreBalanced(items);
      NodeCloses(RenderAll(items));
      var s := Render(t);
      assert s[..0] == "" && s[..|s|] == s;
  }

  /** Open objects, outermost first, each with what it holds so far. */
  function RenderStack(st: seq<seq<Tree>>): string {
    if st == [] then "" else RenderStack(st[..|st| - 1]) + ("{" + RenderAll(st[|st| - 1]))
  }

  predicate StackOk(st: seq<seq<Tree>>) {
    forall i, j :: 0 <= i < |st| && 0 <= j < |st[i]| ==> Braceless(st[i][j])
  }

  /** Adding an item to the innermost open object adds its text. */
  lemma AddItem(st: seq<seq<Tree>>, t: Tree)
    requires st != [] && StackOk(st) && Braceless(t)
    ensures var to := st[..|st| - 1] + [st[|st| - 1] + [t]];
      RenderStack(to) == RenderStack(st) + Render(t) && StackOk(to)
  {
    var n := |st| - 1;
    var outer, top := st[..n], st[n];
    var to := outer + [top + [t]];
    assert to[..n] == outer;
    assert (top + [t])[..|top|] == top;
    assert RenderAll(top + [t]) == RenderAll(top) + Render(t);
    Regroup(RenderStack(outer), "{" + RenderAll(top), Render(t));
    Regroup("{", RenderAll(top), Render(t));
  }

  lemma CloseItem(st: seq<seq<Tree>>)
    requires st != [] && StackOk(st)
    ensures RenderStack(st[..|st| - 1]) + Render(Node(st[|st| - 1])) == RenderStack(st) + "}"
    ensures Braceless(Node(st[|st| - 1])) && StackOk(st[..|st| - 1])
  {
    var outer, held := RenderStack(st[..|st| - 1]), RenderAll(st[|st| - 1]);
    assert Render(Node(st[|st| - 1])) == "{" + held + "}";
  }

  lemma NextPrefix(s: string, i: nat)
    requires i < |s|
    ensures s[..i + 1] == s[..i] + [s[i]] && s[..|s|] == s
    ensures Depth(s[..i + 1]) == Depth(s[..i]) + if s[i] == '{' then 1 else if s[i] == '}' then -1 else 0
  {
    assert s[..i + 1][..i] == s[..i];
  }

  /** Closing the innermost of several open objects makes it an item of the one around it. */
  lemma CloseInner(st: seq<seq<Tree>>)
    requires |st| > 1 && StackOk(st)
    ensures var n := |st| - 1;
      var to := st[..n - 1] + [st[n - 1] + [Node(st[n])]];
      |to| == n && RenderStack(to) == RenderStack(st) + "}" && StackOk(to)
  {
    var n := |st| - 1;
    CloseItem(st);
    AddItem(st[..n], Node(st[n]));
    assert st[..n][..n - 1] == st[..n - 1];
  }

  /** Reading on from some open objects until the outermost closes. */
  lemma {:induction false} BuildTree(s: string, i: nat, st: seq<seq<Tree>>) returns (t: Tree)
    requires 0 < i < |s| && StackOk(st) && RenderStack(st) == s[..i] && |st| == Depth(s[..i])
    requires Depth(s) == 0 && forall c :: 0 < c < |s| ==> Depth(s[..c]) > 0
    ensures Render(t) == s && t.Node? && Braceless(t)
    decreases |s| - i
  {
    var c, n := s[i], |st| - 1;
    NextPrefix(s, i);
    if c == '{' {
      assert (st + [[]])[..|st|] == st;
      t := BuildTree(s, i + 1, st + [[]]);
    } else if c == '}' {
      if i + 1 == |s| {
        CloseItem(st);
        assert st[..n] == [];
        t := Node(st[n]);
      } else {
        CloseInner(st);
        t := BuildTree(s, i + 1, st[..n - 1] + [st[n - 1] + [Node(st[n])]]);
      }
    } else {
      AddItem(st, Leaf(c));
      t := BuildTree(s, i + 1, st[..n] + [st[n] + [Leaf(c)]]);
    }
  }

  /**
   The object found is brace-balanced in the grammatical sense, and any balanced object
   standing at the first brace is the one found.
   */
  lemma FirstObjectIsBalancedText(s: string, a: int, b: int)
    requires 0 <= a < b <= |s| && s[a] == '{' && forall j :: 0 <= j < a ==> s[j] != '{'
    ensures FirstObject(s, a, b) <==> exists t: Tree :: t.Node? && Braceless(t) && Render(t) == s[a..b]
  {
    var o := s[a..b];
    forall c | a <= c <= b
      ensures s[a..c] == o[..c - a]
    {
    }
    if FirstObject(s, a, b) {
      assert o[..1] == "{" && o[..|o|] == o;
      DepthOne('{');
      forall c | 0 < c < |o|
        ensures Depth(o[..c]) > 0
      {
        assert o[..c] == s[a..a + c];
      }
      var open: seq<seq<Tree>> := [[]];
      assert open[..0] == [];
      var t := BuildTree(o, 1, open);
    }
    if exists t: Tree :: t.Node? && Braceless(t) && Render(t) == o {
      var t: Tree :| t.Node? && Braceless(t) && Render(t) == o;
      TreesAreBalanced(t.items);
      NodeCloses(RenderAll(t.items));
      forall c | a < c < b
        ensures Depth(s[a..c]) > 0
      {
        assert s[a..c] == o[..c - a];
      }
    }
  }

  // ---------- Truncating an embedding input ----------

  /** The cut at `num / 4` of the text, in whole characters, as a float product truncates it. */
  function Target(text: string, num: nat): int {
    match num
    case 0 => 0
    case 1 => |text| / 4
    case 2 => |text| / 2
    case 3 => |text| * 3 / 4
    case _ => |text|
  }

  /** The last space at 1 to `i`, or 0 when there is none. */
  function LastSpace(text: string, i: nat): (k: nat)
    requires i < |text|
    ensures k <= i && (k > 0 ==> text[k] == ' ')
    ensures forall j :: k < j <= i ==> text[j] != ' '
  {
    if i == 0 || text[i] == ' ' then i else LastSpace(text, i - 1)
  }

  /** A cut before the last space up to the target, or at the target when there is none. */
  function CutBack(text: string, target: int): (r: string)
    ensures r <= text && (0 < target ==> |r| <= target) && (target > 0 && text != "" ==> r != "")
  {
    if target <= 0 then "" else if target >= |text| then text
    else
      var k := LastSpace(text, target);
      if k > 0 then text[..k] else text[..target]
  }

  /** Without a space to cut at, the rungs are three quarters, a half and a quarter of the text. */
  lemma CutsWithoutSpaces(text: string, num: nat)
    requires 1 <= num <= 3 && ' ' !in text
    ensures CutBack(text, Target(text, num)) == text[..|text| * num / 4]
  {
  }

  /** A smaller target never cuts later. */
  lemma SmallerTargetCutsEarlier(text: string, target: int, more: int)
    requires target <= more
    ensures CutBack(text, target) <= CutBack(text, more)
  {
    if 0 < target && more < |text| {
      var k, l := LastSpace(text, target), LastSpace(text, more);
      assert k > 0 ==> k <= l;
      assert l <= target ==> k == l || l == 0;
    }
  }

  method TruncateAtWordBoundary(text: string, num: nat) returns (r: string)
    ensures r == CutBack(text, Target(text, num)) && r == Cuts(text)(num)
  {
    var target := Target(text, num);
    if target <= 0 {
      return "";
    }
    if target >= |text| {
      return text;
    }
    var i := target;
    while i > 0
      invariant 0 <= i <= target && LastSpace(text, i) == LastSpace(text, target)
    {
      if text[i] == ' ' {
        return text[..i];
      }
      i := i - 1;
    }
    return text[..target];
  }

  /** The cut of a text at each number of quarters. */
  function Cuts(text: string): nat -> string { (num: nat) => CutBack(text, Target(text, num)) }

  /** A retry is worth sending when it is neither empty nor the text itself. */
  function RungsFrom(text: string, cuts: nat -> string, num: nat): seq<string> {
    if num == 0 then []
    else if cuts(num) == "" || cuts(num) == text then RungsFrom(text, cuts, num - 1)
    else [cuts(num)] + RungsFrom(text, cuts, num - 1)
  }

  /** The retries `Embed` has in hand, at three quarters, a half and a quarter. */
  function Ladder(text: string): seq<string> { RungsFrom(text, Cuts(text), 3) }

  /** The server refuses the first `n` requests. */
  predicate AllRefused(accepts: nat -> bool, n: nat) { forall k: nat :: k < n ==> !accepts(k) }

  datatype EmbedResult = Embedded(ofText: string) | FirstError

  /**
   `Embed`: the whole text, then, when the first failure allows it, the rungs of the
   ladder until one is accepted; the result is the embedding of the text accepted, or
   the first request's error.
   */
  method Embed(text: string, truncate: bool, retryable: bool, accepts: nat -> bool) returns (r: EmbedResult, sent: seq<string>)
    ensures sent != [] && sent <= [text] + (if truncate && retryable then Ladder(text) else [])
    ensures AllRefused(accepts, |sent| - 1)
    ensures r == if accepts(|sent| - 1) then Embedded(sent[|sent| - 1]) else FirstError
    ensures r.FirstError? ==> sent == [text] + if truncate && retryable then Ladder(text) else []
  {
    sent := [text];
    if accepts(0) {
      return Embedded(text), sent;
    }
    if !truncate || !retryable {
      return FirstError, sent;
    }
    var tried;
    r, tried := EmbedTruncated(text, 3, accepts);
    sent := [text] + tried;
  }

  /** The ladder after a first request that failed: what was tried, the text itself being request 0. */
  method EmbedTruncated(text: string, rungs: nat, accepts: nat -> bool) returns (r: EmbedResult, tried: seq<string>)
    requires !accepts(0)
    ensures tried <= RungsFrom(text, Cuts(text), rungs)
    ensures tried != [] ==> AllRefused(accepts, |tried|)
    ensures r == if tried != [] && accepts(|tried|) then Embedded(tried[|tried| - 1]) else FirstError
    ensures r.FirstError? ==> tried == RungsFrom(text, Cuts(text), rungs)
  {
    tried := [];
    var num := rungs;
    ghost var all := RungsFrom(text, Cuts(text), rungs);
    var done := false;
    while num > 0 && !done
      invariant OnLadder(text, tried, num, done, accepts, all)
    {
      tried, done := TryRung(text, num, tried, accepts, all);
      num := num - 1;
    }
    OffLadder(text, tried, num, done, accepts, all);
    r := if done then Embedded(tried[|tried| - 1]) else FirstError;
  }

  /** The rungs tried and those still in hand make up the ladder, and only the last tried may be accepted. */
  predicate OnLadder(text: string, tried: seq<string>, num: nat, done: bool, accepts: nat -> bool, all: seq<string>) {
    && tried + RungsFrom(text, Cuts(text), num) == all
    && if done then tried != [] && Answered(accepts, |tried|) else AllRefused(accepts, |tried| + 1)
  }

  lemma OffLadder(text: string, tried: seq<string>, num: nat, done: bool, accepts: nat -> bool, all: seq<string>)
    requires OnLadder(text, tried, num, done, accepts, all) && (num == 0 || done)
    ensures tried <= all && (tried != [] ==> AllRefused(accepts, |tried|)) && (!done ==> tried == all)
    ensures done <==> tried != [] && accepts(|tried|)
  {
  }

  /** Request `n` is the first the server accepts. */
  predicate Answered(accepts: nat -> bool, n: nat) { AllRefused(accepts, n) && accepts(n) }

  /** One turn of the ladder's loop. */
  method TryRung(text: string, num: nat, tried: seq<string>, accepts: nat -> bool, ghost all: seq<string>)
    returns (now: seq<string>, done: bool)
    requires num > 0 && OnLadder(text, tried, num, false, accepts, all)
    ensures OnLadder(text, now, num - 1, done, accepts, all)
  {
    var truncated := TruncateAtWordBoundary(text, num);
    if truncated == "" || truncated == text {
      return tried, false;
    }
    now := tried + [truncated];
    done := accepts(|now|);
  }

  /** Non-empty proper prefixes of a text, each a prefix of the one before, the first of `bound`. */
  predicate Shrinking(rungs: seq<string>, text: string, bound: string) {
    && (forall k :: 0 <= k < |rungs| ==> rungs[k] != "" && rungs[k] < text && rungs[k] <= bound)
    && forall k :: 0 < k < |rungs| ==> rungs[k] <= rungs[k - 1]
  }

  lemma {:induction false} RungsFromCutsShrink(text: string, cuts: nat -> string, num: nat)
    requires forall k: nat :: cuts(k) <= cuts(k + 1) && cuts(k) <= text
    ensures |RungsFrom(text, cuts, num)| <= num && Shrinking(RungsFrom(text, cuts, num), text, cuts(num))
  {
    if num > 0 {
      RungsFromCutsShrink(text, cuts, num - 1);
      assert cuts(num - 1) <= cuts(num - 1 + 1);
    }
  }

  /** The rungs shrink, and there are no more of them than fractions. */
  lemma RungsShrink(text: string, num: nat)
    ensures |RungsFrom(text, Cuts(text), num)| <= num
    ensures Shrinking(RungsFrom(text, Cuts(text), num), text, CutBack(text, Target(text, num)))
  {
    forall k: nat
      ensures Cuts(text)(k) <= Cuts(text)(k + 1) && Cuts(text)(k) <= text
    {
      SmallerTargetCutsEarlier(text, Target(text, k), Target(text, k + 1));
    }
    RungsFromCutsShrink(text, Cuts(text), num);
  }
}
