/**
 The fragment pass of `llm/internal/redact/redact.go`: every maximal run of key
 characters that overlaps a known secret far enough is replaced by a placeholder.

 A character of a string stands for one byte.
 */
module Redact {
  import opened Common

  const PLACEHOLDER := "[REDACTED]"
  const PLACEHOLDER_WORD := "REDACTED"

  const MIN_SECRET := 12
  const MIN_INTERIOR := 6
  const MIN_EDGE := 4

  predicate IsKeyChar(c: char) {
    'A' <= c <= 'Z' || 'a' <= c <= 'z' || '0' <= c <= '9' || c == '_' || c == '-'
  }

  /** The key characters, by their ASCII codes: letters, digits, the underscore and the hyphen. */
  lemma KeyCharacters(c: char)
    ensures var n := c as int;
      IsKeyChar(c) <==> 65 <= n <= 90 || 97 <= n <= 122 || 48 <= n <= 57 || n == 95 || n == 45
  {
  }

  predicate AllKey(s: string) { forall i :: 0 <= i < |s| ==> IsKeyChar(s[i]) }

  // ---------- Runs ----------

  datatype Token = Run(s: string) | Sep(c: char)

  /** A message as maximal runs of key characters, and the characters between them. */
  function Tokens(msg: string): seq<Token> {
    if msg == "" then [] else Push(msg[0], Tokens(msg[1..]))
  }

  function Render(ts: seq<Token>): string {
    if ts == [] then "" else (if ts[0].Run? then ts[0].s else [ts[0].c]) + Render(ts[1..])
  }

  /** Runs are non-empty and of key characters only, separators are not key characters, and no two runs touch. */
  predicate Maximal(ts: seq<Token>) {
    && (forall i :: 0 <= i < |ts| ==> if ts[i].Run? then ts[i].s != "" && AllKey(ts[i].s) else !IsKeyChar(ts[i].c))
    && forall i :: 0 < i < |ts| ==> ts[i - 1].Sep? || ts[i].Sep?
  }

  /** One more character ahead of some tokens. */
  function Push(c: char, rest: seq<Token>): seq<Token> {
    if !IsKeyChar(c) then [Sep(c)] + rest
    else if rest != [] && rest[0].Run? then [Run([c] + rest[0].s)] + rest[1..]
    else [Run([c])] + rest
  }

  lemma PushKeepsMaximal(c: char, rest: seq<Token>)
    requires Maximal(rest)
    ensures Maximal(Push(c, rest))
  {
    if rest != [] && rest[0].Run? {
      assert rest[0].s != "" && AllKey(rest[0].s);
    }
  }

  lemma PushRenders(c: char, rest: seq<Token>)
    ensures Render(Push(c, rest)) == [c] + Render(rest)
  {
    var ts := Push(c, rest);
    if IsKeyChar(c) && rest != [] && rest[0].Run? {
      assert ts[1..] == rest[1..];
    } else {
      assert ts[1..] == rest;
    }
  }

  lemma {:induction false} TokensAreMaximal(msg: string)
    ensures Maximal(Tokens(msg)) && Render(Tokens(msg)) == msg
    decreases |msg|
  {
    if msg != "" {
      TokensAreMaximal(msg[1..]);
      PushKeepsMaximal(msg[0], Tokens(msg[1..]));
      PushRenders(msg[0], Tokens(msg[1..]));
    }
  }

  lemma FirstTokenOf(msg: string)
    ensures Tokens(msg) != [] && Tokens(msg)[0].Run? ==> msg != "" && IsKeyChar(msg[0])
  {
  }

  /** A run with no run after it is one token, whatever its length. */
  lemma {:induction false} RunAhead(run: string, rest: string)
    requires run != "" && AllKey(run) && (rest == "" || !IsKeyChar(rest[0]))
    ensures Tokens(run + rest) == [Run(run)] + Tokens(rest)
    decreases |run|
  {
    assert (run + rest)[1..] == run[1..] + rest;
    if |run| == 1 {
      assert run[1..] + rest == rest;
      FirstTokenOf(rest);
      assert run == [run[0]];
    } else {
      RunAhead(run[1..], rest);
      assert [run[0]] + run[1..] == run;
    }
  }

  /** There is only one way to cut a message into maximal runs. */
  lemma {:induction false} RenderedTokens(ts: seq<Token>)
    requires Maximal(ts)
    ensures Tokens(Render(ts)) == ts
    decreases |ts|
  {
    if ts != [] {
      RenderedTokens(ts[1..]);
      var rest := Render(ts[1..]);
      if ts[0].Run? {
        assert rest == "" || !IsKeyChar(rest[0]) by {
          if ts[1..] != [] {
            assert ts[1].Sep?;
          }
        }
        RunAhead(ts[0].s, rest);
      } else {
        assert ([ts[0].c] + rest)[1..] == rest;
      }
    }
  }

  // ---------- What incriminates a run ----------

  predicate ContainsAt(s: string, t: string, i: int) { 0 <= i <= |s| - |t| && s[i..i + |t|] == t }

  predicate Contains(s: string, t: string) { exists i :: 0 <= i <= |s| - |t| && ContainsAt(s, t, i) }

  predicate HasSuffix(s: string, t: string) { |t| <= |s| && s[|s| - |t|..] == t }

  /** `fragmentIncriminates`. */
  predicate Incriminates(run: string, secret: string) {
    if |run| >= MIN_INTERIOR then Contains(secret, run)
    else if |run| >= MIN_EDGE then run <= secret || HasSuffix(secret, run)
    else false
  }

  predicate OwnWord(run: string) { Contains(PLACEHOLDER, run) && |run| >= |PLACEHOLDER_WORD| }

  predicate Leaks(run: string, secrets: seq<string>) {
    exists i :: 0 <= i < |secrets| && |secrets[i]| >= MIN_SECRET && Incriminates(run, secrets[i])
  }

  lemma OwnWordIs(run: string)
    requires AllKey(run)
    ensures OwnWord(run) <==> run == PLACEHOLDER_WORD
  {
    assert ContainsAt(PLACEHOLDER, PLACEHOLDER_WORD, 1);
    if OwnWord(run) {
      var i :| 0 <= i <= |PLACEHOLDER| - |run| && ContainsAt(PLACEHOLDER, run, i);
      assert run[0] == PLACEHOLDER[i] && run[|run| - 1] == PLACEHOLDER[i + |run| - 1];
    }
  }

  // ---------- The pass ----------

  const PLACED := [Sep('['), Run(PLACEHOLDER_WORD), Sep(']')]

  function ReplaceToken(secrets: seq<string>, t: Token): seq<Token> {
    if t.Run? && !OwnWord(t.s) && Leaks(t.s, secrets) then PLACED else [t]
  }

  function Replaced(secrets: seq<string>, ts: seq<Token>): seq<Token> {
    if ts == [] then [] else ReplaceToken(secrets, ts[0]) + Replaced(secrets, ts[1..])
  }

  /** The message with each leaking run, and nothing else, replaced by the placeholder. */
  function Redacted(msg: string, secrets: seq<string>): string { Render(Replaced(secrets, Tokens(msg))) }

  lemma OneToken(secrets: seq<string>, t: Token)
    ensures Render([t]) == (if t.Run? then t.s else [t.c])
    ensures Between([t]) == (if t.Run? then "" else [t.c])
    ensures Replaced(secrets, [t]) == ReplaceToken(secrets, t)
  {
    assert [t][1..] == [];
    FlatMapOne(Gap, t);
  }

  lemma PlacedTokens(secrets: seq<string>)
    ensures Render(PLACED) == PLACEHOLDER && Between(PLACED) == "[]" && Replaced(secrets, PLACED) == PLACED
  {
    PlaceholderIsTheWordInBrackets();
    PlaceholderWordStays(secrets);
    ThreeTokens(secrets, Sep('['), Run(PLACEHOLDER_WORD), Sep(']'));
  }

  lemma PlaceholderIsTheWordInBrackets()
    ensures ['['] + PLACEHOLDER_WORD + [']'] == PLACEHOLDER && "[]" == ['['] + [']']
  {
  }

  lemma PlaceholderWordStays(secrets: seq<string>)
    ensures ReplaceToken(secrets, Run(PLACEHOLDER_WORD)) == [Run(PLACEHOLDER_WORD)]
  {
    OwnWordIs(PLACEHOLDER_WORD);
  }

  lemma ThreeTokens(secrets: seq<string>, a: Token, b: Token, c: Token)
    requires a.Sep? && b.Run? && c.Sep?
    ensures Render([a, b, c]) == [a.c] + b.s + [c.c] && Between([a, b, c]) == [a.c] + [c.c]
    ensures Replaced(secrets, [a, b, c]) == [a] + ReplaceToken(secrets, b) + [c]
  {
    assert [a, b, c][1..] == [b, c] && [b, c][1..] == [c];
    OneToken(secrets, c);
    BetweenThree(a, b, c);
  }

  lemma BetweenThree(a: Token, b: Token, c: Token)
    ensures Between([a, b, c]) == Gap(a) + Gap(b) + Gap(c)
  {
    FlatMapOne(Gap, a);
    FlatMapAppend(Gap, [a], b);
    FlatMapAppend(Gap, [a] + [b], c);
    assert [a] + [b] + [c] == [a, b, c];
  }

  lemma {:induction false} RenderConcat(xs: seq<Token>, ys: seq<Token>)
    ensures Render(xs + ys) == Render(xs) + Render(ys)
    decreases |xs|
  {
    if xs == [] {
      assert xs + ys == ys;
    } else {
      assert (xs + ys)[1..] == xs[1..] + ys;
      RenderConcat(xs[1..], ys);
    }
  }

  lemma RenderReplacement(secrets: seq<string>, t: Token)
    ensures Render(ReplaceToken(secrets, t)) ==
      if t.Sep? then [t.c] else if !OwnWord(t.s) && Leaks(t.s, secrets) then PLACEHOLDER else t.s
  {
    PlacedTokens(secrets);
    assert [t][1..] == [];
  }

  /** Replacing keeps the tokens maximal, starting with a run only where one was. */
  lemma {:induction false} ReplacedIsMaximal(secrets: seq<string>, ts: seq<Token>)
    requires Maximal(ts)
    ensures Maximal(Replaced(secrets, ts))
    ensures ts != [] ==> Replaced(secrets, ts) != [] && (Replaced(secrets, ts)[0].Run? ==> ts[0].Run?)
    ensures ts == [] ==> Replaced(secrets, ts) == []
    decreases |ts|
  {
    if ts != [] {
      ReplacedIsMaximal(secrets, ts[1..]);
      Joined(ReplaceToken(secrets, ts[0]), Replaced(secrets, ts[1..]));
    }
  }

  lemma Joined(xs: seq<Token>, ys: seq<Token>)
    requires xs != [] && Maximal(xs) && Maximal(ys)
    requires ys != [] && xs[|xs| - 1].Run? ==> ys[0].Sep?
    ensures Maximal(xs + ys)
  {
  }

  lemma {:induction false} ReplacedTwice(secrets: seq<string>, ts: seq<Token>)
    ensures Replaced(secrets, Replaced(secrets, ts)) == Replaced(secrets, ts)
    decreases |ts|
  {
    if ts != [] {
      ReplacedTwice(secrets, ts[1..]);
      var head, rest := ReplaceToken(secrets, ts[0]), Replaced(secrets, ts[1..]);
      ReplacementIsStable(secrets, ts[0]);
      ReplacedConcat(secrets, head, rest);
    }
  }

  lemma ReplacementIsStable(secrets: seq<string>, t: Token)
    ensures Replaced(secrets, ReplaceToken(secrets, t)) == ReplaceToken(secrets, t)
  {
    PlacedTokens(secrets);
    assert [t][1..] == [];
  }

  lemma {:induction false} ReplacedConcat(secrets: seq<string>, xs: seq<Token>, ys: seq<Token>)
    ensures Replaced(secrets, xs + ys) == Replaced(secrets, xs) + Replaced(secrets, ys)
    decreases |xs|
  {
    if xs == [] {
      assert xs + ys == ys;
    } else {
      assert (xs + ys)[1..] == xs[1..] + ys;
      ReplacedConcat(secrets, xs[1..], ys);
    }
  }

  /** The runs of the redacted message are exactly the replaced runs of the message. */
  lemma RunsOfRedacted(msg: string, secrets: seq<string>)
    ensures Tokens(Redacted(msg, secrets)) == Replaced(secrets, Tokens(msg))
  {
    TokensAreMaximal(msg);
    ReplacedIsMaximal(secrets, Tokens(msg));
    RenderedTokens(Replaced(secrets, Tokens(msg)));
  }

  lemma RedactionIsIdempotent(msg: string, secrets: seq<string>)
    ensures Redacted(Redacted(msg, secrets), secrets) == Redacted(msg, secrets)
  {
    RunsOfRedacted(msg, secrets);
    ReplacedTwice(secrets, Tokens(msg));
  }

  lemma {:induction false} ReplacedRuns(secrets: seq<string>, ts: seq<Token>, t: Token)
    requires Maximal(ts) && t in Replaced(secrets, ts) && t.Run?
    ensures t.s == PLACEHOLDER_WORD || (t in ts && !Leaks(t.s, secrets))
    decreases |ts|
  {
    if t in ReplaceToken(secrets, ts[0]) {
      if t == ts[0] {
        OwnWordIs(t.s);
      }
    } else {
      ReplacedRuns(secrets, ts[1..], t);
    }
  }

  /**
   No maximal run of the redacted message but the placeholder's own word still lies
   inside an eligible secret at six characters or more, or at its edge at four; every
   other run was in the message.
   */
  lemma NothingLeaksAfterwards(msg: string, secrets: seq<string>, run: string)
    requires Run(run) in Tokens(Redacted(msg, secrets)) && run != PLACEHOLDER_WORD
    ensures Run(run) in Tokens(msg)
    ensures forall s :: s in secrets && |s| >= 12 ==>
      && (|run| >= 6 ==> !Contains(s, run))
      && (4 <= |run| < 6 ==> !(run <= s) && !HasSuffix(s, run))
  {
    TokensAreMaximal(msg);
    RunsOfRedacted(msg, secrets);
    ReplacedRuns(secrets, Tokens(msg), Run(run));
    assert forall s :: s in secrets && |s| >= MIN_SECRET ==> !Incriminates(run, s);
  }

  lemma {:induction false} HarmlessTokensStay(secrets: seq<string>, ts: seq<Token>, t: Token)
    requires t in ts && ReplaceToken(secrets, t) == [t]
    ensures t in Replaced(secrets, ts)
    decreases |ts|
  {
    if t != ts[0] {
      HarmlessTokensStay(secrets, ts[1..], t);
    }
  }

  /** And a run that is too short, or only met by secrets too short or that do not hold it so, stays. */
  lemma HarmlessRunsStay(msg: string, secrets: seq<string>, run: string)
    requires Run(run) in Tokens(msg)
    requires forall s :: s in secrets && |s| >= 12 ==>
      || |run| < 4
      || (|run| < 6 && !(run <= s) && !HasSuffix(s, run))
      || (|run| >= 6 && !Contains(s, run))
    ensures Run(run) in Tokens(Redacted(msg, secrets))
  {
    assert !Leaks(run, secrets) by {
      forall i | 0 <= i < |secrets| && |secrets[i]| >= MIN_SECRET
        ensures !Incriminates(run, secrets[i])
      {
        assert secrets[i] in secrets;
      }
    }
    RunsOfRedacted(msg, secrets);
    HarmlessTokensStay(secrets, Tokens(msg), Run(run));
  }

  function Gap(t: Token): string { if t.Sep? then [t.c] else "" }

  /** The characters between runs. */
  function Between(ts: seq<Token>): string { FlatMap(Gap, ts) }

  /** The non-key characters a token leaves behind: its own, or a replaced run's brackets. */
  function LeftBehind(secrets: seq<string>): Token -> string {
    (t: Token) => if t.Sep? then [t.c] else if !OwnWord(t.s) && Leaks(t.s, secrets) then "[]" else ""
  }

  lemma {:induction false} BetweenReplaced(secrets: seq<string>, ts: seq<Token>)
    ensures Between(Replaced(secrets, ts)) == FlatMap(LeftBehind(secrets), ts)
    decreases |ts|
  {
    if ts != [] {
      BetweenReplaced(secrets, ts[1..]);
      FlatMapConcat(Gap, ReplaceToken(secrets, ts[0]), Replaced(secrets, ts[1..]));
      FlatMapConcat(LeftBehind(secrets), [ts[0]], ts[1..]);
      assert ts == [ts[0]] + ts[1..];
      FlatMapOne(LeftBehind(secrets), ts[0]);
      PlacedTokens(secrets);
      OneToken(secrets, ts[0]);
    }
  }

  /**
   Every non-key character is kept, in place; the only ones added are the brackets of
   the placeholders, one pair where each replaced run stood.
   */
  lemma NonKeyCharactersAreKept(msg: string, secrets: seq<string>)
    ensures Between(Tokens(Redacted(msg, secrets))) == FlatMap(LeftBehind(secrets), Tokens(msg))
  {
    RunsOfRedacted(msg, secrets);
    BetweenReplaced(secrets, Tokens(msg));
  }

  // ---------- The pass, as the source runs it ----------

  /** What stands in for one run. */
  method ReplaceRun(run: string, eligible: seq<string>, ghost secrets: seq<string>) returns (out: string)
    requires forall s :: s in eligible <==> s in secrets && |s| >= MIN_SECRET
    ensures out == InPlaceOf(run, secrets)
  {
    SameLeaks(run, secrets, eligible);
    if OwnWord(run) {
      return run;
    }
    for i := 0 to |eligible|
      invariant forall j :: 0 <= j < i ==> !Incriminates(run, eligible[j])
    {
      if Incriminates(run, eligible[i]) {
        assert eligible[i] in eligible;
        return PLACEHOLDER;
      }
    }
    return run;
  }

  /** Where the maximal run starting at `i` ends. */
  method RunEnd(msg: string, i: nat) returns (j: nat)
    requires i <= |msg|
    ensures i <= j <= |msg| && AllKey(msg[i..j]) && (j == |msg| || !IsKeyChar(msg[j]))
  {
    j := i;
    while j < |msg| && IsKeyChar(msg[j])
      invariant i <= j <= |msg| && forall k :: i <= k < j ==> IsKeyChar(msg[k])
    {
      j := j + 1;
    }
  }

  method Eligible(secrets: seq<string>) returns (eligible: seq<string>)
    ensures forall i :: 0 <= i < |eligible| ==> |eligible[i]| >= MIN_SECRET
    ensures forall s :: s in eligible <==> s in secrets && |s| >= MIN_SECRET
  {
    eligible := [];
    for i := 0 to |secrets|
      invariant forall j :: 0 <= j < |eligible| ==> |eligible[j]| >= MIN_SECRET
      invariant forall s :: s in eligible <==> s in secrets[..i] && |s| >= MIN_SECRET
    {
      if |secrets[i]| >= MIN_SECRET {
        eligible := eligible + [secrets[i]];
      }
    }
    assert secrets[..|secrets|] == secrets;
  }

  lemma SameLeaks(run: string, secrets: seq<string>, eligible: seq<string>)
    requires forall s :: s in eligible <==> s in secrets && |s| >= MIN_SECRET
    ensures Leaks(run, eligible) <==> Leaks(run, secrets)
  {
    if Leaks(run, eligible) {
      var i :| 0 <= i < |eligible| && |eligible[i]| >= MIN_SECRET && Incriminates(run, eligible[i]);
      var j :| 0 <= j < |secrets| && secrets[j] == eligible[i];
    }
    if Leaks(run, secrets) {
      var i :| 0 <= i < |secrets| && |secrets[i]| >= MIN_SECRET && Incriminates(run, secrets[i]);
      assert secrets[i] in eligible;
      var j :| 0 <= j < |eligible| && eligible[j] == secrets[i];
    }
  }

  lemma {:induction false} NothingReplaced(secrets: seq<string>, ts: seq<Token>)
    requires forall s :: s in secrets ==> |s| < MIN_SECRET
    ensures Replaced(secrets, ts) == ts
    decreases |ts|
  {
    if ts != [] {
      NothingReplaced(secrets, ts[1..]);
    }
  }

  lemma NoSecretNoChange(msg: string, secrets: seq<string>, eligible: seq<string>)
    requires eligible == [] && forall s :: s in eligible <==> s in secrets && |s| >= MIN_SECRET
    ensures Redacted(msg, secrets) == msg
  {
    forall s | s in secrets
      ensures |s| < MIN_SECRET
    {
      assert s !in eligible;
    }
    NothingReplaced(secrets, Tokens(msg));
    TokensAreMaximal(msg);
  }

  /** `redactFragments`: the regular expression's maximal runs, replaced one by one. */
  method RedactFragments(msg: string, secrets: seq<string>) returns (out: string)
    ensures out == Redacted(msg, secrets)
  {
    var eligible := Eligible(secrets);
    if |eligible| == 0 {
      NoSecretNoChange(msg, secrets, eligible);
      return msg;
    }
    out := "";
    var i := 0;
    Bounds(msg, secrets);
    assert msg[0..] == msg && msg[|msg|..] == "";
    while i < |msg|
      invariant 0 <= i <= |msg| && Progress(out, msg[i..], msg, secrets)
    {
      var piece;
      piece, i := NextPiece(msg, i, eligible, secrets, out);
      out := out + piece;
    }
  }

  /** The next run's replacement, or the next character if no run starts here. */
  method NextPiece(msg: string, i: nat, eligible: seq<string>, ghost secrets: seq<string>, ghost out: string)
    returns (piece: string, j: nat)
    requires i < |msg| && Progress(out, msg[i..], msg, secrets)
    requires forall s :: s in eligible <==> s in secrets && |s| >= MIN_SECRET
    ensures i < j <= |msg| && Progress(out + piece, msg[j..], msg, secrets)
  {
    j := RunEnd(msg, i);
    if j == i {
      SepAt(out, msg, i, secrets);
      return [msg[i]], i + 1;
    }
    RunAt(out, msg, i, j, secrets);
    piece := ReplaceRun(msg[i..j], eligible, secrets);
  }

  lemma SepAt(out: string, msg: string, i: nat, secrets: seq<string>)
    requires i < |msg| && !IsKeyChar(msg[i]) && Progress(out, msg[i..], msg, secrets)
    ensures Progress(out + [msg[i]], msg[i + 1..], msg, secrets)
  {
    assert msg[i..] == [msg[i]] + msg[i + 1..];
    SepStep(out, msg[i], msg[i + 1..], msg, secrets);
  }

  lemma RunAt(out: string, msg: string, i: nat, j: nat, secrets: seq<string>)
    requires i < j <= |msg| && AllKey(msg[i..j]) && (j == |msg| || !IsKeyChar(msg[j]))
    requires Progress(out, msg[i..], msg, secrets)
    ensures Progress(out + InPlaceOf(msg[i..j], secrets), msg[j..], msg, secrets)
  {
    assert msg[i..] == msg[i..j] + msg[j..];
    RunStep(out, msg[i..j], msg[j..], msg, secrets);
  }

  /** What stands in the redacted message for a run. */
  function InPlaceOf(run: string, secrets: seq<string>): string {
    if !OwnWord(run) && Leaks(run, secrets) then PLACEHOLDER else run
  }

  lemma FirstToken(secrets: seq<string>, t: Token, rest: seq<Token>)
    ensures Render(Replaced(secrets, [t] + rest)) == Render(ReplaceToken(secrets, t)) + Render(Replaced(secrets, rest))
  {
    assert ([t] + rest)[1..] == rest;
    RenderConcat(ReplaceToken(secrets, t), Replaced(secrets, rest));
  }

  /** What is still to be scanned completes what has been put out. */
  predicate Progress(out: string, rest: string, msg: string, secrets: seq<string>) {
    out + Redactor(secrets)(rest) == Redactor(secrets)(msg)
  }

  function Redactor(secrets: seq<string>): string -> string { (msg: string) => Redacted(msg, secrets) }

  lemma Bounds(msg: string, secrets: seq<string>)
    ensures Progress("", msg, msg, secrets)
    ensures forall out :: Progress(out, "", msg, secrets) ==> out == Redacted(msg, secrets)
  {
    assert Redacted("", secrets) == "";
  }

  lemma SepStep(out: string, c: char, rest: string, msg: string, secrets: seq<string>)
    requires !IsKeyChar(c) && Progress(out, [c] + rest, msg, secrets)
    ensures Progress(out + [c], rest, msg, secrets)
  {
    SepKept(c, rest, secrets);
    Regroup(out, [c], Redacted(rest, secrets));
  }

  lemma SepKept(c: char, rest: string, secrets: seq<string>)
    requires !IsKeyChar(c)
    ensures Redacted([c] + rest, secrets) == [c] + Redacted(rest, secrets)
  {
    assert ([c] + rest)[1..] == rest;
    FirstToken(secrets, Sep(c), Tokens(rest));
    RenderReplacement(secrets, Sep(c));
  }

  lemma RunStep(out: string, run: string, rest: string, msg: string, secrets: seq<string>)
    requires run != "" && AllKey(run) && (rest == "" || !IsKeyChar(rest[0])) && Progress(out, run + rest, msg, secrets)
    ensures Progress(out + InPlaceOf(run, secrets), rest, msg, secrets)
  {
    RunReplaced(run, rest, secrets);
    Regroup(out, InPlaceOf(run, secrets), Redacted(rest, secrets));
  }

  lemma RunReplaced(run: string, rest: string, secrets: seq<string>)
    requires run != "" && AllKey(run) && (rest == "" || !IsKeyChar(rest[0]))
    ensures Redacted(run + rest, secrets) == InPlaceOf(run, secrets) + Redacted(rest, secrets)
  {
    RunAhead(run, rest);
    FirstToken(secrets, Run(run), Tokens(rest));
    RenderReplacement(secrets, Run(run));
  }
}
