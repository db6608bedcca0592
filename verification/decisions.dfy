/**
 Decision requests and answers: `Validate` of `llm/decision.go`, and the matching and
 conversion of `llm/provider/openai/decide.go`.

 Numbers in a response are reals, and a JSON value is kept only as far as decoding it
 to a string or an integer goes.
 */
module Decisions {
  import opened Common

  type Bytes = seq<bv8>

  // ---------- Requests ----------

  datatype Image = Image(url: string, data: Bytes, mediaType: string)

  datatype Kind = YesNo | Choice | Score | Unknown(name: string)

  datatype Opt = Opt(value: string, description: string)

  datatype Question = Question(name: string, kind: Kind, instructions: string, options: seq<Opt>)

  datatype Request = Request(input: string, images: seq<Image>, questions: seq<Question>)

  const MAX_CHOICES := 255

  /** What each validation message says is wrong. */
  datatype Fault =
    | NoInput
    | ImageSources(i: nat)
    | ImageWithoutType(i: nat)
    | NoQuestions
    | Unnamed(i: nat)
    | DuplicateName(name: string)
    | NoInstructions(name: string)
    | OptionCount(name: string)
    | UnknownKind(name: string)
    | EmptyOption(name: string)
    | DuplicateOption(name: string, value: string)

  predicate ImageOk(m: Image) { ((m.url == "") != (m.data == [])) && (m.data != [] ==> m.mediaType != "") }

  predicate DistinctValues(opts: seq<Opt>) {
    forall i, j :: 0 <= i < j < |opts| ==> opts[i].value != opts[j].value
  }

  predicate CountOk(q: Question) {
    match q.kind
    case YesNo => q.options == []
    case Choice => 2 <= |q.options| <= 255
    case Score => 2 <= |q.options|
    case Unknown(_) => false
  }

  predicate OptionsOk(q: Question) {
    CountOk(q) && DistinctValues(q.options) && forall i :: 0 <= i < |q.options| ==> q.options[i].value != ""
  }

  predicate DistinctNames(qs: seq<Question>) {
    forall i, j :: 0 <= i < j < |qs| ==> qs[i].name != qs[j].name
  }

  predicate QuestionOk(q: Question) { q.name != "" && q.instructions != "" && OptionsOk(q) }

  /** The requests a provider can be sent. */
  predicate WellFormed(r: Request) {
    && (r.input != "" || r.images != [])
    && (forall i :: 0 <= i < |r.images| ==> ImageOk(r.images[i]))
    && r.questions != []
    && DistinctNames(r.questions)
    && forall i :: 0 <= i < |r.questions| ==> QuestionOk(r.questions[i])
  }

  predicate OptionFault(q: Question, f: Fault) {
    match f
    case OptionCount(name) => name == q.name && !q.kind.Unknown? && !CountOk(q)
    case UnknownKind(name) => name == q.name && q.kind.Unknown?
    case EmptyOption(name) => name == q.name && exists i :: 0 <= i < |q.options| && q.options[i].value == ""
    case DuplicateOption(name, value) =>
      name == q.name && exists i, j :: 0 <= i < j < |q.options| && q.options[i].value == value == q.options[j].value
    case _ => false
  }

  /** The fault reported is really there. */
  predicate FaultHolds(r: Request, f: Fault) {
    match f
    case NoInput => r.input == "" && r.images == []
    case ImageSources(i) => i < |r.images| && (r.images[i].url == "") == (r.images[i].data == [])
    case ImageWithoutType(i) => i < |r.images| && r.images[i].data != [] && r.images[i].mediaType == ""
    case NoQuestions => r.questions == []
    case Unnamed(i) => i < |r.questions| && r.questions[i].name == ""
    case DuplicateName(name) =>
      exists i, j :: 0 <= i < j < |r.questions| && r.questions[i].name == name == r.questions[j].name
    case NoInstructions(name) =>
      exists i :: 0 <= i < |r.questions| && r.questions[i].name == name && r.questions[i].instructions == ""
    case _ => exists i :: 0 <= i < |r.questions| && OptionFault(r.questions[i], f)
  }

  /** `validateDecisionOptions`. */
  method ValidateDecisionOptions(q: Question) returns (fault: Option<Fault>)
    ensures fault.None? <==> OptionsOk(q)
    ensures fault.Some? ==> OptionFault(q, fault.value)
  {
    match q.kind {
      case YesNo =>
        return if |q.options| != 0 then Some(OptionCount(q.name)) else None;
      case Choice =>
        if |q.options| < 2 || |q.options| > MAX_CHOICES {
          return Some(OptionCount(q.name));
        }
      case Score =>
        if |q.options| < 2 {
          return Some(OptionCount(q.name));
        }
      case Unknown(_) =>
        return Some(UnknownKind(q.name));
    }
    var values: set<string> := {};
    for i := 0 to |q.options|
      invariant values == set j | 0 <= j < i :: q.options[j].value
      invariant DistinctValues(q.options[..i])
      invariant forall j :: 0 <= j < i ==> q.options[j].value != ""
    {
      var o := q.options[i];
      if o.value == "" {
        return Some(EmptyOption(q.name));
      }
      if o.value in values {
        return Some(DuplicateOption(q.name, o.value));
      }
      values := values + {o.value};
    }
    assert q.options[..|q.options|] == q.options;
    return None;
  }

  /** `Validate` accepts exactly the well-formed requests, and names a fault the others have. */
  method Validate(r: Request) returns (fault: Option<Fault>)
    ensures fault.None? <==> WellFormed(r)
    ensures fault.Some? ==> FaultHolds(r, fault.value)
  {
    if r.input == "" && |r.images| == 0 {
      return Some(NoInput);
    }
    for i := 0 to |r.images|
      invariant forall j :: 0 <= j < i ==> ImageOk(r.images[j])
    {
      var img := r.images[i];
      if (img.url == "") == (|img.data| == 0) {
        return Some(ImageSources(i));
      }
      if |img.data| > 0 && img.mediaType == "" {
        return Some(ImageWithoutType(i));
      }
    }
    if |r.questions| == 0 {
      return Some(NoQuestions);
    }
    fault := ValidateQuestions(r);
  }

  method ValidateQuestions(r: Request) returns (fault: Option<Fault>)
    ensures fault.None? <==>
      DistinctNames(r.questions) && forall i :: 0 <= i < |r.questions| ==> QuestionOk(r.questions[i])
    ensures fault.Some? ==> FaultHolds(r, fault.value)
  {
    var seen: set<string> := {};
    for i := 0 to |r.questions|
      invariant seen == set j | 0 <= j < i :: r.questions[j].name
      invariant DistinctNames(r.questions[..i])
      invariant forall j :: 0 <= j < i ==> QuestionOk(r.questions[j])
    {
      var q := r.questions[i];
      if q.name == "" {
        return Some(Unnamed(i));
      }
      if q.name in seen {
        return Some(DuplicateName(q.name));
      }
      seen := seen + {q.name};
      if q.instructions == "" {
        return Some(NoInstructions(q.name));
      }
      fault := ValidateDecisionOptions(q);
      if fault.Some? {
        assert OptionFault(r.questions[i], fault.value);
        return;
      }
    }
    assert r.questions[..|r.questions|] == r.questions;
    return None;
  }

  // ---------- Wire answers ----------

  /** A raw JSON value: missing, null, a string, an integer, or anything else. */
  datatype Json = Missing | Null | Str(s: string) | Int(n: int) | Other

  /** Decoding into a Go string; null leaves it empty. */
  function AsString(j: Json): Option<string> {
    match j
    case Str(s) => Some(s)
    case Null => Some("")
    case _ => None
  }

  /** Decoding into a Go int; null leaves it zero. */
  function AsInt(j: Json): Option<int> {
    match j
    case Int(n) => Some(n)
    case Null => Some(0)
    case _ => None
  }

  datatype WireProb = WireProb(value: Json, probability: Option<real>)

  datatype WireAnswer = WireAnswer(
    typ: string, name: string, probability: Option<real>, choice: Json, score: Option<real>,
    confidence: Option<real>, probabilities: seq<WireProb>)

  datatype OptionProbability = OptionProbability(value: string, probability: real)

  datatype Answer = Answer(
    name: string, kind: Kind, refused: bool, probability: real, choice: string, score: real,
    confidence: real, probabilities: seq<OptionProbability>)

  function WireType(k: Kind): string {
    match k
    case YesNo => "predicate"
    case Choice => "choice"
    case Score => "score"
    case Unknown(_) => ""
  }

  predicate IsProbability(p: Option<real>) { p.Some? && 0.0 <= p.value <= 1.0 }

  predicate IsScore(s: Option<real>, levels: nat) { s.Some? && 0.0 <= s.value <= (levels - 1) as real }

  predicate HasOption(opts: seq<Opt>, v: string) { exists i :: 0 <= i < |opts| && opts[i].value == v }

  /** The probability given for a choice: the last entry whose value is it decides. */
  function ByValue(ps: seq<WireProb>, v: string): Option<real> {
    if ps == [] then None
    else if ps[|ps| - 1].value == Str(v) then ps[|ps| - 1].probability
    else ByValue(ps[..|ps| - 1], v)
  }

  /** The probability given for a level: the last entry whose value is its index decides. */
  function ByIndex(ps: seq<WireProb>, i: nat): Option<real> {
    if ps == [] then None
    else if AsInt(ps[|ps| - 1].value) == Some(i) then ps[|ps| - 1].probability
    else ByIndex(ps[..|ps| - 1], i)
  }

  /** What the response says about option `i` of a question. */
  function GivenFor(q: Question, wa: WireAnswer, i: nat): Option<real>
    requires i < |q.options|
  {
    if q.kind == Choice then ByValue(wa.probabilities, q.options[i].value) else ByIndex(wa.probabilities, i)
  }

  predicate Weighted(q: Question, wa: WireAnswer, a: Answer) {
    && wa.confidence == Some(a.confidence)
    && |a.probabilities| == |q.options|
    && forall i :: 0 <= i < |q.options| ==>
         a.probabilities[i].value == q.options[i].value && GivenFor(q, wa, i) == Some(a.probabilities[i].probability)
  }

  const ZERO := Answer("", YesNo, false, 0.0, "", 0.0, 0.0, [])

  /** The answer `a` says exactly what the response says about the question. */
  predicate Says(q: Question, wa: WireAnswer, a: Answer) {
    var blank := ZERO.(name := q.name, kind := q.kind);
    if wa.typ == "refusal" then a == blank.(refused := true)
    else
      match q.kind
      case YesNo => wa.typ == "predicate" && wa.probability == Some(a.probability) && a == blank.(probability := a.probability)
      case Choice =>
        && wa.typ == "choice" && wa.choice == Str(a.choice) && HasOption(q.options, a.choice) && Weighted(q, wa, a)
        && a == blank.(choice := a.choice, confidence := a.confidence, probabilities := a.probabilities)
      case Score =>
        && wa.typ == "score" && wa.score == Some(a.score) && 0.0 <= a.score <= (|q.options| - 1) as real && Weighted(q, wa, a)
        && a == blank.(score := a.score, confidence := a.confidence, probabilities := a.probabilities)
      case Unknown(_) => false
  }

  /** Every probability an answer carries, its confidence included, lies in [0, 1]. */
  predicate InRange(a: Answer) {
    && 0.0 <= a.probability <= 1.0 && 0.0 <= a.confidence <= 1.0
    && forall i :: 0 <= i < |a.probabilities| ==> 0.0 <= a.probabilities[i].probability <= 1.0
  }

  /** At most one answer says what the response says. */
  lemma AnswerIsDetermined(q: Question, wa: WireAnswer, a: Answer, b: Answer)
    requires Says(q, wa, a) && Says(q, wa, b)
    ensures a == b
  {
    if wa.typ != "refusal" && q.kind != YesNo {
      assert a.probabilities == b.probabilities by {
        forall i | 0 <= i < |q.options|
          ensures a.probabilities[i] == b.probabilities[i]
        {
          assert GivenFor(q, wa, i) == Some(a.probabilities[i].probability);
        }
      }
    }
  }

  // ---------- Levels and null ----------

  /** The probability given for a level by its integer index alone: a null decides nothing. */
  function ByInteger(ps: seq<WireProb>, i: nat): Option<real> {
    if ps == [] then None
    else if ps[|ps| - 1].value == Int(i) then ps[|ps| - 1].probability
    else ByInteger(ps[..|ps| - 1], i)
  }

  /** The last entry that decodes to index 0. */
  function Deciding(ps: seq<WireProb>): Option<WireProb> {
    if ps == [] then None
    else if AsInt(ps[|ps| - 1].value) == Some(0) then Some(ps[|ps| - 1])
    else Deciding(ps[..|ps| - 1])
  }

  /** A null comes after every integer 0, and does not just repeat the last one's probability. */
  predicate NullOverrides(ps: seq<WireProb>) {
    var e := Deciding(ps);
    e.Some? && e.value.value == Null && e.value.probability != ByInteger(ps, 0)
  }

  /**
   Null decodes to index 0. Matching levels by decoded index is matching them by integer
   index exactly when no null overrides the lowest level; other levels always agree.
   */
  lemma {:induction false} LevelsMatchByIntegerIff(ps: seq<WireProb>, i: nat)
    ensures i > 0 ==> ByIndex(ps, i) == ByInteger(ps, i)
    ensures ByIndex(ps, 0) == ByInteger(ps, 0) <==> !NullOverrides(ps)
    ensures ByIndex(ps, 0) == if Deciding(ps).Some? then Deciding(ps).value.probability else None
    ensures Deciding(ps).Some? && Deciding(ps).value.value != Null ==> Deciding(ps).value.probability == ByInteger(ps, 0)
    ensures Deciding(ps).None? ==> ByInteger(ps, 0) == None
    decreases |ps|
  {
    if ps != [] {
      LevelsMatchByIntegerIff(ps[..|ps| - 1], i);
    }
  }

  /** Every level of the answer has the probability given for its integer index. */
  predicate ByTheirIntegers(q: Question, wa: WireAnswer, a: Answer) {
    && |a.probabilities| == |q.options|
    && forall i :: 0 <= i < |q.options| ==> ByInteger(wa.probabilities, i) == Some(a.probabilities[i].probability)
  }

  /** A score answer gives every level the probability of its integer index exactly when no null overrides. */
  lemma ScoreMatchesIntegersIff(q: Question, wa: WireAnswer, a: Answer)
    requires q.kind == Score && OptionsOk(q) && wa.typ != "refusal" && Says(q, wa, a)
    ensures ByTheirIntegers(q, wa, a) <==> !NullOverrides(wa.probabilities)
  {
    assert Weighted(q, wa, a);
    forall i: nat | i < |q.options|
      ensures ByInteger(wa.probabilities, i) == Some(a.probabilities[i].probability)
         <==> i > 0 || !NullOverrides(wa.probabilities)
    {
      LevelsMatchByIntegerIff(wa.probabilities, i);
      assert GivenFor(q, wa, i) == Some(a.probabilities[i].probability);
    }
  }

  lemma TwoEntries(a: WireProb, b: WireProb, i: nat)
    ensures ByIndex([a, b], i) ==
      if AsInt(b.value) == Some(i) then b.probability else if AsInt(a.value) == Some(i) then a.probability else None
    ensures ByInteger([a, b], i) ==
      if b.value == Int(i) then b.probability else if a.value == Int(i) then a.probability else None
  {
    assert [a, b][..1] == [a] && [a][..0] == [];
    assert ByIndex([a], i) == if AsInt(a.value) == Some(i) then a.probability else None;
    assert ByInteger([a], i) == if a.value == Int(i) then a.probability else None;
  }

  /** A response that gives no probability for level 0 but a null one is usable all the same. */
  lemma NullAnswerIsUsable(q: Question, wa: WireAnswer)
    requires q.kind == Score && |q.options| == 2 && wa.typ == "score"
    requires wa.score == Some(0.5) && wa.confidence == Some(1.0)
    requires wa.probabilities == [WireProb(Null, Some(0.5)), WireProb(Int(1), Some(0.5))]
    ensures Usable(q, wa) && NullOverrides(wa.probabilities) && ByInteger(wa.probabilities, 0) == None
  {
    var ps := wa.probabilities;
    TwoEntries(ps[0], ps[1], 0);
    TwoEntries(ps[0], ps[1], 1);
    assert ps == [ps[0], ps[1]];
    var a := ZERO.(name := q.name, kind := q.kind, score := 0.5, confidence := 1.0,
      probabilities := [OptionProbability(q.options[0].value, 0.5), OptionProbability(q.options[1].value, 0.5)]);
    assert GivenFor(q, wa, 0) == Some(0.5) && GivenFor(q, wa, 1) == Some(0.5);
    assert Says(q, wa, a) && InRange(a);
    LevelsMatchByIntegerIff(ps, 0);
  }

  // ---------- Conversion ----------

  datatype Result<T> = Ok(value: T) | Err(question: string)

  function Lookup(m: map<string, Option<real>>, v: string): Option<real> { if v in m then m[v] else None }

  /** `withProbabilities`. */
  method WithProbabilities(a: Answer, q: Question, confidence: Option<real>, probs: map<string, Option<real>>)
    returns (r: Result<Answer>)
    ensures r.Ok? <==>
      (IsProbability(confidence)
       && forall i :: 0 <= i < |q.options| ==> IsProbability(Lookup(probs, q.options[i].value)))
    ensures r.Err? ==> r.question == q.name
    ensures r.Ok? ==>
      && r.value == a.(confidence := confidence.value, probabilities := r.value.probabilities)
      && |r.value.probabilities| == |q.options|
      && forall i :: 0 <= i < |q.options| ==>
           r.value.probabilities[i].value == q.options[i].value
           && Lookup(probs, q.options[i].value) == Some(r.value.probabilities[i].probability)
  {
    if !IsProbability(confidence) {
      return Err(q.name);
    }
    var out: seq<OptionProbability> := [];
    for i := 0 to |q.options|
      invariant |out| == i
      invariant forall j :: 0 <= j < i ==>
                  && IsProbability(Lookup(probs, q.options[j].value))
                  && out[j] == OptionProbability(q.options[j].value, Lookup(probs, q.options[j].value).value)
    {
      var p := Lookup(probs, q.options[i].value);
      if !IsProbability(p) {
        return Err(q.name);
      }
      out := out + [OptionProbability(q.options[i].value, p.value)];
    }
    return Ok(a.(confidence := confidence.value, probabilities := out));
  }

  method ChoiceProbabilities(ps: seq<WireProb>) returns (probs: map<string, Option<real>>)
    ensures forall v :: v != "" ==> Lookup(probs, v) == ByValue(ps, v)
  {
    probs := map[];
    for i := 0 to |ps|
      invariant forall v :: v != "" ==> Lookup(probs, v) == ByValue(ps[..i], v)
    {
      assert ps[..i + 1][..i] == ps[..i];
      var v := AsString(ps[i].value);
      if v.Some? {
        probs := probs[v.value := ps[i].probability];
      }
    }
    assert ps[..|ps|] == ps;
  }

  /**
   Levels go through a map keyed by option value; since values are unique each key
   still holds what was given for its level's index.
   */
  method LevelProbabilities(q: Question, ps: seq<WireProb>) returns (probs: map<string, Option<real>>)
    requires DistinctValues(q.options)
    ensures forall i :: 0 <= i < |q.options| ==> Lookup(probs, q.options[i].value) == ByIndex(ps, i)
  {
    probs := map[];
    for k := 0 to |ps|
      invariant forall i :: 0 <= i < |q.options| ==> Lookup(probs, q.options[i].value) == ByIndex(ps[..k], i)
    {
      assert ps[..k + 1][..k] == ps[..k];
      var idx := AsInt(ps[k].value);
      if idx.None? || idx.value < 0 || idx.value >= |q.options| {
        continue;
      }
      probs := probs[q.options[idx.value].value := ps[k].probability];
    }
    assert ps[..|ps|] == ps;
  }

  method DecisionHasOption(opts: seq<Opt>, v: string) returns (found: bool)
    ensures found <==> HasOption(opts, v)
  {
    for i := 0 to |opts|
      invariant forall j :: 0 <= j < i ==> opts[j].value != v
    {
      if opts[i].value == v {
        return true;
      }
    }
    return false;
  }

  /** A response is usable for a question: some in-range answer says what it says. */
  ghost predicate Usable(q: Question, wa: WireAnswer) { exists a :: Says(q, wa, a) && InRange(a) }

  /**
   `convertDecisionAnswer`, for the one response to a question: it succeeds exactly
   when the response is usable, with the one answer that says the same.
   */
  method ConvertAnswer(q: Question, wa: WireAnswer) returns (r: Result<Answer>)
    requires OptionsOk(q)
    ensures r.Ok? <==> Usable(q, wa)
    ensures r.Err? ==> r.question == q.name
    ensures r.Ok? ==> Says(q, wa, r.value) && InRange(r.value)
  {
    var a := ZERO.(name := q.name, kind := q.kind);
    if wa.typ == "refusal" {
      a := a.(refused := true);
      assert Says(q, wa, a);
      return Ok(a);
    }
    if wa.typ != WireType(q.kind) {
      return Err(q.name);
    }
    if q.kind == YesNo {
      if !IsProbability(wa.probability) {
        return Err(q.name);
      }
      a := a.(probability := wa.probability.value);
      assert Says(q, wa, a);
      return Ok(a);
    }
    if q.kind == Choice {
      var choice := AsString(wa.choice);
      if choice.None? {
        return Err(q.name);
      }
      var has := DecisionHasOption(q.options, choice.value);
      if !has {
        return Err(q.name);
      }
      var probs := ChoiceProbabilities(wa.probabilities);
      r := WithProbabilities(a.(choice := choice.value), q, wa.confidence, probs);
      assert r.Ok? ==> Says(q, wa, r.value);
      return;
    }
    if !IsScore(wa.score, |q.options|) {
      return Err(q.name);
    }
    var probs := LevelProbabilities(q, wa.probabilities);
    r := WithProbabilities(a.(score := wa.score.value), q, wa.confidence, probs);
    assert r.Ok? ==> Says(q, wa, r.value);
  }

  // ---------- The whole response ----------

  /** The wire answers naming a question. */
  function AnswersTo(name: string, raw: seq<WireAnswer>): seq<WireAnswer> {
    if raw == [] then []
    else AnswersTo(name, raw[..|raw| - 1]) + if raw[|raw| - 1].name == name then [raw[|raw| - 1]] else []
  }

  /** The response answers a question exactly once, usably. */
  ghost predicate AnswersOnce(q: Question, raw: seq<WireAnswer>) {
    |AnswersTo(q.name, raw)| == 1 && Usable(q, AnswersTo(q.name, raw)[0])
  }

  ghost predicate Answerable(req: Request, raw: seq<WireAnswer>) {
    forall i :: 0 <= i < |req.questions| ==> AnswersOnce(req.questions[i], raw)
  }

  /** The question an error names is one the response does not answer. */
  ghost predicate Unanswered(req: Request, raw: seq<WireAnswer>, name: string) {
    exists i :: 0 <= i < |req.questions| && req.questions[i].name == name && !AnswersOnce(req.questions[i], raw)
  }

  /** One answer per question in request order, each saying what the response says and in range. */
  ghost predicate FaithfulAnswers(req: Request, raw: seq<WireAnswer>, answers: seq<Answer>) {
    && |answers| == |req.questions|
    && forall i :: 0 <= i < |answers| ==>
         && |AnswersTo(req.questions[i].name, raw)| == 1
         && Says(req.questions[i], AnswersTo(req.questions[i].name, raw)[0], answers[i])
         && InRange(answers[i])
  }

  datatype Outcome = Answered(answers: seq<Answer>) | Invalid(fault: Fault) | BadResponse(question: string)

  predicate Asked(req: Request, name: string) { exists i :: 0 <= i < |req.questions| && req.questions[i].name == name }

  /** The loop of `Decide` that matches answers by name. */
  method MatchAnswers(req: Request, raw: seq<WireAnswer>) returns (r: Result<map<string, WireAnswer>>)
    ensures r.Err? ==> Asked(req, r.question) && |AnswersTo(r.question, raw)| > 1
    ensures r.Ok? ==> forall name :: Asked(req, name) ==>
      if name in r.value then AnswersTo(name, raw) == [r.value[name]] else AnswersTo(name, raw) == []
  {
    var asked: set<string> := {};
    for i := 0 to |req.questions|
      invariant asked == set j | 0 <= j < i :: req.questions[j].name
    {
      asked := asked + {req.questions[i].name};
    }
    var byName: map<string, WireAnswer> := map[];
    for i := 0 to |raw|
      invariant forall name :: name in byName ==> name in asked && AnswersTo(name, raw[..i]) == [byName[name]]
      invariant forall name :: name in asked && name !in byName ==> AnswersTo(name, raw[..i]) == []
    {
      assert raw[..i + 1][..i] == raw[..i];
      var a := raw[i];
      if a.name !in asked {
        continue;
      }
      if a.name in byName {
        MoreAnswers(a.name, raw, i + 1);
        return Err(a.name);
      }
      byName := byName[a.name := a];
    }
    assert raw[..|raw|] == raw;
    return Ok(byName);
  }

  lemma {:induction false} MoreAnswers(name: string, raw: seq<WireAnswer>, n: nat)
    requires n <= |raw|
    ensures |AnswersTo(name, raw[..n])| <= |AnswersTo(name, raw)|
    decreases |raw|
  {
    if n == |raw| {
      assert raw[..n] == raw;
    } else {
      var shorter := raw[..|raw| - 1];
      MoreAnswers(name, shorter, n);
      assert shorter[..n] == raw[..n];
    }
  }

  /**
   `Decide` on a decoded response: the answers are returned exactly when the request
   is well-formed and the response answers every question once and usably, and then
   they are faithful.
   */
  method Decide(req: Request, raw: seq<WireAnswer>) returns (r: Outcome)
    ensures r.Answered? <==> WellFormed(req) && Answerable(req, raw)
    ensures r.Answered? ==> FaithfulAnswers(req, raw, r.answers)
    ensures r.BadResponse? ==> Unanswered(req, raw, r.question)
    ensures r.Invalid? ==> FaultHolds(req, r.fault)
  {
    var fault := Validate(req);
    if fault.Some? {
      return Invalid(fault.value);
    }
    var matched := MatchAnswers(req, raw);
    if matched.Err? {
      assert Unanswered(req, raw, matched.question);
      return BadResponse(matched.question);
    }
    var byName := matched.value;
    var answers: seq<Answer> := [];
    for i := 0 to |req.questions|
      invariant |answers| == i
      invariant forall j :: 0 <= j < i ==>
                  && |AnswersTo(req.questions[j].name, raw)| == 1
                  && Says(req.questions[j], AnswersTo(req.questions[j].name, raw)[0], answers[j])
                  && InRange(answers[j])
    {
      var q := req.questions[i];
      assert Asked(req, q.name);
      if q.name !in byName {
        assert !AnswersOnce(req.questions[i], raw);
        return BadResponse(q.name);
      }
      var a := ConvertAnswer(q, byName[q.name]);
      if a.Err? {
        assert !AnswersOnce(req.questions[i], raw);
        return BadResponse(a.question);
      }
      answers := answers + [a.value];
    }
    return Answered(answers);
  }

  lemma {:induction false} AnswersToCounts(name: string, raw: seq<WireAnswer>, x: WireAnswer)
    ensures multiset(AnswersTo(name, raw))[x] == if x.name == name then multiset(raw)[x] else 0
    decreases |raw|
  {
    if raw != [] {
      var n := |raw| - 1;
      AnswersToCounts(name, raw[..n], x);
      assert raw == raw[..n] + [raw[n]];
    }
  }

  lemma SameAnswersTo(name: string, raw: seq<WireAnswer>, other: seq<WireAnswer>)
    requires multiset(raw) == multiset(other)
    ensures |AnswersTo(name, raw)| == 1 ==> AnswersTo(name, other) == AnswersTo(name, raw)
  {
    forall x
      ensures multiset(AnswersTo(name, raw))[x] == multiset(AnswersTo(name, other))[x]
    {
      AnswersToCounts(name, raw, x);
      AnswersToCounts(name, other, x);
    }
    OneOfTheSame(AnswersTo(name, raw), AnswersTo(name, other));
  }

  lemma OneOfTheSame(xs: seq<WireAnswer>, ys: seq<WireAnswer>)
    requires forall x :: multiset(xs)[x] == multiset(ys)[x]
    ensures |xs| == 1 ==> ys == xs
  {
    assert multiset(xs) == multiset(ys);
    if |xs| == 1 {
      assert |multiset(xs)| == |multiset(ys)|;
      assert xs[0] in multiset(ys);
    }
  }

  /**
   The order of the wire answers does not matter: whether they can be used, and the
   answers they give, depend only on which they are.
   */
  lemma WireOrderDoesNotMatter(req: Request, raw: seq<WireAnswer>, other: seq<WireAnswer>, a: seq<Answer>, b: seq<Answer>)
    requires multiset(raw) == multiset(other)
    ensures Answerable(req, raw) ==> Answerable(req, other)
    ensures FaithfulAnswers(req, raw, a) && FaithfulAnswers(req, other, b) ==> a == b
  {
    forall i | 0 <= i < |req.questions|
      ensures |AnswersTo(req.questions[i].name, raw)| == 1 ==>
        AnswersTo(req.questions[i].name, other) == AnswersTo(req.questions[i].name, raw)
    {
      SameAnswersTo(req.questions[i].name, raw, other);
    }
    if FaithfulAnswers(req, raw, a) && FaithfulAnswers(req, other, b) {
      forall i | 0 <= i < |a|
        ensures a[i] == b[i]
      {
        AnswerIsDetermined(req.questions[i], AnswersTo(req.questions[i].name, raw)[0], a[i], b[i]);
      }
    }
  }
}
