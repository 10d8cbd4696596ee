/** The calculator tool and the classifier that decides whether a query asks
    for a calculation (`modules/agents/tools.py`). */
module Tools {
  import opened Wrappers
  import opened Text

  /** One regular-expression rule of the classifier. */
  datatype Pattern =
      /** `\d+\s*[ops]\s*\d+` followed by the literal `tail`. */
    | Infix(ops: set<char>, tail: string)
      /** `\d+` followed by the literal `tail`. */
    | DigitsThen(tail: string)
      /** `w1|w2|...`: an alternation of literal words. */
    | AnyWord(words: seq<string>)
      /** `[...]`: a character class. */
    | AnyChar(chars: set<char>)

  /** The words of the keyword rule: calculation, addition, subtraction,
      multiplication, division, full-width percent sign, percent, square root,
      power, radical sign. */
  const MathWords: seq<string> :=
    ["計算", "足し算", "引き算", "掛け算", "割り算", "％", "パーセント", "平方根", "累乗", "√"]

  const OperatorChars: set<char> := {'+', '-', '*', '/', '='}

  /** The classifier's rules, in the order the source lists them. */
  const MathPatterns: seq<Pattern> := [
    Infix({'+', '-', '*', '/'}, ""),   // basic arithmetic
    Infix({'の'}, "%"),                // "N の M%"
    DigitsThen("%"),                   // percent
    AnyWord(MathWords),                // keywords
    AnyChar(OperatorChars),            // operator symbols
    Infix({'+'}, ""),                  // addition
    Infix({'-'}, ""),                  // subtraction
    Infix({'×'}, ""),                  // multiplication sign
    Infix({'÷'}, "")                   // division sign
  ]

  predicate AllSpaces(s: string, lo: int, hi: int)
    requires 0 <= lo <= hi <= |s|
  {
    forall x :: lo <= x < hi ==> IsSpace(s[x])
  }

  predicate AllDigits(s: string, lo: int, hi: int)
    requires 0 <= lo <= hi <= |s|
  {
    forall x :: lo <= x < hi ==> IsDigit(s[x])
  }

  /** An `Infix(ops, tail)` match whose left digit run ends at `i`, whose
      operator is at `j` and whose right digit run is `s[m..e]`. A longer left
      run changes nothing, so one digit at `i` stands for it. */
  predicate InfixAt(s: string, ops: set<char>, tail: string, i: int, j: int, m: int, e: int) {
    && 0 <= i < j < m < e <= |s|
    && IsDigit(s[i]) && AllSpaces(s, i + 1, j) && s[j] in ops
    && AllSpaces(s, j + 1, m) && AllDigits(s, m, e)
    && OccursAt(s, tail, e)
  }

  /** `re.search(p, s)` finds a match. */
  predicate Matches(p: Pattern, s: string) {
    match p
    case Infix(ops, tail) =>
      exists i, j, m, e | 0 <= i < j < m < e <= |s| :: InfixAt(s, ops, tail, i, j, m, e)
    case DigitsThen(tail) =>
      exists e | 0 < e <= |s| :: IsDigit(s[e - 1]) && OccursAt(s, tail, e)
    case AnyWord(words) =>
      exists w | w in words :: Contains(s, w)
    case AnyChar(chars) =>
      exists i | 0 <= i < |s| :: s[i] in chars
  }

  /** The loop over the rules: stop at the first rule that matches. It
      answers true exactly when some rule of the list matches. */
  function AnyMatch(ps: seq<Pattern>, s: string): (r: bool)
    ensures r <==> exists k | 0 <= k < |ps| :: Matches(ps[k], s)
  {
    if |ps| == 0 then false
    else
      assert forall k | 0 <= k < |ps| - 1 :: ps[1..][k] == ps[k + 1];
      Matches(ps[0], s) || AnyMatch(ps[1..], s)
  }

  /** `ToolManager.is_math_query`: true iff one of the nine rules matches. */
  function IsMathQuery(query: string): (r: bool)
    ensures r <==> exists k | 0 <= k < |MathPatterns| :: Matches(MathPatterns[k], query)
  {
    AnyMatch(MathPatterns, query)
  }

  /** Reordering the rules does not change the verdict. */
  lemma PatternOrderIrrelevant(ps: seq<Pattern>, qs: seq<Pattern>, s: string)
    requires multiset(ps) == multiset(qs)
    ensures AnyMatch(ps, s) == AnyMatch(qs, s)
  {
    if AnyMatch(ps, s) {
      var k :| 0 <= k < |ps| && Matches(ps[k], s);
      assert ps[k] in multiset(qs);
      var k' :| 0 <= k' < |qs| && qs[k'] == ps[k];
    }
    if AnyMatch(qs, s) {
      var k :| 0 <= k < |qs| && Matches(qs[k], s);
      assert qs[k] in multiset(ps);
      var k' :| 0 <= k' < |ps| && ps[k'] == qs[k];
    }
  }

  predicate HasOperatorChar(s: string) {
    exists i | 0 <= i < |s| :: s[i] in OperatorChars
  }

  predicate HasMathWord(s: string) {
    exists w | w in MathWords :: Contains(s, w)
  }

  predicate HasDigitPercent(s: string) {
    exists i | 0 <= i < |s| - 1 :: IsDigit(s[i]) && s[i + 1] == '%'
  }

  predicate HasDigit(s: string) {
    exists i | 0 <= i < |s| :: IsDigit(s[i])
  }

  /** An infix rule whose operators are all operator symbols is subsumed by
      the operator-symbol rule. */
  lemma InfixImpliesOperator(ops: set<char>, s: string)
    requires ops <= OperatorChars
    requires Matches(Infix(ops, ""), s)
    ensures HasOperatorChar(s)
  {
    var i, j, m, e :| 0 <= i < j < m < e <= |s| && InfixAt(s, ops, "", i, j, m, e);
    assert s[j] in OperatorChars;
  }

  /** `\d+\s*の\s*\d+%` is subsumed by `\d+%`. */
  lemma NoPercentImpliesDigitPercent(s: string)
    requires Matches(Infix({'の'}, "%"), s)
    ensures HasDigitPercent(s)
  {
    var i, j, m, e :| 0 <= i < j < m < e <= |s| && InfixAt(s, {'の'}, "%", i, j, m, e);
    assert s[e..e + 1] == "%";
    assert IsDigit(s[e - 1]) && s[e] == '%';
  }

  lemma DigitPercentMatches(s: string)
    ensures Matches(DigitsThen("%"), s) <==> HasDigitPercent(s)
  {
    if HasDigitPercent(s) {
      var i :| 0 <= i < |s| - 1 && IsDigit(s[i]) && s[i + 1] == '%';
      assert s[i + 1..i + 2] == "%";
      assert OccursAt(s, "%", i + 1);
    }
    if Matches(DigitsThen("%"), s) {
      var e :| 0 < e <= |s| && IsDigit(s[e - 1]) && OccursAt(s, "%", e);
      assert s[e..e + 1] == "%";
      assert IsDigit(s[e - 1]) && s[e] == '%';
    }
  }

  /** The rules the classifier cannot do without: those of lines 52, 57 and
      58 are subsumed by the operator-symbol rule and left out. */
  const EssentialPatterns: seq<Pattern> := [
    Infix({'の'}, "%"),
    DigitsThen("%"),
    AnyWord(MathWords),
    AnyChar(OperatorChars),
    Infix({'×'}, ""),
    Infix({'÷'}, "")
  ]

  lemma DroppingSubsumedRules(query: string)
    ensures IsMathQuery(query) == AnyMatch(EssentialPatterns, query)
  {
    if IsMathQuery(query) {
      var k :| 0 <= k < |MathPatterns| && Matches(MathPatterns[k], query);
      EssentialCovers(query, k);
    }
    if AnyMatch(EssentialPatterns, query) {
      var k :| 0 <= k < |EssentialPatterns| && Matches(EssentialPatterns[k], query);
      var m := if k <= 3 then k + 1 else k + 3;
      assert MathPatterns[m] == EssentialPatterns[k];
    }
  }

  /** A query matched by any of the nine rules is matched by an essential one. */
  lemma EssentialCovers(query: string, k: int)
    requires 0 <= k < |MathPatterns| && Matches(MathPatterns[k], query)
    ensures AnyMatch(EssentialPatterns, query)
  {
    if k == 0 || k == 5 || k == 6 {
      InfixImpliesOperator(MathPatterns[k].ops, query);
      assert Matches(EssentialPatterns[3], query);
    } else {
      var k' := if k <= 4 then k - 1 else k - 3;
      assert EssentialPatterns[k'] == MathPatterns[k];
    }
  }

  /** The classifier in plain terms: an operator symbol, a keyword, a digit
      directly followed by `%`, or `×` / `÷` with digits on both sides. */
  lemma IsMathQueryCharacterized(query: string)
    ensures IsMathQuery(query) <==>
      || HasOperatorChar(query)
      || HasMathWord(query)
      || HasDigitPercent(query)
      || Matches(Infix({'×'}, ""), query)
      || Matches(Infix({'÷'}, ""), query)
  {
    DroppingSubsumedRules(query);
    DigitPercentMatches(query);
    if Matches(Infix({'の'}, "%"), query) {
      NoPercentImpliesDigitPercent(query);
    }
    var e := EssentialPatterns;
    assert AnyMatch(e, query) <==>
      Matches(e[0], query) || Matches(e[1], query) || Matches(e[2], query) ||
      Matches(e[3], query) || Matches(e[4], query) || Matches(e[5], query);
  }

  lemma OperatorCharIsMath(query: string)
    requires HasOperatorChar(query)
    ensures IsMathQuery(query)
  {
    IsMathQueryCharacterized(query);
  }

  lemma DigitPercentIsMath(query: string)
    requires HasDigitPercent(query)
    ensures IsMathQuery(query)
  {
    IsMathQueryCharacterized(query);
  }

  lemma MathWordIsMath(query: string)
    requires HasMathWord(query)
    ensures IsMathQuery(query)
  {
    IsMathQueryCharacterized(query);
  }

  /** Without a digit only the operator symbols and the keywords count: `×`
      and `÷` then never make a query a calculation. */
  lemma NoDigitMath(query: string)
    requires !HasDigit(query)
    ensures IsMathQuery(query) <==> HasOperatorChar(query) || HasMathWord(query)
  {
    IsMathQueryCharacterized(query);
  }

  /** `×` between two digits, with or without spaces, is a calculation. */
  lemma TimesBetweenDigits(query: string, i: nat, j: nat, m: nat)
    requires i < j < m < |query|
    requires IsDigit(query[i]) && query[j] == '×' && IsDigit(query[m])
    requires AllSpaces(query, i + 1, j) && AllSpaces(query, j + 1, m)
    ensures IsMathQuery(query)
  {
    assert InfixAt(query, {'×'}, "", i, j, m, m + 1);
    assert Matches(MathPatterns[7], query);
  }

  /** The empty query is not a calculation. */
  lemma EmptyIsNotMath()
    ensures !IsMathQuery("")
  {
    IsMathQueryCharacterized("");
  }

  const CalcResultPrefix: string := "計算結果: "
  const CalcErrorPrefix: string := "計算エラー: "

  /** `MathTool.calculate`, given the outcome of the math chain: never raises,
      the text says which of the two happened. */
  function Calculate(run: Result<string>): (r: string)
    ensures run.Ok? ==> |r| >= |CalcResultPrefix| && r[..|CalcResultPrefix|] == CalcResultPrefix
    ensures run.Err? ==> |r| >= |CalcErrorPrefix| && r[..|CalcErrorPrefix|] == CalcErrorPrefix
  {
    match run
    case Ok(v) => CalcResultPrefix + v
    case Err(e) => CalcErrorPrefix + e
  }

  /** Reads a calculator answer back into the outcome it reports. */
  function ParseCalculation(text: string): Result<string> {
    if |text| >= |CalcResultPrefix| && text[..|CalcResultPrefix|] == CalcResultPrefix then
      Ok(text[|CalcResultPrefix|..])
    else if |text| >= |CalcErrorPrefix| && text[..|CalcErrorPrefix|] == CalcErrorPrefix then
      Err(text[|CalcErrorPrefix|..])
    else
      Err(text)
  }

  /** The calculator's answer determines the outcome: success and failure are
      never confused. */
  lemma CalculateRoundTrip(run: Result<string>)
    ensures ParseCalculation(Calculate(run)) == run
  {
    var t := Calculate(run);
    if run.Err? {
      assert t[2] == 'エ' && CalcResultPrefix[2] == '結';
      assert t[..|CalcResultPrefix|] != CalcResultPrefix;
      assert t[|CalcErrorPrefix|..] == run.message;
    } else {
      assert t[|CalcResultPrefix|..] == run.value;
    }
  }

  /** The names of the tools `ToolManager.get_tools` offers the agent. */
  const ToolNames: seq<string> := ["Calculator"]
}
