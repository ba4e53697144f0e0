/**
 * Phase1.py: a stateless question-and-answer form. The user supplies a document
 * and a question; the answer engine's reply on the document's text is returned,
 * followed by a product recommendation when the question names a product.
 */
module Phase1 {
  import opened Text
  import opened Backends

  // ---------------------------------------------------------------- product recommendation

  /** One branch of the recommendation chain: the keyword looked for and the text returned. */
  datatype Rule = Rule(keyword: string, recommendation: string)

  const CREDIT_CARD := "Recommended Product: JP Morgan Freedom Unlimited Credit Card."
  const PERSONAL_LOANS := "Recommended Product: JP Morgan Personal Loans."
  const INVESTMENT_SERVICES := "Recommended Product: JP Morgan Investment Services."
  const HIGH_YIELD_SAVINGS := "Recommended Product: JP Morgan High Yield Savings Account."

  /** The branches in the order they are tried. */
  const RULES := [
    Rule("credit card", CREDIT_CARD),
    Rule("loan", PERSONAL_LOANS),
    Rule("investment", INVESTMENT_SERVICES),
    Rule("savings account", HIGH_YIELD_SAVINGS)
  ]

  /** `product_recommendation(question)`: the question is lower-cased first. */
  function ProductRecommendation(question: string): Option<string>
  {
    Recommend(Lower(question))
  }

  /** The `if`/`elif` chain of `product_recommendation`, on the lower-cased question `q`. */
  function Recommend(q: string): (r: Option<string>)
    ensures r.Some? ==> r.value != ""
  {
    if Contains(q, "credit card") then Some(CREDIT_CARD)
    else if Contains(q, "loan") then Some(PERSONAL_LOANS)
    else if Contains(q, "investment") then Some(INVESTMENT_SERVICES)
    else if Contains(q, "savings account") then Some(HIGH_YIELD_SAVINGS)
    else None
  }

  /** The reference reading of the chain: the first rule whose keyword occurs in `q`. */
  function FirstMatch(q: string, rules: seq<Rule>): (r: Option<string>)
    ensures r.None? <==> forall k :: 0 <= k < |rules| ==> !Contains(q, rules[k].keyword)
    ensures r.Some? ==> exists k :: 0 <= k < |rules| && Contains(q, rules[k].keyword)
                                    && r.value == rules[k].recommendation
                                    && forall j :: 0 <= j < k ==> !Contains(q, rules[j].keyword)
  {
    if rules == [] then None
    else if Contains(q, rules[0].keyword) then
      Some(rules[0].recommendation)
    else
      var rest := FirstMatch(q, rules[1..]);
      if rest.Some? then
        var k :| 0 <= k < |rules[1..]| && Contains(q, rules[1..][k].keyword)
                 && rest.value == rules[1..][k].recommendation
                 && forall j :: 0 <= j < k ==> !Contains(q, rules[1..][j].keyword);
        assert forall j :: 0 <= j < k + 1 ==> !Contains(q, rules[j].keyword) by {
          forall j | 0 <= j < k + 1
            ensures !Contains(q, rules[j].keyword)
          {
            if j > 0 {
              assert rules[j] == rules[1..][j - 1];
            }
          }
        }
        assert rules[k + 1] == rules[1..][k];
        rest
      else
        assert forall k :: 0 <= k < |rules| ==> !Contains(q, rules[k].keyword) by {
          forall k | 0 <= k < |rules|
            ensures !Contains(q, rules[k].keyword)
          {
            if k > 0 {
              assert rules[k] == rules[1..][k - 1];
            }
          }
        }
        rest
  }

  /**
   * The chain is the first match of the rule table on the lower-cased question:
   * case does not matter, no keyword gives `None`, and a question naming several
   * products gets the recommendation of the earliest rule only.
   */
  lemma RecommendationIsFirstMatch(q: string)
    ensures Recommend(q) == FirstMatch(q, RULES)
  {
    var r0, r1, r2, r3 := RULES[0], RULES[1], RULES[2], RULES[3];
    FirstMatchStep(q, r3, []);
    FirstMatchStep(q, r2, [r3]);
    FirstMatchStep(q, r1, [r2, r3]);
    FirstMatchStep(q, r0, [r1, r2, r3]);
    assert RULES == [r0] + [r1, r2, r3];
  }

  /** One step of the first-match search: the head rule, or else the rest. */
  lemma FirstMatchStep(q: string, r: Rule, rest: seq<Rule>)
    ensures FirstMatch(q, [r] + rest) == if Contains(q, r.keyword) then Some(r.recommendation) else FirstMatch(q, rest)
  {
    assert ([r] + rest)[1..] == rest;
  }

  /** The recommendation of rule `k` is given exactly when its keyword occurs and no earlier one does. */
  lemma HighestPriorityWins(question: string, k: nat)
    requires k < |RULES|
    ensures ProductRecommendation(question) == Some(RULES[k].recommendation) <==>
              Contains(Lower(question), RULES[k].keyword)
              && forall j :: 0 <= j < k ==> !Contains(Lower(question), RULES[j].keyword)
  {
    var q := Lower(question);
    RecommendationIsFirstMatch(q);
    assert ProductRecommendation(question) == FirstMatch(q, RULES);
    RulesDistinct();
    FirstMatchPicks(q, RULES, k);
  }

  /** No two rules recommend the same product. */
  lemma RulesDistinct()
    ensures forall j, l :: 0 <= j < l < |RULES| ==> RULES[j].recommendation != RULES[l].recommendation
  {
    assert |CREDIT_CARD| == 61 && |PERSONAL_LOANS| == 46;
    assert |INVESTMENT_SERVICES| == 51 && |HIGH_YIELD_SAVINGS| == 58;
  }

  /** With distinct recommendations, rule `k` is the first match exactly when it fires and no earlier rule does. */
  lemma FirstMatchPicks(q: string, rules: seq<Rule>, k: nat)
    requires k < |rules|
    requires forall j, l :: 0 <= j < l < |rules| ==> rules[j].recommendation != rules[l].recommendation
    ensures FirstMatch(q, rules) == Some(rules[k].recommendation) <==>
              Contains(q, rules[k].keyword) && forall j :: 0 <= j < k ==> !Contains(q, rules[j].keyword)
  {
  }

  /** A question about a loan and an investment is recommended the loan only. */
  lemma LoanBeforeInvestment()
    ensures Recommend("loan or investment") == Some(PERSONAL_LOANS)
  {
    var q := "loan or investment";
    FirstCharAbsent(q, "credit card");
    assert OccursAt(q, "loan", 0);
  }

  // ---------------------------------------------------------------- the form handler

  /** The fixed reply when the document or the question is missing. */
  const UPLOAD_AND_ASK := "Please upload a financial document and type your question."

  /** What the form shows: a text, or an error because an exception escaped the handler. */
  datatype Response = Shown(text: string) | Raised

  /**
   * `chatbot(file, question)`. `file` is the uploaded document's path (`None`
   * when nothing is uploaded); `docs` gives the page texts of every document
   * that can be opened. The question is sent as typed.
   */
  function Chatbot(file: Option<string>, question: string, docs: Files, ask: Oracle): (r: Response)
  {
    if file.None? || Strip(question) == "" then Shown(UPLOAD_AND_ASK)
    else if file.value !in docs then Raised
    else
      match ask(question, Concat(docs[file.value]))
      case Failed => Raised
      case Answered(answer) =>
        var recommendation := ProductRecommendation(question);
        if recommendation.Some? && recommendation.value != "" then
          Shown(answer + "\n\n" + recommendation.value)
        else
          Shown(answer)
  }

  /**
   * Without a document, or with a blank question, the reply is the fixed
   * request and does not depend on the answer engine at all.
   */
  lemma GuardSkipsEngine(file: Option<string>, question: string, docs: Files, ask1: Oracle, ask2: Oracle)
    requires file.None? || Strip(question) == ""
    ensures Chatbot(file, question, docs, ask1) == Shown(UPLOAD_AND_ASK)
    ensures Chatbot(file, question, docs, ask1) == Chatbot(file, question, docs, ask2)
  {
  }

  /**
   * When the engine answers, the reply starts with its answer; it is exactly
   * the answer when the question names no product, and otherwise the answer,
   * a blank line and the recommendation.
   */
  lemma AnswerThenRecommendation(file: string, question: string, docs: Files, ask: Oracle)
    requires Strip(question) != "" && file in docs
    requires ask(question, Concat(docs[file])).Answered?
    ensures Chatbot(Some(file), question, docs, ask).Shown?
    ensures ask(question, Concat(docs[file])).text <= Chatbot(Some(file), question, docs, ask).text
    ensures (Chatbot(Some(file), question, docs, ask).text == ask(question, Concat(docs[file])).text)
              <==> ProductRecommendation(question).None?
    ensures ProductRecommendation(question).Some? ==>
              Chatbot(Some(file), question, docs, ask).text
                == ask(question, Concat(docs[file])).text + "\n\n" + ProductRecommendation(question).value
  {
    var answer := ask(question, Concat(docs[file])).text;
    var rec := ProductRecommendation(question);
    if rec.Some? {
      var r := Chatbot(Some(file), question, docs, ask).text;
      assert r == answer + "\n\n" + rec.value;
      assert |r| > |answer|;
    }
  }

  /** The handler fails only on an unreadable document or a failing engine, never on the guard. */
  lemma RaisesOnlyOnBackends(file: Option<string>, question: string, docs: Files, ask: Oracle)
    ensures Chatbot(file, question, docs, ask).Raised? <==>
              file.Some? && Strip(question) != ""
              && (file.value !in docs || ask(question, Concat(docs[file.value])).Failed?)
  {
  }
}
