/**
 * The `fullPrompt` template literal that both request paths send to the model:
 * the system prompt, a blank line, the rendered user prompt, a blank line and
 * the word-budget instruction.
 */
module Prompts {
  import opened Strings
  import opened Templates

  const BudgetLead := "\n\nKeep the response under"
  const BudgetTail := " words. Provide only the content, no additional explanations."

  /** The closing instruction, stating the word budget in decimal after a space. */
  function BudgetSentence(maxWords: nat): string {
    BudgetLead + " " + Decimal(maxWords) + BudgetTail
  }

  function FullPrompt(entry: Entry, keyword: string, tone: string, length: string, maxWords: nat): string {
    entry.systemPrompt + "\n\n" + Render(entry.userPromptTemplate, keyword, tone, length) + BudgetSentence(maxWords)
  }

  /** A string ending in a separator, the digits of `m` and `tail` ends in the same separator,
      the digits of `n` and `tail` exactly when `n` is `m`. */
  lemma NumberBeforeTail(h: string, m: nat, n: nat, tail: string)
    ensures HasSuffix(h + [' '] + Decimal(m) + tail, [' '] + Decimal(n) + tail) <==> n == m
  {
    SuffixCancel(h + [' '] + Decimal(m), [' '] + Decimal(n), tail);
    DigitsAfterSeparator(h, ' ', Decimal(m), Decimal(n));
    DecimalInjective(m, n);
  }

  /** Whatever precedes it, a budget instruction for `m` ends in the one for `n` exactly when `n` is `m`. */
  lemma BudgetAtEnd(x: string, m: nat, n: nat)
    ensures HasSuffix(x + BudgetSentence(m), BudgetSentence(n)) <==> n == m
  {
    var lead, tail := BudgetLead, BudgetTail;
    assert x + BudgetSentence(m) == ((x + lead) + [' '] + Decimal(m)) + tail;
    assert BudgetSentence(n) == lead + (([' '] + Decimal(n)) + tail);
    if HasSuffix(x + BudgetSentence(m), BudgetSentence(n)) {
      ConcatHasSuffix(lead, ([' '] + Decimal(n)) + tail);
      SuffixTransitive(x + BudgetSentence(m), BudgetSentence(n), ([' '] + Decimal(n)) + tail);
      NumberBeforeTail(x + lead, m, n, tail);
    } else {
      ConcatHasSuffix(x, BudgetSentence(m));
    }
  }

  /** The prompt ends with the budget instruction for `maxWords` and for no other number. */
  lemma StatesBudget(entry: Entry, keyword: string, tone: string, length: string, maxWords: nat, n: nat)
    ensures HasSuffix(FullPrompt(entry, keyword, tone, length, maxWords), BudgetSentence(n)) <==> n == maxWords
  {
    BudgetAtEnd(entry.systemPrompt + "\n\n" + Render(entry.userPromptTemplate, keyword, tone, length), maxWords, n);
  }

  lemma StatesBudgetAll(entry: Entry, keyword: string, tone: string, length: string, maxWords: nat)
    ensures forall n: nat :: HasSuffix(FullPrompt(entry, keyword, tone, length, maxWords), BudgetSentence(n)) <==> n == maxWords
  {
    forall n: nat ensures HasSuffix(FullPrompt(entry, keyword, tone, length, maxWords), BudgetSentence(n)) <==> n == maxWords {
      StatesBudget(entry, keyword, tone, length, maxWords, n);
    }
  }

  /** Whatever occurs in the rendered user prompt occurs in the full prompt. */
  lemma UserPromptInside(entry: Entry, keyword: string, tone: string, length: string, maxWords: nat, sub: string)
    requires Occurs(sub, Render(entry.userPromptTemplate, keyword, tone, length))
    ensures Occurs(sub, FullPrompt(entry, keyword, tone, length, maxWords))
  {
    var u := Render(entry.userPromptTemplate, keyword, tone, length);
    OccursInMiddle(entry.systemPrompt + "\n\n", u, BudgetSentence(maxWords));
    assert FullPrompt(entry, keyword, tone, length, maxWords) == entry.systemPrompt + "\n\n" + u + BudgetSentence(maxWords);
    OccursTransitive(sub, u, FullPrompt(entry, keyword, tone, length, maxWords));
  }
}
