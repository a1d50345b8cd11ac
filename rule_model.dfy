// Heuristic normalisation of a regulation sentence into a rule record:
// keyword tokens, the condition after "if", and the "must" action.

module RuleModel {
  import opened Common

  datatype Rule = Rule(
    condition: string,
    actor: string,
    obj: string,
    action: string,
    outcome: string,
    rawText: string,
    keywords: seq<string>)

  /** `text.split("if", 1)[-1]`: the text after the first case-sensitive
      `"if"`, or the whole text when there is none. */
  function AfterFirstIf(text: string): (r: string)
    ensures |r| <= |text| && EndsWith(text, r)
    ensures !Contains(text, "if") ==> r == text
  {
    match FindFrom(text, "if", 0)
    case None => text
    case Some(k) => text[k + 2..]
  }

  /** `normalize_rule_text` */
  function NormalizeRuleText(text: string): (rule: Rule)
    ensures rule.rawText == text && rule.keywords == Words(text)
    ensures rule.actor == "" && rule.obj == "" && rule.outcome == ""
    ensures rule.action == (if Contains(Lower(text), "must") then "must" else "")
    ensures !Contains(Lower(text), "if") ==> rule.condition == ""
  {
    var condition := if Contains(Lower(text), "if") then Strip(AfterFirstIf(text)) else "";
    var action := if Contains(Lower(text), "must") then "must" else "";
    Rule(condition, "", "", action, "", text, Words(text))
  }

  /** With a lower-case `"if"` in the text, the condition is the stripped
      text after its first occurrence. */
  lemma ConditionAfterIf(text: string, k: nat)
    requires OccursAt(text, "if", k) && forall j :: 0 <= j < k ==> !OccursAt(text, "if", j)
    ensures NormalizeRuleText(text).condition == Strip(text[k + 2..])
  {
    assert Lower(text)[k..k + 2] == "if";
    assert OccursAt(Lower(text), "if", k);
    assert FindFrom(text, "if", 0) == Some(k);
  }

  /** When only `If` or `IF` occur, the whole stripped text is the condition. */
  lemma ConditionWholeText(text: string)
    requires Contains(Lower(text), "if") && !Contains(text, "if")
    ensures NormalizeRuleText(text).condition == Strip(text)
  {
  }

  /** A lower-cased occurrence comes from an occurrence in any letter case,
      so `"must"` is found whatever its case. */
  lemma MustAnyCase(text: string, k: nat)
    requires k + 4 <= |text| && Lower(text[k..k + 4]) == "must"
    ensures NormalizeRuleText(text).action == "must"
  {
    assert Lower(text)[k..k + 4] == Lower(text[k..k + 4]);
    assert OccursAt(Lower(text), "must", k);
  }

  /** A run of word characters followed by a non-word character is one token. */
  lemma WordRunStops(a: string, c: char, b: string)
    requires forall i :: 0 <= i < |a| ==> IsWordChar(a[i])
    requires !IsWordChar(c)
    ensures WordRun(a + [c] + b) == |a|
  {
    var s := a + [c] + b;
    assert s[|a|] == c;
  }

  lemma {:induction false} WordRunPrefix(a: string, c: char, b: string)
    requires WordRun(a) < |a|
    ensures WordRun(a + [c] + b) == WordRun(a)
  {
    if a != [] && IsWordChar(a[0]) {
      assert (a + [c] + b)[1..] == a[1..] + [c] + b;
      WordRunPrefix(a[1..], c, b);
    }
  }

  /** Tokens on both sides of a non-word character are kept in order, with
      duplicates: the tokens of the whole are those of each side in turn. */
  lemma {:induction false} WordsSeparated(a: string, c: char, b: string)
    requires !IsWordChar(c)
    ensures Words(a + [c] + b) == Words(a) + Words(b)
    decreases |a|
  {
    var s := a + [c] + b;
    if a == [] {
      assert s[1..] == b;
      assert Words(s) == Words(b);
    } else if !IsWordChar(a[0]) {
      assert s[0] == a[0];
      assert s[1..] == a[1..] + [c] + b;
      WordsSeparated(a[1..], c, b);
      assert Words(s) == Words(a[1..] + [c] + b);
    } else {
      var n := WordRun(a);
      assert s[0] == a[0];
      if n == |a| {
        WordRunStops(a, c, b);
        assert s[..n] == a && s[n..] == [c] + b;
        assert ([c] + b)[1..] == b;
        assert Words([c] + b) == Words(b);
        assert Words(s) == [a] + Words(b);
        assert a[..n] == a && a[n..] == [];
        assert Words(a) == [a] + Words([]);
      } else {
        WordRunPrefix(a, c, b);
        assert s[..n] == a[..n];
        assert s[n..] == a[n..] + [c] + b;
        WordsSeparated(a[n..], c, b);
        assert Words(s) == [a[..n]] + (Words(a[n..]) + Words(b));
        assert Words(a) == [a[..n]] + Words(a[n..]);
        AppendAssoc([a[..n]], Words(a[n..]), Words(b));
      }
    }
  }
}
