/** The heuristic advice panel of `src/components/SqlOptimizationInsights.tsx`: five
    substring rules run over the lower-cased SQL, each adding its hint, and a general
    hint when none of them fires. */
module OptimizationInsights {
  import opened Wrappers
  import opened Strings
  import opened Seqs

  const WhereHint := "Consider adding a WHERE clause to filter results and improve query performance."
  const SelectStarHint := "Using 'SELECT *' retrieves all columns. For better performance, specify only the columns you need."
  const JoinHint := "Consider using INNER JOIN instead of JOIN if you only need matching records from both tables."
  const OrderByHint := "Ensure columns in ORDER BY have proper indexes to speed up sorting operations."
  const GroupByHint := "GROUP BY operations can be expensive. Consider indexing the columns used in the GROUP BY clause."
  const FallbackHint := "No specific optimization suggestions found. Consider adding indexes on frequently queried columns for better performance."

  /** A rule fires when the lower-cased SQL contains `required` and, if given, does
      not contain `forbidden`. */
  datatype Rule = Rule(required: string, forbidden: Option<string>, hint: string)

  /** The rules in the order the analyser tries them. */
  const Rules: seq<Rule> := [
    Rule("select", Some("where"), WhereHint),
    Rule("select *", None, SelectStarHint),
    Rule("join", Some("inner join"), JoinHint),
    Rule("order by", None, OrderByHint),
    Rule("group by", None, GroupByHint)
  ]

  function Hints(rules: seq<Rule>): (hs: seq<string>)
    ensures |hs| == |rules|
    ensures forall k :: 0 <= k < |rules| ==> hs[k] == rules[k].hint
  {
    if rules == [] then [] else [rules[0].hint] + Hints(rules[1..])
  }

  predicate Fires(rule: Rule, lowerSql: string) {
    Contains(lowerSql, rule.required)
    && (rule.forbidden.None? || !Contains(lowerSql, rule.forbidden.value))
  }

  /** The hints of the rules that fire, in rule order. */
  function FiredHints(rules: seq<Rule>, lowerSql: string): (hs: seq<string>)
    ensures |hs| <= |rules|
  {
    if rules == [] then []
    else if Fires(rules[0], lowerSql) then [rules[0].hint] + FiredHints(rules[1..], lowerSql)
    else FiredHints(rules[1..], lowerSql)
  }

  /** What `analyzeQuery` returns, stated over the rule table: never an empty list, and
      never more hints than there are rules. */
  function Insights(sql: string): (hs: seq<string>)
    ensures hs != []
    ensures |hs| <= |Rules|
  {
    var fired := FiredHints(Rules, ToLower(sql));
    if fired == [] then [FallbackHint] else fired
  }

  /** `analyzeQuery`: five independent checks, each pushing its hint, then the general
      hint when the list is still empty. */
  method AnalyzeQuery(sql: string) returns (insights: seq<string>)
    ensures insights == Insights(sql)
  {
    var lower := ToLower(sql);
    UnfoldRules(lower);
    ghost var w := if Contains(lower, "select") && !Contains(lower, "where") then [WhereHint] else [];
    ghost var st := if Contains(lower, "select *") then [SelectStarHint] else [];
    ghost var j := if Contains(lower, "join") && !Contains(lower, "inner join") then [JoinHint] else [];
    ghost var o := if Contains(lower, "order by") then [OrderByHint] else [];
    ghost var g := if Contains(lower, "group by") then [GroupByHint] else [];
    insights := [];
    if Contains(lower, "select") && !Contains(lower, "where") {
      insights := insights + [WhereHint];
    }
    assert insights == w;
    if Contains(lower, "select *") {
      insights := insights + [SelectStarHint];
    }
    assert insights == w + st;
    if Contains(lower, "join") && !Contains(lower, "inner join") {
      insights := insights + [JoinHint];
    }
    assert insights == w + st + j;
    if Contains(lower, "order by") {
      insights := insights + [OrderByHint];
    }
    assert insights == w + st + j + o;
    if Contains(lower, "group by") {
      insights := insights + [GroupByHint];
    }
    assert insights == FiredHints(Rules, lower);
    if |insights| == 0 {
      insights := insights + [FallbackHint];
    }
  }

  /** The rule table, unfolded into the five checks the analyser makes. */
  lemma UnfoldRules(lower: string)
    ensures FiredHints(Rules, lower)
      == (if Contains(lower, "select") && !Contains(lower, "where") then [WhereHint] else [])
       + (if Contains(lower, "select *") then [SelectStarHint] else [])
       + (if Contains(lower, "join") && !Contains(lower, "inner join") then [JoinHint] else [])
       + (if Contains(lower, "order by") then [OrderByHint] else [])
       + (if Contains(lower, "group by") then [GroupByHint] else [])
  {
    var w := if Contains(lower, "select") && !Contains(lower, "where") then [WhereHint] else [];
    var st := if Contains(lower, "select *") then [SelectStarHint] else [];
    var j := if Contains(lower, "join") && !Contains(lower, "inner join") then [JoinHint] else [];
    var o := if Contains(lower, "order by") then [OrderByHint] else [];
    var g := if Contains(lower, "group by") then [GroupByHint] else [];
    UnfoldLastRules(lower);
    UnfoldSelectStarRule(lower);
    UnfoldWhereRule(lower);
    Regroup(w, st, j + o + g);
    Regroup(w + st, j + o, g);
    Regroup(w + st, j, o);
  }

  lemma Regroup(a: seq<string>, b: seq<string>, c: seq<string>)
    ensures a + (b + c) == a + b + c
  {
  }

  lemma UnfoldWhereRule(lower: string)
    ensures FiredHints(Rules, lower)
      == (if Contains(lower, "select") && !Contains(lower, "where") then [WhereHint] else [])
       + FiredHints(Rules[1..], lower)
  {
    FiredHintsCons(Rules, lower);
  }

  lemma UnfoldSelectStarRule(lower: string)
    ensures FiredHints(Rules[1..], lower)
      == (if Contains(lower, "select *") then [SelectStarHint] else []) + FiredHints(Rules[2..], lower)
  {
    assert Rules[1..][1..] == Rules[2..];
    FiredHintsCons(Rules[1..], lower);
  }

  lemma UnfoldLastRules(lower: string)
    ensures FiredHints(Rules[2..], lower)
      == (if Contains(lower, "join") && !Contains(lower, "inner join") then [JoinHint] else [])
       + (if Contains(lower, "order by") then [OrderByHint] else [])
       + (if Contains(lower, "group by") then [GroupByHint] else [])
  {
    assert Rules[4..][1..] == [];
    FiredHintsCons(Rules[4..], lower);
    assert Rules[3..][1..] == Rules[4..];
    FiredHintsCons(Rules[3..], lower);
    assert Rules[2..][1..] == Rules[3..];
    FiredHintsCons(Rules[2..], lower);
  }

  /** Every fired hint is the hint of some rule. */
  lemma {:induction false} FiredHintsAreRuleHints(rules: seq<Rule>, lowerSql: string)
    ensures forall h :: h in FiredHints(rules, lowerSql) ==> h in Hints(rules)
  {
    if rules != [] {
      FiredHintsAreRuleHints(rules[1..], lowerSql);
    }
  }

  /** No hint is fired exactly when no rule fires. */
  lemma {:induction false} FiredHintsEmptyIff(rules: seq<Rule>, lowerSql: string)
    ensures FiredHints(rules, lowerSql) == [] <==> forall k :: 0 <= k < |rules| ==> !Fires(rules[k], lowerSql)
  {
    if rules != [] {
      FiredHintsEmptyIff(rules[1..], lowerSql);
      assert forall k :: 1 <= k < |rules| ==> rules[k] == rules[1..][k - 1];
    }
  }

  lemma FiredHintsCons(rules: seq<Rule>, lowerSql: string)
    requires rules != []
    ensures FiredHints(rules, lowerSql)
      == (if Fires(rules[0], lowerSql) then [rules[0].hint] else []) + FiredHints(rules[1..], lowerSql)
  {
  }

  /** There is always advice, and at most one hint per rule. */
  lemma HintsDistinct()
    ensures forall i, j :: 0 <= i < j < |Rules| ==> Rules[i].hint != Rules[j].hint
    ensures forall k :: 0 <= k < |Rules| ==> Rules[k].hint != FallbackHint
  {
  }

  /** The general hint appears exactly when no rule fires, and then it is alone. */
  lemma FallbackExactlyWhenNoRuleFires(sql: string)
    ensures FallbackHint in Insights(sql) <==> forall k :: 0 <= k < |Rules| ==> !Fires(Rules[k], ToLower(sql))
    ensures FallbackHint in Insights(sql) ==> Insights(sql) == [FallbackHint]
  {
    HintsDistinct();
    var fired := FiredHints(Rules, ToLower(sql));
    FiredHintsEmptyIff(Rules, ToLower(sql));
    FiredHintsAreRuleHints(Rules, ToLower(sql));
    if fired != [] {
      assert FallbackHint !in Hints(Rules);
    }
  }

  /** With distinct hints, a rule's hint is among the fired ones exactly when it fires. */
  lemma {:induction false} FiredHintIff(rules: seq<Rule>, lowerSql: string, k: nat)
    requires k < |rules|
    requires forall i, j :: 0 <= i < j < |rules| ==> rules[i].hint != rules[j].hint
    ensures rules[k].hint in FiredHints(rules, lowerSql) <==> Fires(rules[k], lowerSql)
  {
    var tail := rules[1..];
    if k == 0 {
      assert forall j :: 0 <= j < |tail| ==> tail[j].hint != rules[0].hint by {
        forall j | 0 <= j < |tail| ensures tail[j].hint != rules[0].hint {
          assert tail[j] == rules[j + 1];
        }
      }
      assert rules[0].hint !in Hints(tail);
      FiredHintsAreRuleHints(tail, lowerSql);
    } else {
      assert rules[k] == tail[k - 1];
      FiredHintIff(tail, lowerSql, k - 1);
      if Fires(rules[0], lowerSql) {
        assert rules[0].hint != rules[k].hint;
      }
    }
  }

  /** Each of the five hints is given exactly when its rule fires. */
  lemma RuleHintIff(sql: string, k: nat)
    requires k < |Rules|
    ensures Rules[k].hint in Insights(sql) <==> Fires(Rules[k], ToLower(sql))
  {
    HintsDistinct();
    FiredHintIff(Rules, ToLower(sql), k);
    FallbackExactlyWhenNoRuleFires(sql);
  }

  /** The WHERE hint: the SQL mentions "select" but not "where", in any letter case. */
  lemma WhereHintIff(sql: string)
    ensures WhereHint in Insights(sql)
        <==> Contains(ToLower(sql), "select") && !Contains(ToLower(sql), "where")
  {
    RuleHintIff(sql, 0);
  }

  /** The JOIN hint: the SQL mentions "join" but not "inner join"; so a LEFT JOIN gets it. */
  lemma JoinHintIff(sql: string)
    ensures JoinHint in Insights(sql)
        <==> Contains(ToLower(sql), "join") && !Contains(ToLower(sql), "inner join")
  {
    RuleHintIff(sql, 2);
  }

  /** The hints come in the fixed rule order, each at most once. */
  lemma {:induction false} FiredHintsInRuleOrder(rules: seq<Rule>, lowerSql: string)
    ensures IsSubsequence(FiredHints(rules, lowerSql), Hints(rules))
  {
    if rules != [] {
      FiredHintsInRuleOrder(rules[1..], lowerSql);
      var hs := Hints(rules);
      assert hs[1..] == Hints(rules[1..]);
      if Fires(rules[0], lowerSql) {
        assert FiredHints(rules, lowerSql)[1..] == FiredHints(rules[1..], lowerSql);
      } else {
        SubsequenceOfTail(FiredHints(rules, lowerSql), hs);
      }
    }
  }

  lemma InsightsOrdered(sql: string)
    ensures Insights(sql) == [FallbackHint]
         || IsSubsequence(Insights(sql), [WhereHint, SelectStarHint, JoinHint, OrderByHint, GroupByHint])
  {
    FiredHintsInRuleOrder(Rules, ToLower(sql));
    assert Hints(Rules) == [WhereHint, SelectStarHint, JoinHint, OrderByHint, GroupByHint];
  }

  /** Only the lower-cased text matters: changing the case of ASCII letters changes nothing. */
  lemma InsightsIgnoreCase(sql: string)
    ensures Insights(ToUpper(sql)) == Insights(sql)
  {
    LowerOfUpper(sql);
  }

  /** A LEFT JOIN query is told to consider an INNER JOIN. */
  lemma LeftJoinGetsJoinHint(sql: string)
    requires sql == "SELECT a FROM t LEFT JOIN u"
    ensures JoinHint in Insights(sql)
  {
    var lower := ToLower(sql);
    LeftJoinLowered(sql, lower);
    assert OccursAt(lower, "join", 21);
    NoInnerJoin(lower);
    JoinHintIff(sql);
  }

  lemma LeftJoinLowered(sql: string, lower: string)
    requires sql == "SELECT a FROM t LEFT JOIN u" && lower == ToLower(sql)
    ensures lower == "select a from t left join u"
  {
  }

  lemma NoInnerJoin(lower: string)
    requires lower == "select a from t left join u"
    ensures !Contains(lower, "inner join")
  {
    forall i: nat | i <= |lower| ensures !OccursAt(lower, "inner join", i) {
      if i + 10 <= |lower| {
        assert lower[i + 1] != 'n';
        assert lower[i..i + 10][1] != 'n';
      }
    }
  }

  /** The component renders nothing for empty SQL, and the hints otherwise. */
  function Panel(sql: string): (shown: Option<seq<string>>)
    ensures shown.None? <==> sql == ""
    ensures shown.Some? ==> 1 <= |shown.value| <= 5
  {
    if sql == "" then None else Some(Insights(sql))
  }
}
