/** The pattern evaluator of the NFT contract auditor: it takes one record of
    the block explorer's "get source code" answer and returns the ordered list
    of findings the heuristic keyword rules produce for its source text. */
module Auditor {
  import opened Text

  /** One message of the auditor. The program prints a fixed Russian text for
      each; the model keeps only which message it is. */
  datatype Finding =
    | Unverified         // the contract is closed or its source is not verified
    | NoOwner            // critical: no owner restriction on sensitive actions
    | PublicMint         // advisory: a public mint function, check its limits
    | UnsafeWithdraw     // critical: a withdrawal without an owner check
    | NoReentrancyGuard  // advisory: no protection against reentrancy
    | SelfDestruct       // critical: the contract can be destroyed
    | Clean              // no dangerous pattern found

  /** A contract record as the explorer returns it: string keys to string values. */
  type Record = map<string, string>

  const SOURCE_KEY: string := "SourceCode"

  // The needles of the five rules, exactly as the program spells them.
  const OWNER_ONLY: string := "ownerOnly"
  const ONLY_OWNER: string := "onlyOwner"
  const MINT: string := "mint"
  const PUBLIC: string := "public"
  const WITHDRAW: string := "withdraw"
  const MSG_SENDER: string := "msg.sender"
  const REENTRANCY_GUARD: string := "reentrancyGuard"
  const SELF_DESTRUCT: string := "selfdestruct"

  /** `source_data.get("SourceCode", "")`: the source text, or the empty
      string when the record has no such field. */
  function SourceOf(record: Record): (source: string)
    ensures SOURCE_KEY in record ==> source == record[SOURCE_KEY]
    ensures SOURCE_KEY !in record ==> source == ""
  {
    if SOURCE_KEY in record then record[SOURCE_KEY] else ""
  }

  // The five rules. Each is the guard of one append in the program; the
  // owner rule and the msg.sender part of the withdraw rule look at the
  // source as written, all the rest at its lower-cased form.

  predicate OwnerUnrestricted(source: string)
  {
    !Contains(source, OWNER_ONLY) && !Contains(source, ONLY_OWNER)
  }

  predicate PublicMintPresent(source: string)
  {
    Contains(Lower(source), MINT) && Contains(Lower(source), PUBLIC)
  }

  predicate WithdrawUnchecked(source: string)
  {
    Contains(Lower(source), WITHDRAW) && !Contains(source, MSG_SENDER)
  }

  predicate ReentrancyGuardMissing(source: string)
  {
    !Contains(Lower(source), REENTRANCY_GUARD)
  }

  predicate SelfDestructPresent(source: string)
  {
    Contains(Lower(source), SELF_DESTRUCT)
  }

  /** The rule table: which rule raises which finding. `Unverified` and
      `Clean` are not raised by any rule. */
  predicate Fires(f: Finding, source: string)
  {
    match f
    case NoOwner => OwnerUnrestricted(source)
    case PublicMint => PublicMintPresent(source)
    case UnsafeWithdraw => WithdrawUnchecked(source)
    case NoReentrancyGuard => ReentrancyGuardMissing(source)
    case SelfDestruct => SelfDestructPresent(source)
    case _ => false
  }

  /** The order in which the rules are evaluated and their findings reported. */
  const RULE_ORDER: seq<Finding> := [NoOwner, PublicMint, UnsafeWithdraw, NoReentrancyGuard, SelfDestruct]

  /** Position of a finding in the report order (the two sentinels come
      before and after the rule findings). */
  function Rank(f: Finding): nat
  {
    match f
    case Unverified => 0
    case NoOwner => 1
    case PublicMint => 2
    case UnsafeWithdraw => 3
    case NoReentrancyGuard => 4
    case SelfDestruct => 5
    case Clean => 6
  }

  /** Findings in strictly increasing report order; in particular, no finding twice. */
  predicate Ordered(fs: seq<Finding>)
  {
    forall i, j :: 0 <= i < j < |fs| ==> Rank(fs[i]) < Rank(fs[j])
  }

  /** What evaluating one rule contributes: its finding if it fires, else nothing. */
  function Raise(f: Finding, source: string): (r: seq<Finding>)
    ensures r == [f] || r == []
  {
    if Fires(f, source) then [f] else []
  }

  /** The findings of `rules` whose rule fires on `source`, in the order of
      `rules`: the rules are taken one after the other and each that fires
      appends its finding. */
  function Raised(rules: seq<Finding>, source: string): (r: seq<Finding>)
    ensures |r| <= |rules|
  {
    if rules == [] then []
    else
      Raised(rules[..|rules| - 1], source) + Raise(rules[|rules| - 1], source)
  }

  /** Specification of the evaluator: the unverified sentinel for an empty
      source; otherwise the raised findings in rule order, or the clean
      sentinel when none was raised. */
  function Analysis(record: Record): (r: seq<Finding>)
    ensures 1 <= |r| <= |RULE_ORDER|
    ensures r == [Unverified] <==> SourceOf(record) == ""
  {
    var source := SourceOf(record);
    if source == "" then [Unverified]
    else
      var flags := Raised(RULE_ORDER, source);
      RaisedIff(RULE_ORDER, source, Unverified);
      if flags == [] then [Clean] else flags
  }

  /** `analyze_source_code`: five guarded appends to a local list of flags,
      then the list or, if it stayed empty, the clean sentinel. */
  method AnalyzeSourceCode(record: Record) returns (findings: seq<Finding>)
    ensures findings == Analysis(record)
  {
    var source := SourceOf(record);
    if source == "" {
      return [Unverified];
    }
    // After each rule, the flags are what the rules evaluated so far raised.
    var flags: seq<Finding> := [];
    if !Contains(source, OWNER_ONLY) && !Contains(source, ONLY_OWNER) {
      flags := flags + [NoOwner];
    }
    assert flags == Raise(NoOwner, source);
    if Contains(Lower(source), MINT) && Contains(Lower(source), PUBLIC) {
      flags := flags + [PublicMint];
    }
    assert flags == Raise(NoOwner, source) + Raise(PublicMint, source);
    if Contains(Lower(source), WITHDRAW) && !Contains(source, MSG_SENDER) {
      flags := flags + [UnsafeWithdraw];
    }
    assert flags == Raise(NoOwner, source) + Raise(PublicMint, source) + Raise(UnsafeWithdraw, source);
    if !Contains(Lower(source), REENTRANCY_GUARD) {
      flags := flags + [NoReentrancyGuard];
    }
    assert flags == Raise(NoOwner, source) + Raise(PublicMint, source) + Raise(UnsafeWithdraw, source)
      + Raise(NoReentrancyGuard, source);
    if Contains(Lower(source), SELF_DESTRUCT) {
      flags := flags + [SelfDestruct];
    }
    assert flags == Raise(NoOwner, source) + Raise(PublicMint, source) + Raise(UnsafeWithdraw, source)
      + Raise(NoReentrancyGuard, source) + Raise(SelfDestruct, source);
    RaisedInSteps(source);
    findings := if flags == [] then [Clean] else flags;
  }

  /** Evaluating one more rule appends what it contributes. */
  lemma RaisedAppend(rules: seq<Finding>, f: Finding, source: string)
    ensures Raised(rules + [f], source) == Raised(rules, source) + Raise(f, source)
  {
    assert (rules + [f])[..|rules|] == rules;
  }

  /** The rule table evaluated rule by rule, in table order. */
  lemma RaisedInSteps(source: string)
    ensures Raised(RULE_ORDER, source) ==
      Raise(NoOwner, source) + Raise(PublicMint, source) + Raise(UnsafeWithdraw, source)
      + Raise(NoReentrancyGuard, source) + Raise(SelfDestruct, source)
  {
    var r0: seq<Finding> := [];
    var r1 := r0 + [NoOwner];
    var r2 := r1 + [PublicMint];
    var r3 := r2 + [UnsafeWithdraw];
    var r4 := r3 + [NoReentrancyGuard];
    var r5 := r4 + [SelfDestruct];
    RaisedAppend(r0, NoOwner, source);
    RaisedAppend(r1, PublicMint, source);
    RaisedAppend(r2, UnsafeWithdraw, source);
    RaisedAppend(r3, NoReentrancyGuard, source);
    RaisedAppend(r4, SelfDestruct, source);
    assert r5 == RULE_ORDER;
  }

  /** A finding is raised exactly when it is one of the rules and its rule fires. */
  lemma {:induction false} RaisedIff(rules: seq<Finding>, source: string, f: Finding)
    ensures f in Raised(rules, source) <==> f in rules && Fires(f, source)
  {
    if rules != [] {
      var init, last := rules[..|rules| - 1], rules[|rules| - 1];
      RaisedIff(init, source, f);
      assert rules == init + [last];
    }
  }

  /** Raising keeps the order of the rule table: what comes out is a
      subsequence of what went in. */
  lemma {:induction false} RaisedOrdered(rules: seq<Finding>, source: string)
    requires Ordered(rules)
    ensures Ordered(Raised(rules, source))
  {
    if rules != [] {
      var init, last := rules[..|rules| - 1], rules[|rules| - 1];
      assert Ordered(init) by {
        forall i, j | 0 <= i < j < |init| ensures Rank(init[i]) < Rank(init[j]) {
          assert init[i] == rules[i] && init[j] == rules[j];
        }
      }
      RaisedOrdered(init, source);
      var front := Raised(init, source);
      forall i | 0 <= i < |front| ensures Rank(front[i]) < Rank(last) {
        RaisedIff(init, source, front[i]);
        var j :| 0 <= j < |init| && init[j] == front[i];
        assert rules[j] == front[i];
      }
      var r := front + Raise(last, source);
      forall i, j | 0 <= i < j < |r| ensures Rank(r[i]) < Rank(r[j]) {
        if j < |front| {
          assert r[i] == front[i] && r[j] == front[j];
        } else {
          assert r[i] == front[i] && r[j] == last;
        }
      }
    }
  }

  /** An empty or missing source gives exactly the unverified sentinel, and
      only then does that sentinel appear. */
  lemma UnverifiedIff(record: Record)
    ensures Analysis(record) == [Unverified] <==> SourceOf(record) == ""
    ensures Unverified in Analysis(record) <==> SourceOf(record) == ""
  {
    if SourceOf(record) != "" {
      RaisedIff(RULE_ORDER, SourceOf(record), Unverified);
    }
  }

  /** For a non-empty source, each of the five findings is present exactly
      when its rule fires. */
  lemma RuleFindingIff(record: Record, f: Finding)
    requires SourceOf(record) != ""
    requires f in RULE_ORDER
    ensures f in Analysis(record) <==> Fires(f, SourceOf(record))
  {
    RaisedIff(RULE_ORDER, SourceOf(record), f);
  }

  /** Owner rule: case-sensitive, either spelling suppresses it. */
  lemma NoOwnerIff(record: Record)
    requires SourceOf(record) != ""
    ensures NoOwner in Analysis(record) <==>
      !Contains(SourceOf(record), "ownerOnly") && !Contains(SourceOf(record), "onlyOwner")
  {
    RuleFindingIff(record, NoOwner);
  }

  /** Mint rule: "mint" and "public" anywhere in the lower-cased text,
      related or not. */
  lemma PublicMintIff(record: Record)
    requires SourceOf(record) != ""
    ensures PublicMint in Analysis(record) <==>
      Contains(Lower(SourceOf(record)), "mint") && Contains(Lower(SourceOf(record)), "public")
  {
    RuleFindingIff(record, PublicMint);
  }

  /** Withdraw rule: any "msg.sender" in the source as written suppresses it. */
  lemma UnsafeWithdrawIff(record: Record)
    requires SourceOf(record) != ""
    ensures UnsafeWithdraw in Analysis(record) <==>
      Contains(Lower(SourceOf(record)), "withdraw") && !Contains(SourceOf(record), "msg.sender")
  {
    RuleFindingIff(record, UnsafeWithdraw);
  }

  /** Self-destruct rule: "selfdestruct" in the lower-cased text. */
  lemma SelfDestructIff(record: Record)
    requires SourceOf(record) != ""
    ensures SelfDestruct in Analysis(record) <==> Contains(Lower(SourceOf(record)), "selfdestruct")
  {
    RuleFindingIff(record, SelfDestruct);
  }

  /** Because the self-destruct needle is lower-case, the rule matches any
      capitalisation of it in the source ("selfDestruct", "SELFDESTRUCT"). */
  lemma SelfDestructAnyCase(record: Record, spelling: string)
    requires SourceOf(record) != ""
    requires Lower(spelling) == SELF_DESTRUCT
    requires Contains(SourceOf(record), spelling)
    ensures SelfDestruct in Analysis(record)
  {
    LowerKeepsOccurrences(SourceOf(record), spelling);
    RuleFindingIff(record, SelfDestruct);
  }

  /** The reentrancy needle "reentrancyGuard" has an upper-case 'G' and is
      looked for in the lower-cased source, so it is never found: the
      advisory is raised for every non-empty source. */
  lemma ReentrancyAdvisoryAlways(record: Record)
    requires SourceOf(record) != ""
    ensures ReentrancyGuardMissing(SourceOf(record))
    ensures NoReentrancyGuard in Analysis(record)
  {
    assert IsUpper(REENTRANCY_GUARD[10]);
    UpperNeedleNeverInLower(SourceOf(record), REENTRANCY_GUARD, 10);
    RuleFindingIff(record, NoReentrancyGuard);
  }

  /** The clean sentinel is what the evaluator falls back to when no rule fires... */
  lemma CleanIffNothingFires(record: Record)
    ensures Analysis(record) == [Clean] <==>
      SourceOf(record) != "" && forall f :: f in RULE_ORDER ==> !Fires(f, SourceOf(record))
  {
    var source := SourceOf(record);
    if source != "" {
      forall f ensures f in Raised(RULE_ORDER, source) <==> f in RULE_ORDER && Fires(f, source) {
        RaisedIff(RULE_ORDER, source, f);
      }
      if Raised(RULE_ORDER, source) != [] {
        assert Raised(RULE_ORDER, source)[0] in Raised(RULE_ORDER, source);
        assert Clean !in RULE_ORDER;
      }
    }
  }

  /** ...but, as a consequence of the reentrancy rule, it is never returned. */
  lemma CleanNeverReturned(record: Record)
    ensures Clean !in Analysis(record)
  {
    var source := SourceOf(record);
    if source != "" {
      ReentrancyAdvisoryAlways(record);
      RaisedIff(RULE_ORDER, source, Clean);
      assert Analysis(record) == Raised(RULE_ORDER, source);
    }
  }

  /** The whole behaviour for a non-empty source: the contributions of the
      owner, mint and withdraw rules, the reentrancy advisory, and the
      contribution of the selfdestruct rule, in that order. */
  lemma AnalysisOfSource(record: Record)
    requires SourceOf(record) != ""
    ensures Analysis(record) ==
      Raise(NoOwner, SourceOf(record)) + Raise(PublicMint, SourceOf(record))
      + Raise(UnsafeWithdraw, SourceOf(record)) + [NoReentrancyGuard]
      + Raise(SelfDestruct, SourceOf(record))
  {
    var source := SourceOf(record);
    assert IsUpper(REENTRANCY_GUARD[10]);
    UpperNeedleNeverInLower(source, REENTRANCY_GUARD, 10);
    assert Raise(NoReentrancyGuard, source) == [NoReentrancyGuard];
    RaisedInSteps(source);
  }

  /** For a non-empty source the findings are a non-empty list of rule
      findings in rule order, each at most once, so between one and five. */
  lemma FindingsInRuleOrder(record: Record)
    requires SourceOf(record) != ""
    ensures Ordered(Analysis(record))
    ensures forall f :: f in Analysis(record) ==> f in RULE_ORDER
    ensures 1 <= |Analysis(record)| <= 5
  {
    var source := SourceOf(record);
    var flags := Raised(RULE_ORDER, source);
    CleanNeverReturned(record);
    assert Analysis(record) == flags;
    RuleOrderOrdered();
    RaisedOrdered(RULE_ORDER, source);
    forall f | f in flags ensures f in RULE_ORDER {
      RaisedIff(RULE_ORDER, source, f);
    }
  }

  /** The rule table lists its findings in report order. */
  lemma RuleOrderOrdered()
    ensures Ordered(RULE_ORDER)
  {
  }
}
