/** The evaluator's result on concrete small records, derived from the
    contract of `Analysis` and the lemmas about it. Each concrete text is
    passed as a parameter fixed by the precondition, so that the verifier
    reasons about it through the lemmas below instead of unfolding `Lower`
    and `Contains` on it character by character. */
module Scenarios {
  import opened Text
  import opened Auditor

  /** A record whose source text is `source`. */
  function WithSource(source: string): (record: Record)
    ensures SourceOf(record) == source
  {
    map[SOURCE_KEY := source]
  }

  /** The lower-case letter `c` occurs in `source` in neither case. */
  predicate LetterAbsent(source: string, c: char)
  {
    IsLower(c) && c !in source && UpperOf(c) !in source
  }

  /** Without a character that both owner spellings need, the owner rule fires. */
  lemma OwnerRaisedWithout(source: string, c: char)
    requires c in OWNER_ONLY && c in ONLY_OWNER && c !in source
    ensures Raise(NoOwner, source) == [NoOwner]
  {
    MissingCharNotContained(source, OWNER_ONLY, c);
    MissingCharNotContained(source, ONLY_OWNER, c);
  }

  /** An "onlyOwner" anywhere silences the owner rule. */
  lemma OwnerNotRaisedWith(source: string, i: int)
    requires OccursAt(source, ONLY_OWNER, i)
    ensures Raise(NoOwner, source) == []
  {
    OccursAtContains(source, ONLY_OWNER, i);
  }

  /** Without a letter of "mint" or of "public", the mint rule stays silent. */
  lemma MintNotRaisedWithout(source: string, c: char)
    requires c in MINT || c in PUBLIC
    requires LetterAbsent(source, c)
    ensures Raise(PublicMint, source) == []
  {
    LowerMissingLetter(source, c);
    if c in MINT {
      MissingCharNotContained(Lower(source), MINT, c);
    } else {
      MissingCharNotContained(Lower(source), PUBLIC, c);
    }
  }

  /** A "mint" and a "public", in either order, fire the mint rule. */
  lemma MintRaisedAt(source: string, i: int, j: int)
    requires OccursAt(source, MINT, i) && OccursAt(source, PUBLIC, j)
    ensures Raise(PublicMint, source) == [PublicMint]
  {
    OccursAtContains(source, MINT, i);
    LowercaseNeedleSurvives(source, MINT);
    OccursAtContains(source, PUBLIC, j);
    LowercaseNeedleSurvives(source, PUBLIC);
  }

  /** Without a letter of "withdraw", the withdraw rule stays silent. */
  lemma WithdrawNotRaisedWithout(source: string, c: char)
    requires c in WITHDRAW && LetterAbsent(source, c)
    ensures Raise(UnsafeWithdraw, source) == []
  {
    LowerMissingLetter(source, c);
    MissingCharNotContained(Lower(source), WITHDRAW, c);
  }

  /** A "withdraw" with no character of "msg.sender" anywhere fires the withdraw rule. */
  lemma WithdrawRaisedAt(source: string, i: int, c: char)
    requires OccursAt(source, WITHDRAW, i)
    requires c in MSG_SENDER && c !in source
    ensures Raise(UnsafeWithdraw, source) == [UnsafeWithdraw]
  {
    OccursAtContains(source, WITHDRAW, i);
    LowercaseNeedleSurvives(source, WITHDRAW);
    MissingCharNotContained(source, MSG_SENDER, c);
  }

  /** A "msg.sender" anywhere silences the withdraw rule. */
  lemma WithdrawNotRaisedWithSender(source: string, i: int)
    requires OccursAt(source, MSG_SENDER, i)
    ensures Raise(UnsafeWithdraw, source) == []
  {
    OccursAtContains(source, MSG_SENDER, i);
  }

  /** Without a letter of "selfdestruct", the selfdestruct rule stays silent. */
  lemma SelfDestructNotRaisedWithout(source: string, c: char)
    requires c in SELF_DESTRUCT && LetterAbsent(source, c)
    ensures Raise(SelfDestruct, source) == []
  {
    LowerMissingLetter(source, c);
    MissingCharNotContained(Lower(source), SELF_DESTRUCT, c);
  }

  /** An occurrence of "selfdestruct" fires the selfdestruct rule. */
  lemma SelfDestructRaisedAt(source: string, i: int)
    requires OccursAt(source, SELF_DESTRUCT, i)
    ensures Raise(SelfDestruct, source) == [SelfDestruct]
  {
    OccursAtContains(source, SELF_DESTRUCT, i);
    LowercaseNeedleSurvives(source, SELF_DESTRUCT);
  }

  /** A record without a source field and one with an empty source are both
      reported as closed or unverified, and nothing else. */
  lemma UnverifiedRecords()
    ensures Analysis(map[]) == [Unverified]
    ensures Analysis(WithSource("")) == [Unverified]
  {
  }

  /** The owner finding and the advisory, when the other rules stay silent. */
  lemma OwnerAndAdvisoryFrom(source: string)
    requires source != ""
    requires Raise(NoOwner, source) == [NoOwner] && Raise(PublicMint, source) == []
    requires Raise(UnsafeWithdraw, source) == [] && Raise(SelfDestruct, source) == []
    ensures Analysis(WithSource(source)) == [NoOwner, NoReentrancyGuard]
  {
    AnalysisOfSource(WithSource(source));
  }

  /** The owner, advisory and selfdestruct findings, when mint and withdraw stay silent. */
  lemma SelfDestructFrom(source: string)
    requires source != ""
    requires Raise(NoOwner, source) == [NoOwner] && Raise(PublicMint, source) == []
    requires Raise(UnsafeWithdraw, source) == [] && Raise(SelfDestruct, source) == [SelfDestruct]
    ensures Analysis(WithSource(source)) == [NoOwner, NoReentrancyGuard, SelfDestruct]
  {
    AnalysisOfSource(WithSource(source));
  }

  /** The owner, withdraw and advisory findings, when mint and selfdestruct stay silent. */
  lemma UnsafeWithdrawFrom(source: string)
    requires source != ""
    requires Raise(NoOwner, source) == [NoOwner] && Raise(PublicMint, source) == []
    requires Raise(UnsafeWithdraw, source) == [UnsafeWithdraw] && Raise(SelfDestruct, source) == []
    ensures Analysis(WithSource(source)) == [NoOwner, UnsafeWithdraw, NoReentrancyGuard]
  {
    AnalysisOfSource(WithSource(source));
  }

  /** The advisory alone, when every other rule stays silent. */
  lemma AdvisoryOnlyFrom(source: string)
    requires source != ""
    requires Raise(NoOwner, source) == [] && Raise(PublicMint, source) == []
    requires Raise(UnsafeWithdraw, source) == [] && Raise(SelfDestruct, source) == []
    ensures Analysis(WithSource(source)) == [NoReentrancyGuard]
  {
    AnalysisOfSource(WithSource(source));
  }

  /** The mint finding and the advisory, when the other rules stay silent. */
  lemma PublicMintFrom(source: string)
    requires source != ""
    requires Raise(NoOwner, source) == [] && Raise(PublicMint, source) == [PublicMint]
    requires Raise(UnsafeWithdraw, source) == [] && Raise(SelfDestruct, source) == []
    ensures Analysis(WithSource(source)) == [PublicMint, NoReentrancyGuard]
  {
    AnalysisOfSource(WithSource(source));
  }

  /** A text with no 'o', and none of 'm', 'w', 's' in either case, gets the
      owner finding and the reentrancy advisory only. */
  lemma OwnerAndAdvisoryOnly(source: string)
    requires source != ""
    requires 'o' !in source && LetterAbsent(source, 'm') && LetterAbsent(source, 'w')
    requires LetterAbsent(source, 's')
    ensures Analysis(WithSource(source)) == [NoOwner, NoReentrancyGuard]
  {
    OwnerRaisedWithout(source, 'o');
    MintNotRaisedWithout(source, 'm');
    WithdrawNotRaisedWithout(source, 'w');
    SelfDestructNotRaisedWithout(source, 's');
    OwnerAndAdvisoryFrom(source);
  }

  /** A text with "selfdestruct" in it, no 'o', and none of 'm', 'w' in either
      case, gets the owner finding, the advisory and the selfdestruct finding. */
  lemma SelfDestructWithoutOwner(source: string, i: int)
    requires OccursAt(source, SELF_DESTRUCT, i)
    requires 'o' !in source && LetterAbsent(source, 'm') && LetterAbsent(source, 'w')
    ensures Analysis(WithSource(source)) == [NoOwner, NoReentrancyGuard, SelfDestruct]
  {
    OwnerRaisedWithout(source, 'o');
    MintNotRaisedWithout(source, 'm');
    WithdrawNotRaisedWithout(source, 'w');
    SelfDestructRaisedAt(source, i);
    SelfDestructFrom(source);
  }

  /** A text with "withdraw" in it, no 'O', and none of 'm', 's' in either
      case (so no "msg.sender"), gets the unsafe-withdraw finding. */
  lemma WithdrawWithoutSender(source: string, i: int)
    requires OccursAt(source, WITHDRAW, i)
    requires 'O' !in source && LetterAbsent(source, 'm') && LetterAbsent(source, 's')
    ensures Analysis(WithSource(source)) == [NoOwner, UnsafeWithdraw, NoReentrancyGuard]
  {
    OwnerRaisedWithout(source, 'O');
    MintNotRaisedWithout(source, 'm');
    WithdrawRaisedAt(source, i, 'm');
    SelfDestructNotRaisedWithout(source, 's');
    UnsafeWithdrawFrom(source);
  }

  /** A text with "msg.sender" in it, no 'O', and none of 'p', 'l' in either
      case, gets no withdraw finding, whatever else it says about withdrawing. */
  lemma SenderAnywhere(source: string, i: int)
    requires OccursAt(source, MSG_SENDER, i)
    requires 'O' !in source && LetterAbsent(source, 'p') && LetterAbsent(source, 'l')
    ensures Analysis(WithSource(source)) == [NoOwner, NoReentrancyGuard]
  {
    OwnerRaisedWithout(source, 'O');
    MintNotRaisedWithout(source, 'p');
    WithdrawNotRaisedWithSender(source, i);
    SelfDestructNotRaisedWithout(source, 'l');
    OwnerAndAdvisoryFrom(source);
  }

  /** A text with "onlyOwner" and "msg.sender" in it, and none of 'i', 'f'
      in either case, gets the reentrancy advisory and nothing else: the
      owner restriction and the sender check silence their rules. */
  lemma OwnerAndSenderChecked(source: string, i: int, j: int)
    requires OccursAt(source, ONLY_OWNER, i) && OccursAt(source, MSG_SENDER, j)
    requires LetterAbsent(source, 'i') && LetterAbsent(source, 'f')
    ensures Analysis(WithSource(source)) == [NoReentrancyGuard]
  {
    OwnerNotRaisedWith(source, i);
    MintNotRaisedWithout(source, 'i');
    WithdrawNotRaisedWithSender(source, j);
    SelfDestructNotRaisedWithout(source, 'f');
    AdvisoryOnlyFrom(source);
  }

  /** A text with "onlyOwner", "mint" and "public" in it, and none of 'h', 'f'
      in either case, gets the public-mint finding and the advisory. */
  lemma OwnerCheckedPublicMint(source: string, i: int, j: int, k: int)
    requires OccursAt(source, ONLY_OWNER, i)
    requires OccursAt(source, MINT, j) && OccursAt(source, PUBLIC, k)
    requires LetterAbsent(source, 'h') && LetterAbsent(source, 'f')
    ensures Analysis(WithSource(source)) == [PublicMint, NoReentrancyGuard]
  {
    OwnerNotRaisedWith(source, i);
    MintRaisedAt(source, j, k);
    WithdrawNotRaisedWithout(source, 'h');
    SelfDestructNotRaisedWithout(source, 'f');
    PublicMintFrom(source);
  }

  /** The guarded scenario text lacks a letter of each owner spelling and of "mint". */
  lemma GuardedSourceOwnerMintLetters(source: string)
    requires source == "ReentrancyGuard"
    ensures 'o' !in source && LetterAbsent(source, 'm')
  {
  }

  /** The guarded scenario text lacks a letter of "withdraw" and of "selfdestruct". */
  lemma GuardedSourceWithdrawSelfDestructLetters(source: string)
    requires source == "ReentrancyGuard"
    ensures LetterAbsent(source, 'w') && LetterAbsent(source, 's')
  {
  }

  /** A source that names `ReentrancyGuard`, the usual guard contract, is
      still reported as unprotected, next to the missing owner restriction. */
  lemma GuardedSourceStillFlagged(source: string)
    requires source == "ReentrancyGuard"
    ensures Analysis(WithSource(source)) == [NoOwner, NoReentrancyGuard]
  {
    GuardedSourceOwnerMintLetters(source);
    GuardedSourceWithdrawSelfDestructLetters(source);
    OwnerAndAdvisoryOnly(source);
  }

  /** The selfdestruct scenario text lacks a letter of each owner spelling and of "mint". */
  lemma SelfDestructOwnerMintLetters(source: string)
    requires source == "selfdestruct(a)"
    ensures 'o' !in source && LetterAbsent(source, 'm')
  {
  }

  /** The selfdestruct scenario text lacks a letter of "withdraw". */
  lemma SelfDestructWithdrawLetters(source: string)
    requires source == "selfdestruct(a)"
    ensures LetterAbsent(source, 'w')
  {
  }

  /** The self-destruct call alone: three findings, in rule order. */
  lemma SelfDestructSource(source: string)
    requires source == "selfdestruct(a)"
    ensures Analysis(WithSource(source)) == [NoOwner, NoReentrancyGuard, SelfDestruct]
  {
    SelfDestructOwnerMintLetters(source);
    SelfDestructWithdrawLetters(source);
    assert OccursAt(source, SELF_DESTRUCT, 0);
    SelfDestructWithoutOwner(source, 0);
  }

  /** The bare withdrawal text lacks a letter of each owner spelling, of "mint"
      and of "selfdestruct". */
  lemma BareWithdrawLetters(source: string)
    requires source == "withdraw()"
    ensures 'O' !in source && LetterAbsent(source, 'm') && LetterAbsent(source, 's')
  {
  }

  /** A withdrawal that never mentions the sender is flagged as unsafe. */
  lemma BareWithdraw(source: string)
    requires source == "withdraw()"
    ensures Analysis(WithSource(source)) == [NoOwner, UnsafeWithdraw, NoReentrancyGuard]
  {
    BareWithdrawLetters(source);
    assert OccursAt(source, WITHDRAW, 0);
    WithdrawWithoutSender(source, 0);
  }

  /** The checked withdrawal text lacks a letter of each owner spelling and of "public". */
  lemma SenderWithdrawOwnerMintLetters(source: string)
    requires source == "withdraw(msg.sender)"
    ensures 'O' !in source && LetterAbsent(source, 'p')
  {
  }

  /** The checked withdrawal text lacks a letter of "selfdestruct". */
  lemma SenderWithdrawSelfDestructLetters(source: string)
    requires source == "withdraw(msg.sender)"
    ensures LetterAbsent(source, 'l')
  {
  }

  /** Any mention of `msg.sender` silences the withdraw rule, here in a
      withdrawal that checks nothing. */
  lemma SenderWithdraw(source: string)
    requires source == "withdraw(msg.sender)"
    ensures Analysis(WithSource(source)) == [NoOwner, NoReentrancyGuard]
  {
    SenderWithdrawOwnerMintLetters(source);
    SenderWithdrawSelfDestructLetters(source);
    assert OccursAt(source, MSG_SENDER, 9);
    SenderAnywhere(source, 9);
  }

  /** The owner-and-sender scenario text lacks a letter of "mint". */
  lemma CheckedSourceMintLetters(source: string)
    requires source == "onlyOwner msg.sender"
    ensures LetterAbsent(source, 'i')
  {
  }

  /** The owner-and-sender scenario text lacks a letter of "selfdestruct". */
  lemma CheckedSourceSelfDestructLetters(source: string)
    requires source == "onlyOwner msg.sender"
    ensures LetterAbsent(source, 'f')
  {
  }

  /** A contract that restricts to the owner and checks the sender gets only
      the reentrancy advisory. */
  lemma CheckedSource(source: string)
    requires source == "onlyOwner msg.sender"
    ensures Analysis(WithSource(source)) == [NoReentrancyGuard]
  {
    CheckedSourceMintLetters(source);
    CheckedSourceSelfDestructLetters(source);
    assert OccursAt(source, ONLY_OWNER, 0);
    assert OccursAt(source, MSG_SENDER, 10);
    OwnerAndSenderChecked(source, 0, 10);
  }

  /** The public-mint scenario text lacks a letter of "withdraw". */
  lemma PublicMintSourceWithdrawLetters(source: string)
    requires source == "onlyOwner public mint"
    ensures LetterAbsent(source, 'h')
  {
  }

  /** The public-mint scenario text lacks a letter of "selfdestruct". */
  lemma PublicMintSourceSelfDestructLetters(source: string)
    requires source == "onlyOwner public mint"
    ensures LetterAbsent(source, 'f')
  {
  }

  /** An owner-restricted contract with a public mint function gets the
      mint finding and the advisory. */
  lemma PublicMintSource(source: string)
    requires source == "onlyOwner public mint"
    ensures Analysis(WithSource(source)) == [PublicMint, NoReentrancyGuard]
  {
    PublicMintSourceWithdrawLetters(source);
    PublicMintSourceSelfDestructLetters(source);
    assert OccursAt(source, ONLY_OWNER, 0);
    assert OccursAt(source, PUBLIC, 10);
    assert OccursAt(source, MINT, 17);
    OwnerCheckedPublicMint(source, 0, 17, 10);
  }
}
