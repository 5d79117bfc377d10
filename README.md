# NFT contract auditor — pattern evaluator

The NFT contract auditor downloads a contract's verified source code from a
block-explorer API and applies five keyword rules to the text. Each rule that
fires adds one finding. The model covers the evaluator, `analyze_source_code`.
It takes one contract record, a map from string keys to string values, and
reads only its `SourceCode` field. A missing field counts as `""`.

- An empty source gives exactly one finding: "closed or unverified". No rule
  runs in that case.
- Otherwise five rules run in a fixed order. Each appends at most one finding:
  1. owner restriction: neither `ownerOnly` nor `onlyOwner` is in the source
     as written (case-sensitive);
  2. public mint: the lower-cased source contains both `mint` and `public`;
  3. unsafe withdraw: the lower-cased source contains `withdraw` and the
     source as written has no `msg.sender`;
  4. reentrancy guard: the lower-cased source does not contain
     `reentrancyGuard`;
  5. selfdestruct: the lower-cased source contains `selfdestruct`.
- If no rule fired, the result is one "no dangerous patterns" finding.

Rule 4's needle has an upper-case `G`, but it is tested against the
lower-cased source. It can never be found, so the reentrancy advisory is
raised for every non-empty source. As a result the "no dangerous patterns"
fallback is never returned. The model keeps this behaviour as written
(`nft_contract_auditor.py:40`). `ReentrancyAdvisoryAlways` and
`CleanNeverReturned` prove its consequences. The message at
`nft_contract_auditor.py:41` suggests the rule was meant to detect a missing
guard; `GuardedSourceStillFlagged` shows that a source naming
`ReentrancyGuard` is flagged nonetheless.

Layout:

- `text.dfy`, module `Text`: substring containment (`Contains`, proved
  against a position-based reference definition) and ASCII lower-casing
  (`Lower`).
- `auditor.dfy`, module `Auditor`:
  - the `Finding` datatype, with one constructor per message;
  - the five rule predicates, and the rule table `Fires` / `RULE_ORDER`;
  - the specification function `Analysis`;
  - the method `AnalyzeSourceCode`, which builds a local `seq` by five
    guarded appends, as the source does, and is proved equal to `Analysis`;
  - the lemmas about `Analysis`.
- `scenarios.dfy`, module `Scenarios`: the evaluator's result on whole
  families of texts, described by the letters they lack and the needles they
  contain, and on a few concrete records from those families.

## Model

| member | source | states |
|---|---|---|
| `Auditor.SourceOf` | nft_contract_auditor.py:25 | the source text is the `SourceCode` value when the key is present, and `""` when it is missing |
| `Auditor.Raise` | nft_contract_auditor.py:31-44 | one rule adds either its own finding or nothing |
| `Auditor.Raised` | nft_contract_auditor.py:29-44 | evaluating a list of rules gives at most one finding per rule |
| `Auditor.Analysis` | nft_contract_auditor.py:24-46 | the result is never empty and has at most five findings; it is exactly `[Unverified]` if and only if the source is empty or missing |
| `Auditor.AnalyzeSourceCode` | nft_contract_auditor.py:24-46 | the list built by the five guarded appends, or the fallback when it stays empty, equals the specification `Analysis` |
| `Auditor.RaisedAppend` | nft_contract_auditor.py:29-44 | evaluating one more rule leaves the earlier findings in place and appends what the new rule contributes |
| `Auditor.RaisedInSteps` | nft_contract_auditor.py:29-44 | evaluating the rule table `RULE_ORDER` gives the owner, mint, withdraw, reentrancy and selfdestruct contributions, concatenated in that order |
| `Auditor.RaisedIff` | nft_contract_auditor.py:29-44 | characterises `Raised` through the rule table `Fires`: a finding is raised if and only if it belongs to one of the evaluated rules and that rule fires |
| `Auditor.RaisedOrdered` | nft_contract_auditor.py:29-44 | the raised findings keep the order of the rule table, so no finding appears twice |
| `Auditor.UnverifiedIff` | nft_contract_auditor.py:25-27 | the result is `[Unverified]` exactly when the source is empty or missing, and `Unverified` appears in no other result |
| `Auditor.RuleFindingIff` | nft_contract_auditor.py:29-44 | for a non-empty source, each of the five rule findings of `RULE_ORDER` is present exactly when its rule fires according to `Fires` |
| `Auditor.NoOwnerIff` | nft_contract_auditor.py:31-32 | characterises the guard `OwnerUnrestricted`: `NoOwner` is present if and only if the case-sensitive source contains neither `ownerOnly` nor `onlyOwner` |
| `Auditor.PublicMintIff` | nft_contract_auditor.py:34-35 | characterises the guard `PublicMintPresent`: `PublicMint` is present if and only if the lower-cased source contains both `mint` and `public`, anywhere |
| `Auditor.UnsafeWithdrawIff` | nft_contract_auditor.py:37-38 | characterises the guard `WithdrawUnchecked`: `UnsafeWithdraw` is present if and only if the lower-cased source contains `withdraw` and the source as written has no `msg.sender` |
| `Auditor.SelfDestructIff` | nft_contract_auditor.py:43-44 | characterises the guard `SelfDestructPresent`: `SelfDestruct` is present if and only if the lower-cased source contains `selfdestruct` |
| `Auditor.SelfDestructAnyCase` | nft_contract_auditor.py:43-44 | a source containing any capitalisation of `selfdestruct` gets the `SelfDestruct` finding |
| `Auditor.ReentrancyAdvisoryAlways` | nft_contract_auditor.py:40-41 | the guard `ReentrancyGuardMissing` holds, and so every non-empty source gets `NoReentrancyGuard`, because the upper-case needle cannot occur in lower-cased text |
| `Auditor.CleanIffNothingFires` | nft_contract_auditor.py:46 | the result is `[Clean]` exactly when the source is non-empty and none of the five rules fires |
| `Auditor.CleanNeverReturned` | nft_contract_auditor.py:40-46 | `Clean` is in no result at all |
| `Auditor.AnalysisOfSource` | nft_contract_auditor.py:29-46 | for a non-empty source the result is the owner, mint and withdraw contributions, then the reentrancy advisory unconditionally, then the selfdestruct contribution |
| `Auditor.FindingsInRuleOrder` | nft_contract_auditor.py:29-46 | for a non-empty source, the findings are rule findings in strictly increasing rule order, between one and five of them |
| `Text.ContainsIff` | nft_contract_auditor.py:31-43 | characterises `Text.Contains`, the model of Python's `in`: `Contains(h, n)` holds exactly when `n` occurs in `h` at some position, as Python's `n in h` means |
| `Text.LowerChar` | nft_contract_auditor.py:34 | each ASCII capital becomes the corresponding small letter; every other character is unchanged; the result is never an upper-case letter |
| `Text.UpperOf` | nft_contract_auditor.py:34 | the capital form of a small ASCII letter is an upper-case letter that `LowerChar` maps back to it |
| `Text.Lower` | nft_contract_auditor.py:34 | `source.lower()` keeps the length, lower-cases each character in place, and leaves no upper-case letter |
| `Text.UpperNeedleNeverInLower` | nft_contract_auditor.py:40 | a needle that contains an upper-case letter is never found in a lower-cased text |
| `Text.LowerKeepsOccurrences` | nft_contract_auditor.py:34-44 | if `s` contains `n`, then `Lower(s)` contains `Lower(n)` |
| `Text.MissingCharNotContained` | nft_contract_auditor.py:31-44 | a needle with a character the text lacks is not contained in the text |
| `Scenarios.UnverifiedRecords` | nft_contract_auditor.py:25-27 | a record without `SourceCode` and one with an empty `SourceCode` both give exactly `[Unverified]` |
| `Scenarios.OwnerAndAdvisoryOnly` | nft_contract_auditor.py:29-46 | any non-empty text without `o`, and without `m`, `w` and `s` in either case, gives `[NoOwner, NoReentrancyGuard]` |
| `Scenarios.SelfDestructWithoutOwner` | nft_contract_auditor.py:29-46 | any text containing `selfdestruct`, without `o`, and without `m` and `w` in either case, gives `[NoOwner, NoReentrancyGuard, SelfDestruct]` |
| `Scenarios.WithdrawWithoutSender` | nft_contract_auditor.py:37-38 | any text containing `withdraw`, without `O`, and without `m` and `s` in either case, gives `[NoOwner, UnsafeWithdraw, NoReentrancyGuard]` |
| `Scenarios.SenderAnywhere` | nft_contract_auditor.py:37-38 | any text containing `msg.sender`, without `O`, and without `p` and `l` in either case, gives `[NoOwner, NoReentrancyGuard]`: the sender mention silences the withdraw rule even next to a `withdraw` |
| `Scenarios.OwnerAndSenderChecked` | nft_contract_auditor.py:29-46 | any text containing `onlyOwner` and `msg.sender`, without `i` and `f` in either case, gives only `[NoReentrancyGuard]`: both checks silence their rules |
| `Scenarios.OwnerCheckedPublicMint` | nft_contract_auditor.py:29-46 | any text containing `onlyOwner`, `mint` and `public`, without `h` and `f` in either case, gives `[PublicMint, NoReentrancyGuard]` |
| `Scenarios.GuardedSourceStillFlagged` | nft_contract_auditor.py:40-41 | the source `ReentrancyGuard` gives `[NoOwner, NoReentrancyGuard]` |
| `Scenarios.SelfDestructSource` | nft_contract_auditor.py:24-46 | the source `selfdestruct(a)` gives `[NoOwner, NoReentrancyGuard, SelfDestruct]` |
| `Scenarios.BareWithdraw` | nft_contract_auditor.py:37-38 | the source `withdraw()` gives `[NoOwner, UnsafeWithdraw, NoReentrancyGuard]` |
| `Scenarios.SenderWithdraw` | nft_contract_auditor.py:37-38 | the source `withdraw(msg.sender)` gives `[NoOwner, NoReentrancyGuard]`, because the `msg.sender` suppresses the withdraw finding |
| `Scenarios.CheckedSource` | nft_contract_auditor.py:31-41 | the source `onlyOwner msg.sender` gives only `[NoReentrancyGuard]` |
| `Scenarios.PublicMintSource` | nft_contract_auditor.py:31-41 | the source `onlyOwner public mint` gives `[PublicMint, NoReentrancyGuard]` |

## Left out

- `fetch_contract_source` (nft_contract_auditor.py:12-21) is not modelled. It makes an HTTP GET to the block-explorer API, decodes the JSON and returns the first result or nothing. That is network I/O through a foreign library.
- `main` (nft_contract_auditor.py:49-67) is not modelled. It holds the command-line argument parsing and the console printing.
- Message texts: the Russian and emoji strings are represented by `Finding` constructors, one per message.
- Unicode case mapping: Python's `str.lower` is full Unicode lower-casing, while `Text.Lower` maps only ASCII `A`–`Z` to `a`–`z`. All the needles are ASCII. Python's lower-casing never produces an upper-case `G` either, so rule 4's needle is never found in the real program either. The only non-ASCII characters that Python lower-cases to ASCII letters are U+212A (to `k`) and U+0130 (to `i` followed by U+0307). No needle contains `k`, and in every needle an `i` is followed by an ASCII letter, so the ASCII `Lower` gives the same containment results as the program for all the lower-cased needles.
- Non-string field values: the record is a `map<string, string>`. A JSON `null` stored under `SourceCode` is not representable. The program would treat it like an empty source.
- Concrete scenarios cover only short texts. Refuting a needle in a long literal text would require checking every position, which is too expensive for the verifier.
