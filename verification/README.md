# Lighthouse pledge verification core, in Dafny

Lighthouse is a crowdfunding wallet built on assurance contracts. A contributor sends a
*pledge*: a signed transaction fragment that commits some coins to a *project*. The project
is funded by a *claim*, one transaction that spends the pledged inputs and pays the
project's outputs. `LHUtils` holds the pure checks the rest of the program relies on, and the one helper they call:

- `compareOutputsStructurally`: does a transaction pay exactly the project's outputs, in order?
- `pledgeAppearsInClaim`: are a pledge's inputs spent by a claim?
- `hashFromPledge`: the name a pledge is stored under.
- `mapList`, which the first two use to take detached copies.

Other helpers of the same class, which the checks do not call, are modelled too: the slug
function `titleToUrlString`, the URL builder `makeServerPath`, and the decision part of
`validateServerPath`.

The model is functional. Inputs and outputs are immutable datatypes. Each one keeps an
optional `parent` field, the transaction object that owns it, because the library's
equality looks at that owner. `DetachInput` and `DetachOutput` clear the field. This is
what `duplicateDetached` does, so comparing detached copies is plain datatype equality.

Collaborators the core calls but does not define are passed in as function parameters:
- the project's `fastSanityCheck`, which returns the pledge's transaction or a `VerificationError`;
- the protobuf encoder `serialize`;
- the hash primitive `sha256`;
- the URI parser `parse`.

Files, one module each:
- `results.dfy` (`Results`): `Option` and `Result`.
- `protocol.dfy` (`Protocol`): records and detaching.
- `lists.dfy` (`Lists`): `MapList`, `RetainAll`, `NoDuplicates`.
- `outputs.dfy` (`OutputMatching`).
- `inclusion.dfy` (`Inclusion`).
- `identity.dfy` (`PledgeIdentity`).
- `urls.dfy` (`ServerPaths`).

## How the inclusion test behaves

The code copies the claim's inputs and keeps those equal to some pledge input (Java's
`retainAll`). It then checks that the number kept equals the number of pledge inputs. This
is modelled as written (`Inclusion.InputsIncluded`). The proved facts:

- If the claim's detached inputs are all different, the test is exactly multiset
  inclusion: every pledge input occurs in the claim at least as often as in the pledge. A
  valid claim never spends one outpoint twice, so on such claims the test means what its
  name says.
- If the claim repeats an input, the test answers both ways wrongly. Pledge `[a, b]`
  passes against claim `[a, a]` although `b` is never spent. Pledge `[a]` fails against
  claim `[a, a]`.
- Pledge `[a, a]` fails against claim `[a]`, because one input is kept and two were pledged.
  The model follows the code.

The multiset-inclusion variant, `Inclusion.PledgeAppearsInClaimStrict`, is modelled beside
the shipped check. It is proved equal to the shipped check on every claim without repeated inputs.

The content hash is called through the library's `Sha256Hash.create`. The model keeps the
primitive as an uninterpreted parameter.

## Model

| member | source | states |
|---|---|---|
| Lists.MapList | common/src/main/java/lighthouse/protocol/LHUtils.java:196-200 | the result has the input's length and element i is the transformer applied to input i |
| Lists.RetainAll | common/src/main/java/lighthouse/protocol/LHUtils.java:55 | after `retainAll`, each value occurs as often as in the claim list if some pledge input equals it, and not at all otherwise; the list never grows |
| Protocol.DetachInput | common/src/main/java/lighthouse/protocol/LHUtils.java:53-54 | a detached input has no owning transaction and spends the same outpoint with the same script and sequence |
| Protocol.DetachOutput | common/src/main/java/lighthouse/protocol/LHUtils.java:46-47 | a detached output has no owning transaction and pays the same value to the same script |
| Protocol.DetachedInputsEqualIff | common/src/main/java/lighthouse/protocol/LHUtils.java:53-55 | two inputs compare equal after detaching iff they spend the same outpoint with the same script and sequence, whoever owns them |
| Protocol.DetachedOutputsEqualIff | common/src/main/java/lighthouse/protocol/LHUtils.java:46-48 | two outputs compare equal after detaching iff they pay the same value to the same script, whoever owns them |
| Protocol.DetachInputIgnoresOwner | common/src/main/java/lighthouse/protocol/LHUtils.java:53-54 | moving an input into any transaction leaves its detached copy unchanged; detaching is idempotent |
| Protocol.DetachOutputIgnoresOwner | common/src/main/java/lighthouse/protocol/LHUtils.java:46-47 | moving an output into any transaction leaves its detached copy unchanged; detaching is idempotent |
| OutputMatching.CompareOutputsStructurally | common/src/main/java/lighthouse/protocol/LHUtils.java:45-49 | true iff the transaction has as many outputs as the project and each position pays the same value to the same script |
| OutputMatching.ProjectOutputsMatch | common/src/main/java/lighthouse/protocol/LHUtils.java:45-48 | a transaction paying the project's own outputs matches, whichever transaction object owns them |
| OutputMatching.MatchIgnoresOwner | common/src/main/java/lighthouse/protocol/LHUtils.java:46-48 | re-owning every output of the transaction never changes the answer |
| OutputMatching.SwappedOutputsRejected | common/src/main/java/lighthouse/protocol/LHUtils.java:48 | exchanging two different outputs of a matching transaction makes it fail: order matters |
| OutputMatching.ExtraOutputRejected | common/src/main/java/lighthouse/protocol/LHUtils.java:48 | inserting one more output anywhere into a matching transaction makes it fail |
| OutputMatching.MissingOutputRejected | common/src/main/java/lighthouse/protocol/LHUtils.java:48 | removing any one output of a matching transaction makes it fail |
| OutputMatching.ConcreteOutputScenario | common/src/main/java/lighthouse/protocol/LHUtils.java:45-48 | a project asking for 500 to script A matches a transaction paying exactly that, not one also paying 1 to script B |
| Inclusion.PledgeAppearsInClaim | common/src/main/java/lighthouse/protocol/LHUtils.java:51-57 | a sanity-check failure is returned unchanged as the error and never becomes a boolean; otherwise a boolean is returned |
| Inclusion.InputsIncluded | common/src/main/java/lighthouse/protocol/LHUtils.java:55-56 | the test is whether the number of claim inputs `retainAll` keeps equals the number of pledge inputs; it never passes against a claim with fewer inputs than the pledge |
| Inclusion.RetainedWithinPledge | common/src/main/java/lighthouse/protocol/LHUtils.java:55-56 | on a claim without repeated inputs, what `retainAll` keeps is a sub-multiset of both the pledge inputs and the claim inputs |
| Inclusion.IncludedIffStrictOnDistinctClaim | common/src/main/java/lighthouse/protocol/LHUtils.java:55-56 | on a claim without repeated inputs, the kept-count test holds iff the pledge inputs form a sub-multiset of the claim inputs |
| Inclusion.IncludedIffSubsetWhenDistinct | common/src/main/java/lighthouse/protocol/LHUtils.java:55-56 | when neither list repeats an input, the test holds iff every pledge input occurs among the claim inputs |
| Inclusion.EmptyPledgeIncluded | common/src/main/java/lighthouse/protocol/LHUtils.java:55-56 | a pledge with no inputs passes against every claim |
| Inclusion.DroppedInputExcluded | common/src/main/java/lighthouse/protocol/LHUtils.java:55-56 | deleting any pledged input from a claim without repeated inputs makes the test fail |
| Inclusion.UnionIncludesEach | common/src/main/java/lighthouse/protocol/LHUtils.java:55-56 | a claim made of two pledges' inputs, none repeated, passes for each pledge |
| Inclusion.MissingInputStillAccepted | common/src/main/java/lighthouse/protocol/LHUtils.java:55-56 | pledge [a, b] passes against claim [a, a] although b is absent, while multiset inclusion fails |
| Inclusion.RepeatedPledgeInputRejected | common/src/main/java/lighthouse/protocol/LHUtils.java:55-56 | pledge [a, a] fails against claim [a] |
| Inclusion.RepeatedClaimInputRejected | common/src/main/java/lighthouse/protocol/LHUtils.java:55-56 | pledge [a] fails against claim [a, a] although multiset inclusion holds |
| Inclusion.PledgeAppearsInClaimStrict | common/src/main/java/lighthouse/protocol/LHUtils.java:51-57 | the multiset variant propagates the sanity-check failure the same way |
| Inclusion.PledgeAppearsInClaimAgreesWithStrict | common/src/main/java/lighthouse/protocol/LHUtils.java:51-56 | on a claim whose detached inputs are all different, the shipped check and the multiset variant give the same result, error included |
| Inclusion.AcceptedPledgeInputsAreSpent | common/src/main/java/lighthouse/protocol/LHUtils.java:51-56 | if the shipped check answers true on a claim without repeated inputs, every input of the pledge's transaction has a claim input spending the same outpoint with the same script |
| Inclusion.StrictAcceptedPledgeInputsAreSpent | common/src/main/java/lighthouse/protocol/LHUtils.java:51-56 | if the multiset variant answers true, on any claim, every input of the pledge's transaction has a matching claim input |
| Inclusion.ConcreteInclusionScenario | common/src/main/java/lighthouse/protocol/LHUtils.java:53-56 | a pledge spending (H1, 0) passes against a claim spending (H1, 0) and (H2, 1), and fails against one spending only (H2, 1) |
| PledgeIdentity.HashFromPledge | common/src/main/java/lighthouse/protocol/LHUtils.java:220-225 | a present `origHash` is returned byte for byte; otherwise the result is the hash of the pledge's serialization |
| PledgeIdentity.OverrideIsAuthoritative | common/src/main/java/lighthouse/protocol/LHUtils.java:221-222 | pledges carrying the same override have the same identity, whatever else they contain |
| PledgeIdentity.EqualBytesEqualIdentity | common/src/main/java/lighthouse/protocol/LHUtils.java:223-224 | without an override, pledges with equal serializations have equal identities |
| PledgeIdentity.StampingKeepsIdentity | common/src/main/java/lighthouse/protocol/LHUtils.java:219-225 | storing a pledge's identity in its `origHash` field does not change its identity |
| ServerPaths.StripDisallowed | common/src/main/java/lighthouse/protocol/LHUtils.java:60 | the first rewrite leaves only characters of `[a-zA-Z0-9 ]`, never lengthens the text, and leaves a text made only of those characters unchanged |
| ServerPaths.StripDisallowedChar | common/src/main/java/lighthouse/protocol/LHUtils.java:60 | one character of `[a-zA-Z0-9 ]` survives the first rewrite unchanged; any other character is removed |
| ServerPaths.StripDisallowedAppend | common/src/main/java/lighthouse/protocol/LHUtils.java:60 | the first rewrite of a concatenation is the concatenation of the rewrites, so with the one-character case it is fixed completely |
| ServerPaths.HyphenateSpaces | common/src/main/java/lighthouse/protocol/LHUtils.java:60 | the second rewrite keeps the length and changes exactly the spaces, each into a hyphen |
| ServerPaths.AsciiLower | common/src/main/java/lighthouse/protocol/LHUtils.java:60 | the third rewrite keeps the length and lower-cases each character on its own |
| ServerPaths.TitleToUrlString | common/src/main/java/lighthouse/protocol/LHUtils.java:59-61 | the slug contains only `[a-z0-9-]` and is no longer than the title |
| ServerPaths.TitleToUrlStringAppend | common/src/main/java/lighthouse/protocol/LHUtils.java:59-61 | the slug of a concatenation is the concatenation of the slugs, so the order of characters is kept |
| ServerPaths.TitleToUrlStringChar | common/src/main/java/lighthouse/protocol/LHUtils.java:59-61 | one character of `[a-zA-Z0-9 ]` becomes one slug character, a space becoming `-`; any other character disappears |
| ServerPaths.PlainTitleKeepsLength | common/src/main/java/lighthouse/protocol/LHUtils.java:59-61 | a title made only of `[a-zA-Z0-9 ]` keeps its length, and position i holds the slug form of character i |
| ServerPaths.TitleToUrlStringNotIdempotent | common/src/main/java/lighthouse/protocol/LHUtils.java:59-61 | for lower-case letters x and z, "x z" becomes "x-z" but "x-z" becomes "xz": a slug is not a fixed point |
| ServerPaths.MakeServerPath | common/src/main/java/lighthouse/protocol/LHUtils.java:170-176 | the path is `https://`, then the server name, then `/_lighthouse/crowdfund/project/`, then the project id |
| ServerPaths.ValidateServerPath | common/src/main/java/lighthouse/protocol/LHUtils.java:156-168 | empty text gives no host; a host is returned only for an `https` URI whose path is the project's page; the call fails exactly when the parsed scheme is undefined, or is `https` with an undefined path |
| ServerPaths.SchemelessPathFails | common/src/main/java/lighthouse/protocol/LHUtils.java:160-161 | a text that parses as a URI without a scheme makes the check fail instead of answering no host |
| ServerPaths.ValidateServerPathNullSafe | common/src/main/java/lighthouse/protocol/LHUtils.java:154-168 | returns a host iff the text is non-empty, parses, has scheme `https`, has the project's path and has a host; that host is the parsed one |
| ServerPaths.NullSafeAgreesWhenDefined | common/src/main/java/lighthouse/protocol/LHUtils.java:156-168 | wherever the code as written answers, the null-safe check gives the same answer |
| ServerPaths.MadePathValidates | common/src/main/java/lighthouse/protocol/LHUtils.java:156-176 | a path built for a project validates for that project and yields the server name, given a parser that splits it into scheme, host and path |
| ServerPaths.MadePathRejectsOtherProject | common/src/main/java/lighthouse/protocol/LHUtils.java:161-176 | the same path yields no host for any other project id |

## Left out

- `listDir`, `nowAsString`, `isUnix` (lines 33-43, 63-65): file-system, clock and system-property access.
- `unchecked`, `uncheck`, `ignoreAndLog`, `ignoredAndLogged`, `checkedGet`, `didThrow`, `stopwatched`, `stopwatch` (lines 67-152): exception wrapping, logging and timing.
- `convertFuture`, `futureOfFutures` (lines 178-217): asynchronous combinators.
- `HTTP_LOCAL_TEST_PORT` (line 172): a constant none of the modelled operations uses.
- URI parsing inside `validateServerPath` is a foreign library. The parser is a parameter returning the scheme, host and path, each possibly undefined.
- `Project.fastSanityCheck`, protobuf serialization and the SHA-256 primitive are foreign. They are function parameters, and the hash is never given a concrete algorithm. `LHProtos` is not part of this model: a pledge carries its serialized transactions, its project id and the optional override hash, and nothing else.
- The library's `equals` on inputs and outputs is modelled as datatype equality over the fields an input or output carries. That includes its owner, which detaching clears.
- Java's `List` objects are mutable, but here every list is a value. That the claim's own input list is not changed by `retainAll` therefore holds by construction and is not a separate lemma.
- PledgeIdentity.HashFromPledge: requires a present override to be 32 bytes long. The library constructor's rejection of any other length is not modelled as an error.
- ServerPaths.AsciiLower: lower-cases ASCII letters only. Java's locale-dependent `toLowerCase` can map `I` to a dotless `ı` under a Turkish locale; this is not modelled. After the first rewrite only ASCII characters remain, so elsewhere the two agree.
- ServerPaths.MadePathValidates: holds only for a parser that splits the built path as stated in its requires, since the parser is not modelled.
- A change of one bit in the serialized bytes changing the hash is a property of the hash primitive, not of this code, and is not stated.

## Findings

| source | as written | input that shows it | evidently intended | confidence | as-written member | corrected member |
|---|---|---|---|---|---|---|
| common/src/main/java/lighthouse/protocol/LHUtils.java:160-161 | `uri.getScheme().equals("https")` reads a scheme that is undefined for relative URIs, and `uri.getPath()` is undefined for opaque ones; the resulting null dereference is not caught | the text `example.org/_lighthouse/crowdfund/project/p` (no scheme) parses as a relative URI | answer "no host" (null), as the `@Nullable` result and the caught syntax error do for other bad input | medium, not executed | ServerPaths.SchemelessPathFails | ServerPaths.ValidateServerPathNullSafe |
| common/src/main/java/lighthouse/protocol/LHUtils.java:55-56 | the kept count is compared with the pledge size, which lets a repeated claim input stand in for a missing pledge input | pledge inputs `[a, b]`, claim inputs `[a, a]` | true only if every pledge input is spent by the claim (multiset inclusion) | low, not executed; a claim that spends one outpoint twice is not a valid transaction | Inclusion.MissingInputStillAccepted | Inclusion.PledgeAppearsInClaimStrict |
