/** Whether a pledge's funds were spent by a claim: `pledgeAppearsInClaim`. */
module Inclusion {
  import opened Results
  import opened Protocol
  import opened Lists

  /** The test the code ships: keep the claim inputs that equal some pledge input,
      then compare how many were kept with how many pledge inputs there are. */
  predicate InputsIncluded<T(==,!new)>(pledgeInputs: seq<T>, claimInputs: seq<T>)
    ensures InputsIncluded(pledgeInputs, claimInputs) ==> |pledgeInputs| <= |claimInputs|
  {
    |RetainAll(claimInputs, pledgeInputs)| == |pledgeInputs|
  }

  /** Multiset inclusion: every pledge input occurs in the claim at least as often
      as in the pledge. */
  predicate StrictlyIncluded<T(==)>(pledgeInputs: seq<T>, claimInputs: seq<T>) {
    multiset(pledgeInputs) <= multiset(claimInputs)
  }

  /** Checks the pledge against the project, then asks whether every input of the
      pledge's transaction reappears among the claim's inputs, both compared as
      detached copies. A refusal by the sanity check is returned as the error and
      never turned into `false`. */
  function PledgeAppearsInClaim(
    forProject: Project, pledge: Pledge, claim: Transaction,
    fastSanityCheck: (Project, Pledge) -> Result<Transaction, VerificationError>
  ): (r: Result<bool, VerificationError>)
    ensures fastSanityCheck(forProject, pledge).Err? ==> r == Err(fastSanityCheck(forProject, pledge).error)
    ensures fastSanityCheck(forProject, pledge).Ok? ==> r.Ok?
  {
    var tx :- fastSanityCheck(forProject, pledge);
    Ok(InputsIncluded(MapList(tx.inputs, DetachInput), MapList(claim.inputs, DetachInput)))
  }

  /** The multiset-inclusion variant of `PledgeAppearsInClaim`. */
  function PledgeAppearsInClaimStrict(
    forProject: Project, pledge: Pledge, claim: Transaction,
    fastSanityCheck: (Project, Pledge) -> Result<Transaction, VerificationError>
  ): (r: Result<bool, VerificationError>)
    ensures fastSanityCheck(forProject, pledge).Err? ==> r == Err(fastSanityCheck(forProject, pledge).error)
    ensures fastSanityCheck(forProject, pledge).Ok? ==> r.Ok?
  {
    var tx :- fastSanityCheck(forProject, pledge);
    Ok(StrictlyIncluded(MapList(tx.inputs, DetachInput), MapList(claim.inputs, DetachInput)))
  }

  /** On a duplicate-free claim, everything kept is already counted in the pledge. */
  lemma RetainedWithinPledge<T(!new)>(pledgeInputs: seq<T>, claimInputs: seq<T>)
    requires NoDuplicates(claimInputs)
    ensures multiset(RetainAll(claimInputs, pledgeInputs)) <= multiset(pledgeInputs)
    ensures multiset(RetainAll(claimInputs, pledgeInputs)) <= multiset(claimInputs)
  {
    NoDuplicatesIffCountsAtMostOne(claimInputs);
    var kept := RetainAll(claimInputs, pledgeInputs);
    forall x ensures multiset(kept)[x] <= multiset(pledgeInputs)[x] {
      if x in pledgeInputs {
        assert multiset(pledgeInputs)[x] >= 1;
      }
    }
  }

  /** When the claim spends no input twice, the shipped test is exactly multiset
      inclusion. */
  lemma IncludedIffStrictOnDistinctClaim<T(!new)>(pledgeInputs: seq<T>, claimInputs: seq<T>)
    requires NoDuplicates(claimInputs)
    ensures InputsIncluded(pledgeInputs, claimInputs) <==> StrictlyIncluded(pledgeInputs, claimInputs)
  {
    var kept := RetainAll(claimInputs, pledgeInputs);
    RetainedWithinPledge(pledgeInputs, claimInputs);
    NoDuplicatesIffCountsAtMostOne(claimInputs);
    if InputsIncluded(pledgeInputs, claimInputs) {
      assert |multiset(kept)| == |multiset(pledgeInputs)|;
      SubMultisetOfSameSize(multiset(kept), multiset(pledgeInputs));
    }
    if StrictlyIncluded(pledgeInputs, claimInputs) {
      forall x ensures multiset(pledgeInputs)[x] <= multiset(kept)[x] {
        if x in pledgeInputs {
          assert multiset(pledgeInputs)[x] <= multiset(claimInputs)[x];
        }
      }
      assert multiset(kept) == multiset(pledgeInputs);
      assert |kept| == |multiset(kept)|;
    }
  }

  /** When neither list repeats an input, the shipped test holds exactly when every
      pledge input occurs among the claim inputs. */
  lemma IncludedIffSubsetWhenDistinct<T(!new)>(pledgeInputs: seq<T>, claimInputs: seq<T>)
    requires NoDuplicates(pledgeInputs) && NoDuplicates(claimInputs)
    ensures InputsIncluded(pledgeInputs, claimInputs) <==> forall x :: x in pledgeInputs ==> x in claimInputs
  {
    IncludedIffStrictOnDistinctClaim(pledgeInputs, claimInputs);
    NoDuplicatesIffCountsAtMostOne(pledgeInputs);
    if forall x :: x in pledgeInputs ==> x in claimInputs {
      forall x ensures multiset(pledgeInputs)[x] <= multiset(claimInputs)[x] {
        if x in pledgeInputs {
          assert x in claimInputs;
        }
      }
    }
    if StrictlyIncluded(pledgeInputs, claimInputs) {
      forall x | x in pledgeInputs ensures x in claimInputs {
        assert multiset(pledgeInputs)[x] > 0;
      }
    }
  }

  /** A pledge with no inputs is included in every claim. */
  lemma EmptyPledgeIncluded<T(!new)>(claimInputs: seq<T>)
    ensures InputsIncluded([], claimInputs)
  {
    var kept := RetainAll(claimInputs, []);
    assert multiset(kept) == multiset{};
    assert |kept| == |multiset(kept)|;
  }

  /** Dropping one input of the pledge from a duplicate-free claim makes the test fail. */
  lemma DroppedInputExcluded<T(!new)>(pledgeInputs: seq<T>, claimInputs: seq<T>, i: nat)
    requires NoDuplicates(claimInputs)
    requires i < |claimInputs| && claimInputs[i] in pledgeInputs
    ensures !InputsIncluded(pledgeInputs, claimInputs[..i] + claimInputs[i + 1..])
  {
    var x := claimInputs[i];
    var rest := claimInputs[..i] + claimInputs[i + 1..];
    assert claimInputs == claimInputs[..i] + [x] + claimInputs[i + 1..];
    NoDuplicatesIffCountsAtMostOne(claimInputs);
    NoDuplicatesIffCountsAtMostOne(rest);
    assert multiset(rest)[x] == 0;
    IncludedIffStrictOnDistinctClaim(pledgeInputs, rest);
    assert multiset(pledgeInputs)[x] > 0;
  }

  /** A claim made of two pledges' inputs, none repeated, includes each pledge. */
  lemma UnionIncludesEach<T(!new)>(first: seq<T>, second: seq<T>)
    requires NoDuplicates(first + second)
    ensures InputsIncluded(first, first + second)
    ensures InputsIncluded(second, first + second)
  {
    IncludedIffStrictOnDistinctClaim(first, first + second);
    IncludedIffStrictOnDistinctClaim(second, first + second);
    assert multiset(first + second) == multiset(first) + multiset(second);
  }

  /** The test is not subset inclusion: pledge [a, b] passes against claim [a, a]
      although b is never spent. */
  lemma MissingInputStillAccepted<T(!new)>(a: T, b: T)
    requires a != b
    ensures InputsIncluded([a, b], [a, a])
    ensures b !in [a, a]
    ensures !StrictlyIncluded([a, b], [a, a])
  {
    assert RetainAll([a, a], [a, b]) == [a, a] by {
      assert [a, a][..1] == [a];
      assert [a][..0] == [];
    }
    assert multiset([a, a])[b] == 0;
  }

  /** Pledge [a, a] fails against claim [a]: one kept input against two pledged. */
  lemma RepeatedPledgeInputRejected<T(!new)>(a: T)
    ensures !InputsIncluded([a, a], [a])
    ensures !StrictlyIncluded([a, a], [a])
  {
    assert RetainAll([a], [a, a]) == [a] by {
      assert [a][..0] == [];
    }
    assert multiset([a, a])[a] == 2;
  }

  /** Pledge [a] fails against claim [a, a] although the claim spends a twice. */
  lemma RepeatedClaimInputRejected<T(!new)>(a: T)
    ensures !InputsIncluded([a], [a, a])
    ensures StrictlyIncluded([a], [a, a])
  {
    assert RetainAll([a, a], [a]) == [a, a] by {
      assert [a, a][..1] == [a];
      assert [a][..0] == [];
    }
  }

  /** On a claim whose detached inputs are all different, the shipped check and the
      multiset variant give the same answer. */
  lemma PledgeAppearsInClaimAgreesWithStrict(
    forProject: Project, pledge: Pledge, claim: Transaction,
    fastSanityCheck: (Project, Pledge) -> Result<Transaction, VerificationError>
  )
    requires NoDuplicates(MapList(claim.inputs, DetachInput))
    ensures PledgeAppearsInClaim(forProject, pledge, claim, fastSanityCheck)
         == PledgeAppearsInClaimStrict(forProject, pledge, claim, fastSanityCheck)
  {
    var check := fastSanityCheck(forProject, pledge);
    if check.Ok? {
      IncludedIffStrictOnDistinctClaim(MapList(check.value.inputs, DetachInput), MapList(claim.inputs, DetachInput));
    }
  }

  /** When the check passes on a claim whose detached inputs are all different,
      every input of the pledge's transaction is spent by some claim input. */
  lemma AcceptedPledgeInputsAreSpent(
    forProject: Project, pledge: Pledge, claim: Transaction,
    fastSanityCheck: (Project, Pledge) -> Result<Transaction, VerificationError>
  )
    requires NoDuplicates(MapList(claim.inputs, DetachInput))
    requires PledgeAppearsInClaim(forProject, pledge, claim, fastSanityCheck) == Ok(true)
    ensures forall i :: 0 <= i < |fastSanityCheck(forProject, pledge).value.inputs| ==>
              exists j :: 0 <= j < |claim.inputs| &&
                SameSpend(fastSanityCheck(forProject, pledge).value.inputs[i], claim.inputs[j])
  {
    var tx := fastSanityCheck(forProject, pledge).value;
    var pledgeInputs := MapList(tx.inputs, DetachInput);
    var claimInputs := MapList(claim.inputs, DetachInput);
    IncludedIffStrictOnDistinctClaim(pledgeInputs, claimInputs);
    forall i | 0 <= i < |tx.inputs|
      ensures exists j :: 0 <= j < |claim.inputs| && SameSpend(tx.inputs[i], claim.inputs[j])
    {
      assert multiset(pledgeInputs)[pledgeInputs[i]] > 0;
      assert pledgeInputs[i] in claimInputs;
      var j :| 0 <= j < |claimInputs| && claimInputs[j] == pledgeInputs[i];
      DetachedInputsEqualIff(claim.inputs[j], tx.inputs[i]);
    }
  }

  /** The multiset variant needs no assumption about the claim: when it accepts,
      every input of the pledge's transaction is spent by some claim input. */
  lemma StrictAcceptedPledgeInputsAreSpent(
    forProject: Project, pledge: Pledge, claim: Transaction,
    fastSanityCheck: (Project, Pledge) -> Result<Transaction, VerificationError>
  )
    requires PledgeAppearsInClaimStrict(forProject, pledge, claim, fastSanityCheck) == Ok(true)
    ensures forall i :: 0 <= i < |fastSanityCheck(forProject, pledge).value.inputs| ==>
              exists j :: 0 <= j < |claim.inputs| &&
                SameSpend(fastSanityCheck(forProject, pledge).value.inputs[i], claim.inputs[j])
  {
    var tx := fastSanityCheck(forProject, pledge).value;
    var pledgeInputs := MapList(tx.inputs, DetachInput);
    var claimInputs := MapList(claim.inputs, DetachInput);
    forall i | 0 <= i < |tx.inputs|
      ensures exists j :: 0 <= j < |claim.inputs| && SameSpend(tx.inputs[i], claim.inputs[j])
    {
      assert multiset(pledgeInputs)[pledgeInputs[i]] > 0;
      assert pledgeInputs[i] in claimInputs;
      var j :| 0 <= j < |claimInputs| && claimInputs[j] == pledgeInputs[i];
      DetachedInputsEqualIff(claim.inputs[j], tx.inputs[i]);
    }
  }

  /** The two concrete inclusion cases: a pledge spending (H1, 0) is found in a claim
      spending (H1, 0) and (H2, 1), and not in a claim spending only (H2, 1). */
  lemma ConcreteInclusionScenario(h1: Bytes, h2: Bytes, script: Bytes)
    requires h1 != h2
    ensures var p := TxInput(Outpoint(h1, 0), script, 0, None);
            var q := TxInput(Outpoint(h2, 1), script, 0, None);
            InputsIncluded([p], [p, q]) && !InputsIncluded([p], [q])
  {
    var p := TxInput(Outpoint(h1, 0), script, 0, None);
    var q := TxInput(Outpoint(h2, 1), script, 0, None);
    assert RetainAll([p, q], [p]) == [p] by {
      assert [p, q][..1] == [p];
      assert [p][..0] == [];
    }
    assert RetainAll([q], [p]) == [] by {
      assert [q][..0] == [];
    }
  }
}
