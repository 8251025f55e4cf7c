/** Whether a transaction pays exactly the outputs a project asks for:
    `compareOutputsStructurally`. */
module OutputMatching {
  import opened Results
  import opened Protocol
  import opened Lists

  /** Detached copies of the transaction's outputs against detached copies of the
      project's outputs, compared as ordered lists. */
  function CompareOutputsStructurally(tx: Transaction, project: Project): (r: bool)
    ensures r <==> |tx.outputs| == |project.outputs| &&
                   forall i :: 0 <= i < |tx.outputs| ==> SameValueAndScript(tx.outputs[i], project.outputs[i])
  {
    var outs1 := MapList(tx.outputs, DetachOutput);
    var outs2 := MapList(project.outputs, DetachOutput);
    assert outs1 == outs2 <==> |outs1| == |outs2| && forall i :: 0 <= i < |outs1| ==> outs1[i] == outs2[i];
    outs1 == outs2
  }

  /** A transaction that pays the project's own outputs, whoever owns them, matches. */
  lemma ProjectOutputsMatch(inputs: seq<TxInput>, project: Project, owner: ObjectRef)
    ensures CompareOutputsStructurally(
              Transaction(inputs, MapList(project.outputs, (o: TxOutput) => AdoptOutput(o, owner))), project)
  {
  }

  /** Which transaction owns the outputs never changes the answer. */
  lemma MatchIgnoresOwner(tx: Transaction, project: Project, owner: ObjectRef)
    ensures CompareOutputsStructurally(tx.(outputs := MapList(tx.outputs, (o: TxOutput) => AdoptOutput(o, owner))), project)
        == CompareOutputsStructurally(tx, project)
  {
  }

  /** Exchanging two outputs that differ makes a matching transaction stop matching. */
  lemma SwappedOutputsRejected(tx: Transaction, project: Project, i: nat, j: nat)
    requires CompareOutputsStructurally(tx, project)
    requires i < j < |tx.outputs|
    requires !SameValueAndScript(tx.outputs[i], tx.outputs[j])
    ensures !CompareOutputsStructurally(
              tx.(outputs := tx.outputs[i := tx.outputs[j]][j := tx.outputs[i]]), project)
  {
    var swapped := tx.outputs[i := tx.outputs[j]][j := tx.outputs[i]];
    assert !SameValueAndScript(swapped[i], project.outputs[i]);
  }

  /** One extra output, anywhere, makes a matching transaction stop matching. */
  lemma ExtraOutputRejected(tx: Transaction, project: Project, k: nat, extra: TxOutput)
    requires CompareOutputsStructurally(tx, project)
    requires k <= |tx.outputs|
    ensures !CompareOutputsStructurally(tx.(outputs := tx.outputs[..k] + [extra] + tx.outputs[k..]), project)
  {
  }

  /** One missing output makes a matching transaction stop matching. */
  lemma MissingOutputRejected(tx: Transaction, project: Project, k: nat)
    requires CompareOutputsStructurally(tx, project)
    requires k < |tx.outputs|
    ensures !CompareOutputsStructurally(tx.(outputs := tx.outputs[..k] + tx.outputs[k + 1..]), project)
  {
  }

  /** A project asking for 500 units to script A is matched by a transaction paying
      exactly that and not by one that also pays 1 unit to script B. */
  lemma ConcreteOutputScenario(a: Bytes, b: Bytes, inputs: seq<TxInput>)
    ensures var project := Project([TxOutput(500, a, None)]);
            CompareOutputsStructurally(Transaction(inputs, [TxOutput(500, a, Some(1))]), project) &&
            !CompareOutputsStructurally(Transaction(inputs, [TxOutput(500, a, Some(1)), TxOutput(1, b, Some(1))]), project)
  {
  }
}
