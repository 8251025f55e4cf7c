/** The transaction, project and pledge records the verification core reads.
    Inputs and outputs remember the transaction object that owns them, as the
    library's objects do; `DetachInput` and `DetachOutput` produce the ownerless
    copies that the core compares. */
module Protocol {
  import opened Results

  newtype Byte = x: int | 0 <= x < 256

  type Bytes = seq<Byte>

  /** Object identity of a transaction in memory (not its hash). */
  type ObjectRef = nat

  /** A 256-bit digest, as the library's hash class holds it. */
  type Sha256Hash = h: Bytes | |h| == 32 witness seq(32, _ => 0)

  /** The output of an earlier transaction that an input spends. */
  datatype Outpoint = Outpoint(hash: Bytes, index: nat)

  datatype TxInput = TxInput(outpoint: Outpoint, scriptBytes: Bytes, sequence: nat, parent: Option<ObjectRef>)

  datatype TxOutput = TxOutput(value: int, scriptBytes: Bytes, parent: Option<ObjectRef>)

  datatype Transaction = Transaction(inputs: seq<TxInput>, outputs: seq<TxOutput>)

  /** A crowdfunding project: the outputs a claim must pay, in order. */
  datatype Project = Project(outputs: seq<TxOutput>)

  /** A pledge message: the serialized transactions it commits and, when it was
      re-transmitted, the hash it had originally. */
  datatype Pledge = Pledge(transactions: seq<Bytes>, projectId: string, origHash: Option<Bytes>)

  /** Why the project's sanity check refused a pledge. */
  datatype VerificationError = VerificationError(message: string)

  /** Two inputs spend the same outpoint with the same script and sequence number. */
  predicate SameSpend(a: TxInput, b: TxInput) {
    a.outpoint == b.outpoint && a.scriptBytes == b.scriptBytes && a.sequence == b.sequence
  }

  /** Two outputs pay the same value to the same script. */
  predicate SameValueAndScript(a: TxOutput, b: TxOutput) {
    a.value == b.value && a.scriptBytes == b.scriptBytes
  }

  /** The copy of an input that no transaction owns. */
  function DetachInput(i: TxInput): (d: TxInput)
    ensures d.parent.None? && SameSpend(d, i)
  {
    i.(parent := None)
  }

  /** The copy of an output that no transaction owns. */
  function DetachOutput(o: TxOutput): (d: TxOutput)
    ensures d.parent.None? && SameValueAndScript(d, o)
  {
    o.(parent := None)
  }

  /** An input as it looks once the transaction `owner` holds it. */
  function AdoptInput(i: TxInput, owner: ObjectRef): (a: TxInput)
    ensures a.parent == Some(owner) && SameSpend(a, i)
  {
    i.(parent := Some(owner))
  }

  /** An output as it looks once the transaction `owner` holds it. */
  function AdoptOutput(o: TxOutput, owner: ObjectRef): (a: TxOutput)
    ensures a.parent == Some(owner) && SameValueAndScript(a, o)
  {
    o.(parent := Some(owner))
  }

  /** Detached copies are equal exactly when the inputs spend the same thing,
      whichever transactions own them. */
  lemma DetachedInputsEqualIff(a: TxInput, b: TxInput)
    ensures DetachInput(a) == DetachInput(b) <==> SameSpend(a, b)
  {
  }

  /** Detached copies are equal exactly when the outputs pay the same value to the
      same script, whichever transactions own them. */
  lemma DetachedOutputsEqualIff(a: TxOutput, b: TxOutput)
    ensures DetachOutput(a) == DetachOutput(b) <==> SameValueAndScript(a, b)
  {
  }

  /** Moving an input into another transaction does not change its detached copy,
      and detaching twice is detaching once. */
  lemma DetachInputIgnoresOwner(i: TxInput, owner: ObjectRef)
    ensures DetachInput(AdoptInput(i, owner)) == DetachInput(i)
    ensures DetachInput(DetachInput(i)) == DetachInput(i)
  {
  }

  /** Moving an output into another transaction does not change its detached copy,
      and detaching twice is detaching once. */
  lemma DetachOutputIgnoresOwner(o: TxOutput, owner: ObjectRef)
    ensures DetachOutput(AdoptOutput(o, owner)) == DetachOutput(o)
    ensures DetachOutput(DetachOutput(o)) == DetachOutput(o)
  {
  }
}
