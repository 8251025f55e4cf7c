/** The name a pledge is stored and looked up under: `hashFromPledge`. */
module PledgeIdentity {
  import opened Results
  import opened Protocol

  /** The pledge's own claim of identity when it carries one, otherwise the hash of
      its serialized bytes. `serialize` is the message encoder and `sha256` the hash
      primitive; both are supplied by the caller. The override must be 32 bytes long,
      the only length the hash class accepts. */
  function HashFromPledge(pledge: Pledge, serialize: Pledge -> Bytes, sha256: Bytes -> Sha256Hash): (id: Sha256Hash)
    requires pledge.origHash.Some? ==> |pledge.origHash.value| == 32
    ensures pledge.origHash.Some? ==> id == pledge.origHash.value
    ensures pledge.origHash.None? ==> id == sha256(serialize(pledge))
  {
    if pledge.origHash.Some? then pledge.origHash.value else sha256(serialize(pledge))
  }

  /** Two pledges that carry the same override have the same identity, whatever
      transactions they embed. */
  lemma OverrideIsAuthoritative(p: Pledge, q: Pledge, serialize: Pledge -> Bytes, sha256: Bytes -> Sha256Hash)
    requires p.origHash.Some? && |p.origHash.value| == 32 && q.origHash == p.origHash
    ensures HashFromPledge(p, serialize, sha256) == HashFromPledge(q, serialize, sha256)
  {
  }

  /** Without an override, pledges that serialize to the same bytes have the same identity. */
  lemma EqualBytesEqualIdentity(p: Pledge, q: Pledge, serialize: Pledge -> Bytes, sha256: Bytes -> Sha256Hash)
    requires p.origHash.None? && q.origHash.None? && serialize(p) == serialize(q)
    ensures HashFromPledge(p, serialize, sha256) == HashFromPledge(q, serialize, sha256)
  {
  }

  /** Stamping a pledge with its own identity before passing it on keeps its name,
      however the stamped message serializes. */
  lemma StampingKeepsIdentity(p: Pledge, serialize: Pledge -> Bytes, sha256: Bytes -> Sha256Hash)
    requires p.origHash.Some? ==> |p.origHash.value| == 32
    ensures var stamped := p.(origHash := Some(HashFromPledge(p, serialize, sha256)));
            HashFromPledge(stamped, serialize, sha256) == HashFromPledge(p, serialize, sha256)
  {
  }
}
