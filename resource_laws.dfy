/** Laws of the pure parts of the engine: the tier replacement rule against the store's refusal
    to downgrade, and the decrypt-and-compare rule of Read. */
module ResourceLaws {
  import opened Wrappers
  import opened SsmStore
  import opened Resource

  /** Replacement is forced exactly for the tier changes the store refuses to make in place: an
      update that is not replaced never meets the downgrade refusal, and one that is replaced
      would have. */
  lemma ForceNewExactlyWhenStoreRefuses(conn: ParameterStore, req: PutRequest, stateTier: string)
    requires req.name in conn.params && conn.params[req.name].tier == Some(stateTier)
    requires req.tier.Some? && req.overwrite
    requires PutParameterApi !in conn.denied && req.tier.value in conn.supportedTiers
    ensures TierChangeForcesNew(stateTier, req.tier.value) <==> conn.PutRefusal(req) == Some(TierDowngrade)
  {
  }

  /** So the write of an update that is not replaced (with its retry without a tier) is never
      refused as a downgrade, whatever else the store does. */
  lemma InPlaceUpdateNeverDowngrades(conn: ParameterStore, d: ResourceData, plaintext: Bytes, stateTier: string)
    requires d.name in conn.params && conn.params[d.name].tier == Some(stateTier)
    requires !TierChangeForcesNew(stateTier, d.tier)
    ensures conn.PutRefusal(WrittenRequest(conn, PutRequestFor(d, plaintext))) != Some(TierDowngrade)
  {
  }

  /** Go's byte-to-string conversion loses nothing: two byte strings convert to the same string
      exactly when they are equal. */
  lemma {:induction false} BytesToStringInjective(a: Bytes, b: Bytes)
    ensures BytesToString(a) == BytesToString(b) <==> a == b
  {
    if BytesToString(a) == BytesToString(b) {
      assert |a| == |b|;
      forall i | 0 <= i < |a|
        ensures a[i] == b[i]
      {
        assert BytesToString(a)[i] == BytesToString(b)[i];
      }
    }
  }

  /** So the comparison of Read is a comparison of plaintext bytes: the declared ciphertext is
      shown exactly when it decrypts to the bytes the store holds (or is the sentinel itself). */
  lemma ShownIffSamePlaintext(declared: string, decrypted: Bytes, stored: Bytes)
    ensures DisplayedValue(declared, BytesToString(decrypted), BytesToString(stored)) == declared
        <==> decrypted == stored || declared == OutdatedSensitiveValue
  {
    BytesToStringInjective(decrypted, stored);
  }

  /** The state never holds a plaintext: what Read shows differs from the stored value unless
      the declared ciphertext or the sentinel happens to equal it. */
  lemma ShownIsNeverThePlaintext(declared: string, decrypted: string, stored: string)
    requires stored != declared && stored != OutdatedSensitiveValue
    ensures DisplayedValue(declared, decrypted, stored) != stored
  {
  }
}
