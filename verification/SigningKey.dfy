/**
EnsureSigningKey (internal/api/credentials.go) as one process runs it, other processes' writes coming between its
store calls.
 */
module SigningKey {
  import opened Wrappers
  import opened Base64
  import C = CreateOnce

  type Key = seq<Byte>

  const CODEC := C.Codec((k: Key) => Encode(Std, k), (b: string) => Decode(Std, b))

  // The base64 codec meets what the protocol needs of one.
  lemma CodecRoundTrips()
    ensures C.RoundTrips(CODEC)
  {
    forall k: Key ensures CODEC.decode(CODEC.encode(k)) == Some(k) {
      RoundTrip(Std, k);
    }
  }

  /** The signing_keys row of one namespace. */
  class Row {
    var material: Option<string>

    // What the other processes may do between two of this one's calls: write the row if it is not there
    // (CreateOnce.StoredOnce), with the encoding of a key (CreateOnce.StoredWasGenerated).
    method Others() returns (ghost theirs: Option<Key>)
      modifies this
      ensures theirs.Some? ==> old(material).None?
      ensures material == if theirs.Some? then Some(Encode(Std, theirs.value)) else old(material)
    {
      theirs := None;
      var writes: bool := *;
      if writes && material.None? {
        var key: Key := *;
        material := Some(Encode(Std, key));
        theirs := Some(key);
      }
    }

    // CreateSigningKey: an insert, of which the UNIQUE(namespace) constraint lets one in, and a select.
    method Create(encoded: string, insertFault: bool, selectFault: bool) returns (ok: bool)
      modifies this
      ensures ok <==> !insertFault && !selectFault && old(material).None?
      ensures material == if !insertFault && old(material).None? then Some(encoded) else old(material)
    {
      if insertFault || material.Some? {
        return false;
      }
      material := Some(encoded);
      ok := !selectFault;
    }

    // raw is what rand.Read filled; the faults are store calls that fail. Whatever is returned is the stored key,
    // and without faults there always is one: the one stored before, another process's, and otherwise raw.
    method EnsureSigningKey(raw: Key, getFault: bool, insertFault: bool, selectFault: bool, againFault: bool)
      returns (r: Option<Key>, ghost first: Option<Key>, ghost second: Option<Key>)
      modifies this
      ensures old(material).None? && !getFault ==>
                material == if first.Some? then Some(Encode(Std, first.value))
                            else if !insertFault then Some(Encode(Std, raw))
                            else if second.Some? then Some(Encode(Std, second.value)) else None
      ensures old(material).None? && !getFault && first.None? && !insertFault && !selectFault ==> r == Some(raw)
      ensures getFault ==> material == old(material) && r.None?
      ensures old(material).Some? ==> material == old(material)
      ensures r.Some? ==> material.Some? && Decode(Std, material.value) == r
      ensures (&& !getFault && !insertFault && !againFault
               && (old(material).Some? ==> Decode(Std, old(material).value).Some?)) ==> r.Some?
    {
      r, first, second := None, None, None;
      if getFault {
        return;
      }
      if material.Some? {
        r := Decode(Std, material.value);
        return;
      }
      first := Others();
      RoundTrip(Std, raw);
      var created := Create(Encode(Std, raw), insertFault, selectFault);
      second := Others();
      if first.Some? {
        RoundTrip(Std, first.value);
      }
      if second.Some? {
        RoundTrip(Std, second.value);
      }
      if created {
        r := Some(raw);
        return;
      }
      if againFault || material.None? {
        return;
      }
      r := Decode(Std, material.value);
    }
  }
}
