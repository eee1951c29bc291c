/**
 The serializer as the store sees it. The store and the recovery are proved for every
 sound codec; `CodecIsSound` says that the serializer of this repository is one.
 */
module StateCodec {
  import opened Wrappers
  import opened Bytes
  import opened Envelope
  import opened Json
  import opened StateSerializer

  datatype Codec = Codec(
    decode: (Kind, ByteString) -> Result<State>,
    encode: (State, I64) -> ByteString,
    version: ByteString -> Result<U32>,
    fits: State -> bool)   // the payload is short enough for the length field of the envelope

  ghost predicate Sound(c: Codec) {
    && (forall k, b :: c.decode(k, b).Ok? ==>
          && KindOf(c.decode(k, b).value) == k && WellFormed(c.decode(k, b).value)
          && c.version(b).Ok? && c.version(b).value <= CurrentVersion(k))
    && (forall s, now :: WellFormed(s) && c.fits(s) ==>
          && c.decode(KindOf(s), c.encode(s, now)) == Ok(s)
          && c.version(c.encode(s, now)) == Ok(CurrentVersion(KindOf(s))))
  }

  function VersionOf(b: ByteString): Result<U32> {
    var h :- ParseHeader(b);
    Ok(h.schemaVersion)
  }

  function CodecOf(t: JsonText): Codec {
    Codec((k, b) => Decode(k, t, b), (s, now) => Encode(s, t, now), b => VersionOf(b), s => Storable(s, t))
  }

  /** Decoding returns well-formed states of supported versions, and encoding a well-formed
      state in the current version decodes to it, as long as its payload is below 4 GiB. */
  lemma CodecIsSound(t: JsonText)
    requires Faithful(t)
    ensures Sound(CodecOf(t))
  {
    var c := CodecOf(t);
    forall k, b | c.decode(k, b).Ok?
      ensures KindOf(c.decode(k, b).value) == k && WellFormed(c.decode(k, b).value)
           && c.version(b).Ok? && c.version(b).value <= CurrentVersion(k)
    {
      DecodedIsWellFormed(k, t, b);
    }
    forall s, now | WellFormed(s) && c.fits(s)
      ensures c.decode(KindOf(s), c.encode(s, now)) == Ok(s)
           && c.version(c.encode(s, now)) == Ok(CurrentVersion(KindOf(s)))
    {
      EncodedDecodes(t, s, now);
    }
  }
}
