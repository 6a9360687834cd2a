// The payload pipeline of one connection: compress, then encrypt, and the inverse.
// Deflate and AES-GCM are parameters constrained only by the laws their libraries promise.

module Transform {
  import opened Basics
  import opened Wire

  const MIN_COMPRESS := 64
  const NONCE_SIZE := 12
  const TAG_SIZE := 16
  const KEY_SIZE := 32

  /** The foreign codecs. `inflate` and `open` fail on input they cannot undo. */
  datatype Codecs = Codecs(
    deflate: seq<u8> -> seq<u8>,
    inflate: seq<u8> -> Option<seq<u8>>,
    seal: (seq<u8>, seq<u8>, seq<u8>) -> seq<u8>,
    open: (seq<u8>, seq<u8>, seq<u8>) -> Option<seq<u8>>)

  ghost predicate InflateUndoesDeflate(c: Codecs) {
    forall data {:trigger c.deflate(data)} :: c.inflate(c.deflate(data)) == Some(data)
  }

  ghost predicate OpenUndoesSeal(c: Codecs) {
    forall key, nonce, data {:trigger c.seal(key, nonce, data)} ::
      |key| == KEY_SIZE && |nonce| == NONCE_SIZE ==>
        && c.open(key, nonce, c.seal(key, nonce, data)) == Some(data)
        && |c.seal(key, nonce, data)| == |data| + TAG_SIZE
  }

  ghost predicate Lawful(c: Codecs) {
    InflateUndoesDeflate(c) && OpenUndoesSeal(c)
  }

  /** The connection's transformer; the key has been checked when encryption is on. */
  datatype Transformer = Transformer(compress: bool, encrypt: bool, key: seq<u8>)

  /** `newTransformer`: encryption needs a 32-byte key. */
  function NewTransformer(compress: bool, encrypt: bool, key: seq<u8>): (r: Option<Transformer>)
    ensures r.Some? <==> (encrypt ==> |key| == KEY_SIZE)
  {
    if encrypt && |key| != KEY_SIZE then None else Some(Transformer(compress, encrypt, key))
  }

  predicate Valid(t: Transformer) {
    t.encrypt ==> |t.key| == KEY_SIZE
  }

  // ---- the pipeline as values --------------------------------------------------

  datatype Outgoing = Outgoing(data: seq<u8>, compressed: bool, encrypted: bool)

  predicate Compresses(t: Transformer, data: seq<u8>) {
    t.compress && |data| >= MIN_COMPRESS
  }

  function Squeezed(c: Codecs, t: Transformer, data: seq<u8>): seq<u8> {
    if Compresses(t, data) then c.deflate(data) else data
  }

  function OutboundSpec(c: Codecs, t: Transformer, nonce: seq<u8>, data: seq<u8>): Outgoing {
    var squeezed := Squeezed(c, t, data);
    Outgoing(if t.encrypt then nonce + c.seal(t.key, nonce, squeezed) else squeezed, Compresses(t, data), t.encrypt)
  }

  datatype Fault = EncryptionDisabled | CompressionDisabled | TooShort | DecryptFailed | InflateFailed | TooLarge
  datatype Incoming = Plaintext(data: seq<u8>) | Rejected(why: Fault)

  function Decrypted(c: Codecs, t: Transformer, data: seq<u8>): Incoming {
    if !t.encrypt then Rejected(EncryptionDisabled)
    else if |data| < NONCE_SIZE + TAG_SIZE then Rejected(TooShort)
    else match c.open(t.key, data[..NONCE_SIZE], data[NONCE_SIZE..])
      case None => Rejected(DecryptFailed)
      case Some(plain) => Plaintext(plain)
  }

  function Inflated(c: Codecs, t: Transformer, data: seq<u8>): Incoming {
    if !t.compress then Rejected(CompressionDisabled)
    else match c.inflate(data)
      case None => Rejected(InflateFailed)
      case Some(out) => if |out| > MAX_PAYLOAD then Rejected(TooLarge) else Plaintext(out)
  }

  function InboundSpec(c: Codecs, t: Transformer, flags: Flags, data: seq<u8>): Incoming {
    var plain := if flags.encrypted then Decrypted(c, t, data) else Plaintext(data);
    if plain.Plaintext? && flags.compressed then Inflated(c, t, plain.data) else plain
  }

  // ---- the pipeline as the code runs it ----------------------------------------

  method Outbound(c: Codecs, t: Transformer, nonce: seq<u8>, data: seq<u8>)
    returns (out: seq<u8>, compressed: bool, encrypted: bool)
    ensures Outgoing(out, compressed, encrypted) == OutboundSpec(c, t, nonce, data)
    ensures compressed <==> t.compress && |data| >= 64
    ensures encrypted <==> t.encrypt
    ensures var squeezed := if compressed then c.deflate(data) else data;
      out == if encrypted then nonce + c.seal(t.key, nonce, squeezed) else squeezed
  {
    out, compressed, encrypted := data, false, false;
    if t.compress && |out| >= MIN_COMPRESS {
      out, compressed := c.deflate(out), true;
    }
    if t.encrypt {
      out, encrypted := nonce + c.seal(t.key, nonce, out), true;
    }
  }

  method Inbound(c: Codecs, t: Transformer, flags: Flags, wire: seq<u8>) returns (r: Incoming)
    ensures r == InboundSpec(c, t, flags, wire)
    ensures flags.encrypted && !t.encrypt ==> r == Rejected(EncryptionDisabled)
    ensures flags.encrypted && t.encrypt && |wire| < 28 ==> r == Rejected(TooShort)
    ensures flags.encrypted && t.encrypt && |wire| >= 28 && c.open(t.key, wire[..12], wire[12..]) == None ==>
      r == Rejected(DecryptFailed)
    ensures var plain := if !flags.encrypted then Some(wire)
                          else if t.encrypt && |wire| >= 28 then c.open(t.key, wire[..12], wire[12..])
                          else None;
      plain.Some? ==>
        r == if !flags.compressed then Plaintext(plain.value)
             else if !t.compress then Rejected(CompressionDisabled)
             else match c.inflate(plain.value)
               case None => Rejected(InflateFailed)
               case Some(out) => if |out| > 0x100_0000 then Rejected(TooLarge) else Plaintext(out)
  {
    var data := wire;
    if flags.encrypted {
      if !t.encrypt { return Rejected(EncryptionDisabled); }
      if |data| < NONCE_SIZE + TAG_SIZE { return Rejected(TooShort); }
      var unsealed := c.open(t.key, data[..NONCE_SIZE], data[NONCE_SIZE..]);
      if unsealed.None? { return Rejected(DecryptFailed); }
      data := unsealed.value;
    }
    if flags.compressed {
      if !t.compress { return Rejected(CompressionDisabled); }
      var inflated := c.inflate(data);
      if inflated.None? { return Rejected(InflateFailed); }
      if |inflated.value| > MAX_PAYLOAD { return Rejected(TooLarge); }
      data := inflated.value;
    }
    r := Plaintext(data);
  }

  // ---- the two ends agree --------------------------------------------------------

  /** A payload comes back unchanged exactly when it is not a compressed payload beyond the 16 MiB inflation cap;
      beyond the cap the receiver rejects a frame the sender was willing to send. */
  lemma PipelineInverse(c: Codecs, t: Transformer, nonce: seq<u8>, data: seq<u8>, flags: Flags)
    requires Lawful(c) && Valid(t) && |nonce| == NONCE_SIZE
    requires var o := OutboundSpec(c, t, nonce, data);
      flags.compressed == o.compressed
      && flags.encrypted == o.encrypted
    ensures var got := InboundSpec(c, t, flags, OutboundSpec(c, t, nonce, data).data);
      && (got == Plaintext(data) <==> !(t.compress && |data| > 0x100_0000))
      && (got != Plaintext(data) ==> got == Rejected(TooLarge))
  {
    var squeezed := Squeezed(c, t, data);
    if t.encrypt {
      var sealed := c.seal(t.key, nonce, squeezed);
      assert (nonce + sealed)[..NONCE_SIZE] == nonce && (nonce + sealed)[NONCE_SIZE..] == sealed;
    }
  }

  /** Encryption costs 28 bytes a frame; without compression the wire size is otherwise the payload size. */
  lemma Overhead(c: Codecs, t: Transformer, nonce: seq<u8>, data: seq<u8>)
    requires Lawful(c) && Valid(t) && |nonce| == NONCE_SIZE && (t.compress ==> |data| < 64)
    ensures |OutboundSpec(c, t, nonce, data).data| == |data| + if t.encrypt then 28 else 0
  {
    if t.encrypt {
      assert |c.seal(t.key, nonce, data)| == |data| + TAG_SIZE;
    }
  }
}
