/** The encrypted envelope of `PayloadCryptoService`, with the cipher itself left abstract. */
module Crypto {
  import opened Json
  import opened Domain

  /** AES-256-GCM under one key: `seal` takes a record and an initialisation vector and gives the three
      base64 strings; `open` fails when the tag does not match. */
  datatype Cipher = Cipher(
    seal: (Record, nat) -> (string, string, string),
    open: (string, string, string) -> Option<Record>)

  /** The one law assumed of the cipher: opening what was sealed gives it back. */
  ghost predicate Faithful(c: Cipher) {
    forall data: Record, iv: nat ::
      var sealed := c.seal(data, iv); c.open(sealed.0, sealed.1, sealed.2) == Some(data)
  }

  function Encrypt(c: Cipher, data: Record, iv: nat): Record {
    var (enc, ivText, tag) := c.seal(CleanRecord(data), iv);
    map["_enc" := Str(enc), "_iv" := Str(ivText), "_tag" := Str(tag)]
  }

  function Decrypt(c: Cipher, envelope: Record): Option<Record> {
    if "_enc" in envelope && envelope["_enc"].Str? && "_iv" in envelope && envelope["_iv"].Str?
       && "_tag" in envelope && envelope["_tag"].Str?
    then c.open(envelope["_enc"].s, envelope["_iv"].s, envelope["_tag"].s)
    else None
  }

  predicate IsEncrypted(data: Record) {
    "_enc" in data
  }

  /** An envelope is recognised, survives JSON text, and opens to exactly what JSON carries of the data,
      whatever keys the data itself has. */
  lemma EnvelopeRoundTrip(c: Cipher, data: Record, iv: nat)
    requires Faithful(c)
    ensures IsEncrypted(Encrypt(c, data, iv)) && Encrypt(c, data, iv).Keys == {"_enc", "_iv", "_tag"}
    ensures (Encrypt(c, data, iv)["_enc"], Encrypt(c, data, iv)["_iv"], Encrypt(c, data, iv)["_tag"])
         == var sealed := c.seal(CleanRecord(data), iv); (Str(sealed.0), Str(sealed.1), Str(sealed.2))
    ensures CleanRecord(Encrypt(c, data, iv)) == Encrypt(c, data, iv)
    ensures Decrypt(c, Encrypt(c, data, iv)) == Some(CleanRecord(data))
    ensures IsJson(Obj(data)) ==> Decrypt(c, Encrypt(c, data, iv)) == Some(data)
  {
    var sealed := c.seal(CleanRecord(data), iv);
    var envelope := Encrypt(c, data, iv);
    assert envelope.Keys == {"_enc", "_iv", "_tag"};
    CleanKeepsJson(Obj(envelope));
    if IsJson(Obj(data)) {
      CleanKeepsJson(Obj(data));
    }
  }

  /** Only three strings that the cipher accepts are opened. */
  lemma OpensOnlyEnvelopes(c: Cipher, e: Record)
    ensures Decrypt(c, e).Some? <==>
      && "_enc" in e && e["_enc"].Str? && "_iv" in e && e["_iv"].Str? && "_tag" in e && e["_tag"].Str?
      && c.open(e["_enc"].s, e["_iv"].s, e["_tag"].s).Some?
    ensures Decrypt(c, e).Some? ==> Decrypt(c, e) == c.open(e["_enc"].s, e["_iv"].s, e["_tag"].s)
  {
  }
}
