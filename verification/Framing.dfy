/** Byte framing and padding over abstract ciphers: symmetric blobs, attachments, and profile fields. */
module Framing {
  import opened Options

  type Byte = bv8
  type Bytes = seq<Byte>

  /** The primitives; decryption may throw. */
  datatype Crypto = Crypto(
    hmacSha256: (Bytes, Bytes) -> Bytes,
    sha256: Bytes -> Bytes,
    encryptCbc: (Bytes, Bytes, Bytes) -> Bytes,
    decryptCbc: (Bytes, Bytes, Bytes) -> Option<Bytes>,
    encryptGcm: (Bytes, Bytes, Bytes) -> Bytes,
    decryptGcm: (Bytes, Bytes, Bytes) -> Option<Bytes>)
  {
    /** Lengths of digests and tags, and decryption as the inverse of encryption for keys and initial
        vectors of the right length. An empty input has no padding and is refused. */
    ghost predicate Lawful() {
      && (forall k, d :: |hmacSha256(k, d)| == 32)
      && (forall d :: |sha256(d)| == 32)
      && (forall k, p, iv | |k| == 32 && |iv| == 16 :: decryptCbc(k, encryptCbc(k, p, iv), iv) == Some(p))
      && (forall k, iv :: decryptCbc(k, [], iv) == None)
      && (forall k, iv, p | |k| == 32 && |iv| == 12 :: decryptGcm(k, iv, encryptGcm(k, iv, p)) == Some(p))
      && (forall k, iv, p :: |encryptGcm(k, iv, p)| == |p| + 16)
    }
  }

  datatype Result<+T> = Ok(value: T) | BadLength | BadMac | BadDigest | BadPadding | Oversized

  // ---------- subarrays ----------

  function Clamped(i: int, length: nat): (n: nat)
    ensures n <= length
  {
    if i < 0 then (if length + i < 0 then 0 else length + i) else if i > length then length else i
  }

  /** `Uint8Array.subarray`: negative positions count from the end, and a reversed range is empty. */
  function Subarray(data: Bytes, start: int, end: int): Bytes {
    var from, to := Clamped(start, |data|), Clamped(end, |data|);
    if from <= to then data[from..to] else []
  }

  lemma SubarrayPositions(data: Bytes, start: nat, end: nat)
    ensures end <= |data| ==> Subarray(data, start, end) == if start <= end then data[start..end] else []
    ensures end >= |data| && start <= |data| ==> Subarray(data, start, end) == data[start..]
    ensures 0 < end <= start <= |data| ==> Subarray(data, 0 - start, 0 - end) == data[|data| - start..|data| - end]
    ensures 0 < end <= |data| < start ==> Subarray(data, 0 - start, 0 - end) == data[..|data| - end]
    ensures start >= |data| || 0 < |data| <= end ==> Subarray(data, start, 0 - end) == []
  {
  }

  const NONCE_LENGTH := 16
  const SYMMETRIC_MAC_LENGTH := 16

  function Zeroes(n: nat): Bytes { seq(n, _ => 0) }

  // ---------- encryptSymmetric and decryptSymmetric ----------

  /** The MAC over a ciphertext, with the key that the nonce leads to. */
  function SymmetricMac(c: Crypto, key: Bytes, nonce: Bytes, ciphertext: Bytes): Bytes {
    var macKey := c.hmacSha256(key, c.hmacSha256(key, nonce));
    Subarray(c.hmacSha256(macKey, ciphertext), 0, SYMMETRIC_MAC_LENGTH)
  }

  function EncryptSymmetric(c: Crypto, key: Bytes, plaintext: Bytes, nonce: Bytes): Bytes {
    var cipherKey := c.hmacSha256(key, nonce);
    var ciphertext := c.encryptCbc(cipherKey, plaintext, Zeroes(16));
    nonce + ciphertext + SymmetricMac(c, key, nonce, ciphertext)
  }

  /** A MAC of another length makes the comparison throw. */
  function DecryptSymmetric(c: Crypto, key: Bytes, data: Bytes): Result<Bytes> {
    var nonce := Subarray(data, 0, NONCE_LENGTH);
    var ciphertext := Subarray(data, NONCE_LENGTH, NONCE_LENGTH + (|data| - NONCE_LENGTH - SYMMETRIC_MAC_LENGTH));
    var theirMac := Subarray(data, |data| - SYMMETRIC_MAC_LENGTH, |data| - SYMMETRIC_MAC_LENGTH + SYMMETRIC_MAC_LENGTH);
    var cipherKey := c.hmacSha256(key, nonce);
    var ourMac := SymmetricMac(c, key, nonce, ciphertext);
    if |theirMac| != |ourMac| then BadLength
    else if theirMac != ourMac then BadMac
    else
      var plaintext := c.decryptCbc(cipherKey, ciphertext, Zeroes(16));
      if plaintext.None? then BadPadding else Ok(plaintext.value)
  }

  /** A blob of nonce, ciphertext and the first half of its MAC, under keys that come from key and nonce. */
  ghost predicate IsFrame(c: Crypto, key: Bytes, data: Bytes, nonce: Bytes, ciphertext: Bytes, plaintext: Bytes)
    requires c.Lawful()
  {
    var cipherKey := c.hmacSha256(key, nonce);
    var macKey := c.hmacSha256(key, cipherKey);
    && |nonce| == 16 && data == nonce + ciphertext + c.hmacSha256(macKey, ciphertext)[..16]
    && c.decryptCbc(cipherKey, ciphertext, seq(16, _ => 0)) == Some(plaintext)
  }

  lemma FrameParts(nonce: Bytes, ciphertext: Bytes, mac: Bytes)
    requires |nonce| == NONCE_LENGTH && |mac| == SYMMETRIC_MAC_LENGTH
    ensures var data := nonce + ciphertext + mac;
            && Subarray(data, 0, NONCE_LENGTH) == nonce
            && Subarray(data, NONCE_LENGTH, NONCE_LENGTH + (|data| - NONCE_LENGTH - SYMMETRIC_MAC_LENGTH)) == ciphertext
            && Subarray(data, |data| - SYMMETRIC_MAC_LENGTH, |data| - SYMMETRIC_MAC_LENGTH + SYMMETRIC_MAC_LENGTH) == mac
  {
  }

  lemma MacLength(c: Crypto, key: Bytes, nonce: Bytes, ciphertext: Bytes)
    requires c.Lawful()
    ensures |SymmetricMac(c, key, nonce, ciphertext)| == SYMMETRIC_MAC_LENGTH
    ensures SymmetricMac(c, key, nonce, ciphertext) == c.hmacSha256(c.hmacSha256(key, c.hmacSha256(key, nonce)), ciphertext)[..16]
    ensures Zeroes(16) == seq(16, _ => 0)
  {
  }

  /** Decryption inverts encryption for every key and plaintext. */
  lemma SymmetricRoundTrip(c: Crypto, key: Bytes, plaintext: Bytes, nonce: Bytes)
    requires c.Lawful() && |nonce| == NONCE_LENGTH
    ensures DecryptSymmetric(c, key, EncryptSymmetric(c, key, plaintext, nonce)) == Ok(plaintext)
  {
    var ciphertext := c.encryptCbc(c.hmacSha256(key, nonce), plaintext, Zeroes(16));
    MacLength(c, key, nonce, ciphertext);
    FrameParts(nonce, ciphertext, SymmetricMac(c, key, nonce, ciphertext));
  }

  /** Too short for a nonce, a ciphertext and a MAC, whatever the negative positions then select. */
  lemma ShortIsRefused(c: Crypto, key: Bytes, data: Bytes)
    requires c.Lawful() && |data| <= NONCE_LENGTH + SYMMETRIC_MAC_LENGTH
    ensures !DecryptSymmetric(c, key, data).Ok?
  {
    assert Subarray(data, NONCE_LENGTH, NONCE_LENGTH + (|data| - NONCE_LENGTH - SYMMETRIC_MAC_LENGTH)) == [];
  }

  lemma AcceptedIsFrame(c: Crypto, key: Bytes, data: Bytes, plaintext: Bytes)
    requires c.Lawful() && |data| > NONCE_LENGTH + SYMMETRIC_MAC_LENGTH && DecryptSymmetric(c, key, data) == Ok(plaintext)
    ensures exists nonce, ciphertext :: IsFrame(c, key, data, nonce, ciphertext, plaintext)
  {
    var nonce, ciphertext := data[..NONCE_LENGTH], data[NONCE_LENGTH..|data| - SYMMETRIC_MAC_LENGTH];
    MacLength(c, key, nonce, ciphertext);
    hide Crypto.Lawful, SymmetricMac;
    var theirMac := data[|data| - SYMMETRIC_MAC_LENGTH..];
    assert data == nonce + ciphertext + theirMac;
    FrameParts(nonce, ciphertext, theirMac);
    assert IsFrame(c, key, data, nonce, ciphertext, plaintext);
  }

  lemma FrameIsAccepted(c: Crypto, key: Bytes, data: Bytes, nonce: Bytes, ciphertext: Bytes, plaintext: Bytes)
    requires c.Lawful() && IsFrame(c, key, data, nonce, ciphertext, plaintext)
    ensures DecryptSymmetric(c, key, data) == Ok(plaintext)
  {
    MacLength(c, key, nonce, ciphertext);
    hide Crypto.Lawful, SymmetricMac;
    FrameParts(nonce, ciphertext, SymmetricMac(c, key, nonce, ciphertext));
  }

  /** Exactly the blobs of that form are accepted, whatever bytes are given, short ones included. */
  lemma AcceptsExactlyFrames(c: Crypto, key: Bytes, data: Bytes, plaintext: Bytes)
    requires c.Lawful()
    ensures DecryptSymmetric(c, key, data) == Ok(plaintext) <==>
              exists nonce, ciphertext :: IsFrame(c, key, data, nonce, ciphertext, plaintext)
  {
    hide Crypto.Lawful, DecryptSymmetric, IsFrame;
    if nonce, ciphertext :| IsFrame(c, key, data, nonce, ciphertext, plaintext) {
      FrameIsAccepted(c, key, data, nonce, ciphertext, plaintext);
    } else if DecryptSymmetric(c, key, data) == Ok(plaintext) {
      if |data| <= NONCE_LENGTH + SYMMETRIC_MAC_LENGTH {
        ShortIsRefused(c, key, data);
      } else {
        AcceptedIsFrame(c, key, data, plaintext);
      }
    }
  }

  // ---------- comparing MACs and digests ----------

  lemma OrIsZero(r: Byte, a: Byte, b: Byte)
    ensures (r | (a ^ b)) == 0 <==> r == 0 && a == b
  {
  }

  /** Accepts exactly when the given MAC is the first `length` bytes of the computed one. */
  method VerifyHmacSha256(c: Crypto, plaintext: Bytes, key: Bytes, theirMac: Bytes, length: nat) returns (r: Result<()>)
    ensures r == if |theirMac| != length || |c.hmacSha256(key, plaintext)| < length then BadLength
                 else if theirMac == c.hmacSha256(key, plaintext)[..length] then Ok(()) else BadMac
  {
    var ourMac := c.hmacSha256(key, plaintext);
    if |theirMac| != length || |ourMac| < length {
      return BadLength;
    }
    var result: Byte := 0;
    for i := 0 to |theirMac|
      invariant result == 0 <==> theirMac[..i] == ourMac[..i]
    {
      OrIsZero(result, ourMac[i], theirMac[i]);
      assert theirMac[..i + 1] == theirMac[..i] + [theirMac[i]] && ourMac[..i + 1] == ourMac[..i] + [ourMac[i]];
      result := result | (ourMac[i] ^ theirMac[i]);
    }
    assert theirMac[..|theirMac|] == theirMac;
    return if result != 0 then BadMac else Ok(());
  }

  /** An index past the end yields `undefined`, which counts as 0. */
  function ByteAt(data: Bytes, i: nat): Byte { if i < |data| then data[i] else 0 }

  /** The given digest agrees with the computed one as far as it goes, and is 0 behind its end. An empty
      digest agrees with all data. */
  predicate DigestAgrees(ours: Bytes, theirs: Bytes) {
    forall i | 0 <= i < |theirs| :: theirs[i] == ByteAt(ours, i)
  }

  method VerifyDigest(c: Crypto, data: Bytes, theirDigest: Bytes) returns (r: Result<()>)
    ensures r == if DigestAgrees(c.sha256(data), theirDigest) then Ok(()) else BadDigest
  {
    var ourDigest := c.sha256(data);
    var result: Byte := 0;
    for i := 0 to |theirDigest|
      invariant result == 0 <==> forall j | 0 <= j < i :: theirDigest[j] == ByteAt(ourDigest, j)
    {
      OrIsZero(result, ByteAt(ourDigest, i), theirDigest[i]);
      result := result | (ByteAt(ourDigest, i) ^ theirDigest[i]);
    }
    return if result != 0 then BadDigest else Ok(());
  }

  /** A digest of full length is compared in full. */
  lemma FullDigestIsExact(ours: Bytes, theirs: Bytes)
    ensures |ours| == |theirs| ==> (DigestAgrees(ours, theirs) <==> theirs == ours)
    ensures DigestAgrees(ours, []) && DigestAgrees(ours, ours)
  {
    if |ours| == |theirs| && DigestAgrees(ours, theirs) {
      forall i | 0 <= i < |ours| ensures theirs[i] == ours[i] { assert theirs[i] == ByteAt(ours, i); }
    }
  }

  // ---------- attachments ----------

  const ATTACHMENT_MAC_LENGTH := 32

  function EncryptAttachment(c: Crypto, plaintext: Bytes, keys: Bytes, iv: Bytes): Result<(Bytes, Bytes)> {
    if |keys| != 64 then BadLength
    else
      var ivAndCiphertext := iv + c.encryptCbc(keys[..32], plaintext, iv);
      var encryptedBin := ivAndCiphertext + c.hmacSha256(keys[32..], ivAndCiphertext);
      Ok((encryptedBin, c.sha256(encryptedBin)))
  }

  function DecryptedAttachment(c: Crypto, encryptedBin: Bytes, keys: Bytes, theirDigest: Option<Bytes>): Result<Bytes> {
    if |keys| != 64 || |encryptedBin| < 16 + ATTACHMENT_MAC_LENGTH then BadLength
    else
      var end := |encryptedBin| - ATTACHMENT_MAC_LENGTH;
      if encryptedBin[end..] != c.hmacSha256(keys[32..], encryptedBin[..end]) then BadMac
      else if theirDigest.Some? && !DigestAgrees(c.sha256(encryptedBin), theirDigest.value) then BadDigest
      else
        var plaintext := c.decryptCbc(keys[..32], encryptedBin[16..end], encryptedBin[..16]);
        if plaintext.None? then BadPadding else Ok(plaintext.value)
  }

  lemma FullMac(c: Crypto, key: Bytes, data: Bytes)
    requires c.Lawful()
    ensures var mac := c.hmacSha256(key, data); |mac| == 32 && mac[..32] == mac
  {
  }

  method DecryptAttachmentV1(c: Crypto, encryptedBin: Bytes, keys: Bytes, theirDigest: Option<Bytes>) returns (r: Result<Bytes>)
    requires c.Lawful()
    ensures r == DecryptedAttachment(c, encryptedBin, keys, theirDigest)
  {
    hide Crypto.Lawful, DigestAgrees;
    if |keys| != 64 || |encryptedBin| < 16 + 32 {
      return BadLength;
    }
    var aesKey, macKey := keys[..32], keys[32..];
    var iv := Subarray(encryptedBin, 0, 16);
    var ciphertext := Subarray(encryptedBin, 16, |encryptedBin| - 32);
    var ivAndCiphertext := Subarray(encryptedBin, 0, |encryptedBin| - 32);
    var mac := Subarray(encryptedBin, |encryptedBin| - 32, |encryptedBin|);
    var verified := VerifyHmacSha256(c, ivAndCiphertext, macKey, mac, ATTACHMENT_MAC_LENGTH);
    FullMac(c, macKey, ivAndCiphertext);
    if !verified.Ok? {
      return BadMac;
    }
    if theirDigest.Some? {
      var digested := VerifyDigest(c, encryptedBin, theirDigest.value);
      if !digested.Ok? {
        return BadDigest;
      }
    }
    var plaintext := c.decryptCbc(aesKey, ciphertext, iv);
    return if plaintext.None? then BadPadding else Ok(plaintext.value);
  }

  /** Decryption inverts encryption, with and without the digest. */
  lemma AttachmentRoundTrip(c: Crypto, plaintext: Bytes, keys: Bytes, iv: Bytes)
    requires c.Lawful() && |keys| == 64 && |iv| == 16
    ensures var e := EncryptAttachment(c, plaintext, keys, iv);
            && e.Ok? && DecryptedAttachment(c, e.value.0, keys, Some(e.value.1)) == Ok(plaintext)
            && DecryptedAttachment(c, e.value.0, keys, None) == Ok(plaintext)
  {
    var ciphertext := c.encryptCbc(keys[..32], plaintext, iv);
    var mac := c.hmacSha256(keys[32..], iv + ciphertext);
    var bin := iv + ciphertext + mac;
    var end := |bin| - ATTACHMENT_MAC_LENGTH;
    assert bin[..end] == iv + ciphertext && bin[end..] == mac && bin[16..end] == ciphertext && bin[..16] == iv;
    FullDigestIsExact(c.sha256(bin), c.sha256(bin));
  }

  /** Initial vector, ciphertext and the whole MAC over both, and the digest as far as it is given. */
  ghost predicate IsAttachment(c: Crypto, bin: Bytes, keys: Bytes, digest: Option<Bytes>, iv: Bytes, ciphertext: Bytes,
                               plaintext: Bytes)
    requires |keys| == 64
  {
    && |iv| == 16 && bin == iv + ciphertext + c.hmacSha256(keys[32..], iv + ciphertext)
    && (digest.Some? ==> forall i | 0 <= i < |digest.value| ::
          digest.value[i] == if i < |c.sha256(bin)| then c.sha256(bin)[i] else 0)
    && c.decryptCbc(keys[..32], ciphertext, iv) == Some(plaintext)
  }

  lemma AttachmentIsAccepted(c: Crypto, bin: Bytes, keys: Bytes, digest: Option<Bytes>, iv: Bytes, ciphertext: Bytes,
                             plaintext: Bytes)
    requires c.Lawful() && |keys| == 64 && IsAttachment(c, bin, keys, digest, iv, ciphertext, plaintext)
    ensures DecryptedAttachment(c, bin, keys, digest) == Ok(plaintext)
  {
    FullMac(c, keys[32..], iv + ciphertext);
    hide Crypto.Lawful;
    var end := |bin| - 32;
    assert bin[..end] == iv + ciphertext && bin[end..] == c.hmacSha256(keys[32..], iv + ciphertext);
    assert bin[16..end] == ciphertext && bin[..16] == iv;
  }

  lemma AcceptedIsAttachment(c: Crypto, bin: Bytes, keys: Bytes, digest: Option<Bytes>, plaintext: Bytes)
    requires c.Lawful() && DecryptedAttachment(c, bin, keys, digest) == Ok(plaintext)
    ensures |keys| == 64 && exists iv, ciphertext :: IsAttachment(c, bin, keys, digest, iv, ciphertext, plaintext)
  {
    hide Crypto.Lawful;
    var end := |bin| - 32;
    var iv, ciphertext := bin[..16], bin[16..end];
    assert bin[..end] == iv + ciphertext && bin == bin[..end] + bin[end..];
    if digest.Some? {
      forall i | 0 <= i < |digest.value|
        ensures digest.value[i] == if i < |c.sha256(bin)| then c.sha256(bin)[i] else 0
      {
        assert digest.value[i] == ByteAt(c.sha256(bin), i);
      }
    }
    assert IsAttachment(c, bin, keys, digest, iv, ciphertext, plaintext);
  }

  /** For all bytes: exactly such attachments are accepted, so that a wrong MAC or digest is refused. */
  lemma AcceptsExactlyAttachments(c: Crypto, bin: Bytes, keys: Bytes, digest: Option<Bytes>, plaintext: Bytes)
    requires c.Lawful()
    ensures DecryptedAttachment(c, bin, keys, digest) == Ok(plaintext) <==>
              |keys| == 64 && exists iv, ciphertext :: IsAttachment(c, bin, keys, digest, iv, ciphertext, plaintext)
  {
    hide Crypto.Lawful, DecryptedAttachment, IsAttachment;
    if DecryptedAttachment(c, bin, keys, digest) == Ok(plaintext) {
      AcceptedIsAttachment(c, bin, keys, digest, plaintext);
    } else if |keys| == 64 {
      if iv, ciphertext :| IsAttachment(c, bin, keys, digest, iv, ciphertext, plaintext) {
        AttachmentIsAccepted(c, bin, keys, digest, iv, ciphertext, plaintext);
      }
    }
  }

  /** The first thing that is wrong decides the error: lengths, the MAC, the digest, the padding. */
  lemma AttachmentErrors(c: Crypto, bin: Bytes, keys: Bytes, digest: Option<Bytes>)
    requires c.Lawful()
    ensures var r := DecryptedAttachment(c, bin, keys, digest);
            var lengths := |keys| == 64 && |bin| >= 48;
            var mac := lengths && bin[|bin| - 32..] == c.hmacSha256(keys[32..], bin[..|bin| - 32]);
            var digested := digest.Some? ==> forall i | 0 <= i < |digest.value| ::
                              digest.value[i] == if i < 32 then c.sha256(bin)[i] else 0;
            && (r == BadLength <==> !lengths) && (r == BadMac <==> lengths && !mac) && (r == BadDigest <==> mac && !digested)
            && (r == BadPadding <==> mac && digested && c.decryptCbc(keys[..32], bin[16..|bin| - 32], bin[..16]).None?)
  {
    if digest.Some? {
      assert DigestAgrees(c.sha256(bin), digest.value) <==>
               forall i | 0 <= i < |digest.value| :: digest.value[i] == if i < 32 then c.sha256(bin)[i] else 0;
    }
  }

  // ---------- profile fields ----------

  /** `PaddedLengths` */
  const NAME := [53, 257]
  const ABOUT := [128, 254, 512]
  const ABOUT_EMOJI := [32]
  const PAYMENT_ADDRESS := [554]

  const PROFILE_IV_LENGTH := 12

  function EncryptProfile(c: Crypto, data: Bytes, key: Bytes, iv: Bytes): Result<Bytes> {
    if |key| != 32 || |iv| != PROFILE_IV_LENGTH then BadLength else Ok(iv + c.encryptGcm(key, iv, data))
  }

  function DecryptProfile(c: Crypto, data: Bytes, key: Bytes): Result<Bytes> {
    if |data| < 12 + 16 + 1 || |key| != 32 then BadLength
    else
      var plaintext := c.decryptGcm(key, data[..PROFILE_IV_LENGTH], data[PROFILE_IV_LENGTH..]);
      if plaintext.None? then BadMac else Ok(plaintext.value)
  }

  /** Both encryptions refuse keys, and the second one initial vectors, of another length. */
  lemma EncryptsExactly(c: Crypto, data: Bytes, key: Bytes, iv: Bytes)
    ensures EncryptAttachment(c, data, key, iv).Ok? <==> |key| == 64
    ensures EncryptProfile(c, data, key, iv).Ok? <==> |key| == 32 && |iv| == 12
  {
  }

  /** The round trip works for every plaintext but the empty one, which is too short to be decrypted. */
  lemma ProfileRoundTrip(c: Crypto, data: Bytes, key: Bytes, iv: Bytes)
    requires c.Lawful() && |key| == 32 && |iv| == PROFILE_IV_LENGTH
    ensures var e := EncryptProfile(c, data, key, iv);
            e.Ok? && (DecryptProfile(c, e.value, key) == Ok(data) <==> data != [])
  {
    var e := EncryptProfile(c, data, key, iv).value;
    assert e[..PROFILE_IV_LENGTH] == iv && e[PROFILE_IV_LENGTH..] == c.encryptGcm(key, iv, data);
  }

  /** An initial vector and a ciphertext that is more than a tag. */
  ghost predicate IsProfile(c: Crypto, data: Bytes, key: Bytes, iv: Bytes, ciphertext: Bytes, plaintext: Bytes) {
    && |key| == 32 && |iv| == 12 && |ciphertext| > 16 && data == iv + ciphertext
    && c.decryptGcm(key, iv, ciphertext) == Some(plaintext)
  }

  lemma ProfileIsAccepted(c: Crypto, data: Bytes, key: Bytes, iv: Bytes, ciphertext: Bytes, plaintext: Bytes)
    requires IsProfile(c, data, key, iv, ciphertext, plaintext)
    ensures DecryptProfile(c, data, key) == Ok(plaintext)
  {
    assert data[..12] == iv && data[12..] == ciphertext;
  }

  /** For all bytes: exactly such data are accepted. */
  lemma AcceptsExactlyProfiles(c: Crypto, data: Bytes, key: Bytes, plaintext: Bytes)
    ensures DecryptProfile(c, data, key) == Ok(plaintext) <==>
              exists iv, ciphertext :: IsProfile(c, data, key, iv, ciphertext, plaintext)
  {
    if iv, ciphertext :| IsProfile(c, data, key, iv, ciphertext, plaintext) {
      ProfileIsAccepted(c, data, key, iv, ciphertext, plaintext);
    } else if DecryptProfile(c, data, key) == Ok(plaintext) {
      assert data == data[..12] + data[12..];
      assert IsProfile(c, data, key, data[..12], data[12..], plaintext);
      assert false;
    }
  }

  /** The first of the lengths that fits. */
  method FindPaddedLength(paddedLengths: seq<nat>, size: nat) returns (r: Option<nat>)
    ensures r.Some? ==> r.value in paddedLengths && size <= r.value
    ensures r.None? <==> forall n | n in paddedLengths :: n < size
    ensures r.Some? && Ascending(paddedLengths) ==> forall n | n in paddedLengths && size <= n :: r.value <= n
  {
    for i := 0 to |paddedLengths|
      invariant forall j | 0 <= j < i :: paddedLengths[j] < size
    {
      if size <= paddedLengths[i] {
        return Some(paddedLengths[i]);
      }
    }
    return None;
  }

  predicate Ascending(lengths: seq<nat>) { forall i, j :: 0 <= i < j < |lengths| ==> lengths[i] < lengths[j] }

  function Padded(item: Bytes, length: nat): Bytes
    requires |item| <= length
  {
    item + Zeroes(length - |item|)
  }

  lemma PaddedWithZeroes(item: Bytes, length: nat)
    requires |item| <= length
    ensures var p := Padded(item, length);
            |p| == length && item <= p && forall i | |item| <= i < length :: p[i] == 0
  {
  }

  method EncryptProfileItemWithPadding(c: Crypto, item: Bytes, key: Bytes, paddedLengths: seq<nat>, iv: Bytes)
    returns (r: Result<Bytes>, ghost bucket: nat)
    requires |iv| == PROFILE_IV_LENGTH && Ascending(paddedLengths) && forall n | n in paddedLengths :: n > 0
    ensures r == Oversized <==> forall n | n in paddedLengths :: n < |item|
    ensures r != Oversized ==>
              && bucket in paddedLengths && |item| <= bucket
              && (forall n | n in paddedLengths && |item| <= n :: bucket <= n)
              && r == EncryptProfile(c, Padded(item, bucket), key, iv)
  {
    var found := FindPaddedLength(paddedLengths, |item|);
    bucket := if found.Some? then found.value else 0;
    if found.None? {
      return Oversized, bucket;
    }
    r := EncryptProfile(c, Padded(item, found.value), key, iv);
  }

  predicate ZeroFree(item: Bytes) { forall i | 0 <= i < |item| :: item[i] != 0 }

  lemma NotZeroAt(data: Bytes, from: nat, end: nat, i: nat)
    requires from <= i < end <= |data| && ZeroFree(data[from..end])
    ensures data[i] != 0
  {
    assert data[from..end][i - from] == data[i];
  }

  /** Up to the first zero byte from `from` on, or the end. */
  method FindZero(data: Bytes, from: nat) returns (end: nat)
    ensures from <= |data| ==> from <= end <= |data| && ZeroFree(data[from..end]) && (end < |data| ==> data[end] == 0)
    ensures from > |data| ==> end == from
  {
    end := from;
    while end < |data|
      invariant from <= |data| ==> from <= end <= |data| && ZeroFree(data[from..end])
      invariant from > |data| ==> end == from
    {
      if data[end] == 0 {
        return;
      }
      assert data[from..end + 1] == data[from..end] + [data[end]];
      end := end + 1;
    }
  }

  method TrimForDisplay(padded: Bytes) returns (r: Bytes)
    ensures r <= padded && ZeroFree(r) && (|r| < |padded| ==> padded[|r|] == 0)
  {
    var end := FindZero(padded, 0);
    r := Subarray(padded, 0, end);
  }

  /** Such a prefix is the item that was padded, when it has no zero byte in it. */
  lemma TrimUndoesPadding(item: Bytes, length: nat, r: Bytes)
    requires ZeroFree(item) && |item| <= length
    requires r <= Padded(item, length) && ZeroFree(r) && (|r| < length ==> Padded(item, length)[|r|] == 0)
    ensures r == item
  {
    var padded := Padded(item, length);
    assert ZeroFree(padded[0..|item|]) && ZeroFree(padded[0..|r|]) by {
      assert padded[0..|item|] == item && padded[0..|r|] == r;
    }
    assert |item| < length ==> padded[|item|] == 0;
    SameEnd(padded, 0, |r|, |item|);
    assert padded[..|item|] == item;
  }

  lemma SameEnd(data: Bytes, from: nat, a: nat, b: nat)
    requires from <= a <= |data| && from <= b <= |data| && ZeroFree(data[from..a]) && ZeroFree(data[from..b])
    requires (a < |data| ==> data[a] == 0) && (b < |data| ==> data[b] == 0)
    ensures a == b
  {
    hide ZeroFree;
    if a < b {
      NotZeroAt(data, from, b, a);
    } else if b < a {
      NotZeroAt(data, from, a, b);
    }
  }

  // ---------- names ----------

  /** The non-empty ones of the two names, joined by a zero byte. */
  function FullName(given: Bytes, family: Bytes): Bytes {
    if given == [] then family else if family == [] then given else given + [0] + family
  }

  datatype Name = Name(given: Bytes, family: Option<Bytes>)

  /** What the two loops find: the part before the first zero byte and the part up to the second. */
  ghost predicate IsSplit(padded: Bytes, n: Name) {
    var rest := |n.given| + 1;
    && n.given <= padded && ZeroFree(n.given) && (|n.given| < |padded| ==> padded[|n.given|] == 0)
    && (n.family.Some? ==>
          var end := rest + |n.family.value|;
          && n.family.value != [] && end <= |padded| && padded[rest..end] == n.family.value && ZeroFree(n.family.value)
          && (end < |padded| ==> padded[end] == 0))
    && (n.family.None? ==> rest >= |padded| || padded[rest] == 0)
  }

  method SplitName(padded: Bytes) returns (n: Name)
    ensures IsSplit(padded, n)
  {
    var givenEnd := FindZero(padded, 0);
    var familyEnd := FindZero(padded, givenEnd + 1);
    var foundFamilyName := familyEnd > givenEnd + 1;
    n := Name(Subarray(padded, 0, givenEnd),
              if foundFamilyName then Some(Subarray(padded, givenEnd + 1, familyEnd)) else None);
    assert padded[0..givenEnd] == padded[..givenEnd];
  }

  lemma SameGiven(padded: Bytes, n: Name, m: Name)
    requires IsSplit(padded, n) && IsSplit(padded, m)
    ensures n.given == m.given
  {
    assert padded[0..|n.given|] == n.given && padded[0..|m.given|] == m.given;
    SameEnd(padded, 0, |n.given|, |m.given|);
  }

  /** A family name begins with a byte other than zero. */
  lemma FamilyStarts(padded: Bytes, n: Name)
    requires IsSplit(padded, n)
    ensures var rest := |n.given| + 1; n.family.Some? <==> rest < |padded| && padded[rest] != 0
  {
    if n.family.Some? {
      var rest := |n.given| + 1;
      NotZeroAt(padded, rest, rest + |n.family.value|, rest);
    }
  }

  lemma SplitIsUnique(padded: Bytes, n: Name, m: Name)
    requires IsSplit(padded, n) && IsSplit(padded, m)
    ensures n == m
  {
    SameGiven(padded, n, m);
    FamilyStarts(padded, n);
    FamilyStarts(padded, m);
    if n.family.Some? {
      var rest := |n.given| + 1;
      SameEnd(padded, rest, rest + |n.family.value|, rest + |m.family.value|);
    }
  }

  /** What decryption of a name comes to: the errors of `decryptProfile`, and otherwise a split of its
      plaintext. */
  ghost predicate DecryptsTo(c: Crypto, data: Bytes, key: Bytes, r: Result<Name>) {
    match DecryptProfile(c, data, key)
    case Ok(padded) => r.Ok? && IsSplit(padded, r.value)
    case BadLength => r == BadLength
    case _ => r == BadMac
  }

  /** `decryptProfileName`, after the base64 decoding. */
  method DecryptProfileName(c: Crypto, data: Bytes, key: Bytes) returns (r: Result<Name>)
    ensures DecryptsTo(c, data, key, r)
  {
    var padded := DecryptProfile(c, data, key);
    match padded {
      case Ok(bytes) =>
        var n := SplitName(bytes);
        return Ok(n);
      case BadLength => return BadLength;
      case _ => return BadMac;
    }
  }

  function OneFamily(family: Bytes): Option<Bytes> { if family == [] then None else Some(family) }

  /** The name that comes back for a padded full name; a family name alone comes back as given name. */
  function Recovered(given: Bytes, family: Bytes): Name {
    if given == [] then Name(family, None) else Name(given, OneFamily(family))
  }

  lemma FullNameSplits(given: Bytes, family: Bytes, length: nat)
    requires ZeroFree(given) && ZeroFree(family) && |FullName(given, family)| <= length
    ensures IsSplit(Padded(FullName(given, family), length), Recovered(given, family))
  {
    var padded := Padded(FullName(given, family), length);
    var n := Recovered(given, family);
    if n.family.Some? {
      var rest := |given| + 1;
      assert padded[rest..rest + |family|] == family;
    }
  }

  /** From given and family name through join, padding, encryption, decryption and split:
      `decryptProfileName` returns the recovered name and nothing else, which is the name that was
      encrypted exactly when there is a given name or no family name. */
  lemma NameRoundTrip(c: Crypto, given: Bytes, family: Bytes, key: Bytes, iv: Bytes, bucket: nat, r: Result<Name>)
    requires c.Lawful() && |key| == 32 && |iv| == PROFILE_IV_LENGTH && bucket in NAME
    requires ZeroFree(given) && ZeroFree(family) && |FullName(given, family)| <= bucket
    ensures var e := EncryptProfile(c, Padded(FullName(given, family), bucket), key, iv);
            && e.Ok?
            && (DecryptsTo(c, e.value, key, r) <==> r == Ok(Recovered(given, family)))
            && (DecryptsTo(c, e.value, key, Ok(Name(given, OneFamily(family)))) <==> given != [] || family == [])
  {
    hide Crypto.Lawful, IsSplit, ZeroFree;
    var padded := Padded(FullName(given, family), bucket);
    ProfileRoundTrip(c, padded, key, iv);
    FullNameSplits(given, family, bucket);
    forall n: Name ensures IsSplit(padded, n) <==> n == Recovered(given, family) {
      if IsSplit(padded, n) { SplitIsUnique(padded, n, Recovered(given, family)); }
    }
  }

  // ---------- the laws can be met ----------

  function Prefixed(key: Bytes, data: Bytes, n: nat): Bytes
    ensures |Prefixed(key, data, n)| == n
  {
    (key + data + Zeroes(n))[..n]
  }

  /** Ciphers that only frame the plaintext: a byte in front, or a tag of zeroes behind. */
  const TOY := Crypto(
    (k: Bytes, d: Bytes) => Prefixed(k, d, 32),
    (d: Bytes) => Prefixed([], d, 32),
    (k: Bytes, p: Bytes, iv: Bytes) => [16] + p,
    (k: Bytes, p: Bytes, iv: Bytes) => if p == [] then None else Some(p[1..]),
    (k: Bytes, iv: Bytes, p: Bytes) => p + Zeroes(16),
    (k: Bytes, iv: Bytes, p: Bytes) => if |p| < 16 then None else Some(p[..|p| - 16]))

  lemma ToyIsLawful()
    ensures TOY.Lawful()
  {
    forall k: Bytes, p: Bytes, iv: Bytes ensures TOY.decryptCbc(k, TOY.encryptCbc(k, p, iv), iv) == Some(p) {
      assert ([16] + p)[1..] == p;
    }
    forall k: Bytes, iv: Bytes, p: Bytes ensures TOY.decryptGcm(k, iv, TOY.encryptGcm(k, iv, p)) == Some(p) {
      assert (p + Zeroes(16))[..|p + Zeroes(16)| - 16] == p;
    }
  }
}
