/**
  The BitAddr shared module: from two entropy strings to a Bitcoin address
  (legacy Base58Check or Bitcoin Cash CashAddr) and a WIF private key.

  The hash, elliptic-curve and text-encoding primitives are not part of this
  model; they are passed in as a `Crypto` record of functions whose result
  types carry their documented output lengths.
*/
module BitAddr {
  import opened Wrappers

  type Byte = bv8

  /** Output of SHA-256 (FIPS 180-4): 32 bytes. */
  type Digest = s: seq<Byte> | |s| == 32 witness seq(32, _ => 0)

  /** Output of RIPEMD-160: 20 bytes. */
  type Hash160 = s: seq<Byte> | |s| == 20 witness seq(20, _ => 0)

  /** An uncompressed secp256k1 public key: 65 bytes. */
  type PubKey = s: seq<Byte> | |s| == 65 witness seq(65, _ => 0)

  /**
    The primitives the C code calls: `sha256_Raw`, `ripemd160`,
    `ecdsa_get_public_key65` on secp256k1, `b58enc` and `cash_addr_encode`.
  */
  datatype Crypto = Crypto(
    sha256: seq<Byte> -> Digest,
    ripemd160: seq<Byte> -> Hash160,
    publicKey65: Digest -> PubKey,
    b58enc: seq<Byte> -> string,
    cashAddrEncode: (string, seq<Byte>) -> string)

  const SHA256_DIGEST_LENGTH := 32
  const RIPEMD160_DIGEST_LENGTH := 20
  const RAW_ADDRESS_NOCHECK_LENGTH := 21
  const RAW_ADDRESS_CHECK_LENGTH := 25
  const PUBKEY_65_LENGTH := 65
  const CHECKSUM_LENGTH := 4
  const RAW_PRIVKEY_NOCHECK_LENGTH := 33
  const RAW_PRIVKEY_CHECK_LENGTH := 37

  const CASHADDR_P2PKH_BITS: Byte := 0
  const CASHADDR_RIPEMD160_BITS: Byte := 0

  /** Version byte of a mainnet P2PKH Base58Check address. */
  const ADDRESS_VERSION: Byte := 0x00
  /** Version byte of a mainnet WIF private key. */
  const WIF_VERSION: Byte := 0x80
  const CASHADDR_PREFIX := "bitcoincash"

  // ---------------------------------------------------------------------
  // C strings
  // ---------------------------------------------------------------------

  /** `strlen`: the number of bytes before the first NUL (all of them if there is none). */
  function CStrLen(s: seq<Byte>): (n: nat)
    ensures n <= |s|
    ensures forall i :: 0 <= i < n ==> s[i] != 0
    ensures n < |s| ==> s[n] == 0
  {
    if s == [] || s[0] == 0 then 0 else 1 + CStrLen(s[1..])
  }

  /** The bytes a `const char*` designates: everything before the first NUL. */
  function CString(s: seq<Byte>): seq<Byte>
  {
    s[..CStrLen(s)]
  }

  // ---------------------------------------------------------------------
  // Byte layouts (the specification of the helpers below)
  // ---------------------------------------------------------------------

  /** The "double hash" of a public key: RIPEMD-160 of SHA-256. */
  function PubkeyHash(c: Crypto, pubkey: PubKey): Hash160
  {
    c.ripemd160(c.sha256(pubkey))
  }

  /** The first four bytes of SHA-256(SHA-256(payload)). */
  function Checksum(c: Crypto, payload: seq<Byte>): (r: seq<Byte>)
    ensures |r| == CHECKSUM_LENGTH
  {
    c.sha256(c.sha256(payload))[..CHECKSUM_LENGTH]
  }

  /** Version byte, data and the checksum of both, as Base58Check lays them out. */
  function Base58CheckRaw(c: Crypto, version: Byte, data: seq<Byte>): (r: seq<Byte>)
    ensures |r| == 1 + |data| + CHECKSUM_LENGTH
  {
    [version] + data + Checksum(c, [version] + data)
  }

  /**
    The inverse of `Base58CheckRaw`: checks the trailing checksum and splits
    off the version byte. `None` when the input is too short or the checksum
    does not match.
  */
  function Base58CheckSplit(c: Crypto, raw: seq<Byte>): Option<(Byte, seq<Byte>)>
  {
    if |raw| < 1 + CHECKSUM_LENGTH then None
    else
      var body := raw[..|raw| - CHECKSUM_LENGTH];
      if raw[|raw| - CHECKSUM_LENGTH..] == Checksum(c, body) then Some((body[0], body[1..]))
      else None
  }

  /** The 25 bytes handed to `b58enc` for the legacy address. */
  function RawAddress(c: Crypto, pubkey: PubKey): seq<Byte>
  {
    Base58CheckRaw(c, ADDRESS_VERSION, PubkeyHash(c, pubkey))
  }

  /** The 21 bytes handed to `cash_addr_encode`: type/size version byte and hash. */
  function CashAddrPayload(c: Crypto, pubkey: PubKey): seq<Byte>
  {
    [CASHADDR_P2PKH_BITS | CASHADDR_RIPEMD160_BITS] + PubkeyHash(c, pubkey)
  }

  /** The 37 bytes handed to `b58enc` for the WIF private key. */
  function RawWif(c: Crypto, privkey: Digest): seq<Byte>
  {
    Base58CheckRaw(c, WIF_VERSION, privkey)
  }

  /**
    `privkey_from_entropy`: SHA-256 of the entropy string up to its first NUL,
    that is, of its longest prefix without a NUL byte.
  */
  function PrivkeyFromEntropy(c: Crypto, entropy: seq<Byte>): (k: Digest)
    ensures forall n ::
              (0 <= n <= |entropy| && (forall i :: 0 <= i < n ==> entropy[i] != 0) &&
               (n == |entropy| || entropy[n] == 0)) ==> k == c.sha256(entropy[..n])
  {
    c.sha256(CString(entropy))
  }

  /** The pair the entry function writes, for a given key entropy and format flag. */
  function AddressPrivkey(c: Crypto, entropyPrivkey: seq<Byte>, bch: int): (string, string)
  {
    var privkey := PrivkeyFromEntropy(c, entropyPrivkey);
    var pubkey := c.publicKey65(privkey);
    var address :=
      if bch != 0 then c.cashAddrEncode(CASHADDR_PREFIX, CashAddrPayload(c, pubkey))
      else c.b58enc(RawAddress(c, pubkey));
    (address, c.b58enc(RawWif(c, privkey)))
  }

  // ---------------------------------------------------------------------
  // Process-wide PRNG state
  // ---------------------------------------------------------------------

  /** What happened to the PRNG: a reseed, or a public-key derivation that consulted it. */
  datatype RngEvent = Seeded(seed: Digest) | PublicKeyDerived(seedInUse: Option<Digest>)

  /** The state behind `init_random32` and the random numbers the EC code draws. */
  class Random32 {
    var seed: Option<Digest>
    var events: seq<RngEvent>

    constructor ()
      ensures seed == None && events == []
    {
      seed := None;
      events := [];
    }

    /** `init_random32`. */
    method Init(s: Digest)
      modifies this
      ensures seed == Some(s)
      ensures events == old(events) + [Seeded(s)]
    {
      seed := Some(s);
      events := events + [Seeded(s)];
    }
  }

  // ---------------------------------------------------------------------
  // The C helpers
  // ---------------------------------------------------------------------

  /** `memcpy(dst + offset, src, |src|)`: writes exactly that range of `dst`. */
  method Memcpy(dst: array<Byte>, offset: nat, src: seq<Byte>)
    requires offset + |src| <= dst.Length
    modifies dst
    ensures dst[..] == old(dst[..offset]) + src + old(dst[offset + |src|..])
  {
    var i := 0;
    while i < |src|
      invariant 0 <= i <= |src|
      invariant forall k :: 0 <= k < offset ==> dst[k] == old(dst[k])
      invariant forall k :: 0 <= k < i ==> dst[offset + k] == src[k]
      invariant forall k :: offset + i <= k < dst.Length ==> dst[k] == old(dst[k])
    {
      dst[offset + i] := src[i];
      i := i + 1;
    }
    assert dst[..] == old(dst[..offset]) + src + old(dst[offset + |src|..]);
  }

  /** `pubkey_from_privkey`: the EC derivation, which consults the PRNG. */
  method PubkeyFromPrivkey(c: Crypto, rng: Random32, privkey: Digest) returns (pubkey: PubKey)
    modifies rng
    ensures pubkey == c.publicKey65(privkey)
    ensures rng.seed == old(rng.seed)
    ensures rng.events == old(rng.events) + [PublicKeyDerived(old(rng.seed))]
  {
    pubkey := c.publicKey65(privkey);
    rng.events := rng.events + [PublicKeyDerived(rng.seed)];
  }

  /** `address_from_pubkey`: the legacy Base58Check address. */
  method AddressFromPubkey(c: Crypto, pubkey: PubKey) returns (address: string)
    ensures address == c.b58enc(RawAddress(c, pubkey))
  {
    var round1 := c.sha256(pubkey);
    var round2 := c.ripemd160(round1);

    var rawAddressNocheck := new Byte[RAW_ADDRESS_NOCHECK_LENGTH];
    rawAddressNocheck[0] := ADDRESS_VERSION;
    Memcpy(rawAddressNocheck, 1, round2);
    assert rawAddressNocheck[..] == [ADDRESS_VERSION] + PubkeyHash(c, pubkey);

    var checkRound1 := c.sha256(rawAddressNocheck[..]);
    var checkRound2 := c.sha256(checkRound1);
    var checksum := new Byte[CHECKSUM_LENGTH];
    Memcpy(checksum, 0, checkRound2[..CHECKSUM_LENGTH]);
    assert checksum[..] == Checksum(c, [ADDRESS_VERSION] + PubkeyHash(c, pubkey));

    var rawAddressCheck := new Byte[RAW_ADDRESS_CHECK_LENGTH];
    Memcpy(rawAddressCheck, 0, rawAddressNocheck[..]);
    assert rawAddressCheck[..RAW_ADDRESS_NOCHECK_LENGTH] == rawAddressNocheck[..];
    Memcpy(rawAddressCheck, RAW_ADDRESS_NOCHECK_LENGTH, checksum[..]);
    assert rawAddressCheck[..] == RawAddress(c, pubkey);
    address := c.b58enc(rawAddressCheck[..]);
  }

  /** `cash_address_from_pubkey`: the CashAddr address, checksummed by the encoder. */
  method CashAddressFromPubkey(c: Crypto, pubkey: PubKey) returns (address: string)
    ensures address == c.cashAddrEncode(CASHADDR_PREFIX, CashAddrPayload(c, pubkey))
  {
    var round1 := c.sha256(pubkey);
    var round2 := c.ripemd160(round1);

    var rawAddressNocheck := new Byte[RAW_ADDRESS_NOCHECK_LENGTH];
    rawAddressNocheck[0] := CASHADDR_P2PKH_BITS | CASHADDR_RIPEMD160_BITS;
    Memcpy(rawAddressNocheck, 1, round2);
    assert rawAddressNocheck[..] == CashAddrPayload(c, pubkey);

    address := c.cashAddrEncode(CASHADDR_PREFIX, rawAddressNocheck[..]);
  }

  /** `privkey_wif_from_raw`: the WIF export of a raw private key. */
  method PrivkeyWifFromRaw(c: Crypto, privkeyRaw: Digest) returns (privkey: string)
    ensures privkey == c.b58enc(RawWif(c, privkeyRaw))
  {
    var rawPrivkeyNocheck := new Byte[RAW_PRIVKEY_NOCHECK_LENGTH];
    rawPrivkeyNocheck[0] := WIF_VERSION;
    Memcpy(rawPrivkeyNocheck, 1, privkeyRaw);
    assert rawPrivkeyNocheck[..] == [WIF_VERSION] + privkeyRaw;

    var checkRound1 := c.sha256(rawPrivkeyNocheck[..]);
    var checkRound2 := c.sha256(checkRound1);
    var checksum := new Byte[CHECKSUM_LENGTH];
    Memcpy(checksum, 0, checkRound2[..CHECKSUM_LENGTH]);
    assert checksum[..] == Checksum(c, [WIF_VERSION] + privkeyRaw);

    var rawPrivkeyCheck := new Byte[RAW_PRIVKEY_CHECK_LENGTH];
    Memcpy(rawPrivkeyCheck, 0, rawPrivkeyNocheck[..]);
    assert rawPrivkeyCheck[..RAW_PRIVKEY_NOCHECK_LENGTH] == rawPrivkeyNocheck[..];
    Memcpy(rawPrivkeyCheck, RAW_PRIVKEY_NOCHECK_LENGTH, checksum[..]);
    assert rawPrivkeyCheck[..] == RawWif(c, privkeyRaw);
    privkey := c.b58enc(rawPrivkeyCheck[..]);
  }

  /**
    `shared_modules_bitaddr_get_address_privkey`: seed the PRNG from the second
    entropy string, derive the key pair from the first, then write the address
    in the format `bch` selects and the WIF key.
  */
  method GetAddressPrivkey(c: Crypto, rng: Random32, entropyPrivkey: seq<Byte>, entropyEcdsa: seq<Byte>, bch: int)
    returns (address: string, privkey: string)
    modifies rng
    ensures (address, privkey) == AddressPrivkey(c, entropyPrivkey, bch)
    ensures rng.seed == Some(c.sha256(CString(entropyEcdsa)))
    ensures rng.events == old(rng.events) + [Seeded(c.sha256(CString(entropyEcdsa))),
                                              PublicKeyDerived(Some(c.sha256(CString(entropyEcdsa))))]
  {
    var seedEntropy := c.sha256(entropyEcdsa[..CStrLen(entropyEcdsa)]);
    rng.Init(seedEntropy);

    var privkeyRaw := PrivkeyFromEntropy(c, entropyPrivkey);
    var pubkey := PubkeyFromPrivkey(c, rng, privkeyRaw);

    if bch != 0 {
      address := CashAddressFromPubkey(c, pubkey);
    } else {
      address := AddressFromPubkey(c, pubkey);
    }

    privkey := PrivkeyWifFromRaw(c, privkeyRaw);
  }

  // ---------------------------------------------------------------------
  // Properties
  // ---------------------------------------------------------------------

  /** Only the bytes before the first NUL reach the hash. */
  lemma PrivkeyIgnoresAfterNul(c: Crypto, s: seq<Byte>, t: seq<Byte>)
    requires forall i :: 0 <= i < |s| ==> s[i] != 0
    ensures PrivkeyFromEntropy(c, s + [0] + t) == c.sha256(s)
    ensures PrivkeyFromEntropy(c, s + [0] + t) == PrivkeyFromEntropy(c, s)
  {
    var u := s + [0] + t;
    assert u[|s|] == 0;
    assert forall i :: 0 <= i < |s| ==> u[i] == s[i];
    assert u[..|s|] == s;
    assert s[..|s|] == s;
  }

  /** Checking and splitting a Base58Check payload returns the version and data it was built from. */
  lemma Base58CheckRoundTrip(c: Crypto, version: Byte, data: seq<Byte>)
    ensures Base58CheckSplit(c, Base58CheckRaw(c, version, data)) == Some((version, data))
  {
    var raw := Base58CheckRaw(c, version, data);
    assert raw[..|raw| - CHECKSUM_LENGTH] == [version] + data;
    assert raw[|raw| - CHECKSUM_LENGTH..] == Checksum(c, [version] + data);
    assert ([version] + data)[1..] == data;
  }

  /** Conversely, only a correctly checksummed payload is accepted, and it is rebuilt exactly. */
  lemma Base58CheckSplitSound(c: Crypto, raw: seq<Byte>, version: Byte, data: seq<Byte>)
    requires Base58CheckSplit(c, raw) == Some((version, data))
    ensures raw == Base58CheckRaw(c, version, data)
  {
    var body := raw[..|raw| - CHECKSUM_LENGTH];
    assert body == [version] + data;
    assert raw == body + raw[|raw| - CHECKSUM_LENGTH..];
  }

  /** The 25 legacy-address bytes: version 0x00 at 0, hash at 1..21, checksum of 0..21 at 21..25. */
  lemma RawAddressLayout(c: Crypto, pubkey: PubKey)
    ensures |RawAddress(c, pubkey)| == RAW_ADDRESS_CHECK_LENGTH
    ensures RawAddress(c, pubkey)[0] == 0x00
    ensures RawAddress(c, pubkey)[1..RAW_ADDRESS_NOCHECK_LENGTH] == c.ripemd160(c.sha256(pubkey))
    ensures RawAddress(c, pubkey)[RAW_ADDRESS_NOCHECK_LENGTH..]
         == c.sha256(c.sha256(RawAddress(c, pubkey)[..RAW_ADDRESS_NOCHECK_LENGTH]))[..4]
    ensures Base58CheckSplit(c, RawAddress(c, pubkey)) == Some((0x00, c.ripemd160(c.sha256(pubkey))))
  {
    var r := RawAddress(c, pubkey);
    var h := PubkeyHash(c, pubkey);
    assert r[..RAW_ADDRESS_NOCHECK_LENGTH] == [ADDRESS_VERSION] + h;
    assert r[1..RAW_ADDRESS_NOCHECK_LENGTH] == h;
    Base58CheckRoundTrip(c, ADDRESS_VERSION, h);
  }

  /** The CashAddr payload: 21 bytes, version 0, the same hash as the legacy path, no checksum. */
  lemma CashAddrPayloadLayout(c: Crypto, pubkey: PubKey)
    ensures |CashAddrPayload(c, pubkey)| == RAW_ADDRESS_NOCHECK_LENGTH
    ensures CashAddrPayload(c, pubkey)[0] == 0
    ensures CashAddrPayload(c, pubkey)[1..] == c.ripemd160(c.sha256(pubkey))
    ensures CashAddrPayload(c, pubkey) == RawAddress(c, pubkey)[..RAW_ADDRESS_NOCHECK_LENGTH]
  {
    var r := RawAddress(c, pubkey);
    var h := PubkeyHash(c, pubkey);
    assert r[..RAW_ADDRESS_NOCHECK_LENGTH] == [ADDRESS_VERSION] + h;
  }

  /** The 37 WIF bytes: 0x80 at 0, the key at 1..33, checksum of 0..33 at 33..37. */
  lemma RawWifLayout(c: Crypto, privkey: Digest)
    ensures |RawWif(c, privkey)| == RAW_PRIVKEY_CHECK_LENGTH
    ensures RawWif(c, privkey)[0] == 0x80
    ensures RawWif(c, privkey)[1..RAW_PRIVKEY_NOCHECK_LENGTH] == privkey
    ensures RawWif(c, privkey)[RAW_PRIVKEY_NOCHECK_LENGTH..]
         == c.sha256(c.sha256(RawWif(c, privkey)[..RAW_PRIVKEY_NOCHECK_LENGTH]))[..4]
    ensures Base58CheckSplit(c, RawWif(c, privkey)) == Some((0x80, privkey))
  {
    var r := RawWif(c, privkey);
    assert r[..RAW_PRIVKEY_NOCHECK_LENGTH] == [WIF_VERSION] + privkey;
    assert r[1..RAW_PRIVKEY_NOCHECK_LENGTH] == privkey;
    Base58CheckRoundTrip(c, WIF_VERSION, privkey);
  }

  /**
    A nonzero flag selects CashAddr, zero selects legacy Base58Check; the WIF
    key is the same either way and is the export of SHA-256 of the key entropy.
  */
  lemma Dispatch(c: Crypto, entropyPrivkey: seq<Byte>, bch: int, other: int)
    ensures var k := c.sha256(CString(entropyPrivkey));
            var pk := c.publicKey65(k);
            && (bch != 0 ==> AddressPrivkey(c, entropyPrivkey, bch).0
                               == c.cashAddrEncode("bitcoincash", [0] + c.ripemd160(c.sha256(pk))))
            && (bch == 0 ==> AddressPrivkey(c, entropyPrivkey, bch).0 == c.b58enc(RawAddress(c, pk)))
            && AddressPrivkey(c, entropyPrivkey, bch).1 == c.b58enc(RawWif(c, k))
            && AddressPrivkey(c, entropyPrivkey, bch).1 == AddressPrivkey(c, entropyPrivkey, other).1
  {
  }
}
