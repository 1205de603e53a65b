/** A Cosmos address: the bech32 text and the length of its prefix. */
module CosmosAddress {
  import opened Wrappers
  import opened Text
  import opened Keys
  import opened AddressErrors
  import Bech32

  const MAX_ACCOUNT_ID_LEN: nat := 255

  datatype CosmosAddr = CosmosAddr(bech32Addr: string, prefixLen: nat)

  /** Prefix characters `new_bytes` accepts: `a`-`z` and `0`-`9`. */
  predicate PrefixCharsOk(prefix: string) {
    forall i :: 0 <= i < |prefix| ==> ('a' <= prefix[i] <= 'z' || '0' <= prefix[i] <= '9')
  }

  /** `CosmosAddr::new_bytes`: checks the prefix characters and the length, then encodes. */
  function NewBytes(bytes: seq<byte>, prefix: string): (r: Result<CosmosAddr, AddressError>)
    ensures r.Ok? <==> PrefixCharsOk(prefix) && |bytes| <= MAX_ACCOUNT_ID_LEN
    ensures r.Ok? ==> Prefix(r.value) == Some(prefix) && Display(r.value) == Bech32.Encode(prefix, bytes)
    ensures !PrefixCharsOk(prefix) ==>
              r == Err(Other("expected prefix to be lowercase alphanumeric characters only"))
    ensures PrefixCharsOk(prefix) && |bytes| > MAX_ACCOUNT_ID_LEN ==>
              r == Err(Other("account ID should be at most 255 bytes long, but was "
                             + NatToString(|bytes|) + " bytes long"))
  {
    if !PrefixCharsOk(prefix) then
      Err(Other("expected prefix to be lowercase alphanumeric characters only"))
    else if |bytes| > MAX_ACCOUNT_ID_LEN then
      Err(Other("account ID should be at most 255 bytes long, but was " + NatToString(|bytes|) + " bytes long"))
    else
      var a := CosmosAddr(Bech32.Encode(prefix, bytes), |prefix|);
      assert a.bech32Addr[..|prefix|] == prefix;
      Ok(a)
  }

  /** `CosmosAddr::prefix`: the first `prefix_len` characters; `None` where the slice would panic. */
  function Prefix(a: CosmosAddr): (r: Option<string>)
    ensures r.Some? <==> a.prefixLen <= |a.bech32Addr|
    ensures r.Some? ==> |r.value| == a.prefixLen && IsPrefixOf(r.value, a.bech32Addr)
  {
    if a.prefixLen <= |a.bech32Addr| then Some(a.bech32Addr[..a.prefixLen]) else None
  }

  /** `CosmosAddr::to_vec`: the decoded bytes; `None` where the `unwrap` would panic. */
  function ToVec(a: CosmosAddr): (r: Option<seq<byte>>)
    ensures r.Some? <==> Bech32.Decode(a.bech32Addr).Ok?
  {
    match Bech32.Decode(a.bech32Addr)
    case Ok(d) => Some(d.data)
    case Err(_) => None
  }

  /** The `Display` impl: the bech32 text. */
  function Display(a: CosmosAddr): string {
    a.bech32Addr
  }

  predicate StartsUpper(s: string) {
    |s| > 0 && 'A' <= s[0] <= 'Z'
  }

  /** The decoder `new_str` picks: `decode_upper` when the text starts with a capital,
      `decode` otherwise. */
  function DecodeFor(value: string): Result<Bech32.DecodedAddress, string> {
    if StartsUpper(value) then Bech32.DecodeUpper(value) else Bech32.Decode(value)
  }

  /** `CosmosAddr::new_str`: decode, compare the decoded prefix with the expected one, then
      rebuild with `new_bytes`, so the stored text is the re-encoding of the decoded parts. */
  function NewStr(value: string, expected: Option<string>): (r: Result<CosmosAddr, AddressError>)
    ensures DecodeFor(value).Err? ==> r == Err(Other("invalid bech32: '" + value + "'"))
    ensures DecodeFor(value).Ok? && expected.Some? && DecodeFor(value).value.hrp != expected.value ==>
      r == Err(Other("Address prefix \"" + DecodeFor(value).value.hrp
        + "\" does not match expected prefix \"" + expected.value + "\""))
    ensures r.Ok? <==> (DecodeFor(value).Ok?
      && (expected.None? || DecodeFor(value).value.hrp == expected.value)
      && NewBytes(DecodeFor(value).value.data, DecodeFor(value).value.hrp).Ok?)
    ensures r.Ok? ==> r == NewBytes(DecodeFor(value).value.data, DecodeFor(value).value.hrp)
    ensures r.Ok? ==> Valid(r.value)
    ensures r.Ok? && expected.Some? ==> Prefix(r.value) == expected
    ensures r.Ok? && !StartsUpper(value) ==> ToVec(r.value) == ToVec(CosmosAddr(value, 0))
  {
    match DecodeFor(value)
    case Err(_) => Err(Other("invalid bech32: '" + value + "'"))
    case Ok(d) =>
      if expected.Some? && d.hrp != expected.value then
        Err(Other("Address prefix \"" + d.hrp + "\" does not match expected prefix \"" + expected.value + "\""))
      else
        var r := NewBytes(d.data, d.hrp);
        if r.Ok? then
          Bech32.DecodeEncode(d.hrp, d.data);
          r
        else r
  }

  /** `FromStr`: `new_str` without an expected prefix. */
  function FromStr(s: string): Result<CosmosAddr, AddressError> {
    NewStr(s, None)
  }

  /** What every address built by `new_bytes` from a non-empty prefix, or by `new_str`,
      satisfies: the text decodes, the stored prefix length is the decoded prefix's,
      and `new_bytes` would accept the decoded parts. */
  ghost predicate Valid(a: CosmosAddr) {
    && Bech32.Decode(a.bech32Addr).Ok?
    && var d := Bech32.Decode(a.bech32Addr).value;
    && Prefix(a) == Some(d.hrp)
    && PrefixCharsOk(d.hrp)
    && |d.data| <= MAX_ACCOUNT_ID_LEN
    && a.bech32Addr == Bech32.Encode(d.hrp, d.data)
  }

  lemma {:induction false} PrefixCharsValidHrp(p: string)
    requires PrefixCharsOk(p) && |p| >= 1
    ensures Bech32.ValidHrp(p) && Bech32.NoUpperAscii(p)
  {
  }

  /** An address built from bytes and a non-empty prefix is valid and gives its bytes back. */
  lemma {:induction false} NewBytesRoundTrip(bytes: seq<byte>, prefix: string)
    requires NewBytes(bytes, prefix).Ok? && |prefix| >= 1
    ensures Valid(NewBytes(bytes, prefix).value)
    ensures ToVec(NewBytes(bytes, prefix).value) == Some(bytes)
  {
    PrefixCharsValidHrp(prefix);
    Bech32.DecodeEncode(prefix, bytes);
  }

  /** Parsing the text of a valid address, against its own prefix, gives the address back. */
  lemma {:induction false} NewStrDisplay(a: CosmosAddr)
    requires Valid(a)
    ensures NewStr(Display(a), Prefix(a)) == Ok(a)
    ensures FromStr(Display(a)) == Ok(a)
  {
    var d := Bech32.Decode(a.bech32Addr).value;
    var s := a.bech32Addr;
    assert s == d.hrp + [Bech32.SEPARATOR] + Bech32.EncodeData(d.data);
    assert s[0] == d.hrp[0];
    assert !StartsUpper(s);
    assert a.prefixLen == |d.hrp|;
  }

  /** `change_prefix` as written: a different prefix is handed to `new_str` as the expected
      prefix of the unchanged text. */
  function ChangePrefixAsWritten(a: CosmosAddr, newPrefix: string): Result<CosmosAddr, AddressError> {
    if Prefix(a) == Some(newPrefix) then Ok(a) else NewStr(a.bech32Addr, Some(newPrefix))
  }

  /** As written, `change_prefix` fails for every valid address and every different prefix. */
  lemma {:induction false} ChangePrefixAsWrittenAlwaysFails(a: CosmosAddr, newPrefix: string)
    requires Valid(a) && Prefix(a) != Some(newPrefix)
    ensures ChangePrefixAsWritten(a, newPrefix).Err?
  {
    NewStrDisplay(a);
  }

  /** A concrete instance: the `osmo` address of the bytes [1, 2] cannot be moved to `cosmos`. */
  lemma {:induction false} ChangePrefixAsWrittenExample()
    ensures NewBytes([1, 2], "osmo").Ok?
    ensures ChangePrefixAsWritten(NewBytes([1, 2], "osmo").value, "cosmos").Err?
  {
    NewBytesRoundTrip([1, 2], "osmo");
    ChangePrefixAsWrittenAlwaysFails(NewBytes([1, 2], "osmo").value, "cosmos");
  }

  /** `change_prefix` as evidently intended: the same bytes under the new prefix. */
  function ChangePrefix(a: CosmosAddr, newPrefix: string): (r: Result<CosmosAddr, AddressError>)
    ensures Valid(a) ==> (r.Ok? <==> PrefixCharsOk(newPrefix))
    ensures Valid(a) && |newPrefix| >= 1 && r.Ok? ==>
      Prefix(r.value) == Some(newPrefix) && ToVec(r.value) == ToVec(a)
  {
    if Prefix(a) == Some(newPrefix) then Ok(a)
    else match ToVec(a)
      case None => Err(Other("invalid bech32"))
      case Some(bytes) => ChangePrefixBytes(bytes, newPrefix)
  }

  function ChangePrefixBytes(bytes: seq<byte>, newPrefix: string): (r: Result<CosmosAddr, AddressError>)
    ensures |bytes| <= MAX_ACCOUNT_ID_LEN ==> (r.Ok? <==> PrefixCharsOk(newPrefix))
    ensures |newPrefix| >= 1 && r.Ok? ==> Prefix(r.value) == Some(newPrefix) && ToVec(r.value) == Some(bytes)
  {
    var r := NewBytes(bytes, newPrefix);
    if r.Ok? && |newPrefix| >= 1 then NewBytesRoundTrip(bytes, newPrefix); r else r
  }

  /** `new_pub_key`: only secp256k1 keys, through their account id (`account::Id::from`,
      the RIPEMD-160 of the SHA-256 of the key, passed in as `accountId`). */
  function NewPubKey(pk: PublicKey, prefix: string, accountId: seq<byte> -> seq<byte>)
    : (r: Result<CosmosAddr, AddressError>)
    ensures pk.Ed25519? ==> r.Err?
    ensures pk.Secp256k1? ==> r == NewBytes(accountId(pk.bytes), prefix)
  {
    match pk
    case Secp256k1(point) => NewBytes(accountId(point), prefix)
    case _ => Err(Other("Invalid public key type, currently only supports secp256k1"))
  }
}
