/** The chain configuration of the config crate: `ChainId`, `AddrKind` and the
    revision number a chain id carries. */
module ChainConfig {
  import opened Wrappers
  import opened Text

  /** `ChainId`: a transparent wrapper around the chain's id string. */
  datatype ChainId = ChainId(id: string)

  /** `ChainId::new` followed by `as_str` gives the text back. */
  function NewChainId(s: string): (r: ChainId)
    ensures AsStr(r) == s
  {
    ChainId(s)
  }

  function AsStr(c: ChainId): string {
    c.id
  }

  /** `FromStr for ChainId` never fails. */
  function ChainIdFromStr(s: string): (r: Result<ChainId, string>)
    ensures r.Ok? && AsStr(r.value) == s
  {
    Ok(NewChainId(s))
  }

  function ChainIdDisplay(c: ChainId): (r: string)
    ensures ChainIdFromStr(r) == Ok(c)
  {
    c.id
  }

  /** The address kind of a chain, serialised in snake case. */
  datatype AddrKind = Cosmos(prefix: string) | Eth

  /** What the hand-written `Hash` impl feeds the hasher. */
  datatype HashToken = HashU32(n: nat) | HashStr(s: string)

  function HashTokens(k: AddrKind): seq<HashToken> {
    match k
    case Cosmos(prefix) => [HashU32(1), HashStr(prefix)]
    case Eth => [HashU32(2)]
  }

  /** The `Hash` impl agrees with the derived `Eq`: two kinds feed the same tokens exactly
      when they are equal, so equal kinds hash alike and the tag keeps the variants apart. */
  lemma {:induction false} HashAgreesWithEq(a: AddrKind, b: AddrKind)
    ensures HashTokens(a) == HashTokens(b) <==> a == b
  {
    if HashTokens(a) == HashTokens(b) {
      assert HashTokens(a)[0] == HashTokens(b)[0];
      if a.Cosmos? && b.Cosmos? {
        assert HashTokens(a)[1] == HashTokens(b)[1];
      }
    }
  }

  datatype WasmaticConfig = WasmaticConfig(endpoint: string, address: string)

  datatype FaucetConfig = FaucetConfig(mnemonic: string)

  datatype ChainConfig = ChainConfig(
    chainId: ChainId,
    rpcEndpoint: string,
    grpcEndpoint: string,
    gasAmount: string,
    gasDenom: string,
    addressKind: AddrKind,
    wasmatic: WasmaticConfig,
    faucet: FaucetConfig)

  /** `ChainConfig::ibc_client_revision`: the last `-`-separated piece of the chain id read
      as a `u64`, or 0 when it is not one. It never fails. */
  function IbcClientRevision(c: ChainConfig): (r: Result<nat, string>)
    ensures r.Ok? && r.value < U64_LIMIT
    ensures r.value != 0 ==> ParseU64(LastPiece(c.chainId.id, '-')) == Some(r.value)
    ensures ParseU64(LastPiece(c.chainId.id, '-')).Some? ==> r == Ok(ParseU64(LastPiece(c.chainId.id, '-')).value)
    ensures ParseU64(LastPiece(c.chainId.id, '-')).None? ==> r == Ok(0)
  {
    Ok(ParseU64(LastPiece(AsStr(c.chainId), '-')).GetOr(0))
  }

  /** A chain id of the form `{name}-{revision}` yields the revision, whatever the name holds. */
  lemma {:induction false} RevisionOfFormattedId(c: ChainConfig, name: string, revision: nat)
    requires revision < U64_LIMIT
    requires c.chainId.id == name + "-" + NatToString(revision)
    ensures IbcClientRevision(c) == Ok(revision)
  {
    var tail := NatToString(revision);
    assert '-' !in tail by {
      forall i | 0 <= i < |tail| ensures tail[i] != '-' {
        assert IsDigit(tail[i]);
      }
    }
    SplitAtSeparator(name, tail, '-');
    assert name + "-" + tail == name + ['-'] + tail;
    SplitNoSeparator(tail, '-');
    ParseNatToString(revision, U64_LIMIT);
  }

  /** A chain id without any `-` is its own last piece, so a numeric one is the revision. */
  lemma {:induction false} RevisionWithoutSeparator(c: ChainConfig)
    requires '-' !in c.chainId.id
    requires ParseU64(c.chainId.id).Some?
    ensures IbcClientRevision(c) == Ok(ParseU64(c.chainId.id).value)
  {
    SplitNoSeparator(c.chainId.id, '-');
  }

  /** A chain id whose last piece is not an unsigned number yields revision 0. */
  lemma {:induction false} RevisionDefaultsToZero(c: ChainConfig)
    requires !IsUnsignedLiteral(LastPiece(c.chainId.id, '-'))
    ensures IbcClientRevision(c) == Ok(0)
  {
  }
}
