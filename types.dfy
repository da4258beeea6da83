/**
 * The wire-string tables of the shared SDK types: the strum `EnumString`
 * parsers (each accepts exactly the spellings its `serialize` attributes
 * list, or the variant name when there is none), the serde and `match`
 * tables that print a variant, and the numeric discriminants of `ChainID`.
 */
module Types {
  import opened Wrappers

  // ChainID: `#[repr(u64)]` discriminants.

  datatype ChainId =
    | ArbitrumOne | AvalanceCChain | BNBSmartChainMainnet | CoinBase | EthereumMainnet
    | PolygonMainnet | Sepolia | Holesky | OptimismMainnet

  /** The inverse of `Discriminant`. */
  function ChainIdOf(n: nat): Option<ChainId>
  {
    if n == 42161 then Some(ArbitrumOne)
    else if n == 43114 then Some(AvalanceCChain)
    else if n == 56 then Some(BNBSmartChainMainnet)
    else if n == 8453 then Some(CoinBase)
    else if n == 1 then Some(EthereumMainnet)
    else if n == 137 then Some(PolygonMainnet)
    else if n == 11155111 then Some(Sepolia)
    else if n == 17000 then Some(Holesky)
    else if n == 10 then Some(OptimismMainnet)
    else None
  }

  /** The discriminant of each chain id; reading it back gives the same variant, so no two variants share one. */
  function Discriminant(c: ChainId): (n: nat)
    ensures ChainIdOf(n) == Some(c)
  {
    match c
    case ArbitrumOne => 42161
    case AvalanceCChain => 43114
    case BNBSmartChainMainnet => 56
    case CoinBase => 8453
    case EthereumMainnet => 1
    case PolygonMainnet => 137
    case Sepolia => 11155111
    case Holesky => 17000
    case OptimismMainnet => 10
  }

  lemma DiscriminantInjective(a: ChainId, b: ChainId)
    ensures Discriminant(a) == Discriminant(b) <==> a == b
  {
  }

  // Chain: strum `EnumString` with one spelling per variant.

  datatype Chain = Arb | Eth | Bsc | Matic | Base | Op | CosmosHub4

  function ChainName(c: Chain): string
  {
    match c
    case Arb => "arb"
    case Eth => "eth"
    case Bsc => "bsc"
    case Matic => "matic"
    case Base => "base"
    case Op => "op"
    case CosmosHub4 => "cosmoshub-4"
  }

  /** `Chain::from_str`: exactly the seven names, each to its own variant. */
  function ParseChain(s: string): (r: Option<Chain>)
    ensures r.Some? ==> ChainName(r.value) == s
    ensures forall c :: ChainName(c) == s ==> r == Some(c)
  {
    if s == "arb" then Some(Arb)
    else if s == "eth" then Some(Eth)
    else if s == "bsc" then Some(Bsc)
    else if s == "matic" then Some(Matic)
    else if s == "base" then Some(Base)
    else if s == "op" then Some(Op)
    else if s == "cosmoshub-4" then Some(CosmosHub4)
    else None
  }
  /** `ChainName` gives distinct chains distinct names. */
  lemma ChainNameInjective(a: Chain, b: Chain)
    ensures ChainName(a) == ChainName(b) <==> a == b
  {
    assert ParseChain(ChainName(a)) == Some(a) && ParseChain(ChainName(b)) == Some(b);
  }


  // StakeStatus: strum `EnumString`.

  datatype StakeStatus = Active | Pending | Disabled

  function StakeStatusName(s: StakeStatus): string
  {
    match s
    case Active => "active"
    case Pending => "pending"
    case Disabled => "disabled"
  }

  /** `StakeStatus::from_str`: "active", "pending" and "disabled" only. */
  function ParseStakeStatus(s: string): (r: Option<StakeStatus>)
    ensures r.Some? ==> StakeStatusName(r.value) == s
    ensures forall v :: StakeStatusName(v) == s ==> r == Some(v)
  {
    if s == "active" then Some(Active)
    else if s == "pending" then Some(Pending)
    else if s == "disabled" then Some(Disabled)
    else None
  }
  /** `StakeStatusName` gives distinct statuses distinct names. */
  lemma StakeStatusNameInjective(a: StakeStatus, b: StakeStatus)
    ensures StakeStatusName(a) == StakeStatusName(b) <==> a == b
  {
    assert ParseStakeStatus(StakeStatusName(a)) == Some(a) && ParseStakeStatus(StakeStatusName(b)) == Some(b);
  }


  // StakePermissionKind (and the identical DydxStakePermissionKind).

  datatype StakePermissionKind = Delegate | Undelegate | Redelegate | WithdrawDelegatorReward

  /** `#[default]`. */
  const DefaultStakePermissionKind: StakePermissionKind := Delegate

  function PermissionName(k: StakePermissionKind): string
  {
    match k
    case Delegate => "Staking.MsgDelegate"
    case Undelegate => "Staking.MsgUndelegate"
    case Redelegate => "Staking.Redelegate"
    case WithdrawDelegatorReward => "Distribution.MsgWithdrawDelegatorReward"
  }

  /** `StakePermissionKind::from_str`: one spelling per variant, so the lower-case forms are refused. */
  function ParseStakePermissionKind(s: string): (r: Option<StakePermissionKind>)
    ensures r.Some? ==> PermissionName(r.value) == s
    ensures forall k :: PermissionName(k) == s ==> r == Some(k)
  {
    if s == "Staking.MsgDelegate" then Some(Delegate)
    else if s == "Staking.MsgUndelegate" then Some(Undelegate)
    else if s == "Staking.Redelegate" then Some(Redelegate)
    else if s == "Distribution.MsgWithdrawDelegatorReward" then Some(WithdrawDelegatorReward)
    else None
  }
  /** `PermissionName` gives distinct kinds distinct names. */
  lemma PermissionNameInjective(a: StakePermissionKind, b: StakePermissionKind)
    ensures PermissionName(a) == PermissionName(b) <==> a == b
  {
    assert ParseStakePermissionKind(PermissionName(a)) == Some(a) && ParseStakePermissionKind(PermissionName(b)) == Some(b);
  }


  lemma PermissionDefaultAndCasing()
    ensures DefaultStakePermissionKind == Delegate
    ensures ParseStakePermissionKind(PermissionName(DefaultStakePermissionKind)) == Some(Delegate)
    ensures ParseStakePermissionKind("staking.MsgDelegate") == None
  {
  }

  // StakingOperation (and the identical DydxOperation).

  datatype StakingOperation = OpDelegate | OpUndelegate | OpBeginRedelegate | OpWithdrawDelegatorReward | OpGrant | OpExec

  /** The spellings strum accepts for each variant, as its `serialize` attributes list them; Grant and Exec have none and go by their names. */
  function Spellings(op: StakingOperation): seq<string>
  {
    match op
    case OpDelegate => ["Staking.MsgDelegate", "staking.MsgDelegate"]
    case OpUndelegate => ["Staking.MsgUndelegate", "staking.MsgUndelegate"]
    case OpBeginRedelegate => ["Staking.MsgBeginRedelegate", "staking.MsgBeginRedelegate"]
    case OpWithdrawDelegatorReward => ["Distribution.MsgWithdrawDelegatorReward", "distribution.MsgWithdrawDelegatorReward"]
    case OpGrant => ["Grant"]
    case OpExec => ["Exec"]
  }

  /** `StakingOperation::from_str`: only a variant's spellings parse, and to that variant (`SpellingsParse` is the converse). */
  function ParseStakingOperation(s: string): (r: Option<StakingOperation>)
    ensures r.Some? ==> s in Spellings(r.value)
  {
    if s == "Staking.MsgDelegate" || s == "staking.MsgDelegate" then Some(OpDelegate)
    else if s == "Staking.MsgUndelegate" || s == "staking.MsgUndelegate" then Some(OpUndelegate)
    else if s == "Staking.MsgBeginRedelegate" || s == "staking.MsgBeginRedelegate" then Some(OpBeginRedelegate)
    else if s == "Distribution.MsgWithdrawDelegatorReward" || s == "distribution.MsgWithdrawDelegatorReward" then Some(OpWithdrawDelegatorReward)
    else if s == "Grant" then Some(OpGrant)
    else if s == "Exec" then Some(OpExec)
    else None
  }

  /** Every spelling of a variant parses to it. */
  lemma SpellingsParse(op: StakingOperation, k: nat)
    requires k < |Spellings(op)|
    ensures ParseStakingOperation(Spellings(op)[k]) == Some(op)
  {
    match op
    case OpDelegate => assert ParseStakingOperation(["Staking.MsgDelegate", "staking.MsgDelegate"][k]) == Some(OpDelegate);
    case OpUndelegate => assert ParseStakingOperation(["Staking.MsgUndelegate", "staking.MsgUndelegate"][k]) == Some(OpUndelegate);
    case OpBeginRedelegate =>
      assert ParseStakingOperation(["Staking.MsgBeginRedelegate", "staking.MsgBeginRedelegate"][k]) == Some(OpBeginRedelegate);
    case OpWithdrawDelegatorReward =>
      assert ParseStakingOperation(["Distribution.MsgWithdrawDelegatorReward", "distribution.MsgWithdrawDelegatorReward"][k])
          == Some(OpWithdrawDelegatorReward);
    case OpGrant => assert ParseStakingOperation("Grant") == Some(OpGrant);
    case OpExec => assert ParseStakingOperation("Exec") == Some(OpExec);
  }

  /** Both casings of a Cosmos message name give the same variant. */
  lemma BothCasingsParse()
    ensures ParseStakingOperation("Staking.MsgDelegate") == ParseStakingOperation("staking.MsgDelegate") == Some(OpDelegate)
    ensures ParseStakingOperation("Staking.MsgUndelegate") == ParseStakingOperation("staking.MsgUndelegate") == Some(OpUndelegate)
    ensures ParseStakingOperation("Staking.MsgBeginRedelegate") == ParseStakingOperation("staking.MsgBeginRedelegate") == Some(OpBeginRedelegate)
    ensures ParseStakingOperation("Distribution.MsgWithdrawDelegatorReward")
         == ParseStakingOperation("distribution.MsgWithdrawDelegatorReward") == Some(OpWithdrawDelegatorReward)
  {
  }

  /** `deserialize_operation_type`: the canonical `type` string of each variant. */
  function OperationType(op: StakingOperation): string
  {
    match op
    case OpDelegate => "staking.MsgDelegate"
    case OpUndelegate => "staking.MsgUndelegate"
    case OpWithdrawDelegatorReward => "distr.MsgWithdrawDelegatorReward"
    case OpBeginRedelegate => "staking.MsgBeginRedelegate"
    case OpGrant => "auth.grant"
    case OpExec => "auth.exec"
  }

  /** The inverse of `OperationType`. */
  function OperationOfType(t: string): (r: Option<StakingOperation>)
    ensures r.Some? ==> OperationType(r.value) == t
    ensures forall op :: OperationType(op) == t ==> r == Some(op)
  {
    if t == "staking.MsgDelegate" then Some(OpDelegate)
    else if t == "staking.MsgUndelegate" then Some(OpUndelegate)
    else if t == "distr.MsgWithdrawDelegatorReward" then Some(OpWithdrawDelegatorReward)
    else if t == "staking.MsgBeginRedelegate" then Some(OpBeginRedelegate)
    else if t == "auth.grant" then Some(OpGrant)
    else if t == "auth.exec" then Some(OpExec)
    else None
  }
  /** `OperationType` gives distinct operations distinct names. */
  lemma OperationTypeInjective(a: StakingOperation, b: StakingOperation)
    ensures OperationType(a) == OperationType(b) <==> a == b
  {
    assert OperationOfType(OperationType(a)) == Some(a) && OperationOfType(OperationType(b)) == Some(b);
  }


  /**
   * The canonical string of a variant parses back to it exactly for the
   * three `staking.` messages: "distr.MsgWithdrawDelegatorReward",
   * "auth.grant" and "auth.exec" are not among the accepted spellings.
   */
  lemma CanonicalTypeRoundTrip(op: StakingOperation)
    ensures ParseStakingOperation(OperationType(op)) == Some(op)
        <==> op == OpDelegate || op == OpUndelegate || op == OpBeginRedelegate
    ensures !(op == OpDelegate || op == OpUndelegate || op == OpBeginRedelegate) ==> ParseStakingOperation(OperationType(op)) == None
  {
    match op
    case OpDelegate => assert ParseStakingOperation("staking.MsgDelegate") == Some(OpDelegate);
    case OpUndelegate => assert ParseStakingOperation("staking.MsgUndelegate") == Some(OpUndelegate);
    case OpBeginRedelegate => assert ParseStakingOperation("staking.MsgBeginRedelegate") == Some(OpBeginRedelegate);
    case OpWithdrawDelegatorReward => assert ParseStakingOperation("distr.MsgWithdrawDelegatorReward") == None;
    case OpGrant => assert ParseStakingOperation("auth.grant") == None;
    case OpExec => assert ParseStakingOperation("auth.exec") == None;
  }

  // OperationsResponse and its `deserialize_type` table.

  datatype OperationsResponseKind = StakeRegisteration | StakeDeregisteration | Delegation | Reward | Withdrawal

  function OperationsResponseType(v: OperationsResponseKind): string
  {
    match v
    case StakeRegisteration => "stake_registration"
    case StakeDeregisteration => "stake_deregistration"
    case Delegation => "delegation"
    case Reward => "reward"
    case Withdrawal => "withdrawal"
  }

  /** The inverse of `OperationsResponseType`; it exists because no two variants print the same string. */
  function OperationsResponseOfType(t: string): (r: Option<OperationsResponseKind>)
    ensures r.Some? ==> OperationsResponseType(r.value) == t
    ensures forall v :: OperationsResponseType(v) == t ==> r == Some(v)
  {
    if t == "stake_registration" then Some(StakeRegisteration)
    else if t == "stake_deregistration" then Some(StakeDeregisteration)
    else if t == "delegation" then Some(Delegation)
    else if t == "reward" then Some(Reward)
    else if t == "withdrawal" then Some(Withdrawal)
    else None
  }

  // ResponseFormat: `AsRefStr` knows nothing of serde's `rename_all`, so it prints the variant names.

  datatype ResponseFormat = Daily | Epoch

  /** `#[default]`. */
  const DefaultResponseFormat: ResponseFormat := Daily

  /** `format.as_ref()`. */
  function FormatText(f: ResponseFormat): (s: string)
    ensures FormatOfText(s) == Some(f)
  {
    match f
    case Daily => "Daily"
    case Epoch => "Epoch"
  }

  function FormatOfText(s: string): Option<ResponseFormat>
  {
    if s == "Daily" then Some(Daily) else if s == "Epoch" then Some(Epoch) else None
  }
}
