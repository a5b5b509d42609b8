/** The three account records and the ledger that maps addresses to them. */
module State {
  import opened Types
  import opened LittleEndian
  import opened Protocol
  import opened Errors

  datatype Config = Config(
    authority: Pubkey,
    mint: Pubkey,
    domainId: Bytes32,
    operator: Pubkey,
    operatorEpoch: u64,
    keyVersion: u32,
    paramsHash: Bytes32,
    operation: u16,
    circuitId: u16,
    protocolVersion: u16,
    maxRequestLifetimeSlots: u64,
    paused: bool)

  datatype ConfidentialAccount = ConfidentialAccount(
    config: Pubkey,
    mint: Pubkey,
    owner: Pubkey,
    balanceRef: Bytes32,
    limitRef: Bytes32,
    stateVersion: u64,
    requestNonce: u64,
    pendingRequest: Pubkey,
    keyVersion: u32)
  {
    predicate HasPending() {
      pendingRequest != DEFAULT_PUBKEY
    }
  }

  /** The status byte: 0 to 3 as the program writes them, or any other value. */
  datatype Status = Pending | Finalized | Cancelled | Expired | Other(code: OtherStatus)

  type OtherStatus = b: u8 | 3 < b witness 4

  datatype Request = Request(
    requester: Pubkey,
    config: Pubkey,
    mint: Pubkey,
    confidentialAccount: Pubkey,
    operation: u16,
    balanceHash: Bytes32,
    amountHash: Bytes32,
    limitHash: Bytes32,
    paramsHash: Bytes32,
    stateVersion: u64,
    requestNonce: u64,
    keyVersion: u32,
    operatorEpoch: u64,
    createdSlot: u64,
    expirySlot: u64,
    status: Status,
    requestDigest: Bytes32,
    resultHash: Bytes32,
    resultDigest: Bytes32)

  datatype Record =
    | ConfigRecord(config: Config)
    | AccountRecord(account: ConfidentialAccount)
    | RequestRecord(request: Request)

  /** The accounts owned by the program, by address. */
  type Ledger = map<Pubkey, Record>

  predicate IsConfig(l: Ledger, k: Pubkey) {
    k in l && l[k].ConfigRecord?
  }

  predicate IsAccount(l: Ledger, k: Pubkey) {
    k in l && l[k].AccountRecord?
  }

  predicate IsRequest(l: Ledger, k: Pubkey) {
    k in l && l[k].RequestRecord?
  }

  function ConfigAt(l: Ledger, k: Pubkey): Config
    requires IsConfig(l, k)
  {
    l[k].config
  }

  function AccountAt(l: Ledger, k: Pubkey): ConfidentialAccount
    requires IsAccount(l, k)
  {
    l[k].account
  }

  function RequestAt(l: Ledger, k: Pubkey): Request
    requires IsRequest(l, k)
  {
    l[k].request
  }

  // Loading an account checks its owner and discriminator: the record must exist and be of the right kind.

  function LoadConfig(l: Ledger, k: Pubkey): Result<Config, Error> {
    if IsConfig(l, k) then Ok(ConfigAt(l, k)) else Err(BadAccount)
  }

  function LoadAccount(l: Ledger, k: Pubkey): Result<ConfidentialAccount, Error> {
    if IsAccount(l, k) then Ok(AccountAt(l, k)) else Err(BadAccount)
  }

  function LoadRequest(l: Ledger, k: Pubkey): Result<Request, Error> {
    if IsRequest(l, k) then Ok(RequestAt(l, k)) else Err(BadAccount)
  }

  function ConfigPda(env: Crypto, mint: Pubkey): PdaKey {
    env.findProgramAddress([SEED_CONFIG, mint.bytes])
  }

  function AccountPda(env: Crypto, mint: Pubkey, owner: Pubkey): PdaKey {
    env.findProgramAddress([SEED_ACCOUNT, mint.bytes, owner.bytes])
  }

  function RequestPda(env: Crypto, account: Pubkey, nonce: u64): PdaKey {
    env.findProgramAddress([SEED_REQUEST, account.bytes, U64Le(nonce)])
  }
}
