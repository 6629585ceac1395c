/**
 * The contract step of the form page. The user either deploys a new NFT contract or imports
 * an existing one. Either way the chosen address goes to the session and to the store, and
 * the page moves on to the configure stage. A deployment also appends the new contract to
 * the registry in the store.
 */
module DeployContract {
  import opened Wrappers
  import opened JsString
  import opened Session
  import opened Registry

  /** The two networks on which a contract may be deployed (eSpace mainnet and testnet). */
  const MainnetChainId := "1030"
  const TestnetChainId := "71"

  /** Wallet statuses the handlers test for. */
  const WalletNotActive := "not-active"
  const WalletActive := "active"

  /** The sub-view of the contract step: the choice buttons, the deploy form or the import form. */
  datatype Setting = Choosing | DeployForm | ImportForm

  /** Why a deployment did not happen, in the order the handler checks. */
  datatype DeployError = MissingNameOrSymbol | WalletNotConnected | WrongNetwork | DeployReverted

  /** How an import attempt ended. */
  datatype ImportOutcome = Imported | NotMinter | RoleCheckFailed

  predicate AcceptedChain(chainId: string)
  {
    chainId == MainnetChainId || chainId == TestnetChainId
  }

  /**
   * The first deploy guard that fails, if any. The name and symbol are checked first, then
   * the wallet, then the network, so each error implies that the earlier checks passed.
   */
  function DeployGuard(name: string, tokenSymbol: string, walletStatus: string, chainId: string): (r: Option<DeployError>)
    ensures r == None <==> name != "" && tokenSymbol != "" && walletStatus != WalletNotActive && AcceptedChain(chainId)
    ensures r == Some(MissingNameOrSymbol) <==> name == "" || tokenSymbol == ""
    ensures r == Some(WalletNotConnected) <==> name != "" && tokenSymbol != "" && walletStatus == WalletNotActive
    ensures r == Some(WrongNetwork) <==> name != "" && tokenSymbol != "" && walletStatus != WalletNotActive && !AcceptedChain(chainId)
  {
    if name == "" || tokenSymbol == "" then Some(MissingNameOrSymbol)
    else if walletStatus == WalletNotActive then Some(WalletNotConnected)
    else if !AcceptedChain(chainId) then Some(WrongNetwork)
    else None
  }

  /**
   * The result of pressing Deploy. `deploy(name, tokenSymbol)` is what the contract factory's
   * deployment would give. It is consulted only when every guard passes.
   */
  function DeployResult(name: string, tokenSymbol: string, walletStatus: string, chainId: string,
                        deploy: (string, string) -> Call<string>): (r: Result<string, DeployError>)
    ensures r.Ok? <==> DeployGuard(name, tokenSymbol, walletStatus, chainId) == None && deploy(name, tokenSymbol).Returned?
    ensures r.Ok? ==> r.value == deploy(name, tokenSymbol).value
    ensures r == Err(DeployReverted) <==> DeployGuard(name, tokenSymbol, walletStatus, chainId) == None && deploy(name, tokenSymbol).Threw?
    ensures DeployGuard(name, tokenSymbol, walletStatus, chainId).Some? ==> r == Err(DeployGuard(name, tokenSymbol, walletStatus, chainId).value)
  {
    match DeployGuard(name, tokenSymbol, walletStatus, chainId)
    case Some(e) => Err(e)
    case None =>
      match deploy(name, tokenSymbol)
      case Returned(a) => Ok(a)
      case Threw => Err(DeployReverted)
  }

  /**
   * The result of pressing Enter on the import form. Without an active wallet the address is
   * accepted as it is. With one, it is accepted exactly when the contract at the trimmed
   * address grants the minter role to the account.
   */
  function ImportResult(walletStatus: string, address: string, account: string,
                        hasMinterRole: (string, string) -> Call<bool>): (r: ImportOutcome)
    ensures walletStatus != WalletActive ==> r == Imported
    ensures walletStatus == WalletActive ==> (r == Imported <==> hasMinterRole(Trim(address), account) == Returned(true))
    ensures r == RoleCheckFailed <==> walletStatus == WalletActive && hasMinterRole(Trim(address), account).Threw?
  {
    if walletStatus != WalletActive then Imported
    else
      match hasMinterRole(Trim(address), account)
      case Returned(isMinter) => if isMinter then Imported else NotMinter
      case Threw => RoleCheckFailed
  }

  /** A failing guard returns before the deployment is sent: its answer plays no part. */
  lemma DeployGuardBlocksBeforeCall(name: string, tokenSymbol: string, walletStatus: string, chainId: string,
                                    deploy: (string, string) -> Call<string>, other: (string, string) -> Call<string>)
    requires DeployGuard(name, tokenSymbol, walletStatus, chainId).Some?
    ensures DeployResult(name, tokenSymbol, walletStatus, chainId, deploy) == DeployResult(name, tokenSymbol, walletStatus, chainId, other)
  {
  }

  /**
   * The contract step's local state and its handlers. `parent` is the page session, of
   * which this view may change only the stage and the contract address; `store` is the
   * durable key-value store.
   */
  class DeployContractView<Nft, Image> {
    var setting: Setting
    var address: string
    var name: string
    var tokenSymbol: string
    var deploying: bool
    const parent: FormSession<Nft, Image>
    const store: KeyValueStore

    constructor (parent: FormSession<Nft, Image>, store: KeyValueStore)
      ensures setting == Choosing && address == "" && name == "" && tokenSymbol == "" && !deploying
      ensures this.parent == parent && this.store == store
    {
      setting := Choosing;
      address := "";
      name := "";
      tokenSymbol := "";
      deploying := false;
      this.parent := parent;
      this.store := store;
    }

    /** The Deploy button is disabled while a deployment runs. */
    predicate DeployEnabled()
      reads this
    {
      !deploying
    }

    /** The Enter button is enabled only for a well-formed address. */
    predicate EnterEnabled(validAddress: string -> bool)
      reads this
    {
      validAddress(address)
    }

    method ChooseDeploy()
      modifies this`setting
      ensures setting == DeployForm
    {
      setting := DeployForm;
    }

    method ChooseImport()
      modifies this`setting
      ensures setting == ImportForm
    {
      setting := ImportForm;
    }

    /** Back returns to the choice buttons; the fields typed so far are kept. */
    method Back()
      modifies this`setting
      ensures setting == Choosing
    {
      setting := Choosing;
    }

    method EditName(value: string)
      modifies this`name
      ensures name == value
    {
      name := value;
    }

    method EditTokenSymbol(value: string)
      modifies this`tokenSymbol
      ensures tokenSymbol == value
    {
      tokenSymbol := value;
    }

    /** Typing an address sets the local field and the session's contract address alike. */
    method EditAddress(value: string)
      modifies this`address, parent`contractAddress
      ensures address == value && parent.contractAddress == Some(value)
    {
      address := value;
      parent.SetContractAddress(value);
    }

    /** Picking a contract from the registry does the same with its address. */
    method SelectStoredContract(value: string)
      requires store.Valid()
      requires exists c :: c in StoredContracts(store.entries) && c.address == value
      modifies this`address, parent`contractAddress
      ensures address == value && parent.contractAddress == Some(value)
    {
      address := value;
      parent.SetContractAddress(value);
    }

    /**
     * `deployContract`. A failing guard or a reverted deployment leaves the session and the
     * store as they were. A deployment sets the session's contract address and the store's
     * `contractAddress` key to the new address, appends the new contract to the registry and
     * moves the page to the configure stage. `submitted` tells whether the deployment was
     * sent at all, and `deploying` is false again on every path.
     */
    method Deploy(walletStatus: string, chainId: string, deploy: (string, string) -> Call<string>)
      returns (result: Result<string, DeployError>, submitted: bool)
      requires setting == DeployForm && DeployEnabled() && store.Valid()
      modifies this`deploying, parent`stage, parent`contractAddress, store`entries
      ensures result == DeployResult(name, tokenSymbol, walletStatus, chainId, deploy)
      ensures submitted <==> DeployGuard(name, tokenSymbol, walletStatus, chainId) == None
      ensures !deploying && store.Valid()
      ensures result.Ok? ==>
        parent.contractAddress == Some(result.value) &&
        parent.stage == Configure &&
        store.entries == WithDeployment(old(store.entries)[ContractAddressKey := Text(result.value)],
                                        Contract(result.value, name, tokenSymbol))
      ensures result.Err? ==>
        parent.contractAddress == old(parent.contractAddress) &&
        parent.stage == old(parent.stage) &&
        store.entries == old(store.entries)
    {
      deploying := true;
      var guard := DeployGuard(name, tokenSymbol, walletStatus, chainId);
      if guard.Some? {
        deploying := false;
        return Err(guard.value), false;
      }
      submitted := true;
      match deploy(name, tokenSymbol) {
        case Returned(deployed) =>
          parent.SetContractAddress(deployed);
          store.Set(ContractAddressKey, Text(deployed));
          var got := store.Get(StoredContractsKey);
          var entry := Contract(deployed, name, tokenSymbol);
          ghost var afterAddress := store.entries;
          assert WellTyped(afterAddress);
          if got.Some? {
            assert got.value == Contracts(StoredContracts(afterAddress));
            store.Set(StoredContractsKey, Contracts(got.value.contracts + [entry]));
            assert store.entries == WithDeployment(afterAddress, entry);
          } else {
            assert StoredContracts(afterAddress) == [];
            store.Set(StoredContractsKey, Contracts([entry]));
            assert [entry] == StoredContracts(afterAddress) + [entry];
            assert store.entries == WithDeployment(afterAddress, entry);
          }
          parent.SetStage(Configure);
          result := Ok(deployed);
        case Threw =>
          result := Err(DeployReverted);
      }
      deploying := false;
    }

    /** The effects of an accepted import: stage, session address and stored address. */
    method Accept()
      requires store.Valid()
      modifies parent`stage, parent`contractAddress, store`entries
      ensures store.Valid()
      ensures parent.stage == Configure && parent.contractAddress == Some(address)
      ensures store.entries == old(store.entries)[ContractAddressKey := Text(address)]
    {
      parent.SetStage(Configure);
      parent.SetContractAddress(address);
      store.Set(ContractAddressKey, Text(address));
    }

    /**
     * `checkIfContractImportable`. On acceptance the page moves to the configure stage and
     * the session's contract address and the store's `contractAddress` key become the
     * address as typed (untrimmed). Otherwise nothing changes. The registry is never
     * touched. `checkedRole` tells whether the role check was made.
     */
    method Import(walletStatus: string, account: string, validAddress: string -> bool,
                  hasMinterRole: (string, string) -> Call<bool>)
      returns (outcome: ImportOutcome, checkedRole: bool)
      requires setting == ImportForm && EnterEnabled(validAddress) && store.Valid()
      modifies parent`stage, parent`contractAddress, store`entries
      ensures outcome == ImportResult(walletStatus, address, account, hasMinterRole)
      ensures checkedRole <==> walletStatus == WalletActive
      ensures store.Valid()
      ensures outcome == Imported ==>
        parent.stage == Configure &&
        parent.contractAddress == Some(address) &&
        store.entries == old(store.entries)[ContractAddressKey := Text(address)]
      ensures outcome != Imported ==>
        parent.stage == old(parent.stage) &&
        parent.contractAddress == old(parent.contractAddress) &&
        store.entries == old(store.entries)
      ensures StoredContracts(store.entries) == StoredContracts(old(store.entries))
    {
      checkedRole := walletStatus == WalletActive;
      if checkedRole {
        var answer := hasMinterRole(Trim(address), account);
        if answer == Returned(true) {
          Accept();
          outcome := Imported;
        } else if answer.Returned? {
          outcome := NotMinter;
        } else {
          outcome := RoleCheckFailed;
        }
      } else {
        Accept();
        outcome := Imported;
      }
    }
  }
}
