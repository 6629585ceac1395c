/** Walkthroughs of the contract step that use only the handlers' contracts. */
module Scenarios {
  import opened Wrappers
  import opened JsNumber
  import opened Session
  import opened Registry
  import opened DeployContract
  import opened EditMetadata

  /** Importing with no wallet connected: the typed address is taken and kept as is. */
  method ImportWithoutWallet()
  {
    var session := new FormSession<nat, nat>();
    session.SetStage(Deploy);
    var store := new KeyValueStore(map[]);
    var view := new DeployContractView(session, store);
    view.ChooseImport();
    var typed := "0xABCDEF0123456789ABCDEF0123456789ABCDEF01";
    view.EditAddress(typed);
    var outcome, checkedRole := view.Import(WalletNotActive, "", a => |a| == 42, (c, acct) => Threw);
    assert outcome == Imported && !checkedRole;
    assert session.stage == Configure && session.contractAddress == Some(typed);
    assert store.entries[ContractAddressKey] == Text(typed);
    assert StoredContracts(store.entries) == [];
  }

  /** A first deployment with name "Foo" and symbol "FOO" starts the registry with that contract. */
  method DeployFirst(deployed: string)
  {
    var session := new FormSession<nat, nat>();
    session.SetStage(Deploy);
    var store := new KeyValueStore(map[]);
    var view := new DeployContractView(session, store);
    view.ChooseDeploy();
    view.EditName("Foo");
    view.EditTokenSymbol("FOO");
    var result, submitted := view.Deploy(WalletActive, MainnetChainId, (n, s) => Returned(deployed));
    assert result == Ok(deployed) && submitted;
    assert StoredContracts(store.entries) == [Contract(deployed, "Foo", "FOO")];
    assert session.contractAddress == Some(deployed) && session.stage == Configure;
    assert store.entries[ContractAddressKey] == Text(deployed);
  }

  /** On the wrong network nothing is sent and nothing changes, whatever the deployment would answer. */
  method DeployOnWrongNetwork(deployed: string, registry: seq<Contract>)
  {
    var session := new FormSession<nat, nat>();
    session.SetStage(Deploy);
    var store := new KeyValueStore(map[StoredContractsKey := Contracts(registry)]);
    var view := new DeployContractView(session, store);
    view.ChooseDeploy();
    view.EditName("Foo");
    view.EditTokenSymbol("FOO");
    var result, submitted := view.Deploy(WalletActive, "1", (n, s) => Returned(deployed));
    assert result == Err(WrongNetwork) && !submitted;
    assert session.stage == Deploy && session.contractAddress == None;
    assert StoredContracts(store.entries) == registry;
  }

  /** Clearing the count field stores NaN in the session and in the store. */
  method ClearCount()
  {
    var session := new FormSession<nat, nat>();
    session.SetImages([7]);
    var store := new KeyValueStore(map[]);
    var editor := new MetadataEditor(session, store);
    ParseIntNaN("", "", "");
    editor.EditCount("");
    assert session.metadata == Metadata("", "", NaN);
    assert store.entries[MetadataKey] == Record(Metadata("", "", NaN));
  }
}
