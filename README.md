# lil-minter: the contract step and the metadata editor, in Dafny

This project models the part of the lil-minter NFT batch-minting page that holds real state
logic:

- **The session** (`components/Form/SubmitNFTForm.tsx`). This is the page's five-valued stage,
  the chosen contract address, the metadata template, the NFTs and the images. It also covers
  the stage dispatch that picks one child view per stage.
- **The contract step** (`components/Form/DeployContract.tsx`). The user deploys a new NFT
  contract or imports an existing one. This module models the three deploy guards in their
  order, the minter-role check on import, and the write of the chosen address to the session
  and the store. It also models the append of each newly deployed contract to the
  `storedContracts` registry.
- **The metadata editor** (`components/ConfigureDeployment/EditMetadata.tsx`). It is a
  write-through editor. Each keystroke builds one record and writes it to the session, to the
  store's `metadata` key and to the local field. The count goes through `parseInt`.

Modules, one per file:

| file | module | what it holds |
|---|---|---|
| wrappers.dfy | `Wrappers` | `Option`, `Result`, and `Call` (the answer of a foreign call, or a thrown error) |
| js_string.dfy | `JsString` | ECMAScript white space and `String.prototype.trim` |
| js_number.dfy | `JsNumber` | `parseInt(string)` with no radix (ECMA-262, section 19.2.5), with NaN as a value |
| session.dfy | `Session` | `Stage`, `Metadata`, `RenderForm`, and the `FormSession` class with its setters |
| registry.dfy | `Registry` | the idb-keyval store as a map held by a class, its three keys, and the registry append |
| deploy_contract.dfy | `DeployContract` | the guard and outcome functions, and the `DeployContractView` class with its handlers |
| edit_metadata.dfy | `EditMetadata` | edits as values, last-write-wins, and the `MetadataEditor` class |
| scenarios.dfy | `Scenarios` | walkthroughs (import with no wallet, a first deployment, a deployment on the wrong network, clearing the count) that use only the contracts |

Things the model takes as inputs:

- the wallet status and the chain id, as strings;
- the contract factory's deployment, as `deploy: (name, symbol) -> Call<address>`;
- the role check `hasRole(keccak256("MINTER_ROLE"), account)` on the contract at a given
  address, as `hasMinterRole: (address, account) -> Call<bool>`;
- the address-format check `validAddress`, as a predicate `string -> bool`.

The session, the two views and the store are classes. Each handler is a method whose
`modifies` clause is as narrow as the setters the view receives. For example, the contract
step may change only the session's `stage` and `contractAddress`. The store is modelled as a
map.

Behaviour of the code that the model keeps as written:

- A role check that throws is not reported to the user. The handler's promise rejects and
  nothing changes. The model returns `RoleCheckFailed` and leaves every field as it was.
- The metadata count is not kept non-negative. `parseInt` can give a negative number or NaN,
  and that value is stored.
- The only address-format check is the Enter button's disabled state
  (`components/Form/DeployContract.tsx:209`). The model makes it a precondition of `Import`.
- The two accepted chain ids are literals in the handler. The model copies them as constants.
- Typing an address sets the session's contract address at once, before any import check
  (`components/Form/DeployContract.tsx:180-183`).
- The session starts in the configure stage with no contract address. So these files do not
  establish "a contract address is present in the ping, assign and confirm stages". That
  would depend on the configure view, which is not part of this model.

## Model

| member | source | states |
|---|---|---|
| `JsString.Trim` | components/Form/DeployContract.tsx:112 | `address.trim()`: the result is the input's text from the first non-white-space character on, up to a point after which only white space follows; it neither starts nor ends with white space |
| `JsString.TrimIdempotent` | components/Form/DeployContract.tsx:112 | trimming twice is the same as trimming once |
| `JsNumber.ParseInt` | components/ConfigureDeployment/EditMetadata.tsx:60 | `parseInt(e.target.value)` with no radix: a number is read only when a decimal digit follows the leading white space and the optional sign, and it is negative only after a `-`; otherwise the result is NaN |
| `JsNumber.ParseIntSkipsWhiteSpace` | components/ConfigureDeployment/EditMetadata.tsx:60 | leading white space does not change what `parseInt` reads |
| `JsNumber.ParseIntDecimal` | components/ConfigureDeployment/EditMetadata.tsx:60 | `parseInt` reads back the decimal numeral of any `n`, with leading white space, an optional sign and trailing non-digit text, as `n` or `-n`; the exception is a lone `0` followed by `x`, which switches to radix 16 |
| `JsNumber.ParseIntNaN` | components/ConfigureDeployment/EditMetadata.tsx:59-66 | empty text, white space alone, or text whose first character after the optional sign is not a digit, a sign or white space gives NaN, which the count then holds |
| `Session.RenderForm` | components/Form/SubmitNFTForm.tsx:21-60 | every stage shows exactly one child, and different stages show different children; only the deploy child gets the contract-address setter, and it gets no setter for metadata, NFTs or images |
| `Session.FormSession.constructor` | components/Form/SubmitNFTForm.tsx:10-20 | a new session is in the configure stage with no contract address, metadata `{name: '', description: '', count: 0}`, no NFTs and no images |
| `Session.FormSession.CurrentView` | components/Form/SubmitNFTForm.tsx:62 | the rendered child belongs to the current stage |
| `Session.FormSession.SetStage` | components/Form/SubmitNFTForm.tsx:10-12 | `setState` changes the stage and nothing else |
| `Session.FormSession.SetContractAddress` | components/Form/SubmitNFTForm.tsx:13 | `setContractAddress` sets the address and nothing else |
| `Session.FormSession.SetMetadata` | components/Form/SubmitNFTForm.tsx:14-18 | `setMetadata` replaces the metadata and nothing else |
| `Session.FormSession.SetNfts` | components/Form/SubmitNFTForm.tsx:19 | `setNfts` replaces the NFTs and nothing else |
| `Session.FormSession.SetImages` | components/Form/SubmitNFTForm.tsx:20 | `setImages` replaces the images and nothing else |
| `Registry.StoredContracts` | components/Form/DeployContract.tsx:73-74 | the registry as read from the store; a missing `storedContracts` key reads as the empty list |
| `Registry.WithDeployment` | components/Form/DeployContract.tsx:73-92 | the registry write after a deployment: the list becomes the old list plus the new entry (a one-element list when the key was missing), and every other key keeps its value |
| `Registry.RegistryAppendOnly` | components/Form/DeployContract.tsx:73-92 | one deployment makes the registry exactly one longer; earlier entries keep their place; the new entry is last; an equal entry already present is not deduplicated |
| `Registry.RegistryAfterDeployments` | components/Form/DeployContract.tsx:73-92 | after any run of deployments the registry is the old list followed by the new entries in deployment order |
| `Registry.KeyValueStore.Get` | components/Form/DeployContract.tsx:73 | `get(key)` gives the stored value when the key is present, and nothing otherwise |
| `Registry.KeyValueStore.Set` | components/Form/DeployContract.tsx:72 | `set(key, value)` overwrites that key and leaves every other key alone |
| `DeployContract.DeployGuard` | components/Form/DeployContract.tsx:43-58 | the first failing guard, in the handler's order: an empty name or symbol, then the wallet status `'not-active'`, then a chain id other than `'1030'`/`'71'`; none fails exactly when all three pass |
| `DeployContract.DeployGuardBlocksBeforeCall` | components/Form/DeployContract.tsx:43-58 | when a guard fails, the outcome does not depend on the deployment call, which is never made |
| `DeployContract.DeployResult` | components/Form/DeployContract.tsx:43-99 | a deployment succeeds exactly when every guard passes and the deployment returns, and then yields the deployed address; a blocked deployment returns the error of the first failing guard; when the deployment throws, the outcome is `DeployReverted` |
| `DeployContract.ImportResult` | components/Form/DeployContract.tsx:107-129 | with a wallet that is not `'active'`, an import is always accepted; with an active wallet, it is accepted exactly when `hasRole` on the trimmed address returns true, and a throwing check gives `RoleCheckFailed` |
| `DeployContract.DeployContractView.constructor` | components/Form/DeployContract.tsx:34-38 | the view starts on the choice buttons, with empty address, name and symbol and `deploying` false |
| `DeployContract.DeployContractView.ChooseDeploy` | components/Form/DeployContract.tsx:229-231 | "Deploy A New Contract" opens the deploy form |
| `DeployContract.DeployContractView.ChooseImport` | components/Form/DeployContract.tsx:237-239 | "Import an Existing Contract" opens the import form |
| `DeployContract.DeployContractView.Back` | components/Form/DeployContract.tsx:160-162 | Back returns to the choice buttons and changes nothing else; the typed name, symbol and address are kept (the import form's Back, lines 215-217, is the same) |
| `DeployContract.DeployContractView.EditName` | components/Form/DeployContract.tsx:140 | the name input sets the name and nothing else |
| `DeployContract.DeployContractView.EditTokenSymbol` | components/Form/DeployContract.tsx:147 | the symbol input sets the symbol and nothing else |
| `DeployContract.DeployContractView.EditAddress` | components/Form/DeployContract.tsx:180-183 | typing an address sets the local address and the session's contract address to the same value |
| `DeployContract.DeployContractView.SelectStoredContract` | components/Form/DeployContract.tsx:190-194 | picking a registry entry sets the local address and the session's contract address to its address |
| `DeployContract.DeployContractView.Deploy` | components/Form/DeployContract.tsx:40-101 | `deployContract`. The call requires the deploy form and a Deploy button that is not disabled (line 154). The outcome is `DeployResult`. The deployment is submitted exactly when the guards pass. `deploying` is false on every path. On success, the session's address and the store's `contractAddress` are the new address, the registry gains the new entry, and the stage is configure. A blocked or reverted deployment changes neither the stage, the address nor the store |
| `DeployContract.DeployContractView.Import` | components/Form/DeployContract.tsx:103-130 | `checkIfContractImportable`. The call requires the import form and a valid address, since Enter is disabled otherwise (line 209). The outcome is `ImportResult`. The role check is made exactly when the wallet is `'active'`. On acceptance, the stage is configure, and the session's address and the store's `contractAddress` are the untrimmed typed address. Otherwise nothing changes. The registry is never touched |
| `DeployContract.DeployContractView.Accept` | components/Form/DeployContract.tsx:118-120 | an accepted import (this branch, and the inactive-wallet branch at lines 126-128) sets the stage to configure, and the session's address and the store's `contractAddress` to the address as typed; every other store key keeps its value |
| `EditMetadata.Edited` | components/ConfigureDeployment/EditMetadata.tsx:30-66 | one edit: the edited field takes the new value (the count as `parseInt` of the text), and the other two fields keep theirs |
| `EditMetadata.ApplyEditsSnoc` | components/ConfigureDeployment/EditMetadata.tsx:30-66 | applying a run of edits and then one more is applying the longer run |
| `EditMetadata.EditsLastWriteWins` | components/ConfigureDeployment/EditMetadata.tsx:30-66 | after any run of edits, each field holds its last edit's value, or its starting value if the run never touched it |
| `EditMetadata.MetadataEditor.constructor` | components/ConfigureDeployment/EditMetadata.tsx:18-20 | local name, description and count start as the metadata the editor is given |
| `EditMetadata.MetadataEditor.Apply` | components/ConfigureDeployment/EditMetadata.tsx:30-66 | one edit writes the same record to the session, to the store's `metadata` key and to the local fields. So after any non-empty run of edits, the stored record equals the session's record, which is the initial record with the run applied |
| `EditMetadata.MetadataEditor.EditName` | components/ConfigureDeployment/EditMetadata.tsx:30-38 | a name edit writes `{name: new, description, count}` to the session and the store; description and count are unchanged |
| `EditMetadata.MetadataEditor.EditDescription` | components/ConfigureDeployment/EditMetadata.tsx:46-51 | a description edit writes `{name, description: new, count}` to the session and the store; name and count are unchanged |
| `EditMetadata.MetadataEditor.EditCount` | components/ConfigureDeployment/EditMetadata.tsx:59-68 | `EditCount` requires exactly one uploaded image, since the input is disabled otherwise. A count edit writes `parseInt(input)` to the session, the store and the local count. Text that does not parse is stored as NaN rather than rejected |

## Left out

- Rendering, styling, alerts and console output. Alerts are reflected only as the error kind a
  handler returns. `components/ConfigureDeployment/ImageCard.tsx` is pure presentation and is
  not modelled.
- Asynchrony. The awaited deployment and role check, and the unawaited idb-keyval `get`/`set`,
  are taken as immediate and in program order. So the model does not capture a stale
  resolution after Back, a lost write, or the interval while a deployment runs with
  `deploying` true. In the model that interval is never observable between handler calls.
- The ethers provider, signer and contract factory (`components/Form/DeployContract.tsx:64-67`).
  They are taken never to throw. Their effect is the `deploy` and `hasMinterRole` inputs.
- `keccak256("MINTER_ROLE")` and the contract's ABI and bytecode. The role is fixed inside the
  `hasMinterRole` input.
- `validAddress` (`util/validAddress`) is not part of this model. It is an input predicate.
- The `storedContracts` and `contractAddress` props of the contract step. The page does not
  pass them (`components/Form/SubmitNFTForm.tsx:25-28`). The stored-contract list is read from
  the store instead, and the import field's `defaultValue` is not modelled.
- The stage changes out of configure, ping and assign. They happen in ConfigureDeployment,
  Pinging and AssignAddresses, which are not part of this model.
- The NFT and image records. The session classes are generic in them, and the model only
  stores them and counts the images.
- JsNumber.ParseInt: the Number type's limits. `-0` is not told apart from `0`, and numerals
  beyond 2^53 are not rounded. Only the no-radix form of `parseInt` that the editor uses is
  modelled.
