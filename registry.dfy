/**
 * The browser's durable key-value store (IndexedDB through idb-keyval) as the application
 * uses it: three keys, holding the last chosen contract address, the list of contracts the
 * user has deployed, and the metadata template. Reads and writes are taken as immediate.
 */
module Registry {
  import opened Wrappers
  import opened Session

  const ContractAddressKey := "contractAddress"
  const StoredContractsKey := "storedContracts"
  const MetadataKey := "metadata"

  /** One deployed contract as recorded in the registry. */
  datatype Contract = Contract(address: string, name: string, tokenSymbol: string)

  /** The kinds of value the application stores. */
  datatype StoreValue = Text(text: string) | Contracts(contracts: seq<Contract>) | Record(metadata: Metadata)

  /** Each key holds only the kind of value the application writes under it. */
  predicate WellTyped(entries: map<string, StoreValue>)
  {
    (ContractAddressKey in entries ==> entries[ContractAddressKey].Text?) &&
    (StoredContractsKey in entries ==> entries[StoredContractsKey].Contracts?) &&
    (MetadataKey in entries ==> entries[MetadataKey].Record?)
  }

  /** The registry list; a missing key reads as the empty list. */
  function StoredContracts(entries: map<string, StoreValue>): (cs: seq<Contract>)
    requires WellTyped(entries)
    ensures StoredContractsKey in entries ==> entries[StoredContractsKey] == Contracts(cs)
    ensures StoredContractsKey !in entries ==> cs == []
  {
    if StoredContractsKey in entries then entries[StoredContractsKey].contracts else []
  }

  /**
   * The registry write after a deployment: the list read from the store, or a fresh list
   * when the key is missing, extended by the new entry. Every other key is untouched.
   */
  function WithDeployment(entries: map<string, StoreValue>, entry: Contract): (r: map<string, StoreValue>)
    requires WellTyped(entries)
    ensures WellTyped(r)
    ensures StoredContracts(r) == StoredContracts(entries) + [entry]
    ensures StoredContractsKey in r
    ensures forall k :: k != StoredContractsKey ==> (k in r <==> k in entries)
    ensures forall k :: k != StoredContractsKey && k in entries ==> r[k] == entries[k]
  {
    entries[StoredContractsKey := Contracts(StoredContracts(entries) + [entry])]
  }

  /**
   * The registry only grows: one deployment adds exactly one entry at the end, keeps the
   * earlier entries in their order, and adds it even when an equal entry is already there.
   */
  lemma RegistryAppendOnly(entries: map<string, StoreValue>, entry: Contract)
    requires WellTyped(entries)
    ensures |StoredContracts(WithDeployment(entries, entry))| == |StoredContracts(entries)| + 1
    ensures StoredContracts(entries) <= StoredContracts(WithDeployment(entries, entry))
    ensures StoredContracts(WithDeployment(entries, entry))[|StoredContracts(entries)|] == entry
    ensures multiset(StoredContracts(WithDeployment(entries, entry)))[entry] == multiset(StoredContracts(entries))[entry] + 1
  {
    var before := StoredContracts(entries);
    assert multiset(before + [entry]) == multiset(before) + multiset{entry};
  }

  /** The store after a run of deployments, in order. */
  function WithDeployments(entries: map<string, StoreValue>, added: seq<Contract>): (r: map<string, StoreValue>)
    requires WellTyped(entries)
    ensures WellTyped(r)
    decreases |added|
  {
    if added == [] then entries
    else WithDeployments(WithDeployment(entries, added[0]), added[1..])
  }

  /** After any run of deployments the registry is the old list followed by the new entries in deployment order. */
  lemma {:induction false} RegistryAfterDeployments(entries: map<string, StoreValue>, added: seq<Contract>)
    requires WellTyped(entries)
    ensures StoredContracts(WithDeployments(entries, added)) == StoredContracts(entries) + added
    decreases |added|
  {
    if added != [] {
      var next := WithDeployment(entries, added[0]);
      RegistryAfterDeployments(next, added[1..]);
      assert StoredContracts(entries) + [added[0]] + added[1..] == StoredContracts(entries) + added;
    }
  }

  /** The store itself, updated in place by `set`. */
  class KeyValueStore {
    var entries: map<string, StoreValue>

    ghost predicate Valid()
      reads this
    {
      WellTyped(entries)
    }

    constructor (initial: map<string, StoreValue>)
      requires WellTyped(initial)
      ensures Valid() && entries == initial
    {
      entries := initial;
    }

    /** `get(key)`: the stored value, or nothing. */
    function Get(key: string): (v: Option<StoreValue>)
      reads this
      ensures v.Some? <==> key in entries
      ensures v.Some? ==> v.value == entries[key]
    {
      if key in entries then Some(entries[key]) else None
    }

    /** `set(key, value)`: overwrite one key, leave the others. */
    method Set(key: string, value: StoreValue)
      modifies this`entries
      ensures entries == old(entries)[key := value]
    {
      entries := entries[key := value];
    }
  }
}
