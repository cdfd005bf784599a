/**
 * The network-selection state held by the `NetworkProvider` component: the
 * current network, the mismatch flag, whether the component has mounted, and
 * the persisted choice in browser storage.
 */
module NetworkProvider {
  import opened JsRuntime
  import opened Networks

  /** Reading the `cardano-sender-network` storage slot: its value (maybe missing), or a throw. */
  datatype StorageRead = Stored(value: Option<string>) | ReadThrew

  /**
   * The names every plain object literal inherits from `Object.prototype`;
   * indexing `NETWORKS` with one of them yields a truthy value.
   */
  const InheritedKeys: set<string> := {
    "constructor", "hasOwnProperty", "isPrototypeOf", "propertyIsEnumerable",
    "toLocaleString", "toString", "valueOf", "__proto__",
    "__defineGetter__", "__defineSetter__", "__lookupGetter__", "__lookupSetter__"}

  /** `NETWORKS[k]` is truthy: an own key of the table or an inherited one. */
  predicate TableLookupIsTruthy(k: string) {
    NetworkFromKey(k).Some? || k in InheritedKeys
  }

  /**
   * The mount effect as written: the key it passes to `setCurrentNetwork`, which
   * is the stored string whenever `stored && NETWORKS[stored]` holds.
   */
  function InitialNetworkAsWritten(read: StorageRead): (key: string)
    ensures key == KeyOf(DEFAULT_NETWORK) || (read.Stored? && read.value == Some(key))
  {
    match read
    case ReadThrew => KeyOf(DEFAULT_NETWORK)
    case Stored(None) => KeyOf(DEFAULT_NETWORK)
    case Stored(Some(k)) => if k != "" && TableLookupIsTruthy(k) then k else KeyOf(DEFAULT_NETWORK)
  }

  /**
   * A stored value of "toString" passes the check, so the current network
   * becomes a string that names no network at all.
   */
  lemma InheritedKeyIsAccepted()
    ensures InitialNetworkAsWritten(Stored(Some("toString"))) == "toString"
    ensures NetworkFromKey("toString").None?
  {
  }

  /**
   * The mount effect with the table consulted on its own keys only: the stored
   * network if the stored string names one, the default otherwise (also when the
   * storage read throws).
   */
  function InitialNetwork(read: StorageRead): (n: NetworkType)
    ensures read.Stored? && read.value.Some? && NetworkFromKey(read.value.value).Some?
            ==> n == NetworkFromKey(read.value.value).value
    ensures !(read.Stored? && read.value.Some? && NetworkFromKey(read.value.value).Some?)
            ==> n == DEFAULT_NETWORK
  {
    match read
    case ReadThrew => DEFAULT_NETWORK
    case Stored(None) => DEFAULT_NETWORK
    case Stored(Some(k)) =>
      match NetworkFromKey(k)
      case Some(n) => n
      case None => DEFAULT_NETWORK
  }

  /**
   * The corrected choice agrees with the code as written on every storage value
   * except the inherited names, and a persisted network is restored as itself.
   */
  lemma InitialNetworkAgrees(read: StorageRead, n: NetworkType)
    requires !(read.Stored? && read.value.Some? && read.value.value in InheritedKeys)
    ensures InitialNetworkAsWritten(read) == KeyOf(InitialNetwork(read))
    ensures InitialNetwork(Stored(Some(KeyOf(n)))) == n
  {
    KeyRoundTrip(n);
  }

  class Provider {
    var currentNetwork: NetworkType
    var isNetworkMismatch: bool
    var mounted: bool
    /** The `cardano-sender-network` entry of local storage. */
    var persisted: Option<string>

    /** Once mounted, the persisted entry is the current network. */
    ghost predicate Valid()
      reads this
    {
      mounted ==> persisted == Some(KeyOf(currentNetwork))
    }

    /** The first render: the default network, no mismatch, not mounted; storage as found. */
    constructor (persisted: Option<string>)
      ensures Valid()
      ensures currentNetwork == DEFAULT_NETWORK && !isNetworkMismatch && !mounted
      ensures this.persisted == persisted
    {
      currentNetwork := DEFAULT_NETWORK;
      isNetworkMismatch := false;
      mounted := false;
      this.persisted := persisted;
    }

    /**
     * The mount effect, then the persisting effect it triggers. `readThrows`
     * says whether reading storage throws.
     */
    method Mount(readThrows: bool)
      modifies this
      ensures Valid()
      ensures currentNetwork == InitialNetwork(if readThrows then ReadThrew else Stored(old(persisted)))
      ensures mounted && isNetworkMismatch == old(isNetworkMismatch)
      ensures persisted == Some(KeyOf(currentNetwork))
    {
      var read := if readThrows then ReadThrew else Stored(persisted);
      currentNetwork := InitialNetwork(read);
      mounted := true;
      persisted := Some(KeyOf(currentNetwork));
    }

    /**
     * `setNetwork(network)`: the parameter is a `NetworkType`, so its registry
     * entry exists and the guard passes. The network is selected, the mismatch
     * flag cleared, and the persisting effect stores it once mounted.
     */
    method SetNetwork(n: NetworkType)
      requires Valid()
      modifies this
      ensures Valid()
      ensures currentNetwork == n && !isNetworkMismatch
      ensures mounted == old(mounted)
      ensures mounted ==> persisted == Some(KeyOf(n))
      ensures !mounted ==> persisted == old(persisted)
    {
      if NetworkFromKey(KeyOf(n)).Some? {
        currentNetwork := n;
        isNetworkMismatch := false;
        if mounted {
          persisted := Some(KeyOf(n));
        }
      } else {
        assert false;
      }
    }

    /** `setNetworkMismatch(b)`: only the flag changes. */
    method SetNetworkMismatch(mismatch: bool)
      requires Valid()
      modifies this`isNetworkMismatch
      ensures Valid()
      ensures isNetworkMismatch == mismatch
      ensures currentNetwork == old(currentNetwork) && persisted == old(persisted)
    {
      isNetworkMismatch := mismatch;
    }

    /** `networkConfig`: the registry entry of the current network. */
    function NetworkConfig(): (c: Networks.NetworkConfig)
      reads this
      ensures c.id == currentNetwork && c.name == KeyOf(currentNetwork)
    {
      Config(currentNetwork)
    }
  }
}
