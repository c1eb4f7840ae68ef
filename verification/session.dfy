/**
 * Browser-session state shared by the Voting panel and the Balance display:
 * the connected wallet address and the session store that keeps, per address,
 * the "donation-equivalent" credit from which both components derive an ANJ
 * balance.  The store holds numbers directly (string conversion is not modelled).
 */
module Session {
  import opened Wrappers

  /** The fixed prefix of every store key; the address is appended to it. */
  const KeyPrefix: string := "anjali-dao-donation-"

  /** ANJ tokens per unit of stored donation-equivalent credit. */
  const AnjPerCredit: real := 5.0

  /** The store key under which the credit of `address` is kept. */
  function StorageKey(address: string): (key: string)
    ensures |key| == |KeyPrefix| + |address|
    ensures key[..|KeyPrefix|] == KeyPrefix && key[|KeyPrefix|..] == address
  {
    KeyPrefix + address
  }

  /** Distinct addresses never share a store entry. */
  lemma StorageKeyInjective(a: string, b: string)
    ensures StorageKey(a) == StorageKey(b) <==> a == b
  {
    if StorageKey(a) == StorageKey(b) {
      calc {
        a;
        StorageKey(a)[|KeyPrefix|..];
        StorageKey(b)[|KeyPrefix|..];
        b;
      }
    }
  }

  /**
   * `if (activeAddress)` in the components: a wallet is connected and its
   * address is a non-empty string (the empty string is falsy in JavaScript).
   */
  predicate IsActive(activeAddress: Option<string>)
  {
    activeAddress.Some? && activeAddress.value != ""
  }

  /** Every stored credit is non-negative. */
  ghost predicate NonNegative(entries: map<string, real>)
  {
    forall k :: k in entries ==> entries[k] >= 0.0
  }

  /** The page's session storage: one numeric entry per key. */
  class SessionStore {
    var entries: map<string, real>

    /** A new browser session starts with an empty store. */
    constructor ()
      ensures entries == map[]
    {
      entries := map[];
    }

    /** `sessionStorage.getItem`: the stored value, or None when the key is absent. */
    function GetItem(key: string): (v: Option<real>)
      reads this
      ensures v.Some? <==> key in entries
      ensures v.Some? ==> v.value == entries[key]
    {
      if key in entries then Some(entries[key]) else None
    }

    /** `sessionStorage.setItem`: overwrites one key and leaves every other key as it was. */
    method SetItem(key: string, value: real)
      modifies this
      ensures entries == old(entries)[key := value]
    {
      entries := entries[key := value];
    }
  }
}
