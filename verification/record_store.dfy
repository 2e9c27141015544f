/** The per-user transaction list in device storage, modelled as a map from storage key to the
    already-parsed list of records. */
module RecordStore {
  import opened Finance

  type Storage = map<string, seq<Transaction>>

  /** The namespace every user's storage key starts with. */
  const KeyPrefix: string := "@gofinances:transactions_user:"

  /** The storage key under which a user's transactions are kept. */
  function DataKey(userId: string): (key: string)
    ensures |key| == |KeyPrefix| + |userId|
    ensures key[..|KeyPrefix|] == KeyPrefix && key[|KeyPrefix|..] == userId
  {
    KeyPrefix + userId
  }

  /** Distinct users have distinct keys, so one user's list is never read or written for another. */
  lemma DataKeyInjective(u: string, v: string)
    requires DataKey(u) == DataKey(v)
    ensures u == v
  {
  }

  /** The user's stored list; a missing key reads as the empty list. */
  function Load(storage: Storage, userId: string): (records: seq<Transaction>)
    ensures DataKey(userId) !in storage ==> records == []
    ensures DataKey(userId) in storage ==> records == storage[DataKey(userId)]
  {
    var dataKey := DataKey(userId);
    if dataKey in storage then storage[dataKey] else []
  }

  /** The storage after writing the user's current list with `t` added at its end. */
  function Append(storage: Storage, userId: string, t: Transaction): (after: Storage)
    ensures DataKey(userId) in after
    ensures after.Keys == storage.Keys + {DataKey(userId)}
    ensures forall k :: k in storage && k != DataKey(userId) ==> k in after && after[k] == storage[k]
  {
    var dataKey := DataKey(userId);
    var currentData := Load(storage, userId);
    storage[dataKey := currentData + [t]]
  }

  /** Appending keeps every earlier record, in order, and puts the new one last. */
  lemma AppendExtends(storage: Storage, userId: string, t: Transaction)
    ensures var before := Load(storage, userId);
            var after := Load(Append(storage, userId, t), userId);
            |after| == |before| + 1 && after[..|before|] == before && after[|before|] == t
  {
  }

  /** Appending for one user leaves every other user's list as it was. */
  lemma AppendIsolated(storage: Storage, userId: string, other: string, t: Transaction)
    requires other != userId
    ensures Load(Append(storage, userId, t), other) == Load(storage, other)
  {
  }
}
