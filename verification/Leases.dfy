/** A keyed lock with expiring leases, as Redis keeps it: set-if-absent with a TTL, compare-and-delete. */
module Leases {
  datatype Lease = Lease(token: nat, expires: nat)

  predicate Held<K>(locks: map<K, Lease>, key: K, now: nat) {
    key in locks && now < locks[key].expires
  }

  predicate HeldBy<K>(locks: map<K, Lease>, key: K, token: nat, now: nat) {
    Held(locks, key, now) && locks[key].token == token
  }

  /** SET NX EX: takes the lock unless an unexpired lease is there. */
  function Acquire<K>(locks: map<K, Lease>, key: K, token: nat, now: nat, ttl: nat)
    : (result: (map<K, Lease>, bool))
  {
    if Held(locks, key, now) then (locks, false)
    else (locks[key := Lease(token, now + ttl)], true)
  }

  /** The release script: deletes the lease only while the caller's token is the stored one. */
  function Release<K>(locks: map<K, Lease>, key: K, token: nat, now: nat): (result: (map<K, Lease>, bool)) {
    if HeldBy(locks, key, token, now) then (locks - {key}, true)
    else (locks, false)
  }
}
