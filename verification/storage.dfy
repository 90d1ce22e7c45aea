/** The device's key-value store (`AsyncStorage`) and the key the session token lives under. */
module Storage {
  import opened Wrappers

  /** hooks/useAuth.ts names it `TOKEN_KEY`; app/login.tsx and services/api.ts spell the same literal. */
  const TokenKey: string := "token"

  type Store = map<string, string>

  /** Whether one store call settles normally or throws. A call that throws leaves the store as it was. */
  datatype IoOutcome = Completes | Throws

  /** `getItem(key)`, resolved: `null` when the key is absent. */
  function Get(store: Store, key: string): Option<string> {
    if key in store then Some(store[key]) else None
  }

  /** `setItem(key, value)` that settled with `io`. */
  function Set(store: Store, key: string, value: string, io: IoOutcome): (s: Store)
    ensures io.Completes? ==> Get(s, key) == Some(value)
    ensures io.Throws? ==> s == store
    ensures forall k | k != key :: Get(s, k) == Get(store, k)
  {
    if io.Completes? then store[key := value] else store
  }

  /** `removeItem(key)` that settled with `io`. */
  function Remove(store: Store, key: string, io: IoOutcome): (s: Store)
    ensures io.Completes? ==> Get(s, key) == None
    ensures io.Throws? ==> s == store
    ensures forall k | k != key :: Get(s, k) == Get(store, k)
  {
    if io.Completes? then store - {key} else store
  }
}
