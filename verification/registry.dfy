/** What the decorator registries have in common: opaque handlers and the
    single-key map update every registration performs. */
module Registry {

  /** A decorated coroutine function, known only by identity. */
  datatype Handler = Handler(id: nat)

  /** `after` is `before` with `key` bound to `value` and every other key unchanged. */
  ghost predicate Stores<K, V>(before: map<K, V>, after: map<K, V>, key: K, value: V) {
    && after.Keys == before.Keys + {key}
    && after[key] == value
    && forall k :: k in before && k != key ==> after[k] == before[k]
  }

  /** What a decorator hands back: the updated registry and the function it returns. */
  datatype Decorated<S> = Decorated(state: S, func: Handler)
}
