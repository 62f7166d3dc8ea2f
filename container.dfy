/** The marshallable context of context.go: a string-keyed store wrapped around
    a native Go context that supplies deadline and cancellation. */
module Container {
  import opened Values

  /** The native context a Config supplies; only its identity matters here. */
  datatype Signal = Background | Derived(parent: nat)

  /** `Config`: its one setting is the native context, which may be nil. */
  datatype Config = Config(context: Option<Signal>)

  /** `DefaultConfig`: the background native context. */
  function DefaultConfig(): (c: Config)
    ensures c.context.Some?
  {
    Config(Some(Background))
  }

  /** The value a read of `key` yields: the stored value, or nil. */
  function Lookup(m: map<string, Val>, key: string): Val {
    if key in m then m[key] else NilV
  }

  class Context {
    var storage: map<string, Val>
    const context: Signal

    constructor (signal: Signal)
      ensures storage == map[] && context == signal
    {
      storage := map[];
      context := signal;
    }

    /** `SetValue`: stores `value` under `key`, replacing what was there. */
    method SetValue(key: string, value: Val)
      modifies this
      ensures storage == old(storage)[key := value]
      ensures Value(key) == value
      ensures forall k :: k != key ==> Value(k) == old(Value(k))
    {
      storage := storage[key := value];
    }

    /** `DeleteValue` (spec.go): removes `key`; deleting an absent key changes nothing. */
    method DeleteValue(key: string)
      modifies this
      ensures storage == old(storage) - {key}
      ensures Value(key) == NilV
      ensures forall k :: k != key ==> Value(k) == old(Value(k))
    {
      storage := storage - {key};
    }

    /** `Value`: the stored value, or nil when the key was never set. */
    function Value(key: string): (v: Val)
      reads this
      ensures key !in storage ==> v == NilV
      ensures key in storage ==> v == storage[key]
    {
      Lookup(storage, key)
    }
  }

  /** `New`: a nil native context is an invalid configuration; otherwise a
      context with empty storage around the given native context. */
  method New(config: Config) returns (r: Result<Context>)
    ensures config.context.None? <==> r.Err?
    ensures r.Err? ==> r.error == InvalidConfig
    ensures r.Ok? ==> fresh(r.value) && r.value.storage == map[] && r.value.context == config.context.value
  {
    if config.context.None? {
      return Err(InvalidConfig);
    }
    var c := new Context(config.context.value);
    return Ok(c);
  }

  /** The storages of a list of contexts, in order. */
  function Storages(ctxs: seq<Context>): (ss: seq<map<string, Val>>)
    reads ctxs
    ensures |ss| == |ctxs|
    ensures forall i :: 0 <= i < |ctxs| ==> ss[i] == ctxs[i].storage
  {
    if ctxs == [] then [] else [ctxs[0].storage] + Storages(ctxs[1..])
  }

  /** Two storages agree at `key`: both lack it, or both hold the same value. */
  predicate AgreeAt(m1: map<string, Val>, m2: map<string, Val>, key: string) {
    (key in m1 <==> key in m2) && (key in m1 ==> m1[key] == m2[key])
  }

  /** Two lists of storages agree at `key`, element by element. */
  predicate AllAgreeAt(ss1: seq<map<string, Val>>, ss2: seq<map<string, Val>>, key: string) {
    |ss1| == |ss2| && forall i :: 0 <= i < |ss1| ==> AgreeAt(ss1[i], ss2[i], key)
  }
}
