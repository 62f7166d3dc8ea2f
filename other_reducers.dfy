/** The reducers merge/merge.go chains whose packages (current/behaviour,
    current/session, current/stage, first/information) are not part of this
    model. Each is taken to follow current/trial: a structured value under its
    own key and an equality reducer with the first source as reference. Their
    values are opaque records; only equality on them matters. */
module OtherReducers {
  import opened Values
  import opened Container
  import Reduce

  const CurrentBehaviourKey: string := "current-behaviour"
  const CurrentSessionKey: string := "current-session"
  const CurrentStageKey: string := "current-stage"
  const FirstInformationKey: string := "first-information"

  /** The zero value a failed read yields. */
  const Zero: Record := Record([])

  /** `FromContext` of the field under `key`. */
  function FromContext(m: map<string, Val>, key: string): (r: (Record, bool))
    ensures r.1 <==> key in m && m[key].RecordV?
    ensures r.1 ==> m[key] == RecordV(r.0)
    ensures !r.1 ==> r.0 == Zero
  {
    match Lookup(m, key)
    case RecordV(v) => (v, true)
    case _ => (Zero, false)
  }

  /** The storage after `NewContext(ctx, v)` of the field under `key`. */
  function Stored(m: map<string, Val>, key: string, v: Record): (r: map<string, Val>)
    ensures FromContext(r, key) == (v, true)
    ensures forall k :: k != key ==> AgreeAt(r, m, k)
  {
    m[key := RecordV(v)]
  }

  method NewContext(ctx: Context, key: string, v: Record) returns (r: Context)
    modifies ctx
    ensures r == ctx && ctx.storage == Stored(old(ctx.storage), key, v)
  {
    ctx.SetValue(key, RecordV(v));
    return ctx;
  }

  function Column(ss: seq<map<string, Val>>, key: string): (vals: seq<Record>)
    ensures |vals| == |ss| && forall i :: 0 <= i < |ss| ==> vals[i] == FromContext(ss[i], key).0
  {
    seq(|ss|, i requires 0 <= i < |ss| => FromContext(ss[i], key).0)
  }

  /** What the reducer of the field under `key` writes, or its error. */
  function Merged(ss: seq<map<string, Val>>, key: string): Result<Record> {
    Reduce.EqualityMerge(Column(ss, key), Zero)
  }

  /** The reference loop of the reducer. */
  method Reference(ctxs: seq<Context>, key: string) returns (r: Result<Record>)
    ensures r == Merged(Storages(ctxs), key)
  {
    ghost var vals := Column(Storages(ctxs), key);
    var reference := Zero;
    for i := 0 to |ctxs|
      invariant reference == if i == 0 then Zero else vals[0]
      invariant forall j :: 0 <= j < i ==> vals[j] == reference
    {
      var (value, _) := FromContext(ctxs[i].storage, key);
      if i == 0 {
        reference := value;
      }
      if value != reference {
        return Err(InvalidExecution);
      }
    }
    return Ok(reference);
  }

  /** `NewContextFromContexts` of the field under `key`. */
  method NewContextFromContexts(ctx: Context, ctxs: seq<Context>, key: string) returns (r: Result<Context>)
    modifies ctx
    ensures Merged(old(Storages(ctxs)), key).Err? ==> r == Err(InvalidExecution) && ctx.storage == old(ctx.storage)
    ensures Merged(old(Storages(ctxs)), key).Ok? ==>
      r == Ok(ctx) && ctx.storage == Stored(old(ctx.storage), key, Merged(old(Storages(ctxs)), key).value)
  {
    var reference := Reference(ctxs, key);
    if reference.Err? {
      return Err(reference.error);
    }
    var c := NewContext(ctx, key, reference.value);
    return Ok(c);
  }

  /** The reducer reads only its own key of every source. */
  lemma MergedReadsOwnKey(ss1: seq<map<string, Val>>, ss2: seq<map<string, Val>>, key: string)
    requires AllAgreeAt(ss1, ss2, key)
    ensures Merged(ss1, key) == Merged(ss2, key)
  {
    assert Column(ss1, key) == Column(ss2, key);
  }
}
