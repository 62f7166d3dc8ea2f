/** Package current/destination: a structured field {id, name} with
    disable/restore through a paired backup key, and an equality reducer. The
    Go code uses the `Create`/`Search`/`Delete` spelling of the container's
    operations, which are the same map operations as `SetValue`/`Value`/`DeleteValue`. */
module CurrentDestinationContext {
  import opened Values
  import opened Container
  import Reduce

  /** `gopkg.String()`: the package path. */
  const ValueKey: string := "github.com/the-anna-project/context/current/destination"
  const RestoreKey: string := ValueKey + "/restore"

  /** The zero `Value` a failed read yields. */
  const Zero: Destination := Destination("", "")

  /** `Value.Equals`: ID and name both match, which is exactly structural equality. */
  function Equals(v: Destination, other: Destination): (r: bool)
    ensures r <==> v == other
  {
    v.id == other.id && v.name == other.name
  }

  /** `FromContext`: the stored value and true when the key holds a value of
      this field's type; the zero value and false otherwise. */
  function FromContext(m: map<string, Val>): (r: (Destination, bool))
    ensures r.1 <==> ValueKey in m && m[ValueKey].DestinationV?
    ensures r.1 ==> m[ValueKey] == DestinationV(r.0)
    ensures !r.1 ==> r.0 == Zero
  {
    match Lookup(m, ValueKey)
    case DestinationV(v) => (v, true)
    case _ => (Zero, false)
  }

  /** The backup as `Restore` reads it: zero when absent or of another type. */
  function Backup(m: map<string, Val>): Destination {
    match Lookup(m, RestoreKey)
    case DestinationV(v) => v
    case _ => Zero
  }

  /** `IsDisabled`: the primary read fails and the backup read succeeds. */
  predicate IsDisabled(m: map<string, Val>): (r: bool)
    ensures r <==> !(ValueKey in m && m[ValueKey].DestinationV?) && RestoreKey in m && m[RestoreKey].DestinationV?
  {
    !FromContext(m).1 && Lookup(m, RestoreKey).DestinationV?
  }

  /** The storage after `NewContext(ctx, v)`. */
  function Stored(m: map<string, Val>, v: Destination): (r: map<string, Val>)
    ensures FromContext(r) == (v, true)
    ensures forall k :: k != ValueKey ==> AgreeAt(r, m, k)
  {
    m[ValueKey := DestinationV(v)]
  }

  /** The storage after `Disable`: the current value (zero if absent) is in
      the backup slot, the primary key is gone, nothing else changes. */
  function Disabled(m: map<string, Val>): (r: map<string, Val>)
    ensures ValueKey !in r && Backup(r) == FromContext(m).0
    ensures forall k :: k != ValueKey && k != RestoreKey ==> AgreeAt(r, m, k)
  {
    m[RestoreKey := DestinationV(FromContext(m).0)] - {ValueKey}
  }

  /** The storage after `Restore`: the backup (zero if absent) is back in the
      primary slot and the backup key is gone, nothing else changes. */
  function Restored(m: map<string, Val>): (r: map<string, Val>)
    ensures FromContext(r) == (Backup(m), true) && RestoreKey !in r
    ensures forall k :: k != ValueKey && k != RestoreKey ==> AgreeAt(r, m, k)
  {
    m[ValueKey := DestinationV(Backup(m))] - {RestoreKey}
  }

  method NewContext(ctx: Context, val: Destination) returns (r: Context)
    modifies ctx
    ensures r == ctx && ctx.storage == Stored(old(ctx.storage), val)
  {
    ctx.SetValue(ValueKey, DestinationV(val));
    return ctx;
  }

  method Disable(ctx: Context) returns (r: Context)
    modifies ctx
    ensures r == ctx && ctx.storage == Disabled(old(ctx.storage))
  {
    var (val, _) := FromContext(ctx.storage);
    ctx.SetValue(RestoreKey, DestinationV(val));
    ctx.DeleteValue(ValueKey);
    return ctx;
  }

  method Restore(ctx: Context) returns (r: Context)
    modifies ctx
    ensures r == ctx && ctx.storage == Restored(old(ctx.storage))
  {
    var val := Backup(ctx.storage);
    ctx.SetValue(ValueKey, DestinationV(val));
    ctx.DeleteValue(RestoreKey);
    return ctx;
  }

  /** The values the sources carry, zero where a source lacks the field. */
  function Column(ss: seq<map<string, Val>>): (vals: seq<Destination>)
    ensures |vals| == |ss| && forall i :: 0 <= i < |ss| ==> vals[i] == FromContext(ss[i]).0
  {
    seq(|ss|, i requires 0 <= i < |ss| => FromContext(ss[i]).0)
  }

  /** What `NewContextFromContexts` writes, or the error it returns. */
  function Merged(ss: seq<map<string, Val>>): Result<Destination> {
    Reduce.EqualityMerge(Column(ss), Zero)
  }

  /** The loop of `NewContextFromContexts`: the first source's value is the
      reference and every source must equal it; the first mismatch is an
      invalid-execution error. */
  method Reference(ctxs: seq<Context>) returns (r: Result<Destination>)
    ensures r == Merged(Storages(ctxs))
  {
    ghost var vals := Column(Storages(ctxs));
    var reference := Zero;
    for i := 0 to |ctxs|
      invariant reference == if i == 0 then Zero else vals[0]
      invariant forall j :: 0 <= j < i ==> vals[j] == reference
    {
      var (value, _) := FromContext(ctxs[i].storage);
      if i == 0 {
        reference := value;
      }
      if !Equals(value, reference) {
        return Err(InvalidExecution);
      }
    }
    return Ok(reference);
  }

  /** `NewContextFromContexts`: the equality reducer. On a mismatch the target
      is untouched and the error is returned; otherwise the reference value is
      written into the target. */
  method NewContextFromContexts(ctx: Context, ctxs: seq<Context>) returns (r: Result<Context>)
    modifies ctx
    ensures Merged(old(Storages(ctxs))).Err? ==> r == Err(InvalidExecution) && ctx.storage == old(ctx.storage)
    ensures Merged(old(Storages(ctxs))).Ok? ==>
      r == Ok(ctx) && ctx.storage == Stored(old(ctx.storage), Merged(old(Storages(ctxs))).value)
  {
    var reference := Reference(ctxs);
    if reference.Err? {
      return Err(reference.error);
    }
    var c := NewContext(ctx, reference.value);
    return Ok(c);
  }

  // ----- properties -----

  /** A context where the field was never set: absent, zero, not disabled. */
  lemma NeverSet(m: map<string, Val>)
    requires ValueKey !in m && RestoreKey !in m
    ensures FromContext(m) == (Zero, false) && !IsDisabled(m)
  {
  }

  /** After `NewContext` the value reads back, even the zero value, and the
      field is not disabled. */
  lemma StoredReadsBack(m: map<string, Val>, v: Destination)
    ensures FromContext(Stored(m, v)) == (v, true) && !IsDisabled(Stored(m, v))
    ensures FromContext(Stored(m, Zero)) == (Zero, true)
  {
  }

  /** `Disable` hides the field and marks it disabled; `Restore` then brings
      the hidden value back, clears the backup and the disabled state, and no
      other key is touched. A field that was absent comes back as the zero
      value, present. */
  lemma DisableThenRestore(m: map<string, Val>)
    ensures !FromContext(Disabled(m)).1 && IsDisabled(Disabled(m))
    ensures FromContext(Restored(Disabled(m))) == (FromContext(m).0, true)
    ensures !IsDisabled(Restored(Disabled(m))) && RestoreKey !in Restored(Disabled(m))
    ensures forall k :: k != ValueKey && k != RestoreKey ==> AgreeAt(Restored(Disabled(m)), m, k)
  {
  }

  /** Merging when every source equals the first writes the first source's
      value; a mismatch is an invalid-execution error; no sources write zero. */
  lemma MergeOutcome(ss: seq<map<string, Val>>)
    ensures Merged([]) == Ok(Zero)
    ensures Merged(ss).Ok? <==> forall i :: 0 <= i < |ss| ==> FromContext(ss[i]).0 == FromContext(ss[0]).0
    ensures Merged(ss).Ok? && ss != [] ==> Merged(ss).value == FromContext(ss[0]).0
    ensures Merged(ss).Err? ==> Merged(ss).error == InvalidExecution
  {
  }

  /** The reducer reads only this field's key of every source. */
  lemma MergedReadsOwnKey(ss1: seq<map<string, Val>>, ss2: seq<map<string, Val>>)
    requires AllAgreeAt(ss1, ss2, ValueKey)
    ensures Merged(ss1) == Merged(ss2)
  {
    assert Column(ss1) == Column(ss2);
  }

  /** The backup key is the primary key with "/restore" appended, so backing
      up never overwrites the primary slot. */
  lemma BackupKeyDistinct()
    ensures RestoreKey == ValueKey + "/restore" && RestoreKey != ValueKey
  {
    assert |RestoreKey| == |ValueKey| + 8;
  }
}
