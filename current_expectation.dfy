/** Package current/expectation: a field holding a value of the foreign
    `expectation.Expectation` interface, which may be nil, with disable/restore
    through a paired backup key and a nil-aware equality reducer. The foreign
    `Equals` method is the parameter `eq`: `eq(e, ref)` is `e.Equals(ref)`,
    where `ref` may be nil. */
module CurrentExpectationContext {
  import opened Values
  import opened Container

  /** `gopkg.String()`: the package path. */
  const ValueKey: string := "github.com/the-anna-project/context/current/expectation"
  const RestoreKey: string := ValueKey + "/restore"

  /** What storing the interface value puts in the map: a nil interface is
      stored as an untyped nil. */
  function ToVal(v: Option<Expectation>): (r: Val)
    ensures r.ExpV? <==> v.Some?
    ensures v.Some? ==> r == ExpV(v.value)
  {
    match v
    case None => NilV
    case Some(e) => ExpV(e)
  }

  /** `FromContext`: the stored expectation, or nil (`None`) when the key is
      absent, holds nil, or holds a value of another type. */
  function FromContext(m: map<string, Val>): (r: Option<Expectation>)
    ensures r.Some? <==> ValueKey in m && m[ValueKey].ExpV?
    ensures r.Some? ==> m[ValueKey] == ExpV(r.value)
  {
    match Lookup(m, ValueKey)
    case ExpV(e) => Some(e)
    case _ => None
  }

  /** The backup as `Restore` and `IsDisabled` read it. */
  function Backup(m: map<string, Val>): (r: Option<Expectation>)
    ensures r.Some? <==> RestoreKey in m && m[RestoreKey].ExpV?
  {
    match Lookup(m, RestoreKey)
    case ExpV(e) => Some(e)
    case _ => None
  }

  /** `IsDisabled`: the primary read fails and the backup read succeeds. */
  predicate IsDisabled(m: map<string, Val>): (r: bool)
    ensures r <==> !(ValueKey in m && m[ValueKey].ExpV?) && RestoreKey in m && m[RestoreKey].ExpV?
  {
    FromContext(m).None? && Backup(m).Some?
  }

  /** The storage after `NewContext(ctx, v)`: the key is written even for a
      nil expectation. */
  function Stored(m: map<string, Val>, v: Option<Expectation>): (r: map<string, Val>)
    ensures ValueKey in r && r[ValueKey] == ToVal(v) && FromContext(r) == v
    ensures forall k :: k != ValueKey ==> AgreeAt(r, m, k)
  {
    m[ValueKey := ToVal(v)]
  }

  /** The storage after `Disable`: the current read (nil if absent) is in the
      backup slot and the primary key is gone. */
  function Disabled(m: map<string, Val>): (r: map<string, Val>)
    ensures ValueKey !in r && RestoreKey in r && r[RestoreKey] == ToVal(FromContext(m))
    ensures forall k :: k != ValueKey && k != RestoreKey ==> AgreeAt(r, m, k)
  {
    m[RestoreKey := ToVal(FromContext(m))] - {ValueKey}
  }

  /** The storage after `Restore`: the backup read (nil if absent) is in the
      primary slot and the backup key is gone. */
  function Restored(m: map<string, Val>): (r: map<string, Val>)
    ensures ValueKey in r && r[ValueKey] == ToVal(Backup(m)) && RestoreKey !in r
    ensures forall k :: k != ValueKey && k != RestoreKey ==> AgreeAt(r, m, k)
  {
    m[ValueKey := ToVal(Backup(m))] - {RestoreKey}
  }

  method NewContext(ctx: Context, val: Option<Expectation>) returns (r: Context)
    modifies ctx
    ensures r == ctx && ctx.storage == Stored(old(ctx.storage), val)
  {
    ctx.SetValue(ValueKey, ToVal(val));
    return ctx;
  }

  method Disable(ctx: Context) returns (r: Context)
    modifies ctx
    ensures r == ctx && ctx.storage == Disabled(old(ctx.storage))
  {
    var val := FromContext(ctx.storage);
    ctx.SetValue(RestoreKey, ToVal(val));
    ctx.DeleteValue(ValueKey);
    return ctx;
  }

  method Restore(ctx: Context) returns (r: Context)
    modifies ctx
    ensures r == ctx && ctx.storage == Restored(old(ctx.storage))
  {
    var val := Backup(ctx.storage);
    ctx.SetValue(ValueKey, ToVal(val));
    ctx.DeleteValue(RestoreKey);
    return ctx;
  }

  /** The expectations the sources carry, nil where a source lacks one. */
  function Column(ss: seq<map<string, Val>>): (vals: seq<Option<Expectation>>)
    ensures |vals| == |ss| && forall i :: 0 <= i < |ss| ==> vals[i] == FromContext(ss[i])
  {
    seq(|ss|, i requires 0 <= i < |ss| => FromContext(ss[i]))
  }

  /** The per-source test of the merge loop against the reference: a nil
      value passes only against a nil reference, and a non-nil value must
      `Equals` the reference (itself included, for the first source). */
  predicate Agrees(v: Option<Expectation>, reference: Option<Expectation>, eq: EqualsFn) {
    (v.None? ==> reference.None?) && (v.Some? ==> eq(v.value, reference))
  }

  /** What `NewContextFromContexts` writes, or the error it returns: the first
      source's expectation as reference, nil when there are no sources. */
  function Merged(ss: seq<map<string, Val>>, eq: EqualsFn): Result<Option<Expectation>> {
    if ss == [] then Ok(None)
    else if forall i :: 0 <= i < |ss| ==> Agrees(FromContext(ss[i]), FromContext(ss[0]), eq) then Ok(FromContext(ss[0]))
    else Err(InvalidExecution)
  }

  /** The loop of `NewContextFromContexts`. */
  method Reference(ctxs: seq<Context>, eq: EqualsFn) returns (r: Result<Option<Expectation>>)
    ensures r == Merged(Storages(ctxs), eq)
  {
    ghost var vals := Column(Storages(ctxs));
    var reference: Option<Expectation> := None;
    for i := 0 to |ctxs|
      invariant reference == if i == 0 then None else vals[0]
      invariant forall j :: 0 <= j < i ==> Agrees(vals[j], reference, eq)
    {
      var value := FromContext(ctxs[i].storage);
      if i == 0 {
        reference := value;
      }
      if value.None? && reference.Some? {
        return Err(InvalidExecution);
      }
      if value.Some? && !eq(value.value, reference) {
        return Err(InvalidExecution);
      }
    }
    return Ok(reference);
  }

  /** `NewContextFromContexts`: on a mismatch the target is untouched and the
      error is returned; otherwise the reference, nil included, is written. */
  method NewContextFromContexts(ctx: Context, ctxs: seq<Context>, eq: EqualsFn) returns (r: Result<Context>)
    modifies ctx
    ensures Merged(old(Storages(ctxs)), eq).Err? ==> r == Err(InvalidExecution) && ctx.storage == old(ctx.storage)
    ensures Merged(old(Storages(ctxs)), eq).Ok? ==>
      r == Ok(ctx) && ctx.storage == Stored(old(ctx.storage), Merged(old(Storages(ctxs)), eq).value)
  {
    var reference := Reference(ctxs, eq);
    if reference.Err? {
      return Err(reference.error);
    }
    var c := NewContext(ctx, reference.value);
    return Ok(c);
  }

  // ----- properties -----

  /** `Restore` after `Disable` of a present expectation brings it back and
      the field is no longer disabled; no other key changes. */
  lemma DisableThenRestore(m: map<string, Val>)
    requires FromContext(m).Some?
    ensures IsDisabled(Disabled(m)) && FromContext(Disabled(m)).None?
    ensures FromContext(Restored(Disabled(m))) == FromContext(m) && !IsDisabled(Restored(Disabled(m)))
    ensures forall k :: k != ValueKey && k != RestoreKey ==> AgreeAt(Restored(Disabled(m)), m, k)
  {
  }

  /** `Disable` of an absent expectation backs up nil, so the field is not
      disabled, and a following `Restore` stores nil, which reads as absent. */
  lemma DisableAbsent(m: map<string, Val>)
    requires FromContext(m).None?
    ensures Disabled(m)[RestoreKey] == NilV && !IsDisabled(Disabled(m))
    ensures Restored(Disabled(m))[ValueKey] == NilV && FromContext(Restored(Disabled(m))).None?
  {
  }

  /** The merge fails when the first source has an expectation and a later
      one has none. */
  lemma MergeFailsOnMissing(ss: seq<map<string, Val>>, i: int, eq: EqualsFn)
    requires 0 < i < |ss| && FromContext(ss[0]).Some? && FromContext(ss[i]).None?
    ensures Merged(ss, eq) == Err(InvalidExecution)
  {
    assert !Agrees(FromContext(ss[i]), FromContext(ss[0]), eq);
  }

  /** The merge fails when some source's expectation does not `Equals` the
      reference. */
  lemma MergeFailsOnUnequal(ss: seq<map<string, Val>>, i: int, eq: EqualsFn)
    requires 0 <= i < |ss| && FromContext(ss[i]).Some?
    requires !eq(FromContext(ss[i]).value, FromContext(ss[0]))
    ensures Merged(ss, eq) == Err(InvalidExecution)
  {
    assert !Agrees(FromContext(ss[i]), FromContext(ss[0]), eq);
  }

  /** When no source has an expectation the merge succeeds and writes nil,
      which reads back as absent although the key is now present. */
  lemma MergeWithoutExpectations(m: map<string, Val>, ss: seq<map<string, Val>>, eq: EqualsFn)
    requires forall i :: 0 <= i < |ss| ==> FromContext(ss[i]).None?
    ensures Merged(ss, eq) == Ok(None)
    ensures Stored(m, None)[ValueKey] == NilV && FromContext(Stored(m, None)).None?
  {
  }

  /** The merge succeeds exactly when every source agrees with the first, and
      then writes the first source's expectation; it fails only with an
      invalid-execution error. */
  lemma MergeOutcome(ss: seq<map<string, Val>>, eq: EqualsFn)
    requires ss != []
    ensures Merged(ss, eq).Ok? <==> forall i :: 0 <= i < |ss| ==> Agrees(FromContext(ss[i]), FromContext(ss[0]), eq)
    ensures Merged(ss, eq).Ok? ==> Merged(ss, eq).value == FromContext(ss[0])
    ensures Merged(ss, eq).Err? ==> Merged(ss, eq).error == InvalidExecution
  {
  }

  /** The reducer reads only this field's key of every source. */
  lemma MergedReadsOwnKey(ss1: seq<map<string, Val>>, ss2: seq<map<string, Val>>, eq: EqualsFn)
    requires AllAgreeAt(ss1, ss2, ValueKey)
    ensures Merged(ss1, eq) == Merged(ss2, eq)
  {
    assert Column(ss1) == Column(ss2);
    assert forall i :: 0 <= i < |ss1| ==> FromContext(ss1[i]) == Column(ss1)[i];
  }
}
