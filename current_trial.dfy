/** Package current/trial: a structured field {scope} with disable/restore
    through a paired backup key, and an equality reducer. */
module CurrentTrialContext {
  import opened Values
  import opened Container
  import Reduce

  const ValueKey: string := "current-trial"
  const RestoreKey: string := "restore-current-trial"

  /** The zero `Value` a failed read yields. */
  const Zero: Trial := Trial("")

  /** `Value.Equals`: only the scope is compared, which is all a `Value` holds. */
  function Equals(v: Trial, other: Trial): (r: bool)
    ensures r <==> v == other
  {
    v.scope == other.scope
  }

  /** `FromContext`: the stored value and true when the key holds a value of
      this field's type; the zero value and false otherwise. */
  function FromContext(m: map<string, Val>): (r: (Trial, bool))
    ensures r.1 <==> ValueKey in m && m[ValueKey].TrialV?
    ensures r.1 ==> m[ValueKey] == TrialV(r.0)
    ensures !r.1 ==> r.0 == Zero
  {
    match Lookup(m, ValueKey)
    case TrialV(v) => (v, true)
    case _ => (Zero, false)
  }

  /** The backup as `Restore` reads it: zero when absent or of another type. */
  function Backup(m: map<string, Val>): Trial {
    match Lookup(m, RestoreKey)
    case TrialV(v) => v
    case _ => Zero
  }

  /** `IsDisabled`: the primary read fails and the backup read succeeds. */
  predicate IsDisabled(m: map<string, Val>): (r: bool)
    ensures r <==> !(ValueKey in m && m[ValueKey].TrialV?) && RestoreKey in m && m[RestoreKey].TrialV?
  {
    !FromContext(m).1 && Lookup(m, RestoreKey).TrialV?
  }

  /** The storage after `NewContext(ctx, v)`. */
  function Stored(m: map<string, Val>, v: Trial): (r: map<string, Val>)
    ensures FromContext(r) == (v, true)
    ensures forall k :: k != ValueKey ==> AgreeAt(r, m, k)
  {
    m[ValueKey := TrialV(v)]
  }

  /** The storage after `Disable`: the current value (zero if absent) is in
      the backup slot, the primary key is gone, nothing else changes. */
  function Disabled(m: map<string, Val>): (r: map<string, Val>)
    ensures ValueKey !in r && Backup(r) == FromContext(m).0
    ensures forall k :: k != ValueKey && k != RestoreKey ==> AgreeAt(r, m, k)
  {
    m[RestoreKey := TrialV(FromContext(m).0)] - {ValueKey}
  }

  /** The storage after `Restore`: the backup (zero if absent) is back in the
      primary slot and the backup key is gone, nothing else changes. */
  function Restored(m: map<string, Val>): (r: map<string, Val>)
    ensures FromContext(r) == (Backup(m), true) && RestoreKey !in r
    ensures forall k :: k != ValueKey && k != RestoreKey ==> AgreeAt(r, m, k)
  {
    m[ValueKey := TrialV(Backup(m))] - {RestoreKey}
  }

  method NewContext(ctx: Context, val: Trial) returns (r: Context)
    modifies ctx
    ensures r == ctx && ctx.storage == Stored(old(ctx.storage), val)
  {
    ctx.SetValue(ValueKey, TrialV(val));
    return ctx;
  }

  method Disable(ctx: Context) returns (r: Context)
    modifies ctx
    ensures r == ctx && ctx.storage == Disabled(old(ctx.storage))
  {
    var (val, _) := FromContext(ctx.storage);
    ctx.SetValue(RestoreKey, TrialV(val));
    ctx.DeleteValue(ValueKey);
    return ctx;
  }

  method Restore(ctx: Context) returns (r: Context)
    modifies ctx
    ensures r == ctx && ctx.storage == Restored(old(ctx.storage))
  {
    var val := Backup(ctx.storage);
    ctx.SetValue(ValueKey, TrialV(val));
    ctx.DeleteValue(RestoreKey);
    return ctx;
  }

  /** The values the sources carry, zero where a source lacks the field. */
  function Column(ss: seq<map<string, Val>>): (vals: seq<Trial>)
    ensures |vals| == |ss| && forall i :: 0 <= i < |ss| ==> vals[i] == FromContext(ss[i]).0
  {
    seq(|ss|, i requires 0 <= i < |ss| => FromContext(ss[i]).0)
  }

  /** What `NewContextFromContexts` writes, or the error it returns. */
  function Merged(ss: seq<map<string, Val>>): Result<Trial> {
    Reduce.EqualityMerge(Column(ss), Zero)
  }

  /** The loop of `NewContextFromContexts`: the first source's value is the
      reference and every source must equal it; the first mismatch is an
      invalid-execution error. */
  method Reference(ctxs: seq<Context>) returns (r: Result<Trial>)
    ensures r == Merged(Storages(ctxs))
  {
    ghost var vals := Column(Storages(ctxs));
    var reference := Zero;
    for i := 0 to |ctxs|
      invariant reference == if i == 0 then Zero else vals[0]
      invariant forall j :: 0 <= j < i ==> vals[j] == reference
    {
      var (value, _) := FromContext(ctxs[i].storage);
      if i == 0 {
        reference := value;
      }
      if !Equals(value, reference) {
        return Err(InvalidExecution);
      }
    }
    return Ok(reference);
  }

  /** `NewContextFromContexts`: the equality reducer. On a mismatch the target
      is untouched and the error is returned; otherwise the reference value is
      written into the target. */
  method NewContextFromContexts(ctx: Context, ctxs: seq<Context>) returns (r: Result<Context>)
    modifies ctx
    ensures Merged(old(Storages(ctxs))).Err? ==> r == Err(InvalidExecution) && ctx.storage == old(ctx.storage)
    ensures Merged(old(Storages(ctxs))).Ok? ==>
      r == Ok(ctx) && ctx.storage == Stored(old(ctx.storage), Merged(old(Storages(ctxs))).value)
  {
    var reference := Reference(ctxs);
    if reference.Err? {
      return Err(reference.error);
    }
    var c := NewContext(ctx, reference.value);
    return Ok(c);
  }

  // ----- properties -----

  /** A context where the field was never set: absent, zero, not disabled. */
  lemma NeverSet(m: map<string, Val>)
    requires ValueKey !in m && RestoreKey !in m
    ensures FromContext(m) == (Zero, false) && !IsDisabled(m)
  {
  }

  /** After `NewContext` the value reads back, even the zero value, and the
      field is not disabled. */
  lemma StoredReadsBack(m: map<string, Val>, v: Trial)
    ensures FromContext(Stored(m, v)) == (v, true) && !IsDisabled(Stored(m, v))
    ensures FromContext(Stored(m, Zero)) == (Zero, true)
  {
  }

  /** `Disable` hides the field and marks it disabled; `Restore` then brings
      the hidden value back, clears the backup and the disabled state, and no
      other key is touched. A field that was absent comes back as the zero
      value, present. */
  lemma DisableThenRestore(m: map<string, Val>)
    ensures !FromContext(Disabled(m)).1 && IsDisabled(Disabled(m))
    ensures FromContext(Restored(Disabled(m))) == (FromContext(m).0, true)
    ensures !IsDisabled(Restored(Disabled(m))) && RestoreKey !in Restored(Disabled(m))
    ensures forall k :: k != ValueKey && k != RestoreKey ==> AgreeAt(Restored(Disabled(m)), m, k)
  {
  }

  /** Merging when every source equals the first writes the first source's
      value; a mismatch is an invalid-execution error; no sources write zero. */
  lemma MergeOutcome(ss: seq<map<string, Val>>)
    ensures Merged([]) == Ok(Zero)
    ensures Merged(ss).Ok? <==> forall i :: 0 <= i < |ss| ==> FromContext(ss[i]).0 == FromContext(ss[0]).0
    ensures Merged(ss).Ok? && ss != [] ==> Merged(ss).value == FromContext(ss[0]).0
    ensures Merged(ss).Err? ==> Merged(ss).error == InvalidExecution
  {
  }

  /** The reducer reads only this field's key of every source. */
  lemma MergedReadsOwnKey(ss1: seq<map<string, Val>>, ss2: seq<map<string, Val>>)
    requires AllAgreeAt(ss1, ss2, ValueKey)
    ensures Merged(ss1) == Merged(ss2)
  {
    assert Column(ss1) == Column(ss2);
  }

  /** The scenario of `Test_Disable_Restore`, run through the methods. */
  method DisableRestoreScenario() {
    var created := New(DefaultConfig());
    var ctx := created.value;
    var expected := Trial("scope");
    assert !FromContext(ctx.storage).1 && !IsDisabled(ctx.storage);
    ctx := NewContext(ctx, expected);
    assert !IsDisabled(ctx.storage) && FromContext(ctx.storage) == (expected, true);
    ctx := Disable(ctx);
    assert IsDisabled(ctx.storage) && !FromContext(ctx.storage).1;
    ctx := Restore(ctx);
    assert !IsDisabled(ctx.storage) && FromContext(ctx.storage) == (expected, true);
  }

  /** Three fresh contexts, as `testNewContexts` builds them. */
  method NewContexts() returns (ctxs: seq<Context>)
    ensures |ctxs| == 3 && fresh(ctxs[0]) && fresh(ctxs[1]) && fresh(ctxs[2])
    ensures ctxs[0] != ctxs[1] && ctxs[1] != ctxs[2] && ctxs[0] != ctxs[2]
    ensures Storages(ctxs) == [map[], map[], map[]]
  {
    var c0 := New(DefaultConfig());
    var c1 := New(DefaultConfig());
    var c2 := New(DefaultConfig());
    ctxs := [c0.value, c1.value, c2.value];
  }

  /** `Test_NewContextFromContexts`, no source has the field: the target's
      own value is overwritten with the zero value. */
  method MergeNoneScenario() {
    var created := New(DefaultConfig());
    var ctx := created.value;
    ctx := NewContext(ctx, Trial("scope"));
    var ctxs := NewContexts();
    var r := NewContextFromContexts(ctx, ctxs);
    assert r == Ok(ctx) && FromContext(ctx.storage) == (Zero, true);
  }

  /** `Test_NewContextFromContexts`, every source carries the value: the
      target receives it. */
  method MergeAllScenario() {
    var v := Trial("scope");
    var created := New(DefaultConfig());
    var ctx := created.value;
    var ctxs := SourcesCarrying(v);
    assert Merged(Storages(ctxs)) == Ok(v) by {
      assert Column(Storages(ctxs)) == [v, v, v];
    }
    var r := NewContextFromContexts(ctx, ctxs);
    assert r == Ok(ctx) && FromContext(ctx.storage) == (v, true);
  }

  /** Three fresh contexts, each given `v` by `NewContext`. */
  method SourcesCarrying(v: Trial) returns (ctxs: seq<Context>)
    ensures Storages(ctxs) == [Stored(map[], v), Stored(map[], v), Stored(map[], v)]
  {
    var c0 := New(DefaultConfig());
    var d0 := NewContext(c0.value, v);
    var c1 := New(DefaultConfig());
    var d1 := NewContext(c1.value, v);
    var c2 := New(DefaultConfig());
    var d2 := NewContext(c2.value, v);
    ctxs := [d0, d1, d2];
  }

  /** `Test_NewContextFromContexts`, only the first source carries the value:
      an invalid-execution error. */
  method MergeFirstOnlyScenario() {
    var ctxs := NewContexts();
    var c0 := NewContext(ctxs[0], Trial("scope"));
    var created := New(DefaultConfig());
    var ctx := created.value;
    assert Column(Storages(ctxs))[0] != Column(Storages(ctxs))[1];
    var r := NewContextFromContexts(ctx, ctxs);
    assert r == Err(InvalidExecution);
  }
}
