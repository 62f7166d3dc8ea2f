/** Package current/source: a structured field {ids, names} with
    disable/restore through a paired backup key, and a concatenation reducer. */
module CurrentSourceContext {
  import opened Values
  import opened Container
  import Reduce

  const ValueKey: string := "current-source"
  const RestoreKey: string := "restore-current-source"

  /** The zero `Value`: both lists nil. */
  const Zero: Source := Source(Nil, Nil)

  /** `Value.Equals`: IDs and names compared as Go slices. */
  function Equals(v: Source, other: Source): (r: bool)
    ensures r <==> v == other
  {
    v.ids == other.ids && v.names == other.names
  }

  /** `FromContext`: the stored value and true when the key holds a value of
      this field's type; the zero value and false otherwise. */
  function FromContext(m: map<string, Val>): (r: (Source, bool))
    ensures r.1 <==> ValueKey in m && m[ValueKey].SourceV?
    ensures r.1 ==> m[ValueKey] == SourceV(r.0)
    ensures !r.1 ==> r.0 == Zero
  {
    match Lookup(m, ValueKey)
    case SourceV(v) => (v, true)
    case _ => (Zero, false)
  }

  /** The backup as `Restore` reads it: zero when absent or of another type. */
  function Backup(m: map<string, Val>): Source {
    match Lookup(m, RestoreKey)
    case SourceV(v) => v
    case _ => Zero
  }

  /** `IsDisabled`: the primary read fails and the backup read succeeds. */
  predicate IsDisabled(m: map<string, Val>): (r: bool)
    ensures r <==> !(ValueKey in m && m[ValueKey].SourceV?) && RestoreKey in m && m[RestoreKey].SourceV?
  {
    !FromContext(m).1 && Lookup(m, RestoreKey).SourceV?
  }

  /** The storage after `NewContext(ctx, v)`. */
  function Stored(m: map<string, Val>, v: Source): (r: map<string, Val>)
    ensures FromContext(r) == (v, true)
    ensures forall k :: k != ValueKey ==> AgreeAt(r, m, k)
  {
    m[ValueKey := SourceV(v)]
  }

  /** The storage after `Disable`. */
  function Disabled(m: map<string, Val>): (r: map<string, Val>)
    ensures ValueKey !in r && Backup(r) == FromContext(m).0
    ensures forall k :: k != ValueKey && k != RestoreKey ==> AgreeAt(r, m, k)
  {
    m[RestoreKey := SourceV(FromContext(m).0)] - {ValueKey}
  }

  /** The storage after `Restore`. */
  function Restored(m: map<string, Val>): (r: map<string, Val>)
    ensures FromContext(r) == (Backup(m), true) && RestoreKey !in r
    ensures forall k :: k != ValueKey && k != RestoreKey ==> AgreeAt(r, m, k)
  {
    m[ValueKey := SourceV(Backup(m))] - {RestoreKey}
  }

  method NewContext(ctx: Context, val: Source) returns (r: Context)
    modifies ctx
    ensures r == ctx && ctx.storage == Stored(old(ctx.storage), val)
  {
    ctx.SetValue(ValueKey, SourceV(val));
    return ctx;
  }

  method Disable(ctx: Context) returns (r: Context)
    modifies ctx
    ensures r == ctx && ctx.storage == Disabled(old(ctx.storage))
  {
    var (val, _) := FromContext(ctx.storage);
    ctx.SetValue(RestoreKey, SourceV(val));
    ctx.DeleteValue(ValueKey);
    return ctx;
  }

  method Restore(ctx: Context) returns (r: Context)
    modifies ctx
    ensures r == ctx && ctx.storage == Restored(old(ctx.storage))
  {
    var val := Backup(ctx.storage);
    ctx.SetValue(ValueKey, SourceV(val));
    ctx.DeleteValue(RestoreKey);
    return ctx;
  }

  /** Which of the two lists of a `Value` a loop collects. */
  datatype Part = Ids | Names

  function PartOf(v: Source, part: Part): Strings {
    match part
    case Ids => v.ids
    case Names => v.names
  }

  /** The chosen list of every source (nil where a source lacks the field). */
  function Column(ss: seq<map<string, Val>>, part: Part): (lists: seq<Strings>)
    ensures |lists| == |ss| && forall i :: 0 <= i < |ss| ==> lists[i] == PartOf(FromContext(ss[i]).0, part)
  {
    seq(|ss|, i requires 0 <= i < |ss| => PartOf(FromContext(ss[i]).0, part))
  }

  /** What `NewContextFromContexts` writes. */
  function Merged(ss: seq<map<string, Val>>): Source {
    Source(Reduce.ConcatAll(Column(ss, Ids)), Reduce.ConcatAll(Column(ss, Names)))
  }

  /** One accumulation loop of `NewContextFromContexts`: starting from a nil
      slice, append the chosen list of every source in order. */
  method Gather(ctxs: seq<Context>, part: Part) returns (all: Strings)
    ensures all == Reduce.ConcatAll(Column(Storages(ctxs), part))
  {
    ghost var lists := Column(Storages(ctxs), part);
    all := Nil;
    for i := 0 to |ctxs|
      invariant all == Reduce.ConcatAll(lists[..i])
    {
      var (v, _) := FromContext(ctxs[i].storage);
      assert lists[..i + 1] == lists[..i] + [PartOf(v, part)];
      Reduce.ConcatAllSnoc(lists[..i], PartOf(v, part));
      all := Append(all, PartOf(v, part));
    }
    assert lists[..|ctxs|] == lists;
  }

  /** `NewContextFromContexts`: the concatenation reducer. It never fails and
      overwrites the target with the sources' IDs and names appended. */
  method NewContextFromContexts(ctx: Context, ctxs: seq<Context>) returns (r: Result<Context>)
    modifies ctx
    ensures r == Ok(ctx) && ctx.storage == Stored(old(ctx.storage), Merged(old(Storages(ctxs))))
  {
    var allIDs := Gather(ctxs, Ids);
    var allNames := Gather(ctxs, Names);
    var c := NewContext(ctx, Source(allIDs, allNames));
    return Ok(c);
  }

  // ----- properties -----

  /** After `Disable` the field is hidden and disabled; `Restore` brings the
      original value back and the field is no longer disabled. */
  lemma DisableThenRestore(m: map<string, Val>)
    ensures !FromContext(Disabled(m)).1 && IsDisabled(Disabled(m))
    ensures FromContext(Restored(Disabled(m))) == (FromContext(m).0, true)
    ensures !IsDisabled(Restored(Disabled(m))) && RestoreKey !in Restored(Disabled(m))
    ensures forall k :: k != ValueKey && k != RestoreKey ==> AgreeAt(Restored(Disabled(m)), m, k)
  {
  }

  /** The merged IDs and names are the sources' lists one after another, in
      source order, whatever the target held before. */
  lemma MergeConcatenates(m: map<string, Val>, ss: seq<map<string, Val>>)
    ensures Merged(ss).ids.Items() == Reduce.Flatten(Column(ss, Ids))
    ensures Merged(ss).names.Items() == Reduce.Flatten(Column(ss, Names))
    ensures FromContext(Stored(m, Merged(ss))) == (Merged(ss), true)
  {
    Reduce.ConcatAllItems(Column(ss, Ids));
    Reduce.ConcatAllItems(Column(ss, Names));
  }

  /** A source without the field (its zero value has nil lists) contributes
      nothing to the merge, wherever it stands among the sources. */
  lemma AbsentSourceContributesNothing(ss1: seq<map<string, Val>>, s: map<string, Val>, ss2: seq<map<string, Val>>)
    requires !FromContext(s).1
    ensures Merged(ss1 + [s] + ss2) == Merged(ss1 + ss2)
  {
    forall part: Part
      ensures Reduce.ConcatAll(Column(ss1 + [s] + ss2, part)) == Reduce.ConcatAll(Column(ss1 + ss2, part))
    {
      var c1, c2 := Column(ss1, part), Column(ss2, part);
      ColumnsSplit(ss1 + [s], ss2, part);
      ColumnsSplit(ss1, [s], part);
      ColumnsSplit(ss1, ss2, part);
      assert Column([s], part) == [Nil];
      assert Column(ss1 + [s] + ss2, part) == c1 + [Nil] + c2;
      Reduce.ConcatAllSkipsEmpty(c1, Nil, c2);
    }
    assert Merged(ss1 + [s] + ss2).ids == Merged(ss1 + ss2).ids;
  }

  lemma ColumnsSplit(ss1: seq<map<string, Val>>, ss2: seq<map<string, Val>>, part: Part)
    ensures Column(ss1 + ss2, part) == Column(ss1, part) + Column(ss2, part)
  {
  }

  /** The reducer reads only this field's key of every source. */
  lemma MergedReadsOwnKey(ss1: seq<map<string, Val>>, ss2: seq<map<string, Val>>)
    requires AllAgreeAt(ss1, ss2, ValueKey)
    ensures Merged(ss1) == Merged(ss2)
  {
    assert Column(ss1, Ids) == Column(ss2, Ids);
    assert Column(ss1, Names) == Column(ss2, Names);
  }
}
