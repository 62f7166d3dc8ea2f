/** The two merge policies the reducers share: the equality reducer (every
    source must carry the reference value, which is the first source's) and
    the concatenation reducer (the sources' lists appended in source order). */
module Reduce {
  import opened Values

  /** Every value equals the first one. */
  predicate AllEqual<T(==)>(vals: seq<T>) {
    forall i :: 0 <= i < |vals| ==> vals[i] == vals[0]
  }

  /** The equality reducer over the values read from the sources (a source
      without the field contributes the zero value): no sources give the zero
      value; otherwise the first source's value if every source agrees with it,
      and an invalid-execution error if not. */
  function EqualityMerge<T(==)>(vals: seq<T>, zero: T): Result<T> {
    if vals == [] then Ok(zero)
    else if AllEqual(vals) then Ok(vals[0])
    else Err(InvalidExecution)
  }

  /** The merge succeeds exactly when the sources agree pairwise, and never
      fails with another error. */
  lemma EqualityMergeAgreement<T>(vals: seq<T>, zero: T)
    ensures EqualityMerge(vals, zero).Ok? <==> forall i, j :: 0 <= i < |vals| && 0 <= j < |vals| ==> vals[i] == vals[j]
    ensures EqualityMerge(vals, zero).Err? ==> EqualityMerge(vals, zero).error == InvalidExecution
  {
    if !AllEqual(vals) {
      var i :| 0 <= i < |vals| && vals[i] != vals[0];
      assert vals[i] != vals[0];
    }
  }

  /** A successful merge carries the value every source carries (the zero
      value when there are no sources). */
  lemma EqualityMergeValue<T>(vals: seq<T>, zero: T)
    requires EqualityMerge(vals, zero).Ok?
    ensures vals == [] ==> EqualityMerge(vals, zero).value == zero
    ensures forall i :: 0 <= i < |vals| ==> vals[i] == EqualityMerge(vals, zero).value
  {
  }

  /** The lists' elements one after another. */
  function Flatten(lists: seq<Strings>): seq<string> {
    if lists == [] then [] else lists[0].Items() + Flatten(lists[1..])
  }

  lemma {:induction false} FlattenSnoc(lists: seq<Strings>, last: Strings)
    ensures Flatten(lists + [last]) == Flatten(lists) + last.Items()
  {
    if lists == [] {
      assert lists + [last] == [last];
    } else {
      assert (lists + [last])[1..] == lists[1..] + [last];
      FlattenSnoc(lists[1..], last);
    }
  }

  /** The concatenation reducer as the Go loop computes it: start from a nil
      slice and `append` each source's list in turn. */
  function ConcatAll(lists: seq<Strings>): Strings {
    if lists == [] then Nil
    else Append(ConcatAll(lists[..|lists| - 1]), lists[|lists| - 1])
  }

  /** The concatenation holds every source's elements, in source order. */
  lemma {:induction false} ConcatAllItems(lists: seq<Strings>)
    ensures ConcatAll(lists).Items() == Flatten(lists)
  {
    if lists != [] {
      var init, last := lists[..|lists| - 1], lists[|lists| - 1];
      assert lists == init + [last];
      ConcatAllItems(init);
      FlattenSnoc(init, last);
    }
  }

  /** The concatenation stays a nil slice exactly when no source adds an element. */
  lemma {:induction false} ConcatAllNil(lists: seq<Strings>)
    ensures ConcatAll(lists).Nil? <==> NoElements(lists)
  {
    if lists != [] {
      var init := lists[..|lists| - 1];
      ConcatAllNil(init);
      assert forall i :: 0 <= i < |init| ==> init[i] == lists[i];
    }
  }

  /** Concatenating one more list extends the result by that list's elements. */
  lemma ConcatAllSnoc(lists: seq<Strings>, last: Strings)
    ensures ConcatAll(lists + [last]) == Append(ConcatAll(lists), last)
  {
    assert (lists + [last])[..|lists|] == lists;
  }

  lemma {:induction false} FlattenSkipsEmpty(xs: seq<Strings>, e: Strings, ys: seq<Strings>)
    requires e.Len() == 0
    ensures Flatten(xs + [e] + ys) == Flatten(xs + ys)
  {
    if xs == [] {
      assert xs + [e] + ys == [e] + ys && xs + ys == ys;
      assert ([e] + ys)[1..] == ys;
    } else {
      assert (xs + [e] + ys)[1..] == xs[1..] + [e] + ys;
      assert (xs + ys)[1..] == xs[1..] + ys;
      FlattenSkipsEmpty(xs[1..], e, ys);
    }
  }

  /** Two Go slices with the same elements and the same nil-ness are equal. */
  lemma StringsEqual(a: Strings, b: Strings)
    requires a.Items() == b.Items() && a.Nil? == b.Nil?
    ensures a == b
  {
  }

  predicate NoElements(lists: seq<Strings>) {
    forall i :: 0 <= i < |lists| ==> lists[i].Len() == 0
  }

  lemma NoElementsSkip(xs: seq<Strings>, e: Strings, ys: seq<Strings>)
    requires e.Len() == 0
    ensures NoElements(xs + [e] + ys) <==> NoElements(xs + ys)
  {
    var all, rest := xs + [e] + ys, xs + ys;
    if NoElements(rest) {
      forall i | 0 <= i < |all| ensures all[i].Len() == 0 {
        if i < |xs| { assert all[i] == rest[i]; }
        else if i > |xs| { assert all[i] == rest[i - 1]; }
      }
    }
    if NoElements(all) {
      forall i | 0 <= i < |rest| ensures rest[i].Len() == 0 {
        if i < |xs| { assert rest[i] == all[i]; }
        else { assert rest[i] == all[i + 1]; }
      }
    }
  }

  /** A list without elements, wherever it stands, changes nothing in the
      concatenation, not even whether it is nil. */
  lemma ConcatAllSkipsEmpty(xs: seq<Strings>, e: Strings, ys: seq<Strings>)
    requires e.Len() == 0
    ensures ConcatAll(xs + [e] + ys) == ConcatAll(xs + ys)
  {
    var all, rest := xs + [e] + ys, xs + ys;
    FlattenSkipsEmpty(xs, e, ys);
    NoElementsSkip(xs, e, ys);
    ConcatAllItems(all);
    ConcatAllItems(rest);
    ConcatAllNil(all);
    ConcatAllNil(rest);
    StringsEqual(ConcatAll(all), ConcatAll(rest));
  }
}
