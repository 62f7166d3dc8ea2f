/** Package source/ids: a list-of-strings field. Only a nil list is a no-op;
    a non-nil empty list is stored. */
module SourceIds {
  import opened Values
  import opened Container

  const IdsKey: string := "source-ids"

  /** `NewContext`: the storage of the context `context.WithValue` returns,
      or the storage unchanged when the list is nil. */
  function NewContext(m: map<string, Val>, v: Strings): (r: map<string, Val>)
    ensures v.Nil? ==> r == m
    ensures !v.Nil? ==> IdsKey in r && r[IdsKey] == ListV(v)
    ensures forall k :: k != IdsKey ==> AgreeAt(r, m, k)
  {
    if v.Nil? then m else m[IdsKey := ListV(v)]
  }

  /** `FromContext`: the list and true when the key holds a `[]string`; a
      nil list and false otherwise. */
  function FromContext(m: map<string, Val>): (r: (Strings, bool))
    ensures r.1 <==> IdsKey in m && m[IdsKey].ListV?
    ensures r.1 ==> m[IdsKey] == ListV(r.0)
    ensures !r.1 ==> r.0 == Nil
  {
    match Lookup(m, IdsKey)
    case ListV(l) => (l, true)
    case _ => (Nil, false)
  }

  /** A non-nil list, even an empty one, reads back present; a nil write
      leaves the field as it was. */
  lemma ReadBack(m: map<string, Val>, v: Strings)
    ensures !v.Nil? ==> FromContext(NewContext(m, v)) == (v, true)
    ensures FromContext(NewContext(m, Slice([]))) == (Slice([]), true)
    ensures FromContext(NewContext(m, Nil)) == FromContext(m)
  {
  }

  /** A value of another type under the key reads as absent. */
  lemma OtherTypeReadsAbsent(m: map<string, Val>, x: Val)
    requires !x.ListV?
    ensures FromContext(m[IdsKey := x]) == (Nil, false)
  {
  }
}
