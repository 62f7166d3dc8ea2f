/** Package current/behaviour/input/types: a list-of-strings field. Writing a
    list without elements, nil or not, is a no-op. */
module CurrentBehaviourInputTypes {
  import opened Values
  import opened Container

  const TypesKey: string := "current-behaviour-input-types"

  /** `NewContext`: the storage of the context `context.WithValue` returns,
      or the storage unchanged when the list has no elements. */
  function NewContext(m: map<string, Val>, v: Strings): (r: map<string, Val>)
    ensures v.Len() == 0 ==> r == m
    ensures v.Len() != 0 ==> TypesKey in r && r[TypesKey] == ListV(v)
    ensures forall k :: k != TypesKey ==> AgreeAt(r, m, k)
  {
    if v.Len() == 0 then m else m[TypesKey := ListV(v)]
  }

  /** `FromContext`: the list and true when the key holds a `[]string`; a
      nil list and false otherwise. */
  function FromContext(m: map<string, Val>): (r: (Strings, bool))
    ensures r.1 <==> TypesKey in m && m[TypesKey].ListV?
    ensures r.1 ==> m[TypesKey] == ListV(r.0)
    ensures !r.1 ==> r.0 == Nil
  {
    match Lookup(m, TypesKey)
    case ListV(l) => (l, true)
    case _ => (Nil, false)
  }

  /** A written list reads back unchanged; writing a nil or a non-nil empty
      list leaves the field as it was. */
  lemma ReadBack(m: map<string, Val>, v: Strings)
    ensures v.Len() != 0 ==> FromContext(NewContext(m, v)) == (v, true)
    ensures FromContext(NewContext(m, Nil)) == FromContext(m)
    ensures FromContext(NewContext(m, Slice([]))) == FromContext(m)
  {
  }

  /** A value of another type under the key reads as absent. */
  lemma OtherTypeReadsAbsent(m: map<string, Val>, x: Val)
    requires !x.ListV?
    ensures FromContext(m[TypesKey := x]) == (Nil, false)
  {
  }
}
