/** Package expectation: a field holding a value of the foreign
    `expectation.Expectation` interface. Writing a nil expectation is a no-op. */
module ExpectationField {
  import opened Values
  import opened Container

  const ExpectationKey: string := "expectation"

  /** `NewContext`: the storage of the context `context.WithValue` returns,
      or the storage unchanged when the expectation is nil. */
  function NewContext(m: map<string, Val>, v: Option<Expectation>): (r: map<string, Val>)
    ensures v.None? ==> r == m
    ensures v.Some? ==> ExpectationKey in r && r[ExpectationKey] == ExpV(v.value)
    ensures forall k :: k != ExpectationKey ==> AgreeAt(r, m, k)
  {
    match v
    case None => m
    case Some(e) => m[ExpectationKey := ExpV(e)]
  }

  /** `FromContext`: the expectation when the key holds one, nil otherwise. */
  function FromContext(m: map<string, Val>): (r: Option<Expectation>)
    ensures r.Some? <==> ExpectationKey in m && m[ExpectationKey].ExpV?
    ensures r.Some? ==> m[ExpectationKey] == ExpV(r.value)
  {
    match Lookup(m, ExpectationKey)
    case ExpV(e) => Some(e)
    case _ => None
  }

  /** A written expectation reads back; a nil write changes nothing. */
  lemma ReadBack(m: map<string, Val>, v: Option<Expectation>)
    ensures v.Some? ==> FromContext(NewContext(m, v)) == v
    ensures NewContext(m, None) == m
  {
  }

  /** A value of another type under the key reads as absent. */
  lemma OtherTypeReadsAbsent(m: map<string, Val>, x: Val)
    requires !x.ExpV?
    ensures FromContext(m[ExpectationKey := x]).None?
  {
  }
}
