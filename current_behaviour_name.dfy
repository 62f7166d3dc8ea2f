/** Package current/behaviour/name: a plain string field. Writing the empty
    string is a no-op, so an empty name never becomes present. */
module CurrentBehaviourName {
  import opened Values
  import opened Container

  const NameKey: string := "current-behaviour-name"

  /** `NewContext`: the storage of the context `context.WithValue` returns,
      or the storage unchanged when the name is empty. */
  function NewContext(m: map<string, Val>, v: string): (r: map<string, Val>)
    ensures v == "" ==> r == m
    ensures v != "" ==> NameKey in r && r[NameKey] == StrV(v)
    ensures forall k :: k != NameKey ==> AgreeAt(r, m, k)
  {
    if v == "" then m else m[NameKey := StrV(v)]
  }

  /** `FromContext`: the name and true when the key holds a string; the
      empty string and false otherwise. */
  function FromContext(m: map<string, Val>): (r: (string, bool))
    ensures r.1 <==> NameKey in m && m[NameKey].StrV?
    ensures r.1 ==> m[NameKey] == StrV(r.0)
    ensures !r.1 ==> r.0 == ""
  {
    match Lookup(m, NameKey)
    case StrV(s) => (s, true)
    case _ => ("", false)
  }

  /** A written name reads back; an empty write leaves an absent field absent. */
  lemma ReadBack(m: map<string, Val>, v: string)
    ensures v != "" ==> FromContext(NewContext(m, v)) == (v, true)
    ensures !FromContext(m).1 ==> !FromContext(NewContext(m, "")).1
  {
  }

  /** A value of another type under the key reads as absent. */
  lemma OtherTypeReadsAbsent(m: map<string, Val>, x: Val)
    requires !x.StrV?
    ensures FromContext(m[NameKey := x]) == ("", false)
  {
  }
}
