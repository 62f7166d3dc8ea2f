/** The string fields the legacy merge of context.go reads and writes whose
    packages (clg/tree/id, current/behaviour/id, destination/name,
    first/behaviour/id, first/information/id, session/id) are not part of this
    model. Each is taken to follow current/behaviour/name: its own key,
    a type-asserted read, and an empty-string write that is a no-op. The key
    strings are assumed after the same naming pattern. */
module OtherScalarFields {
  import opened Values
  import opened Container

  const ClgTreeIdKey: string := "clg-tree-id"
  const CurrentBehaviourIdKey: string := "current-behaviour-id"
  const DestinationNameKey: string := "destination-name"
  const FirstBehaviourIdKey: string := "first-behaviour-id"
  const FirstInformationIdKey: string := "first-information-id"
  const SessionIdKey: string := "session-id"

  /** `NewContext` of the field under `key`. */
  function NewContext(m: map<string, Val>, key: string, v: string): (r: map<string, Val>)
    ensures v == "" ==> r == m
    ensures v != "" ==> key in r && r[key] == StrV(v)
    ensures forall k :: k != key ==> AgreeAt(r, m, k)
  {
    if v == "" then m else m[key := StrV(v)]
  }

  /** `FromContext` of the field under `key`. */
  function FromContext(m: map<string, Val>, key: string): (r: (string, bool))
    ensures r.1 <==> key in m && m[key].StrV?
    ensures r.1 ==> m[key] == StrV(r.0)
    ensures !r.1 ==> r.0 == ""
  {
    match Lookup(m, key)
    case StrV(s) => (s, true)
    case _ => ("", false)
  }
}
