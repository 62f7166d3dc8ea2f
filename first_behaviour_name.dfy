/** Package first/behaviour/name: a plain string field written in place with
    `SetValue`. Writing the empty string is a no-op. */
module FirstBehaviourName {
  import opened Values
  import opened Container

  const NameKey: string := "first-behaviour-name"

  /** The storage after `NewContext(ctx, v)`. */
  function Stored(m: map<string, Val>, v: string): (r: map<string, Val>)
    ensures v == "" ==> r == m
    ensures v != "" ==> NameKey in r && r[NameKey] == StrV(v)
    ensures forall k :: k != NameKey ==> AgreeAt(r, m, k)
  {
    if v == "" then m else m[NameKey := StrV(v)]
  }

  /** `NewContext`: sets the name on the given context and returns it. */
  method NewContext(ctx: Context, v: string) returns (r: Context)
    modifies ctx
    ensures r == ctx && ctx.storage == Stored(old(ctx.storage), v)
  {
    if v == "" {
      return ctx;
    }
    ctx.SetValue(NameKey, StrV(v));
    return ctx;
  }

  /** `FromContext`: the name and true when the key holds a string; the
      empty string and false otherwise. */
  function FromContext(m: map<string, Val>): (r: (string, bool))
    ensures r.1 <==> NameKey in m && m[NameKey].StrV?
    ensures r.1 ==> m[NameKey] == StrV(r.0)
    ensures !r.1 ==> r.0 == ""
  {
    match Lookup(m, NameKey)
    case StrV(s) => (s, true)
    case _ => ("", false)
  }

  /** A written name reads back; an empty write changes nothing. */
  lemma ReadBack(m: map<string, Val>, v: string)
    ensures v != "" ==> FromContext(Stored(m, v)) == (v, true)
    ensures FromContext(Stored(m, "")) == FromContext(m)
  {
  }

  /** A value of another type under the key reads as absent. */
  lemma OtherTypeReadsAbsent(m: map<string, Val>, x: Val)
    requires !x.StrV?
    ensures FromContext(m[NameKey := x]) == ("", false)
  {
  }
}
