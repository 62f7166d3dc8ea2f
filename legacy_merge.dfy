/** The legacy merge `NewFromContexts` of context.go: it builds a brand-new
    context from a list of sources. Every scalar field must be present in every
    source and equal to the first source's; the source lists are
    concatenated. One loop per field, in the order of the Go code; the first
    failing check decides the error. */
module LegacyMerge {
  import opened Values
  import opened Container
  import Reduce
  import CurrentBehaviourInputTypes
  import CurrentBehaviourName
  import DestinationId
  import ExpectationField
  import FirstBehaviourName
  import OtherScalarFields
  import SourceIds
  import SourceNames

  /** The reads of one field by its package's `FromContext`, one per source. */
  function Reads<T>(ss: seq<map<string, Val>>, read: map<string, Val> -> (T, bool)): (rs: seq<(T, bool)>)
    ensures |rs| == |ss| && forall i :: 0 <= i < |ss| ==> rs[i] == read(ss[i])
  {
    seq(|ss|, i requires 0 <= i < |ss| => read(ss[i]))
  }

  /** A required, equal field: every read must succeed and yield the first
      source's value; no sources give the type's zero value. */
  function Consensus<T(==)>(rs: seq<(T, bool)>, zero: T): Result<T> {
    if rs == [] then Ok(zero)
    else if forall i :: 0 <= i < |rs| ==> rs[i].1 && rs[i].0 == rs[0].0 then Ok(rs[0].0)
    else Err(InvalidContext)
  }

  /** The check loop of one required, equal field. */
  method Agreed<T(==)>(ctxs: seq<Context>, read: map<string, Val> -> (T, bool), zero: T) returns (r: Result<T>)
    ensures r == Consensus(Reads(Storages(ctxs), read), zero)
  {
    ghost var rs := Reads(Storages(ctxs), read);
    var reference := zero;
    for i := 0 to |ctxs|
      invariant reference == if i == 0 then zero else rs[0].0
      invariant forall j :: 0 <= j < i ==> rs[j].1 && rs[j].0 == reference
    {
      var (value, ok) := read(ctxs[i].storage);
      if !ok {
        return Err(InvalidContext);
      }
      if i == 0 {
        reference := value;
      }
      if value != reference {
        return Err(InvalidContext);
      }
    }
    return Ok(reference);
  }

  /** Every source carries a source-ids list. */
  predicate AllHaveIds(ss: seq<map<string, Val>>) {
    forall i :: 0 <= i < |ss| ==> SourceIds.FromContext(ss[i]).1
  }

  /** The sources' source-ids lists (nil where absent). */
  function IdsLists(ss: seq<map<string, Val>>): (ls: seq<Strings>)
    ensures |ls| == |ss| && forall i :: 0 <= i < |ss| ==> ls[i] == SourceIds.FromContext(ss[i]).0
  {
    seq(|ss|, i requires 0 <= i < |ss| => SourceIds.FromContext(ss[i]).0)
  }

  /** A required list: every source must carry one, and the lists are
      appended in source order, starting from a nil slice. */
  function RequiredIds(ss: seq<map<string, Val>>): Result<Strings> {
    if AllHaveIds(ss) then Ok(Reduce.ConcatAll(IdsLists(ss))) else Err(InvalidContext)
  }

  /** One step of the accumulation over the first `i` sources: a source
      with a list extends the result by that list; a source without one makes
      the whole merge fail. */
  lemma IdsStep(ss: seq<map<string, Val>>, i: int, all: Strings)
    requires 0 <= i < |ss| && RequiredIds(ss[..i]) == Ok(all)
    ensures SourceIds.FromContext(ss[i]).1 ==>
      RequiredIds(ss[..i + 1]) == Ok(Append(all, SourceIds.FromContext(ss[i]).0))
    ensures !SourceIds.FromContext(ss[i]).1 ==> RequiredIds(ss) == Err(InvalidContext)
  {
    var x := SourceIds.FromContext(ss[i]).0;
    assert ss[..i + 1][..i] == ss[..i];
    assert IdsLists(ss[..i + 1]) == IdsLists(ss[..i]) + [x];
    Reduce.ConcatAllSnoc(IdsLists(ss[..i]), x);
    if !SourceIds.FromContext(ss[i]).1 {
      assert !AllHaveIds(ss);
    }
  }

  /** The accumulation loop over the sources' source-ids lists. */
  method Collected(ctxs: seq<Context>) returns (r: Result<Strings>)
    ensures r == RequiredIds(Storages(ctxs))
  {
    ghost var ss := Storages(ctxs);
    var all := Nil;
    for i := 0 to |ctxs|
      invariant RequiredIds(ss[..i]) == Ok(all)
    {
      var st := ctxs[i].storage;
      assert st == ss[i];
      var got := SourceIds.FromContext(st);
      IdsStep(ss, i, all);
      if !got.1 {
        return Err(InvalidContext);
      }
      all := Append(all, got.0);
    }
    assert ss[..|ctxs|] == ss;
    return Ok(all);
  }

  /** The expectation loop from source `i` on, against `reference`: calling
      `Equals` on a nil expectation is a nil dereference; a mismatch is an
      invalid-context error. */
  function ExpectationScan(es: seq<Option<Expectation>>, reference: Option<Expectation>, eq: EqualsFn, i: nat): Result<Option<Expectation>>
    decreases |es| - i
  {
    if i >= |es| then Ok(reference)
    else if es[i].None? then Err(NilDereference)
    else if !eq(es[i].value, reference) then Err(InvalidContext)
    else ExpectationScan(es, reference, eq, i + 1)
  }

  /** The expectations of the sources, nil where absent. */
  function Expectations(ss: seq<map<string, Val>>): (es: seq<Option<Expectation>>)
    ensures |es| == |ss| && forall i :: 0 <= i < |ss| ==> es[i] == ExpectationField.FromContext(ss[i])
  {
    seq(|ss|, i requires 0 <= i < |ss| => ExpectationField.FromContext(ss[i]))
  }

  /** The expectation check: the first source's expectation is the reference. */
  function ExpectationConsensus(es: seq<Option<Expectation>>, eq: EqualsFn): Result<Option<Expectation>> {
    ExpectationScan(es, if es == [] then None else es[0], eq, 0)
  }

  /** The expectation loop. */
  method ExpectationAgreed(ctxs: seq<Context>, eq: EqualsFn) returns (r: Result<Option<Expectation>>)
    ensures r == ExpectationConsensus(Expectations(Storages(ctxs)), eq)
  {
    ghost var es := Expectations(Storages(ctxs));
    ghost var ref0 := if es == [] then None else es[0];
    var reference: Option<Expectation> := None;
    for i := 0 to |ctxs|
      invariant reference == if i == 0 then None else ref0
      invariant ExpectationConsensus(es, eq) == ExpectationScan(es, ref0, eq, i)
    {
      var st := ctxs[i].storage;
      assert st == Storages(ctxs)[i];
      var e := ExpectationField.FromContext(st);
      if i == 0 {
        reference := e;
      }
      if e.None? {
        return Err(NilDereference);
      }
      if !eq(e.value, reference) {
        return Err(InvalidContext);
      }
    }
    return Ok(reference);
  }

  function ClgTreeId(m: map<string, Val>): (string, bool) { OtherScalarFields.FromContext(m, OtherScalarFields.ClgTreeIdKey) }
  function CurrentBehaviourId(m: map<string, Val>): (string, bool) { OtherScalarFields.FromContext(m, OtherScalarFields.CurrentBehaviourIdKey) }
  function DestinationName(m: map<string, Val>): (string, bool) { OtherScalarFields.FromContext(m, OtherScalarFields.DestinationNameKey) }
  function FirstBehaviourId(m: map<string, Val>): (string, bool) { OtherScalarFields.FromContext(m, OtherScalarFields.FirstBehaviourIdKey) }
  function FirstInformationId(m: map<string, Val>): (string, bool) { OtherScalarFields.FromContext(m, OtherScalarFields.FirstInformationIdKey) }
  function SessionId(m: map<string, Val>): (string, bool) { OtherScalarFields.FromContext(m, OtherScalarFields.SessionIdKey) }

  /** The merged values `NewFromContexts` writes into the new context. */
  datatype Fields = Fields(
    clgTreeId: string,
    currentBehaviourId: string,
    currentBehaviourInputTypes: Strings,
    currentBehaviourName: string,
    destinationId: string,
    destinationName: string,
    expectation: Option<Expectation>,
    firstBehaviourId: string,
    firstBehaviourName: string,
    firstInformationId: string,
    sessionId: string,
    sourceIds: Strings,
    sourceNames: Strings)

  /** The first six checks of `NewFromContexts`, in the Go code's order:
      the tree, behaviour and destination fields. */
  function IdentityChecks(ss: seq<map<string, Val>>): Result<(string, string, Strings, string, string, string)> {
    var clgTreeId :- Consensus(Reads(ss, ClgTreeId), "");
    var currentBehaviourId :- Consensus(Reads(ss, CurrentBehaviourId), "");
    var types :- Consensus(Reads(ss, CurrentBehaviourInputTypes.FromContext), Nil);
    var currentBehaviourName :- Consensus(Reads(ss, CurrentBehaviourName.FromContext), "");
    var destinationId :- Consensus(Reads(ss, DestinationId.FromContext), "");
    var destinationName :- Consensus(Reads(ss, DestinationName), "");
    Ok((clgTreeId, currentBehaviourId, types, currentBehaviourName, destinationId, destinationName))
  }

  /** The remaining checks, in the Go code's order: the expectation, the
      first-behaviour, information and session fields, and the two lists. The
      names are gathered from the sources' source-ids key, as the code does. */
  function LaterChecks(ss: seq<map<string, Val>>, eq: EqualsFn): Result<(Option<Expectation>, string, string, string, string, Strings, Strings)> {
    var expectation :- ExpectationConsensus(Expectations(ss), eq);
    var firstBehaviourId :- Consensus(Reads(ss, FirstBehaviourId), "");
    var firstBehaviourName :- Consensus(Reads(ss, FirstBehaviourName.FromContext), "");
    var firstInformationId :- Consensus(Reads(ss, FirstInformationId), "");
    var sessionId :- Consensus(Reads(ss, SessionId), "");
    var sourceIds :- RequiredIds(ss);
    // The names loop reads the source-ids key again, so it cannot fail here.
    var sourceNames := RequiredIds(ss).value;
    Ok((expectation, firstBehaviourId, firstBehaviourName, firstInformationId, sessionId, sourceIds, sourceNames))
  }

  /** All checks of `NewFromContexts`: the first failing one decides the
      error. */
  function LegacyFields(ss: seq<map<string, Val>>, eq: EqualsFn): Result<Fields> {
    var a :- IdentityChecks(ss);
    var b :- LaterChecks(ss, eq);
    Ok(Fields(a.0, a.1, a.2, a.3, a.4, a.5, b.0, b.1, b.2, b.3, b.4, b.5, b.6))
  }

  /** One `NewContext` call on the new context: the key it writes, the value
      it stores there, and whether the package skips the value as empty. */
  datatype Write = Write(key: string, val: Val, skip: bool)

  /** The storage after one write. */
  function Put(m: map<string, Val>, w: Write): map<string, Val> {
    if w.skip then m else m[w.key := w.val]
  }

  /** Write `i` of the thirteen writes of `NewFromContexts`, in the Go
      code's order. */
  function WriteAt(f: Fields, i: nat): Write {
    if i == 0 then Write(OtherScalarFields.ClgTreeIdKey, StrV(f.clgTreeId), f.clgTreeId == "")
    else if i == 1 then Write(OtherScalarFields.CurrentBehaviourIdKey, StrV(f.currentBehaviourId), f.currentBehaviourId == "")
    else if i == 2 then Write(CurrentBehaviourInputTypes.TypesKey, ListV(f.currentBehaviourInputTypes), f.currentBehaviourInputTypes.Len() == 0)
    else if i == 3 then Write(CurrentBehaviourName.NameKey, StrV(f.currentBehaviourName), f.currentBehaviourName == "")
    else if i == 4 then Write(DestinationId.IdKey, StrV(f.destinationId), f.destinationId == "")
    else if i == 5 then Write(OtherScalarFields.DestinationNameKey, StrV(f.destinationName), f.destinationName == "")
    else if i == 6 then
      Write(ExpectationField.ExpectationKey, if f.expectation.Some? then ExpV(f.expectation.value) else NilV, f.expectation.None?)
    else if i == 7 then Write(OtherScalarFields.FirstBehaviourIdKey, StrV(f.firstBehaviourId), f.firstBehaviourId == "")
    else if i == 8 then Write(FirstBehaviourName.NameKey, StrV(f.firstBehaviourName), f.firstBehaviourName == "")
    else if i == 9 then Write(OtherScalarFields.FirstInformationIdKey, StrV(f.firstInformationId), f.firstInformationId == "")
    else if i == 10 then Write(OtherScalarFields.SessionIdKey, StrV(f.sessionId), f.sessionId == "")
    else if i == 11 then Write(SourceIds.IdsKey, ListV(f.sourceIds), f.sourceIds.Nil?)
    else Write(SourceNames.NamesKey, ListV(f.sourceNames), f.sourceNames.Nil?)
  }

  /** The thirteen writes, in order. */
  function Writes(f: Fields): (ws: seq<Write>)
    ensures |ws| == 13 && forall i :: 0 <= i < 13 ==> ws[i] == WriteAt(f, i)
  {
    seq(13, i requires 0 <= i < 13 => WriteAt(f, i))
  }

  /** The storage of the new context after the first `n` writes, starting
      from an empty context. */
  function Stage(ws: seq<Write>, n: nat): map<string, Val>
    requires n <= |ws|
  {
    if n == 0 then map[] else Put(Stage(ws, n - 1), ws[n - 1])
  }

  /** The storage of the new context after the thirteen `NewContext` calls. */
  function Assemble(f: Fields): map<string, Val> {
    Stage(Writes(f), |Writes(f)|)
  }

  /** Write `n` takes stage `n` of the new context to stage `n + 1`. */
  lemma StageStep(f: Fields, n: nat, m: map<string, Val>)
    requires n < 13 && m == Stage(Writes(f), n)
    ensures Put(m, WriteAt(f, n)) == Stage(Writes(f), n + 1)
  {
  }

  /** The first six check loops of `NewFromContexts`. */
  method IdentityChecked(ctxs: seq<Context>) returns (r: Result<(string, string, Strings, string, string, string)>)
    ensures r == IdentityChecks(Storages(ctxs))
  {
    var clgTreeId :- Agreed(ctxs, ClgTreeId, "");
    var currentBehaviourId :- Agreed(ctxs, CurrentBehaviourId, "");
    var types :- Agreed(ctxs, CurrentBehaviourInputTypes.FromContext, Nil);
    var currentBehaviourName :- Agreed(ctxs, CurrentBehaviourName.FromContext, "");
    var destinationId :- Agreed(ctxs, DestinationId.FromContext, "");
    var destinationName :- Agreed(ctxs, DestinationName, "");
    return Ok((clgTreeId, currentBehaviourId, types, currentBehaviourName, destinationId, destinationName));
  }

  /** The remaining check loops of `NewFromContexts`. */
  method LaterChecked(ctxs: seq<Context>, eq: EqualsFn) returns (r: Result<(Option<Expectation>, string, string, string, string, Strings, Strings)>)
    ensures r == LaterChecks(Storages(ctxs), eq)
  {
    var expectation :- ExpectationAgreed(ctxs, eq);
    var firstBehaviourId :- Agreed(ctxs, FirstBehaviourId, "");
    var firstBehaviourName :- Agreed(ctxs, FirstBehaviourName.FromContext, "");
    var firstInformationId :- Agreed(ctxs, FirstInformationId, "");
    var sessionId :- Agreed(ctxs, SessionId, "");
    var sourceIds :- Collected(ctxs);
    // The names loop reads the source-ids key again, so it cannot fail here.
    var names := Collected(ctxs);
    var sourceNames := names.value;
    return Ok((expectation, firstBehaviourId, firstBehaviourName, firstInformationId, sessionId, sourceIds, sourceNames));
  }

  /** The thirteen `NewContext` calls on a new, empty context. */
  method Build(f: Fields) returns (c: Context)
    ensures fresh(c) && c.storage == Assemble(f)
  {
    var created := New(DefaultConfig());
    c := created.value;
    var m := c.storage;
    StageStep(f, 0, m);
    m := OtherScalarFields.NewContext(m, OtherScalarFields.ClgTreeIdKey, f.clgTreeId);
    StageStep(f, 1, m);
    m := OtherScalarFields.NewContext(m, OtherScalarFields.CurrentBehaviourIdKey, f.currentBehaviourId);
    StageStep(f, 2, m);
    m := CurrentBehaviourInputTypes.NewContext(m, f.currentBehaviourInputTypes);
    StageStep(f, 3, m);
    m := CurrentBehaviourName.NewContext(m, f.currentBehaviourName);
    StageStep(f, 4, m);
    m := DestinationId.Stored(m, f.destinationId);
    StageStep(f, 5, m);
    m := OtherScalarFields.NewContext(m, OtherScalarFields.DestinationNameKey, f.destinationName);
    StageStep(f, 6, m);
    m := ExpectationField.NewContext(m, f.expectation);
    StageStep(f, 7, m);
    m := OtherScalarFields.NewContext(m, OtherScalarFields.FirstBehaviourIdKey, f.firstBehaviourId);
    StageStep(f, 8, m);
    m := FirstBehaviourName.Stored(m, f.firstBehaviourName);
    StageStep(f, 9, m);
    m := OtherScalarFields.NewContext(m, OtherScalarFields.FirstInformationIdKey, f.firstInformationId);
    StageStep(f, 10, m);
    m := OtherScalarFields.NewContext(m, OtherScalarFields.SessionIdKey, f.sessionId);
    StageStep(f, 11, m);
    m := SourceIds.NewContext(m, f.sourceIds);
    StageStep(f, 12, m);
    m := SourceNames.NewContext(m, f.sourceNames);
    c.storage := m;
  }

  /** `NewFromContexts`: the first failing check's error, or a fresh context
      holding the merged fields. The error branch of `New` with the default
      configuration is dead. */
  method NewFromContexts(ctxs: seq<Context>, eq: EqualsFn) returns (r: Result<Context>)
    ensures LegacyFields(Storages(ctxs), eq).Err? ==> r == Err(LegacyFields(Storages(ctxs), eq).error)
    ensures LegacyFields(Storages(ctxs), eq).Ok? ==>
      r.Ok? && fresh(r.value) && r.value.storage == Assemble(LegacyFields(Storages(ctxs), eq).value)
    ensures LegacyFields(Storages(ctxs), eq).Ok? ==>
      r.Ok? && Readout(r.value.storage) == Normalized(LegacyFields(Storages(ctxs), eq).value)
    ensures ctxs != [] && r.Ok? ==>
      Readout(r.value.storage) == Normalized(FirstSourceFields(Storages(ctxs))) &&
      SourceIds.FromContext(r.value.storage).0.Items() == Reduce.Flatten(IdsLists(Storages(ctxs))) &&
      SourceNames.FromContext(r.value.storage).0.Items() == Reduce.Flatten(IdsLists(Storages(ctxs)))
  {
    var a :- IdentityChecked(ctxs);
    var b :- LaterChecked(ctxs, eq);
    var c := Build(Fields(a.0, a.1, a.2, a.3, a.4, a.5, b.0, b.1, b.2, b.3, b.4, b.5, b.6));
    AssembleReadsBack(Fields(a.0, a.1, a.2, a.3, a.4, a.5, b.0, b.1, b.2, b.3, b.4, b.5, b.6));
    if ctxs != [] {
      LegacyContextReadsBack(Storages(ctxs), eq);
    }
    return Ok(c);
  }

  // ----- properties -----

  /** Every read succeeds and yields the first read's value. */
  predicate Unanimous<T(==)>(rs: seq<(T, bool)>) {
    forall i :: 0 <= i < |rs| ==> rs[i].1 && rs[i].0 == rs[0].0
  }

  /** A required, equal field passes exactly when every source carries it with
      the first source's value, and then yields that value; it fails only with
      an invalid-context error. */
  lemma ConsensusOutcome<T>(rs: seq<(T, bool)>, zero: T)
    ensures Consensus(rs, zero).Ok? <==> Unanimous(rs)
    ensures Consensus(rs, zero).Ok? ==> Consensus(rs, zero).value == if rs == [] then zero else rs[0].0
    ensures Consensus(rs, zero).Err? ==> Consensus(rs, zero).error == InvalidContext
  {
  }

  /** The expectation loop from `i` on passes exactly when every later source
      has an expectation that `Equals` the reference, and then yields the
      reference; a failure is a nil dereference or an invalid-context error. */
  lemma {:induction false} ScanOutcome(es: seq<Option<Expectation>>, reference: Option<Expectation>, eq: EqualsFn, i: nat)
    requires i <= |es|
    ensures ExpectationScan(es, reference, eq, i).Ok? <==>
      forall j :: i <= j < |es| ==> es[j].Some? && eq(es[j].value, reference)
    ensures ExpectationScan(es, reference, eq, i).Ok? ==> ExpectationScan(es, reference, eq, i).value == reference
    ensures ExpectationScan(es, reference, eq, i).Err? ==>
      ExpectationScan(es, reference, eq, i).error in {NilDereference, InvalidContext}
    decreases |es| - i
  {
    if i < |es| {
      ScanOutcome(es, reference, eq, i + 1);
    }
  }

  /** What every source must satisfy for the legacy merge to succeed. */
  predicate Compatible(ss: seq<map<string, Val>>, eq: EqualsFn) {
    && Unanimous(Reads(ss, ClgTreeId))
    && Unanimous(Reads(ss, CurrentBehaviourId))
    && Unanimous(Reads(ss, CurrentBehaviourInputTypes.FromContext))
    && Unanimous(Reads(ss, CurrentBehaviourName.FromContext))
    && Unanimous(Reads(ss, DestinationId.FromContext))
    && Unanimous(Reads(ss, DestinationName))
    && (forall i :: 0 <= i < |ss| ==>
          ExpectationField.FromContext(ss[i]).Some? &&
          eq(ExpectationField.FromContext(ss[i]).value, ExpectationField.FromContext(ss[0])))
    && Unanimous(Reads(ss, FirstBehaviourId))
    && Unanimous(Reads(ss, FirstBehaviourName.FromContext))
    && Unanimous(Reads(ss, FirstInformationId))
    && Unanimous(Reads(ss, SessionId))
    && AllHaveIds(ss)
  }

  /** The merged fields of compatible sources: the first source's values,
      and its expectation, with the sources' ID lists appended twice over. */
  function FirstSourceFields(ss: seq<map<string, Val>>): Fields
    requires ss != []
  {
    var ids := Reduce.ConcatAll(IdsLists(ss));
    Fields(ClgTreeId(ss[0]).0, CurrentBehaviourId(ss[0]).0, CurrentBehaviourInputTypes.FromContext(ss[0]).0,
           CurrentBehaviourName.FromContext(ss[0]).0, DestinationId.FromContext(ss[0]).0, DestinationName(ss[0]).0,
           ExpectationField.FromContext(ss[0]), FirstBehaviourId(ss[0]).0, FirstBehaviourName.FromContext(ss[0]).0,
           FirstInformationId(ss[0]).0, SessionId(ss[0]).0, ids, ids)
  }

  /** The first six checks pass exactly when every source carries each of
      those fields with the first source's value. */
  lemma IdentityOutcome(ss: seq<map<string, Val>>)
    requires ss != []
    ensures IdentityChecks(ss).Ok? <==>
      && Unanimous(Reads(ss, ClgTreeId))
      && Unanimous(Reads(ss, CurrentBehaviourId))
      && Unanimous(Reads(ss, CurrentBehaviourInputTypes.FromContext))
      && Unanimous(Reads(ss, CurrentBehaviourName.FromContext))
      && Unanimous(Reads(ss, DestinationId.FromContext))
      && Unanimous(Reads(ss, DestinationName))
    ensures IdentityChecks(ss).Ok? ==>
      IdentityChecks(ss).value ==
      (ClgTreeId(ss[0]).0, CurrentBehaviourId(ss[0]).0, CurrentBehaviourInputTypes.FromContext(ss[0]).0,
       CurrentBehaviourName.FromContext(ss[0]).0, DestinationId.FromContext(ss[0]).0, DestinationName(ss[0]).0)
    ensures IdentityChecks(ss).Err? ==> IdentityChecks(ss).error == InvalidContext
  {
    ConsensusOutcome(Reads(ss, ClgTreeId), "");
    ConsensusOutcome(Reads(ss, CurrentBehaviourId), "");
    ConsensusOutcome(Reads(ss, CurrentBehaviourInputTypes.FromContext), Nil);
    ConsensusOutcome(Reads(ss, CurrentBehaviourName.FromContext), "");
    ConsensusOutcome(Reads(ss, DestinationId.FromContext), "");
    ConsensusOutcome(Reads(ss, DestinationName), "");
  }

  /** The remaining checks pass exactly when every source has an expectation
      that `Equals` the first source's and carries each later field with the
      first source's value and a source-ids list. */
  lemma LaterOutcome(ss: seq<map<string, Val>>, eq: EqualsFn)
    requires ss != []
    ensures LaterChecks(ss, eq).Ok? <==>
      && (forall i :: 0 <= i < |ss| ==>
            ExpectationField.FromContext(ss[i]).Some? &&
            eq(ExpectationField.FromContext(ss[i]).value, ExpectationField.FromContext(ss[0])))
      && Unanimous(Reads(ss, FirstBehaviourId))
      && Unanimous(Reads(ss, FirstBehaviourName.FromContext))
      && Unanimous(Reads(ss, FirstInformationId))
      && Unanimous(Reads(ss, SessionId))
      && AllHaveIds(ss)
    ensures LaterChecks(ss, eq).Ok? ==>
      LaterChecks(ss, eq).value ==
      (ExpectationField.FromContext(ss[0]), FirstBehaviourId(ss[0]).0, FirstBehaviourName.FromContext(ss[0]).0,
       FirstInformationId(ss[0]).0, SessionId(ss[0]).0, Reduce.ConcatAll(IdsLists(ss)), Reduce.ConcatAll(IdsLists(ss)))
    ensures LaterChecks(ss, eq).Err? ==> LaterChecks(ss, eq).error in {InvalidContext, NilDereference}
  {
    ScanOutcome(Expectations(ss), Expectations(ss)[0], eq, 0);
    ConsensusOutcome(Reads(ss, FirstBehaviourId), "");
    ConsensusOutcome(Reads(ss, FirstBehaviourName.FromContext), "");
    ConsensusOutcome(Reads(ss, FirstInformationId), "");
    ConsensusOutcome(Reads(ss, SessionId), "");
  }

  /** The legacy merge succeeds exactly for compatible sources, and then the
      new context's fields are the first source's values, its expectation
      the first source's, and both lists the IDs of all sources in order. */
  lemma LegacyOutcome(ss: seq<map<string, Val>>, eq: EqualsFn)
    requires ss != []
    ensures LegacyFields(ss, eq).Ok? <==> Compatible(ss, eq)
    ensures LegacyFields(ss, eq).Ok? ==> LegacyFields(ss, eq).value == FirstSourceFields(ss)
    ensures LegacyFields(ss, eq).Ok? ==> FirstSourceFields(ss).sourceIds.Items() == Reduce.Flatten(IdsLists(ss))
    ensures LegacyFields(ss, eq).Err? ==> LegacyFields(ss, eq).error in {InvalidContext, NilDereference}
  {
    IdentityOutcome(ss);
    LaterOutcome(ss, eq);
    Reduce.ConcatAllItems(IdsLists(ss));
  }

  /** Contrary to the comment in the Go code, a first source without an
      expectation does not pass: once the earlier checks pass, `Equals` is
      called on a nil expectation. */
  lemma ExpectationAbsentPanics(ss: seq<map<string, Val>>, eq: EqualsFn)
    requires ss != [] && IdentityChecks(ss).Ok? && ExpectationField.FromContext(ss[0]).None?
    ensures LegacyFields(ss, eq) == Err(NilDereference)
  {
  }

  /** The expectation loop the comment above it describes, from source `i`
      on: a source without an expectation passes only against a nil
      reference, and an expectation passes only against a non-nil reference
      it `Equals`. */
  function IntendedScan(es: seq<Option<Expectation>>, reference: Option<Expectation>, eq: EqualsFn, i: nat): Result<Option<Expectation>>
    decreases |es| - i
  {
    if i >= |es| then Ok(reference)
    else if es[i].None? != reference.None? then Err(InvalidContext)
    else if es[i].Some? && !eq(es[i].value, reference) then Err(InvalidContext)
    else IntendedScan(es, reference, eq, i + 1)
  }

  /** The intended expectation check, with the first source's expectation as
      reference. */
  function IntendedExpectationConsensus(es: seq<Option<Expectation>>, eq: EqualsFn): Result<Option<Expectation>> {
    IntendedScan(es, if es == [] then None else es[0], eq, 0)
  }

  /** Two expectations agree in the intended sense: both nil, or both present
      and `Equals` holds. */
  predicate BothNilOrEqual(e: Option<Expectation>, reference: Option<Expectation>, eq: EqualsFn) {
    (e.None? && reference.None?) || (e.Some? && reference.Some? && eq(e.value, reference))
  }

  /** The intended loop passes exactly when every later source agrees with
      the reference, and then yields the reference; it fails only with an
      invalid-context error. */
  lemma {:induction false} IntendedScanOutcome(es: seq<Option<Expectation>>, reference: Option<Expectation>, eq: EqualsFn, i: nat)
    requires i <= |es|
    ensures IntendedScan(es, reference, eq, i).Ok? <==>
      forall j :: i <= j < |es| ==> BothNilOrEqual(es[j], reference, eq)
    ensures IntendedScan(es, reference, eq, i).Ok? ==> IntendedScan(es, reference, eq, i).value == reference
    ensures IntendedScan(es, reference, eq, i).Err? ==> IntendedScan(es, reference, eq, i).error == InvalidContext
    decreases |es| - i
  {
    if i < |es| {
      IntendedScanOutcome(es, reference, eq, i + 1);
    }
  }

  /** Sources without any expectation: the code as written ends in a nil
      dereference, while the intended check passes with a nil expectation. */
  lemma AbsentExpectationsDisagree(es: seq<Option<Expectation>>, eq: EqualsFn)
    requires es != [] && forall i :: 0 <= i < |es| ==> es[i].None?
    ensures ExpectationConsensus(es, eq) == Err(NilDereference)
    ensures IntendedExpectationConsensus(es, eq) == Ok(None)
  {
    IntendedScanOutcome(es, None, eq, 0);
  }

  /** Under the intended check, sources that mix present and absent
      expectations fail with an invalid-context error. */
  lemma MixedExpectationsFail(es: seq<Option<Expectation>>, eq: EqualsFn, i: int, j: int)
    requires 0 <= i < |es| && 0 <= j < |es| && es[i].None? && es[j].Some?
    ensures IntendedExpectationConsensus(es, eq) == Err(InvalidContext)
  {
    IntendedScanOutcome(es, es[0], eq, 0);
    assert !BothNilOrEqual(es[i], es[0], eq) || !BothNilOrEqual(es[j], es[0], eq);
  }

  /** A source missing a required field makes the merge fail with an
      invalid-context error when the checks before it pass. */
  lemma MissingTreeIdFails(ss: seq<map<string, Val>>, eq: EqualsFn, i: int)
    requires 0 <= i < |ss| && !ClgTreeId(ss[i]).1
    ensures LegacyFields(ss, eq) == Err(InvalidContext)
  {
    assert !Unanimous(Reads(ss, ClgTreeId));
    ConsensusOutcome(Reads(ss, ClgTreeId), "");
  }

  /** Two sources with different input types make the merge fail once the
      tree and behaviour IDs agree: the lists are compared as Go slices. */
  lemma UnequalTypesFail(ss: seq<map<string, Val>>, eq: EqualsFn, i: int)
    requires 0 < i < |ss|
    requires Unanimous(Reads(ss, ClgTreeId)) && Unanimous(Reads(ss, CurrentBehaviourId))
    requires CurrentBehaviourInputTypes.FromContext(ss[i]).0 != CurrentBehaviourInputTypes.FromContext(ss[0]).0
    ensures LegacyFields(ss, eq) == Err(InvalidContext)
  {
    ConsensusOutcome(Reads(ss, ClgTreeId), "");
    ConsensusOutcome(Reads(ss, CurrentBehaviourId), "");
    assert !Unanimous(Reads(ss, CurrentBehaviourInputTypes.FromContext));
    ConsensusOutcome(Reads(ss, CurrentBehaviourInputTypes.FromContext), Nil);
  }

  /** Merging no contexts yields an empty context: every field is its zero
      value and every zero value is skipped on writing. */
  lemma NoSourcesGiveEmptyContext(eq: EqualsFn)
    ensures LegacyFields([], eq) == Ok(Fields("", "", Nil, "", "", "", None, "", "", "", "", Nil, Nil))
    ensures Assemble(LegacyFields([], eq).value) == map[]
  {
    var f := Fields("", "", Nil, "", "", "", None, "", "", "", "", Nil, Nil);
    assert LegacyFields([], eq) == Ok(f);
    AssembleHoldsOnlyWrites(f);
    assert forall j :: 0 <= j < 13 ==> WriteAt(f, j).skip;
    assert forall k :: k !in Assemble(f);
    assert Assemble(f).Keys == {};
  }

  /** Writes `i` to `e`, all to keys other than `k`, leave `k` as stage `i`
      had it. */
  lemma {:induction false} StagesKeep(ws: seq<Write>, i: nat, e: nat, k: string)
    requires i <= e <= |ws|
    requires forall j :: i <= j < e ==> ws[j].key != k
    ensures AgreeAt(Stage(ws, e), Stage(ws, i), k)
    decreases e - i
  {
    if i < e {
      StagesKeep(ws, i, e - 1, k);
    }
  }

  /** No two writes share a key. */
  predicate DistinctWriteKeys(ws: seq<Write>) {
    forall a, b :: 0 <= a < b < |ws| ==> ws[a].key != ws[b].key
  }

  /** With distinct keys, after all writes a key holds what its write
      stored, and is absent when its write was skipped. */
  lemma {:induction false} StageHoldsWrite(ws: seq<Write>, j: int)
    requires 0 <= j < |ws| && DistinctWriteKeys(ws)
    ensures ws[j].skip ==> ws[j].key !in Stage(ws, |ws|)
    ensures !ws[j].skip ==> ws[j].key in Stage(ws, |ws|) && Stage(ws, |ws|)[ws[j].key] == ws[j].val
  {
    var k := ws[j].key;
    StagesKeep(ws, 0, j, k);
    assert k !in Stage(ws, j);
    assert Stage(ws, j + 1) == Put(Stage(ws, j), ws[j]);
    StagesKeep(ws, j + 1, |ws|, k);
  }

  /** A key that no write uses is absent after all writes. */
  lemma {:induction false} StageOtherKeyAbsent(ws: seq<Write>, k: string)
    requires forall j :: 0 <= j < |ws| ==> ws[j].key != k
    ensures k !in Stage(ws, |ws|)
  {
    StagesKeep(ws, 0, |ws|, k);
  }

  /** The thirteen fields of the new context live under thirteen keys. */
  lemma WriteKeysDistinct(f: Fields)
    ensures DistinctWriteKeys(Writes(f))
  {
  }

  /** The new context holds a key only where one of the thirteen writes
      stored a value. */
  lemma AssembleHoldsOnlyWrites(f: Fields)
    ensures forall k :: k in Assemble(f) ==> exists j :: 0 <= j < 13 && WriteAt(f, j).key == k && !WriteAt(f, j).skip
  {
    var ws := Writes(f);
    WriteKeysDistinct(f);
    forall k | k in Assemble(f)
      ensures exists j :: 0 <= j < 13 && WriteAt(f, j).key == k && !WriteAt(f, j).skip
    {
      if forall j :: 0 <= j < 13 ==> WriteAt(f, j).key != k {
        StageOtherKeyAbsent(ws, k);
      } else {
        var j :| 0 <= j < 13 && WriteAt(f, j).key == k;
        StageHoldsWrite(ws, j);
      }
    }
  }

  /** What the field packages' `FromContext` reads yield from a storage, in
      the order of `Fields`. */
  function Readout(m: map<string, Val>): Fields {
    Fields(ClgTreeId(m).0, CurrentBehaviourId(m).0, CurrentBehaviourInputTypes.FromContext(m).0,
           CurrentBehaviourName.FromContext(m).0, DestinationId.FromContext(m).0, DestinationName(m).0,
           ExpectationField.FromContext(m), FirstBehaviourId(m).0, FirstBehaviourName.FromContext(m).0,
           FirstInformationId(m).0, SessionId(m).0, SourceIds.FromContext(m).0, SourceNames.FromContext(m).0)
  }

  /** The fields as they read back after writing: an input-types list without
      elements is not written, so it reads back as nil. */
  function Normalized(f: Fields): Fields {
    f.(currentBehaviourInputTypes := if f.currentBehaviourInputTypes.Len() == 0 then Nil else f.currentBehaviourInputTypes)
  }

  /** Every field written into the new context reads back: an empty string,
      a nil list or a nil expectation is skipped on writing and reads back as
      the same empty value. */
  lemma AssembleReadsBack(f: Fields)
    ensures Readout(Assemble(f)) == Normalized(f)
  {
    var ws := Writes(f);
    WriteKeysDistinct(f);
    StageHoldsWrite(ws, 0);
    StageHoldsWrite(ws, 1);
    StageHoldsWrite(ws, 2);
    StageHoldsWrite(ws, 3);
    StageHoldsWrite(ws, 4);
    StageHoldsWrite(ws, 5);
    StageHoldsWrite(ws, 6);
    StageHoldsWrite(ws, 7);
    StageHoldsWrite(ws, 8);
    StageHoldsWrite(ws, 9);
    StageHoldsWrite(ws, 10);
    StageHoldsWrite(ws, 11);
    StageHoldsWrite(ws, 12);
  }

  /** The context the legacy merge builds reads back the first source's
      fields, and both of its lists read back the IDs of all sources, in
      source order. */
  lemma LegacyContextReadsBack(ss: seq<map<string, Val>>, eq: EqualsFn)
    requires ss != [] && LegacyFields(ss, eq).Ok?
    ensures Readout(Assemble(LegacyFields(ss, eq).value)) == Normalized(FirstSourceFields(ss))
    ensures SourceIds.FromContext(Assemble(LegacyFields(ss, eq).value)).0.Items() == Reduce.Flatten(IdsLists(ss))
    ensures SourceNames.FromContext(Assemble(LegacyFields(ss, eq).value)).0.Items() == Reduce.Flatten(IdsLists(ss))
  {
    LegacyOutcome(ss, eq);
    AssembleReadsBack(LegacyFields(ss, eq).value);
  }
}
