/** Package merge: `NewContextFromContexts` runs nine reducers in a fixed order
    over one shared target context. Each reducer reads only its own key of the
    sources and writes only its own key of the target, in place; the first
    reducer that fails stops the run, and what earlier reducers wrote stays. */
module MergeChain {
  import opened Values
  import opened Container
  import FirstBehaviourContext
  import CurrentClgTreeContext
  import CurrentDestinationContext
  import CurrentExpectationContext
  import CurrentSourceContext
  import OtherReducers
  import Reduce

  /** The reducers merge.go lists. */
  datatype Modifier =
    | CurrentBehaviour
    | CurrentClgTree
    | CurrentDestination
    | CurrentExpectation
    | CurrentSession
    | CurrentSource
    | CurrentStage
    | FirstBehaviour
    | FirstInformation

  /** The `modifiers` list, in the order the loop runs it. */
  const Modifiers: seq<Modifier> := [
    CurrentBehaviour, CurrentClgTree, CurrentDestination, CurrentExpectation,
    CurrentSession, CurrentSource, CurrentStage, Modifier.FirstBehaviour, FirstInformation
  ]

  /** The key a reducer reads in the sources and writes in the target. */
  function Key(mod: Modifier): string {
    match mod
    case CurrentBehaviour => OtherReducers.CurrentBehaviourKey
    case CurrentClgTree => CurrentClgTreeContext.ValueKey
    case CurrentDestination => CurrentDestinationContext.ValueKey
    case CurrentExpectation => CurrentExpectationContext.ValueKey
    case CurrentSession => OtherReducers.CurrentSessionKey
    case CurrentSource => CurrentSourceContext.ValueKey
    case CurrentStage => OtherReducers.CurrentStageKey
    case FirstBehaviour => FirstBehaviourContext.ValueKey
    case FirstInformation => OtherReducers.FirstInformationKey
  }

  /** The value a reducer writes under its key, or the error it returns. */
  function Written(mod: Modifier, ss: seq<map<string, Val>>, eq: EqualsFn): Result<Val> {
    match mod
    case CurrentBehaviour =>
      var v :- OtherReducers.Merged(ss, OtherReducers.CurrentBehaviourKey); Ok(RecordV(v))
    case CurrentClgTree =>
      var v :- CurrentClgTreeContext.Merged(ss); Ok(TreeV(v))
    case CurrentDestination =>
      var v :- CurrentDestinationContext.Merged(ss); Ok(DestinationV(v))
    case CurrentExpectation =>
      var v :- CurrentExpectationContext.Merged(ss, eq); Ok(CurrentExpectationContext.ToVal(v))
    case CurrentSession =>
      var v :- OtherReducers.Merged(ss, OtherReducers.CurrentSessionKey); Ok(RecordV(v))
    case CurrentSource =>
      Ok(SourceV(CurrentSourceContext.Merged(ss)))
    case CurrentStage =>
      var v :- OtherReducers.Merged(ss, OtherReducers.CurrentStageKey); Ok(RecordV(v))
    case FirstBehaviour =>
      var v :- FirstBehaviourContext.Merged(ss); Ok(FirstBehaviourV(v))
    case FirstInformation =>
      var v :- OtherReducers.Merged(ss, OtherReducers.FirstInformationKey); Ok(RecordV(v))
  }

  /** The target's storage after a run, and the error that stopped it, if any. */
  datatype Outcome = Outcome(storage: map<string, Val>, error: Option<Error>)

  /** The run of a list of reducers from target storage `m` over sources `ss`. */
  function Run(mods: seq<Modifier>, m: map<string, Val>, ss: seq<map<string, Val>>, eq: EqualsFn): Outcome
    decreases |mods|
  {
    if mods == [] then Outcome(m, None)
    else match Written(mods[0], ss, eq)
      case Err(e) => Outcome(m, Some(e))
      case Ok(v) => Run(mods[1..], m[Key(mods[0]) := v], ss, eq)
  }

  /** The keys of a list of reducers, in order. */
  function Keys(mods: seq<Modifier>): (ks: seq<string>)
    ensures |ks| == |mods| && forall j :: 0 <= j < |mods| ==> ks[j] == Key(mods[j])
  {
    seq(|mods|, j requires 0 <= j < |mods| => Key(mods[j]))
  }

  /** No two reducers of the list share a key. */
  predicate DistinctKeys(mods: seq<Modifier>) {
    forall i, j :: 0 <= i < j < |mods| ==> Key(mods[i]) != Key(mods[j])
  }

  /** One reducer applied to the shared target, dispatching to its package. */
  method Apply(mod: Modifier, ctx: Context, ctxs: seq<Context>, eq: EqualsFn) returns (r: Result<Context>)
    modifies ctx
    ensures Written(mod, old(Storages(ctxs)), eq).Err? ==>
      r == Err(Written(mod, old(Storages(ctxs)), eq).error) && ctx.storage == old(ctx.storage)
    ensures Written(mod, old(Storages(ctxs)), eq).Ok? ==>
      r == Ok(ctx) && ctx.storage == old(ctx.storage)[Key(mod) := Written(mod, old(Storages(ctxs)), eq).value]
  {
    match mod
    case CurrentBehaviour => r := OtherReducers.NewContextFromContexts(ctx, ctxs, OtherReducers.CurrentBehaviourKey);
    case CurrentClgTree => r := CurrentClgTreeContext.NewContextFromContexts(ctx, ctxs);
    case CurrentDestination => r := CurrentDestinationContext.NewContextFromContexts(ctx, ctxs);
    case CurrentExpectation => r := CurrentExpectationContext.NewContextFromContexts(ctx, ctxs, eq);
    case CurrentSession => r := OtherReducers.NewContextFromContexts(ctx, ctxs, OtherReducers.CurrentSessionKey);
    case CurrentSource => r := CurrentSourceContext.NewContextFromContexts(ctx, ctxs);
    case CurrentStage => r := OtherReducers.NewContextFromContexts(ctx, ctxs, OtherReducers.CurrentStageKey);
    case FirstBehaviour => r := FirstBehaviourContext.NewContextFromContexts(ctx, ctxs);
    case FirstInformation => r := OtherReducers.NewContextFromContexts(ctx, ctxs, OtherReducers.FirstInformationKey);
  }

  /** The sources still agree with `ss0` at the keys of the reducers from
      index `i` on, the ones that have not read them yet. */
  predicate UnreadAgree(ss: seq<map<string, Val>>, ss0: seq<map<string, Val>>, i: int) {
    forall j :: 0 <= i <= j < |Modifiers| ==> AllAgreeAt(ss, ss0, Key(Modifiers[j]))
  }

  /** `NewContextFromContexts`: the target ends as the run leaves it, and the
      result is the target itself or the error that stopped the run. The
      target may be one of the sources: every reducer reads a key no earlier
      reducer has written. */
  method NewContextFromContexts(ctx: Context, ctxs: seq<Context>, eq: EqualsFn) returns (r: Result<Context>)
    modifies ctx
    ensures ctx.storage == Run(Modifiers, old(ctx.storage), old(Storages(ctxs)), eq).storage
    ensures Run(Modifiers, old(ctx.storage), old(Storages(ctxs)), eq).error.None? ==> r == Ok(ctx)
    ensures Run(Modifiers, old(ctx.storage), old(Storages(ctxs)), eq).error.Some? ==>
      r == Err(Run(Modifiers, old(ctx.storage), old(Storages(ctxs)), eq).error.value)
  {
    ghost var ss0 := Storages(ctxs);
    ghost var m0 := ctx.storage;
    ModifierKeysDistinct();
    for i := 0 to |Modifiers|
      invariant Run(Modifiers, m0, ss0, eq) == Run(Modifiers[i..], ctx.storage, ss0, eq)
      invariant UnreadAgree(Storages(ctxs), ss0, i)
    {
      var mod := Modifiers[i];
      ghost var before := Storages(ctxs);
      ghost var m := ctx.storage;
      WrittenReadsOwnKey(mod, before, ss0, eq);
      assert Modifiers[i..][0] == mod && Modifiers[i..][1..] == Modifiers[i + 1..];
      var res := Apply(mod, ctx, ctxs, eq);
      if res.Err? {
        return Err(res.error);
      }
      ghost var after := Storages(ctxs);
      forall x | 0 <= x < |ctxs|
        ensures after[x] == before[x] || (before[x] == m && after[x] == ctx.storage)
      {
        if ctxs[x] == ctx {
          assert before[x] == m;
        }
      }
      StepKeepsUnread(before, after, ss0, m, ctx.storage, i);
    }
    return Ok(ctx);
  }

  // ----- properties -----

  /** A step of the chain changes the storages only at the current reducer's
      key, so they still agree with the original at the later reducers' keys. */
  lemma StepKeepsUnread(before: seq<map<string, Val>>, after: seq<map<string, Val>>, ss0: seq<map<string, Val>>,
                        m: map<string, Val>, m': map<string, Val>, i: int)
    requires 0 <= i < |Modifiers| && DistinctKeys(Modifiers)
    requires |after| == |before| && UnreadAgree(before, ss0, i)
    requires forall x :: 0 <= x < |after| ==> after[x] == before[x] || (before[x] == m && after[x] == m')
    requires forall k :: k != Key(Modifiers[i]) ==> AgreeAt(m', m, k)
    ensures UnreadAgree(after, ss0, i + 1)
  {
    forall j | i + 1 <= j < |Modifiers|
      ensures AllAgreeAt(after, ss0, Key(Modifiers[j]))
    {
      var k := Key(Modifiers[j]);
      assert AllAgreeAt(before, ss0, k);
      forall x | 0 <= x < |after| ensures AgreeAt(after[x], ss0[x], k) {
        assert AgreeAt(after[x], before[x], k);
        assert AgreeAt(before[x], ss0[x], k);
      }
    }
  }

  /** Every reducer of the chain reads only its own key of every source. */
  lemma WrittenReadsOwnKey(mod: Modifier, ss1: seq<map<string, Val>>, ss2: seq<map<string, Val>>, eq: EqualsFn)
    requires AllAgreeAt(ss1, ss2, Key(mod))
    ensures Written(mod, ss1, eq) == Written(mod, ss2, eq)
  {
    match mod
    case CurrentBehaviour => OtherReducers.MergedReadsOwnKey(ss1, ss2, Key(mod));
    case CurrentClgTree => CurrentClgTreeContext.MergedReadsOwnKey(ss1, ss2);
    case CurrentDestination => CurrentDestinationContext.MergedReadsOwnKey(ss1, ss2);
    case CurrentExpectation => CurrentExpectationContext.MergedReadsOwnKey(ss1, ss2, eq);
    case CurrentSession => OtherReducers.MergedReadsOwnKey(ss1, ss2, Key(mod));
    case CurrentSource => CurrentSourceContext.MergedReadsOwnKey(ss1, ss2);
    case CurrentStage => OtherReducers.MergedReadsOwnKey(ss1, ss2, Key(mod));
    case FirstBehaviour => FirstBehaviourContext.MergedReadsOwnKey(ss1, ss2);
    case FirstInformation => OtherReducers.MergedReadsOwnKey(ss1, ss2, Key(mod));
  }

  /** The nine reducers write nine different keys, and every reducer is in
      the list. */
  lemma ModifierKeysDistinct()
    ensures DistinctKeys(Modifiers)
    ensures forall mod: Modifier :: mod in Modifiers
  {
    forall mod: Modifier ensures mod in Modifiers {
      match mod
      case CurrentBehaviour => assert Modifiers[0] == mod;
      case CurrentClgTree => assert Modifiers[1] == mod;
      case CurrentDestination => assert Modifiers[2] == mod;
      case CurrentExpectation => assert Modifiers[3] == mod;
      case CurrentSession => assert Modifiers[4] == mod;
      case CurrentSource => assert Modifiers[5] == mod;
      case CurrentStage => assert Modifiers[6] == mod;
      case FirstBehaviour => assert Modifiers[7] == mod;
      case FirstInformation => assert Modifiers[8] == mod;
    }
  }

  /** A run changes the target only at the keys of the reducers it ran. */
  lemma {:induction false} RunFrame(mods: seq<Modifier>, m: map<string, Val>, ss: seq<map<string, Val>>, eq: EqualsFn)
    ensures forall k :: k !in Keys(mods) ==> AgreeAt(Run(mods, m, ss, eq).storage, m, k)
  {
    if mods != [] && Written(mods[0], ss, eq).Ok? {
      var m' := m[Key(mods[0]) := Written(mods[0], ss, eq).value];
      RunFrame(mods[1..], m', ss, eq);
      assert forall k :: k in Keys(mods[1..]) ==> k in Keys(mods);
    }
  }

  /** A run succeeds exactly when every reducer of the list succeeds. */
  lemma {:induction false} RunSucceeds(mods: seq<Modifier>, m: map<string, Val>, ss: seq<map<string, Val>>, eq: EqualsFn)
    ensures Run(mods, m, ss, eq).error.None? <==> forall j :: 0 <= j < |mods| ==> Written(mods[j], ss, eq).Ok?
  {
    if mods != [] && Written(mods[0], ss, eq).Ok? {
      RunSucceeds(mods[1..], m[Key(mods[0]) := Written(mods[0], ss, eq).value], ss, eq);
      assert forall j :: 1 <= j < |mods| ==> mods[1..][j - 1] == mods[j];
    }
  }

  /** A successful run leaves under every reducer's key the value that reducer
      wrote, when no two reducers share a key. */
  lemma {:induction false} RunWrites(mods: seq<Modifier>, m: map<string, Val>, ss: seq<map<string, Val>>, eq: EqualsFn)
    requires DistinctKeys(mods) && Run(mods, m, ss, eq).error.None?
    ensures forall j :: 0 <= j < |mods| ==>
      Written(mods[j], ss, eq).Ok? && Key(mods[j]) in Run(mods, m, ss, eq).storage &&
      Run(mods, m, ss, eq).storage[Key(mods[j])] == Written(mods[j], ss, eq).value
  {
    RunSucceeds(mods, m, ss, eq);
    if mods != [] {
      var rest := mods[1..];
      var m' := m[Key(mods[0]) := Written(mods[0], ss, eq).value];
      assert forall j :: 1 <= j < |mods| ==> rest[j - 1] == mods[j];
      RunWrites(rest, m', ss, eq);
      RunFrame(rest, m', ss, eq);
      assert Key(mods[0]) !in Keys(rest);
    }
  }

  /** The first reducer that fails stops the run: its error is the run's
      error, and the target holds exactly what the reducers before it wrote;
      no later reducer runs. */
  lemma {:induction false} RunStopsAtFirstError(mods: seq<Modifier>, m: map<string, Val>, ss: seq<map<string, Val>>, eq: EqualsFn, f: int)
    requires 0 <= f < |mods| && Written(mods[f], ss, eq).Err?
    requires forall j :: 0 <= j < f ==> Written(mods[j], ss, eq).Ok?
    ensures Run(mods[..f], m, ss, eq).error.None?
    ensures Run(mods, m, ss, eq) == Outcome(Run(mods[..f], m, ss, eq).storage, Some(Written(mods[f], ss, eq).error))
  {
    if f == 0 {
      assert mods[..0] == [];
    } else {
      var m' := m[Key(mods[0]) := Written(mods[0], ss, eq).value];
      assert forall j :: 0 <= j < f - 1 ==> mods[1..][j] == mods[j + 1];
      RunStopsAtFirstError(mods[1..], m', ss, eq, f - 1);
      assert mods[..f][0] == mods[0] && mods[..f][1..] == mods[1..][..f - 1];
    }
  }

  /** Partial commit in the real chain: when reducer `f` is the first to
      fail, the keys of the reducers before it hold what they wrote, the keys
      of it and the reducers after it are as they were, and the error is its
      error. */
  lemma PartialCommit(m: map<string, Val>, ss: seq<map<string, Val>>, eq: EqualsFn, f: int)
    requires 0 <= f < |Modifiers| && Written(Modifiers[f], ss, eq).Err?
    requires forall j :: 0 <= j < f ==> Written(Modifiers[j], ss, eq).Ok?
    ensures Run(Modifiers, m, ss, eq).error == Some(Written(Modifiers[f], ss, eq).error)
    ensures forall j :: 0 <= j < f ==>
      Key(Modifiers[j]) in Run(Modifiers, m, ss, eq).storage &&
      Run(Modifiers, m, ss, eq).storage[Key(Modifiers[j])] == Written(Modifiers[j], ss, eq).value
    ensures forall j :: f <= j < |Modifiers| ==> AgreeAt(Run(Modifiers, m, ss, eq).storage, m, Key(Modifiers[j]))
  {
    ModifierKeysDistinct();
    var prefix := Modifiers[..f];
    RunStopsAtFirstError(Modifiers, m, ss, eq, f);
    assert forall j :: 0 <= j < f ==> prefix[j] == Modifiers[j];
    RunWrites(prefix, m, ss, eq);
    RunFrame(prefix, m, ss, eq);
    forall j | f <= j < |Modifiers| ensures Key(Modifiers[j]) !in Keys(prefix) {
      assert forall x :: 0 <= x < f ==> Keys(prefix)[x] == Key(Modifiers[x]);
    }
  }

  /** Every reducer of the chain fails only with an invalid-execution error,
      and the concatenation reducer never fails. */
  lemma WrittenErrors(mod: Modifier, ss: seq<map<string, Val>>, eq: EqualsFn)
    ensures Written(mod, ss, eq).Err? ==> Written(mod, ss, eq).error == InvalidExecution
    ensures Written(CurrentSource, ss, eq).Ok?
  {
    match mod
    case CurrentBehaviour => Reduce.EqualityMergeAgreement(OtherReducers.Column(ss, Key(mod)), OtherReducers.Zero);
    case CurrentClgTree => CurrentClgTreeContext.MergeOutcome(ss);
    case CurrentDestination => CurrentDestinationContext.MergeOutcome(ss);
    case CurrentExpectation =>
    case CurrentSession => Reduce.EqualityMergeAgreement(OtherReducers.Column(ss, Key(mod)), OtherReducers.Zero);
    case CurrentSource =>
    case CurrentStage => Reduce.EqualityMergeAgreement(OtherReducers.Column(ss, Key(mod)), OtherReducers.Zero);
    case FirstBehaviour => FirstBehaviourContext.MergeOutcome(ss);
    case FirstInformation => Reduce.EqualityMergeAgreement(OtherReducers.Column(ss, Key(mod)), OtherReducers.Zero);
  }

  /** After a successful run of the whole chain, reducer `j`'s value is under
      its key. */
  lemma StoredAt(m: map<string, Val>, ss: seq<map<string, Val>>, eq: EqualsFn, j: int)
    requires Run(Modifiers, m, ss, eq).error.None? && 0 <= j < |Modifiers|
    ensures Written(Modifiers[j], ss, eq).Ok? && Key(Modifiers[j]) in Run(Modifiers, m, ss, eq).storage
    ensures Run(Modifiers, m, ss, eq).storage[Key(Modifiers[j])] == Written(Modifiers[j], ss, eq).value
  {
    ModifierKeysDistinct();
    RunWrites(Modifiers, m, ss, eq);
  }

  /** On success the target carries the merged clg tree. */
  lemma TreeStored(m: map<string, Val>, ss: seq<map<string, Val>>, eq: EqualsFn)
    requires Run(Modifiers, m, ss, eq).error.None?
    ensures CurrentClgTreeContext.Merged(ss).Ok? &&
      CurrentClgTreeContext.FromContext(Run(Modifiers, m, ss, eq).storage) == (CurrentClgTreeContext.Merged(ss).value, true)
  {
    StoredAt(m, ss, eq, 1);
    assert Modifiers[1] == CurrentClgTree;
  }

  /** On success the target carries the merged destination. */
  lemma DestinationStored(m: map<string, Val>, ss: seq<map<string, Val>>, eq: EqualsFn)
    requires Run(Modifiers, m, ss, eq).error.None?
    ensures CurrentDestinationContext.Merged(ss).Ok? &&
      CurrentDestinationContext.FromContext(Run(Modifiers, m, ss, eq).storage) == (CurrentDestinationContext.Merged(ss).value, true)
  {
    StoredAt(m, ss, eq, 2);
    assert Modifiers[2] == CurrentDestination;
  }

  /** On success the target carries the merged expectation, nil included. */
  lemma ExpectationStored(m: map<string, Val>, ss: seq<map<string, Val>>, eq: EqualsFn)
    requires Run(Modifiers, m, ss, eq).error.None?
    ensures CurrentExpectationContext.Merged(ss, eq).Ok? &&
      CurrentExpectationContext.FromContext(Run(Modifiers, m, ss, eq).storage) == CurrentExpectationContext.Merged(ss, eq).value
  {
    StoredAt(m, ss, eq, 3);
    assert Modifiers[3] == CurrentExpectation;
  }

  /** On success the target carries the concatenated source lists. */
  lemma SourceStored(m: map<string, Val>, ss: seq<map<string, Val>>, eq: EqualsFn)
    requires Run(Modifiers, m, ss, eq).error.None?
    ensures CurrentSourceContext.FromContext(Run(Modifiers, m, ss, eq).storage) == (CurrentSourceContext.Merged(ss), true)
  {
    StoredAt(m, ss, eq, 5);
    assert Modifiers[5] == CurrentSource;
  }

  /** On success the target carries the merged first behaviour. */
  lemma FirstBehaviourStored(m: map<string, Val>, ss: seq<map<string, Val>>, eq: EqualsFn)
    requires Run(Modifiers, m, ss, eq).error.None?
    ensures FirstBehaviourContext.Merged(ss).Ok? &&
      FirstBehaviourContext.FromContext(Run(Modifiers, m, ss, eq).storage) == (FirstBehaviourContext.Merged(ss).value, true)
  {
    StoredAt(m, ss, eq, 7);
    assert Modifiers[7] == Modifier.FirstBehaviour;
  }
}
