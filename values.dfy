/** The values a context can hold, the error kinds, and the Go slice of strings.

    A Go context stores `interface{}` values and every reader does a type
    assertion; `Val` is the closed set of dynamic types the core stores, one
    variant per Go type, so that a type assertion is a variant test. */
module Values {

  datatype Option<+T> = None | Some(value: T)

  /** The error kinds the core returns (the Go code masks them with a message). */
  datatype Error =
    | InvalidConfig      // `invalidConfigError`: a required setting is missing
    | InvalidContext     // `invalidContextError`: the legacy merge found a field missing or unequal
    | InvalidExecution   // `invalidExecutionError`: an equality reducer found a mismatch
    | NilDereference     // a Go runtime panic: a method called on a nil interface

  datatype Result<+T> = Ok(value: T) | Err(error: Error) {
    predicate IsFailure() { Err? }
    function PropagateFailure<U>(): Result<U> requires Err? { Err(error) }
    function Extract(): T requires Ok? { value }
  }

  /** A Go `[]string`. `Nil` is the nil slice; `Slice([])` is a non-nil empty
      slice. `reflect.DeepEqual` tells the two apart, and so does `==` here. */
  datatype Strings = Nil | Slice(elems: seq<string>) {
    /** The elements, as `range` sees them. */
    function Items(): seq<string> {
      if Nil? then [] else elems
    }

    /** Go's `len`. */
    function Len(): nat {
      |Items()|
    }
  }

  /** Go's `append(s, t...)`: appending nothing returns `s` itself, so a nil
      slice stays nil; anything else yields a non-nil slice. */
  function Append(s: Strings, t: Strings): (r: Strings)
    ensures r.Items() == s.Items() + t.Items()
    ensures r.Nil? <==> s.Nil? && t.Len() == 0
  {
    if t.Len() == 0 then s else Slice(s.Items() + t.Items())
  }

  /** first/behaviour `ValueInput`. */
  datatype BehaviourInput = BehaviourInput(types: Strings)

  /** first/behaviour `Value`. */
  datatype FirstBehaviour = FirstBehaviour(id: string, input: BehaviourInput, name: string)

  /** current/source `Value`. */
  datatype Source = Source(ids: Strings, names: Strings)

  /** current/destination `Value`. */
  datatype Destination = Destination(id: string, name: string)

  /** current/trial `Value`. */
  datatype Trial = Trial(scope: string)

  /** current/clg/tree `Value`. */
  datatype Tree = Tree(id: string)

  /** A value of the foreign `expectation.Expectation` interface; only its
      identity is visible to the core. */
  datatype Expectation = Expectation(handle: nat)

  /** The interface's foreign `Equals` method, receiver first; the argument
      may be a nil interface (`None`). */
  type EqualsFn = (Expectation, Option<Expectation>) -> bool

  /** The structured value of a reducer whose package is not part of this model. */
  datatype Record = Record(fields: seq<string>)

  /** A dynamically typed stored value. `NilV` is a stored untyped nil (what a
      nil interface becomes when it is stored). */
  datatype Val =
    | StrV(str: string)
    | ListV(list: Strings)
    | FirstBehaviourV(firstBehaviour: FirstBehaviour)
    | SourceV(source: Source)
    | DestinationV(destination: Destination)
    | TrialV(trial: Trial)
    | TreeV(tree: Tree)
    | ExpV(expectation: Expectation)
    | RecordV(record: Record)
    | NilV
}
