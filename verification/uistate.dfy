/** The sealed `UiState` hierarchy: what the scan screen is currently showing. */
module UiStates {
  import opened Options
  import opened Media

  /**
   * The five variants of `UiState`. `Initial` and `Loading` are Kotlin objects
   * (no payload); the other three are data classes with one immutable field
   * and structural equality, which a Dafny datatype gives for free.
   */
  datatype UiState =
    | Initial
    | Captured(capturedImage: Uri)
    | Loading
    | Success(outputText: string)
    | Error(errorMessage: string)
  {
    /** The resting states a scan run ends in. */
    predicate IsTerminal()
    {
      Success? || Error?
    }
  }

  /** Which of the five variants a state is, with the payload forgotten. */
  datatype Kind = InitialKind | CapturedKind | LoadingKind | SuccessKind | ErrorKind

  /** The data a variant carries: nothing, one URI, or one string. */
  datatype Payload = NoPayload | UriPayload(uri: Uri) | TextPayload(text: string)

  function KindOf(s: UiState): (k: Kind)
  {
    match s
    case Initial => InitialKind
    case Captured(_) => CapturedKind
    case Loading => LoadingKind
    case Success(_) => SuccessKind
    case Error(_) => ErrorKind
  }

  function PayloadOf(s: UiState): (p: Payload)
  {
    match s
    case Initial => NoPayload
    case Captured(u) => UriPayload(u)
    case Loading => NoPayload
    case Success(t) => TextPayload(t)
    case Error(m) => TextPayload(m)
  }

  /** The payload shape each variant's constructor takes. */
  predicate Fits(k: Kind, p: Payload)
  {
    match k
    case InitialKind => p.NoPayload?
    case LoadingKind => p.NoPayload?
    case CapturedKind => p.UriPayload?
    case SuccessKind => p.TextPayload?
    case ErrorKind => p.TextPayload?
  }

  /**
   * Builds the state of kind `k` carrying `p`, if `k`'s constructor takes a
   * payload of that shape.
   */
  function Make(k: Kind, p: Payload): (r: Option<UiState>)
    ensures r.Some? <==> Fits(k, p)
    ensures r.Some? ==> KindOf(r.value) == k && PayloadOf(r.value) == p
  {
    match k
    case InitialKind => if p.NoPayload? then Some(Initial) else None
    case LoadingKind => if p.NoPayload? then Some(Loading) else None
    case CapturedKind => if p.UriPayload? then Some(Captured(p.uri)) else None
    case SuccessKind => if p.TextPayload? then Some(Success(p.text)) else None
    case ErrorKind => if p.TextPayload? then Some(Error(p.text)) else None
  }

  /** Every state is one of the five variants with a payload its constructor accepts, and is rebuilt from them. */
  lemma ClosedHierarchy(s: UiState)
    ensures Fits(KindOf(s), PayloadOf(s))
    ensures Make(KindOf(s), PayloadOf(s)) == Some(s)
  {
  }

  /** Two states are equal exactly when they are the same variant with equal payloads. */
  lemma EqualityIsStructural(s: UiState, t: UiState)
    ensures s == t <==> KindOf(s) == KindOf(t) && PayloadOf(s) == PayloadOf(t)
  {
    ClosedHierarchy(s);
    ClosedHierarchy(t);
  }

  /** `Initial` and `Loading` are the only variants without a payload, so each has a single value. */
  lemma PayloadFreeVariants(s: UiState)
    ensures PayloadOf(s).NoPayload? <==> s.Initial? || s.Loading?
    ensures s.Initial? ==> s == Initial
    ensures s.Loading? ==> s == Loading
  {
  }
}
