/** The image wrapper of `components/ui/image-with-fallback.tsx`: three state
    fields changed by the browser's load and error events, switching once to
    a fallback image. */
module ImageFallback {
  import opened Lists

  const DefaultFallback: string := "/cyberpunk-neon-abstract.png"
  const Placeholder: string := "/placeholder.svg"

  /** The three state fields, as one value. */
  datatype ImageState = ImageState(isLoading: bool, hasError: bool, currentSrc: string)

  /** The browser events the image element reports. */
  datatype ImageEvent = Loaded | Failed

  /** The `fallbackSrc` prop: an absent prop takes the default. */
  function FallbackOf(fallbackSrc: Option<string>): (f: string)
    ensures fallbackSrc.Some? ==> f == fallbackSrc.value
    ensures fallbackSrc.None? ==> f == DefaultFallback
  {
    match fallbackSrc
    case None => DefaultFallback
    case Some(f) => f
  }

  /** The first render: loading, no error, showing `src`. */
  function Initial(src: string): (s: ImageState)
    ensures s.isLoading && !s.hasError && s.currentSrc == src
  {
    ImageState(true, false, src)
  }

  /** `handleError`: the first error switches to the fallback and stops
      loading; any later one changes nothing. */
  function AfterError(s: ImageState, fallbackSrc: string): (t: ImageState)
    ensures !s.hasError ==> t.hasError && t.currentSrc == fallbackSrc && !t.isLoading
    ensures s.hasError ==> t == s
  {
    if !s.hasError then ImageState(false, true, fallbackSrc) else s
  }

  /** `handleLoad`: only the loading flag changes. */
  function AfterLoad(s: ImageState): (t: ImageState)
    ensures !t.isLoading && t.hasError == s.hasError && t.currentSrc == s.currentSrc
  {
    s.(isLoading := false)
  }

  function Step(s: ImageState, e: ImageEvent, fallbackSrc: string): ImageState
  {
    match e
    case Loaded => AfterLoad(s)
    case Failed => AfterError(s, fallbackSrc)
  }

  /** The state after the events, in order. */
  function Run(s: ImageState, events: seq<ImageEvent>, fallbackSrc: string): ImageState
    decreases |events|
  {
    if events == [] then s else Run(Step(s, events[0], fallbackSrc), events[1..], fallbackSrc)
  }

  /** What every reachable state satisfies: the source shown is `src` until
      the first error and the fallback from then on, and an errored image is
      never loading. */
  predicate Consistent(s: ImageState, src: string, fallbackSrc: string)
  {
    s.currentSrc == (if s.hasError then fallbackSrc else src) && (s.hasError ==> !s.isLoading)
  }

  /** Both handlers keep the state consistent. */
  lemma StepKeepsConsistent(s: ImageState, e: ImageEvent, src: string, fallbackSrc: string)
    requires Consistent(s, src, fallbackSrc)
    ensures Consistent(Step(s, e, fallbackSrc), src, fallbackSrc)
  {
  }

  /** Errors after the first change nothing. */
  lemma ErrorOnce(s: ImageState, fallbackSrc: string)
    ensures AfterError(AfterError(s, fallbackSrc), fallbackSrc) == AfterError(s, fallbackSrc)
  {
  }

  /** Whatever the browser reports, the state stays consistent, and once an
      error has been reported the image shows the fallback for good. */
  lemma {:induction false} RunFromConsistent(s: ImageState, events: seq<ImageEvent>, src: string, fallbackSrc: string)
    requires Consistent(s, src, fallbackSrc)
    ensures Consistent(Run(s, events, fallbackSrc), src, fallbackSrc)
    ensures (s.hasError || Failed in events) ==>
              Run(s, events, fallbackSrc).hasError && Run(s, events, fallbackSrc).currentSrc == fallbackSrc
    ensures !s.hasError && Failed !in events ==> !Run(s, events, fallbackSrc).hasError
    decreases |events|
  {
    if events != [] {
      var t := Step(s, events[0], fallbackSrc);
      StepKeepsConsistent(s, events[0], src, fallbackSrc);
      assert events == [events[0]] + events[1..];
      assert Failed in events <==> events[0] == Failed || Failed in events[1..];
      RunFromConsistent(t, events[1..], src, fallbackSrc);
    }
  }

  /** From the first render, any run of events. */
  lemma RunFromInitial(src: string, events: seq<ImageEvent>, fallbackSrc: string)
    ensures var s := Run(Initial(src), events, fallbackSrc);
            && Consistent(s, src, fallbackSrc)
            && (s.hasError <==> Failed in events)
            && s.currentSrc == (if Failed in events then fallbackSrc else src)
  {
    RunFromConsistent(Initial(src), events, src, fallbackSrc);
  }

  /** `currentSrc || "/placeholder.svg"`. */
  function RenderedSrc(s: ImageState): (url: string)
    ensures s.currentSrc != "" ==> url == s.currentSrc
    ensures s.currentSrc == "" ==> url == Placeholder
  {
    if s.currentSrc == "" then Placeholder else s.currentSrc
  }

  /** The "image not available" overlay. */
  predicate ErrorOverlayShown(s: ImageState)
  {
    s.hasError && !s.isLoading
  }

  /** In a consistent state the overlay shows exactly when an error was reported. */
  lemma OverlayIffError(s: ImageState, src: string, fallbackSrc: string)
    requires Consistent(s, src, fallbackSrc)
    ensures ErrorOverlayShown(s) <==> s.hasError
  {
  }

  // ----------------------------------------------------------- component

  class ImageWithFallback {
    const src: string
    const fallbackSrc: string
    var isLoading: bool
    var hasError: bool
    var currentSrc: string

    function State(): ImageState
      reads this
    {
      ImageState(isLoading, hasError, currentSrc)
    }

    predicate Valid()
      reads this
    {
      Consistent(State(), src, fallbackSrc)
    }

    constructor(source: string, fallback: Option<string>)
      ensures src == source && fallbackSrc == FallbackOf(fallback)
      ensures State() == Initial(source)
      ensures Valid()
    {
      src := source;
      fallbackSrc := FallbackOf(fallback);
      isLoading := true;
      hasError := false;
      currentSrc := source;
    }

    method HandleError()
      requires Valid()
      modifies this
      ensures State() == AfterError(old(State()), fallbackSrc)
      ensures Valid()
    {
      if !hasError {
        hasError := true;
        currentSrc := fallbackSrc;
        isLoading := false;
      }
    }

    method HandleLoad()
      requires Valid()
      modifies this
      ensures State() == AfterLoad(old(State()))
      ensures Valid()
    {
      isLoading := false;
    }
  }
}
