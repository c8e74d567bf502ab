/**
 * The viewer's navigation state machine (App.tsx): a slide index and an
 * animation key, moved by `handleNext` / `handlePrev`, which are guarded at
 * the two ends of the deck, and driven by the two buttons and the arrow keys.
 *
 * The state is first described as a value (`ViewState`, `Step`, `Run`), which
 * is the specification; the class `Viewer` holds the two mutable fields the
 * component updates and is proved against it.
 */
module Navigation {
  import opened Wrappers

  /** The two navigation operations. */
  datatype Op = Next | Prev

  /** The navigation state as a value. */
  datatype ViewState = ViewState(index: nat, animationKey: nat)

  /** Both counters start at 0 when the viewer is mounted. */
  const Initial: ViewState := ViewState(0, 0)

  /**
   * The guard of `handleNext`, for a deck of `n` slides: there is a slide
   * after the current one, so inside the deck it fails only on the last slide.
   */
  predicate CanGoNext(n: nat, s: ViewState): (b: bool)
    ensures b <==> s.index + 1 < n
    ensures s.index < n ==> (!b <==> s.index == n - 1)
  {
    s.index < n - 1
  }

  /** The guard of `handlePrev`: there is a slide before the current one, so it fails only on the first. */
  predicate CanGoPrev(s: ViewState): (b: bool)
    ensures !b <==> s.index == 0
  {
    s.index > 0
  }

  /** Whether `op` actually moves the index from `s`. */
  predicate Navigates(n: nat, s: ViewState, op: Op) {
    match op
    case Next => CanGoNext(n, s)
    case Prev => CanGoPrev(s)
  }

  /**
   * One navigation: move by one slide and bump the animation key when the
   * guard holds, otherwise do nothing.  The key grows exactly when the index
   * changes, and an index inside the deck stays inside it.
   */
  function Step(n: nat, s: ViewState, op: Op): (r: ViewState)
    ensures s.index < n ==> r.index < n
    ensures r.animationKey == s.animationKey + (if r.index == s.index then 0 else 1)
    ensures (r == s) <==> !Navigates(n, s, op)
  {
    match op
    case Next => if CanGoNext(n, s) then ViewState(s.index + 1, s.animationKey + 1) else s
    case Prev => if CanGoPrev(s) then ViewState(s.index - 1, s.animationKey + 1) else s
  }

  /** The operation an arrow key is bound to; every other key is unbound. */
  function KeyBinding(key: string): (r: Option<Op>)
    ensures r == Some(Next) <==> key == "ArrowRight"
    ensures r == Some(Prev) <==> key == "ArrowLeft"
  {
    if key == "ArrowRight" then Some(Next)
    else if key == "ArrowLeft" then Some(Prev)
    else None
  }

  /**
   * The key-down handler as a state transformer: it keeps the index inside
   * the deck, bumps the key by at most one, and only a bound key changes
   * anything.
   */
  function Dispatch(n: nat, s: ViewState, key: string): (r: ViewState)
    ensures s.index < n ==> r.index < n
    ensures s.animationKey <= r.animationKey <= s.animationKey + 1
    ensures r != s ==> key == "ArrowRight" || key == "ArrowLeft"
  {
    match KeyBinding(key)
    case Some(op) => Step(n, s, op)
    case None => s
  }

  /** Replays a sequence of operations from state `s`, oldest first. */
  function Run(n: nat, s: ViewState, ops: seq<Op>): ViewState
    decreases |ops|
  {
    if ops == [] then s
    else Step(n, Run(n, s, ops[..|ops| - 1]), ops[|ops| - 1])
  }

  /** The number of operations in `ops` that actually moved the index. */
  function Moves(n: nat, s: ViewState, ops: seq<Op>): nat
    decreases |ops|
  {
    if ops == [] then 0
    else
      var before := ops[..|ops| - 1];
      Moves(n, s, before) + (if Navigates(n, Run(n, s, before), ops[|ops| - 1]) then 1 else 0)
  }

  /** `Run` of one more operation is one more `Step`. */
  lemma RunAppend(n: nat, s: ViewState, ops: seq<Op>, op: Op)
    ensures Run(n, s, ops + [op]) == Step(n, Run(n, s, ops), op)
  {
    assert (ops + [op])[..|ops + [op]| - 1] == ops;
  }

  /** `Moves` of one more operation adds one exactly when that operation moves. */
  lemma MovesAppend(n: nat, s: ViewState, ops: seq<Op>, op: Op)
    ensures Moves(n, s, ops + [op]) == Moves(n, s, ops) + (if Navigates(n, Run(n, s, ops), op) then 1 else 0)
  {
    assert (ops + [op])[..|ops + [op]| - 1] == ops;
  }

  /** Next from an inner slide advances by one and bumps the key by exactly one. */
  lemma NextMoves(n: nat, s: ViewState)
    requires s.index < n - 1
    ensures Step(n, s, Next) == ViewState(s.index + 1, s.animationKey + 1)
  {
  }

  /** Next on the last slide changes neither the index nor the key. */
  lemma NextAtLastSlide(n: nat, s: ViewState)
    requires n >= 1 && s.index == n - 1
    ensures Step(n, s, Next) == s
  {
  }

  /** Prev from any slide but the first goes back by one and bumps the key by one. */
  lemma PrevMoves(n: nat, s: ViewState)
    requires s.index > 0
    ensures Step(n, s, Prev) == ViewState(s.index - 1, s.animationKey + 1)
  {
  }

  /** Prev on the first slide changes nothing. */
  lemma PrevAtFirstSlide(n: nat, s: ViewState)
    requires s.index == 0
    ensures Step(n, s, Prev) == s
  {
  }

  /** Inside the deck, Next is the clamped increment and Prev the clamped decrement. */
  lemma StepIsClamped(n: nat, s: ViewState)
    requires s.index < n
    ensures Step(n, s, Next).index == if s.index + 1 < n - 1 then s.index + 1 else n - 1
    ensures Step(n, s, Prev).index == if s.index - 1 > 0 then s.index - 1 else 0
  {
  }

  /** The arrow keys do what the two operations do; any other key does nothing. */
  lemma KeyDispatch(n: nat, s: ViewState, key: string)
    ensures key == "ArrowRight" ==> Dispatch(n, s, key) == Step(n, s, Next)
    ensures key == "ArrowLeft" ==> Dispatch(n, s, key) == Step(n, s, Prev)
    ensures key != "ArrowRight" && key != "ArrowLeft" ==> Dispatch(n, s, key) == s
  {
  }

  /** Any sequence of operations started inside the deck stays inside it. */
  lemma {:induction false} RunStaysInDeck(n: nat, s: ViewState, ops: seq<Op>)
    requires s.index < n
    ensures Run(n, s, ops).index < n
    decreases |ops|
  {
    if ops != [] {
      RunStaysInDeck(n, s, ops[..|ops| - 1]);
    }
  }

  /** The animation key grows by exactly the number of operations that moved. */
  lemma {:induction false} RunCountsMoves(n: nat, s: ViewState, ops: seq<Op>)
    ensures Run(n, s, ops).animationKey == s.animationKey + Moves(n, s, ops)
    ensures Moves(n, s, ops) <= |ops|
    decreases |ops|
  {
    if ops != [] {
      var before := ops[..|ops| - 1];
      RunCountsMoves(n, s, before);
      var b := Run(n, s, before);
      var op := ops[|ops| - 1];
      if Navigates(n, b, op) {
        assert Step(n, b, op).index != b.index by {
          match op
          case Next =>
          case Prev =>
        }
      }
    }
  }

  /** The animation key never decreases along a run. */
  lemma {:induction false} RunKeyNonDecreasing(n: nat, s: ViewState, ops: seq<Op>, k: nat)
    requires k <= |ops|
    ensures Run(n, s, ops[..k]).animationKey <= Run(n, s, ops).animationKey
  {
    RunCountsMoves(n, s, ops[..k]);
    RunCountsMoves(n, s, ops);
    MovesOfPrefix(n, s, ops, k);
  }

  /** A prefix has no more moves than the whole sequence. */
  lemma {:induction false} MovesOfPrefix(n: nat, s: ViewState, ops: seq<Op>, k: nat)
    requires k <= |ops|
    ensures Moves(n, s, ops[..k]) <= Moves(n, s, ops)
    decreases |ops|
  {
    if k < |ops| {
      var before := ops[..|ops| - 1];
      assert ops[..k] == before[..k];
      MovesOfPrefix(n, s, before, k);
    } else {
      assert ops[..k] == ops;
    }
  }

  /**
   * The viewer component's state.  `history` is the sequence of navigation
   * operations performed so far; it exists for the proof only.
   */
  class Viewer {
    /** The number of slides in the deck. */
    const deckLength: nat
    var currentSlideIndex: nat
    var animationKey: nat
    ghost var history: seq<Op>

    /** The two fields as a `ViewState`. */
    function State(): ViewState
      reads this
    {
      ViewState(currentSlideIndex, animationKey)
    }

    /**
     * The object invariant: the deck is non-empty, the state is the replay of
     * the history from the initial state, the index is inside the deck and the
     * key counts the operations that moved.
     */
    ghost predicate Valid()
      reads this
    {
      1 <= deckLength &&
      State() == Run(deckLength, Initial, history) &&
      currentSlideIndex < deckLength &&
      animationKey == Moves(deckLength, Initial, history)
    }

    /** Mounting the viewer on a deck of `n` slides. */
    constructor (n: nat)
      requires n >= 1
      ensures Valid()
      ensures deckLength == n && currentSlideIndex == 0 && animationKey == 0 && history == []
    {
      deckLength := n;
      currentSlideIndex := 0;
      animationKey := 0;
      history := [];
    }

    /** `handleNext`. */
    method HandleNext()
      requires Valid()
      modifies this
      ensures Valid()
      ensures history == old(history) + [Next]
      ensures State() == Step(deckLength, old(State()), Next)
      ensures old(currentSlideIndex) < deckLength - 1 ==>
        currentSlideIndex == old(currentSlideIndex) + 1 && animationKey == old(animationKey) + 1
      ensures old(currentSlideIndex) == deckLength - 1 ==>
        currentSlideIndex == old(currentSlideIndex) && animationKey == old(animationKey)
    {
      var i, k := currentSlideIndex, animationKey;
      if i < deckLength - 1 {
        i, k := i + 1, k + 1;
      }
      RunAppend(deckLength, Initial, history, Next);
      MovesAppend(deckLength, Initial, history, Next);
      assert ViewState(i, k) == Step(deckLength, State(), Next);
      currentSlideIndex, animationKey, history := i, k, history + [Next];
    }

    /** `handlePrev`. */
    method HandlePrev()
      requires Valid()
      modifies this
      ensures Valid()
      ensures history == old(history) + [Prev]
      ensures State() == Step(deckLength, old(State()), Prev)
      ensures old(currentSlideIndex) > 0 ==>
        currentSlideIndex == old(currentSlideIndex) - 1 && animationKey == old(animationKey) + 1
      ensures old(currentSlideIndex) == 0 ==>
        currentSlideIndex == old(currentSlideIndex) && animationKey == old(animationKey)
    {
      var i, k := currentSlideIndex, animationKey;
      if i > 0 {
        i, k := i - 1, k + 1;
      }
      RunAppend(deckLength, Initial, history, Prev);
      MovesAppend(deckLength, Initial, history, Prev);
      assert ViewState(i, k) == Step(deckLength, State(), Prev);
      currentSlideIndex, animationKey, history := i, k, history + [Prev];
    }

    /** The window's key-down handler: the arrow keys navigate, other keys are ignored. */
    method HandleKeyDown(key: string)
      requires Valid()
      modifies this
      ensures Valid()
      ensures State() == Dispatch(deckLength, old(State()), key)
      ensures history == old(history) + match KeyBinding(key) { case Some(op) => [op] case None => [] }
    {
      if key == "ArrowRight" {
        HandleNext();
      } else if key == "ArrowLeft" {
        HandlePrev();
      }
    }

    /** The Prev button is disabled exactly when `handlePrev` would do nothing. */
    function PrevDisabled(): (d: bool)
      reads this
      requires Valid()
      ensures d <==> Step(deckLength, State(), Prev) == State()
    {
      currentSlideIndex == 0
    }

    /** The Next button is disabled exactly when `handleNext` would do nothing. */
    function NextDisabled(): (d: bool)
      reads this
      requires Valid()
      ensures d <==> Step(deckLength, State(), Next) == State()
    {
      currentSlideIndex == deckLength - 1
    }

    /** The progress label "position / total": the position is always in [1, total]. */
    function ProgressLabel(): (progress: (nat, nat))
      reads this
      requires Valid()
      ensures progress.1 == deckLength
      ensures 1 <= progress.0 <= progress.1
      ensures progress.0 == currentSlideIndex + 1
    {
      (currentSlideIndex + 1, deckLength)
    }
  }
}
