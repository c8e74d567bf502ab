# Slide-deck viewer: navigation, content lines and templates

A verified model of the logic inside the viewer component `App.tsx` of a
single-page slide-deck viewer, together with the slide record of `types.ts`.

- **Navigation** (`navigation.dfy`). The viewer holds a slide index and an
  animation key. `handleNext` and `handlePrev` move the index by one slide when
  their guard allows it and then bump the key; at the ends of the deck they do
  nothing. The two buttons are disabled exactly when their operation would do
  nothing, and the arrow keys call the same two operations. The class
  `Viewer` has the component's two state fields and the deck length `N >= 1`.
  Its ghost `history` records the operations performed. `Valid()` says that
  the state is the replay (`Run`) of that history from index 0 and key 0, that
  `0 <= index < N`, and that the key equals the number of operations that
  actually moved. The pure `Step`, `Run` and `Moves` functions are the
  specification the methods are proved against.
- **Content lines** (`content_lines.dfy`). Each string of a content slide is a
  break (exactly `<br/>`), a heading/explanation pair (it contains `:` and no
  `?`), or a paragraph. A pair is split at its first colon, as the regular
  expression split `/:(.*)/s` does. The heading keeps the colon. The
  explanation is the rest, trimmed with JavaScript's `trim`.
- **Templates** (`templates.dfy`). A slide is drawn with the title template,
  else the section template, else the content template. `Render` gives what
  each template shows. Optional strings are drawn only when present and
  non-empty, following JavaScript truthiness.
- `slide_types.dfy` holds the `SlideContent` record; `wrappers.dfy` holds `Option`.

Two details of `App.tsx` that the model follows exactly:
- A slide with both the title flag and the section flag set takes the title
  template (App.tsx:71), and so does `ChooseTemplate`.
- In `parts[1] || ''` (App.tsx:102) the fallback never changes the value. This
  split always yields a second part when the string has a colon, possibly the
  empty string, and then the fallback is that same empty string.

## Model

| member | source | states |
|---|---|---|
| Navigation.Step | App.tsx:32-44 | one navigation keeps the index inside the deck; the key grows by one exactly when the index changes; the state is unchanged exactly when the operation's guard fails |
| Navigation.CanGoNext | App.tsx:33 | the guard of next holds exactly when a slide follows the current one; inside the deck it fails exactly on the last slide |
| Navigation.CanGoPrev | App.tsx:40 | the guard of prev fails exactly on the first slide |
| Navigation.NextMoves | App.tsx:32-37 | from index i < N-1, next gives index i+1 and key+1 |
| Navigation.NextAtLastSlide | App.tsx:33 | on the last slide, next changes neither index nor key |
| Navigation.PrevMoves | App.tsx:39-44 | from index i > 0, prev gives index i-1 and key+1 |
| Navigation.PrevAtFirstSlide | App.tsx:40 | on the first slide, prev changes nothing |
| Navigation.StepIsClamped | App.tsx:32-44 | inside the deck, next yields min(i+1, N-1) and prev yields max(i-1, 0) |
| Navigation.KeyBinding | App.tsx:47-53 | ArrowRight is bound to next and ArrowLeft to prev, and only those keys |
| Navigation.KeyDispatch | App.tsx:47-53 | a key-down acts as next for ArrowRight, as prev for ArrowLeft, and leaves the state unchanged for any other key |
| Navigation.Dispatch | App.tsx:47-53 | a key-down keeps the index inside the deck, grows the key by at most one, and changes nothing unless the key is ArrowRight or ArrowLeft |
| Navigation.RunStaysInDeck | App.tsx:29-44 | any sequence of operations started inside the deck keeps 0 <= index < N |
| Navigation.RunCountsMoves | App.tsx:30-44 | after any sequence of operations the key has grown by exactly the number of operations that moved the index, which is at most their number |
| Navigation.RunKeyNonDecreasing | App.tsx:35-42 | the key after any prefix of a run is at most the key after the whole run |
| Navigation.Viewer.constructor | App.tsx:29-30 | the viewer starts at index 0 with key 0 and an empty history, and is valid |
| Navigation.Viewer.HandleNext | App.tsx:32-37 | valid state is kept; below the last slide the index and key each grow by one, on the last slide both stay; the new state is Step of the old one |
| Navigation.Viewer.HandlePrev | App.tsx:39-44 | valid state is kept; above the first slide the index drops by one and the key grows by one, on the first slide both stay |
| Navigation.Viewer.HandleKeyDown | App.tsx:47-53 | valid state is kept, the new state is the key's dispatch applied to the old one, and only a bound key adds to the history |
| Navigation.Viewer.PrevDisabled | App.tsx:132 | the Prev button is disabled exactly when prev would leave the state unchanged |
| Navigation.Viewer.NextDisabled | App.tsx:139 | the Next button is disabled exactly when next would leave the state unchanged |
| Navigation.Viewer.ProgressLabel | App.tsx:136-137 | the label is index+1 over N, and the position stays within [1, N] |
| ContentLines.IsWhitespace | App.tsx:107 | space, tab, line feed, carriage return, no-break space and the byte-order mark are trimmed; colon, question mark, U+0085 and U+200B are not |
| ContentLines.SkipWhitespace | App.tsx:107 | the result ends the whitespace run starting at the given position: everything skipped is whitespace and the next character is not |
| ContentLines.SkipWhitespaceBack | App.tsx:107 | the result starts the whitespace run ending at the given position, not going below the lower bound: everything skipped is whitespace and the character before is not |
| ContentLines.TrimBounds | App.tsx:107 | the two bounds are in order and inside the string, everything outside them is whitespace, and the part between them has no whitespace at either end |
| ContentLines.Trim | App.tsx:107 | the trimmed string has no whitespace at either end and is no longer than the input |
| ContentLines.TrimSurroundings | App.tsx:107 | the input is whitespace, then its trim, then whitespace |
| ContentLines.TrimUnique | App.tsx:107 | whatever whitespace surrounds a string with non-white ends, trimming returns exactly that string |
| ContentLines.TrimIdempotent | App.tsx:107 | trimming a trimmed string changes nothing |
| ContentLines.TrimEmpty | App.tsx:107 | a string trims to empty exactly when it is all whitespace |
| ContentLines.IndexOf | App.tsx:100 | the result is a position holding the character with no earlier occurrence |
| ContentLines.SplitAtFirstColon | App.tsx:100-102 | the string is the part before, a colon and the part after; the part before has no colon |
| ContentLines.SplitJoin | App.tsx:100 | splitting a colon-free text, a colon and a rest gives back that text and that rest |
| ContentLines.Classify | App.tsx:94-112 | break iff the string is the marker; pair iff it has a colon and no question mark; paragraph otherwise, holding the string; a pair's heading is the prefix ending at the first colon, heading plus untrimmed rest is the string, and the explanation is the trimmed rest |
| ContentLines.PairRoundTrip | App.tsx:99-107 | a colon-free, question-free heading, a colon and a question-free rest classify to that heading with its colon and the trimmed rest |
| ContentLines.EmptyExplanation | App.tsx:102-107 | when only whitespace follows the colon, the explanation is empty |
| ContentLines.DefinitionExample | App.tsx:99-107 | "Definition: a value that uniquely identifies a row" gives heading "Definition:" and the explanation without its leading space |
| Templates.Centered | App.tsx:60-62 | the body is centred whenever the title flag or the section flag is set, and only then |
| Templates.ChooseTemplate | App.tsx:60-88 | the centred layout is used exactly for the title and section templates |
| Templates.TitleWins | App.tsx:71 | a slide with the title flag set uses the title template, whatever its section flag |
| Templates.SectionOnlyWithoutTitle | App.tsx:83 | the section template is chosen exactly when the section flag is set and the title flag is not |
| Templates.Shown | App.tsx:74 | an optional string is drawn exactly when present and non-empty, and then unchanged |
| SlideTypes.Truthy | App.tsx:74 | an absent or empty string is falsy; every other string is truthy |
| Templates.ContentOf | App.tsx:93 | an absent content list draws no items; a present one draws its strings |
| Templates.Render | App.tsx:71-124 | the view's variant is the chosen template; every view draws the slide's title; the section and content views draw its section; the title view draws the subtitle exactly when it is truthy; a content view has one item per content string |
| Templates.TitleLinesUnclassified | App.tsx:75-79 | on a title slide the content strings are drawn as they are, unclassified, exactly when the record has a list |
| Templates.SubtitleOmitted | App.tsx:74 | a title slide without a subtitle, or with an empty one, draws no subtitle region |
| Templates.ContentItemsClassified | App.tsx:93-113 | on a content slide each item is its string's classification; a line with `?` is never a pair; the marker is exactly a break; a pair's heading plus the untrimmed rest is its line |
| Templates.CodePanelShown | App.tsx:115 | the code panel is drawn exactly when the slide has non-empty code, with that code and its output |
| Templates.DiagramAndCalloutShown | App.tsx:116-122 | the join diagram is drawn exactly when its flag is set; the business-application callout is drawn exactly when that text is non-empty, and shows that text |

## Left out

- The markup, CSS classes, the `<style>` keyframes and the background animation: presentation only.
- The SVG icons and the `NavButton` wrapper: user-interface markup.
- Registering and removing the window key-down listener and the effect lifecycle: browser event plumbing. Only the key-to-operation dispatch is modelled.
- React state batching and stale closures of the state setters: each event is one atomic sequential step.
- HTML interpretation of injected markup: headings, explanations and paragraphs are opaque strings.
- `CodeBlock`, `JoinDiagram`, `ProgressBar` and the slide data `SLIDES_DATA`: they are not part of this model. The deck length is a parameter `N >= 1`. The progress bar's proportion is a division of floating-point numbers, and only its integer inputs are modelled.
- The text format of the progress label: `ProgressLabel` gives the two numbers, not how they are printed.
- Optional boolean flags of the slide record are `bool`, an absent flag read as `false`, which is how the viewer's truthiness tests read it.
- `Trim`'s whitespace set is the ECMAScript one, with the Unicode space separators as of Unicode 15. JavaScript strings are UTF-16 code units but the model's characters are Unicode scalar values. For `:`, `?` and the whitespace set this makes no difference.
- `id`, `isFinalChallenge`: carried by the record, unused by the viewer.
