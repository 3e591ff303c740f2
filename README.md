# freeapihub: provider search and matrix rain, modelled in Dafny

This project models the two pieces of behaviour in the freeapihub page that
hold real logic. Both live in `src/components/`.

- **The providers overview** (`ProvidersOverview.tsx`). Two inline catalogs
  hold the cards: LLM providers carry `models`, hosting providers carry
  `features`. A search box filters the active tab's catalog. An entry is kept
  when the lower-cased search term occurs in its lower-cased name, in one of
  its models or in one of its features. A missing list contributes nothing.
  A status badge reads "Stable" for the exact status `"stable"` and "Beta"
  for anything else. The view holds two pieces of state, `searchTerm`
  (initially empty) and `activeTab` (initially `"llm"`). Each is changed
  only by its own setter.
- **The matrix background** (`MatrixBackground.tsx`). On mount the canvas
  is split into `floor(width / 14)` columns, and each column gets a random
  starting row. Every frame each column's drop moves down one row. A drop
  restarts at row 0 only when its glyph is below the bottom edge and a
  random roll exceeds 0.98.

Files:

- `text.dfy` (module `Text`): ASCII lower-casing and substring containment,
  which the search is built from.
- `providers.dfy` (module `Providers`):
  - the entry type and the filter;
  - the badge;
  - both catalogs, with the entries' texts as in the source;
  - a `ViewState` class holding the search term and the active tab.
- `matrix.dfy` (module `Matrix`): the drop arithmetic, and a `Rain` class
  that owns the `drops` array. The array is updated in place, as in the
  source.

The filter is a recursive function, like `Array.prototype.filter`. Its
meaning is proved separately:

- membership: an entry is kept if and only if it is in the input and matches;
- order preserved: the result is a subsequence of the input;
- multiplicity: each kept entry is kept as often as it occurs.

Further lemmas cover:

- case-insensitivity;
- the identity for an empty term;
- idempotence;
- a missing list behaving like an empty one;
- "any fragment of a name, model or feature, typed in any case, finds its
  entry";
- one concrete search over the real catalog: "deepseek", in any case, keeps
  Scaleway and OVH, in that order.

Three facts about the code shape the model:

- On window resize only the canvas is resized. The number of columns and
  the drops are computed once, at mount, and are kept as they are. Drops
  are not recomputed.
- The overview has two tabs, `"llm"` and `"hosting"`, each showing its own
  inline catalog. The tab widget is uncontrolled (`defaultValue="llm"`):
  it shows its own selected panel and reports every change through
  `onValueChange={setActiveTab}`, so `activeTab` always names the panel on
  screen. The model treats the two as one: the visible cards are
  `Shown(activeTab, searchTerm)`.
- Hosting entries are matched on their `features` as well as their name.

## Model

| member | source | states |
|---|---|---|
| Text.LowerChar | src/components/ProvidersOverview.tsx:181 | one character of `toLowerCase`: upper-case ASCII letters move to lower case, everything else is unchanged, and no upper-case letter remains |
| Text.Lower | src/components/ProvidersOverview.tsx:181-185 | `toLowerCase` on a whole string keeps its length; `Text.LowerIsLowerCase` states what happens to each character |
| Text.LowerIsLowerCase | src/components/ProvidersOverview.tsx:181-185 | each upper-case letter becomes its own lower-case letter, every other character is unchanged, and no upper-case letter is left |
| Text.LowerSlice | src/components/ProvidersOverview.tsx:181 | lower-casing a slice gives the same slice of the lower-cased string |
| Text.LowerIdempotent | src/components/ProvidersOverview.tsx:181-185 | lower-casing twice is lower-casing once |
| Text.Includes | src/components/ProvidersOverview.tsx:181 | `String.prototype.includes`: a needle that is found is no longer than the haystack, and the empty needle is always found; `Text.IncludesIff` gives its full meaning |
| Text.IncludesIff | src/components/ProvidersOverview.tsx:181 | the scanning `includes` holds exactly when the needle occurs at some position of the haystack |
| Text.NotIncludedInLowered | src/components/ProvidersOverview.tsx:181-185 | if a string lacks a letter in both cases, its lower-cased form includes no needle containing that letter |
| Providers.Matches | src/components/ProvidersOverview.tsx:181-185 | the filter callback; an empty search term matches every entry, and `Providers.FilterMembership` states which entries it keeps |
| Providers.Filter | src/components/ProvidersOverview.tsx:179-187 | the result is never longer than the input |
| Providers.FilterMembership | src/components/ProvidersOverview.tsx:179-187 | an entry is in the result if and only if it is in the input and its name, one of its models or one of its features includes the term, ignoring case |
| Providers.FilterIsSubsequence | src/components/ProvidersOverview.tsx:180 | `filter` only drops entries; the kept ones stay in input order |
| Providers.FilterCounts | src/components/ProvidersOverview.tsx:180 | a matching entry is kept as many times as it occurs in the input, and a non-matching entry never |
| Providers.FilterEmptyTerm | src/components/ProvidersOverview.tsx:179-187 | the empty term keeps every entry, so the filter is the identity |
| Providers.FilterCaseInsensitive | src/components/ProvidersOverview.tsx:181-185 | two terms with the same lower-case form select the same entries |
| Providers.FilterLoweredTerm | src/components/ProvidersOverview.tsx:181-185 | searching for the lower-cased term is the same as searching for the term |
| Providers.FilterIdempotent | src/components/ProvidersOverview.tsx:179-187 | filtering a filtered list again with the same term changes nothing |
| Providers.MissingListNeverMatches | src/components/ProvidersOverview.tsx:182-185 | an absent `models` or `features` list behaves like an empty one; with both absent, only the name is searched |
| Providers.NameFragmentFindsEntry | src/components/ProvidersOverview.tsx:181 | a search term that equals any slice of an entry's name, up to case, keeps that entry |
| Providers.ModelFragmentFindsEntry | src/components/ProvidersOverview.tsx:182-183 | a search term that equals any slice of one of an entry's models, up to case, keeps that entry |
| Providers.FeatureFragmentFindsEntry | src/components/ProvidersOverview.tsx:184-185 | a search term that equals any slice of one of an entry's features, up to case, keeps that entry |
| Providers.MissingLetterMeansNoMatch | src/components/ProvidersOverview.tsx:179-187 | an entry without features does not match when its name and each of its models lack some letter of the lowered term |
| Providers.DeepseekSearch | src/components/ProvidersOverview.tsx:21-82 | filtering the LLM catalog for "deepseek", in any case, yields exactly Scaleway and OVH, in that order |
| Providers.LlmProviders | src/components/ProvidersOverview.tsx:21-82 | the LLM catalog: five entries, each with a `models` list and no `features` |
| Providers.HostingProviders | src/components/ProvidersOverview.tsx:84-129 | the hosting catalog: four entries, each with a `features` list and no `models` |
| Providers.StatusBadge | src/components/ProvidersOverview.tsx:164-175 | the badge has the default variant, the check icon and the caption "Stable" if and only if the status is exactly "stable"; otherwise it has the secondary variant, the alert icon and the caption "Beta" |
| Providers.Shown | src/components/ProvidersOverview.tsx:247-302 | the cards of a tab: the "llm" panel filters the LLM catalog and the "hosting" panel filters the hosting catalog, both with `filterProviders(..., searchTerm)` at lines 254 and 302; a tab value with no panel shows nothing |
| Providers.ShownMembership | src/components/ProvidersOverview.tsx:247-302 | a card is shown if and only if the active tab is "llm" or "hosting", the entry belongs to that tab's catalog, and it matches the search term |
| Providers.InitialViewShowsAllLlmProviders | src/components/ProvidersOverview.tsx:18-19 | the initial state (tab "llm", empty term) shows the whole LLM catalog |
| Providers.ViewState.constructor | src/components/ProvidersOverview.tsx:18-19 | the search term starts empty and the tab starts at "llm" |
| Providers.ViewState.SetSearchTerm | src/components/ProvidersOverview.tsx:205 | sets the term and leaves the tab unchanged |
| Providers.ViewState.SetActiveTab | src/components/ProvidersOverview.tsx:214 | sets the tab and keeps the search term; the visible cards are the new tab's catalog filtered by the old term |
| Matrix.ColumnCount | src/components/MatrixBackground.tsx:24 | the largest number of whole 14-pixel columns that fit in the width |
| Matrix.InitialDrop | src/components/MatrixBackground.tsx:27 | a starting row is non-negative, and its pixel row lies within the canvas, strictly above the bottom edge when the canvas has height |
| Matrix.NextDrop | src/components/MatrixBackground.tsx:60-71 | a drop either moves down one row or restarts at 0; it always moves down while its pixel row is within the canvas, and once below it restarts if and only if the roll exceeds 0.98 |
| Matrix.AfterFrames | src/components/MatrixBackground.tsx:46-82 | one column over successive `drawMatrix` ticks, with the canvas height unchanged across them: the drop never ends more than one row per frame below where it started |
| Matrix.FallsWhileOnScreen | src/components/MatrixBackground.tsx:67-71 | with the canvas height unchanged across the frames, over consecutive frames in which the glyph stays within the canvas, a drop moves down exactly one row per frame, whatever the rolls |
| Matrix.AfterFramesNonNegative | src/components/MatrixBackground.tsx:67-71 | a non-negative drop stays non-negative over any number of frames |
| Matrix.Rain.constructor | src/components/MatrixBackground.tsx:13-27 | the canvas takes the window size; there is one drop per column, each the initial drop of its column's roll; all drops are non-negative |
| Matrix.Rain.Resize | src/components/MatrixBackground.tsx:13-16 | the canvas takes the new size; the drops array and its contents are unchanged |
| Matrix.Rain.StepColumn | src/components/MatrixBackground.tsx:59-71 | column `i` takes its next drop; every other column is unchanged, and the drops stay non-negative |
| Matrix.Rain.Frame | src/components/MatrixBackground.tsx:46-78 | every column takes its next drop for its own roll, and the drops stay non-negative |

## Left out

- Rendering is not modelled: JSX, cards, animations, the `window.open` link
  buttons, and the display-only `limits` and `notes` fields of the entries.
- Canvas drawing is not modelled: the fade rectangle, glyph and colour
  choice, the glow, and the occasional white glyph. These consume
  `Math.random()` but do not affect the drops.
- Failed mounts are not modelled. Without a canvas element or a 2D context
  the effect returns early (MatrixBackground.tsx lines 8 and 11), so no drops
  exist and no timer starts; `Matrix.Rain.constructor` models only a
  successful mount.
- Timers and listeners are not modelled: the 33 ms `setInterval`, the resize
  listener, and the teardown that removes both.
- `Math.random()` is a parameter. Each reset roll is a real in [0, 1),
  passed in per column and per frame. The source draws the reset roll only
  when the glyph is below the edge; the model takes one for every column
  and ignores it otherwise, which gives the same drops.
- Text.LowerChar: lower-cases ASCII letters only, where JavaScript's
  `toLowerCase` folds all of Unicode. The catalog strings are all ASCII, but
  the search term is user input and can hold non-ASCII letters. The model
  then differs from the source. For example, the Kelvin sign U+212A lowers
  to "k" in JavaScript, so on the LLM tab that term keeps Scaleway, OVH
  and Cloudflare Workers AI; in the model it stays unchanged and matches nothing.
- Text.Lower: inherits the ASCII-only lowering of `Text.LowerChar`, with the
  same divergence for non-ASCII search terms.
- Matrix.InitialDrop: computed over exact reals. The source computes in
  IEEE doubles, whose rounding can move the floor by one at exact row
  boundaries.
- Matrix.NextDrop: drops are unbounded integers. JavaScript numbers lose
  integer precision above 2^53, which takes millions of years of
  frames to reach.
- `src/data/providers.ts` and `src/App.tsx` are not part of this model. The
  overview uses its own inline catalogs, and the app shell only arranges
  components.
