# Trueka skill board, modelled in Dafny

Trueka is a community skill-exchange board written as one React component
(`src/App.jsx`). People post skills they offer (`"ofrece"`) or seek
(`"busca"`). The board shows the list under a type filter. It also lists
the matches between seekers and offerers of the same skill, comparing
names case-insensitively. This project models the board's logic and proves
what it promises:

- `case.dfy` (module `Case`): `String.prototype.toLowerCase` as `Lower`
  and `LowerChar`. Only the ASCII letters and the upper-case letters of the
  Latin-1 Supplement are lower-cased.
- `filtering.dfy` (module `Filtering`): `Array.prototype.filter` as
  `Filter`, with its laws. The result is an order-preserving subsequence of
  the input. It holds every kept element with its multiplicity and nothing
  else. The module also covers concatenation, the position of a kept
  element, and counting.
- `skills.dfy` (module `Skills`): the skill record `Skill` with fields
  `{name, user, kind}`. The source's `type` field is called `kind`, because
  `type` is a Dafny keyword. The module also has the filtered view
  `filteredSkills` as `FilterView`, with its test `Shown`.
- `matching.dfy` (module `Matching`): `getMatches` as `GetMatches`.
  `Offers` and `Requests` are the two partitions. `MatchesFor` is one
  request's group, the `filter`/`map` of src/App.jsx:41-47, built from
  `Pairing`. `Join` is the `flatMap` over the requests. The result is a
  full many-to-many join on the lower-cased name.
- `board.dfy` (module `Board`): the component state as the class
  `TruekaApp`. Its fields are `skills`, `newSkill`, `filterType` and
  `stored`, the copy of the list that the save effect writes to the storage
  slot. `AddSkill` is `handleAddSkill`, with its guard `Addable`. The
  `Set...` methods are the form's `onChange` handlers.
- `scenarios.dfy` (module `Scenarios`): two worked examples of matching.

What the code does in the places where a reader might expect otherwise:

- A match is labelled with the seeker's own spelling, `req.name`
  (src/App.jsx:44). An offer "Guitarra" and a request "guitarra" give the
  label `"guitarra"` (`Scenarios.GuitarraExample`).
- An entry's `type` is a free string. Entries loaded from storage can hold
  any value. Such entries show only under `"todos"` or their own value, and
  never match.
- The non-empty check on name and user sits in `handleAddSkill`
  (src/App.jsx:26). It tests JavaScript truthiness, so whitespace-only
  values pass.
- A malformed storage slot makes `JSON.parse` throw (src/App.jsx:18); the
  board does not fall back to an empty list. This path is left out (see
  below).

## Model

| member | source | states |
|---|---|---|
| Case.LowerChar | src/App.jsx:42 | lower-casing one character: the result is never an upper-case letter; an upper-case ASCII or Latin-1 letter moves to its partner 0x20 higher; anything else is kept |
| Case.Lower | src/App.jsx:42 | lower-casing a name keeps its length; every upper-case letter becomes its lower-case partner, every other character is kept, and no upper-case letter remains |
| Case.LowerIdempotent | src/App.jsx:42 | a lower-cased name is its own comparison key: lower-casing twice equals lowering once |
| Filtering.Filter | src/App.jsx:32-34 | `filter` never returns more elements than it is given |
| Filtering.FilterSpec | src/App.jsx:32-34 | `filter` returns an order-preserving subsequence of its input that holds each kept value exactly as often as the input does and no other value |
| Filtering.FilterAppend | src/App.jsx:37-38 | filtering a concatenation is the concatenation of the filtered parts |
| Filtering.FilterAt | src/App.jsx:37-38 | a kept element s[j] appears in the result at the index equal to the number of kept elements before it |
| Filtering.FilterAll | src/App.jsx:32-34 | when every element passes the test, `filter` returns the input unchanged |
| Filtering.FilterNone | src/App.jsx:37-38 | when no element passes the test, `filter` returns the empty list |
| Filtering.FilterCard | src/App.jsx:32-34 | the result's length is the number of positions whose element passes the test |
| Filtering.FilterMember | src/App.jsx:37-38 | every element of the result passes the test and occurs in the input |
| Filtering.FilterPrefix | src/App.jsx:37-38 | filtering a prefix of the list gives a prefix of the filtered list |
| Filtering.FilterSingle | src/App.jsx:37-38 | a one-element list filters to itself if the element passes the test, else to the empty list |
| Filtering.PositionsSnoc | src/App.jsx:32-34 | appending an element adds its position to the passing positions exactly when it passes the test |
| Skills.FilterViewAll | src/App.jsx:32-34 | under the sentinel `'todos'` the view is the whole list, same entries in the same order |
| Skills.FilterViewOfKind | src/App.jsx:32-34 | under any other value the view is an order-preserving subsequence of the list; every shown entry has that type; every entry of that type is shown with its multiplicity; its length is the number of such entries and at most the list's length |
| Skills.FilterViewAppend | src/App.jsx:25-34 | after an append the view is the old view, followed by the new entry when the filter shows it |
| Matching.JoinAppend | src/App.jsx:40-48 | `flatMap` over a concatenation of requests is the concatenation of the two joins |
| Matching.MatchesForSound | src/App.jsx:41-47 | every match in one request's group pairs that request with an offer of the same lower-cased name |
| Matching.JoinSound | src/App.jsx:40-48 | soundness: every match is `{habilidad: req.name, busca: req.user, ofrece: off.user}` for some request and some offer whose lower-cased names are equal |
| Matching.JoinAt | src/App.jsx:40-48 | completeness with position: every request/offer pair with equal lower-cased names gives its match, after the groups of the earlier requests and after the matches with the earlier offers |
| Matching.JoinOrder | src/App.jsx:40-48 | ordering: matches are grouped by request in list order, and inside a group they follow offer order |
| Matching.JoinCount | src/App.jsx:40-48 | counting: the number of matches is the sum over the requests of the number of offers with the same lower-cased name, with no deduplication |
| Matching.GroupSkill | src/App.jsx:41-47 | every match in a request's group carries that request's skill name |
| Matching.PerSkillStep | src/App.jsx:40-48 | the first request adds its offer count to the matches of its own skill and one to that skill's seekers, and adds nothing for any other skill |
| Matching.JoinPerSkill | src/App.jsx:40-48 | for each lower-cased skill name, N requests and M offers of it give exactly N * M matches labelled with it |
| Matching.JoinNoOffers | src/App.jsx:40-48 | with no offers the join is empty |
| Matching.MatchesForSnoc | src/App.jsx:41-47 | one more offer leaves a request's group as it was and appends the request's match with that offer when their lower-cased names are equal |
| Matching.JoinGroup | src/App.jsx:40-48 | the group of the i-th request sits in the join right after the groups of the earlier requests |
| Matching.JoinAddOffer | src/App.jsx:40-48 | one more offer grows the number of matches by the number of requests of the same lower-cased name |
| Matching.JoinAddOfferGroup | src/App.jsx:40-48 | after one more offer, each request's group is its old group followed by its match with the new offer when the names are equal; the group moves back one place per earlier request of the offer's skill |
| Matching.MatchesSound | src/App.jsx:36-49 | every match of the board pairs a `'busca'` entry with an `'ofrece'` entry of the same lower-cased name, with the seeker's name and user and the offerer's user |
| Matching.MatchesAt | src/App.jsx:36-49 | every `'busca'` entry and `'ofrece'` entry with equal lower-cased names give a match, at the slot after the earlier seekers' groups and the earlier offerers |
| Matching.RequestIndex | src/App.jsx:38 | a `'busca'` entry sits among the requests at the index equal to the number of requests before it |
| Matching.OfferIndex | src/App.jsx:37 | an `'ofrece'` entry sits among the offers at the index equal to the number of offers before it |
| Matching.MatchesOrdered | src/App.jsx:36-49 | the board's matches are grouped by seeker in list order, and inside a group they follow offerer list order |
| Matching.MatchesIgnoreOtherKinds | src/App.jsx:37-38 | an entry whose type is neither `'ofrece'` nor `'busca'` never changes the matches, wherever it sits |
| Matching.NoMatchesWithoutBoth | src/App.jsx:36-49 | a list with no requests or no offers, the empty list included, has no matches |
| Matching.AddRequestAppendsMatches | src/App.jsx:25-49 | appending a request leaves every earlier match in place and appends the request's group at the end |
| Matching.AddOfferAddsMatches | src/App.jsx:25-49 | appending an offer keeps the requests and appends the offer to the offers, so the matches are the join that JoinAddOfferGroup describes; their number grows by the number of requests of the same lower-cased name |
| Scenarios.GuitarraExample | src/App.jsx:36-49 | an offer "Guitarra" by Ana and a request "guitarra" by Luis give exactly the match ("guitarra", "Luis", "Ana") |
| Scenarios.YogaExample | src/App.jsx:36-49 | two offers and one request of "Yoga" give two matches in offer order, (Carla, Ana) then (Carla, Beto) |
| Board.TruekaApp.Mount | src/App.jsx:12-23 | the board starts with the stored list, or the empty list when the slot is empty; the draft is `{name:'', user:'', type:'ofrece'}`, the filter is `'todos'`, and the stored copy equals the list |
| Board.TruekaApp.AddSkill | src/App.jsx:25-49 | when the draft's name and user are both non-empty, the list becomes the old list followed by the draft and the draft is reset; otherwise neither changes; the stored copy follows the list and the filter is untouched; after an add the visible list gains the draft when the filter shows it, a request appends its group to the matches, an offer joins the old requests, and any other type leaves the matches unchanged |
| Board.TruekaApp.SetName | src/App.jsx:71 | editing the name field replaces the draft's name and nothing else |
| Board.TruekaApp.SetUser | src/App.jsx:80 | editing the user field replaces the draft's user and nothing else |
| Board.TruekaApp.SetKind | src/App.jsx:88 | choosing a type replaces the draft's type and nothing else |
| Board.TruekaApp.SetFilterType | src/App.jsx:107 | choosing a filter value sets the filter and nothing else |

## Left out

- Case.Lower: it lower-cases only ASCII letters and the upper-case letters of the Latin-1 Supplement. `toLowerCase` follows full Unicode case mapping, including other scripts and the mappings that change length (such as U+0130). Every matching property holds for whatever `Lower` computes, so only the set of names that count as equal differs.
- JavaScript strings are sequences of UTF-16 code units. The model uses sequences of Unicode scalar values (`char`).
- Persistence is modelled only as the `stored` field, which mirrors the list after every change. Reading and writing `localStorage`, the JSON text format, and its round trip are not modelled. `Mount` takes the already-parsed slot content. A slot that fails to parse (where `JSON.parse` would throw) is not modelled. Neither are stored entries whose fields are not strings. Nor is a slot that parses to something other than an array, such as `null` or `{}`, where `skills.filter` would throw during render (src/App.jsx:18, 32).
- React hook scheduling is not modelled. This includes the render at which each effect runs, such as the save effect's first run, which writes the initial empty list before the loaded list renders.
- All JSX rendering, the imported UI components, styling and the advertisement placeholder (src/App.jsx:51-150) are presentation only.
- The sum-over-distinct-names form of the match count is not stated as one formula. Instead the count is proved per name (`JoinPerSkill`) and as a sum over the requests (`JoinCount`).
