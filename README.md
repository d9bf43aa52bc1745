# quattro-stagioni, modelled in Dafny

quattro-stagioni works out the meteorological season of a date under one of
three conventions (northern hemisphere, southern hemisphere, India) and puts
that season's name as a class on a page element, replacing the season class
it put there before. This project models that library and proves properties
of the model in Dafny 4.11. Everything is in `src/index.js`.

- `wrappers.dfy`, module `Wrappers`: `Option`. `None` stands for JavaScript's
  `undefined` or `null`.
- `seasons.dfy`, module `Seasons`: the classifier. It holds the quarterly
  table `meteorologicalSeason(seasons)`, the India table
  `meteorologicalSeasonIndia`, and the frozen `Location` enumeration as the
  closed datatype `Location = NorthernHemisphere | SouthernHemisphere | India`.
  Each variant has a `Name()` and a `Season(month)`. The source curries the
  quarterly table (the list first, then a closure over the month). The model
  uncurries it as `MeteorologicalSeason(seasons, month)`.
- `applicator.dfy`, module `Applicator`: the class `QuattroStagioni`.
  - `location` is a constant field, so the `location` getter is that field.
  - `el` is the `_el` slot, a tagged variant `Unset | Producer(f) | Direct(element)`.
  - `lastAppliedSeason` is an `Option<string>`.
  - The target element is a class `Element`. It holds its class list as a
    set of tokens, plus a log of the `remove`/`add` calls made on it.

How the model handles the library's environment:
- Month input. The source takes a JavaScript `Date` and calls `getMonth()`.
  The model takes that 0-based month index as an integer parameter.
- Default target. The source's `getBody()` looks up the document's first
  `body` element. The model passes it in as a `body: Option<Element>`
  parameter to every operation that may consult it.
- Missing target. The source's `update` throws a TypeError when it finds no
  element. The model returns the outcome `ThrewTypeError` in that case and
  states which state changed before the throw.

The model follows the code as written, including these behaviours:
- The constructor accepts a class-name prefix but never stores or uses it,
  although its doc comment (src/index.js:21-22) says the prefix is added to
  every class name. Applied labels are therefore the bare season names.
- A month outside 1..12 matches no case of either switch. It yields
  `undefined`, here `None`; it is not rejected.
- Without a target element, `update` throws instead of doing nothing.
- For an invalid date the season is `undefined`, and `classList.add(undefined)`
  adds the token "undefined". The model applies the token "undefined" in that case
  (the helper `Token`).

## Model

| member | source | states |
|---|---|---|
| `Seasons.MeteorologicalSeason` | src/index.js:102-126 | the quarterly switch yields a name exactly when the month is in 1..12 and the list has an entry at the month's quarter. That quarter, `(month % 12) / 3`, is 0 for Dec-Feb, 1 for Mar-May, 2 for Jun-Aug and 3 for Sep-Nov. The name is the list entry at that position |
| `Seasons.IndiaSeason` | src/index.js:135-157 | the India table yields a season exactly for months 1..12, and that season is one of winter, summer, monsoon, autumn |
| `Seasons.Location.Season` | src/index.js:6-10 | every convention yields a season exactly for months 1..12, drawn from that convention's own four-name vocabulary; other months yield none |
| `Seasons.Location.Name` | src/index.js:7-9 | each convention's `name` attribute is "north", "south" or "india"; its property is `NamesIdentifyLocations` |
| `Seasons.NamesIdentifyLocations` | src/index.js:6-10 | the names "north", "south" and "india" are pairwise distinct, so a name identifies its convention |
| `Seasons.NorthernMonths` | src/index.js:102-125 | with the list of src/index.js:7, the northern hemisphere gives winter to exactly {12,1,2}, spring to {3,4,5}, summer to {6,7,8} and autumn to {9,10,11} |
| `Seasons.IndiaMonths` | src/index.js:135-157 | India gives winter to exactly {12,1,2}, summer to {3,4,5}, monsoon to {6,7,8,9} (4 months) and autumn to {10,11} (2 months) |
| `Seasons.RotatedTable` | src/index.js:102-125 | rotating a 4-name list left by k moves every month's season k positions further along the 4-cycle |
| `Seasons.SouthernIsRotatedNorthern` | src/index.js:7-8 | the southern list is the northern list rotated by two |
| `Seasons.SouthernIsNorthernShifted` | src/index.js:7-8 | for every month 1..12, the southern season is the northern season two positions ahead in the 4-cycle. It is also the northern season of the month six months later |
| `Seasons.IndiaIsNotQuarterly` | src/index.js:135-157 | for every list, some month in 1..12 gets a different season from the quarterly table than from the India table. So India is no rotation of the hemispheric tables |
| `Seasons.VocabularyIsCovered` | src/index.js:6-10 | every name in a convention's vocabulary is the season of at least one month |
| `Applicator.Element.Remove` | src/index.js:75 | `classList.remove` leaves the token absent and everything else as it was, and logs the call |
| `Applicator.Element.Add` | src/index.js:78 | `classList.add` leaves the token present (once) and everything else as it was, and logs the call |
| `Applicator.ResolutionIsCached` | src/index.js:50-62 | once a read of `el` has resolved an element, every later read returns that same element and consults neither the producer nor the document. A read that resolved nothing leaves the slot unset, so the next read consults the document again |
| `Applicator.UpdateTarget` | src/index.js:71-72 | `update` reads the `el` getter twice. The element it works on is what the first read resolved, or, if that read resolved nothing, the document's body |
| `Applicator.AppliedLabelIsBareSeason` | src/index.js:78 | for every month index 0..11, the label `update` adds is one of the convention's bare season names; the constructor's prefix (src/index.js:24-27) never reaches it |
| `Applicator.ApplyLabel` | src/index.js:74-78 | after the swap the new label is present, a previous label that differs from it is absent, and every other token is unchanged |
| `Applicator.ApplyLabelIdempotent` | src/index.js:68-80 | a second update in the same season leaves the class list as one update left it, yet still issues its remove-then-add pair of calls |
| `Applicator.ApplyLabelTransition` | src/index.js:68-80 | after updates in two different seasons, the first season's label is gone, the second's is present, and no other token changed |
| `Applicator.QuattroStagioni.constructor` | src/index.js:24-27 | the location defaults to the northern hemisphere and is exactly the one given, which is what the `location` getter (src/index.js:33-35) returns. `lastAppliedSeason` starts as null and `el` starts unset. The prefix has no effect |
| `Applicator.QuattroStagioni.SetEl` | src/index.js:42-44 | the setter stores a direct element or a producer without evaluating it |
| `Applicator.QuattroStagioni.El` | src/index.js:50-62 | the getter returns the document's body for an unset slot, the producer's result for a producer, and the element itself for a direct slot. It caches the result: the slot becomes that element, or becomes unset when nothing was resolved (also when a producer yields `undefined`). A direct slot is left as it was |
| `Applicator.QuattroStagioni.MeteorologicalSeason` | src/index.js:89-92 | a season is returned exactly when the month index is in 0..11. It is the location's season of the 1-based month (index + 1), and no state changes |
| `Applicator.QuattroStagioni.Update` | src/index.js:68-80 | with a target element: `lastAppliedSeason` becomes the computed season, the target's class list becomes `ApplyLabel` of the old list, and the calls are a remove of the previous label (if non-null) then an add. Without a target element: a TypeError, with the class lists and `lastAppliedSeason` unchanged. In both cases the slot caches what was resolved. After a normal return the slot holds the element, so later updates do not run the producer again |

## Left out

- `console.log(this.el)` (src/index.js:71) is a logging side effect and is not modelled. The getter read it performs is modelled, and so is its caching.
- JavaScript `Date`: the model takes the value of `getMonth()` as an integer. The default argument `new Date()` reads the clock and is not modelled.
- `getBody()` (src/index.js:164-168) reads the DOM. It is the `body` parameter: the document's first body element, if there is one, at the time of the call.
- The class list of a DOM element is a set of tokens plus a call log. Its ordering and other DOMTokenList behaviour are not modelled.
- Setting `el` to `null` is not modelled. In the source, `null` is stored and returned as a direct value, so a later `update` throws. A producer that returns something other than an element or `undefined` is not modelled either.
- A producer is a pure Dafny function `() -> Option<Element>`. Any side effects it has in JavaScript are not modelled. That it runs at most once is shown by the caching (`ResolutionIsCached`, `Update`), not by a call counter.
- `Applicator.QuattroStagioni.Update`: for an invalid date, JavaScript stores `undefined` in `lastAppliedSeason`. The model stores the token "undefined" instead. The two differ only when the field is read directly; a later removal removes the same token either way.
- Label prefixing is not modelled, because the `classNamePrefix` argument has no effect in the code.
- The `Location` enumeration is a closed datatype, so a fourth convention can only be added by extending that datatype.
- `Gruntfile.js` configures a development web server and contains no library logic.
