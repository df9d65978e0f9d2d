# REBA property search: a verified model of its decision logic

REBA is a small real-estate search application. A browser client (`app.js`)
takes a typed or spoken query. It classifies the query as a neighborhood
search or a single-property lookup, asks a proxy for data, and renders
property cards. The proxy (`server.js`) forwards each request to a
real-estate data provider: first a location auto-complete call, then a detail
or list call. It renames the provider's fields to the names the client reads,
and substitutes demo data when the provider has no match.

This project models the deterministic parts of both programs as pure Dafny
functions over JSON-shaped values and proves what they promise:

- `text.dfy` (module `Text`): the engine's string operations the model needs:
  `\s` and `\d`, line terminators, ASCII case folding, `trim`, `includes`,
  `join`, and decimal numerals.
- `js_values.dfy` (module `JsValues`): JavaScript values as they come out of
  JSON, truthiness, optional member access `v?.[key]`, the conversions
  `String`, `Number` and `toLocaleString`, and `a || b || ...` chains.
- `format.dfy` (modules `Format`, `FormatFacts`): `formatAddress`, `safeGet`,
  and the guards of `formatCurrency` and `formatNumber`.
- `display.dfy` (modules `Display`, `DisplayFacts`): what each field of a
  single-property card and of a neighborhood card shows, as text values
  rather than HTML.
- `query.dfy` (modules `Query`, `QueryFacts`): the query classifier
  `parseQuery`. Its regular expressions are hand-coded matchers that follow
  the engine's leftmost, greedy, backtracking semantics for these patterns.
  `ParseQuery` keeps the source's loop and is proved equal to the rule-table
  function `Classify`.
- `proxy.dfy` (modules `Proxy`, `ProxyFacts`): the `/api/property` and
  `/api/properties/list` handlers. Each is a function of its query parameters
  and of the provider's answers; the answers enter as functions from request
  parameters to an outcome (a body, or an error with an optional HTTP status).
- `demo_data.dfy` (module `DemoData`): `displayDemoData`, the client's two
  fixed demo listings, shown through the same card functions as live data.
- `end_to_end.dfy` (module `EndToEnd`): the proxy's replies as the client
  shows them.

`safeGet` returns the truthy string `'N/A'` for a missing key. So in the
single-property card an absent first alias ends its chain, and later aliases
are read only when the first key is present with a falsy value (`0`, `''`,
`false`). An absent lot size therefore shows `'N/A sq ft'`, and an absent HOA
fee shows `'N/A/mo'`. The neighborhood cards read plain members, so an absent
field there falls through to the next alias. The model keeps both behaviours
and proves each.

Behaviours of the code worth noting:

- A query with a house number, such as "123 Main Street, Miami, FL" or
  "show me 456 Ocean Drive", is looked up by the digit run alone ("123",
  "456"). The address pattern's first capture group is the digits.
- An absent description shows `'N/A'`, the `safeGet` default. The
  description block is left out only when the description is present and
  falsy.
- In the single-property card an absent alias ends its chain, because
  `safeGet` returns the truthy `'N/A'`; see above.
- A failed provider call on `/api/property` is answered with an error
  reply: 403 with the API-key message, or 500 with the error's message. The
  proxy sends demo data only when the provider answers without a matching
  property. The list endpoint answers every failure with 500.

## Model

| member | source | states |
|---|---|---|
| `JsValues.Get` | app.js:43 | `v?.[key]` is `undefined` on `null` and `undefined` and never throws; on an object it is the member, or `undefined` when the key is absent |
| `JsValues.First` | server.js:58 | `v?.[0]` is the first element of an array, `undefined` for an empty one and for anything that is not an array, object or string |
| `JsValues.IndexKey` | app.js:43 | a key reads an array element only when it is the canonical decimal numeral of the index |
| `JsValues.ChainFirstTruthy` | app.js:196-199 | `a \|\| b \|\| ...` is its first truthy operand |
| `JsValues.ChainAllFalsy` | app.js:196-199 | `a \|\| b \|\| ...` is its last operand when no operand before it is truthy |
| `JsValues.FalsyChain` | app.js:275-277 | a falsy chain has only falsy operands |
| `Format.FormatAddress` | app.js:12-37 | a string `address` is returned as is; an object `address` gives the joined nested parts; otherwise a truthy `streetAddress` or `street` gives the joined flat parts; otherwise `'Address not available'`; the precedence is that order |
| `FormatFacts.AddressOfStringComponents` | app.js:16-34 | for string parts, the address is the non-empty parts among street, city, state and zip, in that order, with `", "` only between two parts; all empty gives `'Address not available'` |
| `Format.Split` | app.js:42 | `path.split('.')` has at least one segment and no segment holds a dot |
| `FormatFacts.SplitJoin` | app.js:42 | joining the segments with `.` gives back the path |
| `FormatFacts.SafeGetKey` | app.js:40-45 | for a key without a dot, `safeGet` is member access with the default for `null` and `undefined`, and returns `0`, `''` and `false` as they are |
| `FormatFacts.SafeGetNested` | app.js:40-45 | for a path `a.b` of two keys without dots, `safeGet` is `obj?.[a]?.[b]` with the default for `null` and `undefined` |
| `FormatFacts.MissingSegmentGivesDefault` | app.js:42-45 | a missing segment anywhere along the path gives the default |
| `Format.StripNonNumeric` | app.js:54 | removing every character other than digits, `.` and `-` leaves only those characters and never lengthens the string |
| `FormatFacts.StripChar` | app.js:54 | a single digit, `.` or `-` is kept, and any other character is removed |
| `FormatFacts.StripAppend` | app.js:54 | stripping a concatenation is the concatenation of the stripped parts, so the kept characters stay in their order |
| `FormatFacts.StripDropsOthers` | app.js:54 | a string holding any other character gets strictly shorter |
| `FormatFacts.StripIdempotent` | app.js:54 | stripping twice is stripping once |
| `FormatFacts.ParseDecimal` | app.js:54 | `parseFloat` of a decimal numeral is the number it was written from |
| `Format.FormatCurrency` | app.js:52-62 | `'N/A'` for falsy input, for the literal `'N/A'`, and for a string whose stripped residue does not parse; otherwise the currency text of the number or the parsed residue |
| `Format.FormatNumber` | app.js:65-70 | the same guards, with the locale text of the number |
| `FormatFacts.DecoratedAmount` | app.js:52-69 | a decorated string such as `"$450,000"` formats as the number its digits spell, `"$0"` included: a truthy string of zero is formatted, where the number `0` gives `'N/A'` |
| `Display.DisplayProperty` | app.js:184-188 | the card is replaced by 'No property data available' exactly when the data is falsy |
| `Display.DisplayNeighborhood` | app.js:336-376 | 'No properties found' exactly when the input is not a non-empty array; a TypeError exactly when an element is `null` or `undefined`; otherwise one card per element, in order |
| `DisplayFacts.AbsentHeadEndsChain` | app.js:196-199 | in a `safeGet` chain an absent first key makes the value the truthy `'N/A'`, so no later alias is read |
| `DisplayFacts.LaterAliasOnlyAfterFalsyHead` | app.js:196-199 | the chain differs from its first alias only when the first key is present with a falsy value |
| `DisplayFacts.FirstAliasWins` | app.js:196-199 | a truthy first alias decides the chain |
| `DisplayFacts.SecondAliasWins` | app.js:196-197 | the second alias decides the chain when the first is present and falsy and the second truthy |
| `DisplayFacts.AliasChainStops` | app.js:196-199 | the k-th alias decides the chain when every alias before it is present and falsy and it is absent (`'N/A'`) or truthy |
| `DisplayFacts.AbsentPrice` | app.js:195-200 | an absent price shows `'N/A'` |
| `DisplayFacts.FirstPriceWins` | app.js:195-200 | a truthy numeric price is shown as its currency text; a price of `0` hands over to `listPrice` |
| `DisplayFacts.AbsentShownField` | app.js:206-211 | a field closed by `\|\| 'N/A'` whose first key is absent shows `'N/A'` |
| `DisplayFacts.AbsentLotSize` | app.js:274-280 | an absent lot size shows `'N/A sq ft'` |
| `DisplayFacts.LotSizePlaceholderMeansFalsyChain` | app.js:274-280 | the bare `'N/A'` comes only from a falsy chain; a truthy one always carries the unit |
| `DisplayFacts.FalsyAliases` | app.js:275-277 | a falsy `safeGet` chain means every alias is present with a falsy value |
| `DisplayFacts.LotSizePlaceholderNeedsFalsyAliases` | app.js:274-280 | the bare `'N/A'` lot size needs all three lot-size keys present and falsy |
| `DisplayFacts.CurrencyField` | app.js:315-319 | a field shown as `safeGet(k) ? formatCurrency(safeGet(k)) + unit : 'N/A'`: absent gives `'N/A'` with the unit, truthy its currency text with the unit, present and falsy the bare `'N/A'` |
| `DisplayFacts.HoaFeeShown` | app.js:315-319 | an absent HOA fee shows `'N/A/mo'`; a truthy one its currency text with `/mo`; a present falsy one `'N/A'` |
| `DisplayFacts.DescriptionShown` | app.js:323-328 | an absent description shows `'N/A'`; the block is left out exactly when the description is present and falsy |
| `DisplayFacts.BlockField` | app.js:323-328 | a block shown as `safeGet(k) ? ... : ''`: absent gives `'N/A'`, and the block is left out exactly when the value is present and falsy |
| `DisplayFacts.AreaPrice` | app.js:346-348 | a neighborhood card's price is the first truthy of `price`, `listPrice`, `estimatedValue`, through the currency format |
| `DisplayFacts.AreaBedrooms` | app.js:354 | a neighborhood card's bedrooms are `bedrooms`, else `beds`, else `'N/A'`: an absent field falls through |
| `DisplayFacts.AreaStatus` | app.js:369 | a neighborhood card's status is `status`, else `listingStatus`, else `'Active'` |
| `Query.MatchAt` | app.js:108 | every capture is non-empty, so `match[1] \|\| match[0]` is always `match[1]` |
| `Query.SpacesThen` | app.js:88 | greedy `\s+`/`\s*` before an item: the item starts after at least `min` white-space characters and at a character it accepts; the item is taken at the last accepted position of the run (greedy); no match means no position of the run is accepted |
| `Query.Search` | app.js:106 | `match` reports the leftmost start position with a match and its capture; none means no position matches |
| `Query.ParseQuery` | app.js:82-121 | the source's check-then-loop equals the rule table `Classify`: the neighborhood rule, then the first address pattern that matches, then the trimmed query |
| `QueryFacts.InfoAlternativesAgree` | app.js:101 | whichever alternative of `(?:information\|info\|details)\s+` matches, the match ends at the same place, so backtracking into another alternative never helps |
| `QueryFacts.VerbAlternativesAgree` | app.js:102 | the same for `(?:is\|are)\s+` |
| `QueryFacts.NounAlternativesAgree` | app.js:102 | the same for `(?:details\|information)\s+` |
| `QueryFacts.HouseNumberShapeMatches` | app.js:99 | a digit run followed by white space and a non-comma matches, with the digits as the capture |
| `QueryFacts.HouseNumberMatchShape` | app.js:99 | every house-number match has that shape |
| `QueryFacts.HouseNumberAtExact` | app.js:99 | the house-number pattern matches at a position exactly when that shape is there |
| `QueryFacts.LeftmostHouseNumberStartsRun` | app.js:99 | the reported house number starts its digit run: it is never the tail of a longer number |
| `QueryFacts.NoHouseNumber` | app.js:99 | the house-number pattern fails exactly when no digit run is followed by white space and a non-comma |
| `QueryFacts.LocationCommas` | app.js:88 | a location capture holds at most one comma |
| `QueryFacts.NeighborhoodRule` | app.js:86-94 | a query is a neighborhood search exactly when its lower-cased form holds a trigger phrase and `in`/`near` followed by a place matches |
| `QueryFacts.NeighborhoodLocation` | app.js:88-93 | the neighborhood location is the trimmed capture and holds at most one comma |
| `QueryFacts.LeadingPhraseStripped` | app.js:111 | a leading `show me `, `property information for ` or `what is the information on ` is removed, ignoring case; otherwise the capture is kept whole |
| `QueryFacts.DigitsUntouched` | app.js:111 | a digit capture survives the phrase removal and `trim` unchanged |
| `QueryFacts.HouseNumberWins` | app.js:98-113 | outside a neighborhood search, a house number anywhere in the query wins, and the address is just its digits |
| `QueryFacts.LaterPatternRule` | app.js:105-113 | the first address pattern that matches decides, and its capture is stripped and trimmed |
| `QueryFacts.FallbackToQuery` | app.js:116-120 | when nothing matches, the trimmed query is the address |
| `ProxyFacts.PropertyValidation` | server.js:31-35 | 400 exactly when the address is absent or empty, with 'Address is required' |
| `ProxyFacts.PropertyStatuses` | server.js:30-144 | the property endpoint answers 200, 400, 403 or 500 only |
| `ProxyFacts.ForbiddenOnlyFromProvider` | server.js:129-142 | 403 exactly when a provider call that was made was answered 403 |
| `ProxyFacts.AutocompleteFailure` | server.js:129-142 | a failed auto-complete call gives 403 with the API-key message when its status is 403, and 500 with the error's message otherwise |
| `ProxyFacts.DetailFailure` | server.js:129-142 | a failed detail call gives 403 with the API-key message when its status is 403, and otherwise 500 with 'Failed to fetch property data' and the error's message |
| `ProxyFacts.DetailRecordChoice` | server.js:83 | the record is the first element of the answer's `properties` when that is truthy, and the answer itself otherwise; it is `null` or `undefined` exactly when the answer is |
| `ProxyFacts.NullDetailRecord` | server.js:83-86 | a `null` or `undefined` detail answer makes reading `property.address` throw, and the handler at server.js:139-142 answers 500 with the TypeError's message |
| `ProxyFacts.FoundReply` | server.js:83-108 | a detail answer that is neither `null` nor `undefined` gives 200 with the formatted record built from the chosen record and the suggestion |
| `ProxyFacts.DemoFallback` | server.js:58-127 | the demo record is sent exactly when the provider answers and its first suggestion is missing, does not name a property, or carries no id |
| `ProxyFacts.DemoRecordFields` | server.js:115-127 | the demo record echoes the requested address, has status 'Demo Data' and price 450000 |
| `ProxyFacts.IdPreference` | server.js:63 | the property id is `_id` when that is truthy, and `mpr_id` otherwise |
| `ProxyFacts.DetailAskedById` | server.js:63-78 | the reply depends on the detail service only through its answer for that id |
| `ProxyFacts.AddressRemap` | server.js:86-91 | the provider's truthy `address` is kept; otherwise an object with exactly street, city, state and zip, each from the record or else from the suggestion |
| `ProxyFacts.FormattedPriceAndMls` | server.js:92-101 | the price is `price`, else `list_price`, else `estimate.estimate`; the MLS number is `listing_id`, else `mls.id` |
| `ProxyFacts.RangePreference` | server.js:93-95 | a range value prefers the exact value, then the maximum, then the minimum |
| `ProxyFacts.FormattedRanges` | server.js:93-95 | bedrooms, bathrooms and living area each follow that order |
| `ProxyFacts.ListValidation` | server.js:148-152 | 400 exactly when the location is absent or empty, with 'Location is required' |
| `ProxyFacts.ListFailures` | server.js:231-237 | the list endpoint answers 200, 400 or 500 only; a failed auto-complete call, a 403 included, gives 500 with the error's message |
| `ProxyFacts.ListDemo` | server.js:217-229 | with no suggestion, a single demo entry at '123 Main St, ' followed by the location, with status 'Demo Data' |
| `ProxyFacts.ListAskedByPlace` | server.js:176-191 | the reply depends on the list service only through its answer for the suggestion's city, state code and the limit text, which is "10" when the limit is absent |
| `ProxyFacts.ListCallFailure` | server.js:231-237 | a failed list call, whatever its status, gives 500 with 'Failed to fetch properties list' and the error's message |
| `ProxyFacts.NonArrayListing` | server.js:196 | a truthy `properties` member that is not an array has no `map`, and the handler at server.js:231-237 answers 500 with the TypeError's message |
| `ProxyFacts.ListMissingProperties` | server.js:196 | a listing without a truthy `properties` member gives an empty list |
| `ProxyFacts.ListMapping` | server.js:196-214 | one entry per provider property, in order, each the mapped item; a `null` or `undefined` property gives 500 |
| `ProxyFacts.FlatListAddress` | server.js:197-202 | a listed property whose address is a string keeps it as the street, with no city, state or zip |
| `DemoData.DemoAreaShown` | app.js:379-410 | a neighborhood query gets two area cards, built from the two fixed listings in order, whatever place was asked for |
| `DemoData.DemoPropertyShown` | app.js:379-413 | any other query gets the first listing's full card, with address '123 Main Street, Miami, FL 33101' and status 'For Sale', whatever address was asked for |
| `DemoData.TwoAreaCards` | app.js:336-376 | two listings that are neither `null` nor `undefined` give exactly two area cards, in order |
| `DemoData.ListingCard` | app.js:184-290 | a demo listing's card shows its own address and the 'For Sale' status |
| `EndToEnd.DemoShown` | server.js:115-127 | the client shows the demo record with the requested address and the 'Demo Data' status |
| `EndToEnd.DemoPriceShown` | server.js:117 | the client shows the demo price through the currency format |
| `EndToEnd.DemoPlaceholders` | app.js:295-318 | the demo record has no MLS number, lot size or HOA fee, so the client shows `'N/A'`, `'N/A sq ft'` and `'N/A/mo'` |
| `EndToEnd.BuiltAddressShown` | server.js:86-91 | when the provider's record has no truthy address, the client reads the reply's built address object through the nested branch of `formatAddress`, with the parts in the order the proxy wrote them |

The functions below carry no contract of their own. The rows named after
each one state what it computes:

- `Proxy.PropertyEndpoint` and `Proxy.PropertyRouteOf` (server.js:30-144):
  `PropertyValidation`, `AutocompleteFailure`, `DemoFallback`,
  `DetailFailure`, `NullDetailRecord`, `FoundReply`, `DetailAskedById`,
  `ForbiddenOnlyFromProvider` and `PropertyStatuses`.
- `Proxy.ListEndpoint` and `Proxy.ListRouteOf` (server.js:147-238):
  `ListValidation`, `ListFailures`, `ListCallFailure`, `NonArrayListing`,
  `ListDemo`, `ListAskedByPlace`, `ListMissingProperties` and `ListMapping`.
- `Proxy.FormattedProperty` (server.js:85-106): `AddressRemap`,
  `FormattedPriceAndMls`, `FormattedRanges` and `FoundReply`.
- `Proxy.ListItem` and `Proxy.ListAddress` (server.js:196-212): `ListMapping`
  and `FlatListAddress`.
- `Proxy.DemoRecord` (server.js:115-127): `DemoRecordFields`, `DemoFallback`
  and the `EndToEnd` rows. `Proxy.DemoListItem` (server.js:218-229): `ListDemo`.
- `Query.Classify`: `ParseQuery`, and each of its rules through
  `NeighborhoodRule`, `HouseNumberWins`, `LaterPatternRule` and
  `FallbackToQuery`. The matchers `Query.LocationAt` (app.js:88),
  `Query.HouseNumberAt` (app.js:99), `Query.ShowMeAt` (app.js:100),
  `Query.PropertyInfoAt` (app.js:101) and `Query.WhatIsDetailsAt` (app.js:102)
  promise only a non-empty capture, which `MatchAt` uses. What they match is
  stated by `HouseNumberAtExact`, `NoHouseNumber`, `LocationCommas` and the
  `*AlternativesAgree` rows.
- `Format.Walk` and `Format.SafeGet` (app.js:40-49): `SafeGetKey`,
  `SafeGetNested` and `MissingSegmentGivesDefault`.
- `Format.ParseResidue` and `Format.Amount` (app.js:52-69): `FormatCurrency`,
  `FormatNumber`, `ParseDecimal` and `DecoratedAmount`.
- `Display.ShownText`, `Display.PriceText`, `Display.LotSizeText`,
  `Display.HoaFeeText`, `Display.DescriptionText` (app.js:184-333) and
  `Display.AreaCardOf` (app.js:336-376): the `DisplayFacts` rows, one field or
  alias rule each.

## Left out

- Browser side effects: element lookups, `innerHTML` and `style` writes, event
  handlers, speech recognition, the welcome markup, and the `show*`/`hide*`
  helpers. The HTML around each card field is not modelled; the field values are.
- `searchProperties` (app.js:124-181): the client's `fetch` calls and response
  handling. They are network glue around the modelled functions.
- Express routing, CORS, dotenv, the health endpoint, `app.listen`, the axios
  transport and `console` logging. Provider calls enter as function parameters.
- Number conversions: `Number.prototype.toString`, `toLocaleString`, the
  `Intl.NumberFormat` currency format and `Number(string)` are uninterpreted
  parameters (the `Host` datatype).
- Floating point: numbers are reals, and JSON values have no NaN or
  infinities. `parseFloat` is modelled exactly on the stripped residue, but
  without rounding to binary floating point.
- Unicode case mapping: `Text.Lower` folds ASCII letters only. The trigger
  phrases and patterns are ASCII, and case-insensitive matching without the
  `u` flag never maps a non-ASCII character to an ASCII one.
- Neither properties inherited from prototypes (a string's `length`, say)
  nor an array's own `length` are members in `JsValues.Get`; no modelled
  path reads either. Functions are not values.
- Query parameters that Express's parser turns into arrays or objects:
  parameters are absent or a string.
- `Proxy.PropertyJson` keeps members whose value is `undefined`; `res.json`
  drops them. A read through `Get` sees `undefined` either way.
  `ProxyFacts.DemoFallback` compares bodies as built, before serialization.
- The exact text of the engine's TypeError messages is a parameter
  (`typeErrorText`). One text stands for every TypeError of a handler:
  reading a member of `null` or `undefined` (server.js:83-86, 196-197) and
  calling `map` on a non-array (server.js:196) are not told apart.
- `Format.FormatAddress` requires a value that is not `null` or `undefined`,
  because the source reads `data.address` and would throw. Both callers
  guarantee this: `DisplayProperty` checks truthiness first, and
  `DisplayNeighborhood` reports the TypeError instead.
- No lemma evaluates the classifier on a concrete query string. Unfolding the
  hand-coded matchers over literal text is beyond the proof budget used here.
  The general lemmas (`HouseNumberWins`, `LaterPatternRule`, `FallbackToQuery`)
  state each rule for all queries.
