# mtg-mcp deck rules, Moxfield and EDHREC helpers in Dafny

mtg-mcp is an MCP server for Magic: The Gathering's Commander format. Its tools
look cards up on Scryfall, fetch decks from Moxfield and fetch recommendations
and combos from EDHREC. This project models the logic of those tools that does
no I/O, with every network lookup turned into a parameter:

- `CommanderDeck` (commander_deck.dfy) models main.go:
  - the `validate_deck` handler:
    - the decklist parser (a JSON array, or text lines with an optional
      quantity prefix);
    - the case- and space-insensitive name tally;
    - the singleton rule with its six basic lands;
    - the deck-size rule (99 / 100 / other);
    - the commander-eligibility and banned checks;
  - the three-way verdict of `check_commander_legality`;
  - the result limit of `search_cards`.
- `Moxfield` (moxfield.dfy) models moxfield.go:
  - the deck id taken from a deck URL;
  - the page-size and page-number clamps;
  - the assembly of the search URL's query string;
  - the grouping of mainboard entries by card type;
  - the card-group text and the deck total.
- `Edhrec` (edhrec.dfy) models edhrec.go:
  - the card-name slug;
  - the three URL paths;
  - the two display formatters, with their "show at most limit, then say how
    many more" arithmetic and their skipping of empty lists;
  - the flattening of the top-cards lists.
- `Text` (text.dfy) holds the parts of Go's `strings`, `strconv` and `fmt` that
  the three use:
  - ASCII case mapping;
  - `TrimSpace`, `Split`, `Join` and `Contains`;
  - `%d` formatting and reading digits back.

Where the code has a loop that grows a slice, a map or a string builder, the
model has a method with a loop. Each such method is proved equal to a
specification function, and the properties are proved about that function.
Go maps (`cardCounts`, the Moxfield mainboard) are a multiset and a map,
iterated in an order the method does not fix. `json.Unmarshal` is a
parameter, `JsonOutcome`:

- `Decoded(names)`: it succeeded;
- `Rejected(leftover)`: it failed, and leftover is whatever it had already
  stored in `cardNames`.

Go keeps that partial fill when an element has the wrong type. The text parser
then appends to it, so the model follows that path instead of ruling it out by
a precondition.

Where the code and the documented behaviour differ, the model follows the code:

- `validate_deck` reports an error only for the legality "banned"
  (main.go:508-510). Any other status, "not_legal" included, yields no error
  there. Only `check_commander_legality` distinguishes the three cases.
- The search page size falls back to 20 when it is out of range, 150 included
  (moxfield.go:178-182). The table in moxfield_test.go:369-371 expects 100
  for 150, but it only logs the value and never checks it.
- No per-card colour-identity check exists in the code (main.go:564 says so),
  and none is modelled.

## Model

| member | source | states |
|---|---|---|
| CommanderDeck.ParseDecklist | main.go:463-487 | a decoded JSON array is returned untouched; otherwise the result is the leftover of the failed decode followed by the names read from the lines, in line order |
| CommanderDeck.AppendLineName | main.go:475-485 | each non-blank line appends exactly one name: the part after the first space when the part before it scans as `%d`, otherwise the whole trimmed line |
| CommanderDeck.TextNamesAppend | main.go:468-486 | lines are read independently: the names of two blocks of lines are the names of the first followed by those of the second |
| CommanderDeck.TextNamesShape | main.go:468-486 | a line yields at most one name, exactly one when it is not blank; every name is non-empty and trimmed |
| CommanderDeck.LineNameTrimmed | main.go:470-485 | the name taken from a trimmed non-blank line is itself non-empty and trimmed |
| CommanderDeck.QuantityPrefixStripped | main.go:475-479 | a line "N name" yields just [name]: the quantity is dropped and never multiplies the entry |
| CommanderDeck.ExampleSolRing | main.go:474 | "1 Sol Ring" reads as "Sol Ring" |
| CommanderDeck.ExampleMountain | main.go:475-479 | "2 Mountain" contributes one "Mountain" |
| CommanderDeck.ExampleForest | main.go:483-484 | a line without a space is kept whole |
| CommanderDeck.TallyCards | main.go:532-535 | the tally is the multiset of lower(trim(name)) over all parsed names |
| CommanderDeck.KeyTallyCounts | main.go:532-535 | a key's count is the number of names that normalise to it, and the counts add up to the number of names |
| CommanderDeck.RepeatedKey | main.go:532-540 | a key is counted more than once iff two different entries normalise to it |
| CommanderDeck.IsBasicLand | main.go:538-547 | the inner search answers true iff the key is one of plains, island, swamp, mountain, forest, wastes |
| CommanderDeck.FindDuplicates | main.go:537-552 | the duplicates list has one "key (xN)" line per violating key and no other line |
| CommanderDeck.SingletonViolation | main.go:532-552 | a key is reported iff it is not a basic land and two entries of the decklist normalise to it |
| CommanderDeck.DistinctDeckHasNoViolations | main.go:532-552 | a decklist whose entries all normalise differently has no duplicates |
| CommanderDeck.SingletonPassesIff | main.go:537-562 | the singleton rule passes iff every repeated key is a basic land |
| CommanderDeck.ExampleSingleton | main.go:537-552 | two Sol Rings and five Forests report only "sol ring" |
| CommanderDeck.CheckDeckSize | main.go:521-529 | 99 passes, 100 passes with the commander-included note, any other count fails |
| CommanderDeck.QuantityDoesNotCountTowardsSize | main.go:475-479 | a one-line decklist "N name" counts as one card, whatever N is, and so fails the size rule |
| CommanderDeck.EligibleWhateverTheCase | main.go:513-514 | "legendary" in the type line, or "can be your commander" in the oracle text, in any letter case, makes a card eligible |
| CommanderDeck.ExampleLegendary | main.go:513-517 | a "Legendary Creature" is eligible |
| CommanderDeck.ExampleNotLegendary | main.go:513-517 | a plain creature with unrelated text is not eligible |
| CommanderDeck.CheckCommanderLegality | main.go:290-296 | "banned" and "legal" get their own verdicts and every other status is "not legal" |
| CommanderDeck.BannedCommanderError | main.go:508-510 | validate_deck reports a ban error iff the status is exactly "banned" |
| CommanderDeck.NotLegalIsNoValidationError | main.go:508-510 | a "not legal" commander draws no ban error in validate_deck |
| CommanderDeck.ValidateDeck | main.go:451-566 | no commander gives the not-found error; otherwise the report carries the name and colour identity, the ban and eligibility errors, the size and its verdict, and exactly the violating keys' duplicate lines |
| CommanderDeck.SearchLimit | main.go:167-176 | the limit is 10 without a numeric argument, the argument itself up to 50, and 50 above that |
| CommanderDeck.ShowResultsAsWritten | main.go:189-196 | as written, no cards gives the empty message, and a negative limit with at least one card slices out of range |
| CommanderDeck.NegativeLimitPanics | main.go:194-196 | limit -1 with one card found makes `cards[:limit]` panic |
| CommanderDeck.ShowResults | main.go:189-196 | never slices out of range; shows the first min(limit, n) cards in order, none for a negative limit, and agrees with the code for every limit >= 0 |
| CommanderDeck.SearchShowsAtMostFifty | main.go:167-196 | whenever search_cards shows cards, as written or with the limit clamped, it shows at most 50 and never more than were found |
| Moxfield.ExtractPublicIDFromURL | moxfield.go:233-242 | the loop returns the segment after the first "decks" segment that has a successor, else the input |
| Moxfield.IdAfterDecksFirst | moxfield.go:236-241 | nothing is found iff no segment but the last is "decks"; when something is found it follows the first such "decks" |
| Moxfield.PublicIdIsSegment | moxfield.go:235-241 | the id is the unchanged input or a '/'-free segment of it |
| Moxfield.DeckUrlId | moxfield.go:233-239 | a URL .../decks/ID/... with no earlier "decks" segment yields ID |
| Moxfield.BareIdUnchanged | moxfield.go:241 | an input without '/' comes back unchanged |
| Moxfield.UserDecksPageSize | moxfield.go:132-135 | the user-decks page size is always in 1..100: in-range values are kept, the rest become 100 |
| Moxfield.UserDecksURLPageSize | moxfield.go:137 | the digits after "pageSize=" in the user-decks URL read back as the clamped size |
| Moxfield.ClampSearchParams | moxfield.go:178-185 | the search page size is kept in 1..100 and otherwise 20; a page number below 1 becomes 1; no other field changes |
| Moxfield.ClampIdempotent | moxfield.go:178-185 | clamping twice is clamping once |
| Moxfield.ClampPaging | moxfield.go:178-185 | the in-place clamps leave exactly the clamped parameters |
| Moxfield.SearchURL | moxfield.go:188-202 | the URL is the search URL followed by the rendered query of the clamped parameters |
| Moxfield.AddBoardQuery | moxfield.go:191-193 | appending "&board=commanders&query=Q" when Q is set extends the rendered query by those two pairs |
| Moxfield.AddPair | moxfield.go:194-202 | each optional "&key=value" append extends the rendered query by that one pair when its field is set |
| Moxfield.SearchQueryPagesFirst | moxfield.go:188-189 | the query always starts with pageSize and then pageNumber |
| Moxfield.SearchQueryOrder | moxfield.go:188-202 | the pairs appear in the order pageSize, pageNumber, board, query, fmt, sortType, sortDirection |
| Moxfield.SearchQueryOptional | moxfield.go:191-202 | board and query are present iff the query is set; fmt, sortType and sortDirection each iff their field is set |
| Moxfield.RenderQueryIsJoin | moxfield.go:188-202 | the rendered query is "?" followed by the key=value pieces joined by '&' |
| Moxfield.QueryPiecesRoundTrip | moxfield.go:188-202 | splitting the query after "?" at '&' gives the pieces back, whenever no key or value contains '&' |
| Moxfield.CategoryIsFirstMatch | moxfield.go:274-291 | an entry's group is that of the first of creature, instant, sorcery, artifact, enchantment, planeswalker and land in its lower-cased type line, and "others" iff none occurs |
| Moxfield.AddLine | moxfield.go:276-291 | an append changes the entry's own group only, by one line |
| Moxfield.GroupEntry | moxfield.go:271-291 | one loop iteration files the entry's line and adds its quantity to the total |
| Moxfield.GroupEntriesCount | moxfield.go:270-293 | the groups hold one line per entry |
| Moxfield.GroupEntriesTotal | moxfield.go:271-272 | totalCards is the sum of the quantities |
| Moxfield.GroupEntriesMember | moxfield.go:270-293 | a line is in a group iff an entry of that group's category renders to it |
| Moxfield.GroupDeckCards | moxfield.go:258-296 | whatever the map order: the group sizes add up to the number of entries; totalCards is the sum of quantities; each group holds one line per entry of its category; each "Nx name" line occurs in a group exactly as many times as there are entries of that category rendering it |
| Moxfield.ListingFacts | moxfield.go:270-293 | the line count, the total and line membership hold for every order of the map's keys |
| Moxfield.ListingGroupSizes | moxfield.go:270-293 | for every order of the keys, each group's size is the number of entries of its category |
| Moxfield.ListingLineCounts | moxfield.go:270-293 | for every order of the keys, a line's multiplicity in a group is the number of entries of that category rendering it |
| Moxfield.GroupEntriesLineCount | moxfield.go:274-292 | appending one entry at a time, a line occurs in a group as often as the entries that render it in that category |
| Moxfield.GroupEntriesSize | moxfield.go:274-292 | appending one entry at a time, a group grows by one for each entry of its category |
| Moxfield.ListingCount | moxfield.go:270 | counting the entries in any duplicate-free listing of the keys counts the matching keys |
| Moxfield.ListingSum | moxfield.go:271-272 | the summed quantities do not depend on the order of the keys |
| Moxfield.FormatCardGroup | moxfield.go:347-360 | the builder loop produces the card-group text |
| Moxfield.CardGroupLines | moxfield.go:347-360 | the text is empty iff the list is; otherwise its lines are the header with the list length, one "- card" line per card in order, and a blank line |
| Moxfield.DeckTotal | moxfield.go:370-372 | the reported total is the summed quantity of the mainboard plus the number of commander entries |
| Edhrec.SanitizeCardName | edhrec.go:86-102 | the slug uses only a-z, 0-9 and '-', never holds "--" and never starts or ends with '-' |
| Edhrec.ReplaceSpaces | edhrec.go:92 | every space becomes '-' and every other character is kept |
| Edhrec.KeepSlugChars | edhrec.go:91-92 | the filter leaves only a-z, 0-9 and '-' |
| Edhrec.CollapseHyphensSlug | edhrec.go:95-96 | collapsing leaves no "--" and stays in the slug alphabet |
| Edhrec.TrimKeepsSlug | edhrec.go:99 | trimming edge hyphens from such a text gives a slug |
| Edhrec.SanitizeSlug | edhrec.go:86-102 | a text that is already a slug comes back unchanged |
| Edhrec.SanitizeIdempotent | edhrec.go:86-102 | sanitizing twice is sanitizing once |
| Edhrec.SanitizeIgnoresCase | edhrec.go:88 | a name and its lower-case form give the same slug |
| Edhrec.DropsPunctuation | edhrec.go:91-92 | a character other than a space that is outside the slug alphabet even after lower-casing is simply dropped |
| Edhrec.SpacesBecomeOneHyphen | edhrec.go:92-96 | a run of spaces between two slug words becomes a single hyphen |
| Edhrec.ExampleBlackLotus | edhrec_test.go:40 | "Black   Lotus" sanitizes to "black-lotus" |
| Edhrec.CollapseAppend | edhrec.go:95-96 | collapsing works piece by piece across a boundary that does not split a hyphen run |
| Edhrec.CollapseHyphenRun | edhrec.go:95-96 | any run of hyphens becomes one hyphen |
| Edhrec.RecommendationsURLOfSlug | edhrec.go:106-107 | a slug is used as-is in the recommendations path, and a name leads to the same URL as its slug |
| Edhrec.CombosURLIgnoresCase | edhrec.go:140 | colour codes differing only in letter case give the same combos URL |
| Edhrec.TopCardsURLPage | edhrec.go:263 | the page number reads back from the top-cards URL, with a minus sign exactly when it is negative |
| Edhrec.ShownCount | edhrec.go:189-192 | the shown count is the full length when limit <= 0, else min(limit, length) |
| Edhrec.ShownOrCounted | edhrec.go:214-216 | the "...and N more" line appears iff the limit cut the list, with N the number left out, so shown plus N is the length |
| Edhrec.WriteMoreLine | edhrec.go:214-216 | the closing line is written only when items were held back |
| Edhrec.WriteRecsHeader | edhrec.go:172-177 | the header names the commander and the deck count, with the colour identity only when there is one |
| Edhrec.RecsHeaderLines | edhrec.go:173-178 | split at newlines, the header is the title line, a blank line, the deck-count line, then the colour-identity line and a blank line exactly when there are colours, then the empty rest |
| Edhrec.WriteCardList | edhrec.go:181-216 | a list with no cards writes nothing; otherwise it writes its header, the first ShownCount cards numbered from 1 and the "more" line |
| Edhrec.FormatCommanderRecsForDisplay | edhrec.go:170-220 | the output is the header followed by one section per card list, in order |
| Edhrec.EmptyListsSkipped | edhrec.go:182-184 | lists without cards contribute nothing: the text is the same with them removed |
| Edhrec.LimitNotReached | edhrec.go:189-192 | a limit no list exceeds gives the same text as no limit at all |
| Edhrec.WriteCombo | edhrec.go:235-250 | a combo block has the numbered title, a cards line only when there are cards, colours upper-cased, the usage line, a results line only when there are results, and a blank line |
| Edhrec.ComboBlockLines | edhrec.go:236-249 | split at newlines, a combo block is the numbered title, the cards line exactly when there are cards, the colours line, the usage line, the results line exactly when there are results, a blank line and the empty rest |
| Edhrec.WriteCombos | edhrec.go:234-251 | the loop writes the blocks of the first count combos in order |
| Edhrec.FormatCombosForDisplay | edhrec.go:223-258 | the output is the header with the full combo count, the first ShownCount combos and the "more" line |
| Edhrec.ComboBlocksPrefix | edhrec.go:234-251 | showing fewer combos gives a prefix of the text with more |
| Edhrec.CombosLimitNotReached | edhrec.go:229-232 | a limit at least the number of combos gives the same text as no limit |
| Edhrec.ComboColorsUpper | edhrec.go:243 | one line of the block is the colours label followed by the colour code with the same letters up to case and no lower-case letter |
| Edhrec.TopCards | edhrec.go:289-295 | the loop returns the card views of every list, list after list |
| Edhrec.FlattenAppend | edhrec.go:290-293 | flattening two runs of lists is flattening each and concatenating |
| Edhrec.FlattenContents | edhrec.go:290-293 | the flat list holds exactly the cards of the lists, as many as they hold together |
| Edhrec.FlattenSkipsEmpty | edhrec.go:290-293 | lists without cards add nothing to the flat list |
| Text.SplitJoin | main.go:468 | splitting at a separator loses nothing: joining the pieces gives the text back and no piece holds the separator |
| Text.TrimSpaceFacts | main.go:470 | the trimmed line is a slice of the line, has no edge white space, and is empty iff the line is all white space |
| Text.ContainsIff | main.go:513 | `Contains` holds iff the text occurs at some position |

## Left out

- Network I/O is not modelled: every Scryfall, Moxfield and EDHREC request, `HTTPGet` and `getMoxfieldDeckWithURL`. The fetched data are parameters: the commander card, the Moxfield mainboard, the EDHREC lists and combos.
- JSON decoding is a parameter (`JsonOutcome`) and is not implemented. Its partial fill on a type error is modelled, not excluded by a precondition.
- Floating point: the inclusion percentage, synergy and salt lines arrive already formatted as `statLines`, and the combo percentage as `percentText`. `convertToBRL` and `getUSDToBRLRate` are left out. The `float64`-to-`int` conversion of the search limit is taken as done (`LimitArgument` carries an int).
- Go's `int` is unbounded here. The model ignores overflow of `totalCards` and of `limit`, except that `%d` scanning rejects values outside the 64-bit range (`ScansAsInt`).
- Letter case and white space are ASCII only. Unicode letters whose lower case is ASCII, such as the Kelvin sign, would survive Go's slug filter but are dropped by the model's.
- Map iteration order is not fixed: the duplicates list and the card groups are stated for every order, not for one.
- The markdown around the counted parts is not modelled:
  - `formatDeckHeader`, including the dynamically typed Authors field;
  - the commander, sideboard and maybeboard text of `FormatDeckForDisplay`;
  - the search-result card lines;
  - the `check_commander_legality` format table.
- MCP tool and resource registration, request-argument parsing, the rules text, the banned-list resource, the logger and the cmd/chat client are outside the core and not modelled.
- SanitizeCardName's longer whole-name examples ("Atraxa, Praetors' Voice", "Will-o'-the-Wisp") are not proved literally; only "Black   Lotus" is (ExampleBlackLotus). Unfolding the pipeline on long literals is beyond what the verifier does quickly. The rules they illustrate are proved for all inputs instead: DropsPunctuation, SpacesBecomeOneHyphen, SanitizeIgnoresCase and SanitizeSlug.
- The line-by-line statements (RecsHeaderLines, ComboBlockLines, ComboColorsUpper) assume that the commander name, colour codes, card names, percentage text and results hold no newline of their own; a newline inside one of them would split its line in two.
- Moxfield.AddPair: states the extended URL only through the rendered query, not as the literal string concatenation of the source line.
- Moxfield.AddBoardQuery: states the extended URL only through the rendered query, not as the literal string concatenation of the source line.

## Findings

| source | as written | input that shows it | evidently intended | confidence | as-written member | corrected member |
|---|---|---|---|---|---|---|
| main.go:167-196 | the limit is capped at 50 from above only, and `result.Cards[:limit]` runs whenever more cards were found than the limit; the server is built with `server.WithRecovery()` (main.go:43), so the panic comes back as a tool error result rather than stopping the server | search_cards with `"limit": -1` and at least one card found: `cards[:-1]` panics | a negative limit shows no cards (or falls back to the default) instead of panicking | high that it panics, not executed | CommanderDeck.NegativeLimitPanics | CommanderDeck.ShowResults |
