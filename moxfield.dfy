/** The request-building and display logic of the Moxfield client (moxfield.go),
    with the HTTP round trips factored out: the public id of a deck URL, the
    page clamps and query string of the user-decks and search requests, the
    type-line grouping of a deck's mainboard and the text of one card group. */
module Moxfield {
  import opened Text

  // =====================================================================
  // Public id of a deck URL (ExtractPublicIDFromURL, moxfield.go:233-242)

  /** The segment right after the first "decks" segment that has a successor. */
  function IdAfterDecks(parts: seq<string>): Option<string> {
    if |parts| < 2 then None
    else if parts[0] == "decks" then Some(parts[1])
    else IdAfterDecks(parts[1..])
  }

  /** What ExtractPublicIDFromURL returns: that segment, or the input unchanged. */
  function PublicId(url: string): string {
    match IdAfterDecks(Split(url, '/'))
    case Some(id) => id
    case None => url
  }

  /** The search loop over the '/'-separated segments, returning early. */
  method ExtractPublicIDFromURL(url: string) returns (id: string)
    ensures id == PublicId(url)
  {
    var parts := Split(url, '/');
    for i := 0 to |parts|
      invariant IdAfterDecks(parts[i..]) == IdAfterDecks(parts)
    {
      if parts[i] == "decks" && i + 1 < |parts| {
        return parts[i + 1];
      }
      assert parts[i..][1..] == parts[i + 1..];
    }
    return url;
  }

  /** Position i holds the first "decks" segment that has a successor. */
  predicate FirstDecksAt(parts: seq<string>, i: int) {
    0 <= i < |parts| - 1 && parts[i] == "decks" && forall j :: 0 <= j < i ==> parts[j] != "decks"
  }

  /** The scan finds the successor of the FIRST "decks" segment that has one, and
      finds nothing exactly when no segment but the last is "decks". */
  lemma {:induction false} IdAfterDecksFirst(parts: seq<string>)
    ensures IdAfterDecks(parts).None? <==> forall i :: 0 <= i < |parts| - 1 ==> parts[i] != "decks"
    ensures IdAfterDecks(parts).Some? ==> exists i :: FirstDecksAt(parts, i) && IdAfterDecks(parts) == Some(parts[i + 1])
  {
    if |parts| >= 2 && parts[0] != "decks" {
      var rest := parts[1..];
      IdAfterDecksFirst(rest);
      if IdAfterDecks(rest).Some? {
        var i :| FirstDecksAt(rest, i) && IdAfterDecks(rest) == Some(rest[i + 1]);
        assert parts[i + 1] == "decks" && parts[i + 2] == rest[i + 1];
        forall j | 0 <= j < i + 1 ensures parts[j] != "decks" {
          if j > 0 {
            assert parts[j] == rest[j - 1];
          }
        }
        assert FirstDecksAt(parts, i + 1);
      } else {
        forall k | 0 <= k < |parts| - 1 ensures parts[k] != "decks" {
          if k > 0 {
            assert parts[k] == rest[k - 1];
          }
        }
      }
    } else if |parts| >= 2 {
      assert FirstDecksAt(parts, 0);
    }
  }

  /** The result is the input unchanged, or one of its '/'-separated segments and
      then free of '/'. */
  lemma PublicIdIsSegment(url: string)
    ensures PublicId(url) == url || (PublicId(url) in Split(url, '/') && '/' !in PublicId(url))
  {
    var parts := Split(url, '/');
    IdAfterDecksFirst(parts);
    SplitJoin(url, '/');
    if IdAfterDecks(parts).Some? {
      var i :| FirstDecksAt(parts, i) && IdAfterDecks(parts) == Some(parts[i + 1]);
      assert parts[i + 1] in parts;
    }
  }

  /** Segments before the first "decks" are skipped. */
  lemma {:induction false} IdAfterDecksSkip(prefix: seq<string>, tail: seq<string>)
    requires "decks" !in prefix && |tail| >= 1
    ensures IdAfterDecks(prefix + tail) == IdAfterDecks(tail)
  {
    if prefix != [] {
      assert prefix[0] in prefix;
      assert (prefix + tail)[1..] == prefix[1..] + tail;
      assert forall x :: x in prefix[1..] ==> x in prefix;
      assert (prefix + tail)[0] == prefix[0] && |prefix + tail| >= 2;
      IdAfterDecksSkip(prefix[1..], tail);
    } else {
      assert prefix + tail == tail;
    }
  }

  /** A deck URL ".../decks/<id>[/...]" whose segments before "decks" are not
      "decks" yields <id>: a trailing slash is dropped and a query string after
      the id is kept. */
  lemma DeckUrlId(prefix: seq<string>, id: string, rest: seq<string>)
    requires "decks" !in prefix
    requires forall p :: p in prefix + [id] + rest ==> '/' !in p
    ensures PublicId(Join(prefix + ["decks", id] + rest, '/')) == id
  {
    var parts := prefix + ["decks", id] + rest;
    forall p | p in parts ensures '/' !in p {
      if p != "decks" {
        assert p in prefix + [id] + rest;
      }
    }
    SplitOfJoin(parts, '/');
    assert parts == prefix + (["decks", id] + rest);
    IdAfterDecksSkip(prefix, ["decks", id] + rest);
  }

  /** An input without '/' (a bare id) is returned as it is. */
  lemma BareIdUnchanged(url: string)
    requires '/' !in url
    ensures PublicId(url) == url
  {
    SplitNoSep(url, '/');
  }

  // =====================================================================
  // Page clamps and request URLs (moxfield.go:132-137, 178-202)

  const MaxPageSize := 100
  const DefaultSearchPageSize := 20

  /** The page size getUserDecksWithURL asks for: out-of-range sizes become the maximum. */
  function UserDecksPageSize(pageSize: int): (size: int)
    ensures 1 <= size <= MaxPageSize
    ensures 1 <= pageSize <= MaxPageSize ==> size == pageSize
    ensures pageSize <= 0 || pageSize > MaxPageSize ==> size == MaxPageSize
  {
    if pageSize <= 0 || pageSize > MaxPageSize then MaxPageSize else pageSize
  }

  /** The user-decks request URL. */
  function UserDecksURL(baseURL: string, username: string, pageSize: int): string {
    baseURL + "/users/" + username + "/decks?pageSize=" + NatToString(UserDecksPageSize(pageSize))
  }

  /** The page size in the user-decks URL reads back as the clamped size. */
  lemma UserDecksURLPageSize(baseURL: string, username: string, pageSize: int)
    ensures exists digits ::
              UserDecksURL(baseURL, username, pageSize) == baseURL + "/users/" + username + "/decks?pageSize=" + digits &&
              AllDigits(digits) && DigitsValue(digits) == UserDecksPageSize(pageSize) &&
              1 <= DigitsValue(digits) <= MaxPageSize
  {
    var digits := NatToString(UserDecksPageSize(pageSize));
    DigitsValueOfNatToString(UserDecksPageSize(pageSize));
    assert AllDigits(digits);
  }

  /** The search parameters (MoxfieldSearchParams). */
  datatype SearchParams = SearchParams(
    query: string,
    format: string,
    sortType: string,
    sortDirection: string,
    pageSize: int,
    pageNumber: int)

  /** The search parameters after searchMoxfieldDecksWithURL's clamps. */
  function ClampSearchParams(params: SearchParams): (p: SearchParams)
    ensures 1 <= p.pageSize <= MaxPageSize && p.pageNumber >= 1
    ensures 1 <= params.pageSize <= MaxPageSize ==> p.pageSize == params.pageSize
    ensures params.pageSize <= 0 || params.pageSize > MaxPageSize ==> p.pageSize == DefaultSearchPageSize
    ensures params.pageNumber >= 1 ==> p.pageNumber == params.pageNumber
    ensures params.pageNumber < 1 ==> p.pageNumber == 1
    ensures p.(pageSize := params.pageSize, pageNumber := params.pageNumber) == params
  {
    var sized := if params.pageSize <= 0 || params.pageSize > MaxPageSize
                 then params.(pageSize := DefaultSearchPageSize) else params;
    if sized.pageNumber < 1 then sized.(pageNumber := 1) else sized
  }

  /** Clamping clamped parameters changes nothing. */
  lemma ClampIdempotent(params: SearchParams)
    ensures ClampSearchParams(ClampSearchParams(params)) == ClampSearchParams(params)
  {
  }

  /** One key=value pair of a query string. */
  datatype QueryParam = QueryParam(key: string, value: string)

  /** The pairs of the search query, in the order the code appends them. */
  function SearchQuery(p: SearchParams): seq<QueryParam> {
    Optional(WithSort(p), p.sortDirection != "", [QueryParam("sortDirection", p.sortDirection)])
  }

  /** The stages of SearchQuery: the page pairs, then each optional field in turn. */
  function PageParams(p: SearchParams): seq<QueryParam> {
    [QueryParam("pageSize", IntToString(p.pageSize)), QueryParam("pageNumber", IntToString(p.pageNumber))]
  }

  function WithQuery(p: SearchParams): seq<QueryParam> {
    Optional(PageParams(p), p.query != "", [QueryParam("board", "commanders"), QueryParam("query", p.query)])
  }

  function WithFormat(p: SearchParams): seq<QueryParam> {
    Optional(WithQuery(p), p.format != "", [QueryParam("fmt", p.format)])
  }

  function WithSort(p: SearchParams): seq<QueryParam> {
    Optional(WithFormat(p), p.sortType != "", [QueryParam("sortType", p.sortType)])
  }

  /** The pairs q, followed by more when the field they come from is set. */
  function Optional(q: seq<QueryParam>, set_: bool, more: seq<QueryParam>): seq<QueryParam> {
    if set_ then q + more else q
  }

  /** A query string: "?" before the first pair, "&" before each later one. */
  function RenderQuery(params: seq<QueryParam>): string {
    if params == [] then ""
    else
      var last := params[|params| - 1];
      RenderQuery(params[..|params| - 1]) + (if |params| == 1 then "?" else "&") + last.key + "=" + last.value
  }

  lemma RenderQuerySnoc(params: seq<QueryParam>, key: string, value: string)
    requires params != []
    ensures RenderQuery(params + [QueryParam(key, value)]) == RenderQuery(params) + "&" + key + "=" + value
  {
    assert (params + [QueryParam(key, value)])[..|params|] == params;
  }

  lemma RenderQueryPages(base: string, p: SearchParams)
    ensures base + "?pageSize=" + IntToString(p.pageSize) + "&pageNumber=" + IntToString(p.pageNumber) ==
            base + RenderQuery(PageParams(p))
    ensures PageParams(p) != [] && WithQuery(p) != [] && WithFormat(p) != [] && WithSort(p) != []
  {
    var size, number := IntToString(p.pageSize), IntToString(p.pageNumber);
    var q := PageParams(p);
    QueryFragments();
    assert q[..1] == [QueryParam("pageSize", size)];
    assert [QueryParam("pageSize", size)][..0] == [];
    assert RenderQuery(q[..1]) == "?" + "pageSize" + "=" + size;
    assert RenderQuery(q) == "?pageSize=" + size + "&pageNumber=" + number;
  }

  /** searchMoxfieldDecksWithURL's URL building: clamp the page fields in place,
      then grow the URL one optional parameter at a time. */
  method SearchURL(params: SearchParams, searchURL: string) returns (url: string)
    ensures url == searchURL + RenderQuery(SearchQuery(ClampSearchParams(params)))
  {
    var p := ClampPaging(params);
    url := searchURL + "?pageSize=" + IntToString(p.pageSize) + "&pageNumber=" + IntToString(p.pageNumber);
    RenderQueryPages(searchURL, p);
    url := AddBoardQuery(url, searchURL, PageParams(p), p.query);
    url := AddPair(url, searchURL, WithQuery(p), p.format != "", "fmt", p.format);
    url := AddPair(url, searchURL, WithFormat(p), p.sortType != "", "sortType", p.sortType);
    url := AddPair(url, searchURL, WithSort(p), p.sortDirection != "", "sortDirection", p.sortDirection);
  }

  /** The in-place clamping of page size and page number that starts the search. */
  method ClampPaging(params: SearchParams) returns (p: SearchParams)
    ensures p == ClampSearchParams(params)
  {
    var pageSize, pageNumber := params.pageSize, params.pageNumber;
    if pageSize <= 0 || pageSize > MaxPageSize {
      pageSize := DefaultSearchPageSize;
    }
    if pageNumber < 1 {
      pageNumber := 1;
    }
    p := params.(pageSize := pageSize, pageNumber := pageNumber);
  }

  /** Appending one "&key=value" to a rendered query renders the query with that pair added. */
  lemma SnocOnto(url: string, base: string, q: seq<QueryParam>, key: string, value: string)
    requires q != [] && url == base + RenderQuery(q)
    ensures url + "&" + key + "=" + value == base + RenderQuery(q + [QueryParam(key, value)])
  {
    RenderQuerySnoc(q, key, value);
  }

  /** One optional parameter of the search URL: "&key=value" is appended when its field is set. */
  method AddPair(url: string, ghost base: string, ghost q: seq<QueryParam>, set_: bool, key: string, value: string)
    returns (extended: string)
    requires q != [] && url == base + RenderQuery(q)
    ensures extended == base + RenderQuery(Optional(q, set_, [QueryParam(key, value)]))
  {
    extended := url;
    if set_ {
      extended := url + "&" + key + "=" + value;
      SnocOnto(url, base, q, key, value);
    }
  }

  /** The query field, when set, appends both "&board=commanders" and "&query=". */
  method AddBoardQuery(url: string, ghost base: string, ghost q: seq<QueryParam>, query: string)
    returns (extended: string)
    requires q != [] && url == base + RenderQuery(q)
    ensures extended == base + RenderQuery(Optional(q, query != "", [QueryParam("board", "commanders"), QueryParam("query", query)]))
  {
    extended := url;
    if query != "" {
      extended := url + "&board=commanders&query=" + query;
      BoardFragment(url, query);
      var board := url + "&" + "board" + "=" + "commanders";
      SnocOnto(url, base, q, "board", "commanders");
      var q' := q + [QueryParam("board", "commanders")];
      SnocOnto(board, base, q', "query", query);
      assert q' + [QueryParam("query", query)] == q + [QueryParam("board", "commanders"), QueryParam("query", query)];
    }
  }

  lemma BoardFragment(url: string, query: string)
    ensures url + "&board=commanders&query=" + query == url + "&" + "board" + "=" + "commanders" + "&" + "query" + "=" + query
  {
    QueryFragments();
  }

  /** The literal fragments of the search URL are "&key=" (or "?key=") pieces. */
  lemma QueryFragments()
    ensures "?pageSize=" == "?" + "pageSize" + "="
    ensures "&pageNumber=" == "&" + "pageNumber" + "="
    ensures "&board=commanders&query=" == "&" + "board" + "=" + "commanders" + ("&" + "query" + "=")
  {
  }

  /** The keys the search may send, in the order the code appends them. */
  const SearchKeys: seq<string> := ["pageSize", "pageNumber", "board", "query", "fmt", "sortType", "sortDirection"]

  /** Each key appears at most once and keys follow the fixed order of SearchKeys. */
  predicate InSearchOrder(q: seq<QueryParam>) {
    (forall i :: 0 <= i < |q| ==> q[i].key in SearchKeys) &&
    forall i, j :: 0 <= i < j < |q| ==> KeyRank(q[i].key) < KeyRank(q[j].key)
  }

  function KeyRank(key: string): nat {
    if key == "pageSize" then 0
    else if key == "pageNumber" then 1
    else if key == "board" then 2
    else if key == "query" then 3
    else if key == "fmt" then 4
    else if key == "sortType" then 5
    else 6
  }

  /** The search query always starts with the page size and then the page number. */
  lemma SearchQueryPagesFirst(p: SearchParams)
    ensures var q := SearchQuery(p);
            |q| >= 2 && q[0] == QueryParam("pageSize", IntToString(p.pageSize)) &&
            q[1] == QueryParam("pageNumber", IntToString(p.pageNumber))
  {
    OptionalPrefix(PageParams(p), p.query != "", [QueryParam("board", "commanders"), QueryParam("query", p.query)]);
    OptionalPrefix(WithQuery(p), p.format != "", [QueryParam("fmt", p.format)]);
    OptionalPrefix(WithFormat(p), p.sortType != "", [QueryParam("sortType", p.sortType)]);
    OptionalPrefix(WithSort(p), p.sortDirection != "", [QueryParam("sortDirection", p.sortDirection)]);
  }

  lemma OptionalPrefix(q: seq<QueryParam>, set_: bool, more: seq<QueryParam>)
    ensures |Optional(q, set_, more)| >= |q|
    ensures forall i :: 0 <= i < |q| ==> Optional(q, set_, more)[i] == q[i]
  {
  }

  /** The search query keeps the fixed key order, each key at most once. */
  lemma SearchQueryOrder(p: SearchParams)
    ensures InSearchOrder(SearchQuery(p))
  {
    WithFormatOrder(p);
    KnownRanks();
    SingleInOrder("sortType", p.sortType);
    SingleInOrder("sortDirection", p.sortDirection);
    OptionalInOrder(WithFormat(p), p.sortType != "", [QueryParam("sortType", p.sortType)], 5, 6);
    OptionalInOrder(WithSort(p), p.sortDirection != "", [QueryParam("sortDirection", p.sortDirection)], 6, 7);
  }

  /** The first three stages of the search query are in order, below the sort keys. */
  lemma WithFormatOrder(p: SearchParams)
    ensures InSearchOrder(WithFormat(p))
    ensures forall i :: 0 <= i < |WithFormat(p)| ==> KeyRank(WithFormat(p)[i].key) < 5
  {
    KnownRanks();
    var pages := PageParams(p);
    var board := [QueryParam("board", "commanders"), QueryParam("query", p.query)];
    assert InSearchOrder(pages) by {
      assert pages[0].key == "pageSize" && pages[1].key == "pageNumber";
    }
    assert InSearchOrder(board) by {
      assert board[0].key == "board" && board[1].key == "query";
    }
    SingleInOrder("fmt", p.format);
    OptionalInOrder(pages, p.query != "", board, 2, 4);
    OptionalInOrder(WithQuery(p), p.format != "", [QueryParam("fmt", p.format)], 4, 5);
  }

  /** The rank of each key of the search, and that each is one of SearchKeys. */
  lemma KnownRanks()
    ensures KeyRank("pageSize") == 0 && KeyRank("pageNumber") == 1 && KeyRank("board") == 2
    ensures KeyRank("query") == 3 && KeyRank("fmt") == 4 && KeyRank("sortType") == 5
    ensures KeyRank("sortDirection") == 6
    ensures forall i :: 0 <= i < |SearchKeys| ==> KeyRank(SearchKeys[i]) == i
  {
  }

  /** A single pair with a known key is in order. */
  lemma SingleInOrder(key: string, value: string)
    requires key in SearchKeys
    ensures InSearchOrder([QueryParam(key, value)])
  {
  }

  /** Extending a query in order by pairs of higher rank keeps it in order. */
  lemma OptionalInOrder(q: seq<QueryParam>, set_: bool, more: seq<QueryParam>, lo: nat, hi: nat)
    requires InSearchOrder(q) && InSearchOrder(more)
    requires forall i :: 0 <= i < |q| ==> KeyRank(q[i].key) < lo
    requires forall i :: 0 <= i < |more| ==> lo <= KeyRank(more[i].key) < hi
    requires lo <= hi
    ensures InSearchOrder(Optional(q, set_, more))
    ensures forall i :: 0 <= i < |Optional(q, set_, more)| ==> KeyRank(Optional(q, set_, more)[i].key) < hi
  {
    var r := Optional(q, set_, more);
    if set_ {
      forall i | 0 <= i < |r| ensures r[i].key in SearchKeys {
        if i >= |q| {
          assert r[i] == more[i - |q|];
        }
      }
      forall i, j | 0 <= i < j < |r| ensures KeyRank(r[i].key) < KeyRank(r[j].key) {
        if j >= |q| {
          assert r[j] == more[j - |q|];
          if i >= |q| {
            assert r[i] == more[i - |q|];
          }
        }
      }
    }
  }

  /** Each optional pair is in the search query exactly when its field is set. */
  lemma SearchQueryOptional(p: SearchParams)
    ensures var q := SearchQuery(p);
            (QueryParam("board", "commanders") in q <==> p.query != "") &&
            (QueryParam("query", p.query) in q <==> p.query != "") &&
            (QueryParam("fmt", p.format) in q <==> p.format != "") &&
            (QueryParam("sortType", p.sortType) in q <==> p.sortType != "") &&
            (QueryParam("sortDirection", p.sortDirection) in q <==> p.sortDirection != "")
  {
    SearchQueryMember(p, QueryParam("board", "commanders"));
    SearchQueryMember(p, QueryParam("query", p.query));
    SearchQueryMember(p, QueryParam("fmt", p.format));
    SearchQueryMember(p, QueryParam("sortType", p.sortType));
    SearchQueryMember(p, QueryParam("sortDirection", p.sortDirection));
  }

  /** A pair is in the search query when it is a page pair or the pair of a set field. */
  lemma SearchQueryMember(p: SearchParams, x: QueryParam)
    ensures x in SearchQuery(p) <==>
            x in PageParams(p) ||
            (p.query != "" && x in [QueryParam("board", "commanders"), QueryParam("query", p.query)]) ||
            (p.format != "" && x == QueryParam("fmt", p.format)) ||
            (p.sortType != "" && x == QueryParam("sortType", p.sortType)) ||
            (p.sortDirection != "" && x == QueryParam("sortDirection", p.sortDirection))
  {
    InOptional(PageParams(p), p.query != "", [QueryParam("board", "commanders"), QueryParam("query", p.query)], x);
    InOptional(WithQuery(p), p.format != "", [QueryParam("fmt", p.format)], x);
    InOptional(WithFormat(p), p.sortType != "", [QueryParam("sortType", p.sortType)], x);
    InOptional(WithSort(p), p.sortDirection != "", [QueryParam("sortDirection", p.sortDirection)], x);
  }

  /** A pair is in an optional extension when it was there already or was added. */
  lemma InOptional(q: seq<QueryParam>, set_: bool, more: seq<QueryParam>, x: QueryParam)
    ensures x in Optional(q, set_, more) <==> x in q || (set_ && x in more)
  {
  }

  /** The same query as a '&'-join of "key=value" pieces after a "?". */
  lemma {:induction false} RenderQueryIsJoin(q: seq<QueryParam>)
    requires |q| >= 1
    ensures RenderQuery(q) == "?" + Join(Pieces(q), '&')
  {
    if |q| > 1 {
      var init := q[..|q| - 1];
      RenderQueryIsJoin(init);
      JoinSnoc(Pieces(init), q[|q| - 1].key + "=" + q[|q| - 1].value, '&');
      assert Pieces(q) == Pieces(init) + [q[|q| - 1].key + "=" + q[|q| - 1].value];
    }
  }

  function Pieces(q: seq<QueryParam>): (pieces: seq<string>)
    ensures |pieces| == |q|
  {
    seq(|q|, i requires 0 <= i < |q| => q[i].key + "=" + q[i].value)
  }

  lemma {:induction false} JoinSnoc(parts: seq<string>, last: string, sep: char)
    requires |parts| >= 1
    ensures Join(parts + [last], sep) == Join(parts, sep) + [sep] + last
  {
    if |parts| > 1 {
      assert (parts + [last])[1..] == parts[1..] + [last];
      JoinSnoc(parts[1..], last, sep);
    }
  }

  /** When no key or value contains '&', splitting the query string at '&'
      gives back one "key=value" piece per pair, in order. */
  lemma QueryPiecesRoundTrip(q: seq<QueryParam>)
    requires |q| >= 1
    requires forall i :: 0 <= i < |q| ==> '&' !in q[i].key && '&' !in q[i].value
    ensures Split(RenderQuery(q)[1..], '&') == Pieces(q)
  {
    RenderQueryIsJoin(q);
    var pieces := Pieces(q);
    forall piece | piece in pieces ensures '&' !in piece {
      var i :| 0 <= i < |q| && pieces[i] == piece;
      assert piece == q[i].key + "=" + q[i].value;
    }
    SplitOfJoin(pieces, '&');
    assert RenderQuery(q)[1..] == Join(pieces, '&');
  }

  // =====================================================================
  // Grouping the mainboard by type line (groupDeckCards, moxfield.go:258-296)

  /** The fields of a card the display uses (MoxfieldCardInfo). */
  datatype CardInfo = CardInfo(name: string, typeLine: string)

  /** A board entry (MoxfieldCardEntry). */
  datatype CardEntry = CardEntry(quantity: int, card: CardInfo)

  datatype Category =
    | Creatures | Instants | Sorceries | Artifacts | Enchantments | Planeswalkers | Lands | Others

  datatype CategoryWord = CategoryWord(word: string, category: Category)

  /** The words the type-line switch tries, in order, and the group each selects. */
  const CategoryWords: seq<CategoryWord> := [
    CategoryWord("creature", Creatures), CategoryWord("instant", Instants), CategoryWord("sorcery", Sorceries),
    CategoryWord("artifact", Artifacts), CategoryWord("enchantment", Enchantments),
    CategoryWord("planeswalker", Planeswalkers), CategoryWord("land", Lands)]

  /** The group of a card: the switch on its lower-cased type line. */
  function CategoryOf(typeLine: string): Category {
    var t := ToLower(typeLine);
    if Contains(t, "creature") then Creatures
    else if Contains(t, "instant") then Instants
    else if Contains(t, "sorcery") then Sorceries
    else if Contains(t, "artifact") then Artifacts
    else if Contains(t, "enchantment") then Enchantments
    else if Contains(t, "planeswalker") then Planeswalkers
    else if Contains(t, "land") then Lands
    else Others
  }

  /** The switch picks the group of the first word of CategoryWords the lower-cased
      type line contains, and Others when it contains none. */
  lemma CategoryIsFirstMatch(typeLine: string)
    ensures var t := ToLower(typeLine);
            CategoryOf(typeLine) == Others <==> forall i :: 0 <= i < |CategoryWords| ==> !Contains(t, CategoryWords[i].word)
    ensures var t := ToLower(typeLine);
            CategoryOf(typeLine) != Others ==>
              exists i :: 0 <= i < |CategoryWords| && CategoryWords[i].category == CategoryOf(typeLine) &&
                          Contains(t, CategoryWords[i].word) &&
                          forall j :: 0 <= j < i ==> !Contains(t, CategoryWords[j].word)
  {
    var t := ToLower(typeLine);
    var c := CategoryOf(typeLine);
    if c != Others {
      var i := if c == Creatures then 0 else if c == Instants then 1 else if c == Sorceries then 2
               else if c == Artifacts then 3 else if c == Enchantments then 4 else if c == Planeswalkers then 5 else 6;
      assert CategoryWords[i].category == c;
    }
  }

  /** The eight groups and the quantity total (deckCardGroups). */
  datatype Groups = Groups(
    creatures: seq<string>,
    instants: seq<string>,
    sorceries: seq<string>,
    artifacts: seq<string>,
    enchantments: seq<string>,
    planeswalkers: seq<string>,
    lands: seq<string>,
    others: seq<string>,
    totalCards: int)

  const NoGroups := Groups([], [], [], [], [], [], [], [], 0)

  function GroupOf(g: Groups, c: Category): seq<string> {
    match c
    case Creatures => g.creatures
    case Instants => g.instants
    case Sorceries => g.sorceries
    case Artifacts => g.artifacts
    case Enchantments => g.enchantments
    case Planeswalkers => g.planeswalkers
    case Lands => g.lands
    case Others => g.others
  }

  /** The number of lines in all eight groups. */
  function LineCount(g: Groups): nat {
    |g.creatures| + |g.instants| + |g.sorceries| + |g.artifacts| +
    |g.enchantments| + |g.planeswalkers| + |g.lands| + |g.others|
  }

  /** Appending a line to one group changes that group only. */
  function AddLine(g: Groups, c: Category, line: string): (r: Groups)
    ensures GroupOf(r, c) == GroupOf(g, c) + [line]
    ensures forall d :: d != c ==> GroupOf(r, d) == GroupOf(g, d)
    ensures r.totalCards == g.totalCards
    ensures LineCount(r) == LineCount(g) + 1
  {
    match c
    case Creatures => g.(creatures := g.creatures + [line])
    case Instants => g.(instants := g.instants + [line])
    case Sorceries => g.(sorceries := g.sorceries + [line])
    case Artifacts => g.(artifacts := g.artifacts + [line])
    case Enchantments => g.(enchantments := g.enchantments + [line])
    case Planeswalkers => g.(planeswalkers := g.planeswalkers + [line])
    case Lands => g.(lands := g.lands + [line])
    case Others => g.(others := g.others + [line])
  }

  /** The display line of an entry: "<quantity>x <name>". */
  function CardLine(e: CardEntry): string {
    IntToString(e.quantity) + "x " + e.card.name
  }

  /** One iteration of the grouping loop: the entry's line joins the group of its
      category and its quantity joins the total. */
  function AddEntry(g: Groups, e: CardEntry): Groups {
    AddLine(g, CategoryOf(e.card.typeLine), CardLine(e)).(totalCards := g.totalCards + e.quantity)
  }

  /** The groups of a sequence of entries taken in that order. */
  function GroupEntries(entries: seq<CardEntry>): Groups {
    if entries == [] then NoGroups
    else AddEntry(GroupEntries(entries[..|entries| - 1]), entries[|entries| - 1])
  }

  /** The sum of the quantities of a sequence of entries. */
  function SumQuantities(entries: seq<CardEntry>): int {
    if entries == [] then 0 else SumQuantities(entries[..|entries| - 1]) + entries[|entries| - 1].quantity
  }

  /** The groups hold one line per entry. */
  lemma {:induction false} GroupEntriesCount(entries: seq<CardEntry>)
    ensures LineCount(GroupEntries(entries)) == |entries|
  {
    if entries != [] {
      GroupEntriesCount(entries[..|entries| - 1]);
    }
  }

  /** The total is the sum of the quantities. */
  lemma {:induction false} GroupEntriesTotal(entries: seq<CardEntry>)
    ensures GroupEntries(entries).totalCards == SumQuantities(entries)
  {
    if entries != [] {
      GroupEntriesTotal(entries[..|entries| - 1]);
    }
  }

  /** Some entry of category c renders to line. */
  predicate HasLine(entries: seq<CardEntry>, c: Category, line: string) {
    exists i :: 0 <= i < |entries| && CategoryOf(entries[i].card.typeLine) == c && CardLine(entries[i]) == line
  }

  /** A line is in a group exactly when an entry of that group's category renders to it:
      every entry lands in the group of its category and in no other. */
  lemma {:induction false} GroupEntriesMember(entries: seq<CardEntry>, c: Category, line: string)
    ensures line in GroupOf(GroupEntries(entries), c) <==> HasLine(entries, c, line)
  {
    if entries == [] {
      assert GroupOf(NoGroups, c) == [];
    } else {
      var init := entries[..|entries| - 1];
      var e := entries[|entries| - 1];
      GroupEntriesMember(init, c, line);
      var g := GroupEntries(init);
      AddEntryGroup(g, e, c);
      var here := CategoryOf(e.card.typeLine) == c && CardLine(e) == line;
      assert line in GroupOf(GroupEntries(entries), c) <==> line in GroupOf(g, c) || here;
      HasLineSnoc(init, e, c, line);
      SnocOfLast(entries);
    }
  }

  lemma SnocOfLast<T>(s: seq<T>)
    requires s != []
    ensures s[..|s| - 1] + [s[|s| - 1]] == s
  {
  }

  /** Adding an entry appends its line to the group of its category only. */
  lemma AddEntryGroup(g: Groups, e: CardEntry, c: Category)
    ensures GroupOf(AddEntry(g, e), c) ==
            GroupOf(g, c) + (if CategoryOf(e.card.typeLine) == c then [CardLine(e)] else [])
  {
  }

  lemma HasLineSnoc(init: seq<CardEntry>, e: CardEntry, c: Category, line: string)
    ensures HasLine(init + [e], c, line) <==>
            HasLine(init, c, line) || (CategoryOf(e.card.typeLine) == c && CardLine(e) == line)
  {
    var entries := init + [e];
    if HasLine(init, c, line) {
      var i :| 0 <= i < |init| && CategoryOf(init[i].card.typeLine) == c && CardLine(init[i]) == line;
      assert entries[i] == init[i];
    }
    if CategoryOf(e.card.typeLine) == c && CardLine(e) == line {
      assert entries[|init|] == e;
    }
    if HasLine(entries, c, line) {
      var i :| 0 <= i < |entries| && CategoryOf(entries[i].card.typeLine) == c && CardLine(entries[i]) == line;
      if i < |init| {
        assert init[i] == entries[i];
      }
    }
  }

  /** The entries of a map in the order of a sequence of its keys. */
  function EntriesOf(order: seq<string>, board: map<string, CardEntry>): (entries: seq<CardEntry>)
    requires forall k :: k in order ==> k in board
    ensures |entries| == |order|
  {
    seq(|order|, i requires 0 <= i < |order| => board[order[i]])
  }

  /** The sum of the quantities of a board, with no order fixed. */
  ghost function TotalQuantity(board: map<string, CardEntry>): int
    decreases |board|
  {
    if board == map[] then 0
    else
      var k :| k in board;
      board[k].quantity + TotalQuantity(board - {k})
  }

  /** groupDeckCards: one pass over the board in map order. */
  method GroupDeckCards(mainboard: map<string, CardEntry>) returns (groups: Groups)
    ensures LineCount(groups) == |mainboard|
    ensures groups.totalCards == TotalQuantity(mainboard)
    ensures forall c, line :: line in GroupOf(groups, c) <==>
              exists k :: k in mainboard && CategoryOf(mainboard[k].card.typeLine) == c && CardLine(mainboard[k]) == line
    ensures forall c :: |GroupOf(groups, c)| == |set k | k in mainboard && CategoryOf(mainboard[k].card.typeLine) == c|
    ensures forall c, line :: multiset(GroupOf(groups, c))[line] ==
              |set k | k in mainboard && CategoryOf(mainboard[k].card.typeLine) == c && CardLine(mainboard[k]) == line|
  {
    groups := NoGroups;
    var remaining := mainboard.Keys;
    ghost var order: seq<string> := [];
    while remaining != {}
      invariant remaining <= mainboard.Keys
      invariant forall k :: k in order ==> k in mainboard && k !in remaining
      invariant forall k :: k in mainboard && k !in remaining ==> k in order
      invariant forall i, j :: 0 <= i < j < |order| ==> order[i] != order[j]
      invariant |order| + |remaining| == |mainboard|
      invariant groups == GroupEntries(EntriesOf(order, mainboard))
      decreases |remaining|
    {
      var key :| key in remaining;
      groups := GroupEntry(groups, mainboard[key]);
      EntriesOfSnoc(order, key, mainboard);
      order := order + [key];
      remaining := remaining - {key};
    }
    ListingFacts(order, mainboard);
    ListingGroupSizes(order, mainboard);
    ListingLineCounts(order, mainboard);
  }

  /** The body of the grouping loop: the total, then the type-line switch. */
  method GroupEntry(groups: Groups, entry: CardEntry) returns (r: Groups)
    ensures r == AddEntry(groups, entry)
  {
    var cardLine := IntToString(entry.quantity) + "x " + entry.card.name;
    r := groups.(totalCards := groups.totalCards + entry.quantity);
    var typeLine := ToLower(entry.card.typeLine);
    if Contains(typeLine, "creature") {
      r := r.(creatures := r.creatures + [cardLine]);
    } else if Contains(typeLine, "instant") {
      r := r.(instants := r.instants + [cardLine]);
    } else if Contains(typeLine, "sorcery") {
      r := r.(sorceries := r.sorceries + [cardLine]);
    } else if Contains(typeLine, "artifact") {
      r := r.(artifacts := r.artifacts + [cardLine]);
    } else if Contains(typeLine, "enchantment") {
      r := r.(enchantments := r.enchantments + [cardLine]);
    } else if Contains(typeLine, "planeswalker") {
      r := r.(planeswalkers := r.planeswalkers + [cardLine]);
    } else if Contains(typeLine, "land") {
      r := r.(lands := r.lands + [cardLine]);
    } else {
      r := r.(others := r.others + [cardLine]);
    }
  }

  lemma EntriesOfSnoc(order: seq<string>, key: string, board: map<string, CardEntry>)
    requires forall k :: k in order ==> k in board
    requires key in board
    ensures EntriesOf(order + [key], board) == EntriesOf(order, board) + [board[key]]
  {
  }

  /** What the loop's final order tells about the board. */
  lemma ListingFacts(order: seq<string>, board: map<string, CardEntry>)
    requires forall k :: k in order <==> k in board
    requires forall i, j :: 0 <= i < j < |order| ==> order[i] != order[j]
    requires |order| == |board|
    ensures var g := GroupEntries(EntriesOf(order, board));
            LineCount(g) == |board| &&
            g.totalCards == TotalQuantity(board) &&
            forall c, line :: line in GroupOf(g, c) <==>
              exists k :: k in board && CategoryOf(board[k].card.typeLine) == c && CardLine(board[k]) == line
  {
    var entries := EntriesOf(order, board);
    GroupEntriesCount(entries);
    GroupEntriesTotal(entries);
    ListingSum(order, board);
    forall c, line
      ensures line in GroupOf(GroupEntries(entries), c) <==>
              exists k :: k in board && CategoryOf(board[k].card.typeLine) == c && CardLine(board[k]) == line
    {
      ListingMember(order, board, c, line);
    }
  }

  /** The entries in listing order render a line of category c exactly when some
      board entry does. */
  lemma ListingMember(order: seq<string>, board: map<string, CardEntry>, c: Category, line: string)
    requires forall k :: k in order <==> k in board
    ensures line in GroupOf(GroupEntries(EntriesOf(order, board)), c) <==>
            exists k :: k in board && CategoryOf(board[k].card.typeLine) == c && CardLine(board[k]) == line
  {
    var entries := EntriesOf(order, board);
    GroupEntriesMember(entries, c, line);
    if HasLine(entries, c, line) {
      var i :| 0 <= i < |entries| && CategoryOf(entries[i].card.typeLine) == c && CardLine(entries[i]) == line;
      assert order[i] in board && entries[i] == board[order[i]];
    }
    if exists k :: k in board && CategoryOf(board[k].card.typeLine) == c && CardLine(board[k]) == line {
      var k :| k in board && CategoryOf(board[k].card.typeLine) == c && CardLine(board[k]) == line;
      var i :| 0 <= i < |order| && order[i] == k;
      assert entries[i] == board[k];
    }
  }

  /** Summing the board in any listing order gives its total quantity. */
  lemma {:induction false} ListingSum(order: seq<string>, board: map<string, CardEntry>)
    requires forall k :: k in order <==> k in board
    requires forall i, j :: 0 <= i < j < |order| ==> order[i] != order[j]
    ensures SumQuantities(EntriesOf(order, board)) == TotalQuantity(board)
    decreases |order|
  {
    if order == [] {
      assert board.Keys == {};
    } else {
      var k := order[0];
      var smaller := board - {k};
      RestListsSmaller(order, board);
      ListingSum(order[1..], smaller);
      EntriesOfCons(order, board, smaller);
      SumCons(board[k], EntriesOf(order[1..], smaller));
      TotalQuantityPick(board, k);
    }
  }

  /** After the first key, a duplicate-free listing lists the board without that key. */
  lemma RestListsSmaller(order: seq<string>, board: map<string, CardEntry>)
    requires order != []
    requires forall k :: k in order <==> k in board
    requires forall i, j :: 0 <= i < j < |order| ==> order[i] != order[j]
    ensures forall x :: x in order[1..] <==> x in board - {order[0]}
    ensures forall i, j :: 0 <= i < j < |order[1..]| ==> order[1..][i] != order[1..][j]
  {
    var rest := order[1..];
    forall x ensures x in rest <==> x in board - {order[0]} {
      if x in board - {order[0]} {
        var j :| 0 <= j < |order| && order[j] == x;
        assert rest[j - 1] == x;
      }
      if x in rest {
        var j :| 0 <= j < |rest| && rest[j] == x;
        assert order[j + 1] == x;
      }
    }
  }

  lemma EntriesOfCons(order: seq<string>, board: map<string, CardEntry>, smaller: map<string, CardEntry>)
    requires order != []
    requires forall k :: k in order <==> k in board
    requires forall x :: x in order[1..] <==> x in smaller
    requires forall x :: x in smaller ==> x in board && smaller[x] == board[x]
    ensures EntriesOf(order, board) == [board[order[0]]] + EntriesOf(order[1..], smaller)
  {
  }

  lemma SumCons(e: CardEntry, entries: seq<CardEntry>)
    ensures SumQuantities([e] + entries) == e.quantity + SumQuantities(entries)
  {
    SumWithout([e] + entries, 0);
    assert ([e] + entries)[..0] + ([e] + entries)[1..] == entries;
  }

  /** How many entries of a sequence satisfy p. */
  function CountWhere(entries: seq<CardEntry>, p: CardEntry -> bool): nat {
    if entries == [] then 0
    else CountWhere(entries[..|entries| - 1], p) + (if p(entries[|entries| - 1]) then 1 else 0)
  }

  /** The keys of a board whose entry satisfies p. */
  ghost function KeysWhere(board: map<string, CardEntry>, p: CardEntry -> bool): set<string> {
    set k | k in board && p(board[k])
  }

  lemma {:induction false} CountWhereCons(e: CardEntry, entries: seq<CardEntry>, p: CardEntry -> bool)
    ensures CountWhere([e] + entries, p) == (if p(e) then 1 else 0) + CountWhere(entries, p)
    decreases |entries|
  {
    if entries != [] {
      var init := entries[..|entries| - 1];
      CountWhereCons(e, init, p);
      assert ([e] + entries)[..|entries|] == [e] + init;
    }
  }

  /** A line occurs in the group of category c as many times as the entries
      rendering that line in that category. */
  lemma {:induction false} GroupEntriesLineCount(entries: seq<CardEntry>, c: Category, line: string, p: CardEntry -> bool)
    requires forall e :: p(e) <==> CategoryOf(e.card.typeLine) == c && CardLine(e) == line
    ensures multiset(GroupOf(GroupEntries(entries), c))[line] == CountWhere(entries, p)
  {
    if entries != [] {
      var init := entries[..|entries| - 1];
      var e := entries[|entries| - 1];
      GroupEntriesLineCount(init, c, line, p);
      AddEntryGroup(GroupEntries(init), e, c);
    }
  }

  /** The group of category c holds one line per entry of that category. */
  lemma {:induction false} GroupEntriesSize(entries: seq<CardEntry>, c: Category, p: CardEntry -> bool)
    requires forall e :: p(e) <==> CategoryOf(e.card.typeLine) == c
    ensures |GroupOf(GroupEntries(entries), c)| == CountWhere(entries, p)
  {
    if entries != [] {
      var init := entries[..|entries| - 1];
      var e := entries[|entries| - 1];
      GroupEntriesSize(init, c, p);
      AddEntryGroup(GroupEntries(init), e, c);
    }
  }

  /** Counting the board in any listing order counts its keys. */
  lemma {:induction false} ListingCount(order: seq<string>, board: map<string, CardEntry>, p: CardEntry -> bool)
    requires forall k :: k in order <==> k in board
    requires forall i, j :: 0 <= i < j < |order| ==> order[i] != order[j]
    ensures CountWhere(EntriesOf(order, board), p) == |KeysWhere(board, p)|
    decreases |order|
  {
    if order == [] {
      assert KeysWhere(board, p) == {};
    } else {
      var k := order[0];
      var smaller := board - {k};
      RestListsSmaller(order, board);
      ListingCount(order[1..], smaller, p);
      EntriesOfCons(order, board, smaller);
      CountWhereCons(board[k], EntriesOf(order[1..], smaller), p);
      KeysWherePick(board, k, p);
    }
  }

  lemma KeysWherePick(board: map<string, CardEntry>, k: string, p: CardEntry -> bool)
    requires k in board
    ensures |KeysWhere(board, p)| == (if p(board[k]) then 1 else 0) + |KeysWhere(board - {k}, p)|
  {
    var smaller := board - {k};
    if p(board[k]) {
      assert KeysWhere(board, p) == KeysWhere(smaller, p) + {k};
    } else {
      assert KeysWhere(board, p) == KeysWhere(smaller, p);
    }
  }

  /** The size of each group built in listing order. */
  lemma ListingGroupSizes(order: seq<string>, board: map<string, CardEntry>)
    requires forall k :: k in order <==> k in board
    requires forall i, j :: 0 <= i < j < |order| ==> order[i] != order[j]
    ensures forall c :: |GroupOf(GroupEntries(EntriesOf(order, board)), c)| ==
              |set k | k in board && CategoryOf(board[k].card.typeLine) == c|
  {
    var entries := EntriesOf(order, board);
    forall c
      ensures |GroupOf(GroupEntries(entries), c)| == |set k | k in board && CategoryOf(board[k].card.typeLine) == c|
    {
      var p := (e: CardEntry) => CategoryOf(e.card.typeLine) == c;
      GroupEntriesSize(entries, c, p);
      ListingCount(order, board, p);
      assert KeysWhere(board, p) == set k | k in board && CategoryOf(board[k].card.typeLine) == c;
    }
  }

  /** How often each line occurs in each group built in listing order. */
  lemma ListingLineCounts(order: seq<string>, board: map<string, CardEntry>)
    requires forall k :: k in order <==> k in board
    requires forall i, j :: 0 <= i < j < |order| ==> order[i] != order[j]
    ensures forall c, line :: multiset(GroupOf(GroupEntries(EntriesOf(order, board)), c))[line] ==
              |set k | k in board && CategoryOf(board[k].card.typeLine) == c && CardLine(board[k]) == line|
  {
    var entries := EntriesOf(order, board);
    forall c, line
      ensures multiset(GroupOf(GroupEntries(entries), c))[line] ==
              |set k | k in board && CategoryOf(board[k].card.typeLine) == c && CardLine(board[k]) == line|
    {
      var p := (e: CardEntry) => CategoryOf(e.card.typeLine) == c && CardLine(e) == line;
      GroupEntriesLineCount(entries, c, line, p);
      ListingCount(order, board, p);
      assert KeysWhere(board, p) == set k | k in board && CategoryOf(board[k].card.typeLine) == c && CardLine(board[k]) == line;
    }
  }

  /** TotalQuantity may remove any key first. */
  lemma TotalQuantityPick(board: map<string, CardEntry>, k: string)
    requires k in board
    ensures TotalQuantity(board) == board[k].quantity + TotalQuantity(board - {k})
    decreases |board|
  {
    var k' :| k' in board && TotalQuantity(board) == board[k'].quantity + TotalQuantity(board - {k'});
    if k' != k {
      var both := board - {k} - {k'};
      assert board - {k} - {k'} == board - {k'} - {k};
      TotalQuantityPick(board - {k}, k');
      TotalQuantityPick(board - {k'}, k);
    }
  }

  /** Removing one entry from a sequence removes its quantity from the sum. */
  lemma {:induction false} SumWithout(entries: seq<CardEntry>, i: nat)
    requires i < |entries|
    ensures SumQuantities(entries) == entries[i].quantity + SumQuantities(entries[..i] + entries[i + 1..])
  {
    var n := |entries| - 1;
    if i < n {
      var init := entries[..n];
      SumWithout(init, i);
      assert init[..i] + init[i + 1..] == (entries[..i] + entries[i + 1..])[..n - 1];
    } else {
      assert entries[..i] + entries[i + 1..] == entries[..n];
    }
  }

  // =====================================================================
  // The text of a card group (formatCardGroup, moxfield.go:347-360)

  /** The header line of a non-empty group: "**Creatures (12):**". */
  function GroupHeader(title: string, count: nat): string {
    "**" + title + " (" + NatToString(count) + "):**\n"
  }

  /** One "- <card>" line per card, in order. */
  function Bullets(cards: seq<string>): string {
    if cards == [] then "" else Bullets(cards[..|cards| - 1]) + "- " + cards[|cards| - 1] + "\n"
  }

  /** What formatCardGroup returns. */
  function CardGroupText(title: string, cards: seq<string>): string {
    if cards == [] then "" else GroupHeader(title, |cards|) + Bullets(cards) + "\n"
  }

  /** formatCardGroup: the builder loop over the cards. */
  method FormatCardGroup(title: string, cards: seq<string>) returns (text: string)
    ensures text == CardGroupText(title, cards)
  {
    if |cards| == 0 {
      return "";
    }
    text := "**" + title + " (" + NatToString(|cards|) + "):**\n";
    for i := 0 to |cards|
      invariant text == GroupHeader(title, |cards|) + Bullets(cards[..i])
    {
      assert cards[..i + 1][..i] == cards[..i];
      text := text + "- " + cards[i] + "\n";
    }
    assert cards[..|cards|] == cards;
    text := text + "\n";
  }

  /** The lines of a group's bullets. */
  function BulletLines(cards: seq<string>): (lines: seq<string>)
    ensures |lines| == |cards|
  {
    seq(|cards|, i requires 0 <= i < |cards| => "- " + cards[i])
  }

  /** A group's text is empty exactly when it has no cards; otherwise it splits
      into the header with the count, one "- <card>" line per card in order, and
      the blank line that ends the group (when no title or card holds a newline). */
  lemma {:induction false} CardGroupLines(title: string, cards: seq<string>)
    requires '\n' !in title
    requires forall c :: c in cards ==> '\n' !in c
    ensures CardGroupText(title, cards) == "" <==> cards == []
    ensures cards != [] ==>
              Split(CardGroupText(title, cards), '\n') ==
              ["**" + title + " (" + NatToString(|cards|) + "):**"] + BulletLines(cards) + ["", ""]
  {
    if cards != [] {
      var head := "**" + title + " (" + NatToString(|cards|) + "):**";
      assert '\n' !in NatToString(|cards|);
      assert '\n' !in head;
      BulletsSplit(cards, "\n");
      var text := CardGroupText(title, cards);
      assert text == head + ['\n'] + (Bullets(cards) + "\n");
      SplitAround(head, Bullets(cards) + "\n", '\n');
    }
  }

  /** Splitting the bullets followed by a tail at newlines gives the bullet lines
      followed by the pieces of the tail. */
  lemma {:induction false} BulletsSplit(cards: seq<string>, tail: string)
    requires forall c :: c in cards ==> '\n' !in c
    requires tail == "\n"
    ensures Split(Bullets(cards) + tail, '\n') == BulletLines(cards) + ["", ""]
  {
    BulletsSplitAny(cards, tail);
    assert tail == [] + ['\n'] + [];
    SplitAround([], [], '\n');
  }

  lemma {:induction false} BulletsSplitAny(cards: seq<string>, tail: string)
    requires forall c :: c in cards ==> '\n' !in c
    ensures Split(Bullets(cards) + tail, '\n') == BulletLines(cards) + Split(tail, '\n')
    decreases |cards|
  {
    if cards != [] {
      var init := cards[..|cards| - 1];
      var last := cards[|cards| - 1];
      assert forall c :: c in init ==> c in cards;
      var line := "- " + last;
      assert '\n' !in line;
      assert Bullets(cards) + tail == Bullets(init) + (line + ['\n'] + tail);
      BulletsSplitAny(init, line + ['\n'] + tail);
      SplitAround(line, tail, '\n');
      assert BulletLines(cards) == BulletLines(init) + [line];
    } else {
      assert Bullets(cards) + tail == tail;
    }
  }

  // =====================================================================
  // The deck total (FormatDeckForDisplay, moxfield.go:370-372)

  /** The "Total Cards" figure: the mainboard's quantities plus one per commander
      entry (a commander's own quantity is not read). */
  method DeckTotal(mainboard: map<string, CardEntry>, commanders: map<string, CardEntry>) returns (total: int)
    ensures total == TotalQuantity(mainboard) + |commanders|
  {
    var groups := GroupDeckCards(mainboard);
    total := groups.totalCards + |commanders|;
  }
}
