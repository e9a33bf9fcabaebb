/** The I/O-free part of edhrec.go: the card-name slug, the URL paths, the two
    display formatters' limit and "more" arithmetic, and the flattening of the
    top-cards lists. */
module Edhrec {
  import opened Text

  // =====================================================================
  // SanitizeCardName (edhrec.go:86-102)

  /** The characters the regular expression [^a-z0-9-]+ keeps. */
  predicate IsSlugChar(c: char) {
    IsLowerLetter(c) || IsDigit(c) || c == '-'
  }

  predicate SlugChars(s: string) {
    forall i :: 0 <= i < |s| ==> IsSlugChar(s[i])
  }

  /** No two hyphens in a row. */
  predicate NoDoubleHyphen(s: string) {
    forall i :: 0 <= i < |s| - 1 ==> !(s[i] == '-' && s[i + 1] == '-')
  }

  /** Neither the first nor the last character is a hyphen. */
  predicate NoEdgeHyphen(s: string) {
    s != [] ==> s[0] != '-' && s[|s| - 1] != '-'
  }

  /** What SanitizeCardName produces: the three properties together. */
  predicate IsSlug(s: string) {
    SlugChars(s) && NoDoubleHyphen(s) && NoEdgeHyphen(s)
  }

  /** strings.ReplaceAll(s, " ", "-"). */
  function ReplaceSpaces(s: string): (r: string)
    ensures |r| == |s|
    ensures forall i :: 0 <= i < |s| ==> r[i] == (if s[i] == ' ' then '-' else s[i])
  {
    seq(|s|, i requires 0 <= i < |s| => if s[i] == ' ' then '-' else s[i])
  }

  /** Replacing every run of [^a-z0-9-] by "" drops each such character. */
  function KeepSlugChars(s: string): (r: string)
    ensures SlugChars(r)
    ensures |r| <= |s|
  {
    if s == [] then []
    else
      var c := s[|s| - 1];
      KeepSlugChars(s[..|s| - 1]) + (if IsSlugChar(c) then [c] else [])
  }

  /** Replacing every run of -+ by "-": a hyphen is kept only when the text kept
      so far does not already end with one. */
  function CollapseHyphens(s: string): (r: string)
    ensures |r| <= |s|
    ensures r == [] <==> s == []
    ensures r != [] ==> r[|r| - 1] == s[|s| - 1]
  {
    if s == [] then [] else PushCollapsed(CollapseHyphens(s[..|s| - 1]), s[|s| - 1])
  }

  /** One more character after the collapsed text: a hyphen right after a hyphen is dropped. */
  function PushCollapsed(r: string, c: char): string {
    if c == '-' && r != [] && r[|r| - 1] == '-' then r else r + [c]
  }

  /** The collapsed text never holds "--" and stays in the slug alphabet. */
  lemma {:induction false} CollapseHyphensSlug(s: string)
    ensures NoDoubleHyphen(CollapseHyphens(s))
    ensures SlugChars(s) ==> SlugChars(CollapseHyphens(s))
  {
    if s != [] {
      var init, c := s[..|s| - 1], s[|s| - 1];
      CollapseHyphensSlug(init);
      var r := CollapseHyphens(init);
      assert SlugChars(s) ==> SlugChars(init) && IsSlugChar(c);
      CollapseStep(s, r, c);
    }
  }

  function TrimLeftHyphens(s: string): (r: string)
    ensures r != [] ==> r[0] != '-'
    ensures |r| <= |s| && r == s[|s| - |r|..]
  {
    if s != [] && s[0] == '-' then TrimLeftHyphens(s[1..]) else s
  }

  function TrimRightHyphens(s: string): (r: string)
    ensures r != [] ==> r[|r| - 1] != '-'
    ensures |r| <= |s| && r == s[..|r|]
  {
    if s != [] && s[|s| - 1] == '-' then TrimRightHyphens(s[..|s| - 1]) else s
  }

  /** strings.Trim(s, "-"). */
  function TrimHyphens(s: string): string {
    TrimRightHyphens(TrimLeftHyphens(s))
  }

  /** The first three steps: lower-case, spaces to hyphens, drop the rest. */
  function Filtered(name: string): string {
    KeepSlugChars(ReplaceSpaces(ToLower(name)))
  }

  /** SanitizeCardName: lower-case, spaces to hyphens, drop everything outside
      a-z, 0-9 and '-', collapse hyphen runs, trim edge hyphens. The result uses
      only a-z, 0-9 and '-', never holds "--" and never starts or ends with '-'. */
  function SanitizeCardName(name: string): (slug: string)
    ensures SlugChars(slug)
    ensures NoDoubleHyphen(slug)
    ensures NoEdgeHyphen(slug)
  {
    var collapsed := CollapseHyphens(Filtered(name));
    var slug := TrimHyphens(collapsed);
    CollapseHyphensSlug(Filtered(name));
    TrimKeepsSlug(collapsed);
    slug
  }

  /** Trimming hyphens from a text in the slug alphabet without "--" leaves a slug. */
  lemma TrimKeepsSlug(s: string)
    requires SlugChars(s) && NoDoubleHyphen(s)
    ensures IsSlug(TrimHyphens(s))
  {
    var k := TrimHyphensSlice(s);
    var r := TrimHyphens(s);
    SliceKeepsSlug(s, k, k + |r|);
    TrimHyphensEdges(s);
  }

  /** Trimming takes a contiguous slice of the text. */
  lemma TrimHyphensSlice(s: string) returns (k: nat)
    ensures k + |TrimHyphens(s)| <= |s|
    ensures TrimHyphens(s) == s[k..k + |TrimHyphens(s)|]
  {
    var l := TrimLeftHyphens(s);
    var r := TrimRightHyphens(l);
    k := |s| - |l|;
    assert r == l[..|r|];
  }

  /** Trimming leaves no hyphen at either edge. */
  lemma TrimHyphensEdges(s: string)
    ensures NoEdgeHyphen(TrimHyphens(s))
  {
    var l := TrimLeftHyphens(s);
    var r := TrimRightHyphens(l);
    if r != [] {
      assert r[0] == l[0];
    }
  }

  /** Any slice of a text keeps its alphabet and its lack of "--". */
  lemma SliceKeepsSlug(s: string, a: nat, b: nat)
    requires a <= b <= |s|
    requires SlugChars(s) && NoDoubleHyphen(s)
    ensures SlugChars(s[a..b]) && NoDoubleHyphen(s[a..b])
  {
    var t := s[a..b];
    forall i | 0 <= i < |t| - 1 ensures !(t[i] == '-' && t[i + 1] == '-') {
      assert t[i] == s[a + i] && t[i + 1] == s[a + i + 1];
    }
  }

  /** SanitizeCardName is idempotent: a slug comes back unchanged. */
  lemma SanitizeSlug(s: string)
    requires IsSlug(s)
    ensures SanitizeCardName(s) == s
  {
    ToLowerMeaning(s);
    assert ToLower(s) == s;
    assert ReplaceSpaces(s) == s;
    KeepSlugCharsOfSlug(s);
    CollapseHyphensOfSingle(s);
    if s != [] {
      assert TrimLeftHyphens(s) == s;
      assert TrimRightHyphens(s) == s;
    }
  }

  lemma SanitizeIdempotent(name: string)
    ensures SanitizeCardName(SanitizeCardName(name)) == SanitizeCardName(name)
  {
    SanitizeSlug(SanitizeCardName(name));
  }

  lemma {:induction false} KeepSlugCharsOfSlug(s: string)
    requires SlugChars(s)
    ensures KeepSlugChars(s) == s
  {
    if s != [] {
      KeepSlugCharsOfSlug(s[..|s| - 1]);
      assert s[..|s| - 1] + [s[|s| - 1]] == s;
    }
  }

  lemma {:induction false} CollapseHyphensOfSingle(s: string)
    requires NoDoubleHyphen(s)
    ensures CollapseHyphens(s) == s
  {
    if s != [] {
      var init := s[..|s| - 1];
      assert NoDoubleHyphen(init) by {
        forall i | 0 <= i < |init| - 1 ensures !(init[i] == '-' && init[i + 1] == '-') {
          assert init[i] == s[i] && init[i + 1] == s[i + 1];
        }
      }
      CollapseHyphensOfSingle(init);
      assert init + [s[|s| - 1]] == s;
    }
  }

  /** Sanitizing ignores case. */
  lemma SanitizeIgnoresCase(name: string)
    ensures SanitizeCardName(name) == SanitizeCardName(ToLower(name))
  {
    ToLowerMeaning(name);
  }

  /** A character outside a-z, 0-9, '-' and ' ' (after lower-casing) is simply
      dropped: "Jace's" sanitizes like "Jaces". */
  lemma DropsPunctuation(a: string, c: char, b: string)
    requires c != ' ' && !IsSlugChar(LowerChar(c))
    ensures SanitizeCardName(a + [c] + b) == SanitizeCardName(a + b)
  {
    FilteredAppend(a + [c], b);
    FilteredAppend(a, [c]);
    FilteredAppend(a, b);
    assert Filtered([c]) == [];
    assert Filtered(a + [c] + b) == Filtered(a + b);
    SameFiltered(a + [c] + b, a + b);
  }

  /** Names that agree after the first three steps sanitize alike. */
  lemma SameFiltered(x: string, y: string)
    requires Filtered(x) == Filtered(y)
    ensures SanitizeCardName(x) == SanitizeCardName(y)
  {
  }

  /** Spaces between two words that are already slugs once lower-cased become one
      hyphen, however many there are: "Black   Lotus" sanitizes to "black-lotus". */
  lemma SpacesBecomeOneHyphen(a: string, n: nat, b: string)
    requires a != [] && b != [] && n >= 1
    requires IsSlug(ToLower(a)) && IsSlug(ToLower(b))
    ensures SanitizeCardName(a + Spaces(n) + b) == ToLower(a) + "-" + ToLower(b)
  {
    var la, lb := ToLower(a), ToLower(b);
    FilteredAroundSpaces(a, n, b);
    CollapseAroundRun(la, n, lb);
    var u := la + "-" + lb;
    assert u[0] == la[0] && u[|u| - 1] == lb[|lb| - 1];
    TrimOfNoEdge(u);
  }

  lemma FilteredAroundSpaces(a: string, n: nat, b: string)
    requires IsSlug(ToLower(a)) && IsSlug(ToLower(b))
    ensures Filtered(a + Spaces(n) + b) == ToLower(a) + Hyphens(n) + ToLower(b)
  {
    FilteredAppend(a + Spaces(n), b);
    FilteredAppend(a, Spaces(n));
    FilteredOfSlug(a);
    FilteredOfSlug(b);
    FilteredSpaces(n);
  }

  lemma CollapseAroundRun(la: string, n: nat, lb: string)
    requires la != [] && lb != [] && n >= 1
    requires IsSlug(la) && IsSlug(lb)
    ensures CollapseHyphens(la + Hyphens(n) + lb) == la + "-" + lb
  {
    CollapseAppend(la + Hyphens(n), lb);
    CollapseAppend(la, Hyphens(n));
    CollapseHyphensOfSingle(la);
    CollapseHyphensOfSingle(lb);
    CollapseHyphenRun(n);
  }

  lemma FilteredAppend(a: string, b: string)
    ensures Filtered(a + b) == Filtered(a) + Filtered(b)
  {
    ToLowerAppend(a, b);
    ReplaceSpacesAppend(ToLower(a), ToLower(b));
    KeepSlugCharsAppend(ReplaceSpaces(ToLower(a)), ReplaceSpaces(ToLower(b)));
  }

  lemma FilteredOfSlug(a: string)
    requires IsSlug(ToLower(a))
    ensures Filtered(a) == ToLower(a)
  {
    var la := ToLower(a);
    assert ReplaceSpaces(la) == la;
    KeepSlugCharsOfSlug(la);
  }

  lemma FilteredSpaces(n: nat)
    ensures Filtered(Spaces(n)) == Hyphens(n)
  {
    assert ToLower(Spaces(n)) == Spaces(n);
    assert ReplaceSpaces(Spaces(n)) == Hyphens(n);
    KeepSlugCharsOfSlug(Hyphens(n));
  }

  /** Three spaces between two words become a single hyphen. */
  lemma ExampleBlackLotus()
    ensures SanitizeCardName("Black   Lotus") == "black-lotus"
  {
    BlackLotusPieces();
    SpacesBecomeOneHyphen("Black", 3, "Lotus");
  }

  lemma BlackLotusPieces()
    ensures "Black   Lotus" == "Black" + Spaces(3) + "Lotus"
    ensures ToLower("Black") == "black" && ToLower("Lotus") == "lotus"
    ensures "black" + "-" + "lotus" == "black-lotus"
  {
  }

  function Spaces(n: nat): (s: string)
    ensures |s| == n
  {
    seq(n, _ => ' ')
  }

  function Hyphens(n: nat): (s: string)
    ensures |s| == n
  {
    seq(n, _ => '-')
  }

  lemma ReplaceSpacesAppend(a: string, b: string)
    ensures ReplaceSpaces(a + b) == ReplaceSpaces(a) + ReplaceSpaces(b)
  {
  }

  lemma {:induction false} KeepSlugCharsAppend(a: string, b: string)
    ensures KeepSlugChars(a + b) == KeepSlugChars(a) + KeepSlugChars(b)
  {
    if b != [] {
      var init := b[..|b| - 1];
      KeepSlugCharsAppend(a, init);
      assert (a + b)[..|a + b| - 1] == a + init;
    } else {
      assert a + b == a;
    }
  }

  /** Collapsing works piecewise across a boundary that is not inside a hyphen run. */
  lemma {:induction false} CollapseAppend(a: string, b: string)
    requires a == [] || b == [] || a[|a| - 1] != '-' || b[0] != '-'
    ensures CollapseHyphens(a + b) == CollapseHyphens(a) + CollapseHyphens(b)
  {
    if b == [] {
      assert a + b == a;
    } else {
      var init, c := b[..|b| - 1], b[|b| - 1];
      if init == [] {
        assert a + init == a;
      } else {
        assert init[0] == b[0];
        CollapseAppend(a, init);
      }
      CollapseAppendSnoc(a, init, c, b);
    }
  }

  /** The inductive step of CollapseAppend: one more character at the end of b. */
  lemma CollapseAppendSnoc(a: string, init: string, c: char, b: string)
    requires b == init + [c]
    requires init == [] ==> a == [] || a[|a| - 1] != '-' || c != '-'
    requires CollapseHyphens(a + init) == CollapseHyphens(a) + CollapseHyphens(init)
    ensures CollapseHyphens(a + b) == CollapseHyphens(a) + CollapseHyphens(b)
  {
    var ab := a + b;
    assert ab[..|ab| - 1] == a + init && ab[|ab| - 1] == c;
    assert b[..|b| - 1] == init;
    var x, r1, r2 := CollapseHyphens(a), CollapseHyphens(a + init), CollapseHyphens(init);
    CollapseStep(ab, r1, c);
    CollapseStep(b, r2, c);
    if init == [] {
      assert a + init == a;
    }
    PushCollapsedAppend(x, r2, c);
  }

  /** Pushing onto x + r depends only on r, unless r is empty. */
  lemma PushCollapsedAppend(x: string, r: string, c: char)
    requires r == [] ==> x == [] || x[|x| - 1] != '-' || c != '-'
    ensures PushCollapsed(x + r, c) == x + PushCollapsed(r, c)
  {
    if r != [] {
      assert (x + r)[|x + r| - 1] == r[|r| - 1];
    }
    assert (x + r) + [c] == x + (r + [c]);
  }

  /** One unfolding of CollapseHyphens. */
  lemma CollapseStep(s: string, r: string, c: char)
    requires s != [] && r == CollapseHyphens(s[..|s| - 1]) && c == s[|s| - 1]
    ensures CollapseHyphens(s) == PushCollapsed(r, c)
  {
  }

  lemma {:induction false} CollapseHyphenRun(n: nat)
    requires n >= 1
    ensures CollapseHyphens(Hyphens(n)) == "-"
  {
    if n > 1 {
      CollapseHyphenRun(n - 1);
      assert Hyphens(n)[..n - 1] == Hyphens(n - 1);
    }
  }

  lemma TrimOfNoEdge(s: string)
    requires NoEdgeHyphen(s)
    ensures TrimHyphens(s) == s
  {
  }

  // =====================================================================
  // URL paths (edhrec.go:12, 106-107, 140, 263)

  const EdhrecBaseURL := "https://json.edhrec.com/pages"

  /** The recommendations URL of GetCommanderRecommendations. */
  function RecommendationsURL(commanderName: string): string {
    EdhrecBaseURL + "/commanders/" + SanitizeCardName(commanderName) + ".json"
  }

  /** The recommendations URL names the commander by its slug: a name that is
      already a slug is used as it is, and any name leads to the same URL as its
      own slug. */
  lemma RecommendationsURLOfSlug(commanderName: string)
    ensures IsSlug(commanderName) ==>
              RecommendationsURL(commanderName) == EdhrecBaseURL + "/commanders/" + commanderName + ".json"
    ensures RecommendationsURL(SanitizeCardName(commanderName)) == RecommendationsURL(commanderName)
  {
    if IsSlug(commanderName) {
      SanitizeSlug(commanderName);
    }
    SanitizeIdempotent(commanderName);
  }

  /** The combos URL of GetCombosForColors: the colour code lower-cased. */
  function CombosURL(colors: string): string {
    EdhrecBaseURL + "/combos/" + ToLower(colors) + ".json"
  }

  /** The colour code's case does not matter: "WUB", "wub" and "Wub" give one URL. */
  lemma CombosURLIgnoresCase(a: string, b: string)
    requires |a| == |b|
    requires forall i :: 0 <= i < |a| ==> LowerChar(a[i]) == LowerChar(b[i])
    ensures CombosURL(a) == CombosURL(b)
  {
    assert ToLower(a) == ToLower(b);
  }

  /** The top-cards URL of GetTopCardsForCategory: the category, two hyphens and
      the page number in decimal. */
  function TopCardsURL(category: string, page: int): string {
    TopCardsPrefix(category) + IntToString(page) + ".json"
  }

  function TopCardsPrefix(category: string): string {
    EdhrecBaseURL + "/top/" + category + "--"
  }

  /** The page number reads back from the URL: its digits give |page|, preceded
      by a minus sign exactly when the page is negative. */
  lemma TopCardsURLPage(category: string, page: int) returns (sign: string, digits: string)
    ensures TopCardsURL(category, page) == TopCardsPrefix(category) + sign + digits + ".json"
    ensures sign == "-" <==> page < 0
    ensures sign == "" <==> page >= 0
    ensures AllDigits(digits) && DigitsValue(digits) == (if page < 0 then -page else page)
  {
    sign, digits := IntToStringParts(page);
    var head := TopCardsPrefix(category);
    assert head + (sign + digits) == head + sign + digits;
  }

  // =====================================================================
  // FormatCommanderRecsForDisplay (edhrec.go:170-220)

  /** A recommended card. The lines that print floating-point values (the
      inclusion percentage, synergy and salt, edhrec.go:198-209) are rendered
      outside the model and arrive as statLines. */
  datatype CardView = CardView(name: string, statLines: string)

  datatype CardList = CardList(header: string, cardViews: seq<CardView>)

  datatype RecsData = RecsData(commander: string, colorID: seq<string>, numDecks: int, cardLists: seq<CardList>)

  /** How many items a formatter shows: all of them when limit <= 0, otherwise
      at most limit. */
  function ShownCount(limit: int, n: nat): (count: nat)
    ensures count <= n
    ensures limit <= 0 ==> count == n
    ensures limit > 0 ==> count == if limit < n then limit else n
  {
    if limit > 0 && n > limit then limit else n
  }

  /** "*...and N more cards*" (or combos, as the tail says) when some items were
      not shown, else nothing. */
  function MoreLine(n: nat, shown: nat, tail: string): string {
    if n > shown then "*...and " + NatToString(n - shown) + tail else ""
  }

  /** The closing line of a list cut short by the limit. */
  method WriteMoreLine(n: nat, shown: nat, tail: string) returns (line: string)
    ensures line == MoreLine(n, shown, tail)
  {
    line := "";
    if n > shown {
      line := "*...and " + NatToString(n - shown) + tail;
    }
  }

  /** Every item is either shown or counted in the "more" line, and the line
      appears exactly when something was held back. */
  lemma ShownOrCounted(limit: int, n: nat, tail: string)
    ensures var shown := ShownCount(limit, n);
            (MoreLine(n, shown, tail) != "" <==> limit > 0 && n > limit) &&
            (MoreLine(n, shown, tail) != "" ==>
               MoreLine(n, shown, tail) == "*...and " + NatToString(n - limit) + tail &&
               shown + (n - limit) == n)
  {
  }

  /** The heading of the i-th shown card (numbered from 1). */
  function CardBlock(i: nat, card: CardView): string {
    NatToString(i + 1) + ". **" + card.name + "**\n" + card.statLines + "\n"
  }

  /** The blocks of the given cards, numbered from 1. */
  function CardBlocks(cards: seq<CardView>): string {
    if cards == [] then ""
    else CardBlocks(cards[..|cards| - 1]) + CardBlock(|cards| - 1, cards[|cards| - 1])
  }

  /** The section of one card list: nothing for a list without cards, otherwise
      its header, the first ShownCount cards and the "more" line. */
  function ListSection(list: CardList, limit: int): string {
    var n := |list.cardViews|;
    if n == 0 then ""
    else
      var shown := ShownCount(limit, n);
      "\n## " + list.header + "\n\n" + CardBlocks(list.cardViews[..shown]) + MoreLine(n, shown, " more cards*\n")
  }

  function Sections(lists: seq<CardList>, limit: int): string {
    if lists == [] then "" else Sections(lists[..|lists| - 1], limit) + ListSection(lists[|lists| - 1], limit)
  }

  function RecsHeader(data: RecsData): string {
    "# EDHREC Recommendations for " + data.commander + "\n\n" +
    "**Total Decks:** " + IntToString(data.numDecks) + "\n" +
    (if |data.colorID| > 0 then "**Color Identity:** " + JoinWith(data.colorID, ", ") + "\n\n" else "")
  }

  /** What FormatCommanderRecsForDisplay returns. */
  function RecsText(data: RecsData, limit: int): string {
    RecsHeader(data) + Sections(data.cardLists, limit)
  }

  /** FormatCommanderRecsForDisplay: the header, then one section per card list. */
  method FormatCommanderRecsForDisplay(data: RecsData, limit: int) returns (output: string)
    ensures output == RecsText(data, limit)
  {
    output := WriteRecsHeader(data);
    var lists := data.cardLists;
    for k := 0 to |lists|
      invariant output == RecsHeader(data) + Sections(lists[..k], limit)
    {
      var section := WriteCardList(lists[k], limit);
      SectionsStep(RecsHeader(data), lists, k, limit);
      output := output + section;
    }
    assert lists[..|lists|] == lists;
  }

  lemma SectionsStep(header: string, lists: seq<CardList>, k: nat, limit: int)
    requires k < |lists|
    ensures header + Sections(lists[..k + 1], limit) == header + Sections(lists[..k], limit) + ListSection(lists[k], limit)
  {
    assert lists[..k + 1][..k] == lists[..k];
  }

  /** The title, the deck count and, when known, the colour identity. */
  method WriteRecsHeader(data: RecsData) returns (output: string)
    ensures output == RecsHeader(data)
  {
    output := "# EDHREC Recommendations for " + data.commander + "\n\n";
    output := output + "**Total Decks:** " + IntToString(data.numDecks) + "\n";
    if |data.colorID| > 0 {
      output := output + "**Color Identity:** " + JoinWith(data.colorID, ", ") + "\n\n";
    }
  }

  /** Line by line, the header is the title, a blank line, the deck count and,
      when the colour identity is known, the colours and a blank line. */
  lemma RecsHeaderLines(data: RecsData)
    requires '\n' !in data.commander
    requires forall c :: c in data.colorID ==> '\n' !in c
    ensures Split(RecsHeader(data), '\n') ==
            ["# EDHREC Recommendations for " + data.commander, "", "**Total Decks:** " + IntToString(data.numDecks)] +
            (if |data.colorID| > 0 then ["**Color Identity:** " + JoinWith(data.colorID, ", "), ""] else []) +
            [""]
  {
    var known := |data.colorID| > 0;
    var number := IntToString(data.numDecks);
    var joined := JoinWith(data.colorID, ", ");
    var lines := ["# EDHREC Recommendations for " + data.commander, "", "**Total Decks:** " + number] +
                 (if known then ["**Color Identity:** " + joined, ""] else []);
    HeaderLinesText("# EDHREC Recommendations for " + data.commander, "**Total Decks:** " + number,
                    "**Color Identity:** " + joined, known);
    AppendAssoc("# EDHREC Recommendations for " + data.commander + "\n\n", "**Total Decks:** ", number);
    NumberHasNoNewline(data.numDecks);
    JoinWithAvoids(data.colorID, ", ", '\n');
    HeaderLabelsHaveNoNewline();
    AppendAvoids("# EDHREC Recommendations for ", data.commander, '\n');
    AppendAvoids("**Total Decks:** ", number, '\n');
    AppendAvoids("**Color Identity:** ", joined, '\n');
    SplitLines(lines, "");
  }

  lemma HeaderLabelsHaveNoNewline()
    ensures '\n' !in "# EDHREC Recommendations for "
    ensures '\n' !in "**Total Decks:** "
    ensures '\n' !in "**Color Identity:** "
  {
  }

  /** The header text is written as newline-terminated lines. */
  lemma HeaderLinesText(title: string, decks: string, colors: string, known: bool)
    ensures title + "\n\n" + decks + "\n" + (if known then colors + "\n\n" else "") ==
            Lines([title, "", decks] + (if known then [colors, ""] else [])) + ""
  {
    var top := [title, "", decks];
    LinesSnoc([], title);
    assert [] + [title] == [title];
    LinesSnoc([title], "");
    assert [title] + [""] == [title, ""];
    DoubleNewline(title);
    assert Lines([title, ""]) == title + "\n\n";
    LinesSnoc([title, ""], decks);
    assert [title, ""] + [decks] == top;
    AppendAssoc(title + "\n\n", decks, "\n");
    assert Lines(top) == title + "\n\n" + decks + "\n";
    if known {
      LinesSnoc(top, colors);
      LinesSnoc(top + [colors], "");
      assert top + [colors] + [""] == top + [colors, ""];
      DoubleNewline(colors);
      AppendAssoc(Lines(top), colors + "\n", "\n");
      AppendAssoc(Lines(top), colors, "\n\n");
      assert Lines(top + [colors, ""]) == Lines(top) + (colors + "\n\n");
    } else {
      assert top + [] == top;
    }
  }

  lemma DoubleNewline(s: string)
    ensures "" + (s + "\n") + ("" + "\n") == s + "\n\n"
    ensures s + "\n" + "\n" == s + "\n\n"
  {
  }

  /** The body of the loop over card lists: skip an empty list, else write the
      header, the shown cards and the "more" line. */
  method WriteCardList(cardList: CardList, limit: int) returns (section: string)
    ensures section == ListSection(cardList, limit)
  {
    if |cardList.cardViews| == 0 {
      return "";
    }
    section := "\n## " + cardList.header + "\n\n";
    var count := |cardList.cardViews|;
    if limit > 0 && count > limit {
      count := limit;
    }
    var blocks := "";
    for i := 0 to count
      invariant blocks == CardBlocks(cardList.cardViews[..i])
    {
      var card := cardList.cardViews[i];
      assert cardList.cardViews[..i + 1][..i] == cardList.cardViews[..i];
      blocks := blocks + (NatToString(i + 1) + ". **" + card.name + "**\n" + card.statLines + "\n");
    }
    section := section + blocks;
    var more := WriteMoreLine(|cardList.cardViews|, count, " more cards*\n");
    section := section + more;
  }

  /** The card lists that have cards, in order. */
  function NonEmptyLists(lists: seq<CardList>): (r: seq<CardList>)
    ensures |r| <= |lists|
    ensures forall i :: 0 <= i < |r| ==> r[i].cardViews != []
  {
    if lists == [] then []
    else
      var last := lists[|lists| - 1];
      NonEmptyLists(lists[..|lists| - 1]) + (if last.cardViews != [] then [last] else [])
  }

  /** Lists without cards produce no section: the text is the one of the
      non-empty lists alone. */
  lemma {:induction false} EmptyListsSkipped(lists: seq<CardList>, limit: int)
    ensures Sections(lists, limit) == Sections(NonEmptyLists(lists), limit)
  {
    if lists != [] {
      var init, last := lists[..|lists| - 1], lists[|lists| - 1];
      EmptyListsSkipped(init, limit);
      var r := NonEmptyLists(init);
      if last.cardViews != [] {
        assert NonEmptyLists(lists) == r + [last];
        assert (r + [last])[..|r|] == r;
      } else {
        assert NonEmptyLists(lists) == r + [];
        assert r + [] == r;
        assert ListSection(last, limit) == "";
        assert Sections(lists, limit) == Sections(init, limit) + "";
        assert Sections(init, limit) + "" == Sections(init, limit);
      }
    }
  }

  /** A limit no list reaches shows every card and writes no "more" line: the
      text is the one without a limit. */
  lemma {:induction false} LimitNotReached(lists: seq<CardList>, limit: int)
    requires forall i :: 0 <= i < |lists| ==> |lists[i].cardViews| <= limit
    ensures Sections(lists, limit) == Sections(lists, 0)
  {
    if lists != [] {
      LimitNotReached(lists[..|lists| - 1], limit);
      assert ShownCount(limit, |lists[|lists| - 1].cardViews|) == ShownCount(0, |lists[|lists| - 1].cardViews|);
    }
  }

  // =====================================================================
  // FormatCombosForDisplay (edhrec.go:223-258)

  /** A combo. Its percentage is a float printed with two decimals; it is
      rendered outside the model and arrives as percentText. */
  datatype Combo = Combo(
    rank: int,
    cardNames: seq<string>,
    colors: string,
    count: int,
    percentText: string,
    results: seq<string>)

  /** The text of the i-th shown combo (numbered from 1): its title, the cards
      when there are any, the colours upper-cased, the deck count and the
      results when there are any. */
  function ComboBlock(i: nat, combo: Combo): string {
    ComboTitle(i, combo.rank) +
    (if |combo.cardNames| > 0 then CardsLine(combo.cardNames) else "") +
    ColorsLine(combo.colors) +
    UsedInLine(combo.count, combo.percentText) +
    (if |combo.results| > 0 then ResultsLine(combo.results) else "") +
    "\n"
  }

  function ComboTitle(i: nat, rank: int): string {
    NatToString(i + 1) + ". **Combo #" + NatToString(i + 1) + "** (Rank #" + IntToString(rank) + ")\n"
  }

  function CardsLine(cardNames: seq<string>): string {
    "   **Cards:** " + JoinWith(cardNames, " + ") + "\n"
  }

  function ColorsLine(colors: string): string {
    "   **Colors:** " + ToUpper(colors) + "\n"
  }

  function UsedInLine(count: int, percentText: string): string {
    "   **Used in:** " + IntToString(count) + " decks (" + percentText + "%)\n"
  }

  function ResultsLine(results: seq<string>): string {
    "   **Results:** " + JoinWith(results, ", ") + "\n"
  }

  function ComboBlocks(combos: seq<Combo>): string {
    if combos == [] then ""
    else ComboBlocks(combos[..|combos| - 1]) + ComboBlock(|combos| - 1, combos[|combos| - 1])
  }

  function CombosHeader(n: nat): string {
    "# Popular Combos\n\n" + "**Total Combos:** " + NatToString(n) + "\n\n"
  }

  /** What FormatCombosForDisplay returns: the header with the full count, the
      first ShownCount combos and the "more" line. */
  function CombosText(combos: seq<Combo>, limit: int): string {
    var shown := ShownCount(limit, |combos|);
    CombosHeader(|combos|) + ComboBlocks(combos[..shown]) + MoreLine(|combos|, shown, " more combos*\n")
  }

  /** FormatCombosForDisplay: the header, the shown combos, the "more" line. */
  method FormatCombosForDisplay(combos: seq<Combo>, limit: int) returns (output: string)
    ensures output == CombosText(combos, limit)
  {
    output := WriteCombosHeader(|combos|);
    var count := |combos|;
    if limit > 0 && count > limit {
      count := limit;
    }
    assert count == ShownCount(limit, |combos|);
    var blocks := WriteCombos(combos, count);
    output := output + blocks;
    var more := WriteMoreLine(|combos|, count, " more combos*\n");
    output := output + more;
  }

  method WriteCombosHeader(n: nat) returns (header: string)
    ensures header == CombosHeader(n)
  {
    header := "# Popular Combos\n\n";
    header := header + "**Total Combos:** " + NatToString(n) + "\n\n";
  }

  /** The loop over the first count combos. */
  method WriteCombos(combos: seq<Combo>, count: nat) returns (blocks: string)
    requires count <= |combos|
    ensures blocks == ComboBlocks(combos[..count])
  {
    blocks := "";
    for i := 0 to count
      invariant blocks == ComboBlocks(combos[..i])
    {
      assert combos[..i + 1][..i] == combos[..i];
      var block := WriteCombo(i, combos[i]);
      blocks := blocks + block;
    }
  }

  /** The body of the combo loop: the numbered title, the cards when there are
      any, the colours upper-cased, the deck count, the results when there are any. */
  method WriteCombo(i: nat, combo: Combo) returns (block: string)
    ensures block == ComboBlock(i, combo)
  {
    block := ComboTitle(i, combo.rank);
    ghost var head := block;
    if |combo.cardNames| > 0 {
      block := block + CardsLine(combo.cardNames);
    }
    assert block == head + (if |combo.cardNames| > 0 then CardsLine(combo.cardNames) else "");
    block := block + ColorsLine(combo.colors);
    block := block + UsedInLine(combo.count, combo.percentText);
    head := block;
    if |combo.results| > 0 {
      block := block + ResultsLine(combo.results);
    }
    assert block == head + (if |combo.results| > 0 then ResultsLine(combo.results) else "");
    block := block + "\n";
  }

  /** Line by line, a combo block is its title, the cards when there are any, the
      colours, the deck count, the results when there are any, then a blank line. */
  lemma ComboBlockLines(i: nat, combo: Combo)
    requires forall name :: name in combo.cardNames ==> '\n' !in name
    requires '\n' !in combo.colors && '\n' !in combo.percentText
    requires forall result :: result in combo.results ==> '\n' !in result
    ensures Split(ComboBlock(i, combo), '\n') ==
            [NatToString(i + 1) + ". **Combo #" + NatToString(i + 1) + "** (Rank #" + IntToString(combo.rank) + ")"] +
            (if |combo.cardNames| > 0 then ["   **Cards:** " + JoinWith(combo.cardNames, " + ")] else []) +
            ["   **Colors:** " + ToUpper(combo.colors),
             "   **Used in:** " + IntToString(combo.count) + " decks (" + combo.percentText + "%)"] +
            (if |combo.results| > 0 then ["   **Results:** " + JoinWith(combo.results, ", ")] else []) +
            ["", ""]
  {
    var number := NatToString(i + 1);
    var rank := IntToString(combo.rank);
    var count := IntToString(combo.count);
    var title := number + ". **Combo #" + number + "** (Rank #" + rank + ")";
    var cards := "   **Cards:** " + JoinWith(combo.cardNames, " + ");
    var colors := "   **Colors:** " + ToUpper(combo.colors);
    var used := "   **Used in:** " + count + " decks (" + combo.percentText + "%)";
    var results := "   **Results:** " + JoinWith(combo.results, ", ");
    var hasCards := |combo.cardNames| > 0;
    var hasResults := |combo.results| > 0;
    ComboLiteralLines(number + ". **Combo #" + number + "** (Rank #" + rank,
                      "   **Used in:** " + count + " decks (" + combo.percentText);
    ComboLinesHaveNoNewline(i, combo);
    BlockSplit(title, cards, colors, used, results, hasCards, hasResults);
  }

  /** Splitting the five possible lines of a block at newlines. */
  lemma BlockSplit(title: string, cards: string, colors: string, used: string, results: string,
                   hasCards: bool, hasResults: bool)
    requires '\n' !in title && '\n' !in cards && '\n' !in colors && '\n' !in used && '\n' !in results
    ensures Split(title + "\n" + (if hasCards then cards + "\n" else "") + (colors + "\n") + (used + "\n") +
                  (if hasResults then results + "\n" else "") + "\n", '\n') ==
            [title] + (if hasCards then [cards] else []) + [colors, used] +
            (if hasResults then [results] else []) + ["", ""]
  {
    var lines := [title] + (if hasCards then [cards] else []) + [colors, used] +
                 (if hasResults then [results] else []) + [""];
    var withCards := [title] + (if hasCards then [cards] else []);
    var withUsed := withCards + [colors, used];
    var withResults := withUsed + (if hasResults then [results] else []);
    AppendLinesAvoid([title], if hasCards then [cards] else [], '\n');
    AppendLinesAvoid(withCards, [colors, used], '\n');
    AppendLinesAvoid(withUsed, if hasResults then [results] else [], '\n');
    AppendLinesAvoid(withResults, [""], '\n');
    var text := title + "\n" + (if hasCards then cards + "\n" else "") + (colors + "\n") + (used + "\n") +
                (if hasResults then results + "\n" else "") + "\n";
    calc {
      Split(text, '\n');
      { BlockLinesText(title, cards, colors, used, results, hasCards, hasResults); }
      Split(Lines(lines) + "", '\n');
      { SplitLines(lines, ""); }
      lines + Split("", '\n');
      lines + [""];
      withResults + [""] + [""];
      { AppendAssoc(withResults, [""], [""]); }
      withResults + ([""] + [""]);
      { TwoBlankLines(); }
      withResults + ["", ""];
    }
  }

  lemma TwoBlankLines()
    ensures [""] + [""] == ["", ""]
  {
  }

  /** The title and the deck-count line end in a closing parenthesis and a newline. */
  lemma ComboLiteralLines(titleHead: string, usedHead: string)
    ensures titleHead + ")\n" == titleHead + ")" + "\n"
    ensures usedHead + "%)\n" == usedHead + "%)" + "\n"
  {
    assert ")\n" == ")" + "\n";
    assert "%)\n" == "%)" + "\n";
    AppendAssoc(titleHead, ")", "\n");
    AppendAssoc(usedHead, "%)", "\n");
  }

  /** The five possible lines of a block, written one after the other. */
  lemma BlockLinesText(title: string, cards: string, colors: string, used: string, results: string,
                       hasCards: bool, hasResults: bool)
    ensures title + "\n" + (if hasCards then cards + "\n" else "") + (colors + "\n") + (used + "\n") +
            (if hasResults then results + "\n" else "") + "\n" ==
            Lines([title] + (if hasCards then [cards] else []) + [colors, used] +
                  (if hasResults then [results] else []) + [""]) + ""
  {
    var a := [title] + (if hasCards then [cards] else []);
    var b := a + [colors, used] + (if hasResults then [results] else []);
    LinesSnoc([], title);
    assert [] + [title] == [title];
    var text := title + "\n" + (if hasCards then cards + "\n" else "");
    if hasCards {
      LinesSnoc([title], cards);
    } else {
      assert a == [title];
    }
    assert Lines(a) == text;
    LinesSnoc(a, colors);
    LinesSnoc(a + [colors], used);
    assert a + [colors] + [used] == a + [colors, used];
    text := text + (colors + "\n") + (used + "\n");
    assert Lines(a + [colors, used]) == text;
    if hasResults {
      LinesSnoc(a + [colors, used], results);
    } else {
      assert b == a + [colors, used];
    }
    text := text + (if hasResults then results + "\n" else "");
    assert Lines(b) == text;
    LinesSnoc(b, "");
    assert Lines(b + [""]) == text + "\n";
  }

  /** No line of a block holds a newline of its own. */
  lemma ComboLinesHaveNoNewline(i: nat, combo: Combo)
    requires forall name :: name in combo.cardNames ==> '\n' !in name
    requires '\n' !in combo.colors && '\n' !in combo.percentText
    requires forall result :: result in combo.results ==> '\n' !in result
    ensures var number := NatToString(i + 1);
            '\n' !in number + ". **Combo #" + number + "** (Rank #" + IntToString(combo.rank) + ")"
    ensures '\n' !in "   **Cards:** " + JoinWith(combo.cardNames, " + ")
    ensures '\n' !in "   **Colors:** " + ToUpper(combo.colors)
    ensures '\n' !in "   **Used in:** " + IntToString(combo.count) + " decks (" + combo.percentText + "%)"
    ensures '\n' !in "   **Results:** " + JoinWith(combo.results, ", ")
  {
    var number := NatToString(i + 1);
    NumberHasNoNewline(i + 1);
    NumberHasNoNewline(combo.rank);
    NumberHasNoNewline(combo.count);
    JoinWithAvoids(combo.cardNames, " + ", '\n');
    JoinWithAvoids(combo.results, ", ", '\n');
    ToUpperAvoids(combo.colors, '\n');
    ComboLabelsHaveNoNewline();
    AppendAvoids(number, ". **Combo #", '\n');
    AppendAvoids(number + ". **Combo #", number, '\n');
    AppendAvoids(number + ". **Combo #" + number, "** (Rank #", '\n');
    AppendAvoids(number + ". **Combo #" + number + "** (Rank #", IntToString(combo.rank), '\n');
    AppendAvoids(number + ". **Combo #" + number + "** (Rank #" + IntToString(combo.rank), ")", '\n');
    AppendAvoids("   **Cards:** ", JoinWith(combo.cardNames, " + "), '\n');
    AppendAvoids("   **Colors:** ", ToUpper(combo.colors), '\n');
    AppendAvoids("   **Used in:** ", IntToString(combo.count), '\n');
    AppendAvoids("   **Used in:** " + IntToString(combo.count), " decks (", '\n');
    AppendAvoids("   **Used in:** " + IntToString(combo.count) + " decks (", combo.percentText, '\n');
    AppendAvoids("   **Used in:** " + IntToString(combo.count) + " decks (" + combo.percentText, "%)", '\n');
    AppendAvoids("   **Results:** ", JoinWith(combo.results, ", "), '\n');
  }

  lemma ComboLabelsHaveNoNewline()
    ensures '\n' !in ". **Combo #" && '\n' !in "** (Rank #" && '\n' !in ")"
    ensures '\n' !in "   **Cards:** " && '\n' !in "   **Colors:** " && '\n' !in "   **Results:** "
    ensures '\n' !in "   **Used in:** " && '\n' !in " decks (" && '\n' !in "%)"
  {
  }

  /** Raising the limit only appends combos: the shown combos for a smaller
      count are a prefix of those for a larger one. */
  lemma {:induction false} ComboBlocksPrefix(combos: seq<Combo>, j: nat, k: nat)
    requires j <= k <= |combos|
    ensures ComboBlocks(combos[..j]) <= ComboBlocks(combos[..k])
    decreases k - j
  {
    if j < k {
      ComboBlocksPrefix(combos, j, k - 1);
      ComboBlocksSnoc(combos, k);
      PrefixExtends(ComboBlocks(combos[..j]), ComboBlocks(combos[..k - 1]), ComboBlock(k - 1, combos[k - 1]));
    }
  }

  lemma ComboBlocksSnoc(combos: seq<Combo>, k: nat)
    requires 0 < k <= |combos|
    ensures ComboBlocks(combos[..k]) == ComboBlocks(combos[..k - 1]) + ComboBlock(k - 1, combos[k - 1])
  {
    assert combos[..k][..k - 1] == combos[..k - 1];
  }

  lemma PrefixExtends(a: string, b: string, x: string)
    requires a <= b
    ensures a <= b + x
  {
    assert (b + x)[..|b|] == b;
  }

  /** A limit the combo count does not exceed shows every combo with no "more"
      line: the text is the one without a limit. */
  lemma CombosLimitNotReached(combos: seq<Combo>, limit: int)
    requires |combos| <= limit
    ensures CombosText(combos, limit) == CombosText(combos, 0)
  {
  }

  /** One line of a block shows the colours: the colour code with the same
      letters, up to case, and no lower-case letter left. */
  lemma ComboColorsUpper(i: nat, combo: Combo)
    requires forall name :: name in combo.cardNames ==> '\n' !in name
    requires '\n' !in combo.colors && '\n' !in combo.percentText
    requires forall result :: result in combo.results ==> '\n' !in result
    ensures var shown := ToUpper(combo.colors);
            "   **Colors:** " + shown in Split(ComboBlock(i, combo), '\n') &&
            |shown| == |combo.colors| &&
            forall k :: 0 <= k < |shown| ==>
              !IsLowerLetter(shown[k]) && LowerChar(shown[k]) == LowerChar(combo.colors[k])
  {
    ComboBlockLines(i, combo);
  }

  // =====================================================================
  // GetTopCardsForCategory's flattening (edhrec.go:289-295)

  /** The card views of every list, list after list. */
  function Flatten(lists: seq<CardList>): seq<CardView> {
    if lists == [] then [] else Flatten(lists[..|lists| - 1]) + lists[|lists| - 1].cardViews
  }

  /** The append loop over the lists. */
  method TopCards(lists: seq<CardList>) returns (allCards: seq<CardView>)
    ensures allCards == Flatten(lists)
  {
    allCards := [];
    for k := 0 to |lists|
      invariant allCards == Flatten(lists[..k])
    {
      assert lists[..k + 1][..k] == lists[..k];
      allCards := allCards + lists[k].cardViews;
    }
    assert lists[..|lists|] == lists;
  }

  /** Flattening distributes over concatenation of the list sequences. */
  lemma {:induction false} FlattenAppend(a: seq<CardList>, b: seq<CardList>)
    ensures Flatten(a + b) == Flatten(a) + Flatten(b)
  {
    if b != [] {
      var init := b[..|b| - 1];
      FlattenAppend(a, init);
      assert (a + b)[..|a + b| - 1] == a + init;
    } else {
      assert a + b == a;
    }
  }

  /** The number of cards in all lists. */
  function CardCount(lists: seq<CardList>): nat {
    if lists == [] then 0 else CardCount(lists[..|lists| - 1]) + |lists[|lists| - 1].cardViews|
  }

  /** Nothing is lost or added: the flat list holds exactly the cards of the lists,
      as many as they hold together. */
  lemma {:induction false} FlattenContents(lists: seq<CardList>)
    ensures |Flatten(lists)| == CardCount(lists)
    ensures forall c :: c in Flatten(lists) <==> exists i :: 0 <= i < |lists| && c in lists[i].cardViews
  {
    if lists != [] {
      var init := lists[..|lists| - 1];
      FlattenContents(init);
      forall c ensures c in Flatten(lists) <==> exists i :: 0 <= i < |lists| && c in lists[i].cardViews {
        if c in Flatten(init) {
          var i :| 0 <= i < |init| && c in init[i].cardViews;
          assert lists[i] == init[i];
        }
        if exists i :: 0 <= i < |lists| && c in lists[i].cardViews {
          var i :| 0 <= i < |lists| && c in lists[i].cardViews;
          if i < |init| {
            assert init[i] == lists[i];
          }
        }
      }
    }
  }

  /** Lists without cards add nothing to the flat list. */
  lemma {:induction false} FlattenSkipsEmpty(lists: seq<CardList>)
    ensures Flatten(NonEmptyLists(lists)) == Flatten(lists)
  {
    if lists != [] {
      var init, last := lists[..|lists| - 1], lists[|lists| - 1];
      FlattenSkipsEmpty(init);
      var r := NonEmptyLists(init);
      if last.cardViews != [] {
        assert NonEmptyLists(lists) == r + [last];
        assert (r + [last])[..|r|] == r;
      } else {
        assert NonEmptyLists(lists) == r + [];
        assert r + [] == r;
        assert Flatten(init) + last.cardViews == Flatten(init);
      }
    }
  }
}
