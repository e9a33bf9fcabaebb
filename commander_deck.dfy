/** The rules inside the MCP handlers of main.go, with the Scryfall lookups factored
    out: the decklist parser, the name tally and singleton rule, the deck-size,
    eligibility and banned checks of validate_deck, the three-way verdict of
    check_commander_legality and the result limit of search_cards. */
module CommanderDeck {
  import opened Text

  // =====================================================================
  // Decklist parser (handleValidateDeck, main.go:463-487)

  /** What json.Unmarshal does with the decklist string. Decoded: it was a JSON
      array of strings (or null) and these are its elements. Rejected: Unmarshal
      returned an error; leftover is what it had already stored into cardNames
      (empty for malformed JSON, a partial array such as ["a", ""] when an element
      had the wrong type). The text parser appends to the leftover. */
  datatype JsonOutcome =
    | Decoded(names: seq<string>)
    | Rejected(leftover: seq<string>)

  /** The largest value of Go's 64-bit int. */
  const MaxInt64: nat := 0x7FFF_FFFF_FFFF_FFFF

  function SignLength(token: string): nat {
    if |token| > 0 && (token[0] == '+' || token[0] == '-') then 1 else 0
  }

  /** fmt.Sscanf(token, "%d", new(int)) returns no error: an optional sign, at
      least one decimal digit, and a value that fits in an int. What follows the
      digits is ignored, so "3x" scans as 3. */
  predicate ScansAsInt(token: string) {
    var digits := LeadingDigits(token[SignLength(token)..]);
    |digits| > 0 &&
    DigitsValue(digits) <= (if SignLength(token) == 1 && token[0] == '-' then MaxInt64 + 1 else MaxInt64)
  }

  /** The one name a trimmed, non-blank line contributes: the line is split at its
      first space; when the part before it scans as an integer the name is the
      rest, trimmed, and otherwise it is the whole line. */
  function LineName(line: string): string {
    match IndexOf(line, ' ')
    case None => line
    case Some(i) => if ScansAsInt(line[..i]) then TrimSpace(line[i + 1..]) else line
  }

  /** What one raw line adds to the decklist: nothing when blank. */
  function LineEntry(line: string): seq<string> {
    var t := TrimSpace(line);
    if t == "" then [] else [LineName(t)]
  }

  /** The names the text format reads from a sequence of lines. */
  function TextNames(lines: seq<string>): seq<string> {
    if lines == [] then [] else TextNames(lines[..|lines| - 1]) + LineEntry(lines[|lines| - 1])
  }

  /** The card names of a decklist submission. */
  function DecklistNames(decklist: string, json: JsonOutcome): seq<string> {
    match json
    case Decoded(names) => names
    case Rejected(leftover) => leftover + TextNames(Split(decklist, '\n'))
  }

  /** The parsing loop of handleValidateDeck. A decoded JSON array is taken as it
      is; otherwise every line is trimmed, blank lines are skipped and each other
      line contributes exactly one name. */
  method ParseDecklist(decklist: string, json: JsonOutcome) returns (cardNames: seq<string>)
    ensures json.Decoded? ==> cardNames == json.names
    ensures cardNames == DecklistNames(decklist, json)
  {
    match json {
      case Decoded(names) =>
        cardNames := names;
      case Rejected(leftover) =>
        cardNames := leftover;
        var lines := Split(decklist, '\n');
        var k := 0;
        while k < |lines|
          invariant 0 <= k <= |lines|
          invariant cardNames == leftover + TextNames(lines[..k])
        {
          var line := TrimSpace(lines[k]);
          if line != "" {
            cardNames := AppendLineName(cardNames, line);
          }
          TextNamesStep(lines, k);
          k := k + 1;
        }
        assert lines[..|lines|] == lines;
    }
  }

  /** The body of the parsing loop for a trimmed, non-blank line: split at the
      first space and drop a leading integer. */
  method AppendLineName(cardNames: seq<string>, line: string) returns (extended: seq<string>)
    ensures extended == cardNames + [LineName(line)]
  {
    match IndexOf(line, ' ') {
      case Some(i) =>
        if ScansAsInt(line[..i]) {
          extended := cardNames + [TrimSpace(line[i + 1..])];
        } else {
          extended := cardNames + [line];
        }
      case None =>
        extended := cardNames + [line];
    }
  }

  lemma TextNamesStep(lines: seq<string>, k: nat)
    requires k < |lines|
    ensures TextNames(lines[..k + 1]) == TextNames(lines[..k]) + LineEntry(lines[k])
  {
    assert lines[..k + 1][..k] == lines[..k];
  }

  /** Lines are read independently and in order: the names of two runs of lines
      are the names of the first followed by the names of the second. */
  lemma {:induction false} TextNamesAppend(a: seq<string>, b: seq<string>)
    ensures TextNames(a + b) == TextNames(a) + TextNames(b)
    decreases |b|
  {
    if b != [] {
      var b' := b[..|b| - 1];
      assert (a + b)[..|a + b| - 1] == a + b';
      TextNamesAppend(a, b');
    } else {
      assert a + b == a;
    }
  }

  /** The name a non-blank trimmed line yields is itself non-empty and trimmed. */
  lemma LineNameTrimmed(line: string)
    requires line != "" && IsTrimmed(line)
    ensures LineName(line) != "" && IsTrimmed(LineName(line))
  {
    match IndexOf(line, ' ') {
      case None =>
      case Some(i) =>
        if ScansAsInt(line[..i]) {
          var rest := line[i + 1..];
          assert i < |line| - 1;
          assert !IsSpace(rest[|rest| - 1]);
          TrimSpaceFacts(rest);
        }
    }
  }

  /** Each line contributes at most one name (quantities are never expanded),
      exactly one when it is not blank, and no name is empty or begins or ends
      with white space. */
  lemma {:induction false} TextNamesShape(lines: seq<string>)
    ensures |TextNames(lines)| <= |lines|
    ensures (forall k :: 0 <= k < |lines| ==> TrimSpace(lines[k]) != "") ==> |TextNames(lines)| == |lines|
    ensures forall n :: n in TextNames(lines) ==> n != "" && IsTrimmed(n)
  {
    if lines != [] {
      var last := lines[|lines| - 1];
      TextNamesShape(lines[..|lines| - 1]);
      var t := TrimSpace(last);
      TrimSpaceFacts(last);
      if t != "" {
        LineNameTrimmed(t);
      }
    }
  }

  /** A quantity prefix is stripped and does not multiply the entry: the line
      "<n> <name>" contributes the single name <name>. */
  lemma QuantityPrefixStripped(n: nat, name: string)
    requires n <= MaxInt64
    requires name != "" && IsTrimmed(name)
    ensures TextNames([NatToString(n) + " " + name]) == [name]
  {
    var digits := NatToString(n);
    var line := digits + " " + name;
    assert ' ' !in digits;
    assert line == digits + [' '] + name;
    IndexOfAfter(digits, ' ', name);
    assert line[..|digits|] == digits;
    assert SignLength(digits) == 0;
    LeadingDigitsOfDigits(digits, "");
    assert digits + "" == digits;
    DigitsValueOfNatToString(n);
    assert ScansAsInt(digits);
    assert line[|digits| + 1..] == name;
    TrimSpaceOfTrimmed(name);
    TrimSpaceOfTrimmed(line);
    assert [line][..0] == [];
  }

  /** The three lines of the example decklist "1 Sol Ring\nForest\n2 Mountain"
      read as one entry each, not as four copies. */
  lemma ExampleSolRing()
    ensures TextNames(["1 Sol Ring"]) == ["Sol Ring"]
  {
    assert NatToString(1) + " " + "Sol Ring" == "1 Sol Ring";
    QuantityPrefixStripped(1, "Sol Ring");
  }

  lemma ExampleForest()
    ensures TextNames(["Forest"]) == ["Forest"]
  {
    assert IndexOf("Forest", ' ') == None;
    TrimSpaceOfTrimmed("Forest");
    assert ["Forest"][..0] == [];
  }

  lemma ExampleMountain()
    ensures TextNames(["2 Mountain"]) == ["Mountain"]
  {
    assert NatToString(2) + " " + "Mountain" == "2 Mountain";
    QuantityPrefixStripped(2, "Mountain");
  }

  // =====================================================================
  // Tally (main.go:532-535)

  /** The key a name is counted under: lower-cased and trimmed. */
  function CardKey(name: string): string {
    ToLower(TrimSpace(name))
  }

  /** The keys of a decklist, entry by entry. */
  function CardKeys(names: seq<string>): (keys: seq<string>)
    ensures |keys| == |names|
  {
    seq(|names|, i requires 0 <= i < |names| => CardKey(names[i]))
  }

  /** The tally of a decklist, as a multiset of keys (Go's map[string]int with ++). */
  function KeyTally(names: seq<string>): multiset<string> {
    multiset(CardKeys(names))
  }

  /** The counting loop of handleValidateDeck. */
  method TallyCards(cardNames: seq<string>) returns (cardCounts: multiset<string>)
    ensures cardCounts == KeyTally(cardNames)
  {
    cardCounts := multiset{};
    ghost var keys := CardKeys(cardNames);
    for k := 0 to |cardNames|
      invariant cardCounts == multiset(keys[..k])
    {
      var key := CardKey(cardNames[k]);
      cardCounts := cardCounts[key := cardCounts[key] + 1];
      assert keys[..k + 1] == keys[..k] + [key];
    }
    assert keys[..|cardNames|] == keys;
  }

  /** The positions of a sequence that hold a given element. */
  function Positions(keys: seq<string>, key: string): set<nat> {
    set i: nat | i < |keys| && keys[i] == key
  }

  /** An element occurs in the multiset of a sequence as often as it sits at
      a position of the sequence. */
  lemma {:induction false} CountIsPositions(keys: seq<string>, key: string)
    ensures multiset(keys)[key] == |Positions(keys, key)|
  {
    if keys != [] {
      var n := |keys| - 1;
      var init := keys[..n];
      assert keys == init + [keys[n]];
      CountIsPositions(init, key);
      if keys[n] == key {
        assert Positions(keys, key) == Positions(init, key) + {n};
      } else {
        assert Positions(keys, key) == Positions(init, key);
      }
    } else {
      assert Positions(keys, key) == {};
    }
  }

  /** An element occurs more than once in the multiset of a sequence exactly
      when it sits at two different positions. */
  lemma RepeatedIff(keys: seq<string>, key: string)
    ensures multiset(keys)[key] > 1 <==> exists i, j :: 0 <= i < j < |keys| && keys[i] == key && keys[j] == key
  {
    CountIsPositions(keys, key);
    var at := Positions(keys, key);
    if multiset(keys)[key] > 1 {
      var i :| i in at;
      assert |at - {i}| == |at| - 1;
      var j :| j in at - {i};
      if i < j {
        assert keys[i] == key && keys[j] == key;
      } else {
        assert keys[j] == key && keys[i] == key;
      }
    }
    if exists i, j :: 0 <= i < j < |keys| && keys[i] == key && keys[j] == key {
      var i, j :| 0 <= i < j < |keys| && keys[i] == key && keys[j] == key;
      assert {i, j} <= at;
      assert |{i, j}| == 2;
      SubsetSize({i, j}, at);
    }
  }

  lemma {:induction false} SubsetSize(a: set<nat>, b: set<nat>)
    requires a <= b
    ensures |a| <= |b|
  {
    if a != {} {
      var x :| x in a;
      SubsetSize(a - {x}, b - {x});
    }
  }

  /** The positions of the decklist whose name has the given key. */
  function PositionsWithKey(names: seq<string>, key: string): set<nat> {
    set i: nat | i < |names| && CardKey(names[i]) == key
  }

  /** A key's count is the number of names that normalise to it, and the counts
      add up to the number of names. */
  lemma KeyTallyCounts(names: seq<string>, key: string)
    ensures KeyTally(names)[key] == |PositionsWithKey(names, key)|
    ensures |KeyTally(names)| == |names|
  {
    var keys := CardKeys(names);
    CountIsPositions(keys, key);
    assert Positions(keys, key) == PositionsWithKey(names, key);
  }

  /** A key is counted more than once exactly when two different entries of the
      decklist normalise to it. */
  lemma RepeatedKey(names: seq<string>, key: string)
    ensures KeyTally(names)[key] > 1 <==>
            exists i, j :: 0 <= i < j < |names| && CardKey(names[i]) == key && CardKey(names[j]) == key
  {
    var keys := CardKeys(names);
    RepeatedIff(keys, key);
    if exists i, j :: 0 <= i < j < |names| && CardKey(names[i]) == key && CardKey(names[j]) == key {
      var i, j :| 0 <= i < j < |names| && CardKey(names[i]) == key && CardKey(names[j]) == key;
      assert keys[i] == key && keys[j] == key;
    }
  }

  // =====================================================================
  // Singleton rule (main.go:537-562)

  /** The six basic-land names exempt from the singleton rule. */
  const BasicLands: seq<string> := ["plains", "island", "swamp", "mountain", "forest", "wastes"]

  /** The keys that break the singleton rule: counted more than once and not a basic land. */
  ghost function ViolatingKeys(cardCounts: multiset<string>): set<string> {
    set key | key in cardCounts && cardCounts[key] > 1 && key !in BasicLands
  }

  /** A line of the duplicates list: "sol ring (x2)". */
  function DuplicateLine(key: string, count: nat): string {
    key + " (x" + NatToString(count) + ")"
  }

  /** The duplicate lines of a sequence of keys, in that order. */
  function DuplicateLines(keys: seq<string>, cardCounts: multiset<string>): seq<string> {
    if keys == [] then []
    else DuplicateLines(keys[..|keys| - 1], cardCounts) + [DuplicateLine(keys[|keys| - 1], cardCounts[keys[|keys| - 1]])]
  }

  lemma DuplicateLinesSnoc(keys: seq<string>, key: string, cardCounts: multiset<string>)
    ensures DuplicateLines(keys + [key], cardCounts) == DuplicateLines(keys, cardCounts) + [DuplicateLine(key, cardCounts[key])]
  {
    assert (keys + [key])[..|keys|] == keys;
  }

  lemma {:induction false} DuplicateLinesAt(keys: seq<string>, cardCounts: multiset<string>, i: nat)
    requires i < |keys|
    ensures |DuplicateLines(keys, cardCounts)| == |keys|
    ensures DuplicateLines(keys, cardCounts)[i] == DuplicateLine(keys[i], cardCounts[keys[i]])
  {
    if i < |keys| - 1 {
      DuplicateLinesAt(keys[..|keys| - 1], cardCounts, i);
    } else if |keys| > 1 {
      DuplicateLinesAt(keys[..|keys| - 1], cardCounts, 0);
    }
  }

  /** The lines of a set of keys, listed in any order, are one line per key and nothing else. */
  lemma DuplicateLinesMeaning(keys: seq<string>, cardCounts: multiset<string>, listed: set<string>)
    requires forall key :: key in keys <==> key in listed
    ensures |DuplicateLines(keys, cardCounts)| == |keys|
    ensures forall key :: key in listed ==> DuplicateLine(key, cardCounts[key]) in DuplicateLines(keys, cardCounts)
    ensures forall d :: d in DuplicateLines(keys, cardCounts) ==>
              exists key :: key in listed && d == DuplicateLine(key, cardCounts[key])
  {
    var lines := DuplicateLines(keys, cardCounts);
    if |keys| > 0 {
      DuplicateLinesAt(keys, cardCounts, 0);
    }
    forall key | key in listed
      ensures DuplicateLine(key, cardCounts[key]) in lines
    {
      var i :| 0 <= i < |keys| && keys[i] == key;
      DuplicateLinesAt(keys, cardCounts, i);
    }
    forall d | d in lines
      ensures exists key :: key in listed && d == DuplicateLine(key, cardCounts[key])
    {
      var i :| 0 <= i < |lines| && lines[i] == d;
      if |keys| > 0 {
        DuplicateLinesAt(keys, cardCounts, 0);
      }
      DuplicateLinesAt(keys, cardCounts, i);
      assert keys[i] in listed;
    }
  }

  /** One step of the duplicates loop: visiting a key adds it to the listed
      keys exactly when it breaks the singleton rule. */
  lemma VisitKey(cardCounts: multiset<string>, visited: set<string>, keys: seq<string>, name: string)
    requires name !in visited
    requires |keys| == |ViolatingKeys(cardCounts) * visited|
    requires forall key :: key in keys <==> key in ViolatingKeys(cardCounts) * visited
    ensures var after := ViolatingKeys(cardCounts) * (visited + {name});
            var listed := if name in ViolatingKeys(cardCounts) then keys + [name] else keys;
            |listed| == |after| && forall key :: key in listed <==> key in after
  {
    var violating := ViolatingKeys(cardCounts);
    if name in violating {
      assert violating * (visited + {name}) == (violating * visited) + {name};
    } else {
      assert violating * (visited + {name}) == violating * visited;
    }
  }

  lemma MoveToVisited(remaining: set<string>, visited: set<string>, name: string)
    requires name in remaining && remaining !! visited
    ensures (remaining - {name}) + (visited + {name}) == remaining + visited
    ensures (remaining - {name}) !! (visited + {name})
  {
  }

  lemma ViolatingKey(cardCounts: multiset<string>, name: string)
    ensures name in ViolatingKeys(cardCounts) <==> cardCounts[name] > 1 && name !in BasicLands
  {
  }

  /** The basic-land search loop of the singleton rule. */
  method IsBasicLand(name: string) returns (isBasic: bool)
    ensures isBasic <==> name in BasicLands
  {
    isBasic := false;
    var k := 0;
    while k < |BasicLands|
      invariant 0 <= k <= |BasicLands|
      invariant name !in BasicLands[..k]
    {
      if name == BasicLands[k] {
        isBasic := true;
        break;
      }
      assert BasicLands[..k + 1] == BasicLands[..k] + [BasicLands[k]];
      k := k + 1;
    }
  }

  /** The duplicates loop of handleValidateDeck. Go walks the tally in map order,
      which the model leaves open: the list holds one line "key (xN)" for every
      violating key and nothing else, in some order. */
  method FindDuplicates(cardCounts: multiset<string>) returns (duplicates: seq<string>)
    ensures |duplicates| == |ViolatingKeys(cardCounts)|
    ensures forall key :: key in ViolatingKeys(cardCounts) ==> DuplicateLine(key, cardCounts[key]) in duplicates
    ensures forall d :: d in duplicates ==>
              exists key :: key in ViolatingKeys(cardCounts) && d == DuplicateLine(key, cardCounts[key])
  {
    duplicates := [];
    var remaining := set key | key in cardCounts;
    ghost var all := remaining;
    ghost var visited: set<string> := {};
    ghost var keys: seq<string> := [];
    ghost var violating := ViolatingKeys(cardCounts);
    while remaining != {}
      invariant remaining !! visited
      invariant remaining + visited == all
      invariant |keys| == |violating * visited|
      invariant forall key :: key in keys <==> key in violating * visited
      invariant duplicates == DuplicateLines(keys, cardCounts)
      decreases remaining
    {
      var name :| name in remaining;
      var count := cardCounts[name];
      ghost var listedBefore := keys;
      if count > 1 {
        var isBasic := IsBasicLand(name);
        if !isBasic {
          duplicates := duplicates + [DuplicateLine(name, count)];
          DuplicateLinesSnoc(keys, name, cardCounts);
          keys := keys + [name];
        }
      }
      ViolatingKey(cardCounts, name);
      VisitKey(cardCounts, visited, listedBefore, name);
      MoveToVisited(remaining, visited, name);
      remaining := remaining - {name};
      visited := visited + {name};
    }
    assert violating <= all;
    assert violating * visited == violating;
    DuplicateLinesMeaning(keys, cardCounts, violating);
  }

  /** The singleton rule of a decklist breaks exactly when two different entries
      normalise to the same key and that key is not a basic land. */
  lemma SingletonViolation(names: seq<string>, key: string)
    ensures key in ViolatingKeys(KeyTally(names)) <==>
            key !in BasicLands &&
            exists i, j :: 0 <= i < j < |names| && CardKey(names[i]) == key && CardKey(names[j]) == key
  {
    RepeatedKey(names, key);
  }

  /** A decklist whose entries all have different keys has no duplicates. */
  lemma DistinctDeckHasNoViolations(names: seq<string>)
    requires forall i, j :: 0 <= i < j < |names| ==> CardKey(names[i]) != CardKey(names[j])
    ensures ViolatingKeys(KeyTally(names)) == {}
  {
    forall key | key in ViolatingKeys(KeyTally(names)) ensures false {
      SingletonViolation(names, key);
    }
  }

  /** Five Forests are allowed; "Sol Ring" and " sol ring" are the same card twice. */
  lemma ExampleSingleton()
    ensures ViolatingKeys(multiset{"sol ring", "sol ring", "forest", "forest", "forest", "forest", "forest"}) ==
            {"sol ring"}
  {
    var counts := multiset{"sol ring", "sol ring", "forest", "forest", "forest", "forest", "forest"};
    assert "forest" in BasicLands;
    assert "sol ring" !in BasicLands;
    forall key | key in ViolatingKeys(counts) ensures key == "sol ring" {
      assert key in counts;
    }
  }

  // =====================================================================
  // Deck size, eligibility and legality (main.go:508-529, 290-296)

  /** The outcome of the deck-size check. */
  datatype SizeVerdict =
    | Exact               // 99 cards: passes
    | CommanderIncluded   // 100 cards: passes with a note that the commander was counted
    | WrongSize           // anything else: fails

  /** The deck-size check of handleValidateDeck. */
  function CheckDeckSize(totalCards: nat): (v: SizeVerdict)
    ensures v == Exact <==> totalCards == 99
    ensures v == CommanderIncluded <==> totalCards == 100
    ensures v == WrongSize <==> totalCards != 99 && totalCards != 100
  {
    if totalCards == 99 then Exact
    else if totalCards == 100 then CommanderIncluded
    else WrongSize
  }

  /** The deck size counts entries, not quantities: a single line such as
      "99 Relentless Rats" is a one-card deck. */
  lemma QuantityDoesNotCountTowardsSize(n: nat, name: string)
    requires n <= MaxInt64
    requires name != "" && IsTrimmed(name) && '\n' !in name
    ensures |DecklistNames(NatToString(n) + " " + name, Rejected([]))| == 1
    ensures CheckDeckSize(|DecklistNames(NatToString(n) + " " + name, Rejected([]))|) == WrongSize
  {
    var line := NatToString(n) + " " + name;
    assert '\n' !in NatToString(n);
    assert line == NatToString(n) + [' '] + name;
    SplitNoSep(line, '\n');
    QuantityPrefixStripped(n, name);
  }

  /** The commander as the card lookup returns it. */
  datatype CommanderCard = CommanderCard(
    name: string,
    typeLine: string,
    oracleText: string,
    colorIdentity: seq<string>,
    commanderLegality: string)

  /** The eligibility check: a legendary type line, or oracle text that says the
      card can be your commander, in any case. */
  function CanBeCommander(card: CommanderCard): bool {
    Contains(ToLower(card.typeLine), "legendary") ||
    Contains(ToLower(card.oracleText), "can be your commander")
  }

  /** The word "legendary", or the phrase "can be your commander", in any mix of
      upper and lower case, makes a card eligible. */
  lemma EligibleWhateverTheCase(card: CommanderCard, word: string)
    requires ToLower(word) == "legendary" || ToLower(word) == "can be your commander"
    requires Contains(if ToLower(word) == "legendary" then card.typeLine else card.oracleText, word)
    ensures CanBeCommander(card)
  {
    if ToLower(word) == "legendary" {
      ContainsLower(card.typeLine, word);
    } else {
      ContainsLower(card.oracleText, word);
    }
  }

  /** The two examples of eligibility: "Legendary Creature — Human Wizard" is
      eligible; "Creature — Human Wizard" with oracle text "Flying" is not. */
  lemma ExampleLegendary()
    ensures CanBeCommander(CommanderCard("A", "Legendary Creature — Human Wizard", "", [], "legal"))
  {
    var legendary := "Legendary Creature — Human Wizard";
    assert legendary[..9] == "Legendary";
    EligibleWhateverTheCase(CommanderCard("A", legendary, "", [], "legal"), "Legendary");
  }

  lemma ExampleNotLegendary()
    ensures !CanBeCommander(CommanderCard("B", "Creature — Human Wizard", "Flying", [], "legal"))
  {
    var plain := ToLower("Creature — Human Wizard");
    assert 'g' !in plain;
    MissingLetter(plain, "legendary", 'g');
  }

  /** A string lacking one of the characters of sub does not contain sub. */
  lemma {:induction false} MissingLetter(s: string, sub: string, c: char)
    requires c in sub && c !in s
    ensures !Contains(s, sub)
    decreases |s|
  {
    if |sub| <= |s| {
      MissingLetter(s[1..], sub, c);
    }
  }

  /** The verdict of check_commander_legality. */
  datatype Legality = Banned | Legal | NotLegal

  function CheckCommanderLegality(status: string): (v: Legality)
    ensures v == Banned <==> status == "banned"
    ensures v == Legal <==> status == "legal"
    ensures v == NotLegal <==> status != "banned" && status != "legal"
  {
    if status == "banned" then Banned
    else if status == "legal" then Legal
    else NotLegal
  }

  /** validate_deck reports an error for the commander's legality only when it is banned. */
  function BannedCommanderError(card: CommanderCard): (error: bool)
    ensures error <==> CheckCommanderLegality(card.commanderLegality) == Banned
  {
    card.commanderLegality == "banned"
  }

  /** A commander that check_commander_legality calls not legal ("not_legal",
      "restricted", a missing status) passes validate_deck's banned check. */
  lemma NotLegalIsNoValidationError(card: CommanderCard)
    requires CheckCommanderLegality(card.commanderLegality) == NotLegal
    ensures !BannedCommanderError(card)
  {
  }

  // =====================================================================
  // The validation report (main.go:451-567)

  /** What validate_deck reports once the commander was found. */
  datatype ValidationReport = ValidationReport(
    commander: string,
    colorIdentity: seq<string>,
    bannedError: bool,        // "your commander is banned"
    eligibilityError: bool,   // "this card cannot be a commander"
    deckSize: nat,
    sizeVerdict: SizeVerdict,
    duplicates: seq<string>)  // empty: "No duplicates"

  datatype Validation = CommanderNotFound | Report(report: ValidationReport)

  /** handleValidateDeck without its I/O: the commander is what the card lookup
      returned (None when it failed) and json is what json.Unmarshal made of the
      decklist. */
  method ValidateDeck(commander: Option<CommanderCard>, decklist: string, json: JsonOutcome)
    returns (v: Validation)
    ensures v.CommanderNotFound? <==> commander.None?
    ensures v.Report? ==>
              var card := commander.value;
              var names := DecklistNames(decklist, json);
              var r := v.report;
              && r.commander == card.name
              && r.colorIdentity == card.colorIdentity
              && r.bannedError == (card.commanderLegality == "banned")
              && r.eligibilityError == !CanBeCommander(card)
              && r.deckSize == |names|
              && r.sizeVerdict == CheckDeckSize(|names|)
              && |r.duplicates| == |ViolatingKeys(KeyTally(names))|
              && (forall key :: key in ViolatingKeys(KeyTally(names)) ==>
                    DuplicateLine(key, KeyTally(names)[key]) in r.duplicates)
              && (forall d :: d in r.duplicates ==>
                    exists key :: key in ViolatingKeys(KeyTally(names)) && d == DuplicateLine(key, KeyTally(names)[key]))
  {
    var cardNames := ParseDecklist(decklist, json);
    if commander.None? {
      return CommanderNotFound;
    }
    var card := commander.value;
    var bannedError := BannedCommanderError(card);
    var eligibilityError := !CanBeCommander(card);
    var totalCards := |cardNames|;
    var sizeVerdict := CheckDeckSize(totalCards);
    var cardCounts := TallyCards(cardNames);
    var duplicates := FindDuplicates(cardCounts);
    v := Report(ValidationReport(card.name, card.colorIdentity, bannedError, eligibilityError,
                                 totalCards, sizeVerdict, duplicates));
  }

  /** The singleton rule passes exactly when no two entries share a key other
      than a basic land's. */
  lemma SingletonPassesIff(names: seq<string>)
    ensures |ViolatingKeys(KeyTally(names))| == 0 <==>
            forall i, j :: 0 <= i < j < |names| && CardKey(names[i]) == CardKey(names[j]) ==>
              CardKey(names[i]) in BasicLands
  {
    var violating := ViolatingKeys(KeyTally(names));
    if violating != {} {
      var key :| key in violating;
      SingletonViolation(names, key);
    }
    forall i, j | 0 <= i < j < |names| && CardKey(names[i]) == CardKey(names[j]) && CardKey(names[i]) !in BasicLands
      ensures violating != {}
    {
      SingletonViolation(names, CardKey(names[i]));
    }
  }

  // =====================================================================
  // search_cards result limit (main.go:167-176, 194-196)

  /** The "limit" argument of search_cards: missing, not a number, or a number
      (already converted to an int). */
  datatype LimitArgument = Absent | NotANumber | Number(value: int)

  /** The limit of search_cards: 10 by default, a given number capped at 50. */
  function SearchLimit(arg: LimitArgument): (limit: int)
    ensures limit <= 50
    ensures !arg.Number? ==> limit == 10
    ensures arg.Number? ==> limit == if arg.value > 50 then 50 else arg.value
  {
    match arg
    case Number(v) => if v > 50 then 50 else v
    case _ => 10
  }

  /** What search_cards shows: "No cards found", the shown prefix of the results,
      or a run-time panic of the slice expression. */
  datatype Shown<T> = NoCards | Showing(cards: seq<T>) | SlicePanic

  /** The truncation as written: a negative limit reaches result.Cards[:limit]. */
  function ShowResultsAsWritten<T>(cards: seq<T>, limit: int): (r: Shown<T>)
    ensures r.NoCards? <==> cards == []
    ensures r.SlicePanic? <==> cards != [] && limit < 0
  {
    if |cards| == 0 then NoCards
    else if |cards| > limit then (if limit < 0 then SlicePanic else Showing(cards[..limit]))
    else Showing(cards)
  }

  /** A negative limit makes search_cards panic on any non-empty result. */
  lemma NegativeLimitPanics<T>(card: T)
    ensures ShowResultsAsWritten([card], SearchLimit(Number(-1))) == SlicePanic
  {
  }

  /** The truncation with the limit clamped to at least 0. */
  function ShowResults<T>(cards: seq<T>, limit: int): (r: Shown<T>)
    ensures !r.SlicePanic?
    ensures r.NoCards? <==> cards == []
    ensures r.Showing? ==>
              |r.cards| == (if limit < 0 then 0 else if |cards| < limit then |cards| else limit) &&
              r.cards == cards[..|r.cards|]
    ensures limit >= 0 ==> r == ShowResultsAsWritten(cards, limit)
  {
    var limit := if limit < 0 then 0 else limit;
    if |cards| == 0 then NoCards
    else if |cards| > limit then Showing(cards[..limit])
    else Showing(cards)
  }

  /** search_cards never shows more than 50 results, and never more than it found:
      as written, whenever it shows anything at all, and once the limit is clamped. */
  lemma SearchShowsAtMostFifty<T>(cards: seq<T>, arg: LimitArgument)
    ensures var r := ShowResultsAsWritten(cards, SearchLimit(arg));
            r.Showing? ==> |r.cards| <= 50 && |r.cards| <= |cards|
    ensures var r := ShowResults(cards, SearchLimit(arg));
            r.Showing? ==> |r.cards| <= 50 && |r.cards| <= |cards|
  {
  }
}
