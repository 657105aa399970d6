// Marker colour by project status and sector icon by ordered keyword rules
// (frontend/src/mapUtils.js).
module MapUtils {
  import opened Text

  const Green := "#28a745"
  const Yellow := "#ffc107"
  const Teal := "#17a2b8"
  const Red := "#dc3545"
  const Blue := "#007bff"

  /** getMarkerColor: a switch on the exact status string. */
  function MarkerColor(status: string): (color: string)
    ensures color in {Green, Yellow, Teal, Red, Blue}
  {
    match status
    case "Completed" => Green
    case "Ongoing" => Yellow
    case "Processing" => Teal
    case "Terminated" => Red
    case _ => Blue
  }

  const KnownStatuses: seq<string> := ["Completed", "Ongoing", "Processing", "Terminated"]

  /** The four listed statuses get four different colours, and every other status gets the default blue. */
  lemma MarkerColorCases(status: string)
    ensures status !in KnownStatuses <==> MarkerColor(status) == Blue
    ensures forall i, j :: 0 <= i < j < |KnownStatuses| ==> MarkerColor(KnownStatuses[i]) != MarkerColor(KnownStatuses[j])
  {
  }

  const Clipboard := "\U{1F4CB}"
  const Sheaf := "\U{1F33E}"
  const Can := "\U{1F96B}"
  const Shirt := "\U{1F455}"
  const Chair := "\U{1FA91}"
  const Alembic := "\U{2697}\U{FE0F}"
  const Drum := "\U{1F6E2}\U{FE0F}"
  const Gear := "\U{2699}\U{FE0F}"
  const Laptop := "\U{1F4BB}"
  const Office := "\U{1F3E2}"

  /** The ten icons getSectorIcon can return. */
  const Icons: set<string> := {Clipboard, Sheaf, Can, Shirt, Chair, Alembic, Drum, Gear, Laptop, Office}

  /** getSectorIcon: an absent or empty sector gets the clipboard, otherwise the first rule whose keyword occurs in the lower-cased sector. */
  function SectorIcon(sector: string): (icon: string)
    ensures icon in Icons
    ensures sector == "" ==> icon == Clipboard
  {
    if sector == "" then Clipboard
    else
      var s := Lower(sector);
      if Contains(s, "agri") || Contains(s, "fishery") || Contains(s, "natural") then Sheaf
      else if Contains(s, "food") || Contains(s, "beverage") then Can
      else if Contains(s, "textile") || Contains(s, "apparel") then Shirt
      else if Contains(s, "leather") || Contains(s, "wood") || Contains(s, "paper") || Contains(s, "furniture") then Chair
      else if Contains(s, "chemical") || Contains(s, "pharma") then Alembic
      else if Contains(s, "plastic") || Contains(s, "rubber") || Contains(s, "non-metallic") then Drum
      else if Contains(s, "metal") || Contains(s, "machinery") || Contains(s, "transport") then Gear
      else if Contains(s, "information") || Contains(s, "communication") || Contains(s, "ict") then Laptop
      else if Contains(s, "other") || Contains(s, "regional") then Office
      else Clipboard
  }

  /** The same classification as a table: keywords and icon of each rule, in order. */
  datatype Rule = Rule(keywords: seq<string>, icon: string)

  const SectorRules: seq<Rule> := [
    Rule(["agri", "fishery", "natural"], Sheaf),
    Rule(["food", "beverage"], Can),
    Rule(["textile", "apparel"], Shirt),
    Rule(["leather", "wood", "paper", "furniture"], Chair),
    Rule(["chemical", "pharma"], Alembic),
    Rule(["plastic", "rubber", "non-metallic"], Drum),
    Rule(["metal", "machinery", "transport"], Gear),
    Rule(["information", "communication", "ict"], Laptop),
    Rule(["other", "regional"], Office)
  ]

  /** Some keyword of the list occurs in s. */
  predicate AnyKeyword(s: string, keywords: seq<string>)
  {
    |keywords| > 0 && (Contains(s, keywords[0]) || AnyKeyword(s, keywords[1..]))
  }

  predicate RuleMatches(r: Rule, s: string)
  {
    AnyKeyword(s, r.keywords)
  }

  lemma AnyKeyword2(s: string, a: string, b: string)
    ensures AnyKeyword(s, [a, b]) <==> Contains(s, a) || Contains(s, b)
  {
    assert [b][1..] == [];
    assert !AnyKeyword(s, []);
    assert AnyKeyword(s, [b]) <==> Contains(s, b);
    assert [a, b][1..] == [b];
  }

  lemma AnyKeyword3(s: string, a: string, b: string, c: string)
    ensures AnyKeyword(s, [a, b, c]) <==> Contains(s, a) || Contains(s, b) || Contains(s, c)
  {
    assert [a, b, c][1..] == [b, c];
    AnyKeyword2(s, b, c);
  }

  lemma AnyKeyword4(s: string, a: string, b: string, c: string, d: string)
    ensures AnyKeyword(s, [a, b, c, d]) <==> Contains(s, a) || Contains(s, b) || Contains(s, c) || Contains(s, d)
  {
    assert [a, b, c, d][1..] == [b, c, d];
    AnyKeyword3(s, b, c, d);
  }

  /** The least rule index at or after i that matches s, or |SectorRules| when none does. */
  function FirstRule(s: string, i: nat): (r: nat)
    requires i <= |SectorRules|
    ensures i <= r <= |SectorRules|
    ensures r < |SectorRules| ==> RuleMatches(SectorRules[r], s)
    ensures forall j :: i <= j < r ==> !RuleMatches(SectorRules[j], s)
    decreases |SectorRules| - i
  {
    if i == |SectorRules| then i
    else if RuleMatches(SectorRules[i], s) then i
    else FirstRule(s, i + 1)
  }

  /** The icon of the first matching rule, or the clipboard. */
  function TableIcon(sector: string): (icon: string)
  {
    if sector == "" then Clipboard
    else
      var k := FirstRule(Lower(sector), 0);
      if k < |SectorRules| then SectorRules[k].icon else Clipboard
  }

  /** The rule table spelled out keyword by keyword. */
  lemma RulesSpelledOut(s: string)
    ensures RuleMatches(SectorRules[0], s) <==> Contains(s, "agri") || Contains(s, "fishery") || Contains(s, "natural")
    ensures RuleMatches(SectorRules[1], s) <==> Contains(s, "food") || Contains(s, "beverage")
    ensures RuleMatches(SectorRules[2], s) <==> Contains(s, "textile") || Contains(s, "apparel")
    ensures RuleMatches(SectorRules[3], s) <==> Contains(s, "leather") || Contains(s, "wood") || Contains(s, "paper") || Contains(s, "furniture")
    ensures RuleMatches(SectorRules[4], s) <==> Contains(s, "chemical") || Contains(s, "pharma")
    ensures RuleMatches(SectorRules[5], s) <==> Contains(s, "plastic") || Contains(s, "rubber") || Contains(s, "non-metallic")
    ensures RuleMatches(SectorRules[6], s) <==> Contains(s, "metal") || Contains(s, "machinery") || Contains(s, "transport")
    ensures RuleMatches(SectorRules[7], s) <==> Contains(s, "information") || Contains(s, "communication") || Contains(s, "ict")
    ensures RuleMatches(SectorRules[8], s) <==> Contains(s, "other") || Contains(s, "regional")
  {
    AnyKeyword3(s, "agri", "fishery", "natural");
    AnyKeyword2(s, "food", "beverage");
    AnyKeyword2(s, "textile", "apparel");
    AnyKeyword4(s, "leather", "wood", "paper", "furniture");
    AnyKeyword2(s, "chemical", "pharma");
    AnyKeyword3(s, "plastic", "rubber", "non-metallic");
    AnyKeyword3(s, "metal", "machinery", "transport");
    AnyKeyword3(s, "information", "communication", "ict");
    AnyKeyword2(s, "other", "regional");
  }

  lemma FirstRuleSteps(s: string)
    ensures FirstRule(s, 0) == if RuleMatches(SectorRules[0], s) then 0 else FirstRule(s, 1)
    ensures FirstRule(s, 1) == if RuleMatches(SectorRules[1], s) then 1 else FirstRule(s, 2)
    ensures FirstRule(s, 2) == if RuleMatches(SectorRules[2], s) then 2 else FirstRule(s, 3)
    ensures FirstRule(s, 3) == if RuleMatches(SectorRules[3], s) then 3 else FirstRule(s, 4)
    ensures FirstRule(s, 4) == if RuleMatches(SectorRules[4], s) then 4 else FirstRule(s, 5)
    ensures FirstRule(s, 5) == if RuleMatches(SectorRules[5], s) then 5 else FirstRule(s, 6)
    ensures FirstRule(s, 6) == if RuleMatches(SectorRules[6], s) then 6 else FirstRule(s, 7)
    ensures FirstRule(s, 7) == if RuleMatches(SectorRules[7], s) then 7 else FirstRule(s, 8)
    ensures FirstRule(s, 8) == if RuleMatches(SectorRules[8], s) then 8 else 9
  {
  }

  /** The if-chain and the table agree: the first rule that matches wins. */
  lemma {:induction false} SectorIconIsFirstRule(sector: string)
    ensures SectorIcon(sector) == TableIcon(sector)
  {
    if sector != "" {
      RulesSpelledOut(Lower(sector));
      FirstRuleSteps(Lower(sector));
    }
  }

  /** Classification ignores case: lower-casing the sector first changes nothing. */
  lemma SectorIconCaseInsensitive(sector: string)
    ensures SectorIcon(sector) == SectorIcon(Lower(sector))
  {
    LowerIdempotent(sector);
    assert sector == "" <==> Lower(sector) == "";
  }

  /** A non-empty sector that no rule matches gets the clipboard. */
  lemma UnmatchedSectorIsClipboard(sector: string)
    requires forall i :: 0 <= i < |SectorRules| ==> !RuleMatches(SectorRules[i], Lower(sector))
    ensures SectorIcon(sector) == Clipboard
  {
    SectorIconIsFirstRule(sector);
  }
}
