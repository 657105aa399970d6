// The sector labels of the map legend (frontend/src/Legend.jsx:3-13) and the
// proof that getSectorIcon classifies each of them to the icon shown beside it.
//
// Each label is written as its words joined by single spaces. No keyword
// contains a space, so a keyword occurs in a label exactly when it occurs in
// one of its words (Text.ContainsWord, Text.AbsentFromWords). A word is shown
// to lack a keyword by a character of the keyword that the word does not
// contain, after cutting the word once at a character foreign to the keyword
// where needed.
module Legend {
  import opened Text
  import opened MapUtils

  datatype Entry = Entry(icon: string, text: string)

  /** The legend's entries, in display order. */
  const Entries: seq<Entry> := [
    Entry(Sheaf, Unwords(["Agri-Fishery", "&", "Natural", "Resources"])),
    Entry(Can, Unwords(["Food", "&", "Beverage", "Manufacturing"])),
    Entry(Shirt, Unwords(["Textile", "&", "Apparel", "Manufacturing"])),
    Entry(Chair, Unwords(["Leather,", "Wood,", "Paper", "&", "Furniture", "Manufacturing"])),
    Entry(Alembic, Unwords(["Chemical", "&", "Pharmaceutical", "Manufacturing"])),
    Entry(Drum, Unwords(["Plastics,", "Rubber", "&", "Non-Metallics"])),
    Entry(Gear, Unwords(["Metal,", "Machinery", "&", "Transport", "Equipment"])),
    Entry(Laptop, Unwords(["Information", "&", "Communication", "Technology"])),
    Entry(Office, Unwords(["Other", "Regional", "Priority", "Industries"]))
  ]

  /** A word shorter than the keyword, or missing one of its characters, does not contain it. */
  lemma Screened(w: string, q: string, c: char)
    requires |w| < |q| || (c in q && c !in w)
    ensures !Contains(w, q)
  {
    if |w| >= |q| {
      forall k: nat | k <= |w| ensures !OccursAt(w, q, k) {
        if k + |q| <= |w| {
          var i :| 0 <= i < |q| && q[i] == c;
          assert w[k..k + |q|][i] == w[k + i];
        }
      }
    }
  }

  lemma ScreenedAround(a: string, x: char, b: string, q: string, ca: char, cb: char)
    requires x !in q
    requires |a| < |q| || (ca in q && ca !in a)
    requires |b| < |q| || (cb in q && cb !in b)
    ensures !Contains(a + [x] + b, q)
  {
    Screened(a, q, ca);
    Screened(b, q, cb);
    SplitRefutes(a, x, b, q);
  }

  /** How one word is shown to lack a keyword: by a missing character, or by a cut at a foreign character. */
  datatype Witness = Missing(c: char) | Cut(k: nat, before: char, after: char)

  /** w is shorter than q, or lacks q's character c. */
  predicate Short(w: string, q: string, c: char)
  {
    |w| < |q| || (c in q && c !in w)
  }

  predicate Refutes(w: string, q: string, t: Witness)
  {
    match t
      case Missing(c) => Short(w, q, c)
      case Cut(k, before, after) => k < |w| && w[k] !in q && Short(w[..k], q, before) && Short(w[k + 1..], q, after)
  }

  lemma Refuted(w: string, q: string, t: Witness)
    requires Refutes(w, q, t)
    ensures !Contains(w, q)
  {
    match t
      case Missing(c) =>
        Screened(w, q, c);
      case Cut(k, before, after) =>
        assert w == w[..k] + [w[k]] + w[k + 1..];
        ScreenedAround(w[..k], w[k], w[k + 1..], q, before, after);
  }

  /** A keyword without spaces that every word refutes is absent from the words joined by spaces. */
  lemma LacksByWitness(ws: seq<string>, q: string, ts: seq<Witness>)
    requires q != "" && ' ' !in q && |ts| == |ws|
    requires forall i :: 0 <= i < |ws| ==> Refutes(ws[i], q, ts[i])
    ensures !Contains(Unwords(ws), q)
  {
    forall i | 0 <= i < |ws| ensures !Contains(ws[i], q) {
      Refuted(ws[i], q, ts[i]);
    }
    AbsentFromWords(ws, q);
  }

  // ---- Agri-Fishery & Natural Resources ----

  const AgriFisheryWords: seq<string> := ["agri-fishery", "&", "natural", "resources"]

  lemma AgriFisheryWordsLowered()
    ensures LowerAll(["Agri-Fishery", "&", "Natural", "Resources"]) == AgriFisheryWords
  {
    assert Lower("Agri-Fishery") == "agri-fishery";
    assert Lower("&") == "&";
    assert Lower("Natural") == "natural";
    assert Lower("Resources") == "resources";
  }

  lemma AgriFisheryLowered()
    ensures Lower(Entries[0].text) == Unwords(AgriFisheryWords)
  {
    LowerUnwords(["Agri-Fishery", "&", "Natural", "Resources"]);
    AgriFisheryWordsLowered();
  }

  lemma AgriFisheryClassified()
    ensures SectorIcon(Entries[0].text) == Entries[0].icon
  {
    AgriFisheryLowered();
    assert OccursAt(AgriFisheryWords[0], "agri", 0);
    ContainsWord(AgriFisheryWords, 0, "agri");
  }

  // ---- Food & Beverage Manufacturing ----

  const FoodBeverageWords: seq<string> := ["food", "&", "beverage", "manufacturing"]

  lemma FoodBeverageWordsLowered()
    ensures LowerAll(["Food", "&", "Beverage", "Manufacturing"]) == FoodBeverageWords
  {
    assert Lower("Food") == "food";
    assert Lower("&") == "&";
    assert Lower("Beverage") == "beverage";
    assert Lower("Manufacturing") == "manufacturing";
  }

  lemma FoodBeverageLowered()
    ensures Lower(Entries[1].text) == Unwords(FoodBeverageWords)
  {
    LowerUnwords(["Food", "&", "Beverage", "Manufacturing"]);
    FoodBeverageWordsLowered();
  }

  lemma FoodBeverageLacksAgri()
    ensures !Contains(Unwords(FoodBeverageWords), "agri")
  {
    LacksByWitness(FoodBeverageWords, "agri", [Missing('a'), Missing('a'), Missing('i'), Cut(6, 'g', 'a')]);
  }

  lemma FoodBeverageLacksFishery()
    ensures !Contains(Unwords(FoodBeverageWords), "fishery")
  {
    LacksByWitness(FoodBeverageWords, "fishery", [Missing('f'), Missing('f'), Missing('f'), Missing('s')]);
  }

  lemma FoodBeverageLacksNatural()
    ensures !Contains(Unwords(FoodBeverageWords), "natural")
  {
    LacksByWitness(FoodBeverageWords, "natural", [Missing('n'), Missing('n'), Missing('n'), Missing('l')]);
  }

  lemma FoodBeverageClassified()
    ensures SectorIcon(Entries[1].text) == Entries[1].icon
  {
    FoodBeverageLowered();
    FoodBeverageLacksAgri();
    FoodBeverageLacksFishery();
    FoodBeverageLacksNatural();
    assert OccursAt(FoodBeverageWords[0], "food", 0);
    ContainsWord(FoodBeverageWords, 0, "food");
  }

  // ---- Textile & Apparel Manufacturing ----

  const TextileApparelWords: seq<string> := ["textile", "&", "apparel", "manufacturing"]

  lemma TextileApparelWordsLowered()
    ensures LowerAll(["Textile", "&", "Apparel", "Manufacturing"]) == TextileApparelWords
  {
    assert Lower("Textile") == "textile";
    assert Lower("&") == "&";
    assert Lower("Apparel") == "apparel";
    assert Lower("Manufacturing") == "manufacturing";
  }

  lemma TextileApparelLowered()
    ensures Lower(Entries[2].text) == Unwords(TextileApparelWords)
  {
    LowerUnwords(["Textile", "&", "Apparel", "Manufacturing"]);
    TextileApparelWordsLowered();
  }

  lemma TextileApparelLacksAgri()
    ensures !Contains(Unwords(TextileApparelWords), "agri")
  {
    LacksByWitness(TextileApparelWords, "agri", [Missing('a'), Missing('a'), Missing('g'), Cut(6, 'g', 'a')]);
  }

  lemma TextileApparelLacksFishery()
    ensures !Contains(Unwords(TextileApparelWords), "fishery")
  {
    LacksByWitness(TextileApparelWords, "fishery", [Missing('f'), Missing('f'), Missing('f'), Missing('s')]);
  }

  lemma TextileApparelLacksNatural()
    ensures !Contains(Unwords(TextileApparelWords), "natural")
  {
    LacksByWitness(TextileApparelWords, "natural", [Missing('n'), Missing('n'), Missing('n'), Missing('l')]);
  }

  lemma TextileApparelLacksFood()
    ensures !Contains(Unwords(TextileApparelWords), "food")
  {
    LacksByWitness(TextileApparelWords, "food", [Missing('f'), Missing('f'), Missing('f'), Missing('o')]);
  }

  lemma TextileApparelLacksBeverage()
    ensures !Contains(Unwords(TextileApparelWords), "beverage")
  {
    LacksByWitness(TextileApparelWords, "beverage", [Missing('b'), Missing('b'), Missing('b'), Missing('b')]);
  }

  lemma TextileApparelClassified()
    ensures SectorIcon(Entries[2].text) == Entries[2].icon
  {
    TextileApparelLowered();
    TextileApparelLacksAgri();
    TextileApparelLacksFishery();
    TextileApparelLacksNatural();
    TextileApparelLacksFood();
    TextileApparelLacksBeverage();
    assert OccursAt(TextileApparelWords[0], "textile", 0);
    ContainsWord(TextileApparelWords, 0, "textile");
  }

  // ---- Leather, Wood, Paper & Furniture Manufacturing ----

  const WoodPaperWords: seq<string> := ["leather,", "wood,", "paper", "&", "furniture", "manufacturing"]

  lemma WoodPaperWordsLowered()
    ensures LowerAll(["Leather,", "Wood,", "Paper", "&", "Furniture", "Manufacturing"]) == WoodPaperWords
  {
    assert Lower("Leather,") == "leather,";
    assert Lower("Wood,") == "wood,";
    assert Lower("Paper") == "paper";
    assert Lower("&") == "&";
    assert Lower("Furniture") == "furniture";
    assert Lower("Manufacturing") == "manufacturing";
  }

  lemma WoodPaperLowered()
    ensures Lower(Entries[3].text) == Unwords(WoodPaperWords)
  {
    LowerUnwords(["Leather,", "Wood,", "Paper", "&", "Furniture", "Manufacturing"]);
    WoodPaperWordsLowered();
  }

  lemma WoodPaperLacksAgri()
    ensures !Contains(Unwords(WoodPaperWords), "agri")
  {
    LacksByWitness(WoodPaperWords, "agri", [Missing('g'), Missing('a'), Missing('g'), Missing('a'), Missing('a'), Cut(6, 'g', 'a')]);
  }

  lemma WoodPaperLacksFishery()
    ensures !Contains(Unwords(WoodPaperWords), "fishery")
  {
    LacksByWitness(WoodPaperWords, "fishery", [Missing('f'), Missing('f'), Missing('f'), Missing('f'), Missing('s'), Missing('s')]);
  }

  lemma WoodPaperLacksNatural()
    ensures !Contains(Unwords(WoodPaperWords), "natural")
  {
    LacksByWitness(WoodPaperWords, "natural", [Missing('n'), Missing('n'), Missing('n'), Missing('n'), Missing('a'), Missing('l')]);
  }

  lemma WoodPaperLacksFood()
    ensures !Contains(Unwords(WoodPaperWords), "food")
  {
    LacksByWitness(WoodPaperWords, "food", [Missing('f'), Missing('f'), Missing('f'), Missing('f'), Missing('o'), Missing('o')]);
  }

  lemma WoodPaperLacksBeverage()
    ensures !Contains(Unwords(WoodPaperWords), "beverage")
  {
    LacksByWitness(WoodPaperWords, "beverage", [Missing('b'), Missing('b'), Missing('b'), Missing('b'), Missing('b'), Missing('b')]);
  }

  lemma WoodPaperLacksTextile()
    ensures !Contains(Unwords(WoodPaperWords), "textile")
  {
    LacksByWitness(WoodPaperWords, "textile", [Missing('x'), Missing('t'), Missing('t'), Missing('t'), Missing('x'), Missing('e')]);
  }

  lemma WoodPaperLacksApparel()
    ensures !Contains(Unwords(WoodPaperWords), "apparel")
  {
    LacksByWitness(WoodPaperWords, "apparel", [Missing('p'), Missing('a'), Missing('a'), Missing('a'), Missing('a'), Missing('p')]);
  }

  lemma WoodPaperClassified()
    ensures SectorIcon(Entries[3].text) == Entries[3].icon
  {
    WoodPaperLowered();
    WoodPaperLacksAgri();
    WoodPaperLacksFishery();
    WoodPaperLacksNatural();
    WoodPaperLacksFood();
    WoodPaperLacksBeverage();
    WoodPaperLacksTextile();
    WoodPaperLacksApparel();
    assert OccursAt(WoodPaperWords[0], "leather", 0);
    ContainsWord(WoodPaperWords, 0, "leather");
  }

  // ---- Chemical & Pharmaceutical Manufacturing ----

  const ChemicalPharmaWords: seq<string> := ["chemical", "&", "pharmaceutical", "manufacturing"]

  lemma ChemicalPharmaWordsLowered()
    ensures LowerAll(["Chemical", "&", "Pharmaceutical", "Manufacturing"]) == ChemicalPharmaWords
  {
    assert Lower("Chemical") == "chemical";
    assert Lower("&") == "&";
    assert Lower("Pharmaceutical") == "pharmaceutical";
    assert Lower("Manufacturing") == "manufacturing";
  }

  lemma ChemicalPharmaLowered()
    ensures Lower(Entries[4].text) == Unwords(ChemicalPharmaWords)
  {
    LowerUnwords(["Chemical", "&", "Pharmaceutical", "Manufacturing"]);
    ChemicalPharmaWordsLowered();
  }

  lemma ChemicalPharmaLacksAgri()
    ensures !Contains(Unwords(ChemicalPharmaWords), "agri")
  {
    LacksByWitness(ChemicalPharmaWords, "agri", [Missing('g'), Missing('a'), Missing('g'), Cut(6, 'g', 'a')]);
  }

  lemma ChemicalPharmaLacksFishery()
    ensures !Contains(Unwords(ChemicalPharmaWords), "fishery")
  {
    LacksByWitness(ChemicalPharmaWords, "fishery", [Missing('f'), Missing('f'), Missing('f'), Missing('s')]);
  }

  lemma ChemicalPharmaLacksNatural()
    ensures !Contains(Unwords(ChemicalPharmaWords), "natural")
  {
    LacksByWitness(ChemicalPharmaWords, "natural", [Missing('n'), Missing('n'), Missing('n'), Missing('l')]);
  }

  lemma ChemicalPharmaLacksFood()
    ensures !Contains(Unwords(ChemicalPharmaWords), "food")
  {
    LacksByWitness(ChemicalPharmaWords, "food", [Missing('f'), Missing('f'), Missing('f'), Missing('o')]);
  }

  lemma ChemicalPharmaLacksBeverage()
    ensures !Contains(Unwords(ChemicalPharmaWords), "beverage")
  {
    LacksByWitness(ChemicalPharmaWords, "beverage", [Missing('b'), Missing('b'), Missing('b'), Missing('b')]);
  }

  lemma ChemicalPharmaLacksTextile()
    ensures !Contains(Unwords(ChemicalPharmaWords), "textile")
  {
    LacksByWitness(ChemicalPharmaWords, "textile", [Missing('t'), Missing('t'), Missing('x'), Missing('e')]);
  }

  lemma ChemicalPharmaLacksApparel()
    ensures !Contains(Unwords(ChemicalPharmaWords), "apparel")
  {
    LacksByWitness(ChemicalPharmaWords, "apparel", [Missing('p'), Missing('a'), Cut(1, 'a', 'p'), Missing('p')]);
  }

  lemma ChemicalPharmaLacksLeather()
    ensures !Contains(Unwords(ChemicalPharmaWords), "leather")
  {
    LacksByWitness(ChemicalPharmaWords, "leather", [Missing('t'), Missing('l'), Cut(4, 'l', 'h'), Missing('l')]);
  }

  lemma ChemicalPharmaLacksWood()
    ensures !Contains(Unwords(ChemicalPharmaWords), "wood")
  {
    LacksByWitness(ChemicalPharmaWords, "wood", [Missing('w'), Missing('w'), Missing('w'), Missing('w')]);
  }

  lemma ChemicalPharmaLacksPaper()
    ensures !Contains(Unwords(ChemicalPharmaWords), "paper")
  {
    LacksByWitness(ChemicalPharmaWords, "paper", [Missing('p'), Missing('p'), Cut(1, 'p', 'p'), Missing('p')]);
  }

  lemma ChemicalPharmaLacksFurniture()
    ensures !Contains(Unwords(ChemicalPharmaWords), "furniture")
  {
    LacksByWitness(ChemicalPharmaWords, "furniture", [Missing('f'), Missing('f'), Missing('f'), Missing('e')]);
  }

  lemma ChemicalPharmaClassified()
    ensures SectorIcon(Entries[4].text) == Entries[4].icon
  {
    ChemicalPharmaLowered();
    ChemicalPharmaLacksAgri();
    ChemicalPharmaLacksFishery();
    ChemicalPharmaLacksNatural();
    ChemicalPharmaLacksFood();
    ChemicalPharmaLacksBeverage();
    ChemicalPharmaLacksTextile();
    ChemicalPharmaLacksApparel();
    ChemicalPharmaLacksLeather();
    ChemicalPharmaLacksWood();
    ChemicalPharmaLacksPaper();
    ChemicalPharmaLacksFurniture();
    assert OccursAt(ChemicalPharmaWords[0], "chemical", 0);
    ContainsWord(ChemicalPharmaWords, 0, "chemical");
  }

  // ---- Plastics, Rubber & Non-Metallics ----

  const PlasticsRubberWords: seq<string> := ["plastics,", "rubber", "&", "non-metallics"]

  lemma PlasticsRubberWordsLowered()
    ensures LowerAll(["Plastics,", "Rubber", "&", "Non-Metallics"]) == PlasticsRubberWords
  {
    assert Lower("Plastics,") == "plastics,";
    assert Lower("Rubber") == "rubber";
    assert Lower("&") == "&";
    assert Lower("Non-Metallics") == "non-metallics";
  }

  lemma PlasticsRubberLowered()
    ensures Lower(Entries[5].text) == Unwords(PlasticsRubberWords)
  {
    LowerUnwords(["Plastics,", "Rubber", "&", "Non-Metallics"]);
    PlasticsRubberWordsLowered();
  }

  lemma PlasticsRubberLacksAgri()
    ensures !Contains(Unwords(PlasticsRubberWords), "agri")
  {
    LacksByWitness(PlasticsRubberWords, "agri", [Missing('g'), Missing('a'), Missing('a'), Missing('g')]);
  }

  lemma PlasticsRubberLacksFishery()
    ensures !Contains(Unwords(PlasticsRubberWords), "fishery")
  {
    LacksByWitness(PlasticsRubberWords, "fishery", [Missing('f'), Missing('f'), Missing('f'), Missing('f')]);
  }

  lemma PlasticsRubberLacksNatural()
    ensures !Contains(Unwords(PlasticsRubberWords), "natural")
  {
    LacksByWitness(PlasticsRubberWords, "natural", [Missing('n'), Missing('n'), Missing('n'), Missing('u')]);
  }

  lemma PlasticsRubberLacksFood()
    ensures !Contains(Unwords(PlasticsRubberWords), "food")
  {
    LacksByWitness(PlasticsRubberWords, "food", [Missing('f'), Missing('f'), Missing('f'), Missing('f')]);
  }

  lemma PlasticsRubberLacksBeverage()
    ensures !Contains(Unwords(PlasticsRubberWords), "beverage")
  {
    LacksByWitness(PlasticsRubberWords, "beverage", [Missing('b'), Missing('b'), Missing('b'), Missing('b')]);
  }

  lemma PlasticsRubberLacksTextile()
    ensures !Contains(Unwords(PlasticsRubberWords), "textile")
  {
    LacksByWitness(PlasticsRubberWords, "textile", [Missing('e'), Missing('t'), Missing('t'), Missing('x')]);
  }

  lemma PlasticsRubberLacksApparel()
    ensures !Contains(Unwords(PlasticsRubberWords), "apparel")
  {
    LacksByWitness(PlasticsRubberWords, "apparel", [Missing('r'), Missing('a'), Missing('a'), Missing('p')]);
  }

  lemma PlasticsRubberLacksLeather()
    ensures !Contains(Unwords(PlasticsRubberWords), "leather")
  {
    LacksByWitness(PlasticsRubberWords, "leather", [Missing('e'), Missing('l'), Missing('l'), Missing('h')]);
  }

  lemma PlasticsRubberLacksWood()
    ensures !Contains(Unwords(PlasticsRubberWords), "wood")
  {
    LacksByWitness(PlasticsRubberWords, "wood", [Missing('w'), Missing('w'), Missing('w'), Missing('w')]);
  }

  lemma PlasticsRubberLacksPaper()
    ensures !Contains(Unwords(PlasticsRubberWords), "paper")
  {
    LacksByWitness(PlasticsRubberWords, "paper", [Missing('e'), Missing('p'), Missing('p'), Missing('p')]);
  }

  lemma PlasticsRubberLacksFurniture()
    ensures !Contains(Unwords(PlasticsRubberWords), "furniture")
  {
    LacksByWitness(PlasticsRubberWords, "furniture", [Missing('f'), Missing('f'), Missing('f'), Missing('f')]);
  }

  lemma PlasticsRubberLacksChemical()
    ensures !Contains(Unwords(PlasticsRubberWords), "chemical")
  {
    LacksByWitness(PlasticsRubberWords, "chemical", [Missing('h'), Missing('c'), Missing('c'), Missing('h')]);
  }

  lemma PlasticsRubberLacksPharma()
    ensures !Contains(Unwords(PlasticsRubberWords), "pharma")
  {
    LacksByWitness(PlasticsRubberWords, "pharma", [Missing('h'), Missing('p'), Missing('p'), Missing('p')]);
  }

  lemma PlasticsRubberClassified()
    ensures SectorIcon(Entries[5].text) == Entries[5].icon
  {
    PlasticsRubberLowered();
    PlasticsRubberLacksAgri();
    PlasticsRubberLacksFishery();
    PlasticsRubberLacksNatural();
    PlasticsRubberLacksFood();
    PlasticsRubberLacksBeverage();
    PlasticsRubberLacksTextile();
    PlasticsRubberLacksApparel();
    PlasticsRubberLacksLeather();
    PlasticsRubberLacksWood();
    PlasticsRubberLacksPaper();
    PlasticsRubberLacksFurniture();
    PlasticsRubberLacksChemical();
    PlasticsRubberLacksPharma();
    assert OccursAt(PlasticsRubberWords[0], "plastic", 0);
    ContainsWord(PlasticsRubberWords, 0, "plastic");
  }

  // ---- Metal, Machinery & Transport Equipment ----

  const MetalMachineryWords: seq<string> := ["metal,", "machinery", "&", "transport", "equipment"]

  lemma MetalMachineryWordsLowered()
    ensures LowerAll(["Metal,", "Machinery", "&", "Transport", "Equipment"]) == MetalMachineryWords
  {
    assert Lower("Metal,") == "metal,";
    assert Lower("Machinery") == "machinery";
    assert Lower("&") == "&";
    assert Lower("Transport") == "transport";
    assert Lower("Equipment") == "equipment";
  }

  lemma MetalMachineryLowered()
    ensures Lower(Entries[6].text) == Unwords(MetalMachineryWords)
  {
    LowerUnwords(["Metal,", "Machinery", "&", "Transport", "Equipment"]);
    MetalMachineryWordsLowered();
  }

  lemma MetalMachineryLacksAgri()
    ensures !Contains(Unwords(MetalMachineryWords), "agri")
  {
    LacksByWitness(MetalMachineryWords, "agri", [Missing('g'), Missing('g'), Missing('a'), Missing('g'), Missing('a')]);
  }

  lemma MetalMachineryLacksFishery()
    ensures !Contains(Unwords(MetalMachineryWords), "fishery")
  {
    LacksByWitness(MetalMachineryWords, "fishery", [Missing('f'), Missing('f'), Missing('f'), Missing('f'), Missing('f')]);
  }

  lemma MetalMachineryLacksNatural()
    ensures !Contains(Unwords(MetalMachineryWords), "natural")
  {
    LacksByWitness(MetalMachineryWords, "natural", [Missing('n'), Missing('t'), Missing('n'), Missing('u'), Missing('a')]);
  }

  lemma MetalMachineryLacksFood()
    ensures !Contains(Unwords(MetalMachineryWords), "food")
  {
    LacksByWitness(MetalMachineryWords, "food", [Missing('f'), Missing('f'), Missing('f'), Missing('f'), Missing('f')]);
  }

  lemma MetalMachineryLacksBeverage()
    ensures !Contains(Unwords(MetalMachineryWords), "beverage")
  {
    LacksByWitness(MetalMachineryWords, "beverage", [Missing('b'), Missing('b'), Missing('b'), Missing('b'), Missing('b')]);
  }

  lemma MetalMachineryLacksTextile()
    ensures !Contains(Unwords(MetalMachineryWords), "textile")
  {
    LacksByWitness(MetalMachineryWords, "textile", [Missing('t'), Missing('t'), Missing('t'), Missing('e'), Missing('x')]);
  }

  lemma MetalMachineryLacksApparel()
    ensures !Contains(Unwords(MetalMachineryWords), "apparel")
  {
    LacksByWitness(MetalMachineryWords, "apparel", [Missing('a'), Missing('p'), Missing('a'), Missing('e'), Missing('a')]);
  }

  lemma MetalMachineryLacksLeather()
    ensures !Contains(Unwords(MetalMachineryWords), "leather")
  {
    LacksByWitness(MetalMachineryWords, "leather", [Missing('l'), Missing('l'), Missing('l'), Missing('l'), Missing('l')]);
  }

  lemma MetalMachineryLacksWood()
    ensures !Contains(Unwords(MetalMachineryWords), "wood")
  {
    LacksByWitness(MetalMachineryWords, "wood", [Missing('w'), Missing('w'), Missing('w'), Missing('w'), Missing('w')]);
  }

  lemma MetalMachineryLacksPaper()
    ensures !Contains(Unwords(MetalMachineryWords), "paper")
  {
    LacksByWitness(MetalMachineryWords, "paper", [Missing('p'), Missing('p'), Missing('p'), Missing('e'), Missing('a')]);
  }

  lemma MetalMachineryLacksFurniture()
    ensures !Contains(Unwords(MetalMachineryWords), "furniture")
  {
    LacksByWitness(MetalMachineryWords, "furniture", [Missing('f'), Missing('f'), Missing('f'), Missing('f'), Missing('f')]);
  }

  lemma MetalMachineryLacksChemical()
    ensures !Contains(Unwords(MetalMachineryWords), "chemical")
  {
    LacksByWitness(MetalMachineryWords, "chemical", [Missing('c'), Missing('l'), Missing('c'), Missing('c'), Missing('c')]);
  }

  lemma MetalMachineryLacksPharma()
    ensures !Contains(Unwords(MetalMachineryWords), "pharma")
  {
    LacksByWitness(MetalMachineryWords, "pharma", [Missing('p'), Missing('p'), Missing('p'), Missing('h'), Missing('h')]);
  }

  lemma MetalMachineryLacksPlastic()
    ensures !Contains(Unwords(MetalMachineryWords), "plastic")
  {
    LacksByWitness(MetalMachineryWords, "plastic", [Missing('p'), Missing('p'), Missing('p'), Missing('l'), Missing('l')]);
  }

  lemma MetalMachineryLacksRubber()
    ensures !Contains(Unwords(MetalMachineryWords), "rubber")
  {
    LacksByWitness(MetalMachineryWords, "rubber", [Missing('r'), Missing('u'), Missing('r'), Missing('u'), Missing('r')]);
  }

  lemma MetalMachineryLacksNonMetallic()
    ensures !Contains(Unwords(MetalMachineryWords), "non-metallic")
  {
    LacksByWitness(MetalMachineryWords, "non-metallic", [Missing('n'), Missing('n'), Missing('n'), Missing('n'), Missing('n')]);
  }

  lemma MetalMachineryClassified()
    ensures SectorIcon(Entries[6].text) == Entries[6].icon
  {
    MetalMachineryLowered();
    MetalMachineryLacksAgri();
    MetalMachineryLacksFishery();
    MetalMachineryLacksNatural();
    MetalMachineryLacksFood();
    MetalMachineryLacksBeverage();
    MetalMachineryLacksTextile();
    MetalMachineryLacksApparel();
    MetalMachineryLacksLeather();
    MetalMachineryLacksWood();
    MetalMachineryLacksPaper();
    MetalMachineryLacksFurniture();
    MetalMachineryLacksChemical();
    MetalMachineryLacksPharma();
    MetalMachineryLacksPlastic();
    MetalMachineryLacksRubber();
    MetalMachineryLacksNonMetallic();
    assert OccursAt(MetalMachineryWords[0], "metal", 0);
    ContainsWord(MetalMachineryWords, 0, "metal");
  }

  // ---- Information & Communication Technology ----

  const IctWords: seq<string> := ["information", "&", "communication", "technology"]

  lemma IctWordsLowered()
    ensures LowerAll(["Information", "&", "Communication", "Technology"]) == IctWords
  {
    assert Lower("Information") == "information";
    assert Lower("&") == "&";
    assert Lower("Communication") == "communication";
    assert Lower("Technology") == "technology";
  }

  lemma IctLowered()
    ensures Lower(Entries[7].text) == Unwords(IctWords)
  {
    LowerUnwords(["Information", "&", "Communication", "Technology"]);
    IctWordsLowered();
  }

  lemma IctLacksAgri()
    ensures !Contains(Unwords(IctWords), "agri")
  {
    LacksByWitness(IctWords, "agri", [Missing('g'), Missing('a'), Missing('g'), Missing('a')]);
  }

  lemma IctLacksFishery()
    ensures !Contains(Unwords(IctWords), "fishery")
  {
    LacksByWitness(IctWords, "fishery", [Missing('s'), Missing('f'), Missing('f'), Missing('f')]);
  }

  lemma IctLacksNatural()
    ensures !Contains(Unwords(IctWords), "natural")
  {
    LacksByWitness(IctWords, "natural", [Missing('u'), Missing('n'), Missing('r'), Missing('a')]);
  }

  lemma IctLacksFood()
    ensures !Contains(Unwords(IctWords), "food")
  {
    LacksByWitness(IctWords, "food", [Missing('d'), Missing('f'), Missing('f'), Missing('f')]);
  }

  lemma IctLacksBeverage()
    ensures !Contains(Unwords(IctWords), "beverage")
  {
    LacksByWitness(IctWords, "beverage", [Missing('b'), Missing('b'), Missing('b'), Missing('b')]);
  }

  lemma IctLacksTextile()
    ensures !Contains(Unwords(IctWords), "textile")
  {
    LacksByWitness(IctWords, "textile", [Missing('e'), Missing('t'), Missing('e'), Missing('x')]);
  }

  lemma IctLacksApparel()
    ensures !Contains(Unwords(IctWords), "apparel")
  {
    LacksByWitness(IctWords, "apparel", [Missing('p'), Missing('a'), Missing('p'), Missing('a')]);
  }

  lemma IctLacksLeather()
    ensures !Contains(Unwords(IctWords), "leather")
  {
    LacksByWitness(IctWords, "leather", [Missing('l'), Missing('l'), Missing('l'), Missing('a')]);
  }

  lemma IctLacksWood()
    ensures !Contains(Unwords(IctWords), "wood")
  {
    LacksByWitness(IctWords, "wood", [Missing('w'), Missing('w'), Missing('w'), Missing('w')]);
  }

  lemma IctLacksPaper()
    ensures !Contains(Unwords(IctWords), "paper")
  {
    LacksByWitness(IctWords, "paper", [Missing('p'), Missing('p'), Missing('p'), Missing('p')]);
  }

  lemma IctLacksFurniture()
    ensures !Contains(Unwords(IctWords), "furniture")
  {
    LacksByWitness(IctWords, "furniture", [Missing('u'), Missing('f'), Missing('f'), Missing('f')]);
  }

  lemma IctLacksChemical()
    ensures !Contains(Unwords(IctWords), "chemical")
  {
    LacksByWitness(IctWords, "chemical", [Missing('c'), Missing('c'), Missing('h'), Missing('m')]);
  }

  lemma IctLacksPharma()
    ensures !Contains(Unwords(IctWords), "pharma")
  {
    LacksByWitness(IctWords, "pharma", [Missing('p'), Missing('p'), Missing('p'), Missing('p')]);
  }

  lemma IctLacksPlastic()
    ensures !Contains(Unwords(IctWords), "plastic")
  {
    LacksByWitness(IctWords, "plastic", [Missing('p'), Missing('p'), Missing('p'), Missing('p')]);
  }

  lemma IctLacksRubber()
    ensures !Contains(Unwords(IctWords), "rubber")
  {
    LacksByWitness(IctWords, "rubber", [Missing('u'), Missing('r'), Missing('r'), Missing('r')]);
  }

  lemma IctLacksNonMetallic()
    ensures !Contains(Unwords(IctWords), "non-metallic")
  {
    LacksByWitness(IctWords, "non-metallic", [Missing('n'), Missing('n'), Missing('-'), Missing('n')]);
  }

  lemma IctLacksMetal()
    ensures !Contains(Unwords(IctWords), "metal")
  {
    LacksByWitness(IctWords, "metal", [Missing('e'), Missing('m'), Missing('e'), Missing('m')]);
  }

  lemma IctLacksMachinery()
    ensures !Contains(Unwords(IctWords), "machinery")
  {
    LacksByWitness(IctWords, "machinery", [Missing('c'), Missing('m'), Missing('h'), Missing('m')]);
  }

  lemma IctLacksTransport()
    ensures !Contains(Unwords(IctWords), "transport")
  {
    LacksByWitness(IctWords, "transport", [Missing('s'), Missing('t'), Missing('r'), Missing('r')]);
  }

  lemma IctClassified()
    ensures SectorIcon(Entries[7].text) == Entries[7].icon
  {
    IctLowered();
    IctLacksAgri();
    IctLacksFishery();
    IctLacksNatural();
    IctLacksFood();
    IctLacksBeverage();
    IctLacksTextile();
    IctLacksApparel();
    IctLacksLeather();
    IctLacksWood();
    IctLacksPaper();
    IctLacksFurniture();
    IctLacksChemical();
    IctLacksPharma();
    IctLacksPlastic();
    IctLacksRubber();
    IctLacksNonMetallic();
    IctLacksMetal();
    IctLacksMachinery();
    IctLacksTransport();
    assert OccursAt(IctWords[0], "information", 0);
    ContainsWord(IctWords, 0, "information");
  }

  // ---- Other Regional Priority Industries ----

  const OtherRegionalWords: seq<string> := ["other", "regional", "priority", "industries"]

  lemma OtherRegionalWordsLowered()
    ensures LowerAll(["Other", "Regional", "Priority", "Industries"]) == OtherRegionalWords
  {
    assert Lower("Other") == "other";
    assert Lower("Regional") == "regional";
    assert Lower("Priority") == "priority";
    assert Lower("Industries") == "industries";
  }

  lemma OtherRegionalLowered()
    ensures Lower(Entries[8].text) == Unwords(OtherRegionalWords)
  {
    LowerUnwords(["Other", "Regional", "Priority", "Industries"]);
    OtherRegionalWordsLowered();
  }

  lemma OtherRegionalLacksAgri()
    ensures !Contains(Unwords(OtherRegionalWords), "agri")
  {
    LacksByWitness(OtherRegionalWords, "agri", [Missing('a'), Cut(1, 'a', 'r'), Missing('a'), Missing('a')]);
  }

  lemma OtherRegionalLacksFishery()
    ensures !Contains(Unwords(OtherRegionalWords), "fishery")
  {
    LacksByWitness(OtherRegionalWords, "fishery", [Missing('f'), Missing('f'), Missing('f'), Missing('f')]);
  }

  lemma OtherRegionalLacksNatural()
    ensures !Contains(Unwords(OtherRegionalWords), "natural")
  {
    LacksByWitness(OtherRegionalWords, "natural", [Missing('n'), Missing('t'), Missing('n'), Missing('a')]);
  }

  lemma OtherRegionalLacksFood()
    ensures !Contains(Unwords(OtherRegionalWords), "food")
  {
    LacksByWitness(OtherRegionalWords, "food", [Missing('f'), Missing('f'), Missing('f'), Missing('f')]);
  }

  lemma OtherRegionalLacksBeverage()
    ensures !Contains(Unwords(OtherRegionalWords), "beverage")
  {
    LacksByWitness(OtherRegionalWords, "beverage", [Missing('b'), Missing('b'), Missing('b'), Missing('b')]);
  }

  lemma OtherRegionalLacksTextile()
    ensures !Contains(Unwords(OtherRegionalWords), "textile")
  {
    LacksByWitness(OtherRegionalWords, "textile", [Missing('t'), Missing('t'), Missing('e'), Missing('x')]);
  }

  lemma OtherRegionalLacksApparel()
    ensures !Contains(Unwords(OtherRegionalWords), "apparel")
  {
    LacksByWitness(OtherRegionalWords, "apparel", [Missing('a'), Missing('p'), Missing('a'), Missing('a')]);
  }

  lemma OtherRegionalLacksLeather()
    ensures !Contains(Unwords(OtherRegionalWords), "leather")
  {
    LacksByWitness(OtherRegionalWords, "leather", [Missing('l'), Missing('t'), Missing('l'), Missing('l')]);
  }

  lemma OtherRegionalLacksWood()
    ensures !Contains(Unwords(OtherRegionalWords), "wood")
  {
    LacksByWitness(OtherRegionalWords, "wood", [Missing('w'), Missing('w'), Missing('w'), Missing('w')]);
  }

  lemma OtherRegionalLacksPaper()
    ensures !Contains(Unwords(OtherRegionalWords), "paper")
  {
    LacksByWitness(OtherRegionalWords, "paper", [Missing('p'), Missing('p'), Missing('a'), Missing('p')]);
  }

  lemma OtherRegionalLacksFurniture()
    ensures !Contains(Unwords(OtherRegionalWords), "furniture")
  {
    LacksByWitness(OtherRegionalWords, "furniture", [Missing('f'), Missing('f'), Missing('f'), Missing('f')]);
  }

  lemma OtherRegionalLacksChemical()
    ensures !Contains(Unwords(OtherRegionalWords), "chemical")
  {
    LacksByWitness(OtherRegionalWords, "chemical", [Missing('c'), Missing('c'), Missing('c'), Missing('c')]);
  }

  lemma OtherRegionalLacksPharma()
    ensures !Contains(Unwords(OtherRegionalWords), "pharma")
  {
    LacksByWitness(OtherRegionalWords, "pharma", [Missing('p'), Missing('p'), Missing('h'), Missing('p')]);
  }

  lemma OtherRegionalLacksPlastic()
    ensures !Contains(Unwords(OtherRegionalWords), "plastic")
  {
    LacksByWitness(OtherRegionalWords, "plastic", [Missing('p'), Missing('p'), Missing('l'), Missing('p')]);
  }

  lemma OtherRegionalLacksRubber()
    ensures !Contains(Unwords(OtherRegionalWords), "rubber")
  {
    LacksByWitness(OtherRegionalWords, "rubber", [Missing('r'), Missing('u'), Missing('u'), Missing('b')]);
  }

  lemma OtherRegionalLacksNonMetallic()
    ensures !Contains(Unwords(OtherRegionalWords), "non-metallic")
  {
    LacksByWitness(OtherRegionalWords, "non-metallic", [Missing('n'), Missing('n'), Missing('n'), Missing('n')]);
  }

  lemma OtherRegionalLacksMetal()
    ensures !Contains(Unwords(OtherRegionalWords), "metal")
  {
    LacksByWitness(OtherRegionalWords, "metal", [Missing('m'), Missing('m'), Missing('m'), Missing('m')]);
  }

  lemma OtherRegionalLacksMachinery()
    ensures !Contains(Unwords(OtherRegionalWords), "machinery")
  {
    LacksByWitness(OtherRegionalWords, "machinery", [Missing('m'), Missing('m'), Missing('m'), Missing('m')]);
  }

  lemma OtherRegionalLacksTransport()
    ensures !Contains(Unwords(OtherRegionalWords), "transport")
  {
    LacksByWitness(OtherRegionalWords, "transport", [Missing('t'), Missing('t'), Missing('t'), Missing('a')]);
  }

  lemma OtherRegionalLacksInformation()
    ensures !Contains(Unwords(OtherRegionalWords), "information")
  {
    LacksByWitness(OtherRegionalWords, "information", [Missing('i'), Missing('i'), Missing('i'), Missing('i')]);
  }

  lemma OtherRegionalLacksCommunication()
    ensures !Contains(Unwords(OtherRegionalWords), "communication")
  {
    LacksByWitness(OtherRegionalWords, "communication", [Missing('c'), Missing('c'), Missing('c'), Missing('c')]);
  }

  lemma OtherRegionalLacksIct()
    ensures !Contains(Unwords(OtherRegionalWords), "ict")
  {
    LacksByWitness(OtherRegionalWords, "ict", [Missing('i'), Missing('c'), Missing('c'), Missing('c')]);
  }

  lemma OtherRegionalClassified()
    ensures SectorIcon(Entries[8].text) == Entries[8].icon
  {
    OtherRegionalLowered();
    OtherRegionalLacksAgri();
    OtherRegionalLacksFishery();
    OtherRegionalLacksNatural();
    OtherRegionalLacksFood();
    OtherRegionalLacksBeverage();
    OtherRegionalLacksTextile();
    OtherRegionalLacksApparel();
    OtherRegionalLacksLeather();
    OtherRegionalLacksWood();
    OtherRegionalLacksPaper();
    OtherRegionalLacksFurniture();
    OtherRegionalLacksChemical();
    OtherRegionalLacksPharma();
    OtherRegionalLacksPlastic();
    OtherRegionalLacksRubber();
    OtherRegionalLacksNonMetallic();
    OtherRegionalLacksMetal();
    OtherRegionalLacksMachinery();
    OtherRegionalLacksTransport();
    OtherRegionalLacksInformation();
    OtherRegionalLacksCommunication();
    OtherRegionalLacksIct();
    assert OccursAt(OtherRegionalWords[0], "other", 0);
    ContainsWord(OtherRegionalWords, 0, "other");
  }

  /** Every legend label classifies to the icon the legend shows beside it. */
  lemma LegendAgreesWithClassifier()
    ensures forall i :: 0 <= i < |Entries| ==> SectorIcon(Entries[i].text) == Entries[i].icon
  {
    forall i | 0 <= i < 9 ensures SectorIcon(Entries[i].text) == Entries[i].icon {
      if i == 0 {
        AgriFisheryClassified();
      } else if i == 1 {
        FoodBeverageClassified();
      } else if i == 2 {
        TextileApparelClassified();
      } else if i == 3 {
        WoodPaperClassified();
      } else if i == 4 {
        ChemicalPharmaClassified();
      } else if i == 5 {
        PlasticsRubberClassified();
      } else if i == 6 {
        MetalMachineryClassified();
      } else if i == 7 {
        IctClassified();
      } else {
        OtherRegionalClassified();
      }
    }
  }

  /** The first matching rule wins: the plastics label also contains "metal" yet gets the plastics icon. */
  lemma PlasticsRuleBeforeMetal()
    ensures Contains(Lower(Entries[5].text), "metal")
    ensures SectorIcon(Entries[5].text) == Drum && Drum != Gear
  {
    PlasticsRubberLowered();
    assert OccursAt(PlasticsRubberWords[3], "metal", 4);
    ContainsWord(PlasticsRubberWords, 3, "metal");
    PlasticsRubberClassified();
  }
}
