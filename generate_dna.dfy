/**
 * The request shaping of app/api/generate-dna/route.ts: the trait
 * dictionary built from the catalogue, the server-side output classifier,
 * request validation, grouping by category, the target length, and the
 * extraction of the JSON object from the language model's reply.
 */
module GenerateDna {
  import opened JsStrings
  import TraitsData
  import GS = GeneticStructure

  // ---------------------------------------------------------------------------
  // determineOutputType, lines 34-122
  // ---------------------------------------------------------------------------

  const PlasmidKeywords: seq<string> := [
    "Thermophilic", "Radioresistance", "Halophilic", "Acidophilic", "Barophilic",
    "Psychrophilic", "Desiccation Resistance", "Alkaliphilic",
    "Biosensor (Arsenic)", "Bioplastic (PHA)", "Heavy Metal Bioremediation",
    "CRISPR Immunity", "Quorum Sensing", "Genetic Kill Switch",
    "Sulfur Oxidation", "Iron Oxidation", "Hydrogen Metabolism",
    "Methane Oxidation", "Ammonia Oxidation"
  ]

  const ProteinKeywords: seq<string> := [
    "Spider Silk", "Antifreeze Proteins", "Limb Regeneration", "Venomous Bite",
    "Exoskeleton", "Venom Synthesis", "Super Strength", "Electric Organ",
    "Lignin Decomposition", "Antibiotic Production", "Antimicrobial Peptides",
    "Drought Resistance", "UV-B Protection", "Ink Production"
  ]

  const RnaKeywords: seq<string> := [
    "Rapid Cell Division", "C4 Photosynthesis", "CAM Photosynthesis",
    "Metamorphosis", "Pheromone Communication", "Hive Mind Behavior",
    "Mycelium Network", "Antiviral RNA Silencing", "Compound Eyes"
  ]

  /** `clean.includes(t) || t.includes(clean)`. */
  predicate Related(clean: string, t: string) {
    Includes(clean, t) || Includes(t, clean)
  }

  /** `table.some(t => clean.includes(t) || t.includes(clean))`. */
  predicate AnyRelated(clean: string, table: seq<string>) {
    exists k :: 0 <= k < |table| && Related(clean, table[k])
  }

  /** The three running scores of the server-side classifier. */
  datatype OutScores = OutScores(plasmid: real, protein: real, rna: real)

  function AddOut(a: OutScores, b: OutScores): OutScores {
    OutScores(a.plasmid + b.plasmid, a.protein + b.protein, a.rna + b.rna)
  }

  /** What one trait adds: 1 per table holding a keyword related to its tag-stripped name. */
  function TraitOutScores(t: string): OutScores {
    var clean := StripTag(t);
    OutScores(GS.Indicator(AnyRelated(clean, PlasmidKeywords)),
              GS.Indicator(AnyRelated(clean, ProteinKeywords)),
              GS.Indicator(AnyRelated(clean, RnaKeywords)))
  }

  /** The scores after the `forEach` over `traits`. */
  function OutTableScores(traits: seq<string>): OutScores {
    if traits == [] then OutScores(0.0, 0.0, 0.0)
    else AddOut(OutTableScores(traits[..|traits| - 1]), TraitOutScores(traits[|traits| - 1]))
  }

  /** The table scores plus 0.5 protein per `custom:`-prefixed trait. */
  function OutFinalScores(traits: seq<string>): OutScores {
    var s := OutTableScores(traits);
    s.(protein := s.protein + GS.CustomCount(traits) as real * 0.5)
  }

  function OutMax(s: OutScores): real {
    GS.Max(GS.Max(s.plasmid, s.protein), s.rna)
  }

  /** dna when nothing scored, else the first of plasmid, protein, rna reaching the maximum. */
  function OutWinner(s: OutScores): GS.StructureType {
    var m := OutMax(s);
    if m == 0.0 then GS.Dna
    else if s.plasmid == m then GS.Plasmid
    else if s.protein == m then GS.Protein
    else if s.rna == m then GS.Rna
    else GS.Dna
  }

  /** The record `determineOutputType` returns. */
  datatype OutputType = OutputType(kind: GS.StructureType, name: string, description: string, sequenceType: string)

  /** The fixed record of each kind. */
  function OutputRecord(kind: GS.StructureType): (r: OutputType)
    ensures r.kind == kind && r.name != ""
  {
    match kind
    case Dna => OutputType(GS.Dna, "Genomic DNA Construct",
                           "Double-stranded DNA encoding multiple gene cassettes", "DNA (A, T, G, C)")
    case Plasmid => OutputType(GS.Plasmid, "Circular Plasmid Vector",
                               "Self-replicating circular DNA for bacterial expression", "Circular DNA with oriC")
    case Protein => OutputType(GS.Protein, "Fusion Protein Complex",
                               "Multi-domain protein with combined functionalities", "Amino Acid Sequence")
    case Rna => OutputType(GS.Rna, "mRNA Transcript",
                           "Modified mRNA for cellular expression with regulatory elements", "RNA (A, U, G, C)")
  }

  /** What `determineOutputType(traits)` returns. */
  function OutputTypeOf(traits: seq<string>): OutputType {
    OutputRecord(OutWinner(OutFinalScores(traits)))
  }

  lemma OutTableScoresStep(traits: seq<string>, i: nat)
    requires i < |traits|
    ensures OutTableScores(traits[..i + 1]) == AddOut(OutTableScores(traits[..i]), TraitOutScores(traits[i]))
  {
    assert traits[..i + 1][..i] == traits[..i];
  }

  /** The scoring loop of `determineOutputType`, lines 63-76. */
  method ScoreTraits(traits: seq<string>) returns (s: OutScores)
    ensures s == OutFinalScores(traits)
  {
    var plasmidScore, proteinScore, rnaScore := 0.0, 0.0, 0.0;
    var i := 0;
    while i < |traits|
      invariant 0 <= i <= |traits|
      invariant OutScores(plasmidScore, proteinScore, rnaScore) == OutTableScores(traits[..i])
    {
      OutTableScoresStep(traits, i);
      var cleanTrait := StripTag(traits[i]);
      if AnyRelated(cleanTrait, PlasmidKeywords) { plasmidScore := plasmidScore + 1.0; }
      if AnyRelated(cleanTrait, ProteinKeywords) { proteinScore := proteinScore + 1.0; }
      if AnyRelated(cleanTrait, RnaKeywords) { rnaScore := rnaScore + 1.0; }
      i := i + 1;
    }
    assert traits[..i] == traits;
    proteinScore := proteinScore + GS.CustomCount(traits) as real * 0.5;
    s := OutScores(plasmidScore, proteinScore, rnaScore);
  }

  /** `determineOutputType`: the scores, then the winner selection of lines 78-121. */
  method DetermineOutputType(traits: seq<string>) returns (r: OutputType)
    ensures r == OutputTypeOf(traits)
  {
    var s := ScoreTraits(traits);
    var maxScore := GS.Max(GS.Max(s.plasmid, s.protein), s.rna);
    var kind;
    if maxScore == 0.0 {
      kind := GS.Dna;
    } else if s.plasmid == maxScore {
      kind := GS.Plasmid;
    } else if s.protein == maxScore {
      kind := GS.Protein;
    } else if s.rna == maxScore {
      kind := GS.Rna;
    } else {
      kind := GS.Dna;
    }
    r := OutputRecord(kind);
  }

  predicate OutNonNegative(s: OutScores) {
    s.plasmid >= 0.0 && s.protein >= 0.0 && s.rna >= 0.0
  }

  lemma {:induction false} OutScoresNonNegative(traits: seq<string>)
    ensures OutNonNegative(OutTableScores(traits)) && OutNonNegative(OutFinalScores(traits))
  {
    if traits != [] {
      OutScoresNonNegative(traits[..|traits| - 1]);
    }
  }

  /**
   * On non-negative scores: dna exactly when all three are zero, and otherwise
   * the first of plasmid, protein, rna to reach the maximum; the final dna
   * fallback is never reached.
   */
  lemma OutWinnerByPriority(s: OutScores)
    requires OutNonNegative(s)
    ensures OutWinner(s) == GS.Dna <==> s.plasmid == 0.0 && s.protein == 0.0 && s.rna == 0.0
    ensures OutWinner(s) == GS.Plasmid <==> s.plasmid > 0.0 && s.plasmid >= s.protein && s.plasmid >= s.rna
    ensures OutWinner(s) == GS.Protein <==> s.protein > s.plasmid && s.protein >= s.rna
    ensures OutWinner(s) == GS.Rna <==> s.rna > s.plasmid && s.rna > s.protein
  {
  }

  /** Every string includes the empty one, so a trait that strips to "" is related to every keyword. */
  lemma EmptyRelatedToAll(table: seq<string>)
    requires table != []
    ensures AnyRelated("", table)
  {
    IncludesEmpty(table[0]);
  }

  lemma BareTagSteps(t: string)
    requires t == CustomTag
    ensures StripTag(t) == ""
    ensures TraitOutScores(t) == OutScores(1.0, 1.0, 1.0)
    ensures GS.CustomCount([t]) == 1
  {
    assert StartsWith(t, CustomTag);
    EmptyRelatedToAll(PlasmidKeywords);
    EmptyRelatedToAll(ProteinKeywords);
    EmptyRelatedToAll(RnaKeywords);
    assert [t][..0] == [];
  }

  /** The trait "custom:" strips to "", which every table credits; with its bonus, protein wins. */
  lemma BareTagScores(traits: seq<string>)
    requires traits == [CustomTag]
    ensures OutFinalScores(traits) == OutScores(1.0, 1.5, 1.0)
    ensures OutputTypeOf(traits).kind == GS.Protein
  {
    BareTagSteps(CustomTag);
    assert traits[..0] == [];
    assert OutTableScores(traits) == OutScores(1.0, 1.0, 1.0);
  }


  // ---------------------------------------------------------------------------
  // traitDatabase, lines 18-31
  // ---------------------------------------------------------------------------

  /** `TraitInfo` (the optional source and mechanism are not modelled). */
  datatype TraitInfo = TraitInfo(name: string, gene: string, description: string, category: string)

  function Entry(c: TraitsData.TraitCategory, t: TraitsData.Trait): TraitInfo {
    TraitInfo(t.name, t.gene, t.description, c.name)
  }

  function CategoryEntries(c: TraitsData.TraitCategory): (r: seq<TraitInfo>)
    ensures |r| == |c.traits|
    ensures forall i :: 0 <= i < |r| ==> r[i] == Entry(c, c.traits[i])
  {
    seq(|c.traits|, i requires 0 <= i < |c.traits| => Entry(c, c.traits[i]))
  }

  /** The entries in the order the two nested `forEach` loops store them. */
  function Entries(cs: seq<TraitsData.TraitCategory>): seq<TraitInfo> {
    if cs == [] then [] else CategoryEntries(cs[0]) + Entries(cs[1..])
  }

  lemma {:induction false} EntriesSnoc(cs: seq<TraitsData.TraitCategory>, c: TraitsData.TraitCategory)
    ensures Entries(cs + [c]) == Entries(cs) + CategoryEntries(c)
  {
    if cs == [] {
      assert [c][1..] == [];
    } else {
      assert (cs + [c])[1..] == cs[1..] + [c];
      EntriesSnoc(cs[1..], c);
    }
  }

  /**
   * `db` is what storing `es` one by one into an empty dictionary gives: its
   * keys are the names of `es`, and each key holds the last entry of that name.
   */
  ghost predicate StoredInOrder(db: map<string, TraitInfo>, es: seq<TraitInfo>) {
    && (forall n :: n in db <==> exists k :: 0 <= k < |es| && es[k].name == n)
    && (forall k :: 0 <= k < |es| && (forall j :: k < j < |es| ==> es[j].name != es[k].name) ==>
          es[k].name in db && db[es[k].name] == es[k])
  }

  lemma StoreStep(db: map<string, TraitInfo>, es: seq<TraitInfo>, e: TraitInfo)
    requires StoredInOrder(db, es)
    ensures StoredInOrder(db[e.name := e], es + [e])
  {
    var db', es' := db[e.name := e], es + [e];
    forall n ensures n in db' <==> exists k :: 0 <= k < |es'| && es'[k].name == n {
      if n in db && n != e.name {
        var k :| 0 <= k < |es| && es[k].name == n;
        assert es'[k].name == n;
      }
      if n == e.name {
        assert es'[|es|].name == n;
      }
      if exists k :: 0 <= k < |es'| && es'[k].name == n {
        var k :| 0 <= k < |es'| && es'[k].name == n;
        if k < |es| { assert es[k].name == n; }
      }
    }
    forall k | 0 <= k < |es'| && (forall j :: k < j < |es'| ==> es'[j].name != es'[k].name)
      ensures es'[k].name in db' && db'[es'[k].name] == es'[k]
    {
      if k < |es| {
        assert es'[|es|] == e;
        assert forall j :: k < j < |es| ==> es[j] == es'[j];
      }
    }
  }

  /** Storing the next entry of `entries` extends what is stored by one. */
  lemma StoreNext(db: map<string, TraitInfo>, es: seq<TraitInfo>, entries: seq<TraitInfo>, i: nat)
    requires i < |entries| && StoredInOrder(db, es + entries[..i])
    ensures StoredInOrder(db[entries[i].name := entries[i]], es + entries[..i + 1])
  {
    var pre, e := es + entries[..i], entries[i];
    assert entries[..i + 1] == entries[..i] + [e];
    assert es + entries[..i + 1] == pre + [e];
    StoreStep(db, pre, e);
  }

  /** The inner `forEach`: storing the traits of one category. */
  method StoreCategory(db: map<string, TraitInfo>, ghost es: seq<TraitInfo>, category: TraitsData.TraitCategory)
    returns (db': map<string, TraitInfo>)
    requires StoredInOrder(db, es)
    ensures StoredInOrder(db', es + CategoryEntries(category))
  {
    db' := db;
    var i := 0;
    assert es + CategoryEntries(category)[..i] == es;
    while i < |category.traits|
      invariant 0 <= i <= |category.traits|
      invariant StoredInOrder(db', es + CategoryEntries(category)[..i])
    {
      var t := category.traits[i];
      StoreNext(db', es, CategoryEntries(category), i);
      db' := db'[t.name := Entry(category, t)];
      i := i + 1;
    }
    assert CategoryEntries(category)[..i] == CategoryEntries(category);
  }

  /** The nested loops building `traitDatabase` from a list of categories. */
  method BuildTraitDatabase(cs: seq<TraitsData.TraitCategory>) returns (db: map<string, TraitInfo>)
    ensures StoredInOrder(db, Entries(cs))
  {
    db := map[];
    var c := 0;
    while c < |cs|
      invariant 0 <= c <= |cs|
      invariant StoredInOrder(db, Entries(cs[..c]))
    {
      db := StoreCategory(db, Entries(cs[..c]), cs[c]);
      EntriesSnoc(cs[..c], cs[c]);
      assert cs[..c] + [cs[c]] == cs[..c + 1];
      c := c + 1;
    }
    assert cs[..c] == cs;
  }

  /** The entries list the flattened catalogue's traits, in the same order. */
  lemma {:induction false} EntriesMatchFlatten(cs: seq<TraitsData.TraitCategory>)
    ensures |Entries(cs)| == |TraitsData.Flatten(cs)|
    ensures forall k :: 0 <= k < |Entries(cs)| ==>
              var e, t := Entries(cs)[k], TraitsData.Flatten(cs)[k];
              e.name == t.name && e.gene == t.gene && e.description == t.description
  {
    if cs != [] {
      EntriesMatchFlatten(cs[1..]);
    }
  }

  /** Trait `i` of category `c` is stored with that category's name. */
  lemma {:induction false} EntriesPosition(cs: seq<TraitsData.TraitCategory>, c: int, i: int)
    requires 0 <= c < |cs| && 0 <= i < |cs[c].traits|
    ensures TraitsData.TraitSum(cs[..c]) + i < |Entries(cs)|
    ensures Entries(cs)[TraitsData.TraitSum(cs[..c]) + i] == Entry(cs[c], cs[c].traits[i])
  {
    EntriesMatchFlatten(cs);
    TraitsData.FlattenPosition(cs, c, i);
    if c > 0 {
      EntriesPosition(cs[1..], c - 1, i);
      assert cs[..c][1..] == cs[1..][..c - 1];
      TraitsData.FlattenLength(cs[..c]);
    }
  }

  /**
   * On a catalogue without repeated names the dictionary has a key exactly for
   * each catalogue name, and each trait is stored with its own category.
   */
  lemma DatabaseOfDistinct(cs: seq<TraitsData.TraitCategory>, db: map<string, TraitInfo>)
    requires TraitsData.DistinctInCatalogue(cs) && StoredInOrder(db, Entries(cs))
    ensures forall n :: n in db <==> TraitsData.HasName(TraitsData.Flatten(cs), n)
    ensures forall c, i :: 0 <= c < |cs| && 0 <= i < |cs[c].traits| ==>
              cs[c].traits[i].name in db && db[cs[c].traits[i].name] == Entry(cs[c], cs[c].traits[i])
  {
    EntriesMatchFlatten(cs);
    TraitsData.FlattenDistinct(cs);
    var es, fs := Entries(cs), TraitsData.Flatten(cs);
    forall n ensures n in db <==> TraitsData.HasName(fs, n) {
      if n in db {
        var k :| 0 <= k < |es| && es[k].name == n;
        assert fs[k].name == n;
      }
      if TraitsData.HasName(fs, n) {
        var k :| 0 <= k < |fs| && fs[k].name == n;
        assert es[k].name == n;
      }
    }
    forall c, i | 0 <= c < |cs| && 0 <= i < |cs[c].traits|
      ensures cs[c].traits[i].name in db && db[cs[c].traits[i].name] == Entry(cs[c], cs[c].traits[i])
    {
      EntriesPosition(cs, c, i);
      var k := TraitsData.TraitSum(cs[..c]) + i;
      forall j | k < j < |es| ensures es[j].name != es[k].name {
        assert fs[j].name != fs[k].name;
      }
    }
  }

  /** `traitDatabase` as the module builds it from `traitCategories` (lines 19-31). */
  ghost predicate IsTraitDatabase(db: map<string, TraitInfo>) {
    StoredInOrder(db, Entries(TraitsData.Categories))
  }

  /** The module-level initialisation of `traitDatabase`: the nested loops run over the catalogue. */
  method TraitDatabase() returns (db: map<string, TraitInfo>)
    ensures IsTraitDatabase(db)
  {
    db := BuildTraitDatabase(TraitsData.Categories);
  }

  /**
   * In a dictionary built from categories with distinct names, the entry of a
   * name is the trait the lookups find, filed under the category they find.
   */
  lemma DatabaseEntry(cs: seq<TraitsData.TraitCategory>, db: map<string, TraitInfo>, n: string)
    requires TraitsData.DistinctInCatalogue(cs) && StoredInOrder(db, Entries(cs))
    ensures n in db <==> TraitsData.FindTrait(TraitsData.Flatten(cs), n).Some?
    ensures n in db ==>
              && TraitsData.FindCategory(cs, n).Some?
              && var t := TraitsData.FindTrait(TraitsData.Flatten(cs), n).value;
                 db[n] == TraitInfo(n, t.gene, t.description, TraitsData.FindCategory(cs, n).value.name)
  {
    DatabaseOfDistinct(cs, db);
    TraitsData.FindThroughFlatten(cs, n);
    if n in db {
      var cat := TraitsData.FindCategory(cs, n).value;
      var c :| 0 <= c < |cs| && cs[c] == cat;
      var t := TraitsData.FindTrait(cat.traits, n).value;
      var i :| 0 <= i < |cat.traits| && cat.traits[i] == t;
    }
  }

  /** No catalogue category is called "Custom". */
  lemma NoCustomCategory()
    ensures forall c :: 0 <= c < |TraitsData.Categories| ==> TraitsData.Categories[c].name != "Custom"
  {
  }

  /** Every key of `traitDatabase` is a name `getTraitByName` knows. */
  lemma CatalogueDatabaseKeys(db: map<string, TraitInfo>, n: string)
    requires IsTraitDatabase(db) && n in db
    ensures TraitsData.TraitByName(n).Some?
  {
    TraitsData.CatalogueDistinct();
    DatabaseEntry(TraitsData.Categories, db, n);
  }

  /** Every name `getTraitByName` knows is a key of `traitDatabase`. */
  lemma CatalogueDatabaseComplete(db: map<string, TraitInfo>, n: string)
    requires IsTraitDatabase(db) && TraitsData.TraitByName(n).Some?
    ensures n in db
  {
    TraitsData.CatalogueDistinct();
    DatabaseEntry(TraitsData.Categories, db, n);
  }

  /** `traitDatabase` has an entry for exactly the names `getTraitByName` knows. */
  lemma CatalogueDatabaseDomain(db: map<string, TraitInfo>, n: string)
    requires IsTraitDatabase(db)
    ensures n in db <==> TraitsData.TraitByName(n).Some?
  {
    if n in db { CatalogueDatabaseKeys(db, n); }
    if TraitsData.TraitByName(n).Some? { CatalogueDatabaseComplete(db, n); }
  }

  /** The entry of a catalogue name carries that trait's name, gene and description. */
  lemma CatalogueDatabaseTrait(db: map<string, TraitInfo>, n: string)
    requires IsTraitDatabase(db) && n in db && TraitsData.TraitByName(n).Some?
    ensures db[n].name == n
    ensures db[n].gene == TraitsData.TraitByName(n).value.gene
    ensures db[n].description == TraitsData.TraitByName(n).value.description
  {
    TraitsData.CatalogueDistinct();
    DatabaseEntry(TraitsData.Categories, db, n);
  }

  /** The entry of a catalogue name is filed under the category `getCategoryByTraitName` finds. */
  lemma CatalogueDatabaseCategory(db: map<string, TraitInfo>, n: string)
    requires IsTraitDatabase(db) && n in db && TraitsData.CategoryByTraitName(n).Some?
    ensures db[n].category == TraitsData.CategoryByTraitName(n).value.name
  {
    TraitsData.CatalogueDistinct();
    DatabaseEntry(TraitsData.Categories, db, n);
  }

  /** Every entry is stored under its own name, and none is filed under "Custom". */
  predicate FiledByName(db: map<string, TraitInfo>) {
    forall n :: n in db ==> db[n].name == n && db[n].category != "Custom"
  }

  /** A dictionary built from categories with distinct names, none called "Custom", has that shape. */
  lemma FiledFrom(cs: seq<TraitsData.TraitCategory>, db: map<string, TraitInfo>)
    requires TraitsData.DistinctInCatalogue(cs) && StoredInOrder(db, Entries(cs))
    requires forall c :: 0 <= c < |cs| ==> cs[c].name != "Custom"
    ensures FiledByName(db)
  {
    forall n | n in db ensures db[n].name == n && db[n].category != "Custom" {
      DatabaseEntry(cs, db, n);
      var c :| 0 <= c < |cs| && cs[c] == TraitsData.FindCategory(cs, n).value;
    }
  }

  /** `traitDatabase` has that shape. */
  lemma CatalogueFiledByName(db: map<string, TraitInfo>)
    requires IsTraitDatabase(db)
    ensures FiledByName(db)
  {
    TraitsData.CatalogueDistinct();
    NoCustomCategory();
    FiledFrom(TraitsData.Categories, db);
  }

  /**
   * With such a dictionary, the selection of lines 144-146 holds exactly the
   * entries of the requested names that have one, never filed under "Custom",
   * and the groups hold the selection's categories followed by "Custom".
   */
  lemma SelectedFiled(db: map<string, TraitInfo>, names: seq<string>, customs: seq<CustomTraitInput>)
    requires FiledByName(db)
    ensures forall x :: x in Selected(db, names) ==>
              && x.name in db && db[x.name] == x && x.category != "Custom"
              && exists j :: 0 <= j < |names| && names[j] == x.name
    ensures forall j :: 0 <= j < |names| && names[j] in db ==> db[names[j]] in Selected(db, names)
    ensures WithCustom(GroupsOf(Selected(db, names)), customs)
            == GroupsOf(Selected(db, names)) + (if customs == [] then [] else [CustomGroup(customs)])
  {
    SelectedMembers(db, names);
    var infos := Selected(db, names);
    forall k | 0 <= k < |infos| ensures infos[k].category != "Custom" {
      assert infos[k] in infos;
    }
    WithCustomAppends(infos, customs);
  }

  // ---------------------------------------------------------------------------
  // The POST handler up to the model call, lines 132-173 and 223
  // ---------------------------------------------------------------------------

  /** `(traits && traits.length > 0) || (customTraits && customTraits.length > 0)`. */
  predicate HasTraits<A, B>(traits: Option<seq<A>>, customTraits: Option<seq<B>>) {
    (traits.Some? && |traits.value| > 0) || (customTraits.Some? && |customTraits.value| > 0)
  }

  /** `x || []` on an optional list. */
  function OrEmpty<A>(x: Option<seq<A>>): (r: seq<A>)
    ensures x.Some? ==> r == x.value
    ensures x.None? ==> r == []
  {
    if x.Some? then x.value else []
  }

  /** `names.map(t => traitDatabase[t]).filter(Boolean)`: unknown names are dropped, the order is kept. */
  function Selected(db: map<string, TraitInfo>, names: seq<string>): (r: seq<TraitInfo>)
    ensures |r| <= |names|
  {
    if names == [] then []
    else
      var rest := Selected(db, names[..|names| - 1]);
      var n := names[|names| - 1];
      if n in db then rest + [db[n]] else rest
  }

  /** The selection holds exactly the dictionary entries of the known names. */
  lemma {:induction false} SelectedMembers(db: map<string, TraitInfo>, names: seq<string>)
    ensures forall x :: x in Selected(db, names) <==> exists j :: 0 <= j < |names| && names[j] in db && db[names[j]] == x
  {
    if names != [] {
      var init := names[..|names| - 1];
      SelectedMembers(db, init);
      forall x ensures x in Selected(db, names) <==> exists j :: 0 <= j < |names| && names[j] in db && db[names[j]] == x {
        if exists j :: 0 <= j < |init| && init[j] in db && db[init[j]] == x {
          var j :| 0 <= j < |init| && init[j] in db && db[init[j]] == x;
          assert names[j] == init[j];
        }
        if exists j :: 0 <= j < |names| && names[j] in db && db[names[j]] == x {
          var j :| 0 <= j < |names| && names[j] in db && db[names[j]] == x;
          if j < |init| { assert init[j] == names[j]; }
        }
      }
    }
  }

  /** With only known names, nothing is dropped. */
  lemma {:induction false} SelectedAllKnown(db: map<string, TraitInfo>, names: seq<string>)
    requires forall j :: 0 <= j < |names| ==> names[j] in db
    ensures |Selected(db, names)| == |names|
  {
    if names != [] {
      SelectedAllKnown(db, names[..|names| - 1]);
    }
  }

  /** `traitsByCategory[c]`, a list of the infos of one category. */
  datatype Group = Group(category: string, traits: seq<TraitInfo>)

  /** The categories of `infos`, in order of first appearance: the key order of `traitsByCategory`. */
  function Keys(infos: seq<TraitInfo>): seq<string>
  {
    if infos == [] then []
    else
      var ks := Keys(infos[..|infos| - 1]);
      var c := infos[|infos| - 1].category;
      if c in ks then ks else ks + [c]
  }

  /** The infos of category `c`, in order. */
  function InCategory(infos: seq<TraitInfo>, c: string): seq<TraitInfo>
  {
    if infos == [] then []
    else
      var rest := InCategory(infos[..|infos| - 1], c);
      if infos[|infos| - 1].category == c then rest + [infos[|infos| - 1]] else rest
  }

  /** The groups the `forEach` of lines 150-155 builds: one per category, in order of first appearance. */
  function GroupsOf(infos: seq<TraitInfo>): (r: seq<Group>)
    ensures |r| == |Keys(infos)|
    ensures forall g :: 0 <= g < |r| ==> r[g] == Group(Keys(infos)[g], InCategory(infos, Keys(infos)[g]))
  {
    var ks := Keys(infos);
    seq(|ks|, g requires 0 <= g < |ks| => Group(ks[g], InCategory(infos, ks[g])))
  }

  /** No category is listed twice, and exactly the categories of `infos` are listed. */
  lemma {:induction false} KeysDistinct(infos: seq<TraitInfo>)
    ensures forall a, b :: 0 <= a < b < |Keys(infos)| ==> Keys(infos)[a] != Keys(infos)[b]
    ensures forall c :: c in Keys(infos) <==> exists k :: 0 <= k < |infos| && infos[k].category == c
  {
    if infos != [] {
      var init := infos[..|infos| - 1];
      KeysDistinct(init);
      forall c ensures c in Keys(infos) <==> exists k :: 0 <= k < |infos| && infos[k].category == c {
        if exists k :: 0 <= k < |init| && init[k].category == c {
          var k :| 0 <= k < |init| && init[k].category == c;
          assert infos[k].category == c;
        }
        if exists k :: 0 <= k < |infos| && infos[k].category == c {
          var k :| 0 <= k < |infos| && infos[k].category == c;
          if k < |init| { assert init[k].category == c; }
        }
      }
    }
  }

  /** A category's group holds every info of that category and nothing else, in order. */
  lemma {:induction false} InCategoryMembers(infos: seq<TraitInfo>, c: string)
    ensures forall x :: x in InCategory(infos, c) <==> x in infos && x.category == c
  {
    if infos != [] {
      InCategoryMembers(infos[..|infos| - 1], c);
      assert infos == infos[..|infos| - 1] + [infos[|infos| - 1]];
    }
  }

  lemma {:induction false} InCategoryEmpty(infos: seq<TraitInfo>, c: string)
    ensures c !in Keys(infos) ==> InCategory(infos, c) == []
  {
    if infos != [] {
      InCategoryEmpty(infos[..|infos| - 1], c);
    }
  }

  /** `traitsByCategory[c]` as a lookup: the position of the group of `c`, or -1. */
  function FindGroup(groups: seq<Group>, c: string): (r: int)
    ensures -1 <= r < |groups|
    ensures r >= 0 ==> groups[r].category == c
    ensures r < 0 <==> forall g :: 0 <= g < |groups| ==> groups[g].category != c
  {
    if groups == [] then -1
    else if groups[|groups| - 1].category == c then |groups| - 1
    else FindGroup(groups[..|groups| - 1], c)
  }

  lemma GroupsStep(infos: seq<TraitInfo>, x: TraitInfo, j: int)
    requires j == FindGroup(GroupsOf(infos), x.category)
    ensures j < 0 ==> GroupsOf(infos + [x]) == GroupsOf(infos) + [Group(x.category, [x])]
    ensures j >= 0 ==>
              GroupsOf(infos + [x]) == GroupsOf(infos)[j := Group(x.category, GroupsOf(infos)[j].traits + [x])]
  {
    var xs := infos + [x];
    assert xs[..|xs| - 1] == infos;
    var ks, ks' := Keys(infos), Keys(xs);
    var gs, gs' := GroupsOf(infos), GroupsOf(xs);
    forall c ensures InCategory(xs, c) == InCategory(infos, c) + (if x.category == c then [x] else []) {
    }
    if j < 0 {
      assert x.category !in ks by {
        forall g | 0 <= g < |ks| ensures ks[g] != x.category { assert gs[g].category == ks[g]; }
      }
      assert ks' == ks + [x.category];
      InCategoryEmpty(infos, x.category);
      forall g | 0 <= g < |gs'| ensures gs'[g] == (gs + [Group(x.category, [x])])[g] {
        if g < |ks| { assert ks[g] != x.category; }
      }
      assert gs' == gs + [Group(x.category, [x])];
    } else {
      assert ks[j] == x.category;
      assert ks' == ks;
      KeysDistinct(infos);
      assert gs' == gs[j := Group(x.category, gs[j].traits + [x])];
    }
  }

  /** The `forEach` of lines 150-155, pushing each info onto the list of its category. */
  method GroupByCategory(infos: seq<TraitInfo>) returns (groups: seq<Group>)
    ensures groups == GroupsOf(infos)
  {
    groups := [];
    var i := 0;
    while i < |infos|
      invariant 0 <= i <= |infos|
      invariant groups == GroupsOf(infos[..i])
    {
      var info := infos[i];
      var j := FindGroup(groups, info.category);
      GroupsStep(infos[..i], info, j);
      assert infos[..i] + [info] == infos[..i + 1];
      if j < 0 {
        groups := groups + [Group(info.category, [info])];
      } else {
        groups := groups[j := Group(info.category, groups[j].traits + [info])];
      }
      i := i + 1;
    }
    assert infos[..i] == infos;
  }

  /** A custom trait as the request carries it; `gene` may be missing. */
  datatype CustomTraitInput = CustomTraitInput(name: string, gene: Option<string>, description: string)

  /** `{ name, gene: ct.gene || "CUSTOM", description, category: "Custom" }`. */
  function CustomInfo(ct: CustomTraitInput): (r: TraitInfo)
    ensures r.name == ct.name && r.description == ct.description && r.category == "Custom"
    ensures Truthy(ct.gene) ==> r.gene == ct.gene.value
    ensures !Truthy(ct.gene) ==> r.gene == "CUSTOM"
  {
    TraitInfo(ct.name, if Truthy(ct.gene) then ct.gene.value else "CUSTOM", ct.description, "Custom")
  }

  /** `traitsByCategory["Custom"]`: the custom traits as infos under the "Custom" category, in order. */
  function CustomGroup(customs: seq<CustomTraitInput>): (r: Group)
    ensures r.category == "Custom" && |r.traits| == |customs|
    ensures forall i :: 0 <= i < |customs| ==> r.traits[i] == CustomInfo(customs[i])
  {
    Group("Custom", seq(|customs|, i requires 0 <= i < |customs| => CustomInfo(customs[i])))
  }

  /**
   * `traitsByCategory["Custom"] = ...` when there are custom traits: an existing
   * "Custom" group keeps its place and is replaced, otherwise the group is appended.
   */
  function WithCustom(groups: seq<Group>, customs: seq<CustomTraitInput>): (r: seq<Group>)
    ensures customs == [] ==> r == groups
    ensures customs != [] ==>
              var j := FindGroup(groups, "Custom");
              if j < 0 then r == groups + [CustomGroup(customs)] else r == groups[j := CustomGroup(customs)]
  {
    if customs == [] then groups
    else
      var j := FindGroup(groups, "Custom");
      if j < 0 then groups + [CustomGroup(customs)] else groups[j := CustomGroup(customs)]
  }

  /**
   * When no info is filed under "Custom", the custom traits form one new last
   * group and every group of the infos stays as it was.
   */
  lemma WithCustomAppends(infos: seq<TraitInfo>, customs: seq<CustomTraitInput>)
    requires forall k :: 0 <= k < |infos| ==> infos[k].category != "Custom"
    ensures WithCustom(GroupsOf(infos), customs) ==
              GroupsOf(infos) + (if customs == [] then [] else [CustomGroup(customs)])
  {
    KeysDistinct(infos);
    var gs := GroupsOf(infos);
    forall g | 0 <= g < |gs| ensures gs[g].category != "Custom" {
      assert gs[g].category == Keys(infos)[g];
      assert Keys(infos)[g] in Keys(infos);
    }
    if customs == [] {
      assert gs + [] == gs;
    }
  }

  /** The names given to the classifier: the requested names, then `"custom:" + name` per custom trait. */
  function AllTraitNames(traits: seq<string>, customs: seq<CustomTraitInput>): (r: seq<string>)
    ensures |r| == |traits| + |customs|
    ensures r[..|traits|] == traits
    ensures forall i :: 0 <= i < |customs| ==> r[|traits| + i] == CustomTag + customs[i].name
  {
    traits + seq(|customs|, i requires 0 <= i < |customs| => CustomTag + customs[i].name)
  }

  /** Every custom trait reaches the classifier as a tagged name: each earns the protein bonus. */
  lemma {:induction false} CustomNamesCounted(traits: seq<string>, customs: seq<CustomTraitInput>)
    ensures GS.CustomCount(AllTraitNames(traits, customs)) == GS.CustomCount(traits) + |customs|
    decreases |customs|
  {
    if customs != [] {
      var init := customs[..|customs| - 1];
      CustomNamesCounted(traits, init);
      var last := CustomTag + customs[|customs| - 1].name;
      assert AllTraitNames(traits, customs) == AllTraitNames(traits, init) + [last];
      assert CustomTag <= last;
      GS.CustomCountSnoc(AllTraitNames(traits, init), last);
    } else {
      assert AllTraitNames(traits, customs) == traits;
    }
  }

  /**
   * The length asked for at complexity `c`: `Math.floor((300 + 10c) / 3)` amino
   * acids for a protein, `300 + 10c` bases otherwise (for a positive divisor
   * Dafny's division is the floor).
   */
  function TargetLength(kind: GS.StructureType, complexity: int): (r: int)
    ensures kind == GS.Protein ==> 3 * r <= 300 + complexity * 10 < 3 * r + 3
    ensures kind != GS.Protein ==> r == 300 + complexity * 10
  {
    if kind == GS.Protein then (300 + complexity * 10) / 3 else 300 + complexity * 10
  }

  /** An answer of the route: a value, or an error status with its message. */
  datatype Response<T> = Ok(value: T) | Error(status: nat, message: string)

  /** What the handler has computed when it is about to call the model. */
  datatype Prepared = Prepared(selected: seq<TraitInfo>, groups: seq<Group>, allNames: seq<string>,
                               outputType: OutputType, targetLength: int)

  /** The three fields the handler destructures from the request body. */
  datatype RequestBody = RequestBody(traits: Option<seq<string>>, customTraits: Option<seq<CustomTraitInput>>,
                                     complexity: int)

  /**
   * Lines 131-223 of the POST handler, with the prompt text left out. `body`
   * is `None` when `request.json()` throws, which the outer `catch` of lines
   * 292-297 turns into a 500. `db` is `traitDatabase`, built from the catalogue.
   */
  method PrepareRequest(db: map<string, TraitInfo>, body: Option<RequestBody>) returns (r: Response<Prepared>)
    requires IsTraitDatabase(db)
    ensures body.None? ==> r == Error(500, "Failed to generate DNA sequence")
    ensures body.Some? ==> (r.Error? <==> !HasTraits(body.value.traits, body.value.customTraits))
    ensures body.Some? && r.Error? ==> r.status == 400 && r.message == "No traits selected"
    ensures r.Ok? ==>
              var names, customs := OrEmpty(body.value.traits), OrEmpty(body.value.customTraits);
              && r.value.selected == Selected(db, names)
              && r.value.groups == WithCustom(GroupsOf(Selected(db, names)), customs)
              && r.value.allNames == AllTraitNames(names, customs)
              && r.value.outputType == OutputTypeOf(AllTraitNames(names, customs))
              && r.value.targetLength == TargetLength(r.value.outputType.kind, body.value.complexity)
    ensures r.Ok? ==>
              var names, customs := OrEmpty(body.value.traits), OrEmpty(body.value.customTraits);
              && r.value.groups == GroupsOf(r.value.selected) + (if customs == [] then [] else [CustomGroup(customs)])
              && (forall x :: x in r.value.selected ==> x.name in db && db[x.name] == x && x.category != "Custom")
              && (forall j :: 0 <= j < |names| && names[j] in db ==> db[names[j]] in r.value.selected)
  {
    if body.None? {
      return Error(500, "Failed to generate DNA sequence");
    }
    var RequestBody(traits, customTraits, complexity) := body.value;
    if !HasTraits(traits, customTraits) {
      return Error(400, "No traits selected");
    }
    var names := OrEmpty(traits);
    var selected := Selected(db, names);
    var customs := OrEmpty(customTraits);
    CatalogueFiledByName(db);
    SelectedFiled(db, names, customs);
    var groups := GroupByCategory(selected);
    groups := WithCustom(groups, customs);
    var allNames := AllTraitNames(names, customs);
    var outputType := DetermineOutputType(allNames);
    r := Ok(Prepared(selected, groups, allNames, outputType, TargetLength(outputType.kind, complexity)));
  }

  // ---------------------------------------------------------------------------
  // The reply, lines 264-282
  // ---------------------------------------------------------------------------

  /** The position of the first `c` in `s`, or -1. */
  function FirstIndexOf(s: string, c: char): (r: int)
    ensures -1 <= r < |s|
    ensures r >= 0 ==> s[r] == c && forall k :: 0 <= k < r ==> s[k] != c
    ensures r < 0 <==> forall k :: 0 <= k < |s| ==> s[k] != c
  {
    if s == [] then -1
    else if s[0] == c then 0
    else
      var k := FirstIndexOf(s[1..], c);
      if k < 0 then -1 else k + 1
  }

  /** The position of the last `c` in `s`, or -1. */
  function LastIndexOf(s: string, c: char): (r: int)
    ensures -1 <= r < |s|
    ensures r >= 0 ==> s[r] == c && forall k :: r < k < |s| ==> s[k] != c
    ensures r < 0 <==> forall k :: 0 <= k < |s| ==> s[k] != c
  {
    if s == [] then -1
    else if s[|s| - 1] == c then |s| - 1
    else
      LastIndexOf(s[..|s| - 1], c)
  }

  /**
   * `text.match(/\{[\s\S]*\}/)`: the greedy match runs from the first `{` to the
   * last `}` after it; there is none when no `}` follows a `{`.
   */
  function ExtractJsonSpan(text: string): (r: Option<string>)
    ensures r.Some? ==> exists i, j :: 0 <= i < j < |text| && r.value == text[i..j + 1]
                                       && text[i] == '{' && (forall k :: 0 <= k < i ==> text[k] != '{')
                                       && text[j] == '}' && (forall k :: j < k < |text| ==> text[k] != '}')
    ensures r.None? <==> forall i, j :: 0 <= i < j < |text| && text[i] == '{' ==> text[j] != '}'
  {
    var i := FirstIndexOf(text, '{');
    var j := LastIndexOf(text, '}');
    if 0 <= i < j then Some(text[i..j + 1]) else None
  }

  /** The two fields of the parsed reply the handler fills in; the rest is passed on untouched. */
  datatype Reply = Reply(structureType: Option<string>, structureName: Option<string>)

  /** The `type` field of each output record. */
  function KindName(kind: GS.StructureType): (r: string)
    ensures r != ""
  {
    match kind
    case Dna => "dna"
    case Rna => "rna"
    case Protein => "protein"
    case Plasmid => "plasmid"
  }

  /** `parsed.structureType = parsed.structureType || outputType.type`, and the same for the name. */
  function FillStructure(reply: Reply, out: OutputType): (r: Reply)
    ensures Truthy(r.structureType)
    ensures out.name != "" ==> Truthy(r.structureName)
    ensures Truthy(reply.structureType) ==> r.structureType == reply.structureType
    ensures !Truthy(reply.structureType) ==> r.structureType == Some(KindName(out.kind))
    ensures Truthy(reply.structureName) ==> r.structureName == reply.structureName
    ensures !Truthy(reply.structureName) ==> r.structureName == Some(out.name)
  {
    Reply(if Truthy(reply.structureType) then reply.structureType else Some(KindName(out.kind)),
          if Truthy(reply.structureName) then reply.structureName else Some(out.name))
  }

  /** Filling in is idempotent: a second pass changes nothing. */
  lemma FillStructureIdempotent(reply: Reply, out: OutputType)
    ensures FillStructure(FillStructure(reply, out), out) == FillStructure(reply, out)
  {
  }

  /**
   * The reply handling: 500 "Failed to parse AI response" when no `{...}` span
   * is found or `parse` (standing for `JSON.parse`) rejects it, else the parsed
   * reply with the two fields filled in.
   */
  function HandleReply(text: string, parse: string -> Option<Reply>, out: OutputType): (r: Response<Reply>)
    ensures r.Error? <==> ExtractJsonSpan(text).None? || parse(ExtractJsonSpan(text).value).None?
    ensures r.Error? ==> r.status == 500 && r.message == "Failed to parse AI response"
    ensures r.Ok? ==> r.value == FillStructure(parse(ExtractJsonSpan(text).value).value, out)
  {
    var span := ExtractJsonSpan(text);
    if span.None? then Error(500, "Failed to parse AI response")
    else
      var parsed := parse(span.value);
      if parsed.None? then Error(500, "Failed to parse AI response")
      else Ok(FillStructure(parsed.value, out))
  }
}
