/**
 * The structure-type classifier and the sequence views of
 * components/genetic-structure-3d.tsx.
 *
 * A 3D point is abstracted to the integers its coordinates are computed
 * from: its index along the path, the number of points on the path and a
 * phase (the strand offset of a double helix, 0 for a single path).
 */
module GeneticStructure {
  import opened JsStrings

  datatype StructureType = Dna | Rna | Protein | Plasmid

  // ---------------------------------------------------------------------------
  // determineStructureType, lines 427-519
  // ---------------------------------------------------------------------------

  const PlasmidTraits: set<string> := {
    "Thermophilic", "Radioresistance", "Halophilic", "Acidophilic", "Barophilic",
    "Psychrophilic", "Desiccation Resistance", "Alkaliphilic",
    "Biosensor (Arsenic)", "Bioplastic (PHA)", "Heavy Metal Bioremediation", "Biofuel Production",
    "CRISPR Self-Repair", "Quorum Sensing", "Genetic Kill Switch", "Carbon Capture Enhanced",
    "Sulfur Oxidation", "Iron Oxidation", "Hydrogen Metabolism", "Methane Oxidation",
    "Ammonia Oxidation", "Arsenite Oxidation",
    "CRISPR Immunity"
  }

  const ProteinTraits: set<string> := {
    "Spider Silk", "Antifreeze Proteins", "Limb Regeneration",
    "Venomous Bite", "Echolocation", "Hibernation",
    "Drought Resistance", "UV-B Protection", "Salinity Tolerance",
    "Bioluminescence", "Electric Organ", "Ink Production", "Chromatophore System",
    "Exoskeleton", "Venom Synthesis", "Super Strength", "Flight Muscles",
    "Lignin Decomposition", "Antibiotic Production", "Plastic Degradation",
    "Antimicrobial Peptides", "Oxidative Burst", "Hypersensitive Response",
    "Electroreception", "Distributed Neural Network", "Rapid Learning"
  }

  const RnaTraits: set<string> := {
    "Rapid Cell Division", "C4 Photosynthesis", "CAM Photosynthesis", "Nitrogen Fixation",
    "Deep Root System",
    "Metamorphosis", "Pheromone Communication", "Hive Mind Behavior",
    "Mycelium Network", "Mycorrhizal Symbiosis", "Spore Dormancy", "Psychedelic Compounds",
    "Coral Symbiosis", "Osmoregulation", "Jet Propulsion",
    "Infrared Vision", "Magnetic Navigation", "Camouflage",
    "Compound Eyes", "Photoreceptor Diversity", "Magnetoreception", "Lateral Line System",
    "Antiviral RNA Silencing", "Systemic Acquired Resistance"
  }

  const DnaTraits: set<string> := {"Salinity Tolerance", "Pressure Adaptation"}

  /** The four running scores. */
  datatype Scores = Scores(plasmid: real, protein: real, rna: real, dna: real)

  function Add(a: Scores, b: Scores): Scores {
    Scores(a.plasmid + b.plasmid, a.protein + b.protein, a.rna + b.rna, a.dna + b.dna)
  }

  function Indicator(b: bool): real {
    if b then 1.0 else 0.0
  }

  /** What one trait adds to the table scores: 1 per table listing its tag-stripped name. */
  function TraitScores(t: string): Scores {
    var clean := StripTag(t);
    Scores(Indicator(clean in PlasmidTraits), Indicator(clean in ProteinTraits),
           Indicator(clean in RnaTraits), Indicator(clean in DnaTraits))
  }

  /** The table scores after the `forEach` over `traits`. */
  function TableScores(traits: seq<string>): Scores
  {
    if traits == [] then Scores(0.0, 0.0, 0.0, 0.0)
    else Add(TableScores(traits[..|traits| - 1]), TraitScores(traits[|traits| - 1]))
  }

  /** `traits.filter(t => t.startsWith("custom:")).length`. */
  function CustomCount(traits: seq<string>): nat
  {
    if traits == [] then 0
    else CustomCount(traits[..|traits| - 1]) + (if StartsWith(traits[|traits| - 1], CustomTag) then 1 else 0)
  }

  /** The scores the winner is picked from: the table scores plus 0.5 protein per custom trait. */
  function FinalScores(traits: seq<string>): Scores {
    var s := TableScores(traits);
    s.(protein := s.protein + CustomCount(traits) as real * 0.5)
  }

  function Max(a: real, b: real): real {
    if a >= b then a else b
  }

  function MaxScore(s: Scores): real {
    Max(Max(Max(s.plasmid, s.protein), s.rna), s.dna)
  }

  /** The fixed resolution: dna when nothing scored, else plasmid, protein, rna, dna in that priority. */
  function Winner(s: Scores): StructureType {
    var m := MaxScore(s);
    if m == 0.0 then Dna
    else if s.plasmid == m then Plasmid
    else if s.protein == m then Protein
    else if s.rna == m then Rna
    else Dna
  }

  /** The structure type `determineStructureType(traits)` returns. */
  function StructureOf(traits: seq<string>): StructureType {
    Winner(FinalScores(traits))
  }

  predicate NonNegative(s: Scores) {
    s.plasmid >= 0.0 && s.protein >= 0.0 && s.rna >= 0.0 && s.dna >= 0.0
  }

  /** Scores never go below zero. */
  lemma {:induction false} ScoresNonNegative(traits: seq<string>)
    ensures NonNegative(TableScores(traits)) && NonNegative(FinalScores(traits))
  {
    if traits != [] {
      ScoresNonNegative(traits[..|traits| - 1]);
    }
  }

  lemma TableScoresStep(traits: seq<string>, i: nat)
    requires i < |traits|
    ensures TableScores(traits[..i + 1]) == Add(TableScores(traits[..i]), TraitScores(traits[i]))
  {
    assert traits[..i + 1][..i] == traits[..i];
  }

  /** `determineStructureType`: the scoring loop and the winner selection. */
  method DetermineStructureType(traits: seq<string>) returns (r: StructureType)
    ensures r == StructureOf(traits)
  {
    var plasmidScore, proteinScore, rnaScore, dnaScore := 0.0, 0.0, 0.0, 0.0;
    var i := 0;
    while i < |traits|
      invariant 0 <= i <= |traits|
      invariant Scores(plasmidScore, proteinScore, rnaScore, dnaScore) == TableScores(traits[..i])
    {
      TableScoresStep(traits, i);
      var cleanTrait := StripTag(traits[i]);
      if cleanTrait in PlasmidTraits { plasmidScore := plasmidScore + 1.0; }
      if cleanTrait in ProteinTraits { proteinScore := proteinScore + 1.0; }
      if cleanTrait in RnaTraits { rnaScore := rnaScore + 1.0; }
      if cleanTrait in DnaTraits { dnaScore := dnaScore + 1.0; }
      i := i + 1;
    }
    assert traits[..i] == traits;
    proteinScore := proteinScore + CustomCount(traits) as real * 0.5;
    var maxScore := Max(Max(Max(plasmidScore, proteinScore), rnaScore), dnaScore);
    if maxScore == 0.0 { return Dna; }
    if plasmidScore == maxScore { return Plasmid; }
    if proteinScore == maxScore { return Protein; }
    if rnaScore == maxScore { return Rna; }
    return Dna;
  }

  /**
   * The winner, characterised without the if-chain: a type wins iff it
   * reaches a positive maximum and no type before it in the priority
   * order plasmid, protein, rna reaches it; dna wins otherwise.
   */
  lemma WinnerByPriority(s: Scores)
    requires NonNegative(s)
    ensures Winner(s) == Plasmid <==>
              s.plasmid > 0.0 && s.plasmid >= s.protein && s.plasmid >= s.rna && s.plasmid >= s.dna
    ensures Winner(s) == Protein <==>
              s.protein > 0.0 && s.protein > s.plasmid && s.protein >= s.rna && s.protein >= s.dna
    ensures Winner(s) == Rna <==>
              s.rna > 0.0 && s.rna > s.plasmid && s.rna > s.protein && s.rna >= s.dna
    ensures Winner(s) == Dna <==>
              (s.plasmid == 0.0 && s.protein == 0.0 && s.rna == 0.0 && s.dna == 0.0)
              || (s.dna > s.plasmid && s.dna > s.protein && s.dna > s.rna)
  {
  }

  /** A trait list none of whose entries is tagged or listed in a table leaves every score at 0. */
  lemma {:induction false} UnknownTraitsScoreZero(traits: seq<string>)
    requires forall k :: 0 <= k < |traits| ==>
               !StartsWith(traits[k], CustomTag)
               && StripTag(traits[k]) !in PlasmidTraits && StripTag(traits[k]) !in ProteinTraits
               && StripTag(traits[k]) !in RnaTraits && StripTag(traits[k]) !in DnaTraits
    ensures FinalScores(traits) == Scores(0.0, 0.0, 0.0, 0.0)
  {
    if traits != [] {
      UnknownTraitsScoreZero(traits[..|traits| - 1]);
    }
  }

  /** With every score at 0 the result is dna, in particular for the empty list and for unknown names. */
  lemma UnknownTraitsGiveDna(traits: seq<string>)
    requires forall k :: 0 <= k < |traits| ==>
               !StartsWith(traits[k], CustomTag)
               && StripTag(traits[k]) !in PlasmidTraits && StripTag(traits[k]) !in ProteinTraits
               && StripTag(traits[k]) !in RnaTraits && StripTag(traits[k]) !in DnaTraits
    ensures StructureOf(traits) == Dna
  {
    UnknownTraitsScoreZero(traits);
  }

  /** The dna result: all scores 0, or dna alone reaching the maximum. */
  lemma DnaIffNothingElseWins(traits: seq<string>)
    ensures StructureOf(traits) == Dna <==>
              MaxScore(FinalScores(traits)) == 0.0
              || (FinalScores(traits).plasmid < MaxScore(FinalScores(traits))
                  && FinalScores(traits).protein < MaxScore(FinalScores(traits))
                  && FinalScores(traits).rna < MaxScore(FinalScores(traits)))
  {
  }

  lemma SingletonTableScores(t: string)
    ensures TableScores([t]) == TraitScores(t)
  {
    assert [t][..0] == [];
  }

  /** An untagged trait scores 1 in each table listing it. */
  lemma UntaggedTraitScores(t: string)
    requires ':' !in t
    ensures TraitScores(t) == Scores(Indicator(t in PlasmidTraits), Indicator(t in ProteinTraits),
                                     Indicator(t in RnaTraits), Indicator(t in DnaTraits))
  {
    StripTagNoColon(t);
  }

  /** A string without a colon does not start with the tag. */
  lemma NoColonNotTagged(t: string)
    requires ':' !in t
    ensures !StartsWith(t, CustomTag)
  {
    if |t| >= 7 {
      assert t[..7][6] == t[6] != CustomTag[6];
    }
  }

  /** An untagged trait earns no custom bonus. */
  lemma UntaggedCustomCount(t: string)
    requires ':' !in t
    ensures CustomCount([t]) == 0
  {
    NoColonNotTagged(t);
    assert [t][..0] == [];
  }

  /** A one-trait list without a colon scores 1 in each table listing it. */
  lemma UntaggedSingleScores(t: string)
    requires ':' !in t
    ensures FinalScores([t]) == Scores(Indicator(t in PlasmidTraits), Indicator(t in ProteinTraits),
                                       Indicator(t in RnaTraits), Indicator(t in DnaTraits))
  {
    UntaggedTraitScores(t);
    SingletonTableScores(t);
    UntaggedCustomCount(t);
  }

  /** A tagged trait scores its name in the tables. */
  lemma TaggedTraitScores(name: string)
    ensures TraitScores(CustomTag + name) ==
              Scores(Indicator(name in PlasmidTraits), Indicator(name in ProteinTraits),
                     Indicator(name in RnaTraits), Indicator(name in DnaTraits))
  {
    assert StartsWith(CustomTag + name, CustomTag);
    assert (CustomTag + name)[|CustomTag|..] == name;
  }

  lemma TaggedCustomCount(name: string)
    ensures CustomCount([CustomTag + name]) == 1
  {
    assert StartsWith(CustomTag + name, CustomTag);
    assert [CustomTag + name][..0] == [];
  }

  /** A one-trait list with a tagged trait scores what its name scores plus 0.5 protein. */
  lemma TaggedSingleScores(name: string)
    ensures FinalScores([CustomTag + name]) == Add(TraitScores(CustomTag + name), Scores(0.0, 0.5, 0.0, 0.0))
  {
    SingletonTableScores(CustomTag + name);
    TaggedCustomCount(name);
  }

  /** Appending one trait adds 1 to the count exactly when it carries the tag. */
  lemma CustomCountSnoc(ts: seq<string>, t: string)
    ensures CustomCount(ts + [t]) == CustomCount(ts) + (if StartsWith(t, CustomTag) then 1 else 0)
  {
    assert (ts + [t])[..|ts|] == ts;
  }

  lemma AppendCustomCount(ts: seq<string>, t: string)
    requires ':' !in t
    ensures CustomCount(ts + [t]) == CustomCount(ts)
  {
    NoColonNotTagged(t);
    assert (ts + [t])[..|ts|] == ts;
  }

  lemma AppendTableScores(ts: seq<string>, t: string)
    ensures TableScores(ts + [t]) == Add(TableScores(ts), TraitScores(t))
  {
    assert (ts + [t])[..|ts|] == ts;
  }

  /** Appending one untagged trait adds 1 in each table listing it. */
  lemma AppendUntaggedScores(ts: seq<string>, t: string)
    requires ':' !in t
    ensures FinalScores(ts + [t]) ==
              Add(FinalScores(ts), Scores(Indicator(t in PlasmidTraits), Indicator(t in ProteinTraits),
                                          Indicator(t in RnaTraits), Indicator(t in DnaTraits)))
  {
    UntaggedTraitScores(t);
    AppendCustomCount(ts, t);
    AppendTableScores(ts, t);
  }

  lemma PressureAdaptationTables(t: string)
    requires t == "Pressure Adaptation"
    ensures ':' !in t && t !in PlasmidTraits && t !in ProteinTraits && t !in RnaTraits && t in DnaTraits
  {
  }

  lemma SalinityToleranceTables(t: string)
    requires t == "Salinity Tolerance"
    ensures ':' !in t && t !in PlasmidTraits && t in ProteinTraits && t !in RnaTraits && t in DnaTraits
  {
  }

  lemma ThermophilicTables(t: string)
    requires t == "Thermophilic"
    ensures ':' !in t && t in PlasmidTraits && t !in ProteinTraits && t !in RnaTraits && t !in DnaTraits
  {
  }

  lemma SpiderSilkTables(t: string)
    requires t == "Spider Silk"
    ensures t !in PlasmidTraits && t in ProteinTraits && t !in RnaTraits && t !in DnaTraits
  {
  }

  lemma XTables(t: string)
    requires t == "X"
    ensures t !in PlasmidTraits && t !in ProteinTraits && t !in RnaTraits && t !in DnaTraits
  {
  }

  lemma BiofuelProductionTables(t: string)
    requires t == "Biofuel Production"
    ensures ':' !in t && t in PlasmidTraits && t !in ProteinTraits && t !in RnaTraits && t !in DnaTraits
  {
  }

  /** "Biofuel Production" is only in the plasmid table. */
  lemma BiofuelProductionIsPlasmid(traits: seq<string>)
    requires traits == ["Biofuel Production"]
    ensures StructureOf(traits) == Plasmid
  {
    BiofuelProductionTables(traits[0]);
    UntaggedSingleScores(traits[0]);
  }

  /** "Pressure Adaptation" is only in the dna table. */
  lemma PressureAdaptationIsDna()
    ensures FinalScores(["Pressure Adaptation"]) == Scores(0.0, 0.0, 0.0, 1.0)
    ensures StructureOf(["Pressure Adaptation"]) == Dna
  {
    PressureAdaptationTables("Pressure Adaptation");
    UntaggedSingleScores("Pressure Adaptation");
  }

  /** "Salinity Tolerance" is in the protein and the dna table; protein comes first. */
  lemma SalinityToleranceIsProtein(traits: seq<string>)
    requires traits == ["Salinity Tolerance"]
    ensures FinalScores(traits) == Scores(0.0, 1.0, 0.0, 1.0)
    ensures StructureOf(traits) == Protein
  {
    SalinityToleranceTables(traits[0]);
    UntaggedSingleScores(traits[0]);
    StructureFromScores(traits, Scores(0.0, 1.0, 0.0, 1.0));
  }

  lemma LoneCustomSteps()
    ensures FinalScores(["custom:X"]) == Add(TraitScores("custom:X"), Scores(0.0, 0.5, 0.0, 0.0))
    ensures TraitScores("custom:X") == Scores(0.0, 0.0, 0.0, 0.0)
  {
    assert CustomTag + "X" == "custom:X";
    XTables("X");
    TaggedTraitScores("X");
    TaggedSingleScores("X");
  }

  /** The structure follows from the final scores alone. */
  lemma StructureFromScores(traits: seq<string>, s: Scores)
    requires FinalScores(traits) == s
    ensures StructureOf(traits) == Winner(s)
  {
  }

  /** A lone unknown custom trait scores protein 0.5 and nothing else. */
  lemma LoneCustomScores()
    ensures FinalScores(["custom:X"]) == Scores(0.0, 0.5, 0.0, 0.0)
  {
    LoneCustomSteps();
  }

  /** ... and that 0.5 wins. */
  lemma LoneCustomIsProtein()
    ensures StructureOf(["custom:X"]) == Protein
  {
    LoneCustomScores();
    assert Winner(Scores(0.0, 0.5, 0.0, 0.0)) == Protein;
    StructureFromScores(["custom:X"], Scores(0.0, 0.5, 0.0, 0.0));
  }

  /** A table hit of 1 beats the 0.5 of a custom trait. */
  lemma CustomAndThermophilicScores()
    ensures FinalScores(["custom:X", "Thermophilic"]) == Scores(1.0, 0.5, 0.0, 0.0)
  {
    assert ["custom:X"] + ["Thermophilic"] == ["custom:X", "Thermophilic"];
    LoneCustomScores();
    AppendThermophilic(["custom:X"], "Thermophilic");
  }

  lemma AppendThermophilic(ts: seq<string>, t: string)
    requires t == "Thermophilic"
    ensures FinalScores(ts + [t]) == Add(FinalScores(ts), Scores(1.0, 0.0, 0.0, 0.0))
  {
    ThermophilicTables(t);
    AppendUntaggedScores(ts, t);
  }

  lemma CustomAndThermophilicIsPlasmid()
    ensures StructureOf(["custom:X", "Thermophilic"]) == Plasmid
  {
    CustomAndThermophilicScores();
    assert Winner(Scores(1.0, 0.5, 0.0, 0.0)) == Plasmid;
    StructureFromScores(["custom:X", "Thermophilic"], Scores(1.0, 0.5, 0.0, 0.0));
  }

  lemma CustomSpiderSilkSteps()
    ensures FinalScores(["custom:Spider Silk"]) == Add(TraitScores("custom:Spider Silk"), Scores(0.0, 0.5, 0.0, 0.0))
    ensures TraitScores("custom:Spider Silk") == Scores(0.0, 1.0, 0.0, 0.0)
  {
    assert CustomTag + "Spider Silk" == "custom:Spider Silk";
    SpiderSilkTables("Spider Silk");
    TaggedTraitScores("Spider Silk");
    TaggedSingleScores("Spider Silk");
  }

  /** A custom trait named after a protein-table entry scores 1 for the entry plus 0.5. */
  lemma CustomSpiderSilkScores()
    ensures FinalScores(["custom:Spider Silk"]) == Scores(0.0, 1.5, 0.0, 0.0)
  {
    CustomSpiderSilkSteps();
  }

  // ---------------------------------------------------------------------------
  // structureInfo and the placeholder colour, lines 392-403 and 522-551
  // ---------------------------------------------------------------------------

  /** The display fields of `structureInfo` (the icon and Chinese name are not modelled). */
  datatype StructureInfo = StructureInfo(name: string, description: string, color: string)

  function Info(t: StructureType): (r: StructureInfo)
    ensures r.name != "" && r.description != ""
  {
    match t
    case Dna => StructureInfo("DNA Double Helix", "Classic B-form DNA structure for genetic storage",
                              "from-cyan-500 to-purple-500")
    case Rna => StructureInfo("RNA Structure", "Single-stranded RNA with secondary hairpin structures",
                              "from-orange-500 to-amber-500")
    case Protein => StructureInfo("Protein Fold", "3D folded protein with alpha helices and beta sheets",
                                  "from-pink-500 to-purple-500")
    case Plasmid => StructureInfo("Circular Plasmid", "Circular DNA for bacterial genetic engineering",
                                  "from-cyan-500 to-blue-500")
  }

  /** Every structure type has its own name on screen. */
  lemma InfoNamesDistinct(a: StructureType, b: StructureType)
    ensures Info(a).name == Info(b).name <==> a == b
  {
  }

  /** `getPlaceholder().color` of `EmptyState`. */
  function PlaceholderColor(t: StructureType): (r: string)
    ensures |r| == 7 && r[0] == '#'
    ensures forall k :: 1 <= k < 7 ==> r[k] in "0123456789abcdef"
  {
    match t
    case Rna => "#ff9800"
    case Protein => "#e91e63"
    case Plasmid => "#00e5ff"
    case Dna => "#7c4dff"
  }

  /** The empty state tells the four types apart by colour. */
  lemma PlaceholderColorsDistinct(a: StructureType, b: StructureType)
    ensures PlaceholderColor(a) == PlaceholderColor(b) <==> a == b
  {
  }

  /** The bases the legend lists: U replaces T for rna, and protein shows a text instead. */
  function LegendBases(t: StructureType): (r: string)
    ensures t == Rna ==> 'T' !in r && 'U' in r
    ensures t == Protein <==> r == []
    ensures t == Dna || t == Plasmid ==> forall k :: 0 <= k < |r| ==> Complement(r[k]) in r
  {
    match t
    case Rna => "AUGC"
    case Protein => ""
    case _ => "ATGC"
  }

  // ---------------------------------------------------------------------------
  // The dispatcher of GeneticStructure3D, lines 562-580
  // ---------------------------------------------------------------------------

  /** What `renderStructure()` draws. */
  datatype Scene =
    | EmptyState(placeholder: StructureType)
    | DnaHelixView(sequence: string)
    | RnaView(sequence: string)
    | ProteinView(sequence: string)
    | PlasmidView(sequence: string)

  function Dispatch(sequence: Option<string>, structureType: StructureType, isGenerating: bool): (r: Scene)
    ensures r.EmptyState? <==> !Truthy(sequence) || isGenerating
    ensures r.EmptyState? ==> r.placeholder == structureType
    ensures !r.EmptyState? ==> r.sequence == sequence.value && |r.sequence| > 0
    ensures !r.EmptyState? ==>
              (r.RnaView? <==> structureType == Rna)
              && (r.ProteinView? <==> structureType == Protein)
              && (r.PlasmidView? <==> structureType == Plasmid)
              && (r.DnaHelixView? <==> structureType == Dna)
  {
    if !Truthy(sequence) || isGenerating then EmptyState(structureType)
    else match structureType
      case Rna => RnaView(sequence.value)
      case Protein => ProteinView(sequence.value)
      case Plasmid => PlasmidView(sequence.value)
      case Dna => DnaHelixView(sequence.value)
  }

  // ---------------------------------------------------------------------------
  // The integer parts of the four renderers
  // ---------------------------------------------------------------------------

  /** A point of a path: its coordinates are a function of index, path length and phase. */
  datatype Point = Point(index: nat, count: nat, phase: nat)

  /** `complementary[base] || "A"`. */
  function Complement(c: char): (r: char)
    ensures r in "ATGC"
    ensures c !in "ATGC" ==> r == 'A'
  {
    match c
    case 'A' => 'T'
    case 'T' => 'A'
    case 'G' => 'C'
    case 'C' => 'G'
    case _ => 'A'
  }

  /** On the four bases the complement is an involution without fixed points. */
  lemma ComplementInvolution(c: char)
    requires c in "ATGC"
    ensures Complement(Complement(c)) == c && Complement(c) != c
  {
  }

  /** `s.slice(0, n)`. */
  function Prefix(s: string, n: nat): (r: string)
    ensures |r| == if |s| < n then |s| else n
    ensures r <= s
  {
    if |s| <= n then s else s[..n]
  }

  /** The loop building the points of a path of `n` points with the given phase. */
  method PathPoints(n: nat, phase: nat) returns (pts: seq<Point>)
    ensures |pts| == n
    ensures forall i :: 0 <= i < n ==> pts[i] == Point(i, n, phase)
  {
    pts := [];
    var i := 0;
    while i < n
      invariant 0 <= i <= n && |pts| == i
      invariant forall k :: 0 <= k < i ==> pts[k] == Point(k, n, phase)
    {
      pts := pts + [Point(i, n, phase)];
      i := i + 1;
    }
  }

  /** A drawn base pair: the base, its partner and whether a connecting rung is drawn. */
  datatype BasePair = BasePair(base: char, partner: char, rung: bool)

  /** The double helix of `DNAHelixStructure`. */
  datatype HelixScene = HelixScene(display: string, strands: seq<seq<Point>>, pairs: seq<BasePair>)

  method DnaHelixStructure(sequence: string) returns (scene: HelixScene)
    ensures scene.display == Prefix(sequence, 60)
    ensures |scene.strands| == 2
    ensures forall s :: 0 <= s < 2 ==> |scene.strands[s]| == |scene.display|
                                       && forall i :: 0 <= i < |scene.display| ==> scene.strands[s][i].phase == s
    ensures |scene.pairs| == |scene.display|
    ensures forall i :: 0 <= i < |scene.pairs| ==>
              scene.pairs[i].base == sequence[i]
              && scene.pairs[i].partner == Complement(sequence[i])
              && (scene.pairs[i].rung <==> i % 3 == 0)
  {
    var display := Prefix(sequence, 60);
    var first := PathPoints(|display|, 0);
    var second := PathPoints(|display|, 1);
    var pairs := seq(|display|, i requires 0 <= i < |display| =>
                     BasePair(display[i], Complement(display[i]), i % 3 == 0));
    scene := HelixScene(display, [first, second], pairs);
  }

  /** `sequence.slice(0, 80).replace(/T/g, "U")`. */
  function RnaSequence(sequence: string): (r: string)
    ensures |r| == |Prefix(sequence, 80)|
    ensures 'T' !in r
    ensures forall i :: 0 <= i < |r| ==> (r[i] == 'U' <==> sequence[i] == 'T' || sequence[i] == 'U')
    ensures forall i :: 0 <= i < |r| && sequence[i] != 'T' ==> r[i] == sequence[i]
  {
    var p := Prefix(sequence, 80);
    seq(|p|, i requires 0 <= i < |p| => if p[i] == 'T' then 'U' else p[i])
  }

  /** `Math.floor(t * n)` for the hairpin fractions 0.25, 0.5, 0.75, with the `idx >= n` ones dropped. */
  function HairpinIndices(n: nat): (r: seq<nat>)
    ensures forall k :: 0 <= k < |r| ==> r[k] < n
    ensures n > 0 ==> r == [n / 4, n / 2, 3 * n / 4]
    ensures n == 0 ==> r == []
  {
    if n == 0 then [] else [n / 4, n / 2, 3 * n / 4]
  }

  /** The single strand of `RNAStructure`: its points, hairpin loops and the 5' and 3' end markers. */
  datatype RnaScene = RnaScene(bases: string, points: seq<Point>, hairpins: seq<nat>, fivePrime: Point, threePrime: Point)

  /** The markers read `points[0]` and `points[n - 1]`: the view needs a non-empty sequence. */
  method RnaStructure(sequence: string) returns (scene: RnaScene)
    requires |sequence| > 0
    ensures scene.bases == RnaSequence(sequence) && 'T' !in scene.bases
    ensures |scene.points| == |scene.bases| > 0
    ensures forall k :: 0 <= k < |scene.hairpins| ==> scene.hairpins[k] < |scene.points|
    ensures scene.fivePrime == scene.points[0] && scene.threePrime == scene.points[|scene.points| - 1]
    ensures scene.fivePrime.index == 0 && scene.threePrime.index == |scene.bases| - 1
  {
    var rna := RnaSequence(sequence);
    var pts := PathPoints(|rna|, 0);
    scene := RnaScene(rna, pts, HairpinIndices(|pts|), pts[0], pts[|pts| - 1]);
  }

  const AminoPaletteSize: nat := 15

  /** A residue sphere: its path point and its palette index. */
  datatype Residue = Residue(point: Point, palette: nat)

  /** The fold of `ProteinStructure`: residues, the two helix and two sheet markers and the active site. */
  datatype ProteinScene = ProteinScene(residues: seq<Residue>, helices: seq<nat>, sheets: seq<nat>, activeSite: nat)

  /** `Math.min(Math.floor(aminoCount), 40)` residues for 3 bases each. */
  function DisplayCount(len: nat): (r: nat)
    ensures r <= 40 && 3 * r <= len
    ensures r == 40 || r == len / 3
  {
    if len / 3 < 40 then len / 3 else 40
  }

  /** `foldingPath[Math.min(Math.floor(t * n), n - 1)]`, with `t` the tenths 2, 4, 6 or 8. */
  function MarkerIndex(tenths: nat, n: nat): (r: nat)
    requires n > 0 && tenths < 10
    ensures r < n
  {
    if n * tenths / 10 < n - 1 then n * tenths / 10 else n - 1
  }

  /**
   * The markers index the fold path, so the view needs at least one residue,
   * that is a sequence of at least 3 bases.
   */
  method ProteinStructure(sequence: string) returns (scene: ProteinScene)
    requires |sequence| >= 3
    ensures |scene.residues| == DisplayCount(|sequence|) > 0
    ensures forall i :: 0 <= i < |scene.residues| ==>
              scene.residues[i].point.index == i && scene.residues[i].palette == i % AminoPaletteSize
    ensures |scene.helices| == 2 && |scene.sheets| == 2
    ensures forall k :: 0 <= k < 2 ==> scene.helices[k] < |scene.residues| && scene.sheets[k] < |scene.residues|
    ensures scene.activeSite == |scene.residues| / 2 < |scene.residues|
  {
    var n := DisplayCount(|sequence|);
    var path := PathPoints(n, 0);
    var residues := seq(|path|, i requires 0 <= i < |path| => Residue(path[i], i % AminoPaletteSize));
    scene := ProteinScene(residues, [MarkerIndex(2, n), MarkerIndex(6, n)],
                          [MarkerIndex(4, n), MarkerIndex(8, n)], n / 2);
  }

  /** `Math.min(Math.min(sequence.length, 100), 36)`: how many base pairs the ring shows. */
  function PlasmidPairCount(len: nat): (r: nat)
    ensures r <= len && r <= 36
    ensures r == len || r == 36
  {
    var displayLength := if len < 100 then len else 100;
    if displayLength < 36 then displayLength else 36
  }

  /** The base pair drawn at position `i` of the ring. */
  function PlasmidPair(sequence: string, i: nat): (r: BasePair)
    requires i < |sequence|
    ensures r.base == sequence[i] && r.partner == Complement(sequence[i]) && (r.rung <==> i % 2 == 0)
  {
    ModBelow(i, |sequence|);
    var base := sequence[i % |sequence|];
    BasePair(base, Complement(base), i % 2 == 0)
  }

  /** `Array.from({ length: count }).map(...)`, the base pairs around the ring of `PlasmidStructure`. */
  function PlasmidPairs(sequence: string): (r: seq<BasePair>)
    ensures |r| == PlasmidPairCount(|sequence|)
    ensures forall i :: 0 <= i < |r| ==> r[i] == PlasmidPair(sequence, i)
  {
    var count := PlasmidPairCount(|sequence|);
    seq(count, i requires 0 <= i < count => PlasmidPair(sequence, i))
  }

  lemma ModBelow(i: nat, n: nat)
    requires i < n
    ensures i % n == i
  {
  }
}
