/**
 * The trait catalogue of lib/traits-data.ts and its query helpers.
 * The catalogue is constant data; the helpers are `flatMap`, `find` and
 * `some` over it, stated here over any list of categories and then
 * instantiated at the catalogue.
 */
module TraitsData {
  import opened JsStrings

  /** One catalogue trait (colour, source organism, mechanism and reference links are not modelled). */
  datatype Trait = Trait(name: string, description: string, gene: string, chineseName: string)

  /** One catalogue category (icon and colour are not modelled). */
  datatype TraitCategory = TraitCategory(id: string, name: string, chineseName: string,
                                         description: string, traits: seq<Trait>)

  /** `traitCategories`, lib/traits-data.ts:30-1192. */
  const Categories: seq<TraitCategory> := [
    TraitCategory("extremophile", "Extremophile", "極端微生物",
      "Survive extreme environments like Mars or Europa", [
      Trait("Thermophilic",
        "Survives extreme heat up to 122°C via heat shock proteins that refold denatured proteins",
        "HSP70", "嗜熱"),
      Trait("Radioresistance",
        "Withstands 5,000+ Gy radiation via efficient DNA repair mechanisms",
        "RecA/DdrB", "耐輻射"),
      Trait("Psychrophilic",
        "Active metabolism at -20°C via cold-adapted enzymes and antifreeze compounds",
        "CspA/AFP", "嗜冷"),
      Trait("Halophilic",
        "Thrives in 25%+ salt concentration via compatible solute accumulation",
        "OsmC/BetA", "嗜鹽"),
      Trait("Acidophilic",
        "Survives pH < 3 via proton pumps and acid-stable membrane proteins",
        "AtpB/Slp", "嗜酸"),
      Trait("Barophilic",
        "Functions at 1,100+ atm pressure via pressure-resistant proteins",
        "OmpH/TorA", "嗜壓"),
      Trait("Desiccation Resistance",
        "Survives complete dehydration via trehalose glass formation",
        "LEA/TPS", "抗乾燥"),
      Trait("Alkaliphilic",
        "Grows at pH 10+ via sodium-dependent energy coupling",
        "MrpA/AtpD", "嗜鹼")
    ]),
    TraitCategory("plant", "Plant", "植物特性",
      "Photosynthesis, growth, and plant adaptations", [
      Trait("C4 Photosynthesis",
        "35% more efficient CO₂ fixation via spatial separation of carbon capture",
        "PEPC/PPDK", "C4光合作用"),
      Trait("CAM Photosynthesis",
        "Nocturnal CO₂ capture for extreme water conservation",
        "PEPC/MDH", "CAM光合作用"),
      Trait("Drought Resistance",
        "Survives 6+ months without water via ABA-mediated stomatal closure",
        "DREB2A/P5CS", "抗旱"),
      Trait("Nitrogen Fixation",
        "Converts atmospheric N₂ to bioavailable ammonia",
        "nifHDK", "固氮"),
      Trait("Rapid Cell Division",
        "10x faster growth via accelerated cell cycle",
        "CycD3/CDK", "快速生長"),
      Trait("Deep Root System",
        "Roots penetrate 20+ meters for deep water access",
        "DRO1/DEEPER1", "深根系"),
      Trait("UV-B Protection",
        "Produces flavonoid sunscreen compounds absorbing 280-315nm",
        "CHS/F3H", "紫外防護"),
      Trait("Salinity Tolerance",
        "Grows in seawater (3.5% salt) via ion compartmentalization",
        "SOS1/NHX1", "耐鹽")
    ]),
    TraitCategory("marine", "Marine", "海洋生物",
      "Adaptations from ocean-dwelling organisms", [
      Trait("Bioluminescence",
        "Produces blue-green light (480nm) via luciferin-luciferase reaction",
        "LUC/GFP", "生物發光"),
      Trait("Pressure Adaptation",
        "Functions at 11,000m depth (1,100 atm) in hadal zones",
        "TMAO/PV", "深海適應"),
      Trait("Jet Propulsion",
        "Rapid water expulsion for 25+ km/h movement",
        "MYH/TnI", "噴射推進"),
      Trait("Ink Production",
        "Melanin-based defensive cloud + tyrosinase toxins",
        "TYR/DCT", "墨汁生產"),
      Trait("Electric Organ",
        "Generates 600V bioelectric discharge for defense/hunting",
        "SCN4A/KCNA", "電器官"),
      Trait("Coral Symbiosis",
        "Hosts photosynthetic zooxanthellae for energy",
        "NPC2/CAH", "珊瑚共生"),
      Trait("Chromatophore System",
        "Instant color/texture change for camouflage",
        "OCA2/MITF", "色素細胞系統"),
      Trait("Osmoregulation",
        "Maintains internal salinity in fresh/saltwater",
        "AQP/NKCC", "滲透調節")
    ]),
    TraitCategory("insect", "Insect", "昆蟲特性",
      "Highly efficient insect biological systems", [
      Trait("Exoskeleton",
        "Chitin-based armor 5x stronger than steel by weight",
        "CHS1/KNK", "外骨骼"),
      Trait("Compound Eyes",
        "360° vision with 30,000 ommatidia detecting UV + polarized light",
        "RH1/NorpA", "複眼"),
      Trait("Metamorphosis",
        "Complete body restructuring via imaginal disc development",
        "EcR/USP", "變態發育"),
      Trait("Flight Muscles",
        "200Hz wingbeat via asynchronous flight muscle",
        "MHC/TnC", "飛行肌"),
      Trait("Pheromone Communication",
        "Chemical signaling detectable at 10km distance",
        "OR/OBP", "費洛蒙通訊"),
      Trait("Hive Mind Behavior",
        "Collective decision-making via waggle dance communication",
        "FOR/AMFOR", "蜂群智能"),
      Trait("Venom Synthesis",
        "Complex neurotoxin cocktail for prey immobilization",
        "PLA2/SVSP", "毒液合成"),
      Trait("Super Strength",
        "Lifts 1,141x body weight via optimized muscle attachment",
        "ACT/MYO", "超級力量")
    ]),
    TraitCategory("fungal", "Fungal", "真菌特性",
      "Mycelium networks and decomposition systems", [
      Trait("Mycelium Network",
        "Forms km-scale underground network transferring nutrients",
        "HYD/MYC1", "菌絲網絡"),
      Trait("Lignin Decomposition",
        "Breaks down wood via manganese peroxidase enzymes",
        "LiP/MnP", "木質素分解"),
      Trait("Mycorrhizal Symbiosis",
        "90% of plant species benefit from fungal nutrient exchange",
        "SYM/PT", "菌根共生"),
      Trait("Spore Dormancy",
        "Spores remain viable for 250+ million years",
        "SPO/TRE", "孢子休眠"),
      Trait("Antibiotic Production",
        "Synthesizes penicillin-class β-lactam antibiotics",
        "PCBAB/IPNS", "抗生素生產"),
      Trait("Plastic Degradation",
        "Breaks down polyurethane and polyethylene",
        "PETase/MHETase", "塑膠降解"),
      Trait("Psychedelic Compounds",
        "Produces psilocybin affecting serotonin receptors",
        "PsiD/PsiK", "致幻化合物")
    ]),
    TraitCategory("synthetic", "Synthetic", "合成特性",
      "Engineered pathways and biosensors", [
      Trait("Biosensor (Arsenic)",
        "Detects 10 ppb arsenic via GFP reporter system",
        "ArsR/GFP", "砷生物感測器"),
      Trait("Bioplastic (PHA)",
        "Produces biodegradable polyhydroxyalkanoate polymers",
        "phaCAB", "PHA生物塑料"),
      Trait("Heavy Metal Bioremediation",
        "Accumulates Cd, Pb, Hg via metallothionein binding",
        "MT/phyC", "重金屬修復"),
      Trait("Biofuel Production",
        "Converts glucose to isobutanol at 22g/L titer",
        "kivD/ADH", "生物燃料"),
      Trait("CRISPR Self-Repair",
        "Autonomous genome editing for damage correction",
        "Cas9/gRNA", "CRISPR自修復"),
      Trait("Quorum Sensing",
        "Population-density dependent gene activation",
        "LuxI/LuxR", "群體感應"),
      Trait("Genetic Kill Switch",
        "Programmed cell death outside containment",
        "CcdB/CcdA", "基因殺死開關"),
      Trait("Carbon Capture Enhanced",
        "10x CO₂ fixation via synthetic RuBisCO variants",
        "RbcL+/PRK", "碳捕獲增強")
    ]),
    TraitCategory("animal", "Animal", "動物特性",
      "Traits from the animal kingdom", [
      Trait("Limb Regeneration",
        "Regrows complete limbs via dedifferentiation + blastema",
        "WNT/FGF/BMP", "肢體再生"),
      Trait("Antifreeze Proteins",
        "Prevents ice crystal growth at -6°C via thermal hysteresis",
        "AFP-III/AFGP", "抗凍蛋白"),
      Trait("Spider Silk",
        "Tensile strength 1.1 GPa, stronger than steel",
        "MaSp1/MaSp2", "蜘蛛絲"),
      Trait("Echolocation",
        "Ultrasonic navigation at 200kHz with 0.3mm resolution",
        "Prestin/CDH23", "回聲定位"),
      Trait("Hibernation",
        "Metabolic rate drops 98% for 6+ months survival",
        "UCP1/HP", "冬眠"),
      Trait("Infrared Vision",
        "Detects thermal radiation 0.001°C sensitivity",
        "TRPA1/TRPV1", "紅外線視覺"),
      Trait("Magnetic Navigation",
        "Senses Earth's magnetic field for 10,000km migration",
        "CRY4/MagR", "磁場導航"),
      Trait("Venomous Bite",
        "Neurotoxic cocktail for prey immobilization",
        "3FTx/PLA2", "毒咬")
    ]),
    TraitCategory("chemosynthetic", "Chemosynthetic", "化能合成",
      "Derive energy from chemical reactions, not sunlight", [
      Trait("Sulfur Oxidation",
        "Generates ATP from H₂S oxidation at hydrothermal vents",
        "SoxB/DsrAB", "硫氧化"),
      Trait("Iron Oxidation",
        "Extracts energy from Fe²⁺ to Fe³⁺ conversion",
        "Cyc2/MtoA", "鐵氧化"),
      Trait("Hydrogen Metabolism",
        "Uses H₂ as sole energy source via hydrogenase",
        "HupL/HoxH", "氫代謝"),
      Trait("Methane Oxidation",
        "Consumes CH₄ as carbon and energy source",
        "pMMO/sMMO", "甲烷氧化"),
      Trait("Ammonia Oxidation",
        "Nitrification pathway for energy from NH₃",
        "AmoA/HAO", "氨氧化"),
      Trait("Arsenite Oxidation",
        "Detoxifies arsenic while gaining energy",
        "AioA/AoxB", "亞砷酸氧化")
    ]),
    TraitCategory("immune", "Immune Defense", "免疫防禦",
      "Pathogen resistance and immune mechanisms", [
      Trait("CRISPR Immunity",
        "Adaptive immune memory against viral DNA",
        "Cas9/Cas12", "CRISPR免疫"),
      Trait("Antimicrobial Peptides",
        "Broad-spectrum defensins disrupt pathogen membranes",
        "DEF/CAMP", "抗菌肽"),
      Trait("Antiviral RNA Silencing",
        "siRNA pathway destroys viral RNA genomes",
        "DCL2/AGO2", "抗病毒RNA沉默"),
      Trait("Oxidative Burst",
        "Generates reactive oxygen species to kill pathogens",
        "RBOHD/NOX", "氧化爆發"),
      Trait("Hypersensitive Response",
        "Rapid programmed cell death to contain infection",
        "NBS-LRR/R", "過敏反應"),
      Trait("Systemic Acquired Resistance",
        "Whole-organism immunity after local infection",
        "NPR1/PR1", "系統性獲得抗性")
    ]),
    TraitCategory("neural", "Neural/Sensory", "神經感知",
      "Advanced nervous system and sensory capabilities", [
      Trait("Electroreception",
        "Detects bioelectric fields at 0.01 μV/cm sensitivity",
        "CaV1.3/BK", "電感知"),
      Trait("Distributed Neural Network",
        "500M neurons in tentacles for autonomous limb control",
        "Oct-POU/Hox", "分散神經網絡"),
      Trait("Photoreceptor Diversity",
        "16 types of color receptors (vs human 3) for UV to IR vision",
        "RH1-16/Arr", "光感受器多樣性"),
      Trait("Magnetoreception",
        "Navigates using Earth's magnetic field inclination",
        "CRY1/IscA", "磁感知"),
      Trait("Lateral Line System",
        "Detects water movement and pressure changes",
        "Atoh1/Cav1.3", "側線系統"),
      Trait("Rapid Learning",
        "Enhanced synaptic plasticity for fast adaptation",
        "BDNF/CREB", "快速學習")
    ])
  ]

  /** The trait names of `Categories`, row by row; `NameTableMatches` ties the two together. */
  const NameTable: seq<seq<string>> := [
    ["Thermophilic", "Radioresistance", "Psychrophilic", "Halophilic", "Acidophilic", "Barophilic", "Desiccation Resistance", "Alkaliphilic"],
    ["C4 Photosynthesis", "CAM Photosynthesis", "Drought Resistance", "Nitrogen Fixation", "Rapid Cell Division", "Deep Root System", "UV-B Protection", "Salinity Tolerance"],
    ["Bioluminescence", "Pressure Adaptation", "Jet Propulsion", "Ink Production", "Electric Organ", "Coral Symbiosis", "Chromatophore System", "Osmoregulation"],
    ["Exoskeleton", "Compound Eyes", "Metamorphosis", "Flight Muscles", "Pheromone Communication", "Hive Mind Behavior", "Venom Synthesis", "Super Strength"],
    ["Mycelium Network", "Lignin Decomposition", "Mycorrhizal Symbiosis", "Spore Dormancy", "Antibiotic Production", "Plastic Degradation", "Psychedelic Compounds"],
    ["Biosensor (Arsenic)", "Bioplastic (PHA)", "Heavy Metal Bioremediation", "Biofuel Production", "CRISPR Self-Repair", "Quorum Sensing", "Genetic Kill Switch", "Carbon Capture Enhanced"],
    ["Limb Regeneration", "Antifreeze Proteins", "Spider Silk", "Echolocation", "Hibernation", "Infrared Vision", "Magnetic Navigation", "Venomous Bite"],
    ["Sulfur Oxidation", "Iron Oxidation", "Hydrogen Metabolism", "Methane Oxidation", "Ammonia Oxidation", "Arsenite Oxidation"],
    ["CRISPR Immunity", "Antimicrobial Peptides", "Antiviral RNA Silencing", "Oxidative Burst", "Hypersensitive Response", "Systemic Acquired Resistance"],
    ["Electroreception", "Distributed Neural Network", "Photoreceptor Diversity", "Magnetoreception", "Lateral Line System", "Rapid Learning"]
  ]

  // ---------------------------------------------------------------------------
  // The helpers, over any list of categories
  // ---------------------------------------------------------------------------

  /** `cs.flatMap(category => category.traits)`. */
  function Flatten(cs: seq<TraitCategory>): seq<Trait>
  {
    if cs == [] then [] else cs[0].traits + Flatten(cs[1..])
  }

  /** The per-category trait counts, summed. */
  function TraitSum(cs: seq<TraitCategory>): nat
  {
    if cs == [] then 0 else |cs[0].traits| + TraitSum(cs[1..])
  }

  /** `ts.some(trait => trait.name === n)`. */
  predicate HasName(ts: seq<Trait>, n: string) {
    exists k :: 0 <= k < |ts| && ts[k].name == n
  }

  /** `ts.find(trait => trait.name === n)`. */
  function FindTrait(ts: seq<Trait>, n: string): (r: Option<Trait>)
    ensures r.None? <==> !HasName(ts, n)
    ensures r.Some? ==> exists k :: 0 <= k < |ts| && ts[k] == r.value && r.value.name == n
                                   && forall j :: 0 <= j < k ==> ts[j].name != n
  {
    if ts == [] then None
    else if ts[0].name == n then Some(ts[0])
    else
      var r := FindTrait(ts[1..], n);
      assert HasName(ts, n) ==> HasName(ts[1..], n) by {
        if HasName(ts, n) {
          var k :| 0 <= k < |ts| && ts[k].name == n;
          assert ts[1..][k - 1].name == n;
        }
      }
      if r.Some? then
        var k :| 0 <= k < |ts[1..]| && ts[1..][k] == r.value && r.value.name == n
                 && forall j :: 0 <= j < k ==> ts[1..][j].name != n;
        assert ts[k + 1] == r.value;
        assert forall j :: 0 <= j < k + 1 ==> ts[j].name != n by {
          forall j | 1 <= j < k + 1 ensures ts[j].name != n { assert ts[j] == ts[1..][j - 1]; }
        }
        r
      else
        assert !HasName(ts[1..], n);
        r
  }

  /** `cs.find(category => category.traits.some(trait => trait.name === n))`. */
  function FindCategory(cs: seq<TraitCategory>, n: string): (r: Option<TraitCategory>)
    ensures r.None? <==> forall c :: 0 <= c < |cs| ==> !HasName(cs[c].traits, n)
    ensures r.Some? ==> exists c :: 0 <= c < |cs| && cs[c] == r.value && HasName(r.value.traits, n)
                                   && forall d :: 0 <= d < c ==> !HasName(cs[d].traits, n)
  {
    if cs == [] then None
    else if HasName(cs[0].traits, n) then Some(cs[0])
    else
      var r := FindCategory(cs[1..], n);
      assert forall c :: 1 <= c < |cs| ==> cs[c] == cs[1..][c - 1];
      if r.Some? then
        var c :| 0 <= c < |cs[1..]| && cs[1..][c] == r.value && HasName(r.value.traits, n)
                 && forall d :: 0 <= d < c ==> !HasName(cs[1..][d].traits, n);
        assert cs[c + 1] == r.value;
        r
      else r
  }

  /** The flattened list is as long as all the categories together. */
  lemma {:induction false} FlattenLength(cs: seq<TraitCategory>)
    ensures |Flatten(cs)| == TraitSum(cs)
  {
    if cs != [] { FlattenLength(cs[1..]); }
  }

  /** Trait `i` of category `c` sits after the traits of the categories before `c`: the order is kept. */
  lemma {:induction false} FlattenPosition(cs: seq<TraitCategory>, c: int, i: int)
    requires 0 <= c < |cs| && 0 <= i < |cs[c].traits|
    ensures TraitSum(cs[..c]) + i < |Flatten(cs)|
    ensures Flatten(cs)[TraitSum(cs[..c]) + i] == cs[c].traits[i]
  {
    FlattenLength(cs[1..]);
    if c > 0 {
      FlattenPosition(cs[1..], c - 1, i);
      assert cs[..c][1..] == cs[1..][..c - 1];
    }
  }

  /** A trait is in the flattened list iff some category lists it. */
  lemma {:induction false} FlattenMember(cs: seq<TraitCategory>, t: Trait)
    ensures t in Flatten(cs) <==> exists c :: 0 <= c < |cs| && t in cs[c].traits
  {
    if cs != [] {
      FlattenMember(cs[1..], t);
      assert forall c :: 1 <= c < |cs| ==> cs[c] == cs[1..][c - 1];
      if t in Flatten(cs[1..]) {
        var c :| 0 <= c < |cs[1..]| && t in cs[1..][c].traits;
        assert t in cs[c + 1].traits;
      }
    }
  }

  /** Finding in a concatenation: the left part is searched first. */
  lemma {:induction false} FindTraitAppend(a: seq<Trait>, b: seq<Trait>, n: string)
    ensures FindTrait(a + b, n) == if HasName(a, n) then FindTrait(a, n) else FindTrait(b, n)
  {
    if a != [] {
      assert (a + b)[1..] == a[1..] + b;
      FindTraitAppend(a[1..], b, n);
      if a[0].name != n {
        assert HasName(a, n) <==> HasName(a[1..], n) by {
          if HasName(a, n) {
            var k :| 0 <= k < |a| && a[k].name == n;
            assert a[1..][k - 1].name == n;
          }
          if HasName(a[1..], n) {
            var k :| 0 <= k < |a[1..]| && a[1..][k].name == n;
            assert a[k + 1].name == n;
          }
        }
      } else {
        assert a[0].name == n;
        assert HasName(a, n);
      }
    } else {
      assert a + b == b;
    }
  }

  /**
   * Searching the flattened list finds a trait exactly when searching the
   * categories finds one, and the trait found is the first match within the
   * category found.
   */
  lemma {:induction false} FindThroughFlatten(cs: seq<TraitCategory>, n: string)
    ensures FindTrait(Flatten(cs), n).Some? <==> FindCategory(cs, n).Some?
    ensures FindCategory(cs, n).Some? ==>
              FindTrait(Flatten(cs), n) == FindTrait(FindCategory(cs, n).value.traits, n)
  {
    if cs != [] {
      FindTraitAppend(cs[0].traits, Flatten(cs[1..]), n);
      FindThroughFlatten(cs[1..], n);
    }
  }

  /** No two traits in the list share a name. */
  predicate DistinctNames(ts: seq<Trait>) {
    forall i, j :: 0 <= i < j < |ts| ==> ts[i].name != ts[j].name
  }

  /** No two traits of one category share a name, and no two categories share a trait name. */
  predicate DistinctInCatalogue(cs: seq<TraitCategory>) {
    && (forall c :: 0 <= c < |cs| ==> DistinctNames(cs[c].traits))
    && (forall c, d, i, j :: 0 <= c < d < |cs| && 0 <= i < |cs[c].traits| && 0 <= j < |cs[d].traits| ==>
          cs[c].traits[i].name != cs[d].traits[j].name)
  }

  lemma {:induction false} FlattenDistinct(cs: seq<TraitCategory>)
    requires DistinctInCatalogue(cs)
    ensures DistinctNames(Flatten(cs))
  {
    if cs != [] {
      var a, b := cs[0].traits, Flatten(cs[1..]);
      assert forall c :: 1 <= c < |cs| ==> cs[c] == cs[1..][c - 1];
      FlattenDistinct(cs[1..]);
      forall i, j | 0 <= i < |a| && 0 <= j < |b| ensures a[i].name != b[j].name {
        FlattenMember(cs[1..], b[j]);
        var d :| 0 <= d < |cs[1..]| && b[j] in cs[1..][d].traits;
        var k :| 0 <= k < |cs[d + 1].traits| && cs[d + 1].traits[k] == b[j];
      }
      forall i, j | 0 <= i < j < |a + b| ensures (a + b)[i].name != (a + b)[j].name {
        if j < |a| {
          assert DistinctNames(cs[0].traits);
        } else if i >= |a| {
          assert (a + b)[i] == b[i - |a|] && (a + b)[j] == b[j - |a|];
        } else {
          assert (a + b)[j] == b[j - |a|];
        }
      }
    }
  }

  /** In a catalogue with distinct names, a listed trait is what a search for its name returns. */
  lemma {:induction false} FindTraitUnique(ts: seq<Trait>, k: int)
    requires DistinctNames(ts) && 0 <= k < |ts|
    ensures FindTrait(ts, ts[k].name) == Some(ts[k])
  {
    var r := FindTrait(ts, ts[k].name);
    assert HasName(ts, ts[k].name);
    var m :| 0 <= m < |ts| && ts[m] == r.value && r.value.name == ts[k].name
             && forall j :: 0 <= j < m ==> ts[j].name != ts[k].name;
    if m < k { assert ts[m].name != ts[k].name; }
  }

  // ---------------------------------------------------------------------------
  // The helpers at the catalogue, lib/traits-data.ts:1195-1219
  // ---------------------------------------------------------------------------

  /** `getAllTraits()`. */
  function AllTraits(): seq<Trait> {
    Flatten(Categories)
  }

  /** `getTraitByName(n)`: a trait named exactly `n`, or nothing when no trait has that name. */
  function TraitByName(n: string): (r: Option<Trait>)
    ensures r.Some? ==> r.value in AllTraits() && r.value.name == n
    ensures r.None? <==> forall t :: t in AllTraits() ==> t.name != n
  {
    FindTrait(AllTraits(), n)
  }

  /** `getCategoryByTraitName(n)`: the first category listing a trait named `n`. */
  function CategoryByTraitName(n: string): (r: Option<TraitCategory>)
    ensures r.Some? ==> r.value in Categories && HasName(r.value.traits, n)
    ensures r.None? <==> forall c :: c in Categories ==> !HasName(c.traits, n)
  {
    FindCategory(Categories, n)
  }

  /** `getTotalTraitCount()`. */
  function TotalTraitCount(): nat {
    |AllTraits()|
  }

  /** `getCategoryCount()`. */
  function CategoryCount(): nat {
    |Categories|
  }

  /** The name table lists the names of the catalogue, category by category. */
  lemma NameTableMatches()
    ensures |Categories| == |NameTable|
    ensures forall c, i :: 0 <= c < |Categories| && 0 <= i < |Categories[c].traits| ==>
              i < |NameTable[c]| && Categories[c].traits[i].name == NameTable[c][i]
    ensures forall c :: 0 <= c < |Categories| ==> |Categories[c].traits| == |NameTable[c]|
  {
  }

  /** The catalogue has 10 categories. */
  lemma CategoryCountIsTen()
    ensures CategoryCount() == 10
  {
  }

  /** The catalogue has 73 traits, the sum of the per-category counts. */
  lemma TotalTraitCountIs73()
    ensures TotalTraitCount() == TraitSum(Categories) == 73
  {
    FlattenLength(Categories);
  }

  /** Names within one row of the name table differ. */
  lemma NameTableRowsDistinct()
    ensures forall c, i, j :: 0 <= c < |NameTable| && 0 <= i < j < |NameTable[c]| ==>
              NameTable[c][i] != NameTable[c][j]
  {
  }

  lemma NameTableRow0Distinct()
    ensures forall d, i, j :: 0 < d < |NameTable| && 0 <= i < |NameTable[0]| && 0 <= j < |NameTable[d]| ==>
              NameTable[0][i] != NameTable[d][j]
  {
  }

  lemma NameTableRow1Distinct()
    ensures forall d, i, j :: 1 < d < |NameTable| && 0 <= i < |NameTable[1]| && 0 <= j < |NameTable[d]| ==>
              NameTable[1][i] != NameTable[d][j]
  {
  }

  lemma NameTableRow2Distinct()
    ensures forall d, i, j :: 2 < d < |NameTable| && 0 <= i < |NameTable[2]| && 0 <= j < |NameTable[d]| ==>
              NameTable[2][i] != NameTable[d][j]
  {
  }

  lemma NameTableRow3Distinct()
    ensures forall d, i, j :: 3 < d < |NameTable| && 0 <= i < |NameTable[3]| && 0 <= j < |NameTable[d]| ==>
              NameTable[3][i] != NameTable[d][j]
  {
  }

  lemma NameTableRow4Distinct()
    ensures forall d, i, j :: 4 < d < |NameTable| && 0 <= i < |NameTable[4]| && 0 <= j < |NameTable[d]| ==>
              NameTable[4][i] != NameTable[d][j]
  {
  }

  lemma NameTableRow5Distinct()
    ensures forall d, i, j :: 5 < d < |NameTable| && 0 <= i < |NameTable[5]| && 0 <= j < |NameTable[d]| ==>
              NameTable[5][i] != NameTable[d][j]
  {
  }

  lemma NameTableRow6Distinct()
    ensures forall d, i, j :: 6 < d < |NameTable| && 0 <= i < |NameTable[6]| && 0 <= j < |NameTable[d]| ==>
              NameTable[6][i] != NameTable[d][j]
  {
  }

  lemma NameTableRow7Distinct()
    ensures forall d, i, j :: 7 < d < |NameTable| && 0 <= i < |NameTable[7]| && 0 <= j < |NameTable[d]| ==>
              NameTable[7][i] != NameTable[d][j]
  {
  }

  lemma NameTableRow8Distinct()
    ensures forall d, i, j :: 8 < d < |NameTable| && 0 <= i < |NameTable[8]| && 0 <= j < |NameTable[d]| ==>
              NameTable[8][i] != NameTable[d][j]
  {
  }

  /** Names in different rows of the name table differ. */
  lemma NameTableAcrossDistinct()
    ensures forall c, d, i, j :: 0 <= c < d < |NameTable| && 0 <= i < |NameTable[c]| && 0 <= j < |NameTable[d]| ==>
              NameTable[c][i] != NameTable[d][j]
  {
    forall c, d, i, j | 0 <= c < d < |NameTable| && 0 <= i < |NameTable[c]| && 0 <= j < |NameTable[d]|
      ensures NameTable[c][i] != NameTable[d][j]
    {
      if c == 0 { NameTableRow0Distinct(); }
      else if c == 1 { NameTableRow1Distinct(); }
      else if c == 2 { NameTableRow2Distinct(); }
      else if c == 3 { NameTableRow3Distinct(); }
      else if c == 4 { NameTableRow4Distinct(); }
      else if c == 5 { NameTableRow5Distinct(); }
      else if c == 6 { NameTableRow6Distinct(); }
      else if c == 7 { NameTableRow7Distinct(); }
      else if c == 8 { NameTableRow8Distinct(); }
    }
  }

  /** No two traits of the catalogue share a name, within a category or across two. */
  lemma CatalogueDistinct()
    ensures DistinctInCatalogue(Categories)
  {
    NameTableMatches();
    NameTableRowsDistinct();
    NameTableAcrossDistinct();
  }

  /** Trait names are pairwise distinct in `getAllTraits()`. */
  lemma AllTraitsDistinct()
    ensures DistinctNames(AllTraits())
  {
    CatalogueDistinct();
    FlattenDistinct(Categories);
  }

  /** Every catalogue trait is what `getTraitByName` returns for its name: the trait found is unique. */
  lemma TraitByNameUnique(t: Trait)
    requires t in AllTraits()
    ensures TraitByName(t.name) == Some(t)
  {
    AllTraitsDistinct();
    var k :| 0 <= k < |AllTraits()| && AllTraits()[k] == t;
    FindTraitUnique(AllTraits(), k);
  }

  /** `getTraitByName(n)` is defined iff `getCategoryByTraitName(n)` is. */
  lemma TraitIffCategory(n: string)
    ensures TraitByName(n).Some? <==> CategoryByTraitName(n).Some?
  {
    FindThroughFlatten(Categories, n);
  }

  /** The trait `getTraitByName` finds belongs to the category `getCategoryByTraitName` finds. */
  lemma TraitInItsCategory(n: string)
    requires CategoryByTraitName(n).Some?
    ensures TraitByName(n).Some? && TraitByName(n).value in CategoryByTraitName(n).value.traits
  {
    FindThroughFlatten(Categories, n);
  }
}
