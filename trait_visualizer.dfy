/**
 * The 3D trait preview: which scene the preview panel shows for the trait
 * under the mouse, the last selected trait or the first selected one, and
 * the counting structure of two of the scenes (the hexagonal facets of
 * the compound-eye scene and the branching filaments of the mycelium
 * scene). Geometry, materials and animation are not modelled.
 */
module TraitVisualizer {
  import opened JsStrings
  import TraitsData

  /** The base scenes; every entry of the table shows one of them. */
  datatype Model =
      AcidophilicModel
    | AlkaliphilicModel
    | AmmoniaOxidationModel
    | AntifreezeProteinModel
    | ArseniteOxidationModel
    | BarophilicModel
    | BiofilmResistanceModel
    | BioluminescenceModel
    | BioplasticProductionModel
    | BiosensorModel
    | C4PhotosynthesisModel
    | CamouflageModel
    | ChromatophoreSystemModel
    | CompoundEyesModel
    | CoralSymbiosisModel
    | DeepRootModel
    | DesiccationResistanceModel
    | DroughtResistanceModel
    | ElectricOrganModel
    | ExoskeletonModel
    | FastGrowthModel
    | FlightMusclesModel
    | HalophilicModel
    | HiveMindBehaviorModel
    | HydrogenMetabolismModel
    | InkProductionModel
    | IronOxidationModel
    | JetPropulsionModel
    | LigninDecompositionModel
    | MetalAccumulationModel
    | MetamorphosisModel
    | MethaneOxidationModel
    | MyceliumNetworkModel
    | NitrogenFixationModel
    | OsmoregulationModel
    | OxygenProductionModel
    | PheromoneCommunicationModel
    | PressureAdaptationModel
    | PsychrophilicModel
    | RadioresistanceModel
    | RegenerationModel
    | SelfRepairModel
    | SilkProductionModel
    | SporeFormationModel
    | SulfurOxidationModel
    | SuperStrengthModel
    | SymbiosisModel
    | ThermophilicModel
    | UVProtectionModel
    | VenomSynthesisModel

  /**
   * The fingerprint of a key: its length and its first and last characters.
   * Keys of different groups mostly differ in it, which lets a lookup skip a
   * group without comparing the key with each of its entries.
   */
  function Fingerprint(key: string): (int, char, char)
    requires key != []
  {
    (|key|, key[0], key[|key| - 1])
  }

  /** The Extremophile entries of the table, with their legacy names. */
  function ExtremophileModels(key: string): (r: Option<Model>)
    ensures r.Some? ==> |key| > 0 && 'A' <= key[0] <= 'Z'
    ensures r.Some? ==> Fingerprint(key) in {(10, 'B', 'c'), (10, 'H', 'c'), (11, 'A', 'c'), (12, 'A', 'c'), (12, 'T', 'c'), (13, 'P', 'c'), (15, 'R', 'e'), (22, 'D', 'e')}
  {
    match key
    case "Thermophilic" => Some(ThermophilicModel)
    case "Radioresistance" => Some(RadioresistanceModel)
    case "Psychrophilic" => Some(PsychrophilicModel)
    case "Halophilic" => Some(HalophilicModel)
    case "Acidophilic" => Some(AcidophilicModel)
    case "Barophilic" => Some(BarophilicModel)
    case "Desiccation Resistance" => Some(DesiccationResistanceModel)
    case "Alkaliphilic" => Some(AlkaliphilicModel)
    case _ => None
  }

  /** The Plant entries of the table, with their legacy names. */
  function PlantModels(key: string): (r: Option<Model>)
    ensures r.Some? ==> |key| > 0 && 'A' <= key[0] <= 'Z'
    ensures r.Some? ==> Fingerprint(key) in {(9, 'D', 't'), (11, 'F', 'h'), (13, 'U', 'n'), (15, 'U', 'n'), (16, 'D', 'm'), (17, 'C', 's'), (17, 'N', 'n'), (18, 'C', 's'), (18, 'D', 'e'), (18, 'S', 'e'), (19, 'R', 'n')}
  {
    match key
    case "C4 Photosynthesis" => Some(C4PhotosynthesisModel)
    case "CAM Photosynthesis" => Some(C4PhotosynthesisModel)
    case "Drought Resistance" => Some(DroughtResistanceModel)
    case "Nitrogen Fixation" => Some(NitrogenFixationModel)
    case "Rapid Cell Division" => Some(FastGrowthModel)
    case "Deep Root System" => Some(DeepRootModel)
    case "UV-B Protection" => Some(UVProtectionModel)
    case "Salinity Tolerance" => Some(HalophilicModel)
    case "Fast Growth" => Some(FastGrowthModel)
    case "Deep Root" => Some(DeepRootModel)
    case "UV Protection" => Some(UVProtectionModel)
    case _ => None
  }

  /** The Marine entries of the table, with their legacy names. */
  function MarineModels(key: string): (r: Option<Model>)
    ensures r.Some? ==> |key| > 0 && 'A' <= key[0] <= 'Z'
    ensures r.Some? ==> Fingerprint(key) in {(14, 'E', 'n'), (14, 'I', 'n'), (14, 'J', 'n'), (14, 'O', 'n'), (15, 'B', 'e'), (15, 'C', 's'), (19, 'P', 'n'), (20, 'C', 'm')}
  {
    match key
    case "Bioluminescence" => Some(BioluminescenceModel)
    case "Pressure Adaptation" => Some(PressureAdaptationModel)
    case "Jet Propulsion" => Some(JetPropulsionModel)
    case "Ink Production" => Some(InkProductionModel)
    case "Electric Organ" => Some(ElectricOrganModel)
    case "Coral Symbiosis" => Some(CoralSymbiosisModel)
    case "Chromatophore System" => Some(ChromatophoreSystemModel)
    case "Osmoregulation" => Some(OsmoregulationModel)
    case _ => None
  }

  /** The Insect entries of the table, with their legacy names. */
  function InsectModels(key: string): (r: Option<Model>)
    ensures r.Some? ==> |key| > 0 && 'A' <= key[0] <= 'Z'
    ensures r.Some? ==> Fingerprint(key) in {(11, 'E', 'n'), (13, 'C', 's'), (13, 'M', 's'), (14, 'F', 's'), (14, 'S', 'h'), (15, 'V', 's'), (18, 'H', 'r'), (23, 'P', 'n')}
  {
    match key
    case "Exoskeleton" => Some(ExoskeletonModel)
    case "Compound Eyes" => Some(CompoundEyesModel)
    case "Metamorphosis" => Some(MetamorphosisModel)
    case "Flight Muscles" => Some(FlightMusclesModel)
    case "Pheromone Communication" => Some(PheromoneCommunicationModel)
    case "Hive Mind Behavior" => Some(HiveMindBehaviorModel)
    case "Venom Synthesis" => Some(VenomSynthesisModel)
    case "Super Strength" => Some(SuperStrengthModel)
    case _ => None
  }

  /** The Fungal entries of the table, with their legacy names. */
  function FungalModels(key: string): (r: Option<Model>)
    ensures r.Some? ==> |key| > 0 && 'A' <= key[0] <= 'Z'
    ensures r.Some? ==> Fingerprint(key) in {(9, 'S', 's'), (14, 'S', 'y'), (15, 'S', 'n'), (16, 'M', 'k'), (19, 'P', 'n'), (20, 'L', 'n'), (21, 'A', 'n'), (21, 'M', 's'), (21, 'P', 's')}
  {
    match key
    case "Mycelium Network" => Some(MyceliumNetworkModel)
    case "Lignin Decomposition" => Some(LigninDecompositionModel)
    case "Mycorrhizal Symbiosis" => Some(SymbiosisModel)
    case "Spore Dormancy" => Some(SporeFormationModel)
    case "Antibiotic Production" => Some(BioplasticProductionModel)
    case "Plastic Degradation" => Some(LigninDecompositionModel)
    case "Psychedelic Compounds" => Some(BioluminescenceModel)
    case "Symbiosis" => Some(SymbiosisModel)
    case "Spore Formation" => Some(SporeFormationModel)
    case _ => None
  }

  /** The Synthetic entries of the table, with their legacy names. */
  function SyntheticModels(key: string): (r: Option<Model>)
    ensures r.Some? ==> |key| > 0 && 'A' <= key[0] <= 'Z'
    ensures r.Some? ==> Fingerprint(key) in {(9, 'B', 'r'), (11, 'S', 'r'), (14, 'Q', 'g'), (16, 'B', ')'), (17, 'O', 'n'), (18, 'B', 'e'), (18, 'B', 'n'), (18, 'C', 'r'), (18, 'M', 'n'), (19, 'B', ')'), (19, 'G', 'h'), (21, 'B', 'n'), (23, 'C', 'd'), (26, 'H', 'n')}
  {
    match key
    case "Biosensor (Arsenic)" => Some(BiosensorModel)
    case "Bioplastic (PHA)" => Some(BioplasticProductionModel)
    case "Heavy Metal Bioremediation" => Some(MetalAccumulationModel)
    case "Biofuel Production" => Some(OxygenProductionModel)
    case "CRISPR Self-Repair" => Some(SelfRepairModel)
    case "Quorum Sensing" => Some(BiosensorModel)
    case "Genetic Kill Switch" => Some(SelfRepairModel)
    case "Carbon Capture Enhanced" => Some(C4PhotosynthesisModel)
    case "Biosensor" => Some(BiosensorModel)
    case "Bioplastic Production" => Some(BioplasticProductionModel)
    case "Metal Accumulation" => Some(MetalAccumulationModel)
    case "Oxygen Production" => Some(OxygenProductionModel)
    case "Self-Repair" => Some(SelfRepairModel)
    case "Biofilm Resistance" => Some(BiofilmResistanceModel)
    case _ => None
  }

  /** The Animal entries of the table, with their legacy names. */
  function AnimalModels(key: string): (r: Option<Model>)
    ensures r.Some? ==> |key| > 0 && 'A' <= key[0] <= 'Z'
    ensures r.Some? ==> Fingerprint(key) in {(10, 'C', 'e'), (11, 'H', 'n'), (11, 'S', 'k'), (12, 'E', 'n'), (12, 'R', 'n'), (13, 'V', 'e'), (15, 'I', 'n'), (15, 'S', 'n'), (17, 'L', 'n'), (18, 'A', 'n'), (19, 'A', 's'), (19, 'M', 'n')}
  {
    match key
    case "Limb Regeneration" => Some(RegenerationModel)
    case "Antifreeze Proteins" => Some(AntifreezeProteinModel)
    case "Spider Silk" => Some(SilkProductionModel)
    case "Echolocation" => Some(BiosensorModel)
    case "Hibernation" => Some(PsychrophilicModel)
    case "Infrared Vision" => Some(BiosensorModel)
    case "Magnetic Navigation" => Some(BiosensorModel)
    case "Venomous Bite" => Some(VenomSynthesisModel)
    case "Regeneration" => Some(RegenerationModel)
    case "Antifreeze Protein" => Some(AntifreezeProteinModel)
    case "Silk Production" => Some(SilkProductionModel)
    case "Camouflage" => Some(CamouflageModel)
    case _ => None
  }

  /** The Chemosynthetic entries of the table, with their legacy names. */
  function ChemosyntheticModels(key: string): (r: Option<Model>)
    ensures r.Some? ==> |key| > 0 && 'A' <= key[0] <= 'Z'
    ensures r.Some? ==> Fingerprint(key) in {(14, 'I', 'n'), (16, 'S', 'n'), (17, 'A', 'n'), (17, 'M', 'n'), (18, 'A', 'n'), (19, 'H', 'm')}
  {
    match key
    case "Sulfur Oxidation" => Some(SulfurOxidationModel)
    case "Iron Oxidation" => Some(IronOxidationModel)
    case "Hydrogen Metabolism" => Some(HydrogenMetabolismModel)
    case "Methane Oxidation" => Some(MethaneOxidationModel)
    case "Ammonia Oxidation" => Some(AmmoniaOxidationModel)
    case "Arsenite Oxidation" => Some(ArseniteOxidationModel)
    case _ => None
  }

  /** The Immune Defense entries of the table, with their legacy names. */
  function ImmuneDefenseModels(key: string): (r: Option<Model>)
    ensures r.Some? ==> |key| > 0 && 'A' <= key[0] <= 'Z'
    ensures r.Some? ==> Fingerprint(key) in {(15, 'C', 'y'), (15, 'O', 't'), (22, 'A', 's'), (23, 'A', 'g'), (23, 'H', 'e'), (28, 'S', 'e')}
  {
    match key
    case "CRISPR Immunity" => Some(SelfRepairModel)
    case "Antimicrobial Peptides" => Some(VenomSynthesisModel)
    case "Antiviral RNA Silencing" => Some(SelfRepairModel)
    case "Oxidative Burst" => Some(OxygenProductionModel)
    case "Hypersensitive Response" => Some(VenomSynthesisModel)
    case "Systemic Acquired Resistance" => Some(BiofilmResistanceModel)
    case _ => None
  }

  /** The Neural/Sensory entries of the table, with their legacy names. */
  function NeuralSensoryModels(key: string): (r: Option<Model>)
    ensures r.Some? ==> |key| > 0 && 'A' <= key[0] <= 'Z'
    ensures r.Some? ==> Fingerprint(key) in {(14, 'R', 'g'), (16, 'E', 'n'), (16, 'M', 'n'), (19, 'L', 'm'), (23, 'P', 'y'), (26, 'D', 'k')}
  {
    match key
    case "Electroreception" => Some(ElectricOrganModel)
    case "Distributed Neural Network" => Some(MyceliumNetworkModel)
    case "Photoreceptor Diversity" => Some(CompoundEyesModel)
    case "Magnetoreception" => Some(BiosensorModel)
    case "Lateral Line System" => Some(OsmoregulationModel)
    case "Rapid Learning" => Some(BiosensorModel)
    case _ => None
  }

  /**
   * `traitModels[key]`: the scene registered under exactly this key, if any.
   * The table is one object literal; its entries are grouped here as in the
   * literal, and no key occurs in two groups.
   */
  function ModelFor(key: string): (r: Option<Model>)
    ensures r.Some? ==> |key| > 0 && 'A' <= key[0] <= 'Z'
  {
    if ExtremophileModels(key).Some? then ExtremophileModels(key) else
    if PlantModels(key).Some? then PlantModels(key) else
    if MarineModels(key).Some? then MarineModels(key) else
    if InsectModels(key).Some? then InsectModels(key) else
    if FungalModels(key).Some? then FungalModels(key) else
    if SyntheticModels(key).Some? then SyntheticModels(key) else
    if AnimalModels(key).Some? then AnimalModels(key) else
    if ChemosyntheticModels(key).Some? then ChemosyntheticModels(key) else
    if ImmuneDefenseModels(key).Some? then ImmuneDefenseModels(key) else
    NeuralSensoryModels(key)
  }

  /** A key has a scene exactly when one of the groups lists it. */
  lemma ModelForSome(key: string)
    ensures ModelFor(key).Some? <==>
      || ExtremophileModels(key).Some? || PlantModels(key).Some? || MarineModels(key).Some?
      || InsectModels(key).Some? || FungalModels(key).Some? || SyntheticModels(key).Some?
      || AnimalModels(key).Some? || ChemosyntheticModels(key).Some?
      || ImmuneDefenseModels(key).Some? || NeuralSensoryModels(key).Some?
  {
  }

  /** No key of the table starts with the custom tag, so a custom trait has no scene. */
  lemma CustomTraitHasNoModel(t: string)
    requires StartsWith(t, CustomTag)
    ensures ModelFor(t) == None
  {
    assert t[0] == CustomTag[0];
  }

  lemma Row0Covered()
    ensures forall i :: 0 <= i < |TraitsData.NameTable[0]| ==> ExtremophileModels(TraitsData.NameTable[0][i]).Some?
  {
  }

  lemma Row1Covered()
    ensures forall i :: 0 <= i < |TraitsData.NameTable[1]| ==> PlantModels(TraitsData.NameTable[1][i]).Some?
  {
  }

  lemma Row2Covered()
    ensures forall i :: 0 <= i < |TraitsData.NameTable[2]| ==> MarineModels(TraitsData.NameTable[2][i]).Some?
  {
  }

  lemma Row3Covered()
    ensures forall i :: 0 <= i < |TraitsData.NameTable[3]| ==> InsectModels(TraitsData.NameTable[3][i]).Some?
  {
  }

  lemma Row4Covered()
    ensures forall i :: 0 <= i < |TraitsData.NameTable[4]| ==> FungalModels(TraitsData.NameTable[4][i]).Some?
  {
  }

  lemma Row5Covered()
    ensures forall i :: 0 <= i < |TraitsData.NameTable[5]| ==> SyntheticModels(TraitsData.NameTable[5][i]).Some?
  {
  }

  lemma Row6Covered()
    ensures forall i :: 0 <= i < |TraitsData.NameTable[6]| ==> AnimalModels(TraitsData.NameTable[6][i]).Some?
  {
  }

  lemma Row7Covered()
    ensures forall i :: 0 <= i < |TraitsData.NameTable[7]| ==> ChemosyntheticModels(TraitsData.NameTable[7][i]).Some?
  {
  }

  lemma Row8Covered()
    ensures forall i :: 0 <= i < |TraitsData.NameTable[8]| ==> ImmuneDefenseModels(TraitsData.NameTable[8][i]).Some?
  {
  }

  lemma Row9Covered()
    ensures forall i :: 0 <= i < |TraitsData.NameTable[9]| ==> NeuralSensoryModels(TraitsData.NameTable[9][i]).Some?
  {
  }

  /** Every name of the name table has a scene. */
  lemma NameTableCovered()
    ensures forall c, i :: 0 <= c < |TraitsData.NameTable| && 0 <= i < |TraitsData.NameTable[c]| ==>
              ModelFor(TraitsData.NameTable[c][i]).Some?
  {
    forall c, i | 0 <= c < |TraitsData.NameTable| && 0 <= i < |TraitsData.NameTable[c]|
      ensures ModelFor(TraitsData.NameTable[c][i]).Some?
    {
      if c == 0 { Row0Covered(); }
      if c == 1 { Row1Covered(); }
      if c == 2 { Row2Covered(); }
      if c == 3 { Row3Covered(); }
      if c == 4 { Row4Covered(); }
      if c == 5 { Row5Covered(); }
      if c == 6 { Row6Covered(); }
      if c == 7 { Row7Covered(); }
      if c == 8 { Row8Covered(); }
      if c == 9 { Row9Covered(); }
      ModelForSome(TraitsData.NameTable[c][i]);
    }
  }

  /** Categories whose names are those of the name table have a scene for every trait. */
  lemma CoveredByNames(cs: seq<TraitsData.TraitCategory>)
    requires |cs| == |TraitsData.NameTable|
    requires forall c, i :: 0 <= c < |cs| && 0 <= i < |cs[c].traits| ==>
               i < |TraitsData.NameTable[c]| && cs[c].traits[i].name == TraitsData.NameTable[c][i]
    ensures forall t :: t in TraitsData.Flatten(cs) ==> ModelFor(t.name).Some?
  {
    NameTableCovered();
    forall t | t in TraitsData.Flatten(cs) ensures ModelFor(t.name).Some? {
      TraitsData.FlattenMember(cs, t);
      var c :| 0 <= c < |cs| && t in cs[c].traits;
      var i :| 0 <= i < |cs[c].traits| && cs[c].traits[i] == t;
    }
  }

  /** Every trait of the catalogue has a scene in the table. */
  lemma EveryCatalogueTraitHasModel()
    ensures forall t :: t in TraitsData.AllTraits() ==> ModelFor(t.name).Some?
  {
    TraitsData.NameTableMatches();
    CoveredByNames(TraitsData.Categories);
  }

  /** A key of the Plant group that no earlier group lists is looked up there. */
  lemma PlantLookup(key: string)
    requires PlantModels(key).Some?
    requires ExtremophileModels(key).None?
    ensures ModelFor(key) == PlantModels(key)
  {
  }

  /** A key of the Synthetic group that no earlier group lists is looked up there. */
  lemma SyntheticLookup(key: string)
    requires SyntheticModels(key).Some?
    requires ExtremophileModels(key).None?
    requires PlantModels(key).None?
    requires MarineModels(key).None?
    requires InsectModels(key).None?
    requires FungalModels(key).None?
    ensures ModelFor(key) == SyntheticModels(key)
  {
  }

  /** A key of the ImmuneDefense group that no earlier group lists is looked up there. */
  lemma ImmuneDefenseLookup(key: string)
    requires ImmuneDefenseModels(key).Some?
    requires ExtremophileModels(key).None?
    requires PlantModels(key).None?
    requires MarineModels(key).None?
    requires InsectModels(key).None?
    requires FungalModels(key).None?
    requires SyntheticModels(key).None?
    requires AnimalModels(key).None?
    requires ChemosyntheticModels(key).None?
    ensures ModelFor(key) == ImmuneDefenseModels(key)
  {
  }

  // The legacy names and the aliases reach the same scenes as the names they stand for.

  lemma FastGrowthScene(key: string)
    requires key == "Fast Growth"
    ensures ModelFor(key) == Some(FastGrowthModel)
  {
    assert Fingerprint(key) == (11, 'F', 'h');
    PlantLookup(key);
  }

  lemma RapidCellDivisionScene(key: string)
    requires key == "Rapid Cell Division"
    ensures ModelFor(key) == Some(FastGrowthModel)
  {
    assert Fingerprint(key) == (19, 'R', 'n');
    PlantLookup(key);
  }

  lemma DeepRootScene(key: string)
    requires key == "Deep Root"
    ensures ModelFor(key) == Some(DeepRootModel)
  {
    assert Fingerprint(key) == (9, 'D', 't');
    PlantLookup(key);
  }

  lemma DeepRootSystemScene(key: string)
    requires key == "Deep Root System"
    ensures ModelFor(key) == Some(DeepRootModel)
  {
    assert Fingerprint(key) == (16, 'D', 'm');
    PlantLookup(key);
  }

  lemma SelfRepairScene(key: string)
    requires key == "Self-Repair"
    ensures ModelFor(key) == Some(SelfRepairModel)
  {
    assert Fingerprint(key) == (11, 'S', 'r');
    SyntheticLookup(key);
  }

  lemma CrisprSelfRepairScene(key: string)
    requires key == "CRISPR Self-Repair"
    ensures ModelFor(key) == Some(SelfRepairModel)
  {
    assert Fingerprint(key) == (18, 'C', 'r');
    SyntheticLookup(key);
  }

  lemma GeneticKillSwitchScene(key: string)
    requires key == "Genetic Kill Switch"
    ensures ModelFor(key) == Some(SelfRepairModel)
  {
    assert Fingerprint(key) == (19, 'G', 'h');
    SyntheticLookup(key);
  }

  lemma CrisprImmunityScene(key: string)
    requires key == "CRISPR Immunity"
    ensures ModelFor(key) == Some(SelfRepairModel)
  {
    assert Fingerprint(key) == (15, 'C', 'y');
    ImmuneDefenseLookup(key);
  }

  lemma AntiviralRnaSilencingScene(key: string)
    requires key == "Antiviral RNA Silencing"
    ensures ModelFor(key) == Some(SelfRepairModel)
  {
    assert Fingerprint(key) == (23, 'A', 'g');
    ImmuneDefenseLookup(key);
  }

  // ---------------------------------------------------------------------------
  // Which trait is previewed, components/trait-visualizer-3d.tsx:2434-2448
  // ---------------------------------------------------------------------------

  /**
   * `activePreview || lastSelected || selectedTraits[0]`: the hovered trait,
   * else the last selected one, else the first selected one. An empty string
   * is falsy and falls through; an empty selection leaves `undefined`.
   */
  function DisplayTrait(activePreview: Option<string>, lastSelected: Option<string>,
                        selectedTraits: seq<string>): (r: Option<string>)
    ensures Truthy(r) <==> Truthy(activePreview) || Truthy(lastSelected) || (selectedTraits != [] && selectedTraits[0] != "")
    ensures Truthy(activePreview) ==> r == activePreview
    ensures !Truthy(activePreview) && Truthy(lastSelected) ==> r == lastSelected
    ensures !Truthy(activePreview) && !Truthy(lastSelected) && Truthy(r) ==> r == Some(selectedTraits[0])
  {
    if Truthy(activePreview) then activePreview
    else if Truthy(lastSelected) then lastSelected
    else if selectedTraits != [] then Some(selectedTraits[0])
    else None
  }

  /** What the preview panel shows. */
  datatype View = Placeholder | Showing(name: string, model: Model)

  /** The text of the placeholder view. */
  const PlaceholderText: string := "Select a trait to see 3D visualization"

  /** `TraitVisualizer3D`: the scene of the displayed trait, or the placeholder when it has none. */
  function Preview(activePreview: Option<string>, lastSelected: Option<string>,
                   selectedTraits: seq<string>): (v: View)
    ensures v.Showing? <==> var d := DisplayTrait(activePreview, lastSelected, selectedTraits);
                            Truthy(d) && ModelFor(d.value).Some?
    ensures v.Showing? ==> Some(v.name) == DisplayTrait(activePreview, lastSelected, selectedTraits)
                           && ModelFor(v.name) == Some(v.model)
  {
    var d := DisplayTrait(activePreview, lastSelected, selectedTraits);
    if Truthy(d) && ModelFor(d.value).Some? then Showing(d.value, ModelFor(d.value).value)
    else Placeholder
  }

  /** Nothing hovered, nothing last selected and nothing selected: the placeholder. */
  lemma NothingSelectedIsPlaceholder(activePreview: Option<string>, lastSelected: Option<string>)
    requires !Truthy(activePreview) && !Truthy(lastSelected)
    ensures Preview(activePreview, lastSelected, []) == Placeholder
  {
  }

  /**
   * A custom trait that was selected last hides the scenes of the other
   * selected traits: when nothing is hovered the panel shows the placeholder,
   * whatever else is selected.
   */
  lemma CustomLastSelectedIsPlaceholder(lastSelected: string, selectedTraits: seq<string>)
    requires StartsWith(lastSelected, CustomTag)
    ensures Preview(None, Some(lastSelected), selectedTraits) == Placeholder
  {
    CustomTraitHasNoModel(lastSelected);
  }

  /** Hovering a catalogue trait always shows its scene, whatever is selected. */
  lemma HoveredCatalogueTraitShown(t: TraitsData.Trait, lastSelected: Option<string>, selectedTraits: seq<string>)
    requires t in TraitsData.AllTraits() && t.name != ""
    ensures Preview(Some(t.name), lastSelected, selectedTraits).Showing?
    ensures Preview(Some(t.name), lastSelected, selectedTraits).name == t.name
  {
    EveryCatalogueTraitHasModel();
  }

  // ---------------------------------------------------------------------------
  // The facets of the compound-eye scene, components/trait-visualizer-3d.tsx:1751-1762
  // ---------------------------------------------------------------------------

  /** One facet: its ring, its place on the ring and the ring's facet count; the angle is `index / count` of a turn. */
  datatype Facet = Facet(ring: nat, index: nat, count: nat)

  /** `ring === 0 ? 1 : ring * 6`. */
  function RingSize(ring: nat): nat {
    if ring == 0 then 1 else ring * 6
  }

  /** The facets of rings `0 .. rings - 1`, ring by ring, each ring in angle order. */
  function Facets(rings: nat): seq<Facet> {
    if rings == 0 then []
    else Facets(rings - 1) + seq(RingSize(rings - 1), i requires 0 <= i < RingSize(rings - 1) =>
                                   Facet(rings - 1, i, RingSize(rings - 1)))
  }

  /** `rings` rings hold the centred hexagonal number of facets: 1, 7, 19, 37, ... */
  lemma {:induction false} FacetsCount(rings: nat)
    ensures |Facets(rings)| == if rings == 0 then 0 else 3 * rings * (rings - 1) + 1
  {
    if rings > 0 {
      FacetsCount(rings - 1);
    }
  }

  /**
   * The facets are listed ring by ring and, on a ring, by increasing angle, so no
   * position repeats; every facet lies on one of the rings and within its count.
   */
  lemma {:induction false} FacetsOrdered(rings: nat)
    ensures forall k :: 0 <= k < |Facets(rings)| ==>
              Facets(rings)[k].ring < rings && Facets(rings)[k].count == RingSize(Facets(rings)[k].ring)
              && Facets(rings)[k].index < Facets(rings)[k].count
    ensures forall j, k :: 0 <= j < k < |Facets(rings)| ==>
              Facets(rings)[j].ring < Facets(rings)[k].ring
              || (Facets(rings)[j].ring == Facets(rings)[k].ring && Facets(rings)[j].index < Facets(rings)[k].index)
  {
    if rings > 0 {
      FacetsOrdered(rings - 1);
    }
  }

  /** `hexPositions`: the facets of rings 0 to 3, 37 of them. */
  method HexPositions() returns (positions: seq<Facet>)
    ensures positions == Facets(4)
    ensures |positions| == 37
  {
    positions := [];
    for ring := 0 to 4
      invariant positions == Facets(ring)
    {
      var count := if ring == 0 then 1 else ring * 6;
      for i := 0 to count
        invariant positions == Facets(ring) + seq(i, j requires 0 <= j < i => Facet(ring, j, count))
      {
        positions := positions + [Facet(ring, i, count)];
      }
    }
    FacetsCount(4);
  }

  // ---------------------------------------------------------------------------
  // The filaments of the mycelium scene, components/trait-visualizer-3d.tsx:727-756
  // ---------------------------------------------------------------------------

  /** One filament: the root it grows from and its depth. Its direction is random and not modelled. */
  datatype Branch = Branch(root: nat, depth: nat)

  /** The filaments `addBranch(start, direction, depth)` pushes, in push order. */
  function Subtree(root: nat, depth: nat): seq<Branch>
    decreases 4 - depth
  {
    if depth > 3 then []
    else [Branch(root, depth)] + (if depth < 3 then Subtree(root, depth + 1) + Subtree(root, depth + 1) else [])
  }

  /** The filaments the six roots push, root by root. */
  function Network(roots: nat): seq<Branch> {
    if roots == 0 then [] else Network(roots - 1) + Subtree(roots - 1, 0)
  }

  function Pow2(n: nat): nat {
    if n == 0 then 1 else 2 * Pow2(n - 1)
  }

  /** A filament at depth `d` heads a tree of `2^(4 - d) - 1` filaments. */
  lemma {:induction false} SubtreeSize(root: nat, depth: nat)
    requires depth <= 4
    ensures |Subtree(root, depth)| == Pow2(4 - depth) - 1
    decreases 4 - depth
  {
    if depth < 3 {
      SubtreeSize(root, depth + 1);
    }
  }

  /** Every filament of a root's tree belongs to that root and is at most three deep. */
  lemma {:induction false} SubtreeShape(root: nat, depth: nat)
    ensures forall k :: 0 <= k < |Subtree(root, depth)| ==>
              Subtree(root, depth)[k].root == root && depth <= Subtree(root, depth)[k].depth <= 3
    decreases 4 - depth
  {
    if depth < 3 {
      SubtreeShape(root, depth + 1);
    }
  }

  /** Six roots of 15 filaments each: 90 filaments. */
  lemma {:induction false} NetworkSize(roots: nat)
    ensures |Network(roots)| == 15 * roots
  {
    if roots > 0 {
      NetworkSize(roots - 1);
      SubtreeSize(roots - 1, 0);
    }
  }

  /** `n` copies of `s`, one after the other. */
  function Repeat(s: seq<Branch>, n: nat): seq<Branch> {
    if n == 0 then [] else Repeat(s, n - 1) + s
  }

  /** One more copy appended after `acc + Repeat(s, n)`. */
  lemma RepeatStep(acc: seq<Branch>, s: seq<Branch>, n: nat)
    ensures acc + Repeat(s, n) + s == acc + Repeat(s, n + 1)
  {
  }

  /** Above depth 3, the head and the two recursive calls' trees make the filament's whole tree. */
  lemma {:induction false} PushedTree(result: seq<Branch>, root: nat, depth: nat)
    requires depth < 3
    ensures result + [Branch(root, depth)] + Repeat(Subtree(root, depth + 1), 2) == result + Subtree(root, depth)
  {
    var sub := Subtree(root, depth + 1);
    assert Repeat(sub, 1) == [] + sub == sub;
    assert Repeat(sub, 2) == sub + sub;
    assert Subtree(root, depth) == [Branch(root, depth)] + (sub + sub);
    assert result + [Branch(root, depth)] + (sub + sub) == result + ([Branch(root, depth)] + (sub + sub));
  }

  /** At depth 3 the tree is the filament alone. */
  lemma PushedLeaf(result: seq<Branch>, root: nat)
    ensures result + [Branch(root, 3)] == result + Subtree(root, 3)
  {
    assert Subtree(root, 3) == [Branch(root, 3)];
  }

  /** `addBranch`: pushes the filament at `depth` and, above depth 3, two subtrees one level deeper. */
  method AddBranch(result: seq<Branch>, root: nat, depth: nat) returns (pushed: seq<Branch>)
    ensures pushed == result + Subtree(root, depth)
    decreases 4 - depth
  {
    if depth > 3 {
      return result;
    }
    pushed := result + [Branch(root, depth)];
    if depth < 3 {
      PushedTree(result, root, depth);
      ghost var head, sub := pushed, Subtree(root, depth + 1);
      for i := 0 to 2
        invariant pushed == head + Repeat(sub, i)
      {
        pushed := AddBranch(pushed, root, depth + 1);
        RepeatStep(head, sub, i);
      }
    } else {
      PushedLeaf(result, root);
    }
  }

  /** `branches`: six roots, each grown from depth 0; 90 filaments. */
  method Branches() returns (result: seq<Branch>)
    ensures result == Network(6)
    ensures |result| == 90
  {
    result := [];
    for i := 0 to 6
      invariant result == Network(i)
    {
      result := AddBranch(result, i, 0);
    }
    NetworkSize(6);
  }
}
