# Digital Arboretum: a verified model of its trait and structure logic

The Digital Arboretum is a web application for designing synthetic organisms.
The user picks traits from a catalogue of 73 biological traits in 10
categories, or writes custom traits. A language model then generates a DNA,
RNA, protein or plasmid sequence for the selection. The application shows
that sequence in 3D and tests it against planetary environments.

This project models the deterministic logic around these steps:

- **The trait catalogue** and its queries (`TraitsData`).
- **The structure-type classifier** of the sequence view, its dispatcher and
  the counting and indexing parts of its four renderers (`GeneticStructure`).
- **The request shaping of the generation route** (`GenerateDna`). This
  covers:
  - the dictionary built from the catalogue;
  - the second, substring-based output classifier;
  - request validation, grouping by category and the target length;
  - the extraction of the JSON object from the model's reply.
- **The worked cases of that second classifier** (`GenerateDnaExamples`).
  They include an input on which the two classifiers disagree.
- **The 3D trait preview** (`TraitVisualizer`): which trait is shown, the
  scene table with its aliases, and two scene layouts (the 37 facets and the
  90 filaments).
- **The organism designer's state** (`DnaDesigner.Designer`). This covers:
  - the selection, the most recent selection and the custom traits;
  - grouping, search, the text-view colouring, base counts and the FASTA
    download.
- **The environment simulator's state** (`EnvironmentSimulator.Simulator`):
  the environment list, the selection and the editing draft, plus the
  colours of survival and verdict.
- **The stand-alone double-helix view** (`DnaSequence3D`).
- **The JavaScript string built-ins the logic relies on** (`JsStrings`):
  `includes`, `indexOf`, `replace` with a string pattern, `trim`,
  `startsWith`, `toLowerCase` and `join`.

## How the model is built

**Components with state become classes.** The designer and the simulator
change their state step by step through handlers. Each is a Dafny class
with one field per piece of React state, and each handler is a method. Each
method states its whole new state in terms of the old one, and also the
invariants it keeps:

- every selected custom name belongs to a custom trait;
- the most recent selection is one of the selected traits;
- the environment list keeps its four built-in entries, non-custom, at the
  front.

**Loops become methods with loop invariants.** This covers the scoring
loops, the dictionary build, the grouping `forEach` loops, the point and
facet loops, and the recursive filament builder. Each such method is proved
equal to a specification function, and the properties the code promises are
proved about that function as lemmas.

**Lookups and conditionals become functions.** Their contracts state what
the result means.

**Two behaviours of the code are modelled as written:**

- The two classifiers disagree. On `["Biofuel Production"]` the sequence view
  says plasmid and the route says dna (`GenerateDnaExamples.BiofuelProductionDisagrees`).
- `removeSelectedTrait`, Clear All, `resetDesigner` and `removeCustomTrait`
  shrink the selection but leave the most recent selection as it was. So
  the preview can go on showing a trait that is no longer selected. Only
  `toggleTrait` moves the most recent selection back to a selected trait.
  The method contracts state this as it is. The invariant "the most recent
  selection is selected" is proved only for the toggle and add operations.

## Model

| member | source | states |
|---|---|---|
| TraitsData.TraitByName | lib/traits-data.ts:1200-1202 | the trait found has exactly the name asked for and is in `getAllTraits()`; none is found iff no trait has that name |
| TraitsData.CategoryByTraitName | lib/traits-data.ts:1205-1209 | the category found is in the catalogue and lists a trait of that name; none is found iff no category does |
| TraitsData.FindTrait | lib/traits-data.ts:1201 | `find` by name over any trait list: none iff the name is absent, otherwise an element of the list with that name |
| TraitsData.FindCategory | lib/traits-data.ts:1206-1208 | `find` with `some` over any category list: none iff no category lists the name, otherwise a listed category that has it |
| TraitsData.FlattenLength | lib/traits-data.ts:1195-1197 | the flattened list is as long as the per-category counts summed |
| TraitsData.FlattenPosition | lib/traits-data.ts:1195-1197 | trait `i` of category `c` sits in the flattened list at the sum of the earlier counts plus `i`, so the order is kept |
| TraitsData.FlattenMember | lib/traits-data.ts:1195-1197 | a trait is in the flattened list iff some category lists it |
| TraitsData.FindTraitAppend | lib/traits-data.ts:1201 | finding in a concatenation looks in the first part first |
| TraitsData.FindThroughFlatten | lib/traits-data.ts:1200-1209 | finding a trait in the flattened list succeeds iff finding its category succeeds, and the trait belongs to that category |
| TraitsData.FlattenDistinct | lib/traits-data.ts:1195-1197 | distinct names within and across categories give a flattened list without repeated names |
| TraitsData.FindTraitUnique | lib/traits-data.ts:1201 | with distinct names, finding the name of element `k` returns element `k` |
| TraitsData.NameTableMatches | lib/traits-data.ts:30-1192 | the category-by-category name table used by the proofs lists exactly the catalogue's names |
| TraitsData.CategoryCountIsTen | lib/traits-data.ts:1217-1219 | `getCategoryCount()` is 10 |
| TraitsData.TotalTraitCountIs73 | lib/traits-data.ts:1212-1214 | `getTotalTraitCount()` is the sum of the per-category counts, which is 73 |
| TraitsData.NameTableRowsDistinct | lib/traits-data.ts:30-1192 | no category lists a name twice |
| TraitsData.NameTableAcrossDistinct | lib/traits-data.ts:30-1192 | no name is listed by two categories |
| TraitsData.CatalogueDistinct | lib/traits-data.ts:30-1192 | the catalogue has no repeated trait name, within a category or across two |
| TraitsData.AllTraitsDistinct | lib/traits-data.ts:1195-1197 | names in `getAllTraits()` are pairwise distinct |
| TraitsData.TraitByNameUnique | lib/traits-data.ts:1200-1202 | for every catalogue trait, `getTraitByName` of its name returns that very trait |
| TraitsData.TraitIffCategory | lib/traits-data.ts:1200-1209 | `getTraitByName(n)` is defined iff `getCategoryByTraitName(n)` is |
| TraitsData.TraitInItsCategory | lib/traits-data.ts:1200-1209 | the trait found by name belongs to the category found by that name |
| GeneticStructure.DetermineStructureType | components/genetic-structure-3d.tsx:493-518 | the loop's four counters end at the table scores, and the result is the winner of the final scores (`StructureOf`) |
| GeneticStructure.ScoresNonNegative | components/genetic-structure-3d.tsx:493-508 | no score is ever negative |
| GeneticStructure.WinnerByPriority | components/genetic-structure-3d.tsx:511-518 | each type wins iff it reaches a positive maximum that no type earlier in the order plasmid, protein, rna reaches; dna wins iff every score is 0 or dna alone is highest |
| GeneticStructure.UnknownTraitsScoreZero | components/genetic-structure-3d.tsx:498-508 | untagged names listed in no table leave every score at 0 |
| GeneticStructure.UnknownTraitsGiveDna | components/genetic-structure-3d.tsx:513 | such lists, including the empty one, give dna |
| GeneticStructure.DnaIffNothingElseWins | components/genetic-structure-3d.tsx:511-518 | the result is dna iff the maximum is 0 or none of plasmid, protein, rna reaches it |
| GeneticStructure.UntaggedSingleScores | components/genetic-structure-3d.tsx:498-504 | a lone name without a colon scores 1 in exactly the tables listing it |
| GeneticStructure.TaggedSingleScores | components/genetic-structure-3d.tsx:498-508 | a lone `custom:`-tagged name scores what its name scores, plus 0.5 protein |
| GeneticStructure.TaggedTraitScores | components/genetic-structure-3d.tsx:498-504 | a `custom:`-tagged name scores in each table exactly as the name without its tag |
| GeneticStructure.AppendUntaggedScores | components/genetic-structure-3d.tsx:498-504 | appending an untagged name adds 1 to each table that lists it |
| GeneticStructure.CustomCountSnoc | components/genetic-structure-3d.tsx:507 | appending a name adds 1 to the custom count exactly when it starts with `custom:` |
| GeneticStructure.PressureAdaptationIsDna | components/genetic-structure-3d.tsx:488 | `["Pressure Adaptation"]` scores dna 1 only, and gives dna |
| GeneticStructure.SalinityToleranceIsProtein | components/genetic-structure-3d.tsx:451-486 | `["Salinity Tolerance"]` scores protein 1 and dna 1; protein comes first |
| GeneticStructure.BiofuelProductionIsPlasmid | components/genetic-structure-3d.tsx:436 | `["Biofuel Production"]` gives plasmid |
| GeneticStructure.LoneCustomIsProtein | components/genetic-structure-3d.tsx:498-515 | `["custom:X"]` scores 0.5 protein and nothing else, and gives protein |
| GeneticStructure.LoneCustomScores | components/genetic-structure-3d.tsx:498-508 | a lone unknown custom trait scores protein 0.5 and nothing else |
| GeneticStructure.CustomAndThermophilicIsPlasmid | components/genetic-structure-3d.tsx:498-514 | `["custom:X", "Thermophilic"]` scores plasmid 1 against protein 0.5, and gives plasmid |
| GeneticStructure.CustomAndThermophilicScores | components/genetic-structure-3d.tsx:498-508 | `["custom:X", "Thermophilic"]` scores plasmid 1 and protein 0.5 |
| GeneticStructure.CustomSpiderSilkScores | components/genetic-structure-3d.tsx:498-508 | `["custom:Spider Silk"]` scores protein 1.5: the table entry plus the custom bonus |
| GeneticStructure.Info | components/genetic-structure-3d.tsx:522-551 | every type has a non-empty name and description |
| GeneticStructure.InfoNamesDistinct | components/genetic-structure-3d.tsx:522-551 | two types have the same displayed name iff they are the same type |
| GeneticStructure.PlaceholderColor | components/genetic-structure-3d.tsx:392-403 | the empty state's colour is a `#rrggbb` code: `#` and six lower-case hex digits |
| GeneticStructure.PlaceholderColorsDistinct | components/genetic-structure-3d.tsx:392-403 | the four types get four different placeholder colours |
| GeneticStructure.LegendBases | components/genetic-structure-3d.tsx:610-630 | the rna legend lists U and no T; only protein shows no bases; the dna and plasmid legends are closed under pairing |
| GeneticStructure.Dispatch | components/genetic-structure-3d.tsx:565-579 | the empty state is drawn iff the sequence is falsy or generation runs, with the given type's placeholder; otherwise the renderer of exactly that type gets the non-empty sequence |
| GeneticStructure.Complement | components/genetic-structure-3d.tsx:37 | the partner is always one of A, T, G, C, and `A` for any other character (the same table is used at line 67) |
| GeneticStructure.ComplementInvolution | components/genetic-structure-3d.tsx:37 | on the four bases, pairing undoes itself and never fixes a base |
| GeneticStructure.Prefix | components/genetic-structure-3d.tsx:29 | `slice(0, n)` is a prefix of length `min(len, n)` |
| GeneticStructure.PathPoints | components/genetic-structure-3d.tsx:44-49 | the point loop yields exactly `n` points, point `i` having index `i` and the given phase |
| GeneticStructure.DnaHelixStructure | components/genetic-structure-3d.tsx:29-80 | the first 60 characters are drawn; two strands of that many points in phases 0 and 1; pair `i` holds base `i`, its partner, and a rung iff `i % 3 == 0` |
| GeneticStructure.RnaSequence | components/genetic-structure-3d.tsx:101 | the first 80 characters, with no T left, each T turned into U and every other character kept |
| GeneticStructure.HairpinIndices | components/genetic-structure-3d.tsx:157-160 | the loops sit at `n/4`, `n/2`, `3n/4` (floored), all below `n`, and there are none for an empty path |
| GeneticStructure.RnaStructure | components/genetic-structure-3d.tsx:101-172 | one point per rewritten base; every loop index and both end markers lie on the path; the 5' marker is point 0 and the 3' marker is the last point |
| GeneticStructure.DisplayCount | components/genetic-structure-3d.tsx:194-195 | at most 40 residues, 3 bases each: `min(len / 3, 40)` |
| GeneticStructure.MarkerIndex | components/genetic-structure-3d.tsx:249-250 | the clamped helix and sheet index is always on the path |
| GeneticStructure.ProteinStructure | components/genetic-structure-3d.tsx:194-272 | `min(len / 3, 40)` residues, residue `i` using palette colour `i % 15`; both helix markers, both sheet markers and the active site lie on the path |
| GeneticStructure.PlasmidPairCount | components/genetic-structure-3d.tsx:313 | the ring shows `min(len, 100, 36)` pairs (the 100-base prefix is taken at line 287) |
| GeneticStructure.PlasmidPair | components/genetic-structure-3d.tsx:313-331 | pair `i` holds base `i` (the `i % len` wrap is the identity), its partner, and a rung iff `i` is even |
| GeneticStructure.PlasmidPairs | components/genetic-structure-3d.tsx:313-331 | one pair per shown position, each as `PlasmidPair` states |
| GenerateDna.ScoreTraits | app/api/generate-dna/route.ts:63-72 | the loop's counters end at the table scores of the trait list |
| GenerateDna.DetermineOutputType | app/api/generate-dna/route.ts:34-122 | the result is the fixed record of the winner of the final scores (`OutputTypeOf`) |
| GenerateDna.OutputRecord | app/api/generate-dna/route.ts:80-121 | each branch returns the record of its own type, with a non-empty name |
| GenerateDna.OutScoresNonNegative | app/api/generate-dna/route.ts:63-76 | no score is ever negative |
| GenerateDna.OutWinnerByPriority | app/api/generate-dna/route.ts:78-121 | dna iff all three scores are 0; otherwise the first of plasmid, protein, rna to reach the maximum; the final dna return is never reached |
| GenerateDna.EmptyRelatedToAll | app/api/generate-dna/route.ts:69-71 | a cleaned name of `""` is related to every keyword |
| GenerateDna.BareTagScores | app/api/generate-dna/route.ts:67-76 | the trait `custom:` scores plasmid 1, protein 1.5 and rna 1, and gives protein |
| GenerateDna.CategoryEntries | app/api/generate-dna/route.ts:21-29 | one dictionary entry per trait of a category, carrying the category's name |
| GenerateDna.StoreCategory | app/api/generate-dna/route.ts:21-30 | the inner loop stores a category's entries in order, later entries overwriting earlier ones of the same name |
| GenerateDna.BuildTraitDatabase | app/api/generate-dna/route.ts:19-31 | the nested loops leave a dictionary keyed by the stored names, each key holding the last entry of that name |
| GenerateDna.EntriesMatchFlatten | app/api/generate-dna/route.ts:20-31 | the entries follow the catalogue's trait order with the same name, gene and description |
| GenerateDna.EntriesPosition | app/api/generate-dna/route.ts:20-29 | trait `i` of category `c` is stored at the sum of the earlier counts plus `i`, with its category |
| GenerateDna.DatabaseOfDistinct | app/api/generate-dna/route.ts:19-31 | with distinct names, the dictionary's keys are exactly the catalogue's names, and each trait is stored with its own category |
| GenerateDna.TraitDatabase | app/api/generate-dna/route.ts:19-31 | the dictionary the module builds from the catalogue is `traitDatabase` as `PrepareRequest` requires it |
| GenerateDna.DatabaseEntry | app/api/generate-dna/route.ts:19-31 | with distinct category and trait names, a name has an entry iff the categories list its trait, and the entry carries that trait's gene and description and the name of the category it is found in |
| GenerateDna.FiledFrom | app/api/generate-dna/route.ts:19-31 | with distinct names and no category called "Custom", every entry is stored under its own name and none is filed under "Custom" |
| GenerateDna.NoCustomCategory | app/api/generate-dna/route.ts:19-31 | no catalogue category is called "Custom" |
| GenerateDna.CatalogueFiledByName | app/api/generate-dna/route.ts:19-31 | `traitDatabase` stores every entry under its own name and files none under "Custom" |
| GenerateDna.CatalogueDatabaseKeys | app/api/generate-dna/route.ts:19-31 | every key of `traitDatabase` is a name `getTraitByName` knows |
| GenerateDna.CatalogueDatabaseComplete | app/api/generate-dna/route.ts:19-31 | every name `getTraitByName` knows is a key of `traitDatabase` |
| GenerateDna.CatalogueDatabaseDomain | app/api/generate-dna/route.ts:19-31 | a name is a key of `traitDatabase` iff `getTraitByName` knows it |
| GenerateDna.CatalogueDatabaseTrait | app/api/generate-dna/route.ts:19-31 | the entry of a catalogue name carries that name and the gene and description `getTraitByName` gives |
| GenerateDna.CatalogueDatabaseCategory | app/api/generate-dna/route.ts:19-31 | the entry of a catalogue name is filed under the category `getCategoryByTraitName` finds |
| GenerateDna.OrEmpty | app/api/generate-dna/route.ts:144 | `x \|\| []` (line 144, also 158) is the list when there is one, else empty |
| GenerateDna.Selected | app/api/generate-dna/route.ts:144-146 | mapping through the dictionary and dropping misses never lengthens the list |
| GenerateDna.SelectedMembers | app/api/generate-dna/route.ts:144-146 | the selection holds exactly the dictionary entries of the known names |
| GenerateDna.SelectedAllKnown | app/api/generate-dna/route.ts:144-146 | when every name is known, nothing is dropped |
| GenerateDna.SelectedFiled | app/api/generate-dna/route.ts:144-166 | with such a dictionary every selected info is the entry of a requested name, never filed under "Custom", every known requested name is selected, and the custom group is appended after the catalogue groups |
| GenerateDna.GroupsOf | app/api/generate-dna/route.ts:149-155 | one group per category in order of first appearance, each with that category's infos |
| GenerateDna.KeysDistinct | app/api/generate-dna/route.ts:149-155 | no category is listed twice, and exactly the categories that occur are listed |
| GenerateDna.InCategoryMembers | app/api/generate-dna/route.ts:149-155 | a group holds every info of its category and nothing else |
| GenerateDna.FindGroup | app/api/generate-dna/route.ts:151 | the lookup gives a group with that category, or -1 iff there is none |
| GenerateDna.GroupByCategory | app/api/generate-dna/route.ts:149-155 | the `forEach` that pushes each info onto its category's list builds exactly `GroupsOf` |
| GenerateDna.CustomInfo | app/api/generate-dna/route.ts:160-165 | a custom trait keeps its name and description, goes under "Custom", and gets gene `CUSTOM` when its gene is falsy |
| GenerateDna.CustomGroup | app/api/generate-dna/route.ts:160-165 | the "Custom" group holds one info per custom trait, trait `i` as `CustomInfo` of custom trait `i` |
| GenerateDna.WithCustom | app/api/generate-dna/route.ts:158-166 | without custom traits the groups stay as they are; otherwise the "Custom" group of `CustomGroup` takes the place of an existing one, or is appended when there is none |
| GenerateDna.WithCustomAppends | app/api/generate-dna/route.ts:149-166 | when no info is filed under "Custom", the custom traits always form one new last group and the catalogue groups are unchanged |
| GenerateDna.AllTraitNames | app/api/generate-dna/route.ts:169-172 | the requested names, in order, followed by `custom:` plus each custom name |
| GenerateDna.CustomNamesCounted | app/api/generate-dna/route.ts:169-173 | every custom trait reaches the classifier tagged, so each earns the protein bonus |
| GenerateDna.TargetLength | app/api/generate-dna/route.ts:223 | for protein the floor of `(300 + 10c) / 3`; otherwise `300 + 10c` |
| GenerateDna.PrepareRequest | app/api/generate-dna/route.ts:131-223 | a body that does not parse gives the 500 "Failed to generate DNA sequence" of lines 292-297; otherwise a 400 "No traits selected" iff neither list is non-empty; otherwise the selection, the groups, the classifier's names, the output type and the target length, as their functions define them; each selected info is the `traitDatabase` entry of a requested name, every known requested name is selected, and the custom group comes last |
| GenerateDna.FirstIndexOf | app/api/generate-dna/route.ts:267 | the first position of a character, or -1 iff it is absent |
| GenerateDna.LastIndexOf | app/api/generate-dna/route.ts:267 | the last position of a character, or -1 iff it is absent |
| GenerateDna.ExtractJsonSpan | app/api/generate-dna/route.ts:267 | the match runs from the first `{` to the last `}`; there is none iff no `}` follows a `{` |
| GenerateDna.KindName | app/api/generate-dna/route.ts:35 | every type has a non-empty name |
| GenerateDna.FillStructure | app/api/generate-dna/route.ts:281-282 | truthy fields are kept; falsy ones are filled from the computed type and name, so the type is always present afterwards |
| GenerateDna.FillStructureIdempotent | app/api/generate-dna/route.ts:281-282 | filling in twice is the same as filling in once |
| GenerateDna.HandleReply | app/api/generate-dna/route.ts:264-282 | a 500 "Failed to parse AI response" iff no span is found or parsing rejects it; otherwise the parsed reply with both fields filled in |
| GenerateDnaExamples.Unrelated | app/api/generate-dna/route.ts:69-71 | a string too long for, or with a character missing from, the other is unrelated to it in both directions |
| GenerateDnaExamples.RelatedCredited | app/api/generate-dna/route.ts:68-71 | a colon-free name that contains a keyword, or is part of one, is credited |
| GenerateDnaExamples.SilkScoresProtein | app/api/generate-dna/route.ts:51-70 | part of a keyword, such as "Silk", scores protein |
| GenerateDnaExamples.BiofuelVsPlasmid | app/api/generate-dna/route.ts:41-48 | "Biofuel Production" is related to no plasmid keyword |
| GenerateDnaExamples.BiofuelVsProtein | app/api/generate-dna/route.ts:50-55 | nor to any protein keyword |
| GenerateDnaExamples.BiofuelVsRna | app/api/generate-dna/route.ts:57-61 | nor to any rna keyword |
| GenerateDnaExamples.UnrelatedTraitScoresZero | app/api/generate-dna/route.ts:67-72 | a colon-free name related to no keyword scores nothing |
| GenerateDnaExamples.UnrelatedNameIsDna | app/api/generate-dna/route.ts:78-87 | a list of just such a name gives dna |
| GenerateDnaExamples.BiofuelProductionDisagrees | app/api/generate-dna/route.ts:41-87 | `["Biofuel Production"]` gives dna on the server and plasmid in the sequence view |
| TraitVisualizer.ExtremophileModels | components/trait-visualizer-3d.tsx:2315-2324 | the Extremophile entries of the scene table |
| TraitVisualizer.PlantModels | components/trait-visualizer-3d.tsx:2325-2338 | the Plant entries, with their legacy names |
| TraitVisualizer.MarineModels | components/trait-visualizer-3d.tsx:2339-2348 | the Marine entries |
| TraitVisualizer.InsectModels | components/trait-visualizer-3d.tsx:2349-2358 | the Insect entries |
| TraitVisualizer.FungalModels | components/trait-visualizer-3d.tsx:2359-2370 | the Fungal entries, with their legacy names |
| TraitVisualizer.SyntheticModels | components/trait-visualizer-3d.tsx:2371-2387 | the Synthetic entries, with their legacy names |
| TraitVisualizer.AnimalModels | components/trait-visualizer-3d.tsx:2388-2402 | the Animal entries, with their legacy names |
| TraitVisualizer.ChemosyntheticModels | components/trait-visualizer-3d.tsx:2403-2410 | the Chemosynthetic entries |
| TraitVisualizer.ImmuneDefenseModels | components/trait-visualizer-3d.tsx:2411-2418 | the Immune Defense entries |
| TraitVisualizer.NeuralSensoryModels | components/trait-visualizer-3d.tsx:2419-2425 | the Neural/Sensory entries |
| TraitVisualizer.ModelFor | components/trait-visualizer-3d.tsx:2314-2426 | a key with a scene is non-empty and starts with a capital letter |
| TraitVisualizer.ModelForSome | components/trait-visualizer-3d.tsx:2314-2426 | a key has a scene iff one of the table's groups lists it |
| TraitVisualizer.CustomTraitHasNoModel | components/trait-visualizer-3d.tsx:2314-2426 | no key starts with `custom:`, so a custom trait has no scene |
| TraitVisualizer.NameTableCovered | components/trait-visualizer-3d.tsx:2313-2426 | every name of the catalogue's name table has a scene |
| TraitVisualizer.EveryCatalogueTraitHasModel | components/trait-visualizer-3d.tsx:2313-2426 | every trait of the catalogue has a scene |
| TraitVisualizer.FastGrowthScene | components/trait-visualizer-3d.tsx:2335 | "Fast Growth" shows the fast-growth scene |
| TraitVisualizer.RapidCellDivisionScene | components/trait-visualizer-3d.tsx:2272 | "Rapid Cell Division" is an alias of that same scene (keyed at line 2330) |
| TraitVisualizer.DeepRootScene | components/trait-visualizer-3d.tsx:2336 | "Deep Root" shows the deep-root scene |
| TraitVisualizer.DeepRootSystemScene | components/trait-visualizer-3d.tsx:2273 | "Deep Root System" is an alias of it (keyed at line 2331) |
| TraitVisualizer.SelfRepairScene | components/trait-visualizer-3d.tsx:2385 | "Self-Repair" shows the self-repair scene; the aliases below all point to it |
| TraitVisualizer.CrisprSelfRepairScene | components/trait-visualizer-3d.tsx:2281 | "CRISPR Self-Repair" is an alias of it (keyed at line 2376) |
| TraitVisualizer.GeneticKillSwitchScene | components/trait-visualizer-3d.tsx:2283 | so is "Genetic Kill Switch" (keyed at line 2378) |
| TraitVisualizer.CrisprImmunityScene | components/trait-visualizer-3d.tsx:2296 | so is "CRISPR Immunity" (keyed at line 2412) |
| TraitVisualizer.AntiviralRnaSilencingScene | components/trait-visualizer-3d.tsx:2298 | so is "Antiviral RNA Silencing" (keyed at line 2414) |
| TraitVisualizer.DisplayTrait | components/trait-visualizer-3d.tsx:2436 | the result is truthy iff one of the three candidates is; it is the hovered trait if that is truthy, else the last selected one if that is, else the first selected one |
| TraitVisualizer.Preview | components/trait-visualizer-3d.tsx:2437-2448 | a scene is shown iff the displayed trait is truthy and has one, and it is that trait's scene; otherwise the placeholder |
| TraitVisualizer.NothingSelectedIsPlaceholder | components/trait-visualizer-3d.tsx:2436-2448 | with nothing hovered, last selected or selected, the placeholder is shown |
| TraitVisualizer.CustomLastSelectedIsPlaceholder | components/trait-visualizer-3d.tsx:2436-2448 | a custom trait selected last hides the scenes of every other selected trait |
| TraitVisualizer.HoveredCatalogueTraitShown | components/trait-visualizer-3d.tsx:2436-2448 | hovering a catalogue trait always shows that trait's scene |
| TraitVisualizer.FacetsCount | components/trait-visualizer-3d.tsx:1753-1755 | `r` rings hold `3r(r-1)+1` facets (1, 6, 12, 18, ... per ring) |
| TraitVisualizer.FacetsOrdered | components/trait-visualizer-3d.tsx:1753-1760 | each facet has its ring's size and an angle index below it; the facets come ring by ring, in angle order within a ring |
| TraitVisualizer.HexPositions | components/trait-visualizer-3d.tsx:1751-1762 | the nested loops build exactly the facets of rings 0 to 3, 37 of them |
| TraitVisualizer.SubtreeSize | components/trait-visualizer-3d.tsx:730-747 | a filament at depth `d` heads `2^(4-d) - 1` filaments |
| TraitVisualizer.SubtreeShape | components/trait-visualizer-3d.tsx:730-747 | every filament of a tree grows from the tree's root and is at most 3 deep |
| TraitVisualizer.NetworkSize | components/trait-visualizer-3d.tsx:747-755 | `n` roots make `15n` filaments |
| TraitVisualizer.AddBranch | components/trait-visualizer-3d.tsx:730-747 | the recursive push appends exactly the filament's whole tree |
| TraitVisualizer.Branches | components/trait-visualizer-3d.tsx:727-756 | six roots grown from depth 0 give 90 filaments, whatever the random directions |
| DnaDesigner.Without | components/dna-designer.tsx:169 | the filter keeps exactly the other elements, changes nothing when the element is absent, and on one element drops it iff it is the removed one |
| DnaDesigner.WithoutAppend | components/dna-designer.tsx:169 | the filter of a concatenation is the concatenation of the filtered parts, so the kept elements keep their order and multiplicity |
| DnaDesigner.WithoutAppended | components/dna-designer.tsx:147-155 | removing a freshly appended element gives the list back |
| DnaDesigner.WithoutCustom | components/dna-designer.tsx:85 | exactly the custom traits with another name are kept, and one trait is dropped iff it has that name |
| DnaDesigner.WithoutCustomAppend | components/dna-designer.tsx:85 | the filter splits over a concatenation, so the kept custom traits stay in order |
| DnaDesigner.FindCustom | components/dna-designer.tsx:92 | the first custom trait of that name, with no earlier one of that name, or none iff there is none |
| DnaDesigner.Toggled | components/dna-designer.tsx:143-158 | an unselected trait is appended at the end; a selected one is filtered out by `Without`, the rest keeping their order; the trait is in the result iff it was not selected |
| DnaDesigner.ToggledLast | components/dna-designer.tsx:143-158 | adding makes the trait the most recent selection; removing it when it was most recent makes the last remaining trait most recent, or none; otherwise nothing changes |
| DnaDesigner.ToggleKeepsLastSelected | components/dna-designer.tsx:143-158 | toggling keeps the most recent selection among the selected traits |
| DnaDesigner.ToggleTwice | components/dna-designer.tsx:143-158 | toggling an unselected trait twice gives the selection back, with the last remaining trait as most recent |
| DnaDesigner.GroupKey | components/dna-designer.tsx:200-208 | a tagged name goes to "custom"; another name goes to its category's id, and to none iff no category lists it |
| DnaDesigner.Tagged | components/dna-designer.tsx:199-210 | each selected name is paired with its group key |
| DnaDesigner.Groups | components/dna-designer.tsx:197-212 | one group per key in order of first appearance, each with its names |
| DnaDesigner.GroupKeysDistinct | components/dna-designer.tsx:197-212 | no key is listed twice, and exactly the keys that occur are listed |
| DnaDesigner.MembersExactly | components/dna-designer.tsx:197-212 | a group holds exactly the names with its key |
| DnaDesigner.Members | components/dna-designer.tsx:201-208 | one tagged name goes into the group iff it has the group's key |
| DnaDesigner.MembersAppend | components/dna-designer.tsx:199-210 | collecting a group's names splits over a concatenation, so each group keeps the selection order |
| DnaDesigner.MembersInSelectionOrder | components/dna-designer.tsx:197-212 | a group holds the selected names of its key front to back, each as often as it is selected |
| DnaDesigner.GroupedSelection | components/dna-designer.tsx:197-212 | distinct keys; each group holds exactly the selected names of its key, in selection order and with their multiplicity; every name with a key is in a group, and unknown names are dropped |
| DnaDesigner.FindGroup | components/dna-designer.tsx:201-206 | `grouped[key]`: a group with that key, or -1 iff there is none |
| DnaDesigner.SelectedByCategory | components/dna-designer.tsx:197-212 | the `forEach` builds exactly the grouped selection `GroupsOf` |
| DnaDesigner.CategoryHits | components/dna-designer.tsx:292-300 | a hit is a trait of the category, listed with it, that matches the query, and every such trait is a hit; one trait is a hit iff it matches |
| DnaDesigner.CategoryHitsAppend | components/dna-designer.tsx:292-300 | the filter splits over a concatenation of traits, so the hits keep the category's trait order |
| DnaDesigner.SearchHitsExactly | components/dna-designer.tsx:291-301 | a hit is a matching trait of one of the categories, listed with that category, and every such trait is a hit |
| DnaDesigner.SearchHitsAppend | components/dna-designer.tsx:291-301 | the `flatMap` lists the hits of the first categories, then those of the rest, so catalogue order is kept |
| DnaDesigner.SearchHits | components/dna-designer.tsx:291-301 | every hit is a trait of one of the categories, listed with that category, that matches the query; for one category the hits are that category's hits |
| DnaDesigner.CustomHits | components/dna-designer.tsx:304-308 | exactly the custom traits whose name, description or gene holds the query; one trait is a hit iff it matches |
| DnaDesigner.CustomHitsAppend | components/dna-designer.tsx:304-308 | the filter splits over a concatenation, so the hits keep the order of the custom list |
| DnaDesigner.SearchPanel | components/dna-designer.tsx:286-310 | a search runs iff the trimmed query is non-empty, and then uses the lower-cased, trimmed query |
| DnaDesigner.SearchIgnoresCase | components/dna-designer.tsx:286-310 | two queries that differ only in ASCII case give the same search results |
| DnaDesigner.ResultsHeader | components/dna-designer.tsx:316-320 | "No traits found" for 0 hits, else "Found n trait" or "Found n traits" |
| DnaDesigner.ClassifyResidue | components/dna-designer.tsx:936-948 | a residue takes the first of hydrophobic, polar, charged, special that lists it, and muted otherwise |
| DnaDesigner.OnlyGlycineIsSpecial | components/dna-designer.tsx:936-948 | P is caught by the hydrophobic test, so only G is special |
| DnaDesigner.BaseColor | components/dna-designer.tsx:957-967 | a nucleotide is muted iff it is not one of A, T, U, G, C |
| DnaDesigner.ResidueColor | components/dna-designer.tsx:943-948 | every residue class gets a `text-` class, and only the muted class gets `text-muted-foreground` |
| DnaDesigner.CountOf | components/dna-designer.tsx:1030 | a base's count is at most the length, and 0 iff the base is absent (the same count is used at line 1011) |
| DnaDesigner.DnaCountsCover | components/dna-designer.tsx:1029-1032 | the four dna counts never exceed the length, and add up to it iff the sequence holds only A, T, G, C |
| DnaDesigner.RunLength | components/dna-designer.tsx:179 | a run stops at the width or at the first line terminator |
| DnaDesigner.Lines | components/dna-designer.tsx:179 | every match of `/.{1,70}/g` has 1 to 70 characters and no line terminator |
| DnaDesigner.LinesShape | components/dna-designer.tsx:179 | for a sequence without line terminators the lines concatenate back to it, each is 1 to 70 characters, all but the last are exactly 70, and there are none iff it is empty |
| DnaDesigner.DeleteNewlinesJoin | components/dna-designer.tsx:179 | deleting the newlines of lines joined by newlines gives their concatenation |
| DnaDesigner.FastaBody | components/dna-designer.tsx:179 | `?.join("\n") \|\| sequence` is empty iff the sequence is |
| DnaDesigner.FastaBodyRoundTrip | components/dna-designer.tsx:179 | deleting the inserted newlines from the body gives the sequence back |
| DnaDesigner.FastaContent | components/dna-designer.tsx:172-179 | a file exists iff there is an organism with a non-empty sequence |
| DnaDesigner.FastaContentEnds | components/dna-designer.tsx:175-179 | the file starts with the `>Synthetic_Organism_<now>` header and ends with the body |
| DnaDesigner.BackedAfterAdd | components/dna-designer.tsx:75-76 | adding a custom trait and selecting its tag keeps every selected custom name backed |
| DnaDesigner.BackedAfterRemove | components/dna-designer.tsx:85-86 | removing a name, or a custom trait together with its tag, keeps them backed (the removal of a selected name is line 169) |
| DnaDesigner.FormTrait | components/dna-designer.tsx:69-74 | a trait is made iff the trimmed name and description are non-empty; its fields are trimmed and the gene is `CUSTOM` when blank |
| DnaDesigner.Designer.constructor | components/dna-designer.tsx:49-63 | nothing selected, no most recent selection, no custom traits, a blank closed form, an empty query, no error, no organism |
| DnaDesigner.Designer.EditForm | components/dna-designer.tsx:649-662 | the form's inputs set its three fields, and nothing else changes |
| DnaDesigner.Designer.OpenForm | components/dna-designer.tsx:691 | the Add Custom Trait button opens the form and changes nothing else |
| DnaDesigner.Designer.CancelForm | components/dna-designer.tsx:676-685 | the form's Cancel closes and clears the form and changes nothing else |
| DnaDesigner.Designer.TypeQuery | components/dna-designer.tsx:245-251 | the search box and its clear button set the query and change nothing else (the inline form's name field at lines 419-420 does the same) |
| DnaDesigner.Designer.CreateAndSelect | components/dna-designer.tsx:446-461 | with a non-blank trimmed query and description: the trait named by the trimmed query is appended, its tag is selected and made most recent, and query and form are cleared, the side form's visibility left as it was; otherwise nothing changes; both invariants are kept |
| DnaDesigner.Designer.CancelCreate | components/dna-designer.tsx:468-474 | the inline form's Cancel clears the query and the form and changes nothing else |
| DnaDesigner.Designer.AddCustomTrait | components/dna-designer.tsx:68-81 | with a valid form: the trimmed trait is appended, its tag is selected and made most recent, and the form is cleared and closed; otherwise nothing changes; both invariants are kept |
| DnaDesigner.Designer.RemoveCustomTrait | components/dna-designer.tsx:84-87 | the trait and its tag are removed; the most recent selection stays; backing is kept |
| DnaDesigner.Designer.GetCustomTrait | components/dna-designer.tsx:90-93 | the first custom trait named like the name with its tag deleted, with no earlier one of that name, or none iff there is none |
| DnaDesigner.Designer.ToggleTrait | components/dna-designer.tsx:143-158 | the selection and the most recent selection become `Toggled` and `ToggledLast`, everything else stays, and both invariants are kept |
| DnaDesigner.Designer.RemoveSelectedTrait | components/dna-designer.tsx:168-170 | the trait leaves the selection, the most recent selection stays, and backing is kept |
| DnaDesigner.Designer.ClearAll | components/dna-designer.tsx:721 | the selection is empty, the most recent selection stays |
| DnaDesigner.Designer.ResetDesigner | components/dna-designer.tsx:190-194 | organism, error and selection are cleared; custom traits and the most recent selection stay |
| DnaDesigner.Designer.GetSelectedByCategory | components/dna-designer.tsx:197-212 | the grouped current selection over the catalogue |
| EnvironmentSimulator.LayoutWellFormed | components/environment-simulator.tsx:43-95 | in a list in layout, an entry is custom iff its id is not a built-in id |
| EnvironmentSimulator.DefaultsLayout | components/environment-simulator.tsx:43-95 | the built-in list is in layout |
| EnvironmentSimulator.CustomIdNotDefault | components/environment-simulator.tsx:145 | a `custom-<now>` id never clashes with a built-in id |
| EnvironmentSimulator.ReplaceById | components/environment-simulator.tsx:124-126 | same length; each entry with the draft's id becomes the draft, and every other entry is unchanged |
| EnvironmentSimulator.ReplaceKeepsLayout | components/environment-simulator.tsx:124-126 | replacing with a well-formed entry keeps the layout |
| EnvironmentSimulator.ReplaceKeepsMember | components/environment-simulator.tsx:124-131 | an entry of the list is still there after saving, or was replaced by the draft of the same id |
| EnvironmentSimulator.SaveKeepsLayout | components/environment-simulator.tsx:122-134 | saving a well-formed draft keeps the layout and keeps the selection, or the draft replacing it, in the list |
| EnvironmentSimulator.FindById | components/environment-simulator.tsx:172 | an entry of the list with that id, or none iff there is none |
| EnvironmentSimulator.FindByIdFirst | components/environment-simulator.tsx:172 | the entry found is the first with that id |
| EnvironmentSimulator.RemoveById | components/environment-simulator.tsx:175 | exactly the entries with another id are kept |
| EnvironmentSimulator.RemoveByIdAppend | components/environment-simulator.tsx:175 | the filter distributes over concatenation |
| EnvironmentSimulator.RemoveAbsentId | components/environment-simulator.tsx:175 | filtering out an id no entry has changes nothing |
| EnvironmentSimulator.RemoveKeepsLayout | components/environment-simulator.tsx:175 | filtering out a non-built-in id keeps the layout and the first four entries |
| EnvironmentSimulator.DeleteKeepsLayout | components/environment-simulator.tsx:171-179 | deleting a custom entry keeps the layout and the first four entries, and the selection or its fallback stays in the list |
| EnvironmentSimulator.KeepOthersSplice | components/environment-simulator.tsx:205 | filtering out position `i` removes exactly that position and keeps the order; an index outside the list removes nothing |
| EnvironmentSimulator.Edited | components/environment-simulator.tsx:298-374 | an input changes exactly its field of the draft; id, custom flag and challenges stay |
| EnvironmentSimulator.SurvivalTone | components/environment-simulator.tsx:683-699 | primary iff at least 70, caution iff from 40 to below 70, destructive iff below 40 |
| EnvironmentSimulator.SurvivalToneMonotone | components/environment-simulator.tsx:683-699 | a higher probability never gets a worse style |
| EnvironmentSimulator.SurvivalBadge | components/environment-simulator.tsx:683-699 | the check mark iff at least 70; the icon and the figure have the colour of the probability's style |
| EnvironmentSimulator.VerdictColor | components/environment-simulator.tsx:264-275 | VIABLE, MARGINAL and NOT_VIABLE take the colour of the matching survival style; any other verdict the neutral class |
| EnvironmentSimulator.Simulator.constructor | components/environment-simulator.tsx:98-109 | the built-in list with its first entry selected, no draft and no form; the invariant holds |
| EnvironmentSimulator.Simulator.Select | components/environment-simulator.tsx:476-481 | the entry is selected and both forms close |
| EnvironmentSimulator.Simulator.StartEditing | components/environment-simulator.tsx:114-118 | a copy of the entry becomes the draft of the edit form |
| EnvironmentSimulator.Simulator.EditDraft | components/environment-simulator.tsx:298-374 | the draft changes as `Edited` states; the invariant is kept |
| EnvironmentSimulator.Simulator.SaveEdit | components/environment-simulator.tsx:122-134 | without a draft nothing happens; otherwise the list becomes `ReplaceById`, the selection is updated only when it has the draft's id, and the form closes; the invariant is kept |
| EnvironmentSimulator.Simulator.CancelEdit | components/environment-simulator.tsx:137-140 | the draft is dropped and nothing else changes |
| EnvironmentSimulator.Simulator.StartNewEnvironment | components/environment-simulator.tsx:143-158 | the fixed new draft with id `custom-<now>` opens in the new form; the invariant is kept |
| EnvironmentSimulator.Simulator.CloseNewForm | components/environment-simulator.tsx:287 | the new form closes and its draft is dropped (also line 426) |
| EnvironmentSimulator.Simulator.SaveNewEnvironment | components/environment-simulator.tsx:161-168 | with a draft whose trimmed name is not blank, the draft is appended and selected and the form closes; otherwise nothing changes |
| EnvironmentSimulator.Simulator.DeleteEnvironment | components/environment-simulator.tsx:171-179 | nothing happens for an unknown id or a built-in entry; otherwise the id's entries go, and a selection with that id falls back to the old first entry; the first four entries and the invariant are kept |
| EnvironmentSimulator.Simulator.ResetToDefaults | components/environment-simulator.tsx:182-188 | the built-in list, its first entry selected, no draft and no form |
| EnvironmentSimulator.Simulator.TypeChallenge | components/environment-simulator.tsx:398-402 | the challenge input takes the typed text |
| EnvironmentSimulator.Simulator.AddChallenge | components/environment-simulator.tsx:191-198 | with a draft and a non-blank input, the trimmed input is appended to the challenges and the input is cleared; otherwise nothing changes; the appended text is non-empty and neither starts nor ends with whitespace |
| EnvironmentSimulator.Simulator.RemoveChallenge | components/environment-simulator.tsx:201-207 | exactly position `i` leaves the draft's challenges, the others keep their order, and the rest of the draft stays |
| DnaSequence3D.DisplaySequence | components/dna-sequence-3d.tsx:130-131 | a prefix of length `min(len, 50)`, the whole sequence when it is short |
| DnaSequence3D.Complement | components/dna-sequence-3d.tsx:17-33 | the partner is always one of A, T, G, C |
| DnaSequence3D.ComplementPairs | components/dna-sequence-3d.tsx:17-33 | on the four bases pairing undoes itself and fixes none; any other character pairs with A |
| DnaSequence3D.BaseColor | components/dna-sequence-3d.tsx:9-14 | a character has a colour iff it is one of A, T, G, C |
| DnaSequence3D.BasePairs | components/dna-sequence-3d.tsx:158-167 | one pair per drawn base, holding the base, its index, the base count and its partner |
| DnaSequence3D.PartnersHaveColors | components/dna-sequence-3d.tsx:33-63 | every partner sphere has a colour, whatever the base |
| DnaSequence3D.Backbone | components/dna-sequence-3d.tsx:93-104 | the loop yields `totalBases` points, point `i` at step `i` of the given strand |
| DnaSequence3D.BackbonePoints | components/dna-sequence-3d.tsx:95-101 | one point per base, point `i` at step `i` of the given strand with the given count |
| DnaSequence3D.StrandsDifferInPhase | components/dna-sequence-3d.tsx:145-167 | both backbones have one point per drawn base and differ only in the strand flag |
| DnaSequence3D.SceneFor | components/dna-sequence-3d.tsx:238-242 | the helix is drawn iff the sequence is truthy and no generation runs, and it draws the first 50 bases |
| DnaSequence3D.Label | components/dna-sequence-3d.tsx:267-269 | "Drag to rotate" without a sequence, else "`min(len,50)` of `len` bp shown" |
| DnaSequence3D.LabelCountsDrawnBases | components/dna-sequence-3d.tsx:238-269 | when the helix is drawn, the label counts exactly the bases it draws |
| JsStrings.IncludesIff | components/dna-designer.tsx:294 | `includes` holds iff the pattern occurs at some offset |
| JsStrings.IncludesChars | app/api/generate-dna/route.ts:69 | an included string is no longer than the including one and uses only its characters |
| JsStrings.IndexOf | components/dna-designer.tsx:91 | `indexOf` is -1 or an offset at which the pattern fits |
| JsStrings.IndexOfFirst | components/dna-designer.tsx:91 | `indexOf` finds the first occurrence, and -1 means there is none |
| JsStrings.StripTag | components/genetic-structure-3d.tsx:499 | a tagged name loses its prefix; a name without the tag is unchanged; the length drops by 7 or not at all |
| JsStrings.StripTagNoColon | components/genetic-structure-3d.tsx:499 | a name without a colon is unchanged |
| JsStrings.TagHasColon | app/api/generate-dna/route.ts:68 | a name including the tag contains a colon |
| JsStrings.TrimStartCuts | components/dna-designer.tsx:69 | the front part cut off is all whitespace, and what is kept does not start with whitespace |
| JsStrings.TrimEndCuts | components/dna-designer.tsx:69 | the back part cut off is all whitespace, and what is kept does not end with whitespace |
| JsStrings.TrimSlice | components/environment-simulator.tsx:192-195 | `trim` keeps a slice bounded by non-whitespace, cuts off only whitespace, and gives "" iff the string is all whitespace |
| JsStrings.ToLower | components/dna-designer.tsx:288 | each ASCII capital is lowered, every other character is kept, and no ASCII capital is left |
| JsStrings.ToLowerIdempotent | components/dna-designer.tsx:288 | lowering a lowered string changes nothing |
| JsStrings.ToLowerKeepsWhitespace | components/dna-designer.tsx:288 | a string is all whitespace iff its lowered form is |
| JsStrings.BlankIgnoresCase | components/dna-designer.tsx:286-288 | two strings that lower alike are blank after `trim` together |
| JsStrings.ReplaceFirst | components/dna-designer.tsx:91 | without an occurrence the string is unchanged; otherwise the first occurrence, and only it, is replaced |
| JsStrings.Trim | components/dna-designer.tsx:69 | `trim` never lengthens, and what it keeps neither starts nor ends with whitespace |
| JsStrings.Join | components/dna-designer.tsx:176-179 | `join` of nothing is "", and otherwise starts with the first part and ends with the last |
| JsStrings.NatToString | components/environment-simulator.tsx:145 | decimal digits whose value (`DigitsValue`) is the number, with a leading 0 only for 0 itself |
| JsStrings.NatToStringInjective | components/environment-simulator.tsx:145 | two numbers print alike iff they are equal, so the generated id names one timestamp |

## Left out

- The calls to the language model (`anthropic.messages.create`), the `fetch` calls of the components, and the `simulate`, `synthesize`, `evolve` and `chat` routes are not modelled. They are network I/O around prompt templates. The prompt text of the generation route is not modelled either.
- `JSON.parse` is the parameter `parse` of `GenerateDna.HandleReply`. Its grammar is not modelled.
- GenerateDna.PrepareRequest: the body is typed. `traits` and `customTraits` are optional lists of well-formed entries and `complexity` is an integer. The source accepts any JSON value here; a non-array `traits` or a non-numeric `complexity` behaves as JavaScript coerces it, or throws into the 500 of lines 292-297, and none of that is modelled. Only a body that does not parse at all is.
- GenerateDna.HandleReply: `structureType` and `structureName` are optional strings. A truthy value of another JSON type (a number, an object) is kept by the source but cannot be represented, and the rest of the parsed object is not modelled.
- `Date.now()` is the parameter `now` (in `StartNewEnvironment` and `FastaContent`), because it is a clock.
- Floating-point geometry and animation are not modelled. This covers `Math.sin`/`Math.cos` positions, curves, tubes, frame rotations, pulses and opacities. A point is kept only as its index, count and phase.
- `Math.random()` (particle positions, filament directions) is not modelled, because it is randomness. The filament counts do not depend on it.
- React rendering, three.js components, orbit controls, Blob/URL downloads and the `setInterval` progress bars are not modelled.
- `runSimulation` and `generateSequence` are fetch calls, and are not modelled. So are the clearing of the simulation result in the list's `onClick` and the `isGenerating`/`error` bookkeeping around the fetch.
- `toggleCategory`/`expandedCategories`, `hoveredTrait`, `viewMode` and the complexity slider are not modelled as state. They only decide what is drawn. `searchQuery` is a field of `DnaDesigner.Designer`, because the inline Create & Select form names its trait after it.
- In the catalogue, each trait's colour, source organism, mechanism and references, and each category's icon and colour, are not modelled. No modelled operation reads them. The route's `source`/`mechanism` fields of `TraitInfo` are left out for the same reason. So are the `icon` and `chineseName` of `structureInfo`.
- A JavaScript object used as a dictionary also answers for inherited keys such as `constructor` (`traitModels[key]`, `traitDatabase[t]`, `grouped[key]`). The model's maps only hold the keys that were stored.
- `toLowerCase` is modelled on ASCII letters only (`JsStrings.ToLower`). Unicode case mapping is not modelled.
- `Object.entries(traitsByCategory)` follows insertion order, which the groups keep. The numeric-key ordering rule of JavaScript objects is not modelled, because no category name is numeric.
- DnaDesigner.Designer.EditForm: the form's three `onChange` handlers are collapsed into one method that sets all three fields. The inline form's gene and description fields (lines 430 and 439) are the same method with the name left as it is.
- DnaDesigner.Designer.RemoveSelectedTrait: states that the most recent selection is unchanged rather than that it stays selected, because the source does not keep it selected. The same holds for `ClearAll`, `ResetDesigner` and `RemoveCustomTrait`; only `AddCustomTrait` and `ToggleTrait` keep the most recent selection among the selected traits.
- EnvironmentSimulator.Simulator.EditDraft: the six field setters of the edit form are one method with a `FieldEdit` argument.
- EnvironmentSimulator.Simulator.Select: keeps the invariant only for an entry of the list, which is what the list's buttons pass.
- EnvironmentSimulator.Simulator.StartEditing: keeps the invariant only for an entry of the list, for the same reason.
- EnvironmentSimulator.Simulator.SaveNewEnvironment: this keeps the invariant only when called from the new-environment form, which is the only place its button is shown.
- EnvironmentSimulator.SurvivalTone: the survival probability is an exact real. NaN, which fails every comparison and so gets the destructive style, is not modelled.
- GeneticStructure.ProteinStructure requires a sequence of at least 3 bases. With fewer, the fold path is empty and the marker and active-site lookups read a missing point, which throws in the source.
- GeneticStructure.RnaStructure requires a non-empty sequence. The dispatcher never passes an empty one (`GeneticStructure.Dispatch`).
- The prefix on a string, the `GeneticStructure.Complement` lookup and the other per-character rules work on UTF-16 code units, as `split("")` does. Surrogate pairs are not modelled.
