/**
 * Worked cases of the server-side classifier of app/api/generate-dna/route.ts,
 * where the two-way substring test makes a name's score depend on every
 * keyword of every table.
 */
module GenerateDnaExamples {
  import opened JsStrings
  import opened GenerateDna
  import GS = GeneticStructure

  /** `e` and `s` are kept apart: each is too long or has a character the other lacks. */
  predicate SeparatedBy(s: string, e: string, a: char, b: char) {
    (|e| > |s| || (a in e && a !in s)) && (|s| > |e| || (b in s && b !in e))
  }

  lemma Unrelated(s: string, e: string, a: char, b: char)
    requires SeparatedBy(s, e, a, b)
    ensures !Related(s, e)
  {
    IncludesChars(s, e);
    IncludesChars(e, s);
  }

  /** A name without a colon that contains a keyword of the table, or is part of one, is credited. */
  lemma RelatedCredited(t: string, table: seq<string>, k: int)
    requires ':' !in t && 0 <= k < |table|
    requires Includes(t, table[k]) || Includes(table[k], t)
    ensures AnyRelated(StripTag(t), table)
  {
    StripTagNoColon(t);
  }

  /** Part of a protein keyword, such as "Silk", scores protein although no keyword is "Silk". */
  lemma SilkScoresProtein(t: string)
    requires t == "Silk"
    ensures TraitOutScores(t).protein == 1.0
  {
    assert ProteinKeywords[0] == "Spider Silk";
    assert OccursAt(ProteinKeywords[0], t, 7);
    IncludesIff(ProteinKeywords[0], t);
    RelatedCredited(t, ProteinKeywords, 0);
  }

  lemma BiofuelPlasmid0(s: string)
    requires s == "Biofuel Production"
    ensures !Related(s, PlasmidKeywords[0])
  {
    Unrelated(s, PlasmidKeywords[0], 'T', 'B');
  }

  lemma BiofuelPlasmid1(s: string)
    requires s == "Biofuel Production"
    ensures !Related(s, PlasmidKeywords[1])
  {
    Unrelated(s, PlasmidKeywords[1], 'R', 'B');
  }

  lemma BiofuelPlasmid2(s: string)
    requires s == "Biofuel Production"
    ensures !Related(s, PlasmidKeywords[2])
  {
    Unrelated(s, PlasmidKeywords[2], 'H', 'B');
  }

  lemma BiofuelPlasmid3(s: string)
    requires s == "Biofuel Production"
    ensures !Related(s, PlasmidKeywords[3])
  {
    Unrelated(s, PlasmidKeywords[3], 'A', 'B');
  }

  lemma BiofuelPlasmid4(s: string)
    requires s == "Biofuel Production"
    ensures !Related(s, PlasmidKeywords[4])
  {
    Unrelated(s, PlasmidKeywords[4], 'a', 'B');
  }

  lemma BiofuelPlasmid5(s: string)
    requires s == "Biofuel Production"
    ensures !Related(s, PlasmidKeywords[5])
  {
    Unrelated(s, PlasmidKeywords[5], 's', 'B');
  }

  lemma BiofuelPlasmid6(s: string)
    requires s == "Biofuel Production"
    ensures !Related(s, PlasmidKeywords[6])
  {
    Unrelated(s, PlasmidKeywords[6], 'D', 'B');
  }

  lemma BiofuelPlasmid7(s: string)
    requires s == "Biofuel Production"
    ensures !Related(s, PlasmidKeywords[7])
  {
    Unrelated(s, PlasmidKeywords[7], 'A', 'B');
  }

  lemma BiofuelPlasmid8(s: string)
    requires s == "Biofuel Production"
    ensures !Related(s, PlasmidKeywords[8])
  {
    Unrelated(s, PlasmidKeywords[8], 'B', 'f');
  }

  lemma BiofuelPlasmid9(s: string)
    requires s == "Biofuel Production"
    ensures !Related(s, PlasmidKeywords[9])
  {
    Unrelated(s, PlasmidKeywords[9], 'p', 'B');
  }

  lemma BiofuelPlasmid10(s: string)
    requires s == "Biofuel Production"
    ensures !Related(s, PlasmidKeywords[10])
  {
    Unrelated(s, PlasmidKeywords[10], 'H', 'f');
  }

  lemma BiofuelPlasmid11(s: string)
    requires s == "Biofuel Production"
    ensures !Related(s, PlasmidKeywords[11])
  {
    Unrelated(s, PlasmidKeywords[11], 'C', 'B');
  }

  lemma BiofuelPlasmid12(s: string)
    requires s == "Biofuel Production"
    ensures !Related(s, PlasmidKeywords[12])
  {
    Unrelated(s, PlasmidKeywords[12], 'Q', 'B');
  }

  lemma BiofuelPlasmid13(s: string)
    requires s == "Biofuel Production"
    ensures !Related(s, PlasmidKeywords[13])
  {
    Unrelated(s, PlasmidKeywords[13], 'G', 'B');
  }

  lemma BiofuelPlasmid14(s: string)
    requires s == "Biofuel Production"
    ensures !Related(s, PlasmidKeywords[14])
  {
    Unrelated(s, PlasmidKeywords[14], 'S', 'B');
  }

  lemma BiofuelPlasmid15(s: string)
    requires s == "Biofuel Production"
    ensures !Related(s, PlasmidKeywords[15])
  {
    Unrelated(s, PlasmidKeywords[15], 'I', 'B');
  }

  lemma BiofuelPlasmid16(s: string)
    requires s == "Biofuel Production"
    ensures !Related(s, PlasmidKeywords[16])
  {
    Unrelated(s, PlasmidKeywords[16], 'H', 'B');
  }

  lemma BiofuelPlasmid17(s: string)
    requires s == "Biofuel Production"
    ensures !Related(s, PlasmidKeywords[17])
  {
    Unrelated(s, PlasmidKeywords[17], 'M', 'B');
  }

  lemma BiofuelPlasmid18(s: string)
    requires s == "Biofuel Production"
    ensures !Related(s, PlasmidKeywords[18])
  {
    Unrelated(s, PlasmidKeywords[18], 'A', 'B');
  }

  lemma BiofuelVsPlasmid(s: string)
    requires s == "Biofuel Production"
    ensures !AnyRelated(s, PlasmidKeywords)
  {
    forall k | 0 <= k < |PlasmidKeywords| ensures !Related(s, PlasmidKeywords[k]) {
      if k == 0 { BiofuelPlasmid0(s);
      } else if k == 1 { BiofuelPlasmid1(s);
      } else if k == 2 { BiofuelPlasmid2(s);
      } else if k == 3 { BiofuelPlasmid3(s);
      } else if k == 4 { BiofuelPlasmid4(s);
      } else if k == 5 { BiofuelPlasmid5(s);
      } else if k == 6 { BiofuelPlasmid6(s);
      } else if k == 7 { BiofuelPlasmid7(s);
      } else if k == 8 { BiofuelPlasmid8(s);
      } else if k == 9 { BiofuelPlasmid9(s);
      } else if k == 10 { BiofuelPlasmid10(s);
      } else if k == 11 { BiofuelPlasmid11(s);
      } else if k == 12 { BiofuelPlasmid12(s);
      } else if k == 13 { BiofuelPlasmid13(s);
      } else if k == 14 { BiofuelPlasmid14(s);
      } else if k == 15 { BiofuelPlasmid15(s);
      } else if k == 16 { BiofuelPlasmid16(s);
      } else if k == 17 { BiofuelPlasmid17(s);
      } else if k == 18 { BiofuelPlasmid18(s);
      }
    }
  }

  lemma BiofuelProtein0(s: string)
    requires s == "Biofuel Production"
    ensures !Related(s, ProteinKeywords[0])
  {
    Unrelated(s, ProteinKeywords[0], 'S', 'B');
  }

  lemma BiofuelProtein1(s: string)
    requires s == "Biofuel Production"
    ensures !Related(s, ProteinKeywords[1])
  {
    Unrelated(s, ProteinKeywords[1], 'A', 'B');
  }

  lemma BiofuelProtein2(s: string)
    requires s == "Biofuel Production"
    ensures !Related(s, ProteinKeywords[2])
  {
    Unrelated(s, ProteinKeywords[2], 'L', 'B');
  }

  lemma BiofuelProtein3(s: string)
    requires s == "Biofuel Production"
    ensures !Related(s, ProteinKeywords[3])
  {
    Unrelated(s, ProteinKeywords[3], 'V', 'B');
  }

  lemma BiofuelProtein4(s: string)
    requires s == "Biofuel Production"
    ensures !Related(s, ProteinKeywords[4])
  {
    Unrelated(s, ProteinKeywords[4], 'E', 'B');
  }

  lemma BiofuelProtein5(s: string)
    requires s == "Biofuel Production"
    ensures !Related(s, ProteinKeywords[5])
  {
    Unrelated(s, ProteinKeywords[5], 'V', 'B');
  }

  lemma BiofuelProtein6(s: string)
    requires s == "Biofuel Production"
    ensures !Related(s, ProteinKeywords[6])
  {
    Unrelated(s, ProteinKeywords[6], 'S', 'B');
  }

  lemma BiofuelProtein7(s: string)
    requires s == "Biofuel Production"
    ensures !Related(s, ProteinKeywords[7])
  {
    Unrelated(s, ProteinKeywords[7], 'E', 'B');
  }

  lemma BiofuelProtein8(s: string)
    requires s == "Biofuel Production"
    ensures !Related(s, ProteinKeywords[8])
  {
    Unrelated(s, ProteinKeywords[8], 'L', 'B');
  }

  lemma BiofuelProtein9(s: string)
    requires s == "Biofuel Production"
    ensures !Related(s, ProteinKeywords[9])
  {
    Unrelated(s, ProteinKeywords[9], 'A', 'B');
  }

  lemma BiofuelProtein10(s: string)
    requires s == "Biofuel Production"
    ensures !Related(s, ProteinKeywords[10])
  {
    Unrelated(s, ProteinKeywords[10], 'A', 'B');
  }

  lemma BiofuelProtein11(s: string)
    requires s == "Biofuel Production"
    ensures !Related(s, ProteinKeywords[11])
  {
    Unrelated(s, ProteinKeywords[11], 'D', 'B');
  }

  lemma BiofuelProtein12(s: string)
    requires s == "Biofuel Production"
    ensures !Related(s, ProteinKeywords[12])
  {
    Unrelated(s, ProteinKeywords[12], 'U', 'B');
  }

  lemma BiofuelProtein13(s: string)
    requires s == "Biofuel Production"
    ensures !Related(s, ProteinKeywords[13])
  {
    Unrelated(s, ProteinKeywords[13], 'I', 'B');
  }

  lemma BiofuelVsProtein(s: string)
    requires s == "Biofuel Production"
    ensures !AnyRelated(s, ProteinKeywords)
  {
    forall k | 0 <= k < |ProteinKeywords| ensures !Related(s, ProteinKeywords[k]) {
      if k == 0 { BiofuelProtein0(s);
      } else if k == 1 { BiofuelProtein1(s);
      } else if k == 2 { BiofuelProtein2(s);
      } else if k == 3 { BiofuelProtein3(s);
      } else if k == 4 { BiofuelProtein4(s);
      } else if k == 5 { BiofuelProtein5(s);
      } else if k == 6 { BiofuelProtein6(s);
      } else if k == 7 { BiofuelProtein7(s);
      } else if k == 8 { BiofuelProtein8(s);
      } else if k == 9 { BiofuelProtein9(s);
      } else if k == 10 { BiofuelProtein10(s);
      } else if k == 11 { BiofuelProtein11(s);
      } else if k == 12 { BiofuelProtein12(s);
      } else if k == 13 { BiofuelProtein13(s);
      }
    }
  }

  lemma BiofuelRna0(s: string)
    requires s == "Biofuel Production"
    ensures !Related(s, RnaKeywords[0])
  {
    Unrelated(s, RnaKeywords[0], 'R', 'B');
  }

  lemma BiofuelRna1(s: string)
    requires s == "Biofuel Production"
    ensures !Related(s, RnaKeywords[1])
  {
    Unrelated(s, RnaKeywords[1], 'C', 'B');
  }

  lemma BiofuelRna2(s: string)
    requires s == "Biofuel Production"
    ensures !Related(s, RnaKeywords[2])
  {
    Unrelated(s, RnaKeywords[2], 'C', 'B');
  }

  lemma BiofuelRna3(s: string)
    requires s == "Biofuel Production"
    ensures !Related(s, RnaKeywords[3])
  {
    Unrelated(s, RnaKeywords[3], 'M', 'B');
  }

  lemma BiofuelRna4(s: string)
    requires s == "Biofuel Production"
    ensures !Related(s, RnaKeywords[4])
  {
    Unrelated(s, RnaKeywords[4], 'P', 'B');
  }

  lemma BiofuelRna5(s: string)
    requires s == "Biofuel Production"
    ensures !Related(s, RnaKeywords[5])
  {
    Unrelated(s, RnaKeywords[5], 'H', 'f');
  }

  lemma BiofuelRna6(s: string)
    requires s == "Biofuel Production"
    ensures !Related(s, RnaKeywords[6])
  {
    Unrelated(s, RnaKeywords[6], 'M', 'B');
  }

  lemma BiofuelRna7(s: string)
    requires s == "Biofuel Production"
    ensures !Related(s, RnaKeywords[7])
  {
    Unrelated(s, RnaKeywords[7], 'A', 'B');
  }

  lemma BiofuelRna8(s: string)
    requires s == "Biofuel Production"
    ensures !Related(s, RnaKeywords[8])
  {
    Unrelated(s, RnaKeywords[8], 'C', 'B');
  }

  lemma BiofuelVsRna(s: string)
    requires s == "Biofuel Production"
    ensures !AnyRelated(s, RnaKeywords)
  {
    forall k | 0 <= k < |RnaKeywords| ensures !Related(s, RnaKeywords[k]) {
      if k == 0 { BiofuelRna0(s);
      } else if k == 1 { BiofuelRna1(s);
      } else if k == 2 { BiofuelRna2(s);
      } else if k == 3 { BiofuelRna3(s);
      } else if k == 4 { BiofuelRna4(s);
      } else if k == 5 { BiofuelRna5(s);
      } else if k == 6 { BiofuelRna6(s);
      } else if k == 7 { BiofuelRna7(s);
      } else if k == 8 { BiofuelRna8(s);
      }
    }
  }

  /** A name without a colon related to no keyword scores nothing. */
  lemma UnrelatedTraitScoresZero(t: string)
    requires ':' !in t
    requires !AnyRelated(t, PlasmidKeywords) && !AnyRelated(t, ProteinKeywords) && !AnyRelated(t, RnaKeywords)
    ensures TraitOutScores(t) == OutScores(0.0, 0.0, 0.0)
  {
    StripTagNoColon(t);
  }

  /** ... nor does a list of just that name, which therefore gives dna. */
  lemma UnrelatedNameIsDna(traits: seq<string>)
    requires |traits| == 1 && ':' !in traits[0]
    requires TraitOutScores(traits[0]) == OutScores(0.0, 0.0, 0.0)
    ensures OutFinalScores(traits) == OutScores(0.0, 0.0, 0.0)
    ensures OutWinner(OutFinalScores(traits)) == GS.Dna
  {
    GS.NoColonNotTagged(traits[0]);
    assert traits[..0] == [];
    assert OutTableScores(traits) == AddOut(OutTableScores([]), TraitOutScores(traits[0]));
    assert GS.CustomCount(traits) == GS.CustomCount([]) + 0;
  }

  /**
   * "Biofuel Production" is in the plasmid table of the structure view, but
   * related to no keyword here: the two classifiers disagree on it.
   */
  lemma BiofuelProductionDisagrees(traits: seq<string>)
    requires traits == ["Biofuel Production"]
    ensures OutputTypeOf(traits).kind == GS.Dna
    ensures GS.StructureOf(traits) == GS.Plasmid
  {
    var s := traits[0];
    GS.BiofuelProductionTables(s);
    BiofuelVsPlasmid(s);
    BiofuelVsProtein(s);
    BiofuelVsRna(s);
    UnrelatedTraitScoresZero(s);
    UnrelatedNameIsDna(traits);
    GS.BiofuelProductionIsPlasmid(traits);
  }
}
