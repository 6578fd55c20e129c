/**
 * The stand-alone double-helix view of a generated sequence
 * (components/dna-sequence-3d.tsx): which part of the sequence is drawn,
 * each base's partner on the second strand, the two backbones, the choice
 * between the helix and the empty state, and the legend's label.
 */
module DnaSequence3D {
  import opened JsStrings

  /** At most this many bases are drawn. */
  const MaxShown: nat := 50

  function Min(a: nat, b: nat): nat {
    if a <= b then a else b
  }

  /** `sequence.slice(0, 50)`. */
  function DisplaySequence(sequence: string): (r: string)
    ensures |r| == Min(|sequence|, MaxShown)
    ensures r <= sequence
    ensures |sequence| <= MaxShown ==> r == sequence
  {
    if |sequence| <= MaxShown then sequence else sequence[..MaxShown]
  }

  /** `complementary[base] || "A"`: Watson-Crick partners, and `A` for any other character. */
  function Complement(base: char): (r: char)
    ensures r in "ATGC"
  {
    match base
    case 'A' => 'T'
    case 'T' => 'A'
    case 'G' => 'C'
    case 'C' => 'G'
    case _ => 'A'
  }

  /** Pairing is an involution on the four bases and sends every other character to `A`. */
  lemma ComplementPairs(base: char)
    ensures base in "ATGC" ==> Complement(Complement(base)) == base && Complement(base) != base
    ensures base !in "ATGC" ==> Complement(base) == 'A'
  {
  }

  /** `baseColors[base]`: only the four bases have a colour. */
  function BaseColor(base: char): (r: Option<string>)
    ensures r.Some? <==> base in "ATGC"
  {
    match base
    case 'A' => Some("#00ffa3")
    case 'T' => Some("#ff6b6b")
    case 'G' => Some("#ffd93d")
    case 'C' => Some("#6bcfff")
    case _ => None
  }

  /** A drawn base pair: the base, its partner and its position along the helix. */
  datatype BasePair = BasePair(base: char, partner: char, index: nat, totalBases: nat)

  /** `displaySequence.split("").map((base, index) => <BasePair …/>)`. */
  function BasePairs(display: string): (r: seq<BasePair>)
    ensures |r| == |display|
    ensures forall i :: 0 <= i < |r| ==>
              r[i].base == display[i] && r[i].index == i && r[i].totalBases == |display|
              && r[i].partner == Complement(display[i])
  {
    seq(|display|, i requires 0 <= i < |display| =>
      BasePair(display[i], Complement(display[i]), i, |display|))
  }

  /** The partner sphere of every drawn pair has a colour, whatever the base. */
  lemma PartnersHaveColors(display: string)
    ensures forall p :: p in BasePairs(display) ==> BaseColor(p.partner).Some?
  {
    forall p | p in BasePairs(display) ensures BaseColor(p.partner).Some? {
      assert p.partner in "ATGC";
    }
  }

  /**
   * A point of a backbone. Its coordinates follow from the step, the number
   * of bases and whether the strand is shifted by half a turn.
   */
  datatype StrandPoint = StrandPoint(step: nat, totalBases: nat, secondStrand: bool)

  /** The points a backbone passes through, one per base. */
  function BackbonePoints(totalBases: nat, secondStrand: bool): (r: seq<StrandPoint>)
    ensures |r| == totalBases
    ensures forall i :: 0 <= i < |r| ==> r[i].step == i && r[i].totalBases == totalBases && r[i].secondStrand == secondStrand
  {
    seq(totalBases, i requires 0 <= i < totalBases => StrandPoint(i, totalBases, secondStrand))
  }

  /** The `for` loop of `DNABackbone` that pushes one point per step. */
  method Backbone(totalBases: nat, secondStrand: bool) returns (pts: seq<StrandPoint>)
    ensures pts == BackbonePoints(totalBases, secondStrand)
    ensures |pts| == totalBases
  {
    pts := [];
    var i := 0;
    while i < totalBases
      invariant 0 <= i <= totalBases
      invariant |pts| == i
      invariant forall k :: 0 <= k < i ==> pts[k] == StrandPoint(k, totalBases, secondStrand)
    {
      pts := pts + [StrandPoint(i, totalBases, secondStrand)];
      i := i + 1;
    }
  }

  /** Both backbones have one point per drawn base and differ only in the half-turn shift. */
  lemma StrandsDifferInPhase(display: string)
    ensures |BackbonePoints(|display|, false)| == |BackbonePoints(|display|, true)| == |BasePairs(display)|
    ensures forall i :: 0 <= i < |display| ==>
              && BackbonePoints(|display|, false)[i].(secondStrand := true) == BackbonePoints(|display|, true)[i]
              && BackbonePoints(|display|, false)[i].step == BasePairs(display)[i].index
  {
  }

  /** What the canvas shows. */
  datatype Scene = Helix(display: string) | EmptyState

  /** `sequence && !isGenerating ? <DNAHelixScene/> : <EmptyState/>`. */
  function SceneFor(sequence: Option<string>, isGenerating: bool): (r: Scene)
    ensures r.Helix? <==> Truthy(sequence) && !isGenerating
    ensures r.Helix? ==> r.display == DisplaySequence(sequence.value) && r.display != ""
  {
    if Truthy(sequence) && !isGenerating then Helix(DisplaySequence(sequence.value)) else EmptyState
  }

  /** The legend's label: how many of the sequence's bases are shown, or a hint. */
  function Label(sequence: Option<string>): (r: string)
    ensures !Truthy(sequence) ==> r == "Drag to rotate"
    ensures Truthy(sequence) ==>
              r == NatToString(Min(|sequence.value|, MaxShown)) + " of " + NatToString(|sequence.value|) + " bp shown"
  {
    if Truthy(sequence) then
      NatToString(Min(|sequence.value|, MaxShown)) + " of " + NatToString(|sequence.value|) + " bp shown"
    else "Drag to rotate"
  }

  /** When the helix is drawn, the label counts exactly the bases it draws. */
  lemma LabelCountsDrawnBases(sequence: Option<string>, isGenerating: bool)
    requires SceneFor(sequence, isGenerating).Helix?
    ensures Label(sequence) ==
              NatToString(|SceneFor(sequence, isGenerating).display|) + " of "
              + NatToString(|sequence.value|) + " bp shown"
    ensures |SceneFor(sequence, isGenerating).display| <= MaxShown
  {
  }
}
