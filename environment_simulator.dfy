/**
 * The planetary environment list of the simulator: four built-in
 * environments followed by the user's own, an editing draft, and the
 * colour rules for a simulation's survival probability and verdict
 * (components/environment-simulator.tsx).
 */
module EnvironmentSimulator {
  import opened JsStrings

  /**
   * An environment. The conditions are JavaScript numbers and are kept as
   * exact reals; `isCustom` is `false` where the source leaves it undefined.
   */
  datatype Environment = Environment(
    id: string, name: string,
    temp: real, pressure: real, radiation: real, water: real,
    color: string, challenges: seq<string>, isCustom: bool)

  /** The ids of the built-in environments, in list order. */
  const DefaultIds: seq<string> := ["mars", "europa", "titan", "venus"]

  /** `defaultEnvironments`. */
  const Defaults: seq<Environment> := [
    Environment("mars", "Mars Surface", -63.0, 0.6, 0.67, 0.0, "bg-accent",
                ["Extreme cold", "Low pressure", "High UV radiation", "No liquid water"], false),
    Environment("europa", "Europa Ocean", -160.0, 1.0, 5.4, 100.0, "bg-chart-2",
                ["Extreme cold", "High radiation", "Subsurface ocean", "Ice shell"], false),
    Environment("titan", "Titan Lakes", -179.0, 1.5, 0.01, 0.0, "bg-chart-5",
                ["Cryogenic temperatures", "Methane lakes", "Dense atmosphere"], false),
    Environment("venus", "Venus Clouds", 30.0, 1.0, 2.6, 0.0, "bg-chart-4",
                ["Sulfuric acid", "High UV", "Cloud habitation"], false)
  ]

  /** The prefix of the ids the "new environment" form hands out. */
  const CustomIdPrefix: string := "custom-"

  /** An entry is custom exactly when its id is not one of the built-in ids. */
  predicate WellFormed(e: Environment) {
    e.isCustom <==> e.id !in DefaultIds
  }

  /**
   * The shape of the list: the four built-in entries, non-custom, in their
   * places, then custom entries only.
   */
  predicate Layout(envs: seq<Environment>) {
    && |envs| >= 4
    && (forall i :: 0 <= i < 4 ==> envs[i].id == DefaultIds[i] && !envs[i].isCustom)
    && (forall i :: 4 <= i < |envs| ==> envs[i].isCustom && envs[i].id !in DefaultIds)
  }

  /** Every entry of a list in layout is well formed. */
  lemma LayoutWellFormed(envs: seq<Environment>, e: Environment)
    requires Layout(envs) && e in envs
    ensures WellFormed(e)
  {
    var i :| 0 <= i < |envs| && envs[i] == e;
    if i < 4 {
      assert e.id == DefaultIds[i];
    }
  }

  /** The built-in list is in layout. */
  lemma DefaultsLayout()
    ensures Layout(Defaults) && |Defaults| == 4
  {
    forall i | 0 <= i < 4 ensures Defaults[i].id == DefaultIds[i] && !Defaults[i].isCustom {
    }
  }

  /** Ids handed out by the new-environment form never clash with a built-in id. */
  lemma CustomIdNotDefault(now: nat)
    ensures CustomIdPrefix + NatToString(now) !in DefaultIds
  {
    var id := CustomIdPrefix + NatToString(now);
    assert id[0] == 'c';
    assert id[1] == 'u';
  }

  // ---------------------------------------------------------------------------
  // List operations, components/environment-simulator.tsx:124-126, 172-175, 205
  // ---------------------------------------------------------------------------

  /** `envs.map(env => env.id === e.id ? e : env)`. */
  function ReplaceById(envs: seq<Environment>, e: Environment): (r: seq<Environment>)
    ensures |r| == |envs|
    ensures forall i :: 0 <= i < |envs| ==> r[i] == if envs[i].id == e.id then e else envs[i]
  {
    if envs == [] then []
    else [if envs[0].id == e.id then e else envs[0]] + ReplaceById(envs[1..], e)
  }

  /** Replacing by id with a well-formed entry keeps the layout. */
  lemma ReplaceKeepsLayout(envs: seq<Environment>, e: Environment)
    requires Layout(envs) && WellFormed(e)
    ensures Layout(ReplaceById(envs, e))
  {
    var r := ReplaceById(envs, e);
    forall i | 0 <= i < 4 ensures r[i].id == DefaultIds[i] && !r[i].isCustom {
      if envs[i].id == e.id {
        assert e.id in DefaultIds;
      }
    }
  }

  /** An entry of the list, or its replacement, is in the replaced list. */
  lemma ReplaceKeepsMember(envs: seq<Environment>, e: Environment, x: Environment)
    requires x in envs
    ensures x.id == e.id ==> e in ReplaceById(envs, e)
    ensures x.id != e.id ==> x in ReplaceById(envs, e)
  {
    var i :| 0 <= i < |envs| && envs[i] == x;
    assert ReplaceById(envs, e)[i] == if x.id == e.id then e else x;
  }

  /**
   * Saving a well-formed draft keeps the layout, and the selection, or the
   * draft that replaces it, stays in the list.
   */
  lemma SaveKeepsLayout(envs: seq<Environment>, selected: Environment, d: Environment)
    requires Layout(envs) && selected in envs && WellFormed(d)
    ensures Layout(ReplaceById(envs, d))
    ensures (if selected.id == d.id then d else selected) in ReplaceById(envs, d)
  {
    ReplaceKeepsLayout(envs, d);
    ReplaceKeepsMember(envs, d, selected);
  }

  /** `envs.find(e => e.id === id)`. */
  function FindById(envs: seq<Environment>, id: string): (r: Option<Environment>)
    ensures r.None? <==> forall e :: e in envs ==> e.id != id
    ensures r.Some? ==> r.value in envs && r.value.id == id
  {
    if envs == [] then None
    else if envs[0].id == id then Some(envs[0])
    else
      var r := FindById(envs[1..], id);
      assert forall e :: e in envs ==> e == envs[0] || e in envs[1..];
      r
  }

  /** `find` returns the first entry with the id: every entry before it has another id. */
  lemma {:induction false} FindByIdFirst(envs: seq<Environment>, id: string)
    requires FindById(envs, id).Some?
    ensures exists i :: 0 <= i < |envs| && envs[i] == FindById(envs, id).value
                        && forall j :: 0 <= j < i ==> envs[j].id != id
  {
    if envs[0].id != id {
      FindByIdFirst(envs[1..], id);
      var i :| 0 <= i < |envs[1..]| && envs[1..][i] == FindById(envs, id).value
               && forall j :: 0 <= j < i ==> envs[1..][j].id != id;
      assert envs[i + 1] == FindById(envs, id).value;
      assert forall j :: 1 <= j < i + 1 ==> envs[j] == envs[1..][j - 1];
    } else {
      assert envs[0] == FindById(envs, id).value;
    }
  }

  /** `envs.filter(e => e.id !== id)`. */
  function RemoveById(envs: seq<Environment>, id: string): (r: seq<Environment>)
    ensures |r| <= |envs|
    ensures forall x :: x in r <==> x in envs && x.id != id
  {
    if envs == [] then []
    else (if envs[0].id != id then [envs[0]] else []) + RemoveById(envs[1..], id)
  }

  /** Filtering distributes over concatenation. */
  lemma {:induction false} RemoveByIdAppend(a: seq<Environment>, b: seq<Environment>, id: string)
    ensures RemoveById(a + b, id) == RemoveById(a, id) + RemoveById(b, id)
  {
    if a == [] {
      assert a + b == b;
    } else {
      assert (a + b)[0] == a[0];
      assert (a + b)[1..] == a[1..] + b;
      RemoveByIdAppend(a[1..], b, id);
    }
  }

  /** Filtering out an id no entry has changes nothing. */
  lemma {:induction false} RemoveAbsentId(envs: seq<Environment>, id: string)
    requires forall e :: e in envs ==> e.id != id
    ensures RemoveById(envs, id) == envs
  {
    if envs != [] {
      assert envs[0] in envs;
      assert forall e :: e in envs[1..] ==> e in envs;
      RemoveAbsentId(envs[1..], id);
    }
  }

  /**
   * Filtering out a non-built-in id keeps the layout and leaves the first
   * four entries where they were.
   */
  lemma RemoveKeepsLayout(envs: seq<Environment>, id: string)
    requires Layout(envs) && id !in DefaultIds
    ensures Layout(RemoveById(envs, id))
    ensures RemoveById(envs, id)[..4] == envs[..4]
  {
    var head, tail := envs[..4], envs[4..];
    assert envs == head + tail;
    RemoveByIdAppend(head, tail, id);
    forall e | e in head ensures e.id != id {
      var i :| 0 <= i < 4 && head[i] == e;
      assert e.id == DefaultIds[i];
    }
    RemoveAbsentId(head, id);
    var r := RemoveById(envs, id);
    assert r == head + RemoveById(tail, id);
    forall i | 4 <= i < |r| ensures r[i].isCustom && r[i].id !in DefaultIds {
      assert r[i] == RemoveById(tail, id)[i - 4];
      assert r[i] in tail;
      var k :| 0 <= k < |tail| && tail[k] == r[i];
      assert tail[k] == envs[k + 4];
    }
  }

  /**
   * Deleting the id of a custom entry keeps the layout and the first four
   * entries, and the selection, or the first entry it falls back to, stays
   * in the list.
   */
  lemma DeleteKeepsLayout(envs: seq<Environment>, selected: Environment, id: string)
    requires Layout(envs) && selected in envs
    requires FindById(envs, id).Some? && FindById(envs, id).value.isCustom
    ensures Layout(RemoveById(envs, id)) && RemoveById(envs, id)[..4] == envs[..4]
    ensures (if selected.id == id then envs[0] else selected) in RemoveById(envs, id)
  {
    LayoutWellFormed(envs, FindById(envs, id).value);
    RemoveKeepsLayout(envs, id);
    assert RemoveById(envs, id)[0] == envs[0];
  }

  /** `list.filter((_, i) => i !== index)`, walked from the front with the index counted down. */
  function KeepOthers(list: seq<string>, index: int): seq<string>
  {
    if list == [] then []
    else (if index == 0 then [] else [list[0]]) + KeepOthers(list[1..], index - 1)
  }

  /**
   * Filtering out position `index` removes exactly that position and keeps
   * the others in order; an index outside the list removes nothing.
   */
  lemma {:induction false} KeepOthersSplice(list: seq<string>, index: int)
    ensures 0 <= index < |list| ==> KeepOthers(list, index) == list[..index] + list[index + 1..]
    ensures !(0 <= index < |list|) ==> KeepOthers(list, index) == list
  {
    if list != [] {
      KeepOthersSplice(list[1..], index - 1);
      if index == 0 {
        assert list[..0] + list[1..] == list[1..];
      } else if 0 < index < |list| {
        assert list[..index] == [list[0]] + list[1..][..index - 1];
        assert list[index + 1..] == list[1..][index..];
      } else {
        assert list == [list[0]] + list[1..];
      }
    }
  }

  /** One field of the draft changed by the edit form's inputs and sliders. */
  datatype FieldEdit =
    | Rename(name: string)
    | Recolor(color: string)
    | SetTemp(temp: real)
    | SetPressure(pressure: real)
    | SetRadiation(radiation: real)
    | SetWater(water: real)

  /** `{ ...e, <field>: value }`. */
  function Edited(e: Environment, f: FieldEdit): (r: Environment)
    ensures r.id == e.id && r.isCustom == e.isCustom && r.challenges == e.challenges
    ensures f.Rename? ==> r.name == f.name && r.(name := e.name) == e
    ensures f.Recolor? ==> r.color == f.color && r.(color := e.color) == e
    ensures f.SetTemp? ==> r.temp == f.temp && r.(temp := e.temp) == e
    ensures f.SetPressure? ==> r.pressure == f.pressure && r.(pressure := e.pressure) == e
    ensures f.SetRadiation? ==> r.radiation == f.radiation && r.(radiation := e.radiation) == e
    ensures f.SetWater? ==> r.water == f.water && r.(water := e.water) == e
  {
    match f
    case Rename(name) => e.(name := name)
    case Recolor(color) => e.(color := color)
    case SetTemp(temp) => e.(temp := temp)
    case SetPressure(pressure) => e.(pressure := pressure)
    case SetRadiation(radiation) => e.(radiation := radiation)
    case SetWater(water) => e.(water := water)
  }

  // ---------------------------------------------------------------------------
  // Survival and verdict colours, components/environment-simulator.tsx:264-275, 683-699
  // ---------------------------------------------------------------------------

  /** The three styles the result panel uses. */
  datatype Tone = Primary | Caution | Destructive

  /** The survival probability's style: at least 70, at least 40, or lower. */
  function SurvivalTone(p: real): (t: Tone)
    ensures t == Primary <==> p >= 70.0
    ensures t == Caution <==> 40.0 <= p < 70.0
    ensures t == Destructive <==> p < 40.0
  {
    if p >= 70.0 then Primary else if p >= 40.0 then Caution else Destructive
  }

  function ToneRank(t: Tone): nat {
    match t
    case Destructive => 0
    case Caution => 1
    case Primary => 2
  }

  /** A higher survival probability never gets a worse style. */
  lemma SurvivalToneMonotone(p: real, q: real)
    requires p <= q
    ensures ToneRank(SurvivalTone(p)) <= ToneRank(SurvivalTone(q))
  {
  }

  /** The text class of a style. */
  function ToneText(t: Tone): string {
    match t
    case Primary => "text-primary"
    case Caution => "text-chart-5"
    case Destructive => "text-destructive"
  }

  /** The icon beside the probability: a check mark only for the best style. */
  datatype Icon = CheckCircle | AlertTriangle

  /** The icon and its colour (683-689) and the colour of the figure (693-699). */
  function SurvivalBadge(p: real): (r: (Icon, string, string))
    ensures r.0 == CheckCircle <==> p >= 70.0
    ensures r.1 == ToneText(SurvivalTone(p)) && r.2 == ToneText(SurvivalTone(p))
  {
    var icon :=
      if p >= 70.0 then (CheckCircle, "text-primary")
      else if p >= 40.0 then (AlertTriangle, "text-chart-5")
      else (AlertTriangle, "text-destructive");
    var figure :=
      if p >= 70.0 then "text-primary"
      else if p >= 40.0 then "text-chart-5"
      else "text-destructive";
    (icon.0, icon.1, figure)
  }

  const NeutralVerdictClass: string := "text-muted-foreground bg-secondary border-border"

  /** `getVerdictColor`: the three known verdicts take the style of the matching survival band. */
  function VerdictColor(verdict: string): (r: string)
    ensures verdict == "VIABLE" ==> StartsWith(r, ToneText(Primary))
    ensures verdict == "MARGINAL" ==> StartsWith(r, ToneText(Caution))
    ensures verdict == "NOT_VIABLE" ==> StartsWith(r, ToneText(Destructive))
    ensures verdict != "VIABLE" && verdict != "MARGINAL" && verdict != "NOT_VIABLE" ==> r == NeutralVerdictClass
    ensures StartsWith(r, ToneText(Primary)) || StartsWith(r, ToneText(Caution))
            || StartsWith(r, ToneText(Destructive)) || r == NeutralVerdictClass
  {
    match verdict
    case "VIABLE" => "text-primary bg-primary/10 border-primary/30"
    case "MARGINAL" => "text-chart-5 bg-chart-5/10 border-chart-5/30"
    case "NOT_VIABLE" => "text-destructive bg-destructive/10 border-destructive/30"
    case _ => NeutralVerdictClass
  }

  // ---------------------------------------------------------------------------
  // The simulator's state, components/environment-simulator.tsx:97-207
  // ---------------------------------------------------------------------------

  class Simulator {
    var environments: seq<Environment>
    var selectedEnv: Environment
    var isEditing: bool
    var editingEnv: Option<Environment>
    var showNewForm: bool
    var newChallenge: string

    /**
     * The list is in layout, the selection is one of its entries, a draft is
     * well formed, and the draft of the new-environment form is custom.
     */
    ghost predicate Valid()
      reads this
    {
      && Layout(environments)
      && selectedEnv in environments
      && (editingEnv.Some? ==> WellFormed(editingEnv.value))
      && (showNewForm && editingEnv.Some? ==> editingEnv.value.isCustom)
    }

    /** The initial state: the built-in list with its first entry selected. */
    constructor ()
      ensures environments == Defaults && selectedEnv == Defaults[0]
      ensures !isEditing && editingEnv == None && !showNewForm && newChallenge == ""
      ensures Valid()
    {
      environments := Defaults;
      selectedEnv := Defaults[0];
      isEditing := false;
      editingEnv := None;
      showNewForm := false;
      newChallenge := "";
      DefaultsLayout();
    }

    /** A click on an entry of the list: it becomes the selection and the forms close. */
    method Select(env: Environment)
      modifies this
      ensures selectedEnv == env && !isEditing && !showNewForm
      ensures environments == old(environments) && editingEnv == old(editingEnv)
      ensures newChallenge == old(newChallenge)
      ensures old(Valid()) && env in old(environments) ==> Valid()
    {
      selectedEnv := env;
      isEditing := false;
      showNewForm := false;
    }

    /** `startEditing(env)`: a copy of the entry becomes the draft. */
    method StartEditing(env: Environment)
      modifies this
      ensures editingEnv == Some(env) && isEditing && !showNewForm
      ensures environments == old(environments) && selectedEnv == old(selectedEnv)
      ensures newChallenge == old(newChallenge)
      ensures old(Valid()) && env in old(environments) ==> Valid()
    {
      if Valid() && env in environments {
        LayoutWellFormed(environments, env);
      }
      editingEnv := Some(env);
      isEditing := true;
      showNewForm := false;
    }

    /** An input or slider of the edit form changes one field of the draft. */
    method EditDraft(f: FieldEdit)
      modifies this
      ensures editingEnv == if old(editingEnv).Some? then Some(Edited(old(editingEnv).value, f)) else None
      ensures environments == old(environments) && selectedEnv == old(selectedEnv)
      ensures isEditing == old(isEditing) && showNewForm == old(showNewForm)
      ensures newChallenge == old(newChallenge)
      ensures old(Valid()) ==> Valid()
    {
      if editingEnv.Some? {
        editingEnv := Some(Edited(editingEnv.value, f));
      }
    }

    /**
     * `saveEdit`: every entry with the draft's id is replaced by the draft,
     * and the selection only when it has that id; without a draft nothing happens.
     */
    method SaveEdit()
      modifies this
      ensures old(editingEnv).None? ==>
                && environments == old(environments) && selectedEnv == old(selectedEnv)
                && isEditing == old(isEditing) && editingEnv == None
      ensures old(editingEnv).Some? ==>
                var d := old(editingEnv).value;
                && environments == ReplaceById(old(environments), d)
                && selectedEnv == (if old(selectedEnv).id == d.id then d else old(selectedEnv))
                && !isEditing && editingEnv == None
      ensures showNewForm == old(showNewForm) && newChallenge == old(newChallenge)
      ensures old(Valid()) ==> Valid()
    {
      if editingEnv.None? {
        return;
      }
      var d := editingEnv.value;
      if Valid() {
        SaveKeepsLayout(environments, selectedEnv, d);
      }
      environments := ReplaceById(environments, d);
      if selectedEnv.id == d.id {
        selectedEnv := d;
      }
      isEditing := false;
      editingEnv := None;
    }

    /** `cancelEdit`: the draft is dropped. */
    method CancelEdit()
      modifies this
      ensures !isEditing && editingEnv == None
      ensures environments == old(environments) && selectedEnv == old(selectedEnv)
      ensures showNewForm == old(showNewForm) && newChallenge == old(newChallenge)
      ensures old(Valid()) ==> Valid()
    {
      isEditing := false;
      editingEnv := None;
    }

    /** `startNewEnvironment`, with `Date.now()` passed in as `now`. */
    method StartNewEnvironment(now: nat)
      modifies this
      ensures editingEnv == Some(Environment(CustomIdPrefix + NatToString(now), "New Environment",
                                             20.0, 1.0, 1.0, 50.0, "bg-violet-500", [], true))
      ensures showNewForm && !isEditing
      ensures environments == old(environments) && selectedEnv == old(selectedEnv)
      ensures newChallenge == old(newChallenge)
      ensures old(Valid()) ==> Valid()
    {
      CustomIdNotDefault(now);
      editingEnv := Some(Environment(CustomIdPrefix + NatToString(now), "New Environment",
                                     20.0, 1.0, 1.0, 50.0, "bg-violet-500", [], true));
      showNewForm := true;
      isEditing := false;
    }

    /** The close and Cancel buttons of the new-environment form. */
    method CloseNewForm()
      modifies this
      ensures !showNewForm && editingEnv == None
      ensures environments == old(environments) && selectedEnv == old(selectedEnv)
      ensures isEditing == old(isEditing) && newChallenge == old(newChallenge)
      ensures old(Valid()) ==> Valid()
    {
      showNewForm := false;
      editingEnv := None;
    }

    /**
     * `saveNewEnvironment`: a draft whose trimmed name is not blank is
     * appended and selected; otherwise nothing happens.
     */
    method SaveNewEnvironment()
      modifies this
      ensures old(editingEnv).Some? && Trim(old(editingEnv).value.name) != "" ==>
                && environments == old(environments) + [old(editingEnv).value]
                && selectedEnv == old(editingEnv).value
                && !showNewForm && editingEnv == None
      ensures old(editingEnv).None? || Trim(old(editingEnv).value.name) == "" ==>
                && environments == old(environments) && selectedEnv == old(selectedEnv)
                && showNewForm == old(showNewForm) && editingEnv == old(editingEnv)
      ensures isEditing == old(isEditing) && newChallenge == old(newChallenge)
      ensures old(Valid()) && old(showNewForm) ==> Valid()
    {
      if editingEnv.None? || Trim(editingEnv.value.name) == "" {
        return;
      }
      var d := editingEnv.value;
      environments := environments + [d];
      selectedEnv := d;
      showNewForm := false;
      editingEnv := None;
    }

    /**
     * `deleteEnvironment(envId)`: when the first entry with that id is
     * custom, every entry with that id goes and a selection with that id
     * falls back to the first entry of the list as it was before; for an
     * unknown id or a built-in entry nothing happens.
     */
    method DeleteEnvironment(envId: string)
      modifies this
      ensures var found := FindById(old(environments), envId);
              found.None? || !found.value.isCustom ==>
                environments == old(environments) && selectedEnv == old(selectedEnv)
      ensures var found := FindById(old(environments), envId);
              found.Some? && found.value.isCustom ==>
                && environments == RemoveById(old(environments), envId)
                && selectedEnv == (if old(selectedEnv).id == envId then old(environments)[0] else old(selectedEnv))
      ensures isEditing == old(isEditing) && editingEnv == old(editingEnv)
      ensures showNewForm == old(showNewForm) && newChallenge == old(newChallenge)
      ensures old(Valid()) ==> Valid() && environments[..4] == old(environments)[..4]
    {
      var found := FindById(environments, envId);
      if found.None? || !found.value.isCustom {
        return;
      }
      if Valid() {
        DeleteKeepsLayout(environments, selectedEnv, envId);
      }
      var first := environments[0];
      environments := RemoveById(environments, envId);
      if selectedEnv.id == envId {
        selectedEnv := first;
      }
    }

    /** `resetToDefaults`: the built-in list, its first entry selected, no draft and no form. */
    method ResetToDefaults()
      modifies this
      ensures environments == Defaults && selectedEnv == Defaults[0]
      ensures !isEditing && !showNewForm && editingEnv == None
      ensures newChallenge == old(newChallenge)
      ensures Valid()
    {
      environments := Defaults;
      selectedEnv := Defaults[0];
      isEditing := false;
      showNewForm := false;
      editingEnv := None;
      DefaultsLayout();
    }

    /** The challenge input's `onChange`. */
    method TypeChallenge(text: string)
      modifies this
      ensures newChallenge == text
      ensures environments == old(environments) && selectedEnv == old(selectedEnv)
      ensures isEditing == old(isEditing) && editingEnv == old(editingEnv) && showNewForm == old(showNewForm)
      ensures old(Valid()) ==> Valid()
    {
      newChallenge := text;
    }

    /**
     * `addChallenge`: with a draft and a non-blank input, the trimmed input
     * is appended to the draft's challenges and the input is cleared.
     */
    method AddChallenge()
      modifies this
      ensures old(editingEnv).Some? && Trim(old(newChallenge)) != "" ==>
                var d := old(editingEnv).value;
                && editingEnv == Some(d.(challenges := d.challenges + [Trim(old(newChallenge))]))
                && newChallenge == ""
      ensures old(editingEnv).None? || Trim(old(newChallenge)) == "" ==>
                editingEnv == old(editingEnv) && newChallenge == old(newChallenge)
      ensures editingEnv.Some? && old(editingEnv).Some? && |editingEnv.value.challenges| > |old(editingEnv).value.challenges| ==>
                var added := editingEnv.value.challenges[|editingEnv.value.challenges| - 1];
                added != "" && !IsJsWhitespace(added[0]) && !IsJsWhitespace(added[|added| - 1])
      ensures environments == old(environments) && selectedEnv == old(selectedEnv)
      ensures isEditing == old(isEditing) && showNewForm == old(showNewForm)
      ensures old(Valid()) ==> Valid()
    {
      var text := Trim(newChallenge);
      if editingEnv.None? || text == "" {
        return;
      }
      TrimSlice(newChallenge);
      var d := editingEnv.value;
      editingEnv := Some(d.(challenges := d.challenges + [text]));
      newChallenge := "";
    }

    /**
     * `removeChallenge(index)`: exactly position `index` leaves the draft's
     * challenges, the others keep their order; an index outside the list
     * removes nothing.
     */
    method RemoveChallenge(index: int)
      modifies this
      ensures old(editingEnv).None? ==> editingEnv == None
      ensures old(editingEnv).Some? ==>
                var d := old(editingEnv).value;
                && editingEnv.Some? && editingEnv.value.(challenges := d.challenges) == d
                && editingEnv.value.challenges ==
                     if 0 <= index < |d.challenges| then d.challenges[..index] + d.challenges[index + 1..]
                     else d.challenges
      ensures environments == old(environments) && selectedEnv == old(selectedEnv)
      ensures isEditing == old(isEditing) && showNewForm == old(showNewForm)
      ensures newChallenge == old(newChallenge)
      ensures old(Valid()) ==> Valid()
    {
      if editingEnv.None? {
        return;
      }
      var d := editingEnv.value;
      KeepOthersSplice(d.challenges, index);
      editingEnv := Some(d.(challenges := KeepOthers(d.challenges, index)));
    }
  }
}
