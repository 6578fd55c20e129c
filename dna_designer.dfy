/**
 * The organism designer: the trait selection it keeps (the selected traits,
 * the most recently selected one and the user's custom traits), the
 * grouping and search of the trait panels, the colouring of the text view,
 * the base counts and the FASTA download.
 */
module DnaDesigner {
  import opened JsStrings
  import TraitsData

  /** A trait the user authored: `{ name, gene, description }`. */
  datatype CustomTrait = CustomTrait(name: string, gene: string, description: string)

  /** The blank form `{ name: "", gene: "", description: "" }`. */
  const BlankForm: CustomTrait := CustomTrait("", "", "")

  /** The generated organism the designer shows; numbers are kept as their decimal rendering. */
  datatype Organism = Organism(sequence: string, traits: seq<string>, gcContent: string, length: string)

  /** `list.filter((t) => t !== x)`. */
  function Without(list: seq<string>, x: string): (r: seq<string>)
    ensures |r| <= |list|
    ensures forall y :: y in r <==> y in list && y != x
    ensures x !in list ==> r == list
    ensures |list| == 1 ==> r == if list[0] == x then [] else list
  {
    if list == [] then []
    else
      var rest := Without(list[..|list| - 1], x);
      assert list == list[..|list| - 1] + [list[|list| - 1]];
      if list[|list| - 1] == x then rest else rest + [list[|list| - 1]]
  }

  /**
   * The filter works element by element: on a concatenation it is the
   * concatenation of the filtered parts, so the kept elements stay in their
   * order and keep their multiplicity.
   */
  lemma {:induction false} WithoutAppend(a: seq<string>, b: seq<string>, x: string)
    ensures Without(a + b, x) == Without(a, x) + Without(b, x)
    decreases |b|
  {
    if b == [] {
      assert a + b == a;
    } else {
      var init := b[..|b| - 1];
      WithoutAppend(a, init, x);
      assert (a + b)[..|a + b| - 1] == a + init;
      assert (a + b)[|a + b| - 1] == b[|b| - 1];
    }
  }

  /** Removing an element that is not there, after appending it, gives the list back. */
  lemma {:induction false} WithoutAppended(list: seq<string>, x: string)
    requires x !in list
    ensures Without(list + [x], x) == list
  {
    assert (list + [x])[..|list + [x]| - 1] == list;
  }

  /** `customTraits.filter((t) => t.name !== name)`. */
  function WithoutCustom(customs: seq<CustomTrait>, name: string): (r: seq<CustomTrait>)
    ensures |r| <= |customs|
    ensures forall c :: c in r <==> c in customs && c.name != name
    ensures |customs| == 1 ==> r == if customs[0].name == name then [] else customs
  {
    if customs == [] then []
    else
      var rest := WithoutCustom(customs[..|customs| - 1], name);
      assert customs == customs[..|customs| - 1] + [customs[|customs| - 1]];
      if customs[|customs| - 1].name == name then rest else rest + [customs[|customs| - 1]]
  }

  /** The custom-trait filter splits over a concatenation, so the kept traits stay in order. */
  lemma {:induction false} WithoutCustomAppend(a: seq<CustomTrait>, b: seq<CustomTrait>, name: string)
    ensures WithoutCustom(a + b, name) == WithoutCustom(a, name) + WithoutCustom(b, name)
    decreases |b|
  {
    if b == [] {
      assert a + b == a;
    } else {
      var init := b[..|b| - 1];
      WithoutCustomAppend(a, init, name);
      assert (a + b)[..|a + b| - 1] == a + init;
      assert (a + b)[|a + b| - 1] == b[|b| - 1];
    }
  }

  /** The first custom trait named `name`, as `find` returns it. */
  function FindCustom(customs: seq<CustomTrait>, name: string): (r: Option<CustomTrait>)
    ensures r.None? <==> forall c :: c in customs ==> c.name != name
    ensures r.Some? ==> r.value in customs && r.value.name == name
    ensures r.Some? ==> exists k :: 0 <= k < |customs| && customs[k] == r.value
                                    && forall j :: 0 <= j < k ==> customs[j].name != name
  {
    if customs == [] then None
    else if customs[0].name == name then Some(customs[0])
    else
      var r := FindCustom(customs[1..], name);
      assert r.Some? ==> exists k :: 0 <= k < |customs| && customs[k] == r.value
                                     && forall j :: 0 <= j < k ==> customs[j].name != name by {
        if r.Some? {
          var k :| 0 <= k < |customs[1..]| && customs[1..][k] == r.value
                   && forall j :: 0 <= j < k ==> customs[1..][j].name != name;
          assert customs[k + 1] == r.value;
          forall j | 0 <= j < k + 1 ensures customs[j].name != name {
            if j > 0 { assert customs[j] == customs[1..][j - 1]; }
          }
        }
      }
      r
  }

  // ---------------------------------------------------------------------------
  // Toggling, components/dna-designer.tsx:143-158
  // ---------------------------------------------------------------------------

  /** The selection `toggleTrait(t)` leaves: `t` taken out if it was selected, appended otherwise. */
  function Toggled(selected: seq<string>, t: string): (r: seq<string>)
    ensures t in r <==> t !in selected
    ensures forall y :: y != t ==> (y in r <==> y in selected)
    ensures t !in selected ==> r == selected + [t]
    ensures t in selected ==> r == Without(selected, t)
  {
    if t in selected then Without(selected, t) else selected + [t]
  }

  /**
   * The most recent selection after `toggleTrait(t)`: `t` when it is added;
   * when it is taken out and was the most recent, the last remaining trait,
   * or nothing when none remains; otherwise unchanged.
   */
  function ToggledLast(selected: seq<string>, last: Option<string>, t: string): (r: Option<string>)
    ensures t !in selected ==> r == Some(t)
    ensures t in selected && last != Some(t) ==> r == last
    ensures t in selected && last == Some(t) ==>
              var rest := Without(selected, t);
              r == if rest == [] then None else Some(rest[|rest| - 1])
  {
    if t in selected then
      if last == Some(t) then
        var rest := Without(selected, t);
        if rest == [] then None else Some(rest[|rest| - 1])
      else last
    else Some(t)
  }

  /** The most recent selection, when there is one, is a selected trait. */
  predicate LastIsSelected(selected: seq<string>, last: Option<string>) {
    last.None? || last.value in selected
  }

  /** Toggling keeps the most recent selection among the selected traits. */
  lemma ToggleKeepsLastSelected(selected: seq<string>, last: Option<string>, t: string)
    requires LastIsSelected(selected, last)
    ensures LastIsSelected(Toggled(selected, t), ToggledLast(selected, last, t))
  {
    if t in selected && last == Some(t) {
      var rest := Without(selected, t);
      if rest != [] {
        assert rest[|rest| - 1] in rest;
      }
    }
  }

  /** Toggling an unselected trait twice gives the selection back, but not the most recent selection. */
  lemma ToggleTwice(selected: seq<string>, last: Option<string>, t: string)
    requires t !in selected
    ensures Toggled(Toggled(selected, t), t) == selected
    ensures ToggledLast(Toggled(selected, t), ToggledLast(selected, last, t), t)
            == if selected == [] then None else Some(selected[|selected| - 1])
  {
    assert t in selected + [t];
    WithoutAppended(selected, t);
  }

  // ---------------------------------------------------------------------------
  // Grouping the selection, components/dna-designer.tsx:196-212
  // ---------------------------------------------------------------------------

  /** The group a selected name goes to: `"custom"` for a tagged name, else its category's id; none for unknown names. */
  function GroupKey(cs: seq<TraitsData.TraitCategory>, name: string): (r: Option<string>)
    ensures StartsWith(name, CustomTag) ==> r == Some("custom")
    ensures !StartsWith(name, CustomTag) ==>
              (r.Some? <==> TraitsData.FindCategory(cs, name).Some?)
              && (r.Some? ==> r.value == TraitsData.FindCategory(cs, name).value.id)
  {
    if StartsWith(name, CustomTag) then Some("custom")
    else
      var category := TraitsData.FindCategory(cs, name);
      if category.Some? then Some(category.value.id) else None
  }

  /** A selected name with the group it goes to. */
  datatype Keyed = Keyed(name: string, key: Option<string>)

  /** The selected names with their groups. */
  function Tagged(cs: seq<TraitsData.TraitCategory>, names: seq<string>): (r: seq<Keyed>)
    ensures |r| == |names| && forall i :: 0 <= i < |r| ==> r[i] == Keyed(names[i], GroupKey(cs, names[i]))
  {
    seq(|names|, i requires 0 <= i < |names| => Keyed(names[i], GroupKey(cs, names[i])))
  }

  /** One entry of the grouped selection. */
  datatype Group = Group(key: string, names: seq<string>)

  /** The group keys, in order of first appearance: the key order of `grouped`. */
  function GroupKeys(ks: seq<Keyed>): seq<string>
  {
    if ks == [] then []
    else
      var keys := GroupKeys(ks[..|ks| - 1]);
      var k := ks[|ks| - 1].key;
      if k.None? || k.value in keys then keys else keys + [k.value]
  }

  /** The names that go to group `key`, in selection order. */
  function Members(ks: seq<Keyed>, key: string): (r: seq<string>)
    ensures |ks| == 1 ==> r == if ks[0].key == Some(key) then [ks[0].name] else []
  {
    if ks == [] then []
    else
      var rest := Members(ks[..|ks| - 1], key);
      if ks[|ks| - 1].key == Some(key) then rest + [ks[|ks| - 1].name] else rest
  }

  /** One group per key, in order of first appearance. */
  function Groups(ks: seq<Keyed>): (r: seq<Group>)
    ensures |r| == |GroupKeys(ks)|
    ensures forall g :: 0 <= g < |r| ==> r[g] == Group(GroupKeys(ks)[g], Members(ks, GroupKeys(ks)[g]))
  {
    var keys := GroupKeys(ks);
    seq(|keys|, g requires 0 <= g < |keys| => Group(keys[g], Members(ks, keys[g])))
  }

  /** The grouped selection `getSelectedByCategory` returns. */
  function GroupsOf(cs: seq<TraitsData.TraitCategory>, names: seq<string>): seq<Group> {
    Groups(Tagged(cs, names))
  }

  /** No key is listed twice, and exactly the keys that occur are listed. */
  lemma {:induction false} GroupKeysDistinct(ks: seq<Keyed>)
    ensures forall a, b :: 0 <= a < b < |GroupKeys(ks)| ==> GroupKeys(ks)[a] != GroupKeys(ks)[b]
    ensures forall key :: key in GroupKeys(ks) <==> exists k :: 0 <= k < |ks| && ks[k].key == Some(key)
  {
    if ks != [] {
      var init := ks[..|ks| - 1];
      GroupKeysDistinct(init);
      forall key ensures key in GroupKeys(ks) <==> exists k :: 0 <= k < |ks| && ks[k].key == Some(key) {
        if exists k :: 0 <= k < |init| && init[k].key == Some(key) {
          var k :| 0 <= k < |init| && init[k].key == Some(key);
          assert ks[k] == init[k];
        }
        if exists k :: 0 <= k < |ks| && ks[k].key == Some(key) {
          var k :| 0 <= k < |ks| && ks[k].key == Some(key);
          if k < |init| { assert init[k] == ks[k]; }
        }
      }
    }
  }

  /** A group holds exactly the names with its key. */
  lemma {:induction false} MembersExactly(ks: seq<Keyed>, key: string)
    ensures forall n :: n in Members(ks, key) <==> Keyed(n, Some(key)) in ks
  {
    if ks != [] {
      MembersExactly(ks[..|ks| - 1], key);
      assert ks == ks[..|ks| - 1] + [ks[|ks| - 1]];
    }
  }

  /** Collecting a group's names splits over a concatenation, so they keep the selection order. */
  lemma {:induction false} MembersAppend(a: seq<Keyed>, b: seq<Keyed>, key: string)
    ensures Members(a + b, key) == Members(a, key) + Members(b, key)
    decreases |b|
  {
    if b == [] {
      assert a + b == a;
    } else {
      var init := b[..|b| - 1];
      MembersAppend(a, init, key);
      assert (a + b)[..|a + b| - 1] == a + init;
      assert (a + b)[|a + b| - 1] == b[|b| - 1];
    }
  }

  /** The selected names with key `key`, front to back: the reference filter over the selection. */
  function NamesWithKey(cs: seq<TraitsData.TraitCategory>, names: seq<string>, key: string): seq<string>
  {
    if names == [] then []
    else (if GroupKey(cs, names[0]) == Some(key) then [names[0]] else []) + NamesWithKey(cs, names[1..], key)
  }

  /** A group of the tagged selection holds its names in selection order, each as often as it is selected. */
  lemma {:induction false} MembersInSelectionOrder(cs: seq<TraitsData.TraitCategory>, names: seq<string>, key: string)
    ensures Members(Tagged(cs, names), key) == NamesWithKey(cs, names, key)
  {
    if names != [] {
      MembersInSelectionOrder(cs, names[1..], key);
      var head := [Keyed(names[0], GroupKey(cs, names[0]))];
      assert Tagged(cs, names) == head + Tagged(cs, names[1..]);
      MembersAppend(head, Tagged(cs, names[1..]), key);
    }
  }

  lemma {:induction false} MembersEmpty(ks: seq<Keyed>, key: string)
    ensures key !in GroupKeys(ks) ==> Members(ks, key) == []
  {
    if ks != [] {
      MembersEmpty(ks[..|ks| - 1], key);
    }
  }

  /**
   * The grouping puts custom names under `"custom"` and catalogue names under their
   * category's id, and drops unknown names: a group holds exactly the selected names
   * of its key, each known name is in a group, and no key has two groups.
   */
  lemma GroupedSelection(cs: seq<TraitsData.TraitCategory>, names: seq<string>)
    ensures forall g :: 0 <= g < |GroupsOf(cs, names)| ==>
              forall n :: n in GroupsOf(cs, names)[g].names <==> n in names && GroupKey(cs, n) == Some(GroupsOf(cs, names)[g].key)
    ensures forall n :: n in names && GroupKey(cs, n).Some? ==>
              exists g :: 0 <= g < |GroupsOf(cs, names)| && n in GroupsOf(cs, names)[g].names
    ensures forall a, b :: 0 <= a < b < |GroupsOf(cs, names)| ==> GroupsOf(cs, names)[a].key != GroupsOf(cs, names)[b].key
    ensures forall g :: 0 <= g < |GroupsOf(cs, names)| ==>
              GroupsOf(cs, names)[g].names == NamesWithKey(cs, names, GroupsOf(cs, names)[g].key)
  {
    var ks := Tagged(cs, names);
    var gs := GroupsOf(cs, names);
    GroupKeysDistinct(ks);
    forall g | 0 <= g < |gs| ensures gs[g].names == NamesWithKey(cs, names, gs[g].key) {
      MembersInSelectionOrder(cs, names, gs[g].key);
    }
    forall g | 0 <= g < |gs|
      ensures forall n :: n in gs[g].names <==> n in names && GroupKey(cs, n) == Some(gs[g].key)
    {
      MembersExactly(ks, gs[g].key);
      forall n ensures Keyed(n, Some(gs[g].key)) in ks <==> n in names && GroupKey(cs, n) == Some(gs[g].key) {
        if n in names && GroupKey(cs, n) == Some(gs[g].key) {
          var i :| 0 <= i < |names| && names[i] == n;
          assert ks[i] == Keyed(n, Some(gs[g].key));
        }
      }
    }
    forall n | n in names && GroupKey(cs, n).Some?
      ensures exists g :: 0 <= g < |gs| && n in gs[g].names
    {
      var i :| 0 <= i < |names| && names[i] == n;
      var key := GroupKey(cs, n).value;
      assert ks[i].key == Some(key);
      var g :| 0 <= g < |GroupKeys(ks)| && GroupKeys(ks)[g] == key;
      MembersExactly(ks, key);
      assert ks[i] == Keyed(n, Some(key));
      assert n in gs[g].names;
    }
  }

  /** `grouped[key]` as a lookup: the position of the group of `key`, or -1. */
  function FindGroup(groups: seq<Group>, key: string): (r: int)
    ensures -1 <= r < |groups|
    ensures r >= 0 ==> groups[r].key == key
    ensures r < 0 <==> forall g :: 0 <= g < |groups| ==> groups[g].key != key
  {
    if groups == [] then -1
    else if groups[|groups| - 1].key == key then |groups| - 1
    else FindGroup(groups[..|groups| - 1], key)
  }

  lemma GroupsStep(ks: seq<Keyed>, x: Keyed, j: int)
    requires x.key.Some?
    requires j == FindGroup(Groups(ks), x.key.value)
    ensures j < 0 ==> Groups(ks + [x]) == Groups(ks) + [Group(x.key.value, [x.name])]
    ensures j >= 0 ==> Groups(ks + [x]) == Groups(ks)[j := Group(x.key.value, Groups(ks)[j].names + [x.name])]
  {
    var key := x.key.value;
    var xs := ks + [x];
    assert xs[..|xs| - 1] == ks;
    var keys, keys' := GroupKeys(ks), GroupKeys(xs);
    var gs, gs' := Groups(ks), Groups(xs);
    forall c ensures Members(xs, c) == Members(ks, c) + (if key == c then [x.name] else []) {
    }
    if j < 0 {
      assert key !in keys by {
        forall g | 0 <= g < |keys| ensures keys[g] != key { assert gs[g].key == keys[g]; }
      }
      assert keys' == keys + [key];
      MembersEmpty(ks, key);
      forall g | 0 <= g < |gs'| ensures gs'[g] == (gs + [Group(key, [x.name])])[g] {
        if g < |keys| { assert keys[g] != key; }
      }
      assert gs' == gs + [Group(key, [x.name])];
    } else {
      assert keys[j] == key;
      assert keys' == keys;
      GroupKeysDistinct(ks);
      assert gs' == gs[j := Group(key, gs[j].names + [x.name])];
    }
  }

  lemma GroupsSkip(ks: seq<Keyed>, x: Keyed)
    requires x.key.None?
    ensures Groups(ks + [x]) == Groups(ks)
  {
    var xs := ks + [x];
    assert xs[..|xs| - 1] == ks;
    forall c ensures Members(xs, c) == Members(ks, c) {
    }
  }

  /** The `forEach` of `getSelectedByCategory`, pushing each selected name onto its group. */
  method SelectedByCategory(cs: seq<TraitsData.TraitCategory>, selectedTraits: seq<string>) returns (groups: seq<Group>)
    ensures groups == GroupsOf(cs, selectedTraits)
  {
    ghost var ks := Tagged(cs, selectedTraits);
    groups := [];
    var i := 0;
    while i < |selectedTraits|
      invariant 0 <= i <= |selectedTraits|
      invariant groups == Groups(ks[..i])
    {
      var name := selectedTraits[i];
      var key := GroupKey(cs, name);
      assert ks[..i + 1] == ks[..i] + [Keyed(name, key)];
      if key.Some? {
        var j := FindGroup(groups, key.value);
        GroupsStep(ks[..i], Keyed(name, key), j);
        if j < 0 {
          groups := groups + [Group(key.value, [name])];
        } else {
          groups := groups[j := Group(key.value, groups[j].names + [name])];
        }
      } else {
        GroupsSkip(ks[..i], Keyed(name, key));
      }
      i := i + 1;
    }
    assert ks[..i] == ks;
  }

  // ---------------------------------------------------------------------------
  // Search, components/dna-designer.tsx:286-318
  // ---------------------------------------------------------------------------

  /** A search hit: the trait with its category, `{ ...trait, category }`. */
  datatype Hit = Hit(item: TraitsData.Trait, category: TraitsData.TraitCategory)

  /** The lower-cased query is part of the name, description, gene, Chinese name or category name. */
  predicate Matches(query: string, category: TraitsData.TraitCategory, t: TraitsData.Trait) {
    || Includes(ToLower(t.name), query)
    || Includes(ToLower(t.description), query)
    || Includes(ToLower(t.gene), query)
    || Includes(ToLower(t.chineseName), query)
    || Includes(ToLower(category.name), query)
  }

  /** `category.traits.filter(...).map((trait) => ({ ...trait, category }))`. */
  function CategoryHits(query: string, category: TraitsData.TraitCategory, ts: seq<TraitsData.Trait>): (r: seq<Hit>)
    ensures forall h :: h in r <==> h.category == category && h.item in ts && Matches(query, category, h.item)
    ensures |ts| == 1 ==> r == if Matches(query, category, ts[0]) then [Hit(ts[0], category)] else []
  {
    if ts == [] then []
    else
      var rest := CategoryHits(query, category, ts[1..]);
      if Matches(query, category, ts[0]) then [Hit(ts[0], category)] + rest else rest
  }

  /** Concatenation is associative; stated once so the filter proofs need not rediscover it. */
  lemma ConcatAssoc<T>(x: seq<T>, y: seq<T>, z: seq<T>)
    ensures x + (y + z) == (x + y) + z
  {
  }

  /** The trait filter splits over a concatenation, so the hits keep the category's trait order. */
  lemma {:induction false} CategoryHitsAppend(query: string, category: TraitsData.TraitCategory,
                                              a: seq<TraitsData.Trait>, b: seq<TraitsData.Trait>)
    ensures CategoryHits(query, category, a + b) == CategoryHits(query, category, a) + CategoryHits(query, category, b)
  {
    var ab := a + b;
    if a == [] {
      assert ab == b;
    } else {
      assert ab[0] == a[0] && ab[1..] == a[1..] + b;
      CategoryHitsAppend(query, category, a[1..], b);
      var x, y := CategoryHits(query, category, a[1..]), CategoryHits(query, category, b);
      if Matches(query, category, a[0]) {
        assert CategoryHits(query, category, ab) == [Hit(a[0], category)] + (x + y);
        assert CategoryHits(query, category, a) == [Hit(a[0], category)] + x;
        ConcatAssoc([Hit(a[0], category)], x, y);
      } else {
        assert CategoryHits(query, category, ab) == x + y;
        assert CategoryHits(query, category, a) == x;
      }
    }
  }

  /** `traitCategories.flatMap(...)`: the hits of every category, in catalogue order. */
  function SearchHits(query: string, cs: seq<TraitsData.TraitCategory>): (r: seq<Hit>)
    ensures forall h :: h in r ==> h.category in cs && h.item in h.category.traits && Matches(query, h.category, h.item)
    ensures |cs| == 1 ==> r == CategoryHits(query, cs[0], cs[0].traits)
  {
    if cs == [] then [] else CategoryHits(query, cs[0], cs[0].traits) + SearchHits(query, cs[1..])
  }

  /** A hit is a trait of one of the categories, listed with it, that matches; every such trait is a hit. */
  lemma {:induction false} SearchHitsExactly(query: string, cs: seq<TraitsData.TraitCategory>, h: Hit)
    ensures h in SearchHits(query, cs) <==>
              exists c :: 0 <= c < |cs| && h.category == cs[c] && h.item in cs[c].traits && Matches(query, cs[c], h.item)
  {
    if cs != [] {
      SearchHitsExactly(query, cs[1..], h);
      if exists c :: 0 <= c < |cs[1..]| && h.category == cs[1..][c] && h.item in cs[1..][c].traits && Matches(query, cs[1..][c], h.item) {
        var c :| 0 <= c < |cs[1..]| && h.category == cs[1..][c] && h.item in cs[1..][c].traits && Matches(query, cs[1..][c], h.item);
        assert cs[c + 1] == cs[1..][c];
      }
      if exists c :: 0 <= c < |cs| && h.category == cs[c] && h.item in cs[c].traits && Matches(query, cs[c], h.item) {
        var c :| 0 <= c < |cs| && h.category == cs[c] && h.item in cs[c].traits && Matches(query, cs[c], h.item);
        if c > 0 { assert cs[1..][c - 1] == cs[c]; }
      }
    }
  }

  /** The search of a concatenation of categories lists the first part's hits, then the second's. */
  lemma {:induction false} SearchHitsAppend(query: string, a: seq<TraitsData.TraitCategory>, b: seq<TraitsData.TraitCategory>)
    ensures SearchHits(query, a + b) == SearchHits(query, a) + SearchHits(query, b)
  {
    var ab := a + b;
    if a == [] {
      assert ab == b;
    } else {
      assert ab[0] == a[0] && ab[1..] == a[1..] + b;
      SearchHitsAppend(query, a[1..], b);
      var head := CategoryHits(query, a[0], a[0].traits);
      assert SearchHits(query, ab) == head + SearchHits(query, ab[1..]);
      assert SearchHits(query, a) == head + SearchHits(query, a[1..]);
      ConcatAssoc(head, SearchHits(query, a[1..]), SearchHits(query, b));
    }
  }

  /** A custom trait's name, description or gene holds the query. */
  predicate CustomMatches(query: string, c: CustomTrait) {
    Includes(ToLower(c.name), query) || Includes(ToLower(c.description), query) || Includes(ToLower(c.gene), query)
  }

  /** The custom traits whose name, description or gene holds the query. */
  function CustomHits(query: string, customs: seq<CustomTrait>): (r: seq<CustomTrait>)
    ensures forall c :: c in r <==>
              (c in customs && (Includes(ToLower(c.name), query) || Includes(ToLower(c.description), query)
                                || Includes(ToLower(c.gene), query)))
    ensures |customs| == 1 ==> r == if CustomMatches(query, customs[0]) then customs else []
  {
    if customs == [] then []
    else
      var c := customs[0];
      var rest := CustomHits(query, customs[1..]);
      if Includes(ToLower(c.name), query) || Includes(ToLower(c.description), query) || Includes(ToLower(c.gene), query)
      then [c] + rest else rest
  }

  /** The custom filter splits over a concatenation, so the hits keep the order of the custom list. */
  lemma {:induction false} CustomHitsAppend(query: string, a: seq<CustomTrait>, b: seq<CustomTrait>)
    ensures CustomHits(query, a + b) == CustomHits(query, a) + CustomHits(query, b)
  {
    if a == [] {
      assert a + b == b;
    } else {
      var ab := a + b;
      assert ab[0] == a[0] && ab[1..] == a[1..] + b;
      CustomHitsAppend(query, a[1..], b);
      var x, y := CustomHits(query, a[1..]), CustomHits(query, b);
      if CustomMatches(query, a[0]) {
        assert CustomHits(query, ab) == [a[0]] + (x + y);
        assert CustomHits(query, a) == [a[0]] + x;
        ConcatAssoc([a[0]], x, y);
      } else {
        assert CustomHits(query, ab) == x + y;
        assert CustomHits(query, a) == x;
      }
    }
  }

  /** What the trait panel lists: the browsing view, or the catalogue and custom hits of a search. */
  datatype Panel = Browse | Results(hits: seq<Hit>, customHits: seq<CustomTrait>)

  /** The panel for the typed query: a search runs only when the trimmed query is non-empty. */
  function SearchPanel(searchQuery: string, customs: seq<CustomTrait>): (p: Panel)
    ensures p.Browse? <==> Trim(searchQuery) == ""
    ensures p.Results? ==> p.hits == SearchHits(Trim(ToLower(searchQuery)), TraitsData.Categories)
                           && p.customHits == CustomHits(Trim(ToLower(searchQuery)), customs)
  {
    if Trim(searchQuery) != "" then
      var query := Trim(ToLower(searchQuery));
      Results(SearchHits(query, TraitsData.Categories), CustomHits(query, customs))
    else Browse
  }

  /** The search ignores ASCII case: two queries that lower to the same string give the same panel. */
  lemma SearchIgnoresCase(q1: string, q2: string, customs: seq<CustomTrait>)
    requires ToLower(q1) == ToLower(q2)
    ensures SearchPanel(q1, customs) == SearchPanel(q2, customs)
  {
    BlankIgnoresCase(q1, q2);
  }

  /** The results header: `Found n trait(s)` or `No traits found`. */
  function ResultsHeader(count: nat): (r: string)
    ensures count == 0 ==> r == "No traits found"
    ensures count > 0 ==> r == "Found " + NatToString(count) + (if count == 1 then " trait" else " traits")
  {
    if count > 0 then "Found " + NatToString(count) + " trait" + (if count != 1 then "s" else "")
    else "No traits found"
  }

  // ---------------------------------------------------------------------------
  // Text view colouring, components/dna-designer.tsx:934-971
  // ---------------------------------------------------------------------------

  /** The residue classes of the protein colouring. */
  datatype ResidueClass = Hydrophobic | Polar | Charged | Special | MutedResidue

  const HydrophobicResidues: string := "AILMFWVP"
  const PolarResidues: string := "STYCNQ"
  const ChargedResidues: string := "DEKRH"
  const SpecialResidues: string := "GP"

  /** The first list, in the order hydrophobic, polar, charged, special, that holds the residue. */
  function ClassifyResidue(c: char): (r: ResidueClass)
    ensures r == Hydrophobic <==> c in HydrophobicResidues
    ensures r == Polar <==> c !in HydrophobicResidues && c in PolarResidues
    ensures r == Charged <==> c !in HydrophobicResidues && c !in PolarResidues && c in ChargedResidues
    ensures r == Special <==> c !in HydrophobicResidues && c !in PolarResidues && c !in ChargedResidues && c in SpecialResidues
  {
    if c in HydrophobicResidues then Hydrophobic
    else if c in PolarResidues then Polar
    else if c in ChargedResidues then Charged
    else if c in SpecialResidues then Special
    else MutedResidue
  }

  /** The CSS class of a residue's class. */
  function ResidueColor(r: ResidueClass): (css: string)
    ensures "text-" <= css
    ensures css == "text-muted-foreground" <==> r == MutedResidue
  {
    match r
    case Hydrophobic => "text-amber-500"
    case Polar => "text-cyan-500"
    case Charged => "text-rose-500"
    case Special => "text-violet-500"
    case MutedResidue => "text-muted-foreground"
  }

  /** The special list is shadowed for P: proline is hydrophobic, so only glycine is special. */
  lemma OnlyGlycineIsSpecial(c: char)
    ensures ClassifyResidue(c) == Special <==> c == 'G'
  {
  }

  /** The CSS class of a nucleotide: A, T, U, G and C have their own, anything else is muted. */
  function BaseColor(c: char): (r: string)
    ensures r != "text-muted-foreground" <==> c in "ATUGC"
  {
    if c == 'A' then "text-primary"
    else if c == 'T' then "text-chart-2"
    else if c == 'U' then "text-orange-500"
    else if c == 'G' then "text-accent"
    else if c == 'C' then "text-chart-4"
    else "text-muted-foreground"
  }

  // ---------------------------------------------------------------------------
  // Base counts, components/dna-designer.tsx:1009-1032
  // ---------------------------------------------------------------------------

  /** `sequence.split("").filter((b) => b === base).length`. */
  function CountOf(s: string, base: char): (n: nat)
    ensures n <= |s|
    ensures n == 0 <==> base !in s
  {
    if s == [] then 0
    else CountOf(s[..|s| - 1], base) + (if s[|s| - 1] == base then 1 else 0)
  }

  /** The four DNA counts add up to the length exactly when the sequence holds only A, T, G and C. */
  lemma {:induction false} DnaCountsCover(s: string)
    ensures CountOf(s, 'A') + CountOf(s, 'T') + CountOf(s, 'G') + CountOf(s, 'C') <= |s|
    ensures CountOf(s, 'A') + CountOf(s, 'T') + CountOf(s, 'G') + CountOf(s, 'C') == |s|
            <==> forall k :: 0 <= k < |s| ==> s[k] in "ATGC"
  {
    if s != [] {
      var init := s[..|s| - 1];
      DnaCountsCover(init);
      assert forall k :: 0 <= k < |init| ==> init[k] == s[k];
    }
  }

  // ---------------------------------------------------------------------------
  // The FASTA download, components/dna-designer.tsx:172-179
  // ---------------------------------------------------------------------------

  /** The characters that the regular-expression `.` does not match. */
  predicate IsLineTerminator(c: char) {
    c == '\n' || c == '\r' || c == '\U{2028}' || c == '\U{2029}'
  }

  predicate NoLineTerminators(s: string) {
    forall k :: 0 <= k < |s| ==> !IsLineTerminator(s[k])
  }

  /** How many of the first `n` characters of `s` precede the first line terminator. */
  function RunLength(s: string, n: nat): (k: nat)
    ensures k <= n && k <= |s|
    ensures forall i :: 0 <= i < k ==> !IsLineTerminator(s[i])
    ensures k < n && k < |s| ==> IsLineTerminator(s[k])
  {
    if n == 0 || s == [] || IsLineTerminator(s[0]) then 0
    else 1 + RunLength(s[1..], n - 1)
  }

  /** The width of a FASTA line. */
  const LineWidth: nat := 70

  /** `s.match(/.{1,70}/g)`: greedy runs of at most 70 characters, line terminators skipped. */
  function Lines(s: string): (r: seq<string>)
    ensures forall k :: 0 <= k < |r| ==> 1 <= |r[k]| <= LineWidth && NoLineTerminators(r[k])
    decreases |s|
  {
    if s == [] then []
    else if IsLineTerminator(s[0]) then Lines(s[1..])
    else
      var k := RunLength(s, LineWidth);
      [s[..k]] + Lines(s[k..])
  }

  function Concat(parts: seq<string>): string {
    if parts == [] then [] else parts[0] + Concat(parts[1..])
  }

  /** The sequence with its newlines deleted. */
  function DeleteNewlines(s: string): string
  {
    if s == [] then []
    else (if s[0] == '\n' then [] else [s[0]]) + DeleteNewlines(s[1..])
  }

  lemma {:induction false} DeleteNewlinesAppend(a: string, b: string)
    ensures DeleteNewlines(a + b) == DeleteNewlines(a) + DeleteNewlines(b)
  {
    if a == [] {
      assert a + b == b;
    } else {
      assert (a + b)[0] == a[0];
      assert (a + b)[1..] == a[1..] + b;
      DeleteNewlinesAppend(a[1..], b);
    }
  }

  lemma {:induction false} DeleteNoNewlines(s: string)
    requires NoLineTerminators(s)
    ensures DeleteNewlines(s) == s
  {
    if s != [] {
      assert !IsLineTerminator(s[0]);
      DeleteNoNewlines(s[1..]);
    }
  }

  /**
   * A sequence without line terminators is cut into lines that concatenate back to
   * it, each of 1 to 70 characters, all but the last exactly 70.
   */
  lemma {:induction false} LinesShape(s: string)
    requires NoLineTerminators(s)
    ensures Concat(Lines(s)) == s
    ensures forall k :: 0 <= k < |Lines(s)| ==> 1 <= |Lines(s)[k]| <= LineWidth && NoLineTerminators(Lines(s)[k])
    ensures forall k :: 0 <= k < |Lines(s)| - 1 ==> |Lines(s)[k]| == LineWidth
    ensures Lines(s) == [] <==> s == []
    decreases |s|
  {
    if s != [] {
      assert !IsLineTerminator(s[0]);
      var k := RunLength(s, LineWidth);
      var rest := s[k..];
      assert NoLineTerminators(rest) by {
        forall i | 0 <= i < |rest| ensures !IsLineTerminator(rest[i]) { assert rest[i] == s[k + i]; }
      }
      LinesShape(rest);
      assert Lines(s) == [s[..k]] + Lines(rest);
      assert s == s[..k] + rest;
      if k < LineWidth {
        assert rest == [];
      }
    }
  }

  /** The FASTA body: the lines joined by newlines, or the sequence itself when nothing matched. */
  function FastaBody(s: string): (r: string)
    ensures r == [] <==> s == []
  {
    var lines := Lines(s);
    if lines == [] then s else Join(lines, "\n")
  }

  lemma {:induction false} DeleteNewlinesJoin(parts: seq<string>)
    requires forall k :: 0 <= k < |parts| ==> NoLineTerminators(parts[k])
    ensures DeleteNewlines(Join(parts, "\n")) == Concat(parts)
  {
    if parts == [] {
    } else if |parts| == 1 {
      DeleteNoNewlines(parts[0]);
      assert Concat(parts[1..]) == [];
    } else {
      var head, tail := parts[0], Join(parts[1..], "\n");
      assert Join(parts, "\n") == (head + "\n") + tail;
      DeleteNewlinesJoin(parts[1..]);
      DeleteNewlinesAppend(head + "\n", tail);
      DeleteNewlinesAppend(head, "\n");
      DeleteNoNewlines(head);
      assert DeleteNewlines("\n") == [];
    }
  }

  /** Deleting the inserted newlines gives the sequence back, for a sequence without line terminators. */
  lemma FastaBodyRoundTrip(s: string)
    requires NoLineTerminators(s)
    ensures DeleteNewlines(FastaBody(s)) == s
  {
    LinesShape(s);
    if Lines(s) == [] {
      DeleteNoNewlines(s);
    } else {
      DeleteNewlinesJoin(Lines(s));
    }
  }

  /** The downloaded file, or nothing when there is no organism or its sequence is empty; `now` is `Date.now()`. */
  function FastaContent(organism: Option<Organism>, now: nat): (r: Option<string>)
    ensures r.None? <==> organism.None? || organism.value.sequence == ""
  {
    if organism.None? || organism.value.sequence == "" then None
    else
      var o := organism.value;
      var header := ">Synthetic_Organism_" + NatToString(now) + "\n"
                    + "; Traits: " + Join(o.traits, ", ") + "\n"
                    + "; GC Content: " + o.gcContent + "%\n"
                    + "; Length: " + o.length + " bp\n";
      Some(header + FastaBody(o.sequence))
  }

  /** The file starts with the header line and ends with the body. */
  lemma FastaContentEnds(o: Organism, now: nat)
    requires o.sequence != ""
    ensures var r := FastaContent(Some(o), now);
            r.Some? && ">Synthetic_Organism_" <= r.value
            && r.value[|r.value| - |FastaBody(o.sequence)|..] == FastaBody(o.sequence)
  {
  }

  /** Every selected custom name belongs to a custom trait. */
  ghost predicate Backed(selected: seq<string>, customs: seq<CustomTrait>) {
    forall t :: t in selected && StartsWith(t, CustomTag) ==> exists c :: c in customs && t == CustomTag + c.name
  }

  /** Adding a custom trait and selecting it keeps the selection backed. */
  lemma BackedAfterAdd(selected: seq<string>, customs: seq<CustomTrait>, c: CustomTrait)
    requires Backed(selected, customs)
    ensures Backed(selected + [CustomTag + c.name], customs + [c])
  {
    assert c in customs + [c];
  }

  /** Removing names from the selection, or a custom trait together with its entry, keeps it backed. */
  lemma BackedAfterRemove(selected: seq<string>, customs: seq<CustomTrait>, name: string, t: string)
    requires Backed(selected, customs)
    ensures Backed(Without(selected, t), customs)
    ensures Backed(Without(selected, CustomTag + name), WithoutCustom(customs, name))
  {
    forall u | u in Without(selected, CustomTag + name) && StartsWith(u, CustomTag)
      ensures exists c :: c in WithoutCustom(customs, name) && u == CustomTag + c.name
    {
      var c :| c in customs && u == CustomTag + c.name;
      assert c.name != name;
    }
  }

  /**
   * The trait `addCustomTrait` adds from the form: only with a non-blank name and
   * description, trimmed, the gene defaulting to `"CUSTOM"` when blank.
   */
  function FormTrait(form: CustomTrait): (r: Option<CustomTrait>)
    ensures r.Some? <==> Trim(form.name) != "" && Trim(form.description) != ""
    ensures r.Some? ==> r.value.name == Trim(form.name) && r.value.description == Trim(form.description)
                        && r.value.gene == (if Trim(form.gene) == "" then "CUSTOM" else Trim(form.gene))
    ensures r.Some? ==> r.value.name != "" && r.value.gene != "" && r.value.description != ""
  {
    if Trim(form.name) != "" && Trim(form.description) != "" then
      Some(CustomTrait(Trim(form.name), if Trim(form.gene) != "" then Trim(form.gene) else "CUSTOM",
                       Trim(form.description)))
    else None
  }

  // ---------------------------------------------------------------------------
  // The designer's state, components/dna-designer.tsx:47-212, 721
  // ---------------------------------------------------------------------------

  class Designer {
    var selectedTraits: seq<string>
    var lastSelectedTrait: Option<string>
    var customTraits: seq<CustomTrait>
    var newCustomTrait: CustomTrait
    var showCustomForm: bool
    var error: Option<string>
    var organism: Option<Organism>
    var searchQuery: string

    /** Every selected custom name belongs to a custom trait. */
    ghost predicate CustomsBacked()
      reads this
    {
      Backed(selectedTraits, customTraits)
    }

    /** The initial state: nothing selected, no custom traits, an empty form. */
    constructor ()
      ensures selectedTraits == [] && lastSelectedTrait == None && customTraits == []
      ensures newCustomTrait == BlankForm && !showCustomForm && error == None && organism == None
      ensures searchQuery == ""
      ensures CustomsBacked() && LastIsSelected(selectedTraits, lastSelectedTrait)
    {
      selectedTraits := [];
      lastSelectedTrait := None;
      customTraits := [];
      newCustomTrait := BlankForm;
      showCustomForm := false;
      error := None;
      organism := None;
      searchQuery := "";
    }

    /** The form's input handlers. */
    method EditForm(name: string, gene: string, description: string)
      modifies this
      ensures searchQuery == old(searchQuery)
      ensures newCustomTrait == CustomTrait(name, gene, description)
      ensures selectedTraits == old(selectedTraits) && lastSelectedTrait == old(lastSelectedTrait)
      ensures customTraits == old(customTraits) && showCustomForm == old(showCustomForm)
      ensures error == old(error) && organism == old(organism)
    {
      newCustomTrait := CustomTrait(name, gene, description);
    }

    /**
     * `addCustomTrait`: with a non-blank name and description, the trimmed trait
     * (gene `"CUSTOM"` when blank) is added, selected and made the most recent
     * selection, and the form is cleared and closed; otherwise nothing changes.
     */
    method AddCustomTrait()
      modifies this
      ensures searchQuery == old(searchQuery)
      ensures FormTrait(old(newCustomTrait)).Some? ==>
                var added := FormTrait(old(newCustomTrait)).value;
                && customTraits == old(customTraits) + [added]
                && selectedTraits == old(selectedTraits) + [CustomTag + added.name]
                && lastSelectedTrait == Some(CustomTag + added.name)
                && newCustomTrait == BlankForm && !showCustomForm
      ensures FormTrait(old(newCustomTrait)).None? ==>
                && customTraits == old(customTraits) && selectedTraits == old(selectedTraits)
                && lastSelectedTrait == old(lastSelectedTrait)
                && newCustomTrait == old(newCustomTrait) && showCustomForm == old(showCustomForm)
      ensures error == old(error) && organism == old(organism)
      ensures old(CustomsBacked()) ==> CustomsBacked()
      ensures old(LastIsSelected(selectedTraits, lastSelectedTrait)) ==> LastIsSelected(selectedTraits, lastSelectedTrait)
    {
      var added := FormTrait(newCustomTrait);
      if added.Some? {
        var t := added.value;
        if CustomsBacked() {
          BackedAfterAdd(selectedTraits, customTraits, t);
        }
        customTraits := customTraits + [t];
        selectedTraits := selectedTraits + [CustomTag + t.name];
        lastSelectedTrait := Some(CustomTag + t.name);
        newCustomTrait := BlankForm;
        showCustomForm := false;
      }
    }

    /** The Add Custom Trait button opens the form. */
    method OpenForm()
      modifies this
      ensures showCustomForm
      ensures selectedTraits == old(selectedTraits) && lastSelectedTrait == old(lastSelectedTrait)
      ensures customTraits == old(customTraits) && newCustomTrait == old(newCustomTrait)
      ensures error == old(error) && organism == old(organism) && searchQuery == old(searchQuery)
    {
      showCustomForm := true;
    }

    /** The form's Cancel button closes it and clears it. */
    method CancelForm()
      modifies this
      ensures !showCustomForm && newCustomTrait == BlankForm
      ensures selectedTraits == old(selectedTraits) && lastSelectedTrait == old(lastSelectedTrait)
      ensures customTraits == old(customTraits)
      ensures error == old(error) && organism == old(organism) && searchQuery == old(searchQuery)
    {
      showCustomForm := false;
      newCustomTrait := BlankForm;
    }

    /** The search box, its clear button (with `""`) and the inline form's name field set the query. */
    method TypeQuery(q: string)
      modifies this
      ensures searchQuery == q
      ensures selectedTraits == old(selectedTraits) && lastSelectedTrait == old(lastSelectedTrait)
      ensures customTraits == old(customTraits) && newCustomTrait == old(newCustomTrait)
      ensures showCustomForm == old(showCustomForm) && error == old(error) && organism == old(organism)
    {
      searchQuery := q;
    }

    /**
     * The Create & Select button of the inline form shown for a search without
     * hits: the trimmed query names the trait, which needs a non-blank
     * description as well; it is added, selected and made the most recent
     * selection, and the query and the form are cleared. Whether the side
     * form is open is left as it was; with a blank name or description
     * nothing changes.
     */
    method CreateAndSelect()
      modifies this
      ensures var form := FormTrait(CustomTrait(old(searchQuery), old(newCustomTrait).gene, old(newCustomTrait).description));
              form.Some? ==>
                var added := form.value;
                && added.name == Trim(old(searchQuery))
                && customTraits == old(customTraits) + [added]
                && selectedTraits == old(selectedTraits) + [CustomTag + added.name]
                && lastSelectedTrait == Some(CustomTag + added.name)
                && searchQuery == "" && newCustomTrait == BlankForm
      ensures var form := FormTrait(CustomTrait(old(searchQuery), old(newCustomTrait).gene, old(newCustomTrait).description));
              form.None? ==>
                && customTraits == old(customTraits) && selectedTraits == old(selectedTraits)
                && lastSelectedTrait == old(lastSelectedTrait)
                && searchQuery == old(searchQuery) && newCustomTrait == old(newCustomTrait)
      ensures showCustomForm == old(showCustomForm) && error == old(error) && organism == old(organism)
      ensures old(CustomsBacked()) ==> CustomsBacked()
      ensures old(LastIsSelected(selectedTraits, lastSelectedTrait)) ==> LastIsSelected(selectedTraits, lastSelectedTrait)
    {
      var added := FormTrait(CustomTrait(searchQuery, newCustomTrait.gene, newCustomTrait.description));
      if added.Some? {
        var t := added.value;
        if CustomsBacked() {
          BackedAfterAdd(selectedTraits, customTraits, t);
        }
        customTraits := customTraits + [t];
        selectedTraits := selectedTraits + [CustomTag + t.name];
        lastSelectedTrait := Some(CustomTag + t.name);
        searchQuery := "";
        newCustomTrait := BlankForm;
      }
    }

    /** The inline form's Cancel button clears the query and the form. */
    method CancelCreate()
      modifies this
      ensures searchQuery == "" && newCustomTrait == BlankForm
      ensures selectedTraits == old(selectedTraits) && lastSelectedTrait == old(lastSelectedTrait)
      ensures customTraits == old(customTraits)
      ensures showCustomForm == old(showCustomForm) && error == old(error) && organism == old(organism)
    {
      searchQuery := "";
      newCustomTrait := BlankForm;
    }

    /**
     * `removeCustomTrait(n)`: the custom traits named `n` and their entries
     * in the selection go; the most recent selection is left as it was.
     */
    method RemoveCustomTrait(traitName: string)
      modifies this
      ensures searchQuery == old(searchQuery)
      ensures customTraits == WithoutCustom(old(customTraits), traitName)
      ensures selectedTraits == Without(old(selectedTraits), CustomTag + traitName)
      ensures lastSelectedTrait == old(lastSelectedTrait)
      ensures newCustomTrait == old(newCustomTrait) && showCustomForm == old(showCustomForm)
      ensures error == old(error) && organism == old(organism)
      ensures old(CustomsBacked()) ==> CustomsBacked()
    {
      if CustomsBacked() {
        BackedAfterRemove(selectedTraits, customTraits, traitName, traitName);
      }
      customTraits := WithoutCustom(customTraits, traitName);
      selectedTraits := Without(selectedTraits, CustomTag + traitName);
    }

    /** `getCustomTrait(name)`: the first custom trait named like `name` with its tag deleted. */
    function GetCustomTrait(name: string): (r: Option<CustomTrait>)
      reads this
      ensures r.Some? ==> r.value in customTraits && r.value.name == StripTag(name)
      ensures r.None? <==> forall c :: c in customTraits ==> c.name != StripTag(name)
      ensures r.Some? ==> exists k :: 0 <= k < |customTraits| && customTraits[k] == r.value
                                      && forall j :: 0 <= j < k ==> customTraits[j].name != StripTag(name)
    {
      FindCustom(customTraits, StripTag(name))
    }

    /** `toggleTrait(t)`. */
    method ToggleTrait(t: string)
      modifies this
      ensures searchQuery == old(searchQuery)
      ensures selectedTraits == Toggled(old(selectedTraits), t)
      ensures lastSelectedTrait == ToggledLast(old(selectedTraits), old(lastSelectedTrait), t)
      ensures customTraits == old(customTraits) && newCustomTrait == old(newCustomTrait)
      ensures showCustomForm == old(showCustomForm) && error == old(error) && organism == old(organism)
      ensures old(LastIsSelected(selectedTraits, lastSelectedTrait)) ==> LastIsSelected(selectedTraits, lastSelectedTrait)
      ensures old(CustomsBacked()) && (StartsWith(t, CustomTag) ==> exists c :: c in customTraits && t == CustomTag + c.name)
              ==> CustomsBacked()
    {
      if LastIsSelected(selectedTraits, lastSelectedTrait) {
        ToggleKeepsLastSelected(selectedTraits, lastSelectedTrait, t);
      }
      if CustomsBacked() {
        BackedAfterRemove(selectedTraits, customTraits, t, t);
      }
      if t in selectedTraits {
        var newList := Without(selectedTraits, t);
        if lastSelectedTrait == Some(t) {
          lastSelectedTrait := if |newList| > 0 then Some(newList[|newList| - 1]) else None;
        }
        selectedTraits := newList;
      } else {
        lastSelectedTrait := Some(t);
        selectedTraits := selectedTraits + [t];
      }
    }

    /** `removeSelectedTrait(t)`: `t` leaves the selection; the most recent selection is not updated. */
    method RemoveSelectedTrait(t: string)
      modifies this
      ensures searchQuery == old(searchQuery)
      ensures selectedTraits == Without(old(selectedTraits), t)
      ensures lastSelectedTrait == old(lastSelectedTrait) && customTraits == old(customTraits)
      ensures newCustomTrait == old(newCustomTrait) && showCustomForm == old(showCustomForm)
      ensures error == old(error) && organism == old(organism)
      ensures old(CustomsBacked()) ==> CustomsBacked()
    {
      if CustomsBacked() {
        BackedAfterRemove(selectedTraits, customTraits, t, t);
      }
      selectedTraits := Without(selectedTraits, t);
    }

    /** The Clear All button: the selection is emptied; the most recent selection is not updated. */
    method ClearAll()
      modifies this
      ensures searchQuery == old(searchQuery)
      ensures selectedTraits == []
      ensures lastSelectedTrait == old(lastSelectedTrait) && customTraits == old(customTraits)
      ensures newCustomTrait == old(newCustomTrait) && showCustomForm == old(showCustomForm)
      ensures error == old(error) && organism == old(organism)
      ensures CustomsBacked()
    {
      selectedTraits := [];
    }

    /** `resetDesigner`: organism, error and selection are cleared; the custom traits and the most recent selection stay. */
    method ResetDesigner()
      modifies this
      ensures searchQuery == old(searchQuery)
      ensures organism == None && error == None && selectedTraits == []
      ensures lastSelectedTrait == old(lastSelectedTrait) && customTraits == old(customTraits)
      ensures newCustomTrait == old(newCustomTrait) && showCustomForm == old(showCustomForm)
      ensures CustomsBacked()
    {
      organism := None;
      error := None;
      selectedTraits := [];
    }

    /** `getSelectedByCategory`: the `forEach` that pushes each selected name onto its group. */
    method GetSelectedByCategory() returns (groups: seq<Group>)
      ensures groups == GroupsOf(TraitsData.Categories, selectedTraits)
    {
      groups := SelectedByCategory(TraitsData.Categories, selectedTraits);
    }
  }
}
