/** The toolbox screen's arrangement of the tool catalog: one group per category, in a
    fixed category order, each holding that category's tools in catalog order, with empty
    categories left out; and the icon a tool is drawn with. */
module Toolbox {
  import opened Types

  /** The categories in the order the toolbox shows them. */
  const CategoryOrder: seq<ToolCategory> := [HealthTools, CareTools, EnvironmentTools, GrowthTools, FunTools]

  /** The icon drawn for a tool whose icon name is not a known icon. */
  const FallbackIcon: string := "Sprout"

  /** The position of a category in the display order. */
  function Rank(c: ToolCategory): (k: nat)
    ensures k < |CategoryOrder| && CategoryOrder[k] == c
  {
    match c
    case HealthTools => 0
    case CareTools => 1
    case EnvironmentTools => 2
    case GrowthTools => 3
    case FunTools => 4
  }

  /** Positions and categories correspond one to one. */
  lemma RankOfOrder(k: nat)
    requires k < |CategoryOrder|
    ensures Rank(CategoryOrder[k]) == k
  {
  }

  /** One heading of the toolbox with the tools under it. */
  datatype ToolGroup = ToolGroup(category: ToolCategory, tools: seq<PlantTool>)

  /** The catalog's tools of category `c`, in catalog order. */
  function ToolsIn(catalog: seq<PlantTool>, c: ToolCategory): (r: seq<PlantTool>)
    ensures |r| <= |catalog|
    ensures forall t :: t in r ==> t in catalog && t.category == c
    ensures forall t :: t in catalog && t.category == c ==> t in r
  {
    if catalog == [] then []
    else (if catalog[0].category == c then [catalog[0]] else []) + ToolsIn(catalog[1..], c)
  }

  /** Filtering keeps catalog order: the tools of one category from two halves of the
      catalog are those of the first half followed by those of the second. */
  lemma {:induction false} ToolsInAppend(a: seq<PlantTool>, b: seq<PlantTool>, c: ToolCategory)
    ensures ToolsIn(a + b, c) == ToolsIn(a, c) + ToolsIn(b, c)
    decreases |a|
  {
    if a != [] {
      assert (a + b)[0] == a[0];
      assert (a + b)[1..] == a[1..] + b;
      ToolsInAppend(a[1..], b, c);
    } else {
      assert a + b == b;
    }
  }

  /** The groups for the categories from position `k` of the display order on. */
  function GroupsFrom(k: nat, catalog: seq<PlantTool>): (r: seq<ToolGroup>)
    requires k <= |CategoryOrder|
    ensures |r| <= |CategoryOrder| - k
    ensures forall i :: 0 <= i < |r| ==> k <= Rank(r[i].category)
    ensures forall i, j :: 0 <= i < j < |r| ==> Rank(r[i].category) < Rank(r[j].category)
    ensures forall i :: 0 <= i < |r| ==> r[i].tools == ToolsIn(catalog, r[i].category) && r[i].tools != []
    decreases |CategoryOrder| - k
  {
    if k == |CategoryOrder| then []
    else
      var tools := ToolsIn(catalog, CategoryOrder[k]);
      var rest := GroupsFrom(k + 1, catalog);
      if tools == [] then rest
      else
        RankOfOrder(k);
        var r := [ToolGroup(CategoryOrder[k], tools)] + rest;
        assert forall i :: 0 < i < |r| ==> r[i] == rest[i - 1];
        r
  }

  /** A category from position `k` on whose tools are not all filtered away has its group. */
  lemma {:induction false} GroupsFromCovers(k: nat, catalog: seq<PlantTool>, c: ToolCategory)
    requires k <= Rank(c) && ToolsIn(catalog, c) != []
    ensures ToolGroup(c, ToolsIn(catalog, c)) in GroupsFrom(k, catalog)
    decreases |CategoryOrder| - k
  {
    var tools := ToolsIn(catalog, CategoryOrder[k]);
    var rest := GroupsFrom(k + 1, catalog);
    RankOfOrder(k);
    if Rank(c) == k {
      assert CategoryOrder[k] == c;
      assert GroupsFrom(k, catalog) == [ToolGroup(c, tools)] + rest;
    } else {
      GroupsFromCovers(k + 1, catalog, c);
      assert GroupsFrom(k, catalog) == if tools == [] then rest else [ToolGroup(CategoryOrder[k], tools)] + rest;
    }
  }

  /** The toolbox: the groups in the fixed category order, empty categories left out. */
  function Groups(catalog: seq<PlantTool>): (r: seq<ToolGroup>)
    ensures |r| <= |CategoryOrder|
    ensures forall i, j :: 0 <= i < j < |r| ==> Rank(r[i].category) < Rank(r[j].category)
    ensures forall i :: 0 <= i < |r| ==> r[i].tools == ToolsIn(catalog, r[i].category) && r[i].tools != []
  {
    GroupsFrom(0, catalog)
  }

  /** A category has a group, holding its tools, exactly when the catalog has a tool of it. */
  lemma GroupsCoverCategories(catalog: seq<PlantTool>, c: ToolCategory)
    ensures ToolsIn(catalog, c) != [] <==> ToolGroup(c, ToolsIn(catalog, c)) in Groups(catalog)
  {
    if ToolsIn(catalog, c) != [] {
      GroupsFromCovers(0, catalog, c);
    }
  }

  /** Every catalog tool is shown in exactly one group: the one of its category. */
  lemma EachToolInOneGroup(catalog: seq<PlantTool>, t: PlantTool)
    requires t in catalog
    ensures var r := Groups(catalog);
            && (exists i :: 0 <= i < |r| && t in r[i].tools)
            && (forall i, j :: 0 <= i < |r| && 0 <= j < |r| && t in r[i].tools && t in r[j].tools ==> i == j)
  {
    var r := Groups(catalog);
    var g := ToolGroup(t.category, ToolsIn(catalog, t.category));
    assert t in g.tools;
    GroupsCoverCategories(catalog, t.category);
    var k :| 0 <= k < |r| && r[k] == g;
    assert t in r[k].tools;
    forall i, j | 0 <= i < |r| && 0 <= j < |r| && t in r[i].tools && t in r[j].tools
      ensures i == j
    {
      assert r[i].category == t.category == r[j].category;
    }
  }

  // ---------------------------------------------------------------- sizes

  /** The number of tools shown across `groups`. */
  function ToolCount(groups: seq<ToolGroup>): nat
  {
    if groups == [] then 0 else |groups[0].tools| + ToolCount(groups[1..])
  }

  /** The number of catalog tools whose category is at position `k` of the display order or later. */
  function CountFrom(k: nat, catalog: seq<PlantTool>): nat
    requires k <= |CategoryOrder|
    decreases |CategoryOrder| - k
  {
    if k == |CategoryOrder| then 0 else |ToolsIn(catalog, CategoryOrder[k])| + CountFrom(k + 1, catalog)
  }

  lemma {:induction false} GroupsFromCount(k: nat, catalog: seq<PlantTool>)
    requires k <= |CategoryOrder|
    ensures ToolCount(GroupsFrom(k, catalog)) == CountFrom(k, catalog)
    decreases |CategoryOrder| - k
  {
    if k < |CategoryOrder| {
      GroupsFromCount(k + 1, catalog);
      var tools := ToolsIn(catalog, CategoryOrder[k]);
      if tools != [] {
        var r := GroupsFrom(k, catalog);
        assert r[1..] == GroupsFrom(k + 1, catalog);
      }
    }
  }

  lemma {:induction false} CountFromCons(k: nat, t: PlantTool, rest: seq<PlantTool>)
    requires k <= |CategoryOrder|
    ensures CountFrom(k, [t] + rest) == CountFrom(k, rest) + (if k <= Rank(t.category) then 1 else 0)
    decreases |CategoryOrder| - k
  {
    if k < |CategoryOrder| {
      RankOfOrder(k);
      CountFromCons(k + 1, t, rest);
      assert ([t] + rest)[1..] == rest;
    }
  }

  lemma {:induction false} CountFromZero(catalog: seq<PlantTool>)
    ensures CountFrom(0, catalog) == |catalog|
  {
    if catalog != [] {
      CountFromZero(catalog[1..]);
      CountFromCons(0, catalog[0], catalog[1..]);
      assert [catalog[0]] + catalog[1..] == catalog;
    } else {
      assert CountFrom(5, catalog) == 0;
      assert CountFrom(0, catalog) == 0;
    }
  }

  /** Since every tool has one of the five categories, the groups together hold the whole catalog. */
  lemma GroupSizesSumToCatalog(catalog: seq<PlantTool>)
    ensures ToolCount(Groups(catalog)) == |catalog|
  {
    GroupsFromCount(0, catalog);
    CountFromZero(catalog);
  }

  // ---------------------------------------------------------------- icons

  /** The icon a tool is drawn with: its own when `knownIcons` has it, otherwise the sprout. */
  function IconFor(t: PlantTool, knownIcons: set<string>): (icon: string)
    ensures icon == t.iconName || icon == FallbackIcon
    ensures icon == t.iconName <==> t.iconName in knownIcons || t.iconName == FallbackIcon
    ensures FallbackIcon in knownIcons ==> icon in knownIcons
  {
    if t.iconName in knownIcons then t.iconName else FallbackIcon
  }
}
