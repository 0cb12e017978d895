/** The static definition catalog: node types, recipes and resources as
    stored in the game's data file, looked up by kind and id and merged with
    a default record per kind (src/utils/data.ts). The recipe result shape
    follows src/data.ts: a standard recipe yields one resource map, a
    chance recipe a list of maps with parallel weights. */
module Catalog {
  import opened Wrappers
  import opened Seqs

  /** Resource key -> quantity (a JSON object of numbers). */
  type ResourceMap = map<string, real>

  /** The three sections of the data file (DataType). */
  datatype Kind = Nodes | Recipes | Resources

  datatype Display = Progress | Working | NoDisplay

  datatype Results =
    | Standard(products: ResourceMap)
    | Chance(outcomes: seq<ResourceMap>, chances: seq<real>)

  datatype NodeMeta = NodeMeta(
    key: string, name: string, category: string, display: Display,
    manual: bool, radius: real, ingredients: ResourceMap, buildtime: real,
    resources: ResourceMap, recipes: seq<string>)

  datatype RecipeMeta = RecipeMeta(
    key: string, name: string, speed: real, ingredients: ResourceMap,
    resources: ResourceMap, results: Results)

  datatype ResourceMeta = ResourceMeta(key: string, name: string, color: string)

  /** A stored entry is a partial record: every field may be absent. */
  datatype NodeData = NodeData(
    key: Option<string>, name: Option<string>, category: Option<string>,
    display: Option<Display>, manual: Option<bool>, radius: Option<real>,
    ingredients: Option<ResourceMap>, buildtime: Option<real>,
    resources: Option<ResourceMap>, recipes: Option<seq<string>>)

  datatype RecipeData = RecipeData(
    key: Option<string>, name: Option<string>, speed: Option<real>,
    ingredients: Option<ResourceMap>, resources: Option<ResourceMap>,
    results: Option<Results>)

  datatype ResourceData = ResourceData(
    key: Option<string>, name: Option<string>, color: Option<string>)

  /** The JSON value stored under an id: null, a scalar, or an object. */
  datatype Stored<T> = JsonNull | JsonScalar | JsonObject(fields: T)

  datatype RawSection<T> = RawSection(ids: seq<string>, entries: map<string, Stored<T>>)

  /** A section of the data file: a JSON object, so its keys are distinct,
      and `ids` is their enumeration order (what Object.keys returns). */
  type Section<T> = s: RawSection<T>
    | Distinct(s.ids)
      && (forall id | id in s.entries :: id in s.ids)
      && (forall i | 0 <= i < |s.ids| :: s.ids[i] in s.entries)
    witness RawSection([], map[])

  /** The data file; a section may be missing altogether. */
  datatype Data = Data(
    nodes: Option<Section<NodeData>>,
    recipes: Option<Section<RecipeData>>,
    resources: Option<Section<ResourceData>>)
  {
    predicate Present(kind: Kind) {
      match kind
      case Nodes => nodes.Some?
      case Recipes => recipes.Some?
      case Resources => resources.Some?
    }

    /** Some value, of any JSON type, is stored under id. */
    predicate Stores(kind: Kind, id: string)
      requires Present(kind)
    {
      match kind
      case Nodes => id in nodes.value.entries
      case Recipes => id in recipes.value.entries
      case Resources => id in resources.value.entries
    }

    /** The value stored under id is a non-null object. */
    predicate HoldsObject(kind: Kind, id: string)
      requires Present(kind)
    {
      match kind
      case Nodes => id in nodes.value.entries && nodes.value.entries[id].JsonObject?
      case Recipes => id in recipes.value.entries && recipes.value.entries[id].JsonObject?
      case Resources => id in resources.value.entries && resources.value.entries[id].JsonObject?
    }

    function Ids(kind: Kind): seq<string>
      requires Present(kind)
    {
      match kind
      case Nodes => nodes.value.ids
      case Recipes => recipes.value.ids
      case Resources => resources.value.ids
    }
  }

  /** A merged definition, tagged with its kind. */
  datatype Meta =
    | NodeEntry(node: NodeMeta)
    | RecipeEntry(recipe: RecipeMeta)
    | ResourceEntry(resource: ResourceMeta)
  {
    function Key(): string {
      match this
      case NodeEntry(m) => m.key
      case RecipeEntry(m) => m.key
      case ResourceEntry(m) => m.key
    }

    function KindOf(): Kind {
      match this
      case NodeEntry(_) => Nodes
      case RecipeEntry(_) => Recipes
      case ResourceEntry(_) => Resources
    }
  }

  // The default record of each kind (defaultMap).
  const DefaultNode := NodeMeta("default", "Default", "basic", Progress, false, 30.0, map[], 1.0, map[], [])
  const DefaultRecipe := RecipeMeta("default", "Default", 0.0, map[], map[], Standard(map[]))
  const DefaultResource := ResourceMeta("default", "Default", "black")

  /** `{...default, ...stored, key: id}` for each kind. */
  function MergeNode(f: NodeData, id: string): NodeMeta {
    var d := DefaultNode;
    NodeMeta(id, f.name.GetOr(d.name), f.category.GetOr(d.category),
             f.display.GetOr(d.display), f.manual.GetOr(d.manual),
             f.radius.GetOr(d.radius), f.ingredients.GetOr(d.ingredients),
             f.buildtime.GetOr(d.buildtime), f.resources.GetOr(d.resources),
             f.recipes.GetOr(d.recipes))
  }

  function MergeRecipe(f: RecipeData, id: string): RecipeMeta {
    var d := DefaultRecipe;
    RecipeMeta(id, f.name.GetOr(d.name), f.speed.GetOr(d.speed),
               f.ingredients.GetOr(d.ingredients), f.resources.GetOr(d.resources),
               f.results.GetOr(d.results))
  }

  function MergeResource(f: ResourceData, id: string): ResourceMeta {
    var d := DefaultResource;
    ResourceMeta(id, f.name.GetOr(d.name), f.color.GetOr(d.color))
  }

  /** listMetadata: the ids of a section, or a ReferenceError when the data
      file has no such section. */
  function ListMetadata(d: Data, kind: Kind): (r: Result<seq<string>>)
    ensures r.Failure? <==> !d.Present(kind)
    ensures r.Failure? ==> r.error == UnknownDataType
    ensures r.Success? ==> Distinct(r.value)
    ensures r.Success? ==> forall id :: id in r.value <==> d.Stores(kind, id)
  {
    if !d.Present(kind) then Failure(UnknownDataType) else Success(d.Ids(kind))
  }

  /** hasMetadata: true iff the stored value is a non-null object. */
  function HasMetadata(d: Data, kind: Kind, id: string): (r: Result<bool>)
    ensures r.Failure? <==> !d.Present(kind)
    ensures r.Failure? ==> r.error == UnknownDataType
    ensures r.Success? ==> (r.value <==> d.HoldsObject(kind, id))
  {
    if !d.Present(kind) then Failure(UnknownDataType)
    else
      match kind
      case Nodes =>
        var e := d.nodes.value.entries;
        Success(id in e && e[id] != JsonNull && !e[id].JsonScalar?)
      case Recipes =>
        var e := d.recipes.value.entries;
        Success(id in e && e[id] != JsonNull && !e[id].JsonScalar?)
      case Resources =>
        var e := d.resources.value.entries;
        Success(id in e && e[id] != JsonNull && !e[id].JsonScalar?)
  }

  /** getMetadata: null when hasMetadata is false, otherwise the stored
      record merged over the default, with `key` forced to id. */
  function GetMetadata(d: Data, kind: Kind, id: string): (r: Result<Option<Meta>>)
    ensures r.Failure? <==> HasMetadata(d, kind, id).Failure?
    ensures r.Success? ==> (r.value.None? <==> !HasMetadata(d, kind, id).value)
    ensures r.Success? && r.value.Some? ==> r.value.value.Key() == id && r.value.value.KindOf() == kind
  {
    match HasMetadata(d, kind, id)
    case Failure(e) => Failure(e)
    case Success(has) =>
      if !has then Success(None)
      else
        match kind
        case Nodes => Success(Some(NodeEntry(MergeNode(d.nodes.value.entries[id].fields, id))))
        case Recipes => Success(Some(RecipeEntry(MergeRecipe(d.recipes.value.entries[id].fields, id))))
        case Resources => Success(Some(ResourceEntry(MergeResource(d.resources.value.entries[id].fields, id))))
  }

  /** Fields present in a stored node record override the default; absent
      ones take the default values (build time 1, radius 30, not manual,
      category "basic", empty maps and recipe list). */
  lemma NodeDefaults(d: Data, id: string)
    requires d.Present(Nodes) && d.HoldsObject(Nodes, id)
    ensures var f := d.nodes.value.entries[id].fields;
      && GetMetadata(d, Nodes, id).Success? && GetMetadata(d, Nodes, id).value.Some?
      && var m := GetMetadata(d, Nodes, id).value.value.node;
      && m.key == id
      && m.buildtime == (if f.buildtime.Some? then f.buildtime.value else 1.0)
      && m.radius == (if f.radius.Some? then f.radius.value else 30.0)
      && m.manual == (f.manual.Some? && f.manual.value)
      && m.category == (if f.category.Some? then f.category.value else "basic")
      && m.ingredients == (if f.ingredients.Some? then f.ingredients.value else map[])
      && m.resources == (if f.resources.Some? then f.resources.value else map[])
      && m.recipes == (if f.recipes.Some? then f.recipes.value else [])
  {
  }

  /** The same for recipes: speed 0, no ingredients, no capacity overrides,
      and an empty standard result when absent. */
  lemma RecipeDefaults(d: Data, id: string)
    requires d.Present(Recipes) && d.HoldsObject(Recipes, id)
    ensures var f := d.recipes.value.entries[id].fields;
      && GetMetadata(d, Recipes, id).Success? && GetMetadata(d, Recipes, id).value.Some?
      && var m := GetMetadata(d, Recipes, id).value.value.recipe;
      && m.key == id
      && m.speed == (if f.speed.Some? then f.speed.value else 0.0)
      && m.ingredients == (if f.ingredients.Some? then f.ingredients.value else map[])
      && m.resources == (if f.resources.Some? then f.resources.value else map[])
      && m.results == (if f.results.Some? then f.results.value else Standard(map[]))
  {
  }

  /** And for resources: colour black when absent. */
  lemma ResourceDefaults(d: Data, id: string)
    requires d.Present(Resources) && d.HoldsObject(Resources, id)
    ensures var f := d.resources.value.entries[id].fields;
      && GetMetadata(d, Resources, id).Success? && GetMetadata(d, Resources, id).value.Some?
      && var m := GetMetadata(d, Resources, id).value.value.resource;
      && m.key == id
      && m.color == (if f.color.Some? then f.color.value else "black")
  {
  }

  /** The node type definition, when the data file defines one under id
      (hasData ? getData : null). */
  function NodeInfo(d: Data, id: string): (r: Option<NodeMeta>)
    ensures d.Present(Nodes) ==> (r.Some? <==> d.HoldsObject(Nodes, id))
    ensures r.Some? ==> r.value.key == id
  {
    match GetMetadata(d, Nodes, id)
    case Success(Some(NodeEntry(m))) => Some(m)
    case _ => None
  }

  /** The recipe definition under id, or none. */
  function RecipeInfo(d: Data, id: string): (r: Option<RecipeMeta>)
    ensures d.Present(Recipes) ==> (r.Some? <==> d.HoldsObject(Recipes, id))
    ensures r.Some? ==> r.value.key == id
  {
    match GetMetadata(d, Recipes, id)
    case Success(Some(RecipeEntry(m))) => Some(m)
    case _ => None
  }

  /** The recipe section resolved: every recipe id the data file holds,
      with its merged definition. */
  type Book = map<string, RecipeMeta>

  function RecipeBook(d: Data): (b: Book)
    ensures forall id :: (id in b <==> RecipeInfo(d, id).Some?)
    ensures forall id | id in b :: RecipeInfo(d, id) == Some(b[id])
  {
    if d.recipes.None? then map[]
    else map id | id in d.recipes.value.entries && RecipeInfo(d, id).Some? :: RecipeInfo(d, id).value
  }

  /** The node section resolved: every node type the data file defines,
      with its merged definition. */
  function NodeKinds(d: Data): (m: map<string, NodeMeta>)
    ensures forall id :: (id in m <==> NodeInfo(d, id).Some?)
    ensures forall id | id in m :: NodeInfo(d, id) == Some(m[id])
  {
    if d.nodes.None? then map[]
    else map id | id in d.nodes.value.entries && NodeInfo(d, id).Some? :: NodeInfo(d, id).value
  }

  /** What the nodes are made from: the recipe book and the definition of
      each node type, as getMetadata gives them. The data file never
      changes, so resolving it once gives what every later lookup would. */
  datatype Library = Library(book: Book, kinds: map<string, NodeMeta>)

  function Resolve(d: Data): Library {
    Library(RecipeBook(d), NodeKinds(d))
  }

  predicate PositiveCosts(m: ResourceMap) {
    forall k | k in m :: m[k] > 0.0
  }

  /** What the simulation assumes of its data file: all three sections
      exist, and every ingredient cost of a node type or a recipe is
      positive (the leftover snap divides by it). */
  ghost predicate Usable(d: Data) {
    && d.nodes.Some? && d.recipes.Some? && d.resources.Some?
    && (forall id | id in d.nodes.value.entries ::
          NodeInfo(d, id).Some? ==> PositiveCosts(NodeInfo(d, id).value.ingredients))
    && (forall id | id in d.recipes.value.entries ::
          RecipeInfo(d, id).Some? ==> PositiveCosts(RecipeInfo(d, id).value.ingredients))
  }

  lemma UsableNodeCosts(d: Data, id: string)
    requires Usable(d) && NodeInfo(d, id).Some?
    ensures PositiveCosts(NodeInfo(d, id).value.ingredients)
  {
    assert id in d.nodes.value.entries;
  }

  lemma UsableRecipeCosts(d: Data, id: string)
    requires Usable(d) && RecipeInfo(d, id).Some?
    ensures PositiveCosts(RecipeInfo(d, id).value.ingredients)
  {
    assert id in d.recipes.value.entries;
  }
}
