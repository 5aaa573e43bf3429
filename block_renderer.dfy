/**
 * The renderer-selection rule of src/components/BlockRenderer.tsx: a
 * registry entry for the block's tag wins; otherwise a `custom` block whose
 * `componentType` has an entry uses it; otherwise one of the four built-in
 * renderers; otherwise the "Unsupported block type" panel.
 *
 * The registry (`customRenderers`) is a map from tag to renderer; an absent
 * registry behaves as the empty map.
 */
module BlockRenderer {
  import opened Types

  datatype Builtin = TextRenderer | DrugRenderer | FeedbackRenderer | ChatResponseRenderer

  /** What `BlockRenderer` draws a block with. */
  datatype Rendering<R> =
    | Registered(key: string, renderer: R)
    | BuiltIn(which: Builtin)
    | Unsupported(blockType: string)

  /** The `switch` over `block.type`. */
  function BuiltinFor(blockType: string): Option<Builtin> {
    if blockType == "text" then Some(TextRenderer)
    else if blockType == "drug" then Some(DrugRenderer)
    else if blockType == "feedback" then Some(FeedbackRenderer)
    else if blockType == "chatresponse" then Some(ChatResponseRenderer)
    else None
  }

  /** A `custom` block whose (non-empty) `componentType` has a registry entry. */
  predicate HasComponentRenderer<R>(block: ResponseBlock, registry: map<string, R>) {
    block.blockType == "custom" && Truthy(block.data.componentType) && block.data.componentType.value in registry
  }

  /**
   * `BlockRenderer`: exactly one rendering for every block and registry, by
   * the priority: the block's tag in the registry, then a custom block's
   * component type in the registry, then the built-ins, then the fallback.
   */
  function SelectRenderer<R>(block: ResponseBlock, registry: map<string, R>): (r: Rendering<R>)
    ensures block.blockType in registry ==> r == Registered(block.blockType, registry[block.blockType])
    ensures r.Registered? ==> r.key in registry && r.renderer == registry[r.key]
    ensures r.Registered? && r.key != block.blockType ==>
              block.blockType !in registry && HasComponentRenderer(block, registry)
              && block.data.componentType == Some(r.key)
    ensures r.BuiltIn? <==>
              block.blockType !in registry && !HasComponentRenderer(block, registry) && BuiltinFor(block.blockType).Some?
    ensures r.BuiltIn? ==> BuiltinFor(block.blockType) == Some(r.which)
    ensures r.Unsupported? <==>
              block.blockType !in registry && !HasComponentRenderer(block, registry) && BuiltinFor(block.blockType).None?
    ensures r.Unsupported? ==> r.blockType == block.blockType
  {
    if block.blockType in registry then
      Registered(block.blockType, registry[block.blockType])
    else if HasComponentRenderer(block, registry) then
      var key := block.data.componentType.value;
      Registered(key, registry[key])
    else
      match BuiltinFor(block.blockType)
      case Some(b) => BuiltIn(b)
      case None => Unsupported(block.blockType)
  }

  /** Registering a renderer for a tag overrides everything else for blocks with that tag. */
  lemma RegistrationOverrides<R>(block: ResponseBlock, registry: map<string, R>, renderer: R)
    ensures SelectRenderer(block, registry[block.blockType := renderer]) == Registered(block.blockType, renderer)
  {
  }

  /**
   * Only the entries for the block's tag and, for a custom block, its
   * component type can influence the choice: two registries that agree on
   * those keys select the same rendering.
   */
  lemma OnlyRelevantEntriesMatter<R>(block: ResponseBlock, r1: map<string, R>, r2: map<string, R>)
    requires forall k :: k == block.blockType || Some(k) == block.data.componentType ==>
               (k in r1 <==> k in r2) && (k in r1 ==> r1[k] == r2[k])
    ensures SelectRenderer(block, r1) == SelectRenderer(block, r2)
  {
    if block.data.componentType.Some? {
      var k := block.data.componentType.value;
      assert (k in r1 <==> k in r2) && (k in r1 ==> r1[k] == r2[k]);
    }
    var t := block.blockType;
    assert (t in r1 <==> t in r2) && (t in r1 ==> r1[t] == r2[t]);
  }

  /**
   * Without a registry, the community blocks (`table`, `chart`, and `custom`
   * blocks of any component type) fall back to the unsupported panel.
   */
  lemma CommunityBlocksNeedRegistration<R>(block: ResponseBlock)
    requires block.blockType in {"table", "chart", "custom"}
    ensures SelectRenderer<R>(block, map[]) == Unsupported(block.blockType)
  {
  }
}
