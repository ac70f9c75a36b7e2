/** The constant subresource ranges and the colour write mask used throughout
    the renderer, and what a range covers. */
module VkUtil {
  import opened Vk

  /** The number of layers a layer count stands for in an image with
      `imageLayers` layers, starting at `baseLayer`. */
  function ResolvedLayers(c: LayerCount, baseLayer: nat, imageLayers: nat): nat
  {
    match c
    case Layers(n) => n
    case RemainingLayers => if baseLayer <= imageLayers then imageLayers - baseLayer else 0
  }

  /** Does `r`, applied to an image with `imageLayers` array layers, cover the
      subresource (mip, layer)? */
  predicate Covers(r: SubresourceRange, imageLayers: nat, mip: nat, layer: nat)
  {
    && r.baseMip <= mip < r.baseMip + r.levelCount
    && r.baseLayer <= layer < r.baseLayer + ResolvedLayers(r.layerCount, r.baseLayer, imageLayers)
  }

  /** colorSubresourceRange(): the colour aspect of mip 0, layer 0, and of
      nothing else, whatever the shape of the image. */
  function ColorSubresourceRange(): (r: SubresourceRange)
    ensures r.aspect == ASPECT_COLOR
    ensures forall layers: nat, mip: nat, layer: nat ::
      Covers(r, layers, mip, layer) <==> mip == 0 && layer == 0
  {
    SubresourceRange(ASPECT_COLOR, 0, 1, 0, Layers(1))
  }

  /** depthSubresourceRange(): the same single subresource, depth aspect. */
  function DepthSubresourceRange(): (r: SubresourceRange)
    ensures r.aspect == ASPECT_DEPTH
    ensures forall layers: nat, mip: nat, layer: nat ::
      Covers(r, layers, mip, layer) <==> mip == 0 && layer == 0
  {
    SubresourceRange(ASPECT_DEPTH, 0, 1, 0, Layers(1))
  }

  /** Does the copy region `l` cover array layer `layer` of its mip level? */
  predicate CoversLayer(l: SubresourceLayers, layer: nat)
  {
    l.baseLayer <= layer < l.baseLayer + l.layerCount
  }

  /** colorSubresourceLayers(): colour aspect, mip 0, one layer from layer 0. */
  function ColorSubresourceLayers(): (r: SubresourceLayers)
    ensures r.aspect == ASPECT_COLOR && r.mip == 0
    ensures forall layer: nat :: CoversLayer(r, layer) <==> layer == 0
  {
    SubresourceLayers(ASPECT_COLOR, 0, 0, 1)
  }

  /** depthSubresourceLayers(): depth aspect, mip 0, one layer from layer 0. */
  function DepthSubresourceLayers(): (r: SubresourceLayers)
    ensures r.aspect == ASPECT_DEPTH && r.mip == 0
    ensures forall layer: nat :: CoversLayer(r, layer) <==> layer == 0
  {
    SubresourceLayers(ASPECT_DEPTH, 0, 0, 1)
  }

  /** colorComponentAll(): all four of R, G, B and A are written, and no other bit is set. */
  function ColorComponentAll(): (r: Flags)
    ensures r & COMPONENT_R != 0 && r & COMPONENT_G != 0
    ensures r & COMPONENT_B != 0 && r & COMPONENT_A != 0
    ensures r & !(COMPONENT_R | COMPONENT_G | COMPONENT_B | COMPONENT_A) == 0
  {
    COMPONENT_R | COMPONENT_G | COMPONENT_B | COMPONENT_A
  }

  /** A range over one mip level and all layers from 0, as the skybox's
      per-level views and barriers use with VK_REMAINING_ARRAY_LAYERS. */
  function MipAllLayers(mip: nat): (r: SubresourceRange)
    ensures forall layers: nat, m: nat, layer: nat ::
      Covers(r, layers, m, layer) <==> m == mip && layer < layers
  {
    SubresourceRange(ASPECT_COLOR, mip, 1, 0, RemainingLayers)
  }

  /** A range over one mip level of layer 0, as the texture mip views use. */
  function MipLayer0(mip: nat): (r: SubresourceRange)
    ensures forall layers: nat, m: nat, layer: nat ::
      Covers(r, layers, m, layer) <==> m == mip && layer == 0
  {
    SubresourceRange(ASPECT_COLOR, mip, 1, 0, Layers(1))
  }
}
