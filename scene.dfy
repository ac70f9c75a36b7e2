/** The data createModel assembles from a glTF asset before anything is
    uploaded: the material table with its texture bitfield, the set of
    images that hold colour data (sRGB), the indexed-indirect draw commands
    of every primitive reached by a depth-first walk of the scene, split
    into opaque and blended lists, and the texture descriptor list.

    The asset is abstracted to plain sequences: what the parser would give
    as optional texture references, texture and sampler indices, each
    primitive's index data, vertex count and material, and the node forest.
    Floating-point data (factors, transforms, normals, tangents, bounds) is
    not modelled. */
module Scene {
  import opened Vk

  // shared/material.h
  const HAS_ALBEDO: bv32 := 0x01
  const HAS_NORMAL: bv32 := 0x02
  const HAS_OCCLUSION: bv32 := 0x04
  const HAS_METALLIC_ROUGHNESS: bv32 := 0x08
  const HAS_EMISSIVE: bv32 := 0x10

  /** Byte sizes of the uploaded records: sizeof(Material) = 2 vec4 + 2 f32
      + 6 u32, sizeof(Vertex) = 2 vec3 + vec4 + vec2, and
      sizeof(VkDrawIndexedIndirectCommand) = 5 u32 fields. */
  const MATERIAL_SIZE: nat := 64
  const VERTEX_SIZE: nat := 48
  const INDEX_SIZE: nat := 4
  const DRAW_COMMAND_SIZE: nat := 20

  /** A glTF material: its five optional texture slots (texture indices)
      and whether its alpha mode is Blend. */
  datatype GltfMaterial = GltfMaterial(
    baseColor: Option<nat>, normal: Option<nat>, occlusion: Option<nat>,
    metallicRoughness: Option<nat>, emissive: Option<nat>, blend: bool)

  datatype GltfTexture = GltfTexture(imageIndex: nat, samplerIndex: nat)

  /** An image as decoded to RGBA8: its extent. */
  datatype GltfImage = GltfImage(width: nat, height: nat)

  /** A primitive: its index data, its vertex count and its material. */
  datatype GltfPrimitive = GltfPrimitive(indices: seq<nat>, vertexCount: nat, materialIndex: nat)

  datatype GltfNode = GltfNode(mesh: Option<nat>, children: seq<nat>)

  datatype Asset = Asset(
    materials: seq<GltfMaterial>, textures: seq<GltfTexture>, images: seq<GltfImage>,
    samplerCount: nat, meshes: seq<seq<GltfPrimitive>>, nodes: seq<GltfNode>, roots: seq<nat>)

  predicate SlotOk(slot: Option<nat>, textureCount: nat)
  {
    slot.Some? ==> slot.value < textureCount
  }

  predicate MaterialOk(m: GltfMaterial, textureCount: nat)
  {
    && SlotOk(m.baseColor, textureCount) && SlotOk(m.normal, textureCount) && SlotOk(m.occlusion, textureCount)
    && SlotOk(m.metallicRoughness, textureCount) && SlotOk(m.emissive, textureCount)
  }

  predicate MaterialsOk(ms: seq<GltfMaterial>, textureCount: nat)
  {
    forall i :: 0 <= i < |ms| ==> MaterialOk(ms[i], textureCount)
  }

  predicate PrimitivesOk(a: Asset, ps: seq<GltfPrimitive>)
  {
    forall i :: 0 <= i < |ps| ==> ps[i].materialIndex < |a.materials|
  }

  predicate NodeIndices(a: Asset, ns: seq<nat>)
  {
    forall i :: 0 <= i < |ns| ==> ns[i] < |a.nodes|
  }

  predicate NodeOk(a: Asset, n: GltfNode)
  {
    (n.mesh.Some? ==> n.mesh.value < |a.meshes|) && NodeIndices(a, n.children)
  }

  predicate TextureOk(a: Asset, t: GltfTexture)
  {
    t.imageIndex < |a.images| && t.samplerIndex < a.samplerCount
  }

  /** The indices the loader dereferences are in range: texture slots,
      texture image and sampler indices (the sampler index is taken with
      .value(), so it must be present), primitive materials, node meshes,
      children and roots. */
  predicate WellFormed(a: Asset)
  {
    && MaterialsOk(a.materials, |a.textures|)
    && (forall i :: 0 <= i < |a.textures| ==> TextureOk(a, a.textures[i]))
    && (forall i :: 0 <= i < |a.meshes| ==> PrimitivesOk(a, a.meshes[i]))
    && (forall i :: 0 <= i < |a.nodes| ==> NodeOk(a, a.nodes[i]))
    && NodeIndices(a, a.roots)
  }

  /** The Material record uploaded for each glTF material (the float factors
      are not modelled). An absent slot leaves its index zero-initialised. */
  datatype Material = Material(
    albedoIndex: nat, normalIndex: nat, occlusionIndex: nat,
    metallicRoughnessIndex: nat, emissiveIndex: nat, texBitfield: bv32)

  function SlotIndex(slot: Option<nat>): nat
  {
    if slot.Some? then slot.value else 0
  }

  function SlotBit(slot: Option<nat>, bit: bv32): bv32
  {
    if slot.Some? then bit else 0
  }

  /** The specification of one material: each present slot contributes its
      index and its HAS_ bit. */
  function MaterialOf(m: GltfMaterial): Material
  {
    Material(
      SlotIndex(m.baseColor), SlotIndex(m.normal), SlotIndex(m.occlusion),
      SlotIndex(m.metallicRoughness), SlotIndex(m.emissive),
      SlotBit(m.baseColor, HAS_ALBEDO) | SlotBit(m.normal, HAS_NORMAL) | SlotBit(m.occlusion, HAS_OCCLUSION)
      | SlotBit(m.metallicRoughness, HAS_METALLIC_ROUGHNESS) | SlotBit(m.emissive, HAS_EMISSIVE))
  }

  /** The bitfield tells exactly which slots are present, and no bit outside
      the five HAS_ bits is ever set; an absent slot has index 0. */
  lemma MaterialBitfield(m: GltfMaterial)
    ensures var r := MaterialOf(m);
      && (r.texBitfield & HAS_ALBEDO != 0 <==> m.baseColor.Some?)
      && (r.texBitfield & HAS_NORMAL != 0 <==> m.normal.Some?)
      && (r.texBitfield & HAS_OCCLUSION != 0 <==> m.occlusion.Some?)
      && (r.texBitfield & HAS_METALLIC_ROUGHNESS != 0 <==> m.metallicRoughness.Some?)
      && (r.texBitfield & HAS_EMISSIVE != 0 <==> m.emissive.Some?)
      && r.texBitfield & !(HAS_ALBEDO | HAS_NORMAL | HAS_OCCLUSION | HAS_METALLIC_ROUGHNESS | HAS_EMISSIVE) == 0
  {
  }

  lemma MaterialIndices(m: GltfMaterial)
    ensures var r := MaterialOf(m);
      && (m.baseColor.Some? ==> r.albedoIndex == m.baseColor.value) && (m.baseColor.None? ==> r.albedoIndex == 0)
      && (m.normal.Some? ==> r.normalIndex == m.normal.value) && (m.normal.None? ==> r.normalIndex == 0)
      && (m.occlusion.Some? ==> r.occlusionIndex == m.occlusion.value) && (m.occlusion.None? ==> r.occlusionIndex == 0)
      && (m.metallicRoughness.Some? ==> r.metallicRoughnessIndex == m.metallicRoughness.value)
      && (m.metallicRoughness.None? ==> r.metallicRoughnessIndex == 0)
      && (m.emissive.Some? ==> r.emissiveIndex == m.emissive.value) && (m.emissive.None? ==> r.emissiveIndex == 0)
  {
  }

  /** The images one material marks sRGB: those behind its base-colour and
      emissive textures. */
  function SrgbOfMaterial(a: Asset, m: GltfMaterial): set<nat>
    requires MaterialOk(m, |a.textures|)
  {
    (if m.baseColor.Some? then {a.textures[m.baseColor.value].imageIndex} else {})
    + (if m.emissive.Some? then {a.textures[m.emissive.value].imageIndex} else {})
  }

  function SrgbOfMaterials(a: Asset, ms: seq<GltfMaterial>): set<nat>
    requires MaterialsOk(ms, |a.textures|)
  {
    if ms == [] then {} else SrgbOfMaterials(a, ms[..|ms| - 1]) + SrgbOfMaterial(a, ms[|ms| - 1])
  }

  /** The sRGB image set of the asset. */
  function SrgbImages(a: Asset): set<nat>
    requires WellFormed(a)
  {
    SrgbOfMaterials(a, a.materials)
  }

  /** An image is sRGB exactly when some material reaches it through its
      base-colour or emissive texture; normal, occlusion and
      metallic-roughness textures never make an image sRGB. */
  lemma {:induction false} SrgbImagesExactly(a: Asset, ms: seq<GltfMaterial>, k: nat)
    requires MaterialsOk(ms, |a.textures|)
    ensures k in SrgbOfMaterials(a, ms) <==>
      exists i :: 0 <= i < |ms| &&
        ((ms[i].baseColor.Some? && a.textures[ms[i].baseColor.value].imageIndex == k)
         || (ms[i].emissive.Some? && a.textures[ms[i].emissive.value].imageIndex == k))
  {
    if ms != [] {
      var init := ms[..|ms| - 1];
      SrgbImagesExactly(a, init, k);
      assert forall i :: 0 <= i < |init| ==> init[i] == ms[i];
    }
  }

  /** `isSrgb[idx]` with std::unordered_map's operator[]: an absent key reads false. */
  function SrgbLookup(isSrgb: map<nat, bool>, idx: nat): bool
  {
    idx in isSrgb && isSrgb[idx]
  }

  /** One iteration of the material loop: a zero-initialised record gets
      each present slot's index and has its bit or-ed in; the base colour
      and emissive textures' images are entered as sRGB. */
  method ConvertMaterial(a: Asset, mat: GltfMaterial, isSrgb: map<nat, bool>) returns (m: Material, isSrgb': map<nat, bool>)
    requires MaterialOk(mat, |a.textures|)
    ensures m == MaterialOf(mat)
    ensures isSrgb'.Keys == isSrgb.Keys + SrgbOfMaterial(a, mat)
    ensures forall k <- isSrgb'.Keys :: isSrgb'[k] == (k in SrgbOfMaterial(a, mat) || isSrgb[k])
  {
    m, isSrgb' := Material(0, 0, 0, 0, 0, 0), isSrgb;
    if mat.baseColor.Some? {
      isSrgb' := isSrgb'[a.textures[mat.baseColor.value].imageIndex := true];
      m := m.(albedoIndex := mat.baseColor.value, texBitfield := m.texBitfield | HAS_ALBEDO);
    }
    if mat.normal.Some? {
      m := m.(normalIndex := mat.normal.value, texBitfield := m.texBitfield | HAS_NORMAL);
    }
    if mat.occlusion.Some? {
      m := m.(occlusionIndex := mat.occlusion.value, texBitfield := m.texBitfield | HAS_OCCLUSION);
    }
    if mat.metallicRoughness.Some? {
      m := m.(metallicRoughnessIndex := mat.metallicRoughness.value, texBitfield := m.texBitfield | HAS_METALLIC_ROUGHNESS);
    }
    if mat.emissive.Some? {
      isSrgb' := isSrgb'[a.textures[mat.emissive.value].imageIndex := true];
      m := m.(emissiveIndex := mat.emissive.value, texBitfield := m.texBitfield | HAS_EMISSIVE);
    }
  }

  /** The material loop: one Material per glTF material, in order, and the
      map that marks exactly the sRGB images. */
  method BuildMaterials(a: Asset) returns (materials: seq<Material>, isSrgb: map<nat, bool>)
    requires WellFormed(a)
    ensures |materials| == |a.materials|
    ensures forall i :: 0 <= i < |a.materials| ==> materials[i] == MaterialOf(a.materials[i])
    ensures isSrgb.Keys == SrgbImages(a)
    ensures forall k :: SrgbLookup(isSrgb, k) <==> k in SrgbImages(a)
  {
    materials, isSrgb := [], map[];
    var i := 0;
    while i < |a.materials|
      invariant 0 <= i <= |a.materials|
      invariant |materials| == i
      invariant forall j :: 0 <= j < i ==> materials[j] == MaterialOf(a.materials[j])
      invariant isSrgb.Keys == SrgbOfMaterials(a, a.materials[..i])
      invariant forall k <- isSrgb.Keys :: isSrgb[k]
    {
      var m;
      m, isSrgb := ConvertMaterial(a, a.materials[i], isSrgb);
      assert a.materials[..i + 1][..i] == a.materials[..i];
      materials := materials + [m];
      i := i + 1;
    }
    assert a.materials[..i] == a.materials;
  }

  // ---------------------------------------------------------------------
  // Draw commands

  /** VkDrawIndexedIndirectCommand. */
  datatype DrawCommand = DrawCommand(indexCount: nat, instanceCount: nat, firstIndex: nat, vertexOffset: nat, firstInstance: nat)

  /** What processNode accumulates: the index data, the vertex count and
      the two draw lists. */
  datatype Geometry = Geometry(indices: seq<nat>, vertexCount: nat, opaqueDraws: seq<DrawCommand>, blendDraws: seq<DrawCommand>)

  const NoGeometry := Geometry([], 0, [], [])

  /** The primitives reached from node `n` in depth-first order: its own
      mesh's primitives, then its children's, left to right. A glTF node
      hierarchy is a forest, so it is never deeper than the number of nodes;
      `fuel` bounds the depth and the walk starts with the node count. */
  function NodePrimitives(a: Asset, n: nat, fuel: nat): (ps: seq<GltfPrimitive>)
    requires WellFormed(a) && n < |a.nodes|
    ensures PrimitivesOk(a, ps)
    decreases fuel, 0
  {
    if fuel == 0 then []
    else
      var node := a.nodes[n];
      (if node.mesh.Some? then a.meshes[node.mesh.value] else [])
      + ChildrenPrimitives(a, node.children, fuel - 1)
  }

  function ChildrenPrimitives(a: Asset, ns: seq<nat>, fuel: nat): (ps: seq<GltfPrimitive>)
    requires WellFormed(a) && NodeIndices(a, ns)
    ensures PrimitivesOk(a, ps)
    decreases fuel, |ns|
  {
    if ns == [] then [] else NodePrimitives(a, ns[0], fuel) + ChildrenPrimitives(a, ns[1..], fuel)
  }

  /** Every primitive of the default scene, in the order createModel visits them. */
  function ScenePrimitives(a: Asset): (ps: seq<GltfPrimitive>)
    requires WellFormed(a)
    ensures PrimitivesOk(a, ps)
  {
    ChildrenPrimitives(a, a.roots, |a.nodes|)
  }

  lemma {:induction false} ChildrenPrimitivesSnoc(a: Asset, ns: seq<nat>, c: nat, fuel: nat)
    requires WellFormed(a) && NodeIndices(a, ns) && c < |a.nodes|
    ensures ChildrenPrimitives(a, ns + [c], fuel) == ChildrenPrimitives(a, ns, fuel) + NodePrimitives(a, c, fuel)
  {
    if ns == [] {
      assert [c][1..] == [];
    } else {
      assert (ns + [c])[1..] == ns[1..] + [c];
      ChildrenPrimitivesSnoc(a, ns[1..], c, fuel);
    }
  }

  lemma ChildrenPrimitivesStep(a: Asset, ns: seq<nat>, j: nat, fuel: nat)
    requires WellFormed(a) && NodeIndices(a, ns) && j < |ns|
    ensures NodeIndices(a, ns[..j]) && NodeIndices(a, ns[..j + 1])
    ensures ChildrenPrimitives(a, ns[..j + 1], fuel) == ChildrenPrimitives(a, ns[..j], fuel) + NodePrimitives(a, ns[j], fuel)
  {
    assert ns[..j + 1] == ns[..j] + [ns[j]];
    ChildrenPrimitivesSnoc(a, ns[..j], ns[j], fuel);
  }

  /** One primitive as processNode handles it: its command records the index
      count it appends, one instance, the index and vertex counts before it
      as first index and vertex offset, and its material as first instance;
      it goes to the blend list iff its material blends. */
  function AddPrimitive(a: Asset, g: Geometry, p: GltfPrimitive): Geometry
    requires p.materialIndex < |a.materials|
  {
    var cmd := DrawCommand(|p.indices|, 1, |g.indices|, g.vertexCount, p.materialIndex);
    if a.materials[p.materialIndex].blend then
      Geometry(g.indices + p.indices, g.vertexCount + p.vertexCount, g.opaqueDraws, g.blendDraws + [cmd])
    else
      Geometry(g.indices + p.indices, g.vertexCount + p.vertexCount, g.opaqueDraws + [cmd], g.blendDraws)
  }

  function AddPrimitives(a: Asset, g: Geometry, ps: seq<GltfPrimitive>): Geometry
    requires PrimitivesOk(a, ps)
  {
    if ps == [] then g else AddPrimitive(a, AddPrimitives(a, g, ps[..|ps| - 1]), ps[|ps| - 1])
  }

  lemma {:induction false} AddPrimitivesAppend(a: Asset, g: Geometry, xs: seq<GltfPrimitive>, ys: seq<GltfPrimitive>)
    requires PrimitivesOk(a, xs) && PrimitivesOk(a, ys)
    ensures PrimitivesOk(a, xs + ys)
    ensures AddPrimitives(a, g, xs + ys) == AddPrimitives(a, AddPrimitives(a, g, xs), ys)
    decreases |ys|
  {
    if ys == [] {
      assert xs + ys == xs;
    } else {
      var ys' := ys[..|ys| - 1];
      assert (xs + ys)[..|xs + ys| - 1] == xs + ys';
      AddPrimitivesAppend(a, g, xs, ys');
    }
  }

  /** The loop over one mesh's primitives. */
  method AppendPrimitives(a: Asset, g: Geometry, ps: seq<GltfPrimitive>) returns (g': Geometry)
    requires PrimitivesOk(a, ps)
    ensures g' == AddPrimitives(a, g, ps)
  {
    g' := g;
    var i := 0;
    while i < |ps|
      invariant 0 <= i <= |ps|
      invariant g' == AddPrimitives(a, g, ps[..i])
    {
      assert ps[..i + 1][..i] == ps[..i];
      g' := AddPrimitive(a, g', ps[i]);
      i := i + 1;
    }
    assert ps[..i] == ps;
  }

  /** processNode: the node's mesh primitives (a loop), then each child in
      turn (a loop of recursive calls), all appending to the same geometry. */
  method ProcessNode(a: Asset, n: nat, fuel: nat, g: Geometry) returns (g': Geometry)
    requires WellFormed(a) && n < |a.nodes|
    ensures g' == AddPrimitives(a, g, NodePrimitives(a, n, fuel))
    decreases fuel
  {
    if fuel == 0 {
      return g;
    }
    var node := a.nodes[n];
    assert NodeOk(a, node);
    var own: seq<GltfPrimitive> := if node.mesh.Some? then a.meshes[node.mesh.value] else [];
    g' := AppendPrimitives(a, g, own);
    var j := 0;
    ghost var g1 := g';
    while j < |node.children|
      invariant 0 <= j <= |node.children|
      invariant g' == AddPrimitives(a, g1, ChildrenPrimitives(a, node.children[..j], fuel - 1))
    {
      ghost var before := g';
      g' := ProcessNode(a, node.children[j], fuel - 1, g');
      ChildStep(a, g1, node.children, j, fuel - 1, before, g');
      j := j + 1;
    }
    assert node.children[..j] == node.children;
    AddPrimitivesAppend(a, g, own, ChildrenPrimitives(a, node.children, fuel - 1));
    NodePrimitivesUnfold(a, n, fuel);
  }

  /** One more child processed extends the geometry by that child's primitives. */
  lemma ChildStep(a: Asset, g1: Geometry, ns: seq<nat>, j: nat, fuel: nat, before: Geometry, after: Geometry)
    requires WellFormed(a) && NodeIndices(a, ns) && j < |ns|
    requires NodeIndices(a, ns[..j]) && before == AddPrimitives(a, g1, ChildrenPrimitives(a, ns[..j], fuel))
    requires after == AddPrimitives(a, before, NodePrimitives(a, ns[j], fuel))
    ensures NodeIndices(a, ns[..j + 1]) && after == AddPrimitives(a, g1, ChildrenPrimitives(a, ns[..j + 1], fuel))
  {
    ChildrenPrimitivesStep(a, ns, j, fuel);
    AddPrimitivesAppend(a, g1, ChildrenPrimitives(a, ns[..j], fuel), NodePrimitives(a, ns[j], fuel));
  }

  lemma NodePrimitivesUnfold(a: Asset, n: nat, fuel: nat)
    requires WellFormed(a) && n < |a.nodes| && fuel > 0
    ensures NodeOk(a, a.nodes[n])
    ensures NodePrimitives(a, n, fuel)
      == (if a.nodes[n].mesh.Some? then a.meshes[a.nodes[n].mesh.value] else [])
         + ChildrenPrimitives(a, a.nodes[n].children, fuel - 1)
  {
  }

  /** The root loop of createModel: processNode on each root of the scene. */
  method ProcessScene(a: Asset) returns (g: Geometry)
    requires WellFormed(a)
    ensures g == AddPrimitives(a, NoGeometry, ScenePrimitives(a))
  {
    g := NoGeometry;
    var i := 0;
    while i < |a.roots|
      invariant 0 <= i <= |a.roots|
      invariant g == AddPrimitives(a, NoGeometry, ChildrenPrimitives(a, a.roots[..i], |a.nodes|))
    {
      ChildrenPrimitivesStep(a, a.roots, i, |a.nodes|);
      AddPrimitivesAppend(a, NoGeometry, ChildrenPrimitives(a, a.roots[..i], |a.nodes|), NodePrimitives(a, a.roots[i], |a.nodes|));
      g := ProcessNode(a, a.roots[i], |a.nodes|, g);
      i := i + 1;
    }
    assert a.roots[..i] == a.roots;
  }

  // Reference definitions: the draws of a primitive list before it is split.

  function IndexTotal(ps: seq<GltfPrimitive>): nat
  {
    if ps == [] then 0 else IndexTotal(ps[..|ps| - 1]) + |ps[|ps| - 1].indices|
  }

  function VertexTotal(ps: seq<GltfPrimitive>): nat
  {
    if ps == [] then 0 else VertexTotal(ps[..|ps| - 1]) + ps[|ps| - 1].vertexCount
  }

  function IndexData(ps: seq<GltfPrimitive>): seq<nat>
  {
    if ps == [] then [] else IndexData(ps[..|ps| - 1]) + ps[|ps| - 1].indices
  }

  /** The command of primitive k of the list: its indices start after all
      indices of the primitives before it, its vertices after theirs. */
  function DrawOf(ps: seq<GltfPrimitive>, k: nat): DrawCommand
    requires k < |ps|
  {
    DrawCommand(|ps[k].indices|, 1, IndexTotal(ps[..k]), VertexTotal(ps[..k]), ps[k].materialIndex)
  }

  function BlendOf(a: Asset, ps: seq<GltfPrimitive>, k: nat): bool
    requires PrimitivesOk(a, ps) && k < |ps|
  {
    a.materials[ps[k].materialIndex].blend
  }

  /** The draws whose material does (or does not) blend, in list order. */
  function DrawsWhere(a: Asset, ps: seq<GltfPrimitive>, blend: bool): seq<DrawCommand>
    requires PrimitivesOk(a, ps)
  {
    if ps == [] then []
    else
      var k := |ps| - 1;
      DrawsWhere(a, ps[..k], blend) + (if BlendOf(a, ps, k) == blend then [DrawOf(ps, k)] else [])
  }

  lemma {:induction false} IndexDataLength(ps: seq<GltfPrimitive>)
    ensures |IndexData(ps)| == IndexTotal(ps)
  {
    if ps != [] {
      IndexDataLength(ps[..|ps| - 1]);
    }
  }

  /** The geometry the walk accumulates, from nothing, is the reference one:
      all index data in visit order, the vertex total, and the opaque and
      blend draws each in visit order. */
  lemma {:induction false} GeometryIsReference(a: Asset, ps: seq<GltfPrimitive>)
    requires PrimitivesOk(a, ps)
    ensures AddPrimitives(a, NoGeometry, ps)
      == Geometry(IndexData(ps), VertexTotal(ps), DrawsWhere(a, ps, false), DrawsWhere(a, ps, true))
  {
    if ps != [] {
      var k := |ps| - 1;
      var init := ps[..k];
      GeometryIsReference(a, init);
      IndexDataLength(init);
      assert ps[..k] == init;
      DrawsWhereOfPrefix(a, ps, k);
    }
  }

  lemma DrawsWhereOfPrefix(a: Asset, ps: seq<GltfPrimitive>, k: nat)
    requires PrimitivesOk(a, ps) && k < |ps|
    ensures PrimitivesOk(a, ps[..k])
  {
  }

  /** Each command of the walk covers its own index range, starting where
      the previous primitive's range ended. */
  lemma {:induction false} DrawsAreContiguous(ps: seq<GltfPrimitive>, k: nat)
    requires k + 1 < |ps|
    ensures DrawOf(ps, k + 1).firstIndex == DrawOf(ps, k).firstIndex + DrawOf(ps, k).indexCount
    ensures DrawOf(ps, k + 1).vertexOffset == DrawOf(ps, k).vertexOffset + ps[k].vertexCount
  {
    assert ps[..k + 1][..k] == ps[..k];
  }

  /** The partition is exact: a draw lands in the blend list iff its
      material blends, and the two lists together hold every draw once. */
  lemma {:induction false} PartitionCounts(a: Asset, ps: seq<GltfPrimitive>)
    requires PrimitivesOk(a, ps)
    ensures |DrawsWhere(a, ps, false)| + |DrawsWhere(a, ps, true)| == |ps|
    ensures forall d <- DrawsWhere(a, ps, true) :: d.firstInstance < |a.materials| && a.materials[d.firstInstance].blend
    ensures forall d <- DrawsWhere(a, ps, false) :: d.firstInstance < |a.materials| && !a.materials[d.firstInstance].blend
  {
    if ps != [] {
      var k := |ps| - 1;
      PartitionCounts(a, ps[..k]);
    }
  }

  /** An individual draw's place: primitive k's command is in exactly the
      list its material selects. */
  lemma {:induction false} DrawInItsList(a: Asset, ps: seq<GltfPrimitive>, k: nat)
    requires PrimitivesOk(a, ps) && k < |ps|
    ensures DrawOf(ps, k) in DrawsWhere(a, ps, BlendOf(a, ps, k))
  {
    var n := |ps| - 1;
    if k < n {
      assert ps[..n][k] == ps[k] && ps[..n][..k] == ps[..k];
      DrawInItsList(a, ps[..n], k);
    }
  }

  /** The indirect staging buffer: the opaque commands followed by the
      blend commands, of their combined byte size. */
  function IndirectContents(g: Geometry): seq<DrawCommand>
  {
    g.opaqueDraws + g.blendDraws
  }

  lemma IndirectLayout(a: Asset)
    requires WellFormed(a)
    ensures var g := AddPrimitives(a, NoGeometry, ScenePrimitives(a));
      && IndirectContents(g)[..|g.opaqueDraws|] == g.opaqueDraws
      && IndirectContents(g)[|g.opaqueDraws|..] == g.blendDraws
      && DRAW_COMMAND_SIZE * |IndirectContents(g)| == DRAW_COMMAND_SIZE * |g.opaqueDraws| + DRAW_COMMAND_SIZE * |g.blendDraws|
      && |IndirectContents(g)| == |ScenePrimitives(a)|
  {
    GeometryIsReference(a, ScenePrimitives(a));
    PartitionCounts(a, ScenePrimitives(a));
  }

  // ---------------------------------------------------------------------
  // Descriptors

  /** VkDescriptorImageInfo. */
  datatype SampledDescriptor = SampledDescriptor(sampler: Handle, view: Handle, layout: Layout)

  /** The texture descriptor list: one SHADER_READ_ONLY descriptor per
      texture (its sampler, its image's view), or a single placeholder with
      the skybox sampler and no view when the asset has no textures. */
  function TextureDescriptors(a: Asset, imageViews: seq<Handle>, samplers: seq<Handle>, placeholderSampler: Handle): (d: seq<SampledDescriptor>)
    requires WellFormed(a) && |imageViews| == |a.images| && |samplers| == a.samplerCount
    ensures |d| == if |a.textures| == 0 then 1 else |a.textures|
    ensures forall dd <- d :: dd.layout == ShaderReadOnly
  {
    if |a.textures| == 0 then [SampledDescriptor(placeholderSampler, NullHandle, ShaderReadOnly)]
    else
      seq(|a.textures|, i requires 0 <= i < |a.textures| =>
        SampledDescriptor(samplers[a.textures[i].samplerIndex], imageViews[a.textures[i].imageIndex], ShaderReadOnly))
  }

  /** The descriptor loop and the placeholder fallback. */
  method BuildDescriptors(a: Asset, imageViews: seq<Handle>, samplers: seq<Handle>, placeholderSampler: Handle)
    returns (d: seq<SampledDescriptor>)
    requires WellFormed(a) && |imageViews| == |a.images| && |samplers| == a.samplerCount
    ensures |d| >= 1
    ensures |a.textures| > 0 ==> |d| == |a.textures| && forall i :: 0 <= i < |a.textures| ==>
      d[i] == SampledDescriptor(samplers[a.textures[i].samplerIndex], imageViews[a.textures[i].imageIndex], ShaderReadOnly)
    ensures |a.textures| == 0 ==> d == [SampledDescriptor(placeholderSampler, NullHandle, ShaderReadOnly)]
    ensures d == TextureDescriptors(a, imageViews, samplers, placeholderSampler)
  {
    d := [];
    var i := 0;
    while i < |a.textures|
      invariant 0 <= i <= |a.textures|
      invariant |d| == i
      invariant forall j :: 0 <= j < i ==>
        d[j] == SampledDescriptor(samplers[a.textures[j].samplerIndex], imageViews[a.textures[j].imageIndex], ShaderReadOnly)
    {
      var tex := a.textures[i];
      d := d + [SampledDescriptor(samplers[tex.samplerIndex], imageViews[tex.imageIndex], ShaderReadOnly)];
      i := i + 1;
    }
    if |d| == 0 {
      d := d + [SampledDescriptor(placeholderSampler, NullHandle, ShaderReadOnly)];
    }
  }
}
