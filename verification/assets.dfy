/** What the model loader hands to the engine for one loaded asset, reduced to the
    parts the bookkeeping looks at. Vertex data, materials and skins are opaque. */
module ModelAssets {

  /** One draw unit of a mesh: its vertex-array object and whether it is indexed. */
  datatype Primitive = Primitive(vao: nat, hasIndexBuffer: bool)

  /** A node that carries a mesh. `name` is "" for an unnamed glTF node. */
  datatype RenderableNode = RenderableNode(name: string, nodeIndex: nat, primitives: seq<Primitive>, useSkinning: bool)

  /** `animations` lists the clip names in the loader's `Map` iteration order. */
  datatype ModelData = ModelData(animations: seq<string>, renderableNodes: seq<RenderableNode>)

  /** The loader's table of loaded assets: `getModelData(id)` is `loader[id]` when present. */
  type Loader = map<string, ModelData>
}
