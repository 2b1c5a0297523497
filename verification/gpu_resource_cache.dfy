/** Model-mode binding save/restore (rendera-reference/GPUResourceCache.ts) over an
    abstract WebGL state: the cache reads four bindings and later rebinds them. */
module GpuResourceCache {
  import opened Common

  /** A WebGL object reference, or `null`. Objects are opaque names. */
  datatype Binding = Null | Object(name: nat)

  /** The part of a WebGL2 context's state the cache reads or writes, plus everything
      else it must leave alone. `textures` maps a texture unit to its 2D binding; an
      absent unit has nothing bound. */
  datatype GlState = GlState(
    vertexArray: Binding,
    activeTexture: nat,
    textures: map<nat, Binding>,
    program: Binding,
    elementArrayBuffer: Binding,
    arrayBuffer: Binding,
    others: map<string, int>)

  /** `getParameter(TEXTURE_BINDING_2D)`: the 2D texture on the active unit. */
  function Bound2D(gl: GlState): (r: Binding)
    ensures gl.activeTexture in gl.textures ==> r == gl.textures[gl.activeTexture]
    ensures gl.activeTexture !in gl.textures ==> r == Null
  {
    if gl.activeTexture in gl.textures then gl.textures[gl.activeTexture] else Null
  }

  function BindVertexArray(gl: GlState, vao: Binding): (r: GlState)
    ensures r.vertexArray == vao && r.(vertexArray := gl.vertexArray) == gl
  {
    gl.(vertexArray := vao)
  }

  /** `bindTexture(TEXTURE_2D, t)` writes the active unit only. */
  function BindTexture2D(gl: GlState, t: Binding): (r: GlState)
    ensures Bound2D(r) == t && r.activeTexture == gl.activeTexture
    ensures forall u :: u != gl.activeTexture ==> (u in r.textures <==> u in gl.textures)
    ensures forall u :: u != gl.activeTexture && u in gl.textures ==> r.textures[u] == gl.textures[u]
    ensures r.(textures := gl.textures) == gl
  {
    gl.(textures := gl.textures[gl.activeTexture := t])
  }

  function UseProgram(gl: GlState, p: Binding): (r: GlState)
    ensures r.program == p && r.(program := gl.program) == gl
  {
    gl.(program := p)
  }

  function BindElementArrayBuffer(gl: GlState, b: Binding): (r: GlState)
    ensures r.elementArrayBuffer == b && r.(elementArrayBuffer := gl.elementArrayBuffer) == gl
  {
    gl.(elementArrayBuffer := b)
  }

  /** The four bindings the cache remembers. */
  datatype Snapshot = Snapshot(vao: Binding, textureBinding: Binding, shaderProgram: Binding, elementArrayBuffer: Binding)

  /** The cache itself: `cachedState`, `null` until the first save. */
  datatype Cache = Cache(cachedState: Option<Snapshot>)

  const NewCache := Cache(None)

  /** The four bindings as `getParameter` reads them. */
  function Read(gl: GlState): (s: Snapshot)
    ensures s.vao == gl.vertexArray && s.textureBinding == Bound2D(gl)
    ensures s.shaderProgram == gl.program && s.elementArrayBuffer == gl.elementArrayBuffer
  {
    Snapshot(gl.vertexArray, Bound2D(gl), gl.program, gl.elementArrayBuffer)
  }

  /** A cache operation's result: the new cache and the GL state after it. */
  datatype Outcome = Outcome(cache: Cache, gl: GlState)

  /** `cacheModelMode`: records the four bindings, replacing any earlier snapshot, and
      only reads the context. */
  function CacheModelMode(c: Cache, gl: GlState): (r: Outcome)
    ensures r.gl == gl
    ensures r.cache.cachedState.Some?
    ensures r.cache.cachedState.value.vao == gl.vertexArray
    ensures r.cache.cachedState.value.textureBinding == Bound2D(gl)
    ensures r.cache.cachedState.value.shaderProgram == gl.program
    ensures r.cache.cachedState.value.elementArrayBuffer == gl.elementArrayBuffer
  {
    Outcome(Cache(Some(Read(gl))), gl)
  }

  /** The state agrees with `gl` everywhere except the four bindings (and, for the
      texture, except the active unit). */
  ghost predicate OnlyBindingsDiffer(r: GlState, gl: GlState) {
    && r.activeTexture == gl.activeTexture
    && r.arrayBuffer == gl.arrayBuffer
    && r.others == gl.others
    && (forall u :: u != gl.activeTexture ==> (u in r.textures <==> u in gl.textures))
    && (forall u :: u != gl.activeTexture && u in gl.textures ==> r.textures[u] == gl.textures[u])
  }

  /** `restoreModelMode`: rebinds the snapshot, if there is one; the cache keeps it. */
  function RestoreModelMode(c: Cache, gl: GlState): (r: Outcome)
    ensures r.cache == c
    ensures c.cachedState.None? ==> r.gl == gl
    ensures c.cachedState.Some? ==> Read(r.gl) == c.cachedState.value
    ensures OnlyBindingsDiffer(r.gl, gl)
  {
    match c.cachedState
    case None => Outcome(c, gl)
    case Some(s) =>
      var g1 := BindVertexArray(gl, s.vao);
      var g2 := BindTexture2D(g1, s.textureBinding);
      var g3 := UseProgram(g2, s.shaderProgram);
      var g4 := BindElementArrayBuffer(g3, s.elementArrayBuffer);
      Outcome(c, g4)
  }

  /** Before any save, restoring does nothing. */
  lemma RestoreBeforeCacheIsNoop(gl: GlState)
    ensures RestoreModelMode(NewCache, gl) == Outcome(NewCache, gl)
  {
  }

  /** Save, then any changes, then restore: the four bindings are back to what was
      saved, the texture on the unit active at restore time, and the rest of the state
      is as the changes left it. */
  lemma CacheChangeRestore(c: Cache, gl: GlState, changed: GlState)
    ensures var saved := CacheModelMode(c, gl);
            var back := RestoreModelMode(saved.cache, changed).gl;
            && back.vertexArray == gl.vertexArray
            && back.program == gl.program
            && back.elementArrayBuffer == gl.elementArrayBuffer
            && back.activeTexture == changed.activeTexture
            && back.textures[changed.activeTexture] == Bound2D(gl)
            && OnlyBindingsDiffer(back, changed)
  {
  }

  /** A second save replaces the first: restoring brings back the later bindings. */
  lemma SecondCacheReplacesFirst(c: Cache, gl1: GlState, gl2: GlState, now: GlState)
    ensures var first := CacheModelMode(c, gl1).cache;
            var second := CacheModelMode(first, gl2).cache;
            second == CacheModelMode(c, gl2).cache &&
            Read(RestoreModelMode(second, now).gl) == Read(gl2)
  {
  }

  /** Restoring twice equals restoring once. */
  lemma RestoreIsIdempotent(c: Cache, gl: GlState)
    ensures var once := RestoreModelMode(c, gl);
            RestoreModelMode(once.cache, once.gl) == once
  {
    if c.cachedState.Some? {
      var once := RestoreModelMode(c, gl).gl;
      var twice := RestoreModelMode(c, once).gl;
      assert twice.textures == once.textures;
    }
  }

  /** Restoring straight after saving, with nothing changed in between, leaves the state
      as it was, provided the active unit has an entry. */
  lemma CacheThenRestoreIsIdentity(c: Cache, gl: GlState)
    requires gl.activeTexture in gl.textures
    ensures var saved := CacheModelMode(c, gl);
            RestoreModelMode(saved.cache, saved.gl).gl == gl
  {
    var back := RestoreModelMode(CacheModelMode(c, gl).cache, gl).gl;
    assert back.textures == gl.textures;
  }
}
