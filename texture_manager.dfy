/**
 * `CS230::TextureManager`: a cache of textures keyed by file path, and the
 * pair of calls that redirect drawing into a fresh texture and back
 * ("render-to-texture mode").
 */
module TextureManagement {
  import opened Vec2
  import opened GL
  import opened ImmediateRenderer
  import opened Textures

  /** Transparent black, the clear colour of a render texture. */
  const TransparentBlack := Color(0.0, 0.0, 0.0, 0.0)

  /** The scene matrix of a `w`x`h` render texture: a unit scale times the `w`x`h` NDC matrix. */
  function RenderTextureScene(w: int, h: int): Mat3 {
    Product(Scaling(Vec2(1.0, 1.0)), Ndc(IVec2(w, h)))
  }

  /** A framebuffer with one colour attachment (`OpenGL::FramebufferWithColor`). */
  datatype FramebufferWithColor = FramebufferWithColor(framebuffer: Handle, colorAttachment: Handle)

  /**
   * `OpenGL::CreateFramebufferWithColor(size)`: a new colour texture of
   * `size`, and a new framebuffer with it attached. Its body is not part of
   * this model; the creations and the attachment stand for it.
   */
  method CreateFramebufferWithColor(gl: Device, size: IVec2) returns (fb: FramebufferWithColor)
    requires gl.Valid()
    modifies gl
    ensures gl.Valid() && gl.SettingsUnchanged()
    ensures fb.framebuffer != 0 && fb.colorAttachment != 0 && fb.framebuffer != fb.colorAttachment
    ensures fb.framebuffer !in old(gl.live) && fb.colorAttachment !in old(gl.live)
    ensures gl.live == old(gl.live) + {fb.colorAttachment, fb.framebuffer}
    ensures gl.log == old(gl.log) + CreationEvents(fb, size)
  {
    var color := gl.Gen(TextureObject);
    gl.Issue(AllocateStorage(color, size, 0));
    var framebuffer := gl.Gen(FramebufferObject);
    gl.Issue(AttachColor(framebuffer, color));
    fb := FramebufferWithColor(framebuffer, color);
  }

  /** The calls of `CreateFramebufferWithColor`. */
  function CreationEvents(fb: FramebufferWithColor, size: IVec2): seq<Event> {
    [Created(TextureObject, fb.colorAttachment), AllocateStorage(fb.colorAttachment, size, 0),
     Created(FramebufferObject, fb.framebuffer), AttachColor(fb.framebuffer, fb.colorAttachment)]
  }

  /** Binding a framebuffer, then setting the viewport and the clear colour. */
  function TargetEvents(framebuffer: Handle, viewport: Rect, clearColor: Color): seq<Event> {
    [BindFramebuffer(framebuffer), SetViewport(viewport), SetClearColor(clearColor)]
  }

  /** Makes `framebuffer` with `viewport` and `clearColor` the current drawing target. */
  method SelectTarget(gl: Device, framebuffer: Handle, viewport: Rect, clearColor: Color)
    requires gl.Valid()
    modifies gl
    ensures gl.Valid() && gl.live == old(gl.live) && gl.statusQueue == old(gl.statusQueue)
    ensures gl.boundFramebuffer == framebuffer && gl.viewport == viewport && gl.clearColor == clearColor
    ensures gl.log == old(gl.log) + TargetEvents(framebuffer, viewport, clearColor)
  {
    gl.Emit(BindFramebuffer(framebuffer));
    gl.Emit(SetViewport(viewport));
    gl.Emit(SetClearColor(clearColor));
  }

  /** Selects `framebuffer` with `viewport` and clears it to transparent black. */
  method ClearTarget(gl: Device, framebuffer: Handle, viewport: Rect)
    requires gl.Valid()
    modifies gl
    ensures gl.Valid() && gl.live == old(gl.live) && gl.statusQueue == old(gl.statusQueue)
    ensures gl.boundFramebuffer == framebuffer && gl.viewport == viewport && gl.clearColor == TransparentBlack
    ensures gl.log == old(gl.log) + TargetEvents(framebuffer, viewport, TransparentBlack) + [Clear(ColorBit)]
  {
    SelectTarget(gl, framebuffer, viewport, TransparentBlack);
    gl.Issue(Clear(ColorBit));
  }

  /** The calls of `StartRenderTextureMode(w, h)` with framebuffer `fb` and the renderer's camera buffer `camera`. */
  function StartEvents(fb: FramebufferWithColor, w: int, h: int, camera: Handle): seq<Event> {
    CreationEvents(fb, IVec2(w, h)) + TargetEvents(fb.framebuffer, Rect(IVec2(0, 0), IVec2(w, h)), TransparentBlack)
    + [Clear(ColorBit)] + SceneEvents(camera, RenderTextureScene(w, h))
  }

  /** The calls of `EndRenderTextureMode` restoring `viewport` and `clearColor` and deleting `fb`'s framebuffer. */
  function EndEvents(fb: FramebufferWithColor, viewport: Rect, clearColor: Color, camera: Handle): seq<Event> {
    TargetEvents(0, viewport, clearColor) + SceneEvents(camera, Ndc(viewport.size))
    + [Deleted(FramebufferObject, fb.framebuffer)]
  }

  class TextureManager {
    /** `texture_cache`: the texture loaded for each path. */
    var cache: map<string, Texture>
    /** `loaded_textures`: every texture loaded, in load order. */
    var loaded: seq<Texture>
    /** The saved state of render-to-texture mode (the global `gSavedState`). */
    var savedViewport: Rect
    var savedClearColor: Color
    var createdFramebuffer: FramebufferWithColor
    var framebufferSize: IVec2

    /**
     * The cache and the list agree: the list holds each cached texture once,
     * and no texture is cached under two paths.
     */
    ghost predicate Valid()
      reads this
    {
      && |loaded| == |cache|
      && (forall p :: p in cache ==> cache[p] in loaded)
      && (forall i, j :: 0 <= i < j < |loaded| ==> loaded[i] != loaded[j])
      && (forall p, q :: p in cache && q in cache && p != q ==> cache[p] != cache[q])
    }

    constructor ()
      ensures Valid() && cache == map[] && loaded == []
    {
      cache := map[];
      loaded := [];
      savedViewport := Rect(IVec2(0, 0), IVec2(0, 0));
      savedClearColor := TransparentBlack;
      createdFramebuffer := FramebufferWithColor(0, 0);
      framebufferSize := IVec2(0, 0);
    }

    /**
     * `Load(path)`: the cached texture when `path` was loaded before, with
     * nothing changed; otherwise a new texture made from the file, cached
     * under `path` and appended to the list. The file's image size is a
     * parameter because the file is read outside this model.
     */
    method Load(gl: Device, path: string, imageSize: IVec2) returns (t: Texture)
      requires Valid() && gl.Valid()
      modifies this, gl
      ensures Valid() && gl.Valid() && gl.SettingsUnchanged()
      ensures path in cache && cache[path] == t
      ensures path in old(cache) ==> t == old(cache[path]) && cache == old(cache) && loaded == old(loaded)
                                     && gl.log == old(gl.log) && gl.live == old(gl.live)
      ensures path !in old(cache) ==> fresh(t) && t.size == imageSize && t.handle != 0 && t.handle !in old(gl.live)
                                      && gl.live == old(gl.live) + {t.handle}
                                      && cache == old(cache)[path := t] && loaded == old(loaded) + [t]
                                      && gl.log == old(gl.log) + [Created(TextureObject, t.handle)]
      ensures savedViewport == old(savedViewport) && savedClearColor == old(savedClearColor)
      ensures createdFramebuffer == old(createdFramebuffer) && framebufferSize == old(framebufferSize)
    {
      if path in cache {
        t := cache[path];
      } else {
        t := new Texture.FromImage(gl, imageSize);
        assert t !in loaded;
        cache := cache[path := t];
        loaded := loaded + [t];
      }
    }

    /** `Unload`: empties both the cache and the list. */
    method Unload()
      modifies this
      ensures Valid() && cache == map[] && loaded == []
      ensures savedViewport == old(savedViewport) && savedClearColor == old(savedClearColor)
      ensures createdFramebuffer == old(createdFramebuffer) && framebufferSize == old(framebufferSize)
    {
      loaded := [];
      cache := map[];
    }

    /**
     * `StartRenderTextureMode(w, h)`: saves the viewport and clear colour,
     * ends the current scene, binds a new `w`x`h` framebuffer, sets the
     * viewport to it, clears to transparent black and begins a scene with
     * the `w`x`h` NDC matrix.
     */
    method StartRenderTextureMode(gl: Device, renderer: Renderer2D, w: int, h: int)
      requires gl.Valid()
      modifies this, gl, renderer
      ensures gl.Valid()
      ensures savedViewport == old(gl.viewport) && savedClearColor == old(gl.clearColor)
      ensures framebufferSize == IVec2(w, h)
      ensures createdFramebuffer.framebuffer !in old(gl.live) && createdFramebuffer.colorAttachment !in old(gl.live)
      ensures createdFramebuffer.framebuffer != 0 && createdFramebuffer.colorAttachment != 0
      ensures createdFramebuffer.framebuffer != createdFramebuffer.colorAttachment
      ensures gl.live == old(gl.live) + {createdFramebuffer.colorAttachment, createdFramebuffer.framebuffer}
      ensures gl.boundFramebuffer == createdFramebuffer.framebuffer
      ensures gl.viewport == Rect(IVec2(0, 0), IVec2(w, h)) && gl.clearColor == TransparentBlack
      ensures gl.statusQueue == old(gl.statusQueue)
      ensures gl.log == old(gl.log) + StartEvents(createdFramebuffer, w, h, renderer.cameraUniformBuffer)
      ensures renderer.State() == old(renderer.State()).(viewProjection := RenderTextureScene(w, h))
      ensures cache == old(cache) && loaded == old(loaded)
    {
      savedViewport := gl.viewport;
      savedClearColor := gl.clearColor;
      renderer.EndScene(gl);
      ghost var log0 := gl.log;
      createdFramebuffer := CreateFramebufferWithColor(gl, IVec2(w, h));
      framebufferSize := IVec2(w, h);
      ClearTarget(gl, createdFramebuffer.framebuffer, Rect(IVec2(0, 0), IVec2(w, h)));
      renderer.BeginScene(gl, RenderTextureScene(w, h));
      ghost var creation := CreationEvents(createdFramebuffer, IVec2(w, h));
      ghost var target := TargetEvents(createdFramebuffer.framebuffer, Rect(IVec2(0, 0), IVec2(w, h)), TransparentBlack);
      AppendAssoc(log0, creation, target);
      AppendAssoc(log0, creation + target, [Clear(ColorBit)]);
      AppendAssoc(log0, creation + target + [Clear(ColorBit)], SceneEvents(renderer.cameraUniformBuffer, RenderTextureScene(w, h)));
    }

    /**
     * `EndRenderTextureMode`: ends the scene, binds the default framebuffer,
     * restores the saved viewport and clear colour, begins a scene sized from
     * the saved viewport, deletes the temporary framebuffer and returns a new
     * texture owning its colour attachment.
     */
    method EndRenderTextureMode(gl: Device, renderer: Renderer2D) returns (t: Texture)
      requires gl.Valid()
      modifies gl, renderer
      ensures gl.Valid()
      ensures gl.boundFramebuffer == 0
      ensures gl.viewport == savedViewport && gl.clearColor == savedClearColor
      ensures gl.statusQueue == old(gl.statusQueue)
      ensures gl.live == old(gl.live) - {createdFramebuffer.framebuffer}
      ensures gl.log == old(gl.log) + EndEvents(createdFramebuffer, savedViewport, savedClearColor, renderer.cameraUniformBuffer)
      ensures renderer.State() == old(renderer.State()).(viewProjection := Ndc(savedViewport.size))
      ensures fresh(t) && t.handle == createdFramebuffer.colorAttachment && t.size == framebufferSize
    {
      renderer.EndScene(gl);
      SelectTarget(gl, 0, savedViewport, savedClearColor);
      renderer.BeginScene(gl, Ndc(savedViewport.size));
      gl.Delete(FramebufferObject, createdFramebuffer.framebuffer);
      ghost var target := TargetEvents(0, savedViewport, savedClearColor);
      ghost var scene := SceneEvents(renderer.cameraUniformBuffer, Ndc(savedViewport.size));
      AppendAssoc(old(gl.log), target, scene);
      AppendAssoc(old(gl.log), target + scene, [Deleted(FramebufferObject, createdFramebuffer.framebuffer)]);
      t := new Texture.Of(createdFramebuffer.colorAttachment, framebufferSize);
    }
  }
}
