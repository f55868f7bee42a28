/**
 * `CS230::Texture`: a GPU texture handle with its size in texels, drawn as a
 * quad by the 2D renderer, either whole or as a sub-rectangle (a sprite
 * frame), and owned uniquely (move-only).
 */
module Textures {
  import opened Vec2
  import opened GL
  import opened ImmediateRenderer

  /**
   * The transform handed to the renderer for a quad of `dims` texels: the
   * display matrix, times a scale by `dims`, times a shift by half a unit so
   * that the quad's bottom-left corner sits at the origin.
   */
  function QuadTransform(display: Mat3, dims: IVec2): (m: Mat3)
    ensures m.Product? && m.right == Translation(Vec2(0.5, 0.5))
    ensures m.left == Product(display, Scaling(FromIVec2(dims)))
  {
    Product(Product(display, Scaling(FromIVec2(dims))), Translation(Vec2(0.5, 0.5)))
  }

  /** Texture coordinates of the whole texture. */
  const WholeBottomLeft := Vec2(0.0, 0.0)
  const WholeTopRight := Vec2(1.0, 1.0)

  /**
   * Bottom-left texture coordinate of the frame of `frame` texels whose
   * top-left texel is `texel`, counted from the top of a texture of `size`
   * texels: texture coordinates grow upwards, so the row is flipped.
   */
  function FrameBottomLeft(size: IVec2, texel: IVec2, frame: IVec2): Vec2
    requires size.x != 0 && size.y != 0
  {
    Vec2(texel.x as real / size.x as real, (size.y - texel.y - frame.y) as real / size.y as real)
  }

  /** Top-right texture coordinate of the same frame. */
  function FrameTopRight(size: IVec2, texel: IVec2, frame: IVec2): Vec2
    requires size.x != 0 && size.y != 0
  {
    Vec2((texel.x + frame.x) as real / size.x as real, (size.y - texel.y) as real / size.y as real)
  }

  /** The frame spans `frame / size` of the texture in each direction. */
  lemma FrameExtent(size: IVec2, texel: IVec2, frame: IVec2)
    requires size.x != 0 && size.y != 0
    ensures Sub(FrameTopRight(size, texel, frame), FrameBottomLeft(size, texel, frame))
            == Vec2(frame.x as real / size.x as real, frame.y as real / size.y as real)
  {
    var sx, sy := size.x as real, size.y as real;
    assert (texel.x + frame.x) as real / sx - texel.x as real / sx == frame.x as real / sx;
    assert (size.y - texel.y) as real / sy - (size.y - texel.y - frame.y) as real / sy == frame.y as real / sy;
  }

  /**
   * Texel rows are counted from the top: the frame's top edge is `texel.y`
   * rows below the top of the texture (coordinate 1) and its bottom edge
   * `texel.y + frame.y` rows below it; columns are not flipped.
   */
  lemma FrameRowsFlipped(size: IVec2, texel: IVec2, frame: IVec2)
    requires size.x != 0 && size.y != 0
    ensures FrameTopRight(size, texel, frame).y == 1.0 - texel.y as real / size.y as real
    ensures FrameBottomLeft(size, texel, frame).y == 1.0 - (texel.y + frame.y) as real / size.y as real
    ensures FrameBottomLeft(size, texel, frame).x == texel.x as real / size.x as real
  {
    var sy := size.y as real;
    assert sy / sy == 1.0;
    assert (size.y - texel.y) as real / sy == sy / sy - texel.y as real / sy;
    assert (size.y - texel.y - frame.y) as real / sy == sy / sy - (texel.y + frame.y) as real / sy;
  }

  /** The frame at texel (0,0) as large as the texture is the whole texture. */
  lemma WholeFrame(size: IVec2)
    requires size.x != 0 && size.y != 0
    ensures FrameBottomLeft(size, IVec2(0, 0), size) == WholeBottomLeft
    ensures FrameTopRight(size, IVec2(0, 0), size) == WholeTopRight
  {
    var sx, sy := size.x as real, size.y as real;
    assert sx / sx == 1.0 && sy / sy == 1.0;
  }

  /**
   * Drawing the frame at texel (0,0) that is as large as the texture issues
   * the same calls as drawing the whole texture.
   */
  lemma {:induction false} WholeFrameDrawsWhole(shader: CompiledShader, vao: Handle, display: Mat3, handle: Handle, size: IVec2, color: Rgba)
    requires size.x != 0 && size.y != 0
    ensures QuadEvents(shader, vao, QuadTransform(display, size), handle,
                       FrameBottomLeft(size, IVec2(0, 0), size), FrameTopRight(size, IVec2(0, 0), size), color)
            == QuadEvents(shader, vao, QuadTransform(display, size), handle, WholeBottomLeft, WholeTopRight, color)
  {
    WholeFrame(size);
  }

  class Texture {
    var handle: Handle
    var size: IVec2

    /** `Texture(handle, size)`: adopts an existing texture. */
    constructor Of(givenHandle: Handle, givenSize: IVec2)
      ensures handle == givenHandle && size == givenSize
    {
      handle := givenHandle;
      size := givenSize;
    }

    /**
     * `Texture(file)`: the image's size and a new texture made from it. The
     * file is read outside this model, so its image size is a parameter.
     */
    constructor FromImage(gl: Device, imageSize: IVec2)
      requires gl.Valid()
      modifies gl
      ensures gl.Valid() && gl.SettingsUnchanged()
      ensures size == imageSize
      ensures handle != 0 && handle !in old(gl.live) && gl.live == old(gl.live) + {handle}
      ensures gl.log == old(gl.log) + [Created(TextureObject, handle)]
    {
      size := imageSize;
      var h := gl.Gen(TextureObject);
      handle := h;
    }

    /** The move constructor: takes the handle and size; the source keeps handle 0 and size (0,0). */
    constructor Moved(other: Texture)
      modifies other
      ensures handle == old(other.handle) && size == old(other.size)
      ensures other.handle == 0 && other.size == IVec2(0, 0)
    {
      handle := other.handle;
      size := other.size;
      new;
      other.handle := 0;
      other.size := IVec2(0, 0);
    }

    /**
     * Move assignment: exchanges handle and size with `other`, whose
     * destructor then releases the texture this one held.
     */
    method MoveAssign(other: Texture) returns (self: Texture)
      modifies this, other
      ensures self == this
      ensures handle == old(other.handle) && size == old(other.size)
      ensures other.handle == old(handle) && other.size == old(size)
    {
      handle, other.handle := other.handle, handle;
      size, other.size := other.size, size;
      self := this;
    }

    /** The destructor: deletes the texture unless the handle is 0. */
    method Destroy(gl: Device)
      requires gl.Valid()
      modifies gl
      ensures gl.Valid() && gl.SettingsUnchanged()
      ensures gl.live == old(gl.live) - {handle}
      ensures gl.log == old(gl.log) + Drop(TextureObject, handle)
      ensures handle == 0 ==> gl.log == old(gl.log)
    {
      Release(gl, TextureObject, handle);
    }

    method GetSize() returns (s: IVec2)
      ensures s == size
    {
      s := size;
    }

    /** `Draw(display, color)`: the whole texture on a quad of its own size. */
    method Draw(gl: Device, renderer: Renderer2D, display: Mat3, color: Rgba)
      requires gl.Valid()
      modifies gl
      ensures gl.Valid() && gl.live == old(gl.live) && gl.SettingsUnchanged()
      ensures gl.log == old(gl.log) + QuadEvents(renderer.shader, renderer.quadVertexArray, QuadTransform(display, size),
                                                 handle, WholeBottomLeft, WholeTopRight, color)
    {
      var transform := QuadTransform(display, size);
      renderer.DrawQuad(gl, transform, handle, WholeBottomLeft, WholeTopRight, color);
    }

    /**
     * `Draw(display, texel, frame, color)`: the `frame`-sized sub-rectangle
     * whose top-left texel is `texel`, on a quad of the frame's size.
     */
    method DrawFrame(gl: Device, renderer: Renderer2D, display: Mat3, texel: IVec2, frame: IVec2, color: Rgba)
      requires gl.Valid()
      requires size.x != 0 && size.y != 0
      modifies gl
      ensures gl.Valid() && gl.live == old(gl.live) && gl.SettingsUnchanged()
      ensures gl.log == old(gl.log) + QuadEvents(renderer.shader, renderer.quadVertexArray, QuadTransform(display, frame),
                                                 handle, FrameBottomLeft(size, texel, frame), FrameTopRight(size, texel, frame), color)
    {
      var transform := QuadTransform(display, frame);
      var bottomLeft := FrameBottomLeft(size, texel, frame);
      var topRight := FrameTopRight(size, texel, frame);
      renderer.DrawQuad(gl, transform, handle, bottomLeft, topRight, color);
    }
  }
}
