# HW8 renderer core in Dafny

This project models the logic beneath the OpenGL plumbing of the HW8 2D
renderer and its two demos, and proves properties of that model. The GPU is
a `GL.Device`: a set of live object handles, a counter that hands out fresh
handles, a log of every draw, bind and delete call, and the few pieces of
pipeline state that the code reads back (viewport, clear colour, bound
framebuffer). Each GL call becomes one event in the log, except the data
uploads (`glBufferData`, texture uploads), which are not logged. Double-precision
arithmetic is `real`. `sin`, `cos` and `sqrt` are function-typed parameters
with no interpretation. Matrices are symbolic terms.

The modules, following the source files:

- `DepthPost`, `DepthScene`, `SceneLayout`, `DrawOrdering`, `PostChain`: the
  depth-and-post demo (`DemoDepthPost`). The demo class owns the scene lists,
  the draw orders and the render targets. Its methods are proved against
  functions that give the item layout, the draw orders (`std::sort` as
  stable insertion sort, one of the orders it may give ties, and `std::shuffle` as Fisher-Yates over an arbitrary
  generator stream), the fog animation, and the exact call sequences of the
  scene pass, the resolve and the ping-pong post chain.
- `Cameras`: the split-screen demo (`DemoCameras`): viewport tiling, the key
  handling state machine, the player clamp and camera easing.
- `GL`, `ImmediateRenderer`: the device and `ImmediateRenderer2D`: handle
  lifecycle, scene matrix packing, quad UV transform, SDF uniform binding and
  shape dispatch.
- `VertexArray`: `CreateVertexArrayObject`'s stride, offset and attribute
  index loop.
- `Font`: the glyph strip scan, text measurement and the text texture cache
  with its eviction.
- `Textures`, `TextureManagement`: texture UV conversion and ownership, the
  path-keyed texture cache, and render-to-texture save and restore.
- `Vec2`, `Text`, `Input`: `ivec2`/`vec2` arithmetic, conversion and stream
  text, and the key enumeration with its names.

## Model

| member | source | states |
|---|---|---|
| Vec2.TruncReal | source/Engine/Vec2.cpp:16-17 | `static_cast<int>` keeps the integer part: non-negative input gives the floor, negative input gives the ceiling |
| Vec2.ISplat | source/Engine/Vec2.hpp:27 | the single-value `ivec2` constructor puts the same value in both components |
| Vec2.IEqIsEquality | source/Engine/Vec2.hpp:45-46 | `==` holds exactly when the two vectors are equal, and `!=` exactly when they differ |
| Vec2.IAddSubInverse | source/Engine/Vec2.hpp:36-40 | subtracting `b` undoes adding `b`, negating twice is the identity, and adding `-b` is subtracting `b` |
| Vec2.IScaleCommutes | source/Engine/Vec2.hpp:41-42 | `v * s` scales each component by `s`, and `s * v` equals `v * s` |
| Vec2.IDivTruncates | source/Engine/Vec2.hpp:43 | each component of `v / s` is the quotient rounded toward zero: its magnitude times `abs(s)` is at most the dividend's magnitude and within `abs(s)` of it, and a non-zero quotient has the sign of the dividend times the divisor |
| Vec2.TruncDivMagnitude | source/Engine/Vec2.hpp:43 | the magnitude of a truncating `int` quotient is the quotient of the magnitudes |
| Vec2.IDivNegativeExample | source/Engine/Vec2.hpp:43 | `{-7, 7} / 2` is `{-3, 3}`, whereas floor division would give -4 for the first component |
| Vec2.Splat | source/Engine/Vec2.hpp:58 | the single-value `vec2` constructor puts the same value in both components |
| Vec2.ScaleCommutes | source/Engine/Vec2.hpp:77-78 | `v * s` scales each component of a `vec2` by `s`, and `s * v` equals `v * s` |
| Vec2.FromIVec2 | source/Engine/Vec2.hpp:59 | converting an `ivec2` to `vec2` keeps each component exactly, so both components are whole numbers |
| Vec2.FromVec2 | source/Engine/Vec2.cpp:16-17 | converting a `vec2` to `ivec2` never increases a component's magnitude |
| Vec2.IntRoundTrip | source/Engine/Vec2.cpp:16-17 | converting an `ivec2` to `vec2` and back gives the same vector |
| Vec2.FromVec2NegativeExample | source/Engine/Vec2.cpp:16-17 | `{-2.5, 2.5}` converts to `{-2, 2}`: conversion rounds toward zero, not down |
| Vec2.Format | source/Engine/Vec2.cpp:36-40 | `operator<<` writes text that starts with `"{ "` and ends with `" }"` |
| Vec2.Extract | source/Engine/Vec2.cpp:42-46 | the unread input is always a suffix of the input; a successful `operator>>` consumes at least one character and both components it stores fit in `int`; when a component fails, what it consumed (whitespace, sign, digits) stays consumed |
| Vec2.ExtractBare | source/Engine/Vec2.cpp:42-46 | extracting from `"x y"` with both in `int` range reads back exactly `{x, y}`, succeeds, and consumes all the input |
| Vec2.ExtractAfterSpace | source/Engine/Vec2.cpp:44 | an integer extraction skips one leading space and reads a decimal number in `int` range back exactly |
| Vec2.ExtractOutOfRange | source/Engine/Vec2.cpp:44 | a first number above `INT_MAX` stores `INT_MAX` in `x`, fails the stream, leaves `y` unchanged and leaves exactly the text after that number unread |
| Vec2.ExtractSecondFails | source/Engine/Vec2.cpp:44 | when the second component does not start a number, `x` is read, `y` is set to 0, the stream fails and only the whitespace before the bad character is consumed |
| Vec2.ExtractBlank | source/Engine/Vec2.cpp:44 | input of only whitespace reaches its end: the vector keeps its value, the stream fails, and nothing is left to read |
| Vec2.NoLeadingSpace | source/Engine/Vec2.cpp:44 | the decimal form of an integer starts with no whitespace |
| Vec2.ExtractFormatFails | source/Engine/Vec2.cpp:36-46 | `operator>>` cannot read back what `operator<<` writes: it fails on the opening brace, sets `x` to 0 and leaves `y` unchanged |
| Vec2.IVec2Var.constructor | source/Engine/Vec2.hpp:25 | a default-constructed `ivec2` is `{0, 0}` |
| Vec2.IVec2Var.Of | source/Engine/Vec2.hpp:26 | the two-value constructor stores the given components |
| Vec2.IVec2Var.AddAssign | source/Engine/Vec2.hpp:30 | `+=` gives the variable the value of `v + rhs` and returns the same variable |
| Vec2.IVec2Var.SubAssign | source/Engine/Vec2.hpp:31 | `-=` gives the variable the value of `v - rhs` and returns the same variable |
| Vec2.IVec2Var.MulAssign | source/Engine/Vec2.hpp:32 | `*=` gives the variable the value of `v * s` and returns the same variable |
| Vec2.IVec2Var.DivAssign | source/Engine/Vec2.hpp:33 | `/=` gives the variable the value of the truncating `v / s` and returns the same variable |
| Vec2.IVec2Var.ReadFrom | source/Engine/Vec2.cpp:42-46 | `is >> v` leaves the variable, the stream state and the unread input exactly as `Extract` describes, including the saturated value of an out-of-range number and the input a failed component consumed |
| Vec2.Vec2Var.Of | source/Engine/Vec2.hpp:57 | the two-value constructor stores the given components |
| Vec2.Vec2Var.AddAssign | source/Engine/Vec2.hpp:68 | `+=` gives the variable the value of `v + rhs` and returns the same variable |
| Vec2.Vec2Var.SubAssign | source/Engine/Vec2.hpp:69 | `-=` gives the variable the value of `v - rhs` and returns the same variable |
| Vec2.Vec2Var.MulAssign | source/Engine/Vec2.hpp:70 | `*=` gives the variable the value of `v * s` and returns the same variable |
| Vec2.Vec2Var.DivAssign | source/Engine/Vec2.hpp:71 | `/=` gives the variable the value of `v / s` and returns the same variable |
| Vec2.Vec2Var.Normalize | source/Engine/Vec2.cpp:19-29 | a zero vector is left unchanged; otherwise the new value times the original length is the old value, so the direction is kept. The new value is also returned |
| Text.DigitChar | source/Engine/Vec2.cpp:38 | every digit value below 10 is written as a decimal digit character |
| Text.DigitValue | source/Engine/Vec2.cpp:44 | a character's digit value is -1 (not a digit) or lies below the base |
| Text.Digits | source/Engine/Vec2.cpp:38 | writing a non-negative number produces at least one digit |
| Text.DigitsAreDigits | source/Engine/Font.cpp:64 | every character written for a number is a valid digit of its base, including the hexadecimal digits `a`-`f` |
| Text.DigitCharValue | source/Engine/Vec2.cpp:38-44 | reading the character written for a digit gives that digit back |
| Text.DigitsRoundTrip | source/Engine/Vec2.cpp:38-44 | reading back the digits written for `n` in any base from 2 to 16 gives `n` |
| Text.HexInjective | source/Engine/Font.cpp:64 | two different colours are written as different hexadecimal text |
| Text.DecimalInjective | source/Demo/DemoCameras.cpp:133 | two different integers are written as different decimal text |
| Text.DecimalSign | source/Engine/Vec2.cpp:38 | the decimal text of an integer starts with `-` exactly when the integer is negative |
| Text.SpacePrefix | source/Engine/Vec2.cpp:44 | the whitespace skipped before a number (space, tab, newline, vertical tab, form feed, carriage return) fits in the input |
| Text.DigitPrefix | source/Engine/Vec2.cpp:44 | the digit run read is the longest one: all its characters are digits and the next one is not |
| Text.ExtractInt | source/Engine/Vec2.cpp:44 | `is >> n` consumes at least one character whenever it reads a number, and the value it stores always fits in `int`; what it leaves unread is a suffix of the input; it reaches the end of the input exactly when only whitespace remains; a failure consumes the whitespace and any sign |
| Text.SuffixTransitive | source/Engine/Vec2.cpp:44 | what the second extraction leaves of what the first left is also what is left of the whole input |
| Text.ReadDigits | source/Engine/Vec2.cpp:44 | after the optional sign, reading fails exactly when no digit follows, and then consumes nothing more; otherwise it consumes at least one digit and stores a value in `int` range, `INT_MIN` or `INT_MAX` when the number is out of range; the rest is always a suffix of its input |
| Text.Saturated | source/Engine/Vec2.cpp:44 | a value in `int` range is read as itself; one outside is stored as `INT_MAX` (above) or `INT_MIN` (below) and fails the stream |
| Text.DigitsValueNonNegative | source/Engine/Vec2.cpp:44 | the value of a digit run is never negative |
| Text.DigitPrefixOfDigits | source/Engine/Vec2.cpp:44 | a run of digits followed by a non-digit is read to its end and no further |
| Text.DecimalDigitsAreDigits | source/Engine/Vec2.cpp:38 | every character of the decimal text of a natural number is a decimal digit |
| Text.ExtractDecimal | source/Engine/Vec2.cpp:38-44 | `is >> n` reads back exactly what `os << n` wrote for any integer in `int` range and leaves the text after it unread; a larger number saturates to `INT_MAX`, a smaller one to `INT_MIN`, and fails the stream |
| Text.ExtractUnsigned | source/Engine/Vec2.cpp:44 | an unsigned digit run is read as its value, saturated into `int` range, and the text after it is left unread |
| Text.ExtractNegative | source/Engine/Vec2.cpp:44 | `-` followed by a digit run is read as the negated value, saturated into `int` range |
| Text.ReadRun | source/Engine/Vec2.cpp:44 | after the sign, a digit run is read as its value, negated when the sign was `-`, then saturated into `int` range |
| Input.Ordinal | source/Engine/Input.hpp:22-67 | each enumerator's underlying value is its position in the declaration, below the number of enumerators |
| Input.KeyAtOrdinal | source/Engine/Input.hpp:22-67 | looking up the enumerator by its underlying value gives the same enumerator back |
| Input.OrdinalKeyAt | source/Engine/Input.hpp:22-67 | every underlying value from 0 to 42 belongs to an enumerator |
| Input.NameRoundTrip | source/Engine/Input.hpp:92-141 | each enumerator's name leads back to that enumerator, so no two enumerators share a name |
| Input.NamesDistinct | source/Engine/Input.hpp:92-141 | `to_string` gives different strings to any two different enumerators, `Count` included |
| Input.LetterNames | source/Engine/Input.hpp:96-121 | the 26 letter keys are named by their single upper-case letter |
| Input.DigitNames | source/Engine/Input.hpp:122-125 | `One` to `Four` are named by their digit |
| Input.UnknownOnlyOutside | source/Engine/Input.hpp:138-140 | `to_string` returns "Unknown" exactly for the values outside the enumeration |
| Input.CountIsLast | source/Engine/Input.hpp:65-66 | `Count` is the last enumerator, with value 42, and every other key has a smaller value |
| Input.OrdinalInjective | source/Engine/Input.hpp:22-67 | two enumerators with the same underlying value are the same enumerator |
| Input.KeyVar.constructor | source/Engine/Input.hpp:22-67 | a `Keys` variable holds the enumerator's underlying value |
| Input.KeyVar.Increment | source/Engine/Input.hpp:86-90 | `++key` adds one to the underlying unsigned value, wrapping at 2^32, and returns the same variable |
| Input.IncrementOrder | source/Engine/Input.hpp:86-90 | incrementing any key but `Count` gives the next key in declaration order; incrementing `Count` leaves the enumeration, and `to_string` then says "Unknown" |
| Textures.QuadTransform | source/Engine/Texture.cpp:26-29 | the quad transform is the display matrix times a scale by the texel size, times a shift by half a unit |
| Textures.FrameExtent | source/Engine/Texture.cpp:48-49 | a frame's texture coordinates span `frame / size` of the texture in each direction |
| Textures.FrameRowsFlipped | source/Engine/Texture.cpp:48-49 | texel rows count from the top while texture coordinates grow upwards: the frame's top edge is at `1 - texel.y / size.y`, its bottom edge at `1 - (texel.y + frame.y) / size.y`, and columns are not flipped |
| Textures.WholeFrame | source/Engine/Texture.cpp:48-49 | the frame at texel (0, 0) as large as the texture has the coordinates (0, 0) and (1, 1) of the whole texture |
| Textures.WholeFrameDrawsWhole | source/Engine/Texture.cpp:21-54 | drawing that whole-texture frame issues exactly the calls of drawing the whole texture |
| Textures.Texture.Of | source/Engine/Texture.cpp:80-82 | the handle-and-size constructor stores both as given |
| Textures.Texture.FromImage | source/Engine/Texture.cpp:69-77 | loading an image creates one new, nonzero texture object and takes the image's size |
| Textures.Texture.Moved | source/Engine/Texture.cpp:84-92 | the move constructor takes the other texture's handle and size and leaves the other with handle 0 and size (0, 0) |
| Textures.Texture.MoveAssign | source/Engine/Texture.cpp:94-99 | move assignment swaps handle and size with the other texture and returns this texture |
| Textures.Texture.Destroy | source/Engine/Texture.cpp:61-67 | the destructor deletes the texture object only when the handle is nonzero, and otherwise issues no call |
| Textures.Texture.GetSize | source/Engine/Texture.cpp:56-59 | returns the texture's size |
| Textures.Texture.Draw | source/Engine/Texture.cpp:21-36 | draws one quad of the texture's size over texture coordinates (0, 0) to (1, 1), and changes no GPU object |
| Textures.Texture.DrawFrame | source/Engine/Texture.cpp:38-54 | draws one quad of the frame's size over the frame's flipped texture coordinates |
| TextureManagement.CreateFramebufferWithColor | source/Engine/TextureManager.cpp:65 | creates a new colour texture and a new framebuffer, both nonzero, distinct and not live before, with the texture attached |
| TextureManagement.SelectTarget | source/Engine/TextureManager.cpp:66-72 | binds the framebuffer and sets the viewport and clear colour, creating and deleting nothing |
| TextureManagement.ClearTarget | source/Engine/TextureManager.cpp:66-74 | selects the framebuffer and clears its colour to transparent black |
| TextureManagement.TextureManager.Load | source/Engine/TextureManager.cpp:21-43 | a cached path returns the cached texture and changes nothing; a new path creates one texture of the image's size with a fresh, nonzero name that joins the live set, logs exactly its creation, caches it under the path and appends it to the loaded list |
| TextureManagement.TextureManager.Unload | source/Engine/TextureManager.cpp:45-54 | empties both the loaded list and the cache |
| TextureManagement.TextureManager.StartRenderTextureMode | source/Engine/TextureManager.cpp:56-84 | saves the old viewport and clear colour, ends the scene, creates and binds a new `w`x`h` framebuffer, clears it to transparent black and begins a scene with that size's NDC matrix |
| TextureManagement.TextureManager.EndRenderTextureMode | source/Engine/TextureManager.cpp:86-106 | ends the scene, unbinds the framebuffer, restores the saved viewport and clear colour, begins a scene with the saved viewport's NDC matrix, deletes only the framebuffer, and returns a texture that owns its colour attachment |
| VertexArray.AttributePlan | source/OpenGL/VertexArray.cpp:89-126 | one buffer configures exactly as many slots as its layout has attributes that are not placeholders |
| VertexArray.PlanIndices | source/OpenGL/VertexArray.cpp:67-126 | attribute indices run 0, 1, 2, ... across all buffers in list order |
| VertexArray.AttributePlanIndices | source/OpenGL/VertexArray.cpp:96-124 | within one buffer the slots take consecutive indices from the index the buffer starts at |
| VertexArray.AttributePlanOffsets | source/OpenGL/VertexArray.cpp:86-126 | within one buffer no slot is a placeholder and every slot uses the layout's stride; the first offset is the buffer's starting offset and each later offset lies just past the previous attribute |
| VertexArray.NoSlotNoSize | source/OpenGL/VertexArray.cpp:92-94 | a layout of placeholders only adds no bytes of offset |
| VertexArray.BufferPlanRestarts | source/OpenGL/VertexArray.cpp:79-87 | each buffer's offsets restart at that buffer's own starting offset and use its own stride |
| VertexArray.PlaceholderSkipped | source/OpenGL/VertexArray.cpp:80-94 | a placeholder takes no slot and no bytes of offset, but its size counts toward the stride |
| VertexArray.AttributePlanStep | source/OpenGL/VertexArray.cpp:89-126 | one more attribute adds one slot with the next index at the current offset, or nothing for a placeholder |
| VertexArray.BuffersStep | source/OpenGL/VertexArray.cpp:69-127 | one more buffer adds its bind call and its slots, with indices continuing from the earlier buffers |
| VertexArray.ComputeStride | source/OpenGL/VertexArray.cpp:79-82 | the stride loop returns the sum of the sizes of all the layout's attributes, placeholders included |
| VertexArray.ConfigureSlot | source/OpenGL/VertexArray.cpp:96-120 | enables the index, describes it with the integer or the float attribute call depending on the attribute type, then the divisor |
| VertexArray.ConfigureAttributes | source/OpenGL/VertexArray.cpp:86-126 | the attribute loop issues exactly the calls of the buffer's slots and returns the index after its last slot |
| VertexArray.ConfigureBuffer | source/OpenGL/VertexArray.cpp:73-126 | binds the buffer as the array buffer, then configures its slots from the given index |
| VertexArray.ConfigureBuffers | source/OpenGL/VertexArray.cpp:69-127 | the buffer loop issues the calls of every buffer in list order |
| VertexArray.CreateVertexArrayObject | source/OpenGL/VertexArray.cpp:41-139 | creates one new vertex array object, binds it, configures every buffer, binds the index buffer only when it is nonzero, and unbinds the vertex array |
| VertexArray.CreateVertexArrayObjectSingle | source/OpenGL/VertexArray.cpp:141-144 | the single-buffer overload issues the calls of the list holding only that buffer |
| VertexArray.SingleBufferEvents | source/OpenGL/VertexArray.cpp:141-144 | for a list of one buffer, the calls are its bind call and its slots from index 0 |
| Font.RunWidth | source/Engine/Font.cpp:40-47 | a glyph's width is the shortest run of at least one column after which the next pixel has a different colour, or the buffer ends; every pixel in between has the run colour |
| Font.GlyphsFrom | source/Engine/Font.cpp:38-55 | the scan from a given cursor produces one rectangle per glyph asked for |
| Font.Glyphs | source/Engine/Font.cpp:38-55 | the constructor's scan produces one rectangle for each of the 91 characters from ' ' to 'z' |
| Font.GlyphsFromAt | source/Engine/Font.cpp:38-55 | glyph `i` is the run at the cursor reached after `i` glyphs |
| Font.GlyphsFromContiguous | source/Engine/Font.cpp:52-54 | the rectangles from a cursor are contiguous, at least one column wide, and span rows 1 through the image height |
| Font.GlyphsContiguous | source/Engine/Font.cpp:36-55 | a font's glyphs start at column 1; each starts one column past the end of the previous one, is at least one column wide, and spans rows 1 through the image height |
| Font.RunsFrom | source/Engine/Font.cpp:41-49 | each glyph from a cursor is a run of one colour ended by a pixel of a different colour that exists; the run colour is the cursor's for the first glyph and the glyph's own first column's after that |
| Font.GlyphIsRun | source/Engine/Font.cpp:32-49 | each glyph of a font is a run of one colour ended by a different colour; the first glyph's colour is the first pixel's (white) |
| Font.ScanRun | source/Engine/Font.cpp:40-49 | the do-while loop returns the run width and the colour of the pixel just past the run |
| Font.ScanStep | source/Engine/Font.cpp:38-55 | one iteration of the scan moves one glyph from those still to find to those found, and the next run ends inside the buffer |
| Font.ScanGlyph | source/Engine/Font.cpp:40-54 | one turn of the scan stores the rectangle of the run at the cursor, from row 1 to the image height, and moves the cursor to the column just past it with that column's colour |
| Font.ScanGlyphs | source/Engine/Font.cpp:32-55 | the constructor's loop fills a new array with exactly the glyph rectangles `Glyphs` describes |
| Font.GlyphIndex | source/Engine/Font.cpp:81-83 | a drawable character's glyph index `c - ' '` is below 91 |
| Font.Drawn | source/Engine/Font.cpp:79-83 | at most one glyph is drawn per character, and every glyph index is in range |
| Font.DrawnStep | source/Engine/Font.cpp:79-83 | one more character adds its glyph when it lies between ' ' and 'z', and nothing otherwise |
| Font.HeightMax | source/Engine/Font.cpp:85 | the text height is never negative |
| Font.MeasureStep | source/Engine/Font.cpp:79-86 | measuring one more character adds its glyph's width and raises the height to its glyph's height, when it has a glyph |
| Font.HeightIsMax | source/Engine/Font.cpp:85 | the height is the greatest glyph height: at least each glyph's height and equal to one of them, or 0 when nothing is drawn |
| Font.DrawnAppend | source/Engine/Font.cpp:79-83 | the glyphs of a concatenation are those of each part, in order |
| Font.DrawnEmpty | source/Engine/Font.cpp:81 | a text draws nothing exactly when none of its characters lies between ' ' and 'z' |
| Font.WidthAppend | source/Engine/Font.cpp:84 | glyph widths add up over a concatenation |
| Font.HeightAppend | source/Engine/Font.cpp:85 | glyph heights combine by maximum over a concatenation |
| Font.MeasureAppend | source/Engine/Font.cpp:76-86 | measuring a concatenation adds the widths and takes the larger height; characters without a glyph change neither |
| Font.ScannedMeasure | source/Engine/Font.cpp:52-53 | with scanned glyphs, a text with something to draw is as tall as the image and at least one column per glyph wide; a text with nothing to draw measures 0x0 |
| Font.Placements | source/Engine/Font.cpp:90-115 | the pen loop places exactly one glyph per drawn character |
| Font.PenAdvances | source/Engine/Font.cpp:90-115 | the pen starts at the origin, moves right by each glyph's width, and the last glyph ends exactly at the measured text width |
| Font.PlacementsSnoc | source/Engine/Font.cpp:92-115 | placing one more glyph adds one placement at the current pen position |
| Font.DrawStep | source/Engine/Font.cpp:92-115 | drawing one more glyph appends its draw call at the current pen position |
| Font.GlyphEvents | source/Engine/Font.cpp:112 | one draw call is issued per placed glyph |
| Font.HexHasNoUnderscore | source/Engine/Font.cpp:64 | no hexadecimal digit is an underscore |
| Font.KeyLastUnderscore | source/Engine/Font.cpp:63-65 | the underscore before "0x" is the last underscore in a cache key |
| Font.CacheKeyInjective | source/Engine/Font.cpp:63-65 | two cache keys are equal only for the same text and the same colour, so different texts or colours never share a cache entry |
| Font.FreshEntrySurvives | source/Engine/Font.cpp:120-131 | the entry just inserted for the current frame survives the eviction loop unchanged |
| Font.EvictionExact | source/Engine/Font.cpp:123-131 | eviction removes exactly the entries older than 60 frames whose texture only the cache holds, keeps the others as they were, and evicting twice changes nothing more |
| Font.Open | source/Engine/Font.cpp:23-58 | opening fails with "failed to load font : " and the path, changing no GPU object and neither the cache nor the loaded list, exactly when the first pixel is not white; otherwise it gives a new font with the scanned glyphs and an empty cache whose texture is the one cached under the path: the cached one, with no GPU call, or a new one of the image's size, whose creation is the only call and whose fresh name joins the live set; other cache entries are untouched |
| Font.Font.Of | source/Engine/Font.cpp:52-57 | a font holds the given glyph rectangles and texture, and an empty cache |
| Font.Font.Measure | source/Engine/Font.cpp:76-86 | the measuring loop returns the sum of the widths and the greatest height of the glyphs of the drawable characters |
| Font.Font.DrawText | source/Engine/Font.cpp:90-115 | the pen loop draws each drawable character's glyph from the font texture at the pen, which starts at the origin and moves right by each glyph's width; it creates and deletes nothing |
| Font.Font.DrawCharacter | source/Engine/Font.cpp:92-115 | one turn of the pen loop: a drawable character adds its glyph's draw call at the pen and moves the pen by its width; any other character changes nothing |
| Font.Font.EvictStale | source/Engine/Font.cpp:123-131 | the eviction loop leaves exactly the entries that are not stale; erasing each stale entry drops the last reference to its texture, so exactly the stale textures' names are deleted and leave the live set, and no other call is made |
| Font.Font.Visit | source/Engine/Font.cpp:127-130 | one turn of the eviction loop erases the entry under its key, and deletes its texture, exactly when the entry is stale |
| Font.DestroyCached | source/Engine/Font.cpp:128 | erasing a cache entry that held the last reference to its texture deletes that texture's name and adds it to those already deleted |
| Font.RemainingStep | source/Engine/Font.cpp:127-130 | visiting one more key removes it from the remaining entries exactly when its entry is stale |
| Font.NamesOfAdd | source/Engine/Font.cpp:128 | erasing one more stale entry adds its texture's name to the deleted names |
| Font.Font.PrintToTexture | source/Engine/Font.cpp:60-134 | a cached text returns its texture and marks it as used in this frame, issuing no GPU call; otherwise the text is measured and drawn into a new texture of that size with a fresh name in render-to-texture mode, cached under its key, and stale entries are evicted: the log is the render calls followed by exactly the deletions of the evicted textures, and the live set gains the new name and loses the evicted ones |
| Font.Font.RenderAndCache | source/Engine/Font.cpp:76-133 | on a cache miss: a fresh texture the size of the measured text with a fresh, nonzero name; the render-to-texture calls with every drawable glyph in order, followed only by the deletions of the evicted textures' names; the new entry cached under its key; exactly the non-stale entries kept beside it; and the live set gains the new name and loses exactly the evicted ones |
| Font.Font.RenderText | source/Engine/Font.cpp:76-117 | the drawing half of a miss: a new texture of the measured size with a fresh, nonzero name that joins the live set, and a log of exactly render-to-texture mode, one draw per drawable glyph in order, and the return from it |
| GL.ColumnMajor9 | source/CS200/ImmediateRenderer2D.cpp:237-241 | the nine floats of the model matrix are in column-major order: slot `3*col + row` holds entry `[row][col]` |
| GL.Std140Columns | source/CS200/ImmediateRenderer2D.cpp:213-217 | the twelve floats of the camera block are three columns padded to four: slot `4*col + row` holds entry `[row][col]` and slots 3, 7 and 11 hold zero |
| GL.UniformEvents | source/CS200/ImmediateRenderer2D.cpp:242-243 | a uniform is uploaded exactly once, to its own location, when the shader declares it, and not at all otherwise |
| GL.Device.Gen | source/CS200/ImmediateRenderer2D.cpp:87 | a generated object name is nonzero and was not live before, and it is now live |
| GL.Device.Delete | source/CS200/ImmediateRenderer2D.cpp:168 | deleting an object removes exactly its name from the live set and logs the deletion |
| GL.Device.CheckFramebufferStatus | source/Demo/DemoDepthPost.cpp:621 | returns the next status the driver reports (complete when none is queued) and changes nothing else |
| GL.Device.SetUniform | source/CS200/ImmediateRenderer2D.cpp:242-243 | logs exactly the upload that `UniformEvents` describes, and nothing else changes |
| ImmediateRenderer.SdfTransformOf | source/CS200/ImmediateRenderer2D.cpp:281 | the SDF transform holds nine quad-transform floats, two quad-size floats and two world-size floats |
| ImmediateRenderer.TextureTransform | source/CS200/ImmediateRenderer2D.cpp:245-255 | the texture transform is a 3x3 matrix of nine floats |
| ImmediateRenderer.TextureTransformCorners | source/CS200/ImmediateRenderer2D.cpp:245-255 | the texture transform maps (0, 0) to the bottom-left coordinate and (1, 1) to the top-right one, and every point linearly between them |
| ImmediateRenderer.Lits | source/CS200/ImmediateRenderer2D.cpp:250-255 | the texture matrix floats are passed to the shader one for one |
| ImmediateRenderer.QuadEventsWithoutUniforms | source/CS200/ImmediateRenderer2D.cpp:234-275 | with a shader that declares no uniform, `DrawQuad` still binds the program and the texture and draws the quad, with no upload |
| ImmediateRenderer.ShapeReachesShader | source/CS200/ImmediateRenderer2D.cpp:302-305 | two different shapes give different draw calls exactly when the SDF shader declares `shapetype` |
| ImmediateRenderer.Drop | source/CS200/ImmediateRenderer2D.cpp:166-200 | `Shutdown` skips the deletion of a zero name and deletes every other name |
| ImmediateRenderer.NothingToRelease | source/CS200/ImmediateRenderer2D.cpp:164-206 | `Shutdown` deletes nothing exactly when the renderer holds no object |
| ImmediateRenderer.ShutDown | source/CS200/ImmediateRenderer2D.cpp:164-206 | after `Shutdown` the renderer holds no object, a second `Shutdown` deletes nothing, and the view-projection matrix is kept |
| ImmediateRenderer.MoveConstructSharesSdfObjects | source/CS200/ImmediateRenderer2D.cpp:22-46 | as written, both the new renderer and the moved-from one hold the SDF vertex array and the SDF index buffer |
| ImmediateRenderer.MoveConstructDoubleRelease | source/CS200/ImmediateRenderer2D.cpp:22-46 | as written, the destructors of both renderers delete the SDF vertex array and the SDF index buffer |
| ImmediateRenderer.MoveConstruct | source/CS200/ImmediateRenderer2D.cpp:22-46 | the corrected move constructor transfers every handle: the new renderer has the source's state, the moved-from renderer holds nothing, and the two share no object |
| ImmediateRenderer.MoveAssignLosesSdfVertexArray | source/CS200/ImmediateRenderer2D.cpp:49-66 | as written, the target of a move assignment ends with SDF vertex array 0 while the moved-from renderer keeps that vertex array |
| ImmediateRenderer.MoveAssign | source/CS200/ImmediateRenderer2D.cpp:49-66 | the corrected move assignment gives the target the source's whole state and leaves the source holding nothing |
| ImmediateRenderer.OwnedOfNonZero | source/CS200/ImmediateRenderer2D.cpp:164-206 | when no name is zero, the renderer owns exactly its seven object names |
| ImmediateRenderer.OwnedRemoved | source/CS200/ImmediateRenderer2D.cpp:164-206 | deleting each stored name in turn removes exactly the owned objects from the live set |
| ImmediateRenderer.Release | source/CS200/ImmediateRenderer2D.cpp:166-170 | deletes one object unless its name is zero, and removes that name from the live set |
| ImmediateRenderer.DrawBoundQuad | source/CS200/ImmediateRenderer2D.cpp:273-275 | binds the vertex array, draws six indices and unbinds it |
| ImmediateRenderer.BindTextureAndDraw | source/CS200/ImmediateRenderer2D.cpp:270-275 | selects texture unit 0, binds the texture and draws the bound quad |
| ImmediateRenderer.Renderer2D.constructor | source/CS200/ImmediateRenderer2D.cpp:75 | a renderer before `Init` holds no object and no shader |
| ImmediateRenderer.Renderer2D.Moved | source/CS200/ImmediateRenderer2D.cpp:22-46 | the move constructor, as corrected, takes the source's whole state and leaves the source owning nothing |
| ImmediateRenderer.Renderer2D.Init | source/CS200/ImmediateRenderer2D.cpp:75-161 | `Init` creates seven fresh, nonzero, pairwise distinct objects, installs both shaders, makes them the objects the renderer owns, and logs every creation, bind, attribute layout and uniform-block binding in the source's order |
| ImmediateRenderer.Renderer2D.CreateSdfObjects | source/CS200/ImmediateRenderer2D.cpp:87-105 | creates the SDF vertex buffer, index buffer and vertex array, all fresh and distinct, each bound on creation, then records attribute 0 (two floats, stride 8) and the index buffer in the vertex array |
| ImmediateRenderer.Renderer2D.CreateQuadObjects | source/CS200/ImmediateRenderer2D.cpp:124-149 | creates the quad vertex buffer, index buffer and vertex array, all fresh and distinct, then records the position at offset 0 and the texture coordinate at offset 8 of a 16-byte vertex |
| ImmediateRenderer.Renderer2D.CreateCameraBuffer | source/CS200/ImmediateRenderer2D.cpp:152-160 | creates a fresh camera uniform buffer, binds it to uniform binding 0 and to both shaders' "Camera" block, then unbinds it |
| ImmediateRenderer.LayOutSdfVertexArray | source/CS200/ImmediateRenderer2D.cpp:97-105 | with the SDF vertex array bound, attribute 0 is enabled as two floats at stride 8 and offset 0, the array buffer is unbound, the index buffer is rebound and the vertex array unbound, with no object created or deleted |
| ImmediateRenderer.LayOutQuadVertexArray | source/CS200/ImmediateRenderer2D.cpp:138-149 | with the quad vertex array bound, attributes 0 and 1 are enabled as two floats each at offsets 0 and 8 of a 16-byte vertex, the index buffer is rebound and the vertex array unbound, with no object created or deleted |
| ImmediateRenderer.Renderer2D.Shutdown | source/CS200/ImmediateRenderer2D.cpp:164-206 | deletes every nonzero object name in the source's order, zeroes all of them, then destroys the quad shader and the SDF shader and resets both |
| ImmediateRenderer.Renderer2D.ReleaseQuadObjects | source/CS200/ImmediateRenderer2D.cpp:166-185 | deletes and zeroes the quad vertex array, vertex buffer, index buffer and camera buffer |
| ImmediateRenderer.Renderer2D.ReleaseSdfObjects | source/CS200/ImmediateRenderer2D.cpp:186-200 | deletes and zeroes the SDF vertex array, vertex buffer and index buffer |
| ImmediateRenderer.Renderer2D.Destroy | source/CS200/ImmediateRenderer2D.cpp:69-72 | the destructor zeroes every object name, deletes the nonzero ones in the source's order and then destroys both shaders; exactly the owned names leave the live set, and the viewport, clear colour and bound framebuffer are unchanged |
| ImmediateRenderer.Renderer2D.MoveAssignFrom | source/CS200/ImmediateRenderer2D.cpp:49-66 | as corrected (see Findings): self-assignment changes nothing; otherwise this renderer is shut down, exactly its owned names leave the live set, and it then takes the other's whole state while the other ends up holding nothing; the viewport, clear colour and bound framebuffer are unchanged, and neither renderer's stored SDF transform moves |
| ImmediateRenderer.Renderer2D.BeginScene | source/CS200/ImmediateRenderer2D.cpp:209-222 | stores the view-projection matrix and uploads it, as padded columns, to the camera uniform buffer |
| ImmediateRenderer.Renderer2D.EndScene | source/CS200/ImmediateRenderer2D.cpp:224-226 | ending a scene changes no renderer state |
| ImmediateRenderer.Renderer2D.DrawQuad | source/CS200/ImmediateRenderer2D.cpp:228-276 | binds the quad program, uploads the model matrix, texture transform, tint and sampler where declared, and draws the quad with the texture, changing no GPU object |
| ImmediateRenderer.Renderer2D.UploadQuadUniforms | source/CS200/ImmediateRenderer2D.cpp:237-268 | uploads each quad uniform the shader declares, in the source's order |
| ImmediateRenderer.Renderer2D.DrawSdf | source/CS200/ImmediateRenderer2D.cpp:277-314 | stores the SDF transform computed from the transform and line width, uploads each declared SDF uniform, and draws the SDF quad |
| ImmediateRenderer.Renderer2D.UploadSdfUniforms | source/CS200/ImmediateRenderer2D.cpp:283-309 | uploads each SDF uniform the shader declares, in the source's order, from the stored SDF transform |
| ImmediateRenderer.Renderer2D.DrawCircle | source/CS200/ImmediateRenderer2D.cpp:316-319 | is the SDF draw with the circle shape: the calls it logs, the SDF transform it stores, an unchanged live set and unchanged viewport, clear colour and bound framebuffer |
| ImmediateRenderer.Renderer2D.DrawRectangle | source/CS200/ImmediateRenderer2D.cpp:321-324 | is the SDF draw with the rectangle shape: the calls it logs, the SDF transform it stores, an unchanged live set and unchanged viewport, clear colour and bound framebuffer |
| ImmediateRenderer.Renderer2D.DrawLine | source/CS200/ImmediateRenderer2D.cpp:326-330 | is a rectangle SDF draw along the segment, filled and outlined with the line colour: the calls it logs, the SDF transform it stores, an unchanged live set and unchanged viewport, clear colour and bound framebuffer |
| ImmediateRenderer.Renderer2D.DrawLineUntransformed | source/CS200/ImmediateRenderer2D.cpp:332-335 | is the same line draw with the identity transform: the calls it logs, the SDF transform it stores, an unchanged live set and unchanged viewport, clear colour and bound framebuffer |
| Cameras.Layout | source/Demo/DemoCameras.cpp:330-368 | the layout has exactly `viewportCount` tiles for each count from 1 to 4, the only counts the demo sets |
| Cameras.BigWidthInRange | source/Demo/DemoCameras.cpp:349 | the wide tile's width `trunc(x * 0.66)`, computed exactly, lies in `[0, x]` |
| Cameras.DemoLayoutPartitions | source/Demo/DemoCameras.cpp:330-368 | the layout built with the wide tile at `trunc(x * 0.66)` partitions any window of non-negative size, for every count |
| Cameras.LayoutPartitions | source/Demo/DemoCameras.cpp:337-367 | the tiles partition the window: every size is non-negative, every pixel of the window lies in some tile, no pixel lies in two, and no tile reaches outside the window (for three views, with any wide-tile width in `[0, x]`) |
| Cameras.ViewCount | source/Demo/DemoCameras.cpp:147-156 | the count after the number keys is in `[1, 4]`; the highest number key pressed wins, and with none pressed a count already in range is kept |
| Cameras.ActiveAfter | source/Demo/DemoCameras.cpp:157-163 | the active viewport ends below the count; without Tab an index already below the count is kept, and with Tab it moves to the next viewport, wrapping to 0 after the last |
| Cameras.TabCycles | source/Demo/DemoCameras.cpp:160-163 | pressing Tab `n` times moves the active viewport on by `n`, wrapping once past the last; `count` presses bring it back where it was |
| Cameras.TabTimes | source/Demo/DemoCameras.cpp:160-163 | the active viewport after repeated Tab presses stays below the count |
| Cameras.Toggled | source/Demo/DemoCameras.cpp:166-170 | Space switches the camera to the other mode |
| Cameras.ToggleTwice | source/Demo/DemoCameras.cpp:166-170 | toggling twice restores the mode |
| Cameras.TargetZoom | source/Demo/DemoCameras.cpp:173-177 | Q alone never takes the target zoom below 0.5 and E never above 3.5; a zoom in `[0.5, 3.5]` stays there; with neither key the zoom is unchanged |
| Cameras.ClampReal | source/Demo/DemoCameras.cpp:309-310 | `std::clamp` returns a value within the bounds, and a value already within them unchanged |
| Cameras.Steered | source/Demo/DemoCameras.cpp:292-311 | after a player's step its position lies in `[40, worldSize - 40]` on both axes, and its speed, colour and name are unchanged |
| Cameras.EaseStep | source/Demo/DemoCameras.cpp:34-35 | moving a fraction in `[0, 1]` of the way to the target stays between the current value and the target |
| Cameras.Eased | source/Demo/DemoCameras.cpp:31-36 | `ease_to_target` lands exactly on the target when `dt * weight >= 1`, and with `dt * weight` in `[0, 1]` never overshoots |
| Cameras.FollowedLands | source/Demo/DemoCameras.cpp:316-328 | with a large enough step the camera reaches its player's position, its target heading (the player's in first person, 0 when following) and its target zoom at once |
| Cameras.CameraDemo.constructor | source/Demo/DemoCameras.hpp:100-106 | the member defaults: world 2400 x 1800, two viewports with the first active, the grid shown, and no players, cameras or viewports |
| Cameras.CameraDemo.BuildViewportLayout | source/Demo/DemoCameras.cpp:330-368 | empties the viewport list and fills it with the tiles of the current count, the wide tile of three views `trunc(x * 0.66)` wide |
| Cameras.CameraDemo.Load | source/Demo/DemoCameras.cpp:115-139 | creates the four players and one camera on each, at zoom 1.2 and labelled "Viewport i+1" (a camera that already existed keeps its mode), then builds the layout for the window; only the players, cameras and viewports change |
| Cameras.CameraDemo.UpdatePlayers | source/Demo/DemoCameras.cpp:273-314 | each player steers with its own keys and stays inside the world margin, then its camera eases toward it |
| Cameras.CameraDemo.HandleKeys | source/Demo/DemoCameras.cpp:146-177 | the number keys set the count, the active index is reduced modulo the count and Tab advances it, and only the active camera is changed, by Space and Q/E |
| Cameras.CameraDemo.SelectViewport | source/Demo/DemoCameras.cpp:146-162 | the highest number key pressed this frame sets the count, clamped into [1, 4]; the active index is reduced modulo the count and Tab advances it, wrapping to 0, so it always names one of the tiles |
| Cameras.CameraDemo.ControlActiveCamera | source/Demo/DemoCameras.cpp:164-177 | only the active viewport's camera changes: Space toggles its mode, Q and E lower and raise its target zoom within [0.5, 3.5] |
| Cameras.CameraDemo.Update | source/Demo/DemoCameras.cpp:141-182 | after an update the count is in `[1, 4]`, the active viewport is below it, players and cameras have moved, and the layout has exactly `viewportCount` tiles for the window; the grid flag and the primitive renderer are untouched |
| Cameras.CameraDemo.ChooseViewportCount | source/Demo/DemoCameras.cpp:220-226 | the radio buttons set the count and leave the layout as it was |
| Cameras.CameraDemo.Draw | source/Demo/DemoCameras.cpp:189-213 | clears; for each of the first `viewportCount` tiles it sets the viewport and begins a scene with that camera's view-projection; then it begins a window-sized scene for the separators |
| Cameras.DrawView | source/Demo/DemoCameras.cpp:199-206 | one tile: its viewport is set and a scene begun with its camera's view-projection at the tile's size; no object is created or deleted |
| Cameras.UpdateMakesLayoutCurrent | source/Demo/DemoCameras.cpp:181-198 | after `Update` every index `Draw` uses is within the layout, and so is the active viewport |
| Cameras.StaleLayoutAfterChoice | source/Demo/DemoCameras.cpp:195-226 | after a one-view layout, choosing four views with the radio buttons leaves one tile, so `Draw` would read past the end unless `Update` runs first |
| DepthPost.StatusOutcomeSpec | source/Demo/DemoDepthPost.cpp:619-631 | the framebuffer check returns normally exactly when the status is `GL_FRAMEBUFFER_COMPLETE`; otherwise the error text starts with the caption and " incomplete: 0x", and two different statuses give two different errors |
| DepthPost.ChecksOutcomeSpec | source/Demo/DemoDepthPost.cpp:290-297 | a run of checks succeeds exactly when every status read is complete; otherwise it fails with the error of the first incomplete status, all earlier ones being complete |
| DepthPost.DestroyEventsSpec | source/Demo/DemoDepthPost.cpp:300-321 | destroying the render targets makes only delete calls, and deletes exactly the non-zero handles of the resolve, post and MSAA targets |
| DepthPost.ReleaseDeletes | source/Demo/DemoDepthPost.cpp:604-617 | destroying a colour target makes only delete calls, and deletes exactly its non-zero texture and framebuffer |
| DepthPost.MsaaReleaseDeletes | source/Demo/DemoDepthPost.cpp:306-320 | releasing the MSAA target makes only delete calls, and deletes exactly its non-zero renderbuffers and framebuffer |
| DepthPost.DestroyTwice | source/Demo/DemoDepthPost.cpp:300-321 | once the targets are destroyed, destroying them again deletes nothing and leaves no handle held |
| DepthPost.SampleCount | source/Demo/DemoDepthPost.cpp:269-272 | the sample count lies in `[1, max(1, GL_MAX_SAMPLES)]`, keeps a request already in range, and becomes 1 for a request below 1 |
| DepthPost.GeometryReleaseSpec | source/Demo/DemoDepthPost.cpp:545-567 | releasing the geometry makes only delete calls, deletes exactly the non-zero handles among the quad's three and the fullscreen array, and deletes nothing once all four are zero |
| DepthPost.AfterShuffle | source/Demo/DemoDepthPost.cpp:342-343 | with the generator modelled as one pick per position, shuffling `n` indices consumes the picks for positions from the last down to the second (`n - 1` picks), and none for `n <= 1` |
| DepthPost.DrawFullscreenPass | source/Demo/DemoDepthPost.cpp:678-684 | a fullscreen pass sets the common uniforms, binds its input on unit 0 and draws one triangle; no object is created or deleted |
| DepthPost.SetCommonUniforms | source/Demo/DemoDepthPost.cpp:658-676 | each common uniform the shader has is set, in order: input unit 0, texel size `1/size`, resolution, time; the others are skipped and no object is created or deleted |
| DepthPost.SetEffectUniforms | source/Demo/DemoDepthPost.cpp:440-443 | each effect sets exactly its own uniforms when its shader has them: strength for chromatic aberration, intensity, radius and softness for the vignette, grain and scanline intensity for the grain |
| DepthPost.RunPass | source/Demo/DemoDepthPost.cpp:449-470 | one effect pass binds its target framebuffer, sets the full viewport, clears the colour only, uses the effect's program and uniforms and draws from its input |
| DepthPost.StageStep | source/Demo/DemoDepthPost.cpp:444-446 | one more enabled effect adds one pass reading the current output and writing target `ping`; the output becomes that target's texture and `ping` flips |
| DepthPost.Stage | source/Demo/DemoDepthPost.cpp:433-447 | an enabled effect issues its pass and moves the cursor and `ping` to where the chain definition puts them after one more effect |
| DepthPost.MaybeStage | source/Demo/DemoDepthPost.cpp:433-490 | an `if (enable...)` block issues the effect's pass when it is on and leaves cursor, `ping` and the call log unchanged when it is off |
| DepthPost.EffectPasses | source/Demo/DemoDepthPost.cpp:425-490 | the effect passes are exactly the passes of the enabled effects in the order chromatic, vignette, grain, and the returned cursor is the last pass's output (the resolved scene when none is on) |
| DepthPost.GammaPass | source/Demo/DemoDepthPost.cpp:492-502 | the gamma pass draws the cursor into the default framebuffer over the full viewport, with exponent `gammaValue` when gamma is on and 1 otherwise |
| DepthPost.BeginPostPass | source/Demo/DemoDepthPost.cpp:428-431 | post processing starts with depth test, depth writes and blending off and the fullscreen vertex array bound |
| DepthPost.EndPostPass | source/Demo/DemoDepthPost.cpp:504-505 | post processing ends with the vertex array unbound and depth writes back on |
| DepthPost.BlendWithoutDepthWrites | source/Demo/DemoDepthPost.cpp:402-403 | before the transparent items, blending goes on and depth writes off |
| DepthPost.EndScenePass | source/Demo/DemoDepthPost.cpp:408-411 | after the transparent items, depth writes go back on and the vertex array and framebuffer are unbound |
| DepthPost.DepthPostDemo.constructor | source/Demo/DemoDepthPost.hpp:100-141 | a new demo has empty item lists, front-to-back order, no GPU objects, default render targets (4 MSAA samples), a zero viewport, every effect on and the default strengths and gamma 2.2 |
| DepthPost.DepthPostDemo.CreateQuad | source/Demo/DemoDepthPost.cpp:508-536 | the quad gets three fresh, distinct, non-zero objects, exactly these become live, with position at offset 0 and texture coordinate at offset 8 of a 16-byte vertex |
| DepthPost.DepthPostDemo.CreateFullscreenTriangle | source/Demo/DemoDepthPost.cpp:538-543 | the fullscreen triangle gets one fresh vertex array, bound then unbound, and nothing else |
| DepthPost.DepthPostDemo.DestroyGeometry | source/Demo/DemoDepthPost.cpp:545-567 | the four geometry handles end zero, exactly the non-zero ones are deleted, in the order index buffer, vertex buffer, quad array, fullscreen array |
| DepthPost.DepthPostDemo.CreateWhiteTexture | source/Demo/DemoDepthPost.cpp:569-573 | the white texture is a fresh, non-zero 1x1 texture and the only new live object |
| DepthPost.DepthPostDemo.DestroyWhiteTexture | source/Demo/DemoDepthPost.cpp:575-582 | the white texture ends zero and is deleted only when it was non-zero |
| DepthPost.DepthPostDemo.VerifyFramebufferComplete | source/Demo/DemoDepthPost.cpp:619-631 | the check reads one status from the driver and returns or throws as that status dictates, changing nothing else |
| DepthPost.DepthPostDemo.CreateColorTarget | source/Demo/DemoDepthPost.cpp:584-602 | a colour target of the requested size gets a fresh framebuffer and a fresh texture attachment; on success the framebuffer is unbound, and on a throw it stays bound |
| DepthPost.DepthPostDemo.AllocateColorTarget | source/Demo/DemoDepthPost.cpp:586-596 | a new framebuffer, bound, with a new texture of the requested size as its only colour attachment: two fresh, distinct, nonzero names join the live set and the log gains exactly their creation, binding and attachment |
| DepthPost.DepthPostDemo.DestroyColorTarget | source/Demo/DemoDepthPost.cpp:604-617 | the target becomes empty and exactly its non-zero handles are deleted, texture first |
| DepthPost.DepthPostDemo.DestroyRenderTargets | source/Demo/DemoDepthPost.cpp:300-321 | the resolve and post targets become empty, the MSAA handles become zero with size and samples kept, and exactly the non-zero handles are deleted in source order |
| DepthPost.DepthPostDemo.ReleaseMsaa | source/Demo/DemoDepthPost.cpp:306-320 | the MSAA colour, depth and framebuffer handles become zero, each deleted only when non-zero |
| DepthPost.DepthPostDemo.CreateMsaaTarget | source/Demo/DemoDepthPost.cpp:269-293 | the MSAA target takes the clamped sample count and the new size and gets three fresh objects, checked for completeness and unbound on success |
| DepthPost.DepthPostDemo.CreateColorTargets | source/Demo/DemoDepthPost.cpp:295-297 | the resolve and both post targets are created in order, stopping at the first incomplete one; each target whose check passed has the new size and fresh handles, and each target from the failing one on keeps its old value; on success the log is the three creations and the live set gains exactly their names |
| DepthPost.DepthPostDemo.CreatePostTargets | source/Demo/DemoDepthPost.cpp:296-297 | the two post targets are created in order, the second only once the first's check passes; each created target has the new size and fresh handles, and a target not reached keeps its old value |
| DepthPost.DepthPostDemo.RebuildRenderTargets | source/Demo/DemoDepthPost.cpp:265-298 | the old targets are released first; the outcome is the first failing of the four checks; each target whose check passed has the new size, every later one is left empty; on success the live set is the old one minus the released handles plus fresh ones |
| DepthPost.DepthPostDemo.CreateRenderTargets | source/Demo/DemoDepthPost.cpp:269-297 | the MSAA target then the three colour targets, stopping at the first incomplete framebuffer; each target whose check passed has the new size and handles that were not live before, and each one from the failing one on keeps its old value |
| DepthPost.PassedOutcome | source/Demo/DemoDepthPost.cpp:619-630 | the sequence of framebuffer checks succeeds exactly when every one of them reports complete |
| DepthPost.DepthPostDemo.BuildScene | source/Demo/DemoDepthPost.cpp:177-263 | the lists are replaced by the opaque layout, the five transparent items and the two animated fog layers for that size; every item has the white texture and a depth in [0, 1] |
| DepthPost.DepthPostDemo.PushOpaque | source/Demo/DemoDepthPost.cpp:205-246 | the opaque list becomes the backdrop, the far row, the mid row, the foreground and the panels, in that order |
| DepthPost.DepthPostDemo.PushBackdrop | source/Demo/DemoDepthPost.cpp:205-207 | appends the two sky halves and the horizon glow, in that order |
| DepthPost.DepthPostDemo.PushForeground | source/Demo/DemoDepthPost.cpp:227-231 | appends the ground, the two crates and the neon sign, in that order |
| DepthPost.DepthPostDemo.PushFarRow | source/Demo/DemoDepthPost.cpp:209-216 | the nine far buildings are appended in index order |
| DepthPost.DepthPostDemo.PushMidRow | source/Demo/DemoDepthPost.cpp:218-225 | the six mid buildings are appended in index order |
| DepthPost.DepthPostDemo.PushPanels | source/Demo/DemoDepthPost.cpp:233-246 | the 140 panels are appended in index order |
| DepthPost.DepthPostDemo.PushTransparent | source/Demo/DemoDepthPost.cpp:248-262 | the transparent list becomes the two fog layers, the glass and the two beams, and each fog layer's animation names the list length just before its push |
| DepthPost.DepthPostDemo.UpdateDrawOrder | source/Demo/DemoDepthPost.cpp:323-352 | the opaque order follows the chosen mode, and the generator advances only in random mode; the transparent order is farthest first; both orders index their lists |
| DepthPost.DepthPostDemo.UpdateAnimatedLayers | source/Demo/DemoDepthPost.cpp:355-368 | each layer in turn moves its item's x to its rest x plus `sin(time * speed) * amplitude`; a layer naming no item is skipped and the list length is kept |
| DepthPost.DepthPostDemo.DrawSprite | source/Demo/DemoDepthPost.cpp:633-656 | one sprite sets its model matrix, depth and tint when the shader has them, binds its texture (white for none) on unit 0 and draws six indices |
| DepthPost.DepthPostDemo.DrawSprites | source/Demo/DemoDepthPost.cpp:397-400 | the items named by the order are drawn one after another in that order |
| DepthPost.DepthPostDemo.BeginScenePass | source/Demo/DemoDepthPost.cpp:372-396 | the scene pass binds the MSAA framebuffer, sets the viewport, turns depth test and writes on and blending off, clears colour and depth, and sets up the sprite program and quad |
| DepthPost.DepthPostDemo.SetUpSprites | source/Demo/DemoDepthPost.cpp:379-396 | the colour-and-depth clear, the sprite program with its view-projection and texture unit uniforms, then the quad bound |
| DepthPost.DepthPostDemo.RenderSceneToMsaa | source/Demo/DemoDepthPost.cpp:370-412 | the opaque items are drawn in their order with depth writes on and blending off, then the transparent items in theirs with blending on and depth writes off; the default framebuffer is bound at the end |
| DepthPost.DepthPostDemo.DrawTransparent | source/Demo/DemoDepthPost.cpp:402-411 | the transparent items are drawn in their order between blending on with depth writes off and the final unbinding |
| DepthPost.DepthPostDemo.ResolveMsaaToTexture | source/Demo/DemoDepthPost.cpp:414-421 | the resolve is one colour blit of the viewport from the MSAA framebuffer into the resolve framebuffer, both bindings reset |
| DepthPost.DepthPostDemo.RunPostProcessing | source/Demo/DemoDepthPost.cpp:423-506 | post processing is the prologue, one pass per enabled effect alternating between the two post targets starting from the resolved scene, and the gamma pass to the screen |
| DepthPost.DepthPostDemo.Draw | source/Demo/DemoDepthPost.cpp:108-118 | a window without area draws nothing; otherwise the frame is the scene pass, the resolve and the post chain, leaving the default framebuffer bound |
| DepthPost.DepthPostDemo.CreateGpuObjects | source/Demo/DemoDepthPost.cpp:55-59 | load sets the clear colour and creates the quad, the fullscreen array and the white texture, five fresh and distinct handles |
| DepthPost.DepthPostDemo.Load | source/Demo/DemoDepthPost.cpp:53-76 | load stores the shaders and window size, creates five distinct fresh non-zero names for the geometry and white texture, and rebuilds the targets; when every check passes the log and the live set are exact (the old targets' names replaced by the new ones) and the scene is laid out at the window size and ordered, and a failed check leaves the scene lists, the fog animations, the orders and the random generator untouched. When laid out, in the random order the generator has advanced by one shuffle of the opaque list; otherwise it is unchanged. |
| DepthPost.DepthPostDemo.LoadGpuState | source/Demo/DemoDepthPost.cpp:55-73 | the GPU half of load: five distinct fresh non-zero names for the geometry and white texture, the shaders, the viewport size and the render targets at that size; when every check passes, the exact log and the live set with the five names added and the old targets' names replaced by the new ones |
| DepthPost.DepthPostDemo.AdoptShaders | source/Demo/DemoDepthPost.cpp:61-72 | load keeps the five compiled shaders and the window's size |
| DepthPost.DepthPostDemo.LayOut | source/Demo/DemoDepthPost.cpp:74-75 | the scene half of load: the layout at the window size, then both draw orders. In the random order the generator has advanced by one shuffle of the opaque list; otherwise it is unchanged. |
| DepthPost.DepthPostDemo.LayOutUnlessThrown | source/Demo/DemoDepthPost.cpp:72-75 | the scene is laid out and ordered only when no framebuffer check threw; a throw leaves the scene lists, the fog animations, the orders and the random generator as they were. When laid out, in the random order the generator has advanced by one shuffle of the opaque list; otherwise it is unchanged. |
| DepthPost.DepthPostDemo.Update | source/Demo/DemoDepthPost.cpp:78-93 | the clock is set; an unchanged window size touches no GPU object and keeps the layout; a changed size rebuilds the targets exactly as `RebuildRenderTargets` does (old names deleted, the first failing check, new sizes and fresh names, and on success the exact log and live set) and, when every check passes, the layout; the fog is then animated and the orders rebuilt. A throw leaves the scene lists, the fog animations, the orders and the random generator as they were. Otherwise, in the random order the generator has advanced by one shuffle of the opaque list; otherwise it is unchanged. |
| DepthPost.DepthPostDemo.ResizeAndAnimate | source/Demo/DemoDepthPost.cpp:84-92 | a resized update rebuilds the targets at the new size exactly as `RebuildRenderTargets` does, including its log and live set, and, unless a check throws, lays out, animates and reorders the scene. A throw leaves the scene lists, the fog animations, the orders and the random generator as they were. Otherwise, in the random order the generator has advanced by one shuffle of the opaque list; otherwise it is unchanged. |
| DepthPost.DepthPostDemo.Resize | source/Demo/DemoDepthPost.cpp:84-87 | records the new size and rebuilds the targets at it: the old names are deleted first, the outcome is the first failing of the four checks, the MSAA target has the new size, each colour target whose own check passed has it too, the later ones are left empty, and on success the log and live set are exactly the rebuild's |
| DepthPost.DepthPostDemo.Relayout | source/Demo/DemoDepthPost.cpp:88-92 | the layout at the new size, the fog animated at the current time, then both orders. In the random order the generator has advanced by one shuffle of the opaque list; otherwise it is unchanged. |
| DepthPost.DepthPostDemo.AnimateAndOrder | source/Demo/DemoDepthPost.cpp:91-92 | the fog animated at the current time, then both orders rebuilt. In the random order the generator has advanced by one shuffle of the opaque list; otherwise it is unchanged. |
| DepthPost.DepthPostDemo.Unload | source/Demo/DemoDepthPost.cpp:95-106 | unload deletes exactly the held non-zero handles and zeroes them, so a second unload deletes nothing, then destroys the five shaders |
| DepthPost.DepthPostDemo.DestroyShaders | source/Demo/DemoDepthPost.cpp:101-105 | the sprite, chromatic, vignette, grain and gamma programs are each destroyed once, in that order, and no GPU object is deleted |
| DepthScene.Clamp | source/Demo/DemoDepthPost.cpp:188 | the clamped depth lies in `[lo, hi]`, keeps a value already inside, and takes the nearer bound for a value outside |
| DepthScene.Depths | source/Demo/DemoDepthPost.cpp:333 | the sort keys are the items' depths, position by position |
| DepthScene.OpaqueOrderPermutes | source/Demo/DemoDepthPost.cpp:325-345 | in every mode the opaque order holds each item index exactly once |
| DepthScene.FrontToBackSorted | source/Demo/DemoDepthPost.cpp:330-335 | front to back, depths never decrease along the opaque order |
| DepthScene.BackToFrontSorted | source/Demo/DemoDepthPost.cpp:336-341 | back to front, depths never increase along the opaque order |
| DepthScene.RandomReachesAll | source/Demo/DemoDepthPost.cpp:342-344 | every rearrangement of the item indices is the random order for some generator output |
| DepthScene.TransparentOrderSpec | source/Demo/DemoDepthPost.cpp:347-352 | the transparent order holds each item index exactly once, and depths never increase along it (farthest first) |
| DepthScene.AnimateMoves | source/Demo/DemoDepthPost.cpp:363-366 | the item a layer names moves to the layer's rest x plus `sin(time * speed) * amplitude`, and only its x changes |
| DepthScene.AnimateSpec | source/Demo/DemoDepthPost.cpp:357-367 | a layer naming no item changes nothing; otherwise exactly the item it names changes, and only in x, to the rest x plus the drift |
| DepthScene.AnimateAllSpec | source/Demo/DemoDepthPost.cpp:355-368 | animating all layers keeps the number of items, changes at most each item's x, and leaves every item no layer names untouched |
| DepthScene.SpriteTexture | source/Demo/DemoDepthPost.cpp:654 | a sprite uses its own texture, and the white texture when it has none |
| DepthScene.SpriteSetupReplay | source/Demo/DemoDepthPost.cpp:635-653 | the calls before a sprite's draw leave depth test, depth writes and blending as they were and draw nothing |
| DepthScene.SpriteReplay | source/Demo/DemoDepthPost.cpp:633-656 | a sprite draws exactly once, under the pipeline state it found, and leaves that state unchanged |
| DepthScene.SpritesReplay | source/Demo/DemoDepthPost.cpp:397-407 | drawing the items of an order draws once per index, every draw under the state the loop started with |
| DepthScene.DepthSetupReplay | source/Demo/DemoDepthPost.cpp:375-377 | the depth setup leaves depth test and writes on and blending off, whatever came before |
| DepthScene.SceneSetupReplay | source/Demo/DemoDepthPost.cpp:379-396 | the clear, the sprite program and its uniforms and the quad binding change no depth or blend state and draw nothing |
| DepthScene.PrologueReplay | source/Demo/DemoDepthPost.cpp:372-396 | the calls before the first sprite leave depth test and writes on and blending off and draw nothing |
| DepthScene.SwitchReplay | source/Demo/DemoDepthPost.cpp:402-403 | between the passes, blending goes on and depth writes off while the depth test stays on |
| DepthScene.EpilogueReplay | source/Demo/DemoDepthPost.cpp:408-411 | after the transparent items depth writes are on again and nothing is drawn |
| DepthScene.OpaquePassReplay | source/Demo/DemoDepthPost.cpp:372-400 | every opaque item is drawn with depth test and writes on and blending off |
| DepthScene.TransparentPassReplay | source/Demo/DemoDepthPost.cpp:402-411 | every transparent item is drawn with depth test and blending on and depth writes off, and depth writes end on |
| DepthScene.SceneDrawStates | source/Demo/DemoDepthPost.cpp:370-412 | whatever the state before, the scene pass draws every opaque item with depth writes on and blending off, then every transparent item with blending on and depth writes off, and leaves depth writes on |
| SceneLayout.MakeItem | source/Demo/DemoDepthPost.cpp:186-194 | a pushed item keeps its position, size, tint and rotation, gets the white texture, and has its depth clamped into [0, 1] (kept when already inside) |
| SceneLayout.OpaqueLayoutSpec | source/Demo/DemoDepthPost.cpp:205-246 | the opaque layout has 162 items, each with a depth in [0, 1] and the white texture |
| SceneLayout.TransparentLayoutSpec | source/Demo/DemoDepthPost.cpp:248-262 | the transparent layout has five well-formed items; the two animated layers name items 0 and 1 and rest where those items were placed |
| SceneLayout.PanelDepths | source/Demo/DemoDepthPost.cpp:238-241 | panel depths rise strictly with the index from 0.14 to 0.82, so the clamp never alters them |
| PostChain.StagesSpec | source/Demo/DemoDepthPost.cpp:433-490 | the chain has one pass per enabled effect, each effect is in it exactly when enabled, and the order is chromatic, vignette, grain |
| PostChain.PassesFrom | source/Demo/DemoDepthPost.cpp:425-490 | the chain has one pass per effect and every pass writes target 0 or 1 |
| PostChain.Passes | source/Demo/DemoDepthPost.cpp:425-426 | starting from the resolved scene and target 0, one pass per effect, each writing target 0 or 1 |
| PostChain.PassesFromAt | source/Demo/DemoDepthPost.cpp:444-446 | pass `k` runs effect `k`, writes target `(ping + k) % 2` and samples the input first, then the target the pass before wrote; the output is the last target written |
| PostChain.PassesChain | source/Demo/DemoDepthPost.cpp:425-502 | the first pass samples the resolved scene, each later pass samples what the one before wrote, targets alternate 0, 1, 0, and the gamma pass samples the last target written or the resolved scene when no effect is on |
| PostChain.NoPassReadsItsTarget | source/Demo/DemoDepthPost.cpp:433-490 | when the resolved scene and the two targets are distinct textures, no pass samples the texture it renders into |
| PostChain.PassesSnoc | source/Demo/DemoDepthPost.cpp:444-446 | one more effect adds one pass that samples the old output and writes the next target, which becomes the output |
| PostChain.GammaExponent | source/Demo/DemoDepthPost.cpp:499 | the gamma exponent is the configured value when gamma correction is on and 1 when it is off |
| DrawOrdering.Iota | source/Demo/DemoDepthPost.cpp:325-326 | `std::iota` from 0 yields `n` entries, entry `k` being `k` |
| DrawOrdering.IotaOnce | source/Demo/DemoDepthPost.cpp:325-326 | each index below `n` occurs exactly once in the filled order, and no other value occurs |
| DrawOrdering.PermutationIndices | source/Demo/DemoDepthPost.cpp:325-352 | a rearrangement of 0 through n-1 has length `n`, indexes the list, has no repeated entry and contains every index |
| DrawOrdering.InsertPermutes | source/Demo/DemoDepthPost.cpp:331-334 | one insertion step of the sort adds its index and loses nothing |
| DrawOrdering.SortPermutes | source/Demo/DemoDepthPost.cpp:331-341 | the sort rearranges its input: the same indices, each as often |
| DrawOrdering.InsertSorted | source/Demo/DemoDepthPost.cpp:331-334 | inserting into an order sorted by the comparison keeps it sorted |
| DrawOrdering.SortSorted | source/Demo/DemoDepthPost.cpp:331-341 | the sorted order never goes against the comparison (`<` on depth ascending, `>` descending) |
| DrawOrdering.SortedIndicesSpec | source/Demo/DemoDepthPost.cpp:325-341 | filling then sorting the indices of the keys yields a rearrangement of 0 through n-1 whose keys are non-decreasing (ascending) or non-increasing |
| DrawOrdering.SwapPermutes | source/Demo/DemoDepthPost.cpp:343 | one exchange of the shuffle keeps the same entries |
| DrawOrdering.ShufflePermutes | source/Demo/DemoDepthPost.cpp:343 | the shuffle rearranges its input whatever the generator yields |
| DrawOrdering.ShuffleReaches | source/Demo/DemoDepthPost.cpp:343 | every rearrangement of the shuffled entries is what some generator output produces |
| DrawOrdering.ShuffledIndicesSpec | source/Demo/DemoDepthPost.cpp:325-326 | the shuffled indices are a rearrangement of 0 through n-1, and every such rearrangement is the shuffle under some generator output |

## Left out

- The GL calls themselves (object creation, binding, uploads, draws, blits) are events in `GL.Device`'s log. Pixels, buffer contents and GPU-side results are not modelled.
- Shader compilation is not modelled. Compiled shaders arrive as parameters: a program handle plus its uniform-location map. `OpenGL::DestroyShader` is one `ShaderDestroyed` event and `OpenGL::BindUniformBufferToShader` one `BindUniformBlock` event; what they do inside `OpenGL/Shader.cpp`, which is not part of this model, is not expanded. Program names are not GPU object handles of the model: they are never in the live set, and `ShaderDestroyed` removes nothing from it. `Renderer2D.Shutdown` issues the call for a shader already reset to program 0 as well, as the source does.
- `glBufferData` calls and texture uploads are not logged, and the data they carry is not modelled.
- `Matrix.hpp`, `build_ndc_matrix`, `pack_color`/`unpack_color`, `Renderer2DUtils` (`CalculateSDFTransform`, `CalculateLineTransform`, `to_opengl_mat3`) are not part of this model. Their results are symbolic terms, so the SDF quad inflation and the colour round trip are not checked.
- `RenderingAPI.cpp`, `OpenGL/Texture.cpp`, `OpenGL/Buffer.cpp`, `Image.cpp`, `Logger` and `Rect.hpp` are not part of this model: thin wrappers over GL, file loading, logging and an unseen geometry header.
- Log output is not modelled: the framebuffer error line (source/Demo/DemoDepthPost.cpp:629), the stride message and the debug messages.
- `double` and `float` are `real`: rounding, overflow, NaN and infinity are not modelled. `sin`, `cos` and `sqrt` are uninterpreted function parameters.
- The window size, the elapsed time, the frame counter and the keyboard are parameters of the operations that read them.
- `Input.cpp` (`KeyDown`, `KeyJustPressed`) is not part of this model. The demos receive the pressed keys as parameters.
- `std::mt19937`'s internals are not modelled. The shuffle's generator is an arbitrary stream of picks that persists across frames; each pick is reduced to the range being shuffled.
- Both demos' ImGui panels are not modelled, except the view-count radio buttons of `DemoCameras` (source/Demo/DemoCameras.cpp:220-226). Left out are the `float*` alias of the `double` zoom (source/Demo/DemoCameras.cpp:231), the mode toggle button, and the depth demo's order buttons, sliders and softness clamp (source/Demo/DemoDepthPost.cpp:120-170).
- `DemoCameras`'s `PrimitiveRenderer` (`Init`, `Shutdown`, `Draw`), `Unload`, `drawWorld`, `drawPlayers`, `drawSeparators` and `setupWorldGeometry` are not modelled: GL plumbing and random or trigonometric geometry. `Draw` is modelled down to the per-viewport scene setup.
- The player motion in `updatePlayers` depends on `sin` and `cos`. Only its clamp into the world is proved.
- `DemoDepthPost`'s `GetName` and `DrawImGui` are not modelled.
- DepthPost.DepthPostDemo.CreateColorTarget: a target whose check throws is returned to no one. The model keeps its handles live and does not call the leak an error, because the throw ends `Load`.
- DepthPost.DepthPostDemo.Valid does not include the permutation property of the draw orders. Callers use `DepthScene.OpaqueOrderPermutes` and `DepthScene.TransparentOrderSpec` for it.
- DepthPost.DepthPostDemo.Load states the live set only when every framebuffer check passes. After a failed check it does not say which names of the partly rebuilt targets are live, because `RebuildRenderTargets` does not state them on that path either.
- Vec2.Vec2Var.Normalize takes the vector's length as a parameter (`length * length` equals the squared length) rather than computing `sqrt`. It states that the direction is kept, not that the result has unit length.
- Vec2.Vec2Var.DivAssign requires a non-zero divisor. Division of a `double` by zero (infinity) is not modelled.
- Vec2.Format states only the braces around the two numbers. The text in between is the function's own definition, which `Vec2.ExtractFormatFails` and `Vec2.ExtractBare` use.
- `ivec2` arithmetic (`IAdd`, `ISub`, `INeg`, `IScale` and the compound assignments) is on unbounded integers: a 32-bit overflow, which is undefined behaviour in C++, is not modelled. Only stream extraction saturates into `int` range, as the standard library does.
- Vec2.TruncReal: a `double` outside `int` range, whose conversion is undefined behaviour in C++, is not excluded; the model keeps the unbounded integer part. `Vec2.FromVec2` inherits this.
- TextureManagement.TextureManager.Unload empties the two containers of shared textures only. When the manager held the last reference, the C++ destroys the texture and calls `glDeleteTextures` (source/Engine/Texture.cpp:61-67); the model does not count references, so those deletions are not logged.
- DrawOrdering.Sort: `std::sort` is not stable, and the order it gives equal depths is unspecified. The model sorts with a stable insertion sort, which fixes one order for ties. The opaque layout has ties (nine far buildings at depth 0.82, six mid buildings at 0.58), and with `GL_LESS` the first one drawn wins, so the exact `opaqueOrder` that `DepthPost.DepthPostDemo.UpdateDrawOrder` states is one of the orders the C++ may produce. The properties the standard guarantees, a permutation sorted by depth, are proved separately.
- Cameras.WideWidth: the wide tile's width is `trunc(x * 0.66)` computed on exact reals, not on the `double` product; rounding of the product is not modelled.
- Cameras.CameraDemo.Load does not issue the clear-colour call `RenderingAPI::SetClearColor(0x0F1118FF)` (source/Demo/DemoCameras.cpp:117): `RenderingAPI.cpp` and `unpack_color` are not part of this model, so the unpacked colour could not be stated. `Draw`'s colour-only clear is modelled.
- The `vec2` stream operators (source/Engine/Vec2.cpp:48-58) and `Length` are not modelled. The `ivec2` ones are.
- Font: `num_chars` is declared in `Font.hpp`, which is not part of this model. The model takes 91, the characters `' '` to `'z'`, as implied by `char_rects[c - ' ']`. Each glyph draw is one region-draw event, not expanded into `Texture::Draw`'s calls.
- The field values of `Attribute::None` are in a header that is not part of this model. The model assumes all of them are zero.
- The SDF shape uniform: the C++ uploads `static_cast<GLint>(sdf_shape)` (source/CS200/ImmediateRenderer2D.cpp:304), the enumerator's integer value. The enum's declaration is in a header that is not part of this model, so the model uploads the enumerator by name (`EnumValue(ShapeName(shape))`). The two shapes upload different values, but the integers the shader compares them against are not stated.
- Font.Font.EvictStale: the evicted textures are deleted in the order of `std::map`'s keys. The model states which names are deleted, each at least once and nothing else, and the resulting live set, but not the order of the deletions in the log. `Font.Font.PrintToTexture` and `Font.Font.RenderAndCache` inherit this.
- Font.Font.EvictStale assumes every texture it erases is held only by the cache, as `use_count() == 1` checks, so erasing the entry runs `Texture`'s destructor. Which textures other owners hold is the `heldElsewhere` parameter; reference counts are not modelled.

## Findings

| source | as written | input that shows it | evidently intended | confidence | as-written member | corrected member |
|---|---|---|---|---|---|---|
| source/CS200/ImmediateRenderer2D.cpp:22-46 | the move constructor zeroes every moved handle of the source except `SDF_vertex_array` and `SDF_index` | any renderer whose SDF vertex array and SDF index buffer are non-zero: after the move, both renderers' destructors delete them | the moved-from renderer owns nothing | not executed | ImmediateRenderer.MoveConstructDoubleRelease | ImmediateRenderer.MoveConstruct |
| source/CS200/ImmediateRenderer2D.cpp:49-66 | move assignment shuts the target down, then swaps every handle except `SDF_vertex_array` and `SDF_index` | any two distinct renderers where the source's SDF vertex array is non-zero: the target ends with SDF vertex array 0 and the source keeps it | the target takes the source's whole state | not executed | ImmediateRenderer.MoveAssignLosesSdfVertexArray | ImmediateRenderer.MoveAssign |
