# Quad vertices and the WebGL context cache

This project models two pieces of the rendering backend and proves properties of them.

- **The quad vertex generator** (`internal/graphicsutil/vertices.go`, module `Vertices` in `vertices.dfy`).
  - `verticesBackend` is a bump allocator. It hands out consecutive 24-float windows of a lazily created backing buffer with room for 256 quads. Once no further window fits, it drops the buffer.
  - `QuadVertices` rejects degenerate source rectangles. It pads the texture size to powers of two by doubling from 1, normalises the source rectangle into texture coordinates, and writes the 24 values of one quad.
  - Each of the four vertices carries its transformed position, its own (u, v) and the (u, v) of the diagonally opposite vertex.
- **The WebGL `Context`** (`internal/opengl/context_js.go`, module `GLContext` in `context.dfy`).
  - Module `GLContext` models the state the context caches beside its driver: the composite mode, the last bound texture and framebuffer, the viewport, the program counter, the screen framebuffer and the location cache.
  - For each operation, the model states which driver calls it issues and how the cached fields change.
  - The driver is the abstract class `WebGL.Driver` in `webgl.dfy`. It holds the sets of live textures, framebuffers, shaders and programs, the bound framebuffer, and the `__ebiten_programId` property set on each program. It also keeps a log of every call issued, together with the driver's answer. Answers such as creation success, completeness status, error codes and link status are arbitrary.

Go's `float32` values are modelled as `real`. The `GeoM` interface is modelled as an arbitrary total function on points. The global `theVerticesBackend` is modelled as an explicit `VerticesBackend` object that is passed in.

## Model

| member | source | states |
|---|---|---|
| Vertices.VerticesBackend.SliceForOneQuad | internal/graphicsutil/vertices.go:31-44 | the window returned is `[head, head+24)` of the backing buffer, which is a fresh buffer of 24*256 floats when there was none and the old buffer otherwise; the allocator stays valid (no buffer and head 0, or a positive multiple of 24 with room for one more window) and its quad count steps modulo 256 |
| Vertices.RunShape | internal/graphicsutil/vertices.go:31-44 | after n calls from a fresh allocator, call i returned offset `(i mod 256) * 24`, it allocated a new buffer exactly when `i mod 256 == 0`, and the allocator holds `n mod 256` quads |
| Vertices.AllocateQuads | internal/graphicsutil/vertices.go:31-44 | n calls of the allocator on a new allocator return exactly the offsets and store creations of the trace `Run(n)` that `RunShape` describes |
| Vertices.WindowsDisjoint | internal/graphicsutil/vertices.go:34-42 | two different calls served from the same backing buffer return non-overlapping windows |
| Vertices.Pow2Ceil | internal/graphicsutil/vertices.go:63-70 | the padded size is a power of two, at least 1 and at least n, and it is 1 or its half is below n |
| Vertices.Pow2CeilIsLeast | internal/graphicsutil/vertices.go:63-70 | every power of two that is at least n is at least the padded size |
| Vertices.Pow2CeilUnique | internal/graphicsutil/vertices.go:63-70 | a power of two w >= n with `w == 1 or w/2 < n` is the padded size |
| Vertices.PowerOfTwoGap | internal/graphicsutil/vertices.go:63-70 | of two powers of two, the smaller is at most half the larger |
| Vertices.PaddedSize | internal/graphicsutil/vertices.go:63-70 | the doubling loop from 1 ends at `Pow2Ceil(n)` |
| Vertices.OppositeIsDiagonal | internal/graphicsutil/vertices.go:85-116 | the opposite (u, v) pair of vertex k equals the own (u, v) pair of vertex 3-k |
| Vertices.CornersInOrder | internal/graphicsutil/vertices.go:80-114 | positions are geom of (x0,y0), (x1,y0), (x0,y1), (x1,y1) and own texture coordinates are (u0,v0), (u1,v0), (u0,v1), (u1,v1), in that order |
| Vertices.PutVertex | internal/graphicsutil/vertices.go:80-91 | writes one vertex's six values at offset o and nothing else |
| Vertices.FillQuad | internal/graphicsutil/vertices.go:80-116 | the 24 values at offset o become the quad layout of the given texture and position rectangles; the rest of the buffer is unchanged |
| Vertices.QuadVerticesImpl | internal/graphicsutil/vertices.go:77-119 | takes one window from the allocator and fills it with the quad layout |
| Vertices.QuadVertices | internal/graphicsutil/vertices.go:50-75 | a rejected rectangle (`sx0 >= sx1`, `sy0 >= sy1`, `sx1 <= 0` or `sy1 <= 0`) yields nil and leaves the allocator and the contents of its backing store alone; otherwise the window holds the layout with u = sx/Pow2Ceil(width), v = sy/Pow2Ceil(height) and local rectangle (0,0)-(sx1-sx0, sy1-sy0), the rest of the backing store is unchanged (so earlier windows survive), the allocator keeps the window's store or none, and it has stepped once |
| Vertices.ExampleQuad | internal/graphicsutil/vertices.go:50-119 | a 256x128 texture, source (0,0)-(100,50) and the identity transform give positions (0,0), (100,0), (0,50), (100,50) and texture coordinates up to (100/256, 50/128) |
| WebGL.Driver.CreateTexture | internal/opengl/context_js.go:138 | createTexture yields null or a new texture, and is logged with its answer |
| WebGL.Driver.DeleteFramebuffer | internal/opengl/context_js.go:228-236 | deleting the bound framebuffer leaves the default framebuffer bound |
| GLContext.AttachCalls | internal/opengl/context_js.go:270-272 | one attachShader call per shader, in the shaders' order |
| GLContext.Context.constructor | internal/opengl/context_js.go:95 | the zero `&Context{}` over a driver with no programs: every cached field null or zero, and the context valid |
| GLContext.Context.Reset | internal/opengl/context_js.go:111-124 | the location cache is fresh, texture and framebuffer caches are null, the viewport is 0x0, the mode is source-over, the driver got exactly enable(BLEND), blendFunc of source-over (always, as the mode was first set to unknown) and the framebuffer-binding query, and the screen framebuffer is the one the driver reported bound; the result is no error |
| GLContext.Context.BlendFunc | internal/opengl/context_js.go:126-134 | when mode equals the cached mode nothing changes and no call is issued; otherwise the cached mode becomes mode and exactly one blendFunc with the mode's factors is issued |
| GLContext.Context.BindTexture | internal/opengl/context_js.go:176-179 | the cached bind issues bindTexture(t) or nothing |
| GLContext.Context.BindFramebuffer | internal/opengl/context_js.go:158-161 | the cached bind issues only bindFramebuffer(f) and viewport calls, and leaves f or the old framebuffer bound |
| GLContext.Context.GetUniformLocation | internal/opengl/context_js.go:293-296 | the cached lookup issues getUniformLocation(p, name) or nothing |
| GLContext.Context.NewTexture | internal/opengl/context_js.go:136-156 | null and an error exactly when createTexture answered null (then nothing else is issued); otherwise the new texture, with the calls pixelStorei, the cached bind, four texParameteri (nearest, nearest, clamp, clamp) and texImage2D(width, height) in order |
| GLContext.Context.FramebufferPixels | internal/opengl/context_js.go:163-174 | after the cached bind, readPixels(width, height) then getError; a fresh buffer of 4*width*height bytes exactly when the error is NO_ERROR, otherwise nil and the code |
| GLContext.Context.DeleteTexture | internal/opengl/context_js.go:181-190 | a handle the driver does not know as a texture changes nothing and issues only isTexture; a live one is deleted and the cached texture becomes null only if it was that texture |
| GLContext.Context.NewFramebuffer | internal/opengl/context_js.go:205-216 | createFramebuffer, the cached bind of it, framebufferTexture2D(t), checkFramebufferStatus; the framebuffer exactly when the status is FRAMEBUFFER_COMPLETE, otherwise null and the status (the framebuffer created stays live) |
| GLContext.Context.DeleteFramebuffer | internal/opengl/context_js.go:223-237 | a non-framebuffer changes nothing; a live one is deleted; when it is the cached framebuffer the cache becomes null and the viewport 0x0, otherwise the cache is untouched |
| GLContext.Context.NewShader | internal/opengl/context_js.go:239-254 | null and an error when createShader answers null; otherwise shaderSource, compileShader, the status query, and on failure the info log, which becomes the error |
| GLContext.Context.DeleteShader | internal/opengl/context_js.go:256-259 | deleteShader is issued with no liveness check |
| GLContext.Context.NewProgram | internal/opengl/context_js.go:261-278 | when createProgram answers null, an error and nothing else changes; otherwise the program is stamped with the current program id and the counter rises by exactly one whether or not linking succeeds, the shaders are attached in order, the program is linked, and the result is the program exactly when linking succeeded; the stamps stay below the counter and increase with creation order, so they are distinct |
| GLContext.Context.AttachShaders | internal/opengl/context_js.go:270-272 | issues one attachShader per shader, in order |
| GLContext.Context.DeleteProgram | internal/opengl/context_js.go:285-291 | a non-program issues only isProgram; a live one is deleted |
| GLContext.Context.UniformFloats | internal/opengl/context_js.go:310-327 | lengths 2, 4 and 16 only; after the cached lookup, the last call is uniform2f, uniform4f or an untransposed uniformMatrix4fv carrying exactly the given values |
| GLContext.Context.DeleteBuffer | internal/opengl/context_js.go:383-386 | deleteBuffer is issued with no liveness check |

## Left out

- `float32` rounding in the texture-coordinate divisions, the `GeoM` transform and the `Float32Array` copy: values are reals.
- Integer overflow: the doubling loop in `QuadVertices` and `4*width*height` in `FramebufferPixels` are unbounded.
- The per-quad size comes from `graphics.VertexSizeInBytes()` and `opengl.Float.SizeInBytes()`, which are not part of this model. It is fixed at 24, the number of values written per quad.
- The global `theVerticesBackend` singleton is replaced by an explicit allocator object.
- GLContext.Context.BindTexture: the caching wrapper around this call lives in a file that is not part of this model. The model may issue bindTexture or not and changes `lastTexture` arbitrarily, so no claim is made about its caching.
- GLContext.Context.BindFramebuffer: the same holds for the framebuffer bind and the viewport check. They may issue bindFramebuffer and viewport calls and change the cached framebuffer and viewport arbitrarily.
- GLContext.Context.GetUniformLocation: the location cache is not part of this model. Its lookup may or may not call getUniformLocation and changes the cache arbitrarily.
- GLContext.Context.FramebufferPixels: a negative `4*width*height` makes the source panic when it allocates the pixel buffer, after the framebuffer bind; here it is a precondition, so that path is not modelled.
- GLContext.Context.UniformFloats: the panic on any other length is a precondition, so it is not modelled as a path.
- The composite-mode enumeration and its `operations` table are not part of this model. The mode is an integer (unknown is -1, source-over is 0), the table is a parameter of the context, and `BlendFunc` requires a known mode unless the mode equals the cached one.
- `Init` and the package `init`: DOM and canvas lookup, JS callbacks, and reading enum constants from the WebGL prototype are foreign I/O.
- Pass-through calls with no cached state: `IsTexture`, `TexSubImage2D`, `UseProgram`, buffer creation, binding and sub-data, `DrawElements`, `Flush`, `IsContextLost`, `RestoreContext`, `maxTextureSizeImpl`, `UniformInt`, `UniformFloat`, and the vertex attribute calls.
- `internal/input/input_mobile.go` holds only constant stubs and a mutex-guarded assignment (concurrency).
- Pixel contents written by readPixels are arbitrary bytes.
