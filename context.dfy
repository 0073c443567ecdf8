/**
 * The WebGL context layer of the rendering backend
 * (internal/opengl/context_js.go): the state the Context caches beside the
 * driver (blend mode, last bound texture and framebuffer, viewport, program
 * counter, screen framebuffer, location cache) and the driver calls each of
 * its operations issues.
 *
 * The cached bind helpers (BindTexture, bindFramebuffer) and the location
 * cache lookups are defined outside this file; they are modelled as
 * arbitrary: each may or may not issue its driver call and may change the
 * cached fields it owns in any way.
 */
module GLContext {
  import opened WebGL

  datatype Option<T> = None | Some(value: T)

  /** The engine's composite modes, numbered by this model (the enumeration
      is defined outside this file): unknown is -1, source-over is 0. */
  type CompositeMode = int
  const CompositeModeUnknown: CompositeMode := -1
  const CompositeModeSourceOver: CompositeMode := 0

  /** The errors the operations return. */
  datatype Error =
    | TextureCreationFailed
    | FramebufferIncomplete(status: int)
    | ShaderCreationFailed(kind: int)
    | ShaderCompileFailed(log: string)
    | ProgramCreationFailed
    | ProgramLinkFailed
    | ReadPixelsFailed(code: int)

  /** Uniform and attribute locations, keyed by program id and name. */
  datatype LocationCache = LocationCache(uniforms: map<(nat, string), Handle>, attribs: map<(nat, string), int>)

  /** A fresh location cache. */
  const NewLocationCache: LocationCache := LocationCache(map[], map[])

  function Last<T>(s: seq<T>): T
    requires |s| > 0
  {
    s[|s| - 1]
  }

  /** The parameter and storage calls NewTexture issues after binding. */
  function TextureSetup(width: int, height: int): seq<Call>
  {
    [ TexParameteri(MagFilter, Nearest), TexParameteri(MinFilter, Nearest),
      TexParameteri(WrapS, ClampToEdge), TexParameteri(WrapT, ClampToEdge),
      TexImage2D(width, height) ]
  }

  /** Calls the cached framebuffer bind may issue for f. */
  ghost predicate BindingCalls(calls: seq<Call>, f: Handle)
  {
    forall i :: 0 <= i < |calls| ==> calls[i] == Call.BindFramebuffer(f) || calls[i].Viewport?
  }

  /** One attachShader call per shader, in order. */
  function AttachCalls(p: Handle, shaders: seq<Handle>): (calls: seq<Call>)
    ensures |calls| == |shaders|
    ensures forall i :: 0 <= i < |shaders| ==> calls[i] == AttachShader(p, shaders[i])
  {
    if shaders == [] then []
    else AttachCalls(p, shaders[..|shaders| - 1]) + [AttachShader(p, shaders[|shaders| - 1])]
  }

  /** c uploads the values v: uniform2f for two, uniform4f for four, an
      untransposed uniformMatrix4fv for sixteen. */
  predicate SetsUniform(c: Call, v: seq<real>)
  {
    match c
    case Uniform2f(_, x, y) => |v| == 2 && x == v[0] && y == v[1]
    case Uniform4f(_, x, y, z, w) => |v| == 4 && [x, y, z, w] == v
    case UniformMatrix4fv(_, transpose, m) => |v| == 16 && !transpose && m == v
    case _ => false
  }

  class Context {
    const gl: Driver
    /** The blend factors of each composite mode.  The table is defined
        outside this file and has no entry for CompositeModeUnknown. */
    const operations: CompositeMode -> (Operation, Operation)

    var locationCache: LocationCache
    var lastTexture: Handle
    var lastFramebuffer: Handle
    var lastViewportWidth: int
    var lastViewportHeight: int
    var lastCompositeMode: CompositeMode
    var lastProgramID: nat
    var screenFramebuffer: Handle

    /** The driver is consistent, and the ids stamped on programs are below
        the counter and increase with creation order (so they are distinct). */
    ghost predicate Valid()
      reads this, gl
    {
      && gl.Valid()
      && (forall id :: id in gl.programTag ==> gl.programTag[id] < lastProgramID)
      && (forall id1, id2 :: id1 in gl.programTag && id2 in gl.programTag && id1 < id2 ==>
            gl.programTag[id1] < gl.programTag[id2])
    }

    /** The zero Context over a driver that has no programs yet. */
    constructor (gl: Driver, operations: CompositeMode -> (Operation, Operation))
      requires gl.Valid() && gl.programTag == map[]
      ensures Valid() && this.gl == gl && this.operations == operations
      ensures locationCache == NewLocationCache
      ensures lastTexture == Null && lastFramebuffer == Null
      ensures lastViewportWidth == 0 && lastViewportHeight == 0
      ensures lastCompositeMode == CompositeModeSourceOver
      ensures lastProgramID == 0 && screenFramebuffer == Null
    {
      this.gl := gl;
      this.operations := operations;
      locationCache := NewLocationCache;
      lastTexture, lastFramebuffer := Null, Null;
      lastViewportWidth, lastViewportHeight := 0, 0;
      lastCompositeMode := CompositeModeSourceOver;
      lastProgramID := 0;
      screenFramebuffer := Null;
    }

    /**
     * Forgets every cached binding, enables blending, applies source-over
     * (always issued, as the cached mode is first set to unknown) and records
     * the framebuffer the driver has bound as the screen framebuffer.
     */
    method Reset() returns (err: Option<Error>)
      requires Valid()
      modifies this, gl`log
      ensures Valid()
      ensures err == None
      ensures locationCache == NewLocationCache
      ensures lastTexture == Null && lastFramebuffer == Null
      ensures lastViewportWidth == 0 && lastViewportHeight == 0
      ensures lastCompositeMode == CompositeModeSourceOver
      ensures screenFramebuffer == gl.boundFramebuffer
      ensures lastProgramID == old(lastProgramID)
      ensures gl.log == old(gl.log) + [ EnableBlend,
                                        Call.BlendFunc(operations(CompositeModeSourceOver).0, operations(CompositeModeSourceOver).1),
                                        GetFramebufferBinding(gl.boundFramebuffer) ]
    {
      locationCache := NewLocationCache;
      lastTexture := Null;
      lastFramebuffer := Null;
      lastViewportWidth := 0;
      lastViewportHeight := 0;
      lastCompositeMode := CompositeModeUnknown;
      gl.Issue(EnableBlend);
      BlendFunc(CompositeModeSourceOver);
      var f := gl.GetFramebufferBinding();
      screenFramebuffer := f;
      return None;
    }

    /** Applies the blend factors of mode unless mode is already the cached one. */
    method BlendFunc(mode: CompositeMode)
      requires Valid()
      requires mode == lastCompositeMode || mode != CompositeModeUnknown
      modifies this`lastCompositeMode, gl`log
      ensures Valid()
      ensures lastCompositeMode == mode
      ensures mode == old(lastCompositeMode) ==> gl.log == old(gl.log)
      ensures mode != old(lastCompositeMode) ==>
        gl.log == old(gl.log) + [Call.BlendFunc(operations(mode).0, operations(mode).1)]
    {
      if lastCompositeMode == mode {
        return;
      }
      lastCompositeMode := mode;
      var (s, d) := operations(mode);
      gl.Issue(Call.BlendFunc(s, d));
    }

    /** The cached texture bind (defined outside this file). */
    method BindTexture(t: Handle)
      modifies this`lastTexture, gl`log
      ensures gl.log == old(gl.log) || gl.log == old(gl.log) + [Call.BindTexture(t)]
    {
      var issue: bool :| true;
      if issue {
        gl.Issue(Call.BindTexture(t));
      }
      var lastTexture' : Handle :| true;
      lastTexture := lastTexture';
    }

    /** The cached framebuffer bind and viewport check (defined outside this file). */
    method BindFramebuffer(f: Handle)
      modifies this`lastFramebuffer, this`lastViewportWidth, this`lastViewportHeight
      modifies gl`boundFramebuffer, gl`log
      ensures gl.boundFramebuffer == f || gl.boundFramebuffer == old(gl.boundFramebuffer)
      ensures old(gl.log) <= gl.log && BindingCalls(gl.log[|old(gl.log)|..], f)
    {
      var issue: bool :| true;
      if issue {
        gl.BindFramebuffer(f);
      }
      var resize: bool :| true;
      if resize {
        var w: int :| true;
        var h: int :| true;
        gl.Issue(Viewport(w, h));
      }
      var lastFramebuffer' : Handle :| true;
      lastFramebuffer := lastFramebuffer';
      var lastViewportWidth' : int :| true;
      lastViewportWidth := lastViewportWidth';
      var lastViewportHeight' : int :| true;
      lastViewportHeight := lastViewportHeight';
    }

    /** The cached uniform location lookup (defined outside this file). */
    method GetUniformLocation(p: Handle, name: string) returns (l: Handle)
      modifies this`locationCache, gl`log
      ensures gl.log == old(gl.log) || gl.log == old(gl.log) + [Call.GetUniformLocation(p, name, l)]
    {
      var miss: bool :| true;
      if miss {
        l := gl.GetUniformLocation(p, name);
      } else {
        l :| true;
      }
      var locationCache' : LocationCache :| true;
      locationCache := locationCache';
    }

    /**
     * Creates a texture of the given size: null and an error when the driver
     * creates none, otherwise the new texture, bound (through the cache) and
     * set up with nearest filtering, clamp-to-edge wrapping and undefined
     * contents.
     */
    method NewTexture(width: int, height: int) returns (t: Handle, err: Option<Error>)
      requires Valid()
      modifies this`lastTexture, gl`textures, gl`nextId, gl`log
      ensures Valid()
      ensures t == Null <==> err.Some?
      ensures err.Some? ==>
        && err.value == TextureCreationFailed
        && gl.log == old(gl.log) + [Call.CreateTexture(Null)]
        && gl.textures == old(gl.textures) && lastTexture == old(lastTexture)
      ensures err.None? ==>
        && t == Obj(old(gl.nextId)) && gl.textures == old(gl.textures) + {t.id}
        && var created := old(gl.log) + [Call.CreateTexture(t), PixelStoreUnpackAlignment(4)];
           || gl.log == created + TextureSetup(width, height)
           || gl.log == created + [Call.BindTexture(t)] + TextureSetup(width, height)
    {
      t := gl.CreateTexture();
      if t == Null {
        return Null, Some(TextureCreationFailed);
      }
      gl.Issue(PixelStoreUnpackAlignment(4));
      ghost var prepared := gl.log;
      BindTexture(t);
      ghost var bound := gl.log;
      assert bound == prepared || bound == prepared + [Call.BindTexture(t)];
      gl.Issue(TexParameteri(MagFilter, Nearest));
      gl.Issue(TexParameteri(MinFilter, Nearest));
      gl.Issue(TexParameteri(WrapS, ClampToEdge));
      gl.Issue(TexParameteri(WrapT, ClampToEdge));
      gl.Issue(TexImage2D(width, height));
      assert gl.log == bound + TextureSetup(width, height);
      assert prepared == old(gl.log) + [Call.CreateTexture(t), PixelStoreUnpackAlignment(4)];
      return t, None;
    }

    /**
     * Binds f (through the cache), reads back width x height RGBA pixels and
     * checks the driver's error flag: the pixels on NO_ERROR, otherwise nil
     * and the error code.
     */
    method FramebufferPixels(f: Handle, width: int, height: int) returns (pixels: array?<bv8>, err: Option<Error>)
      requires Valid()
      requires 4 * width * height >= 0
      modifies this`lastFramebuffer, this`lastViewportWidth, this`lastViewportHeight
      modifies gl`boundFramebuffer, gl`log
      ensures Valid()
      ensures old(gl.log) <= gl.log && |gl.log| >= |old(gl.log)| + 2
      ensures BindingCalls(gl.log[|old(gl.log)|..|gl.log| - 2], f)
      ensures gl.log[|gl.log| - 2] == ReadPixels(width, height) && Last(gl.log).GetError?
      ensures err.None? <==> Last(gl.log).code == NoError
      ensures err.None? ==> pixels != null && fresh(pixels) && pixels.Length == 4 * width * height
      ensures err.Some? ==> pixels == null && err.value == ReadPixelsFailed(Last(gl.log).code)
    {
      BindFramebuffer(f);
      ghost var bound := gl.log;
      pixels := new bv8[4 * width * height];
      gl.ReadPixels(width, height, pixels);
      var e := gl.GetError();
      assert gl.log == bound + [ReadPixels(width, height), GetError(e)];
      assert gl.log[|old(gl.log)|..|gl.log| - 2] == bound[|old(gl.log)|..];
      if e != NoError {
        return null, Some(ReadPixelsFailed(e));
      }
      return pixels, None;
    }

    /**
     * Deletes t if the driver knows it as a texture, forgetting it as the
     * cached texture first; does nothing else for any other handle.
     */
    method DeleteTexture(t: Handle)
      requires Valid()
      modifies this`lastTexture, gl`textures, gl`log
      ensures Valid()
      ensures !old(gl.HasTexture(t)) ==>
        gl.log == old(gl.log) + [Call.IsTexture(t, false)]
        && gl.textures == old(gl.textures) && lastTexture == old(lastTexture)
      ensures old(gl.HasTexture(t)) ==>
        && gl.log == old(gl.log) + [Call.IsTexture(t, true), Call.DeleteTexture(t)]
        && gl.textures == old(gl.textures) - {t.id}
        && lastTexture == if old(lastTexture) == t then Null else old(lastTexture)
    {
      var live := gl.IsTexture(t);
      if !live {
        return;
      }
      if lastTexture == t {
        lastTexture := Null;
      }
      gl.DeleteTexture(t);
    }

    /**
     * Creates a framebuffer, binds it (through the cache) and attaches t as
     * its colour buffer: the framebuffer when the driver reports it complete,
     * otherwise null and the status.  The framebuffer created is not deleted
     * on failure.
     */
    method NewFramebuffer(t: Handle) returns (f: Handle, err: Option<Error>, ghost created: Handle)
      requires Valid()
      modifies this`lastFramebuffer, this`lastViewportWidth, this`lastViewportHeight
      modifies gl`framebuffers, gl`nextId, gl`boundFramebuffer, gl`log
      ensures Valid()
      ensures created == Null ==> gl.framebuffers == old(gl.framebuffers)
      ensures created != Null ==>
        created == Obj(old(gl.nextId)) && gl.framebuffers == old(gl.framebuffers) + {created.id}
      ensures |gl.log| >= |old(gl.log)| + 3
      ensures gl.log[..|old(gl.log)| + 1] == old(gl.log) + [Call.CreateFramebuffer(created)]
      ensures BindingCalls(gl.log[|old(gl.log)| + 1..|gl.log| - 2], created)
      ensures gl.log[|gl.log| - 2] == FramebufferTexture2D(t) && Last(gl.log).CheckFramebufferStatus?
      ensures err.None? <==> Last(gl.log).status == FramebufferComplete
      ensures err.None? ==> f == created
      ensures err.Some? ==> f == Null && err.value == FramebufferIncomplete(Last(gl.log).status)
    {
      var fb := gl.CreateFramebuffer();
      created := fb;
      ghost var start := gl.log;
      BindFramebuffer(fb);
      ghost var bound := gl.log;
      gl.Issue(FramebufferTexture2D(t));
      var s := gl.CheckFramebufferStatus();
      assert gl.log[..|old(gl.log)| + 1] == start;
      assert gl.log[|old(gl.log)| + 1..|gl.log| - 2] == bound[|start|..];
      if s != FramebufferComplete {
        return Null, Some(FramebufferIncomplete(s)), created;
      }
      return fb, None, created;
    }

    /**
     * Deletes f if the driver knows it as a framebuffer; when f is the cached
     * framebuffer, the cache forgets it and the cached viewport becomes 0 x 0.
     */
    method DeleteFramebuffer(f: Handle)
      requires Valid()
      modifies this`lastFramebuffer, this`lastViewportWidth, this`lastViewportHeight
      modifies gl`framebuffers, gl`boundFramebuffer, gl`log
      ensures Valid()
      ensures !old(gl.HasFramebuffer(f)) ==>
        && gl.log == old(gl.log) + [Call.IsFramebuffer(f, false)]
        && gl.framebuffers == old(gl.framebuffers) && gl.boundFramebuffer == old(gl.boundFramebuffer)
        && lastFramebuffer == old(lastFramebuffer)
        && lastViewportWidth == old(lastViewportWidth) && lastViewportHeight == old(lastViewportHeight)
      ensures old(gl.HasFramebuffer(f)) ==>
        && gl.log == old(gl.log) + [Call.IsFramebuffer(f, true), Call.DeleteFramebuffer(f)]
        && gl.framebuffers == old(gl.framebuffers) - {f.id}
        && gl.boundFramebuffer == (if old(gl.boundFramebuffer) == f then Null else old(gl.boundFramebuffer))
        && (old(lastFramebuffer) == f ==>
              lastFramebuffer == Null && lastViewportWidth == 0 && lastViewportHeight == 0)
        && (old(lastFramebuffer) != f ==>
              && lastFramebuffer == old(lastFramebuffer)
              && lastViewportWidth == old(lastViewportWidth) && lastViewportHeight == old(lastViewportHeight))
    {
      var live := gl.IsFramebuffer(f);
      if !live {
        return;
      }
      if lastFramebuffer == f {
        lastFramebuffer := Null;
        lastViewportWidth := 0;
        lastViewportHeight := 0;
      }
      gl.DeleteFramebuffer(f);
    }

    /**
     * Creates and compiles a shader: null and an error when the driver
     * creates none, null and the driver's info log when compilation fails.
     */
    method NewShader(kind: int, source: string) returns (s: Handle, err: Option<Error>, ghost created: Handle)
      requires Valid()
      modifies gl`shaders, gl`nextId, gl`log
      ensures Valid()
      ensures s == Null <==> err.Some?
      ensures created == Null ==>
        && gl.log == old(gl.log) + [CreateShader(kind, Null)]
        && gl.shaders == old(gl.shaders) && err == Some(ShaderCreationFailed(kind))
      ensures created != Null ==>
        && created == Obj(old(gl.nextId)) && gl.shaders == old(gl.shaders) + {created.id}
        && var compiling := old(gl.log) + [CreateShader(kind, created), ShaderSource(created, source), CompileShader(created)];
           || (gl.log == compiling + [GetCompileStatus(created, true)] && s == created)
           || (&& |gl.log| == |compiling| + 2
               && gl.log[..|compiling| + 1] == compiling + [GetCompileStatus(created, false)]
               && Last(gl.log).GetShaderInfoLog? && Last(gl.log).shader == created
               && err == Some(ShaderCompileFailed(Last(gl.log).log)))
    {
      var sh := gl.CreateShader(kind);
      created := sh;
      if sh == Null {
        return Null, Some(ShaderCreationFailed(kind)), created;
      }
      gl.Issue(ShaderSource(sh, source));
      gl.Issue(CompileShader(sh));
      var compiled := gl.GetCompileStatus(sh);
      if !compiled {
        ghost var checked := gl.log;
        var text := gl.GetShaderInfoLog(sh);
        assert gl.log[..|checked|] == checked;
        return Null, Some(ShaderCompileFailed(text)), created;
      }
      return sh, None, created;
    }

    /** Deletes s without first asking the driver whether it is a shader. */
    method DeleteShader(s: Handle)
      requires Valid()
      modifies gl`shaders, gl`log
      ensures Valid()
      ensures gl.shaders == if s.Obj? then old(gl.shaders) - {s.id} else old(gl.shaders)
      ensures gl.log == old(gl.log) + [Call.DeleteShader(s)]
    {
      gl.DeleteShader(s);
    }

    /**
     * Creates a program, stamps it with the current program id and advances
     * the counter (whatever linking then does), attaches every shader in
     * order and links: the program when linking succeeds, otherwise null and
     * an error.
     */
    method NewProgram(shaders: seq<Handle>) returns (p: Handle, err: Option<Error>, ghost created: Handle)
      requires Valid()
      modifies this`lastProgramID, gl`programs, gl`nextId, gl`programTag, gl`log
      ensures Valid()
      ensures p == Null <==> err.Some?
      ensures created == Null ==>
        && gl.log == old(gl.log) + [CreateProgram(Null)] && err == Some(ProgramCreationFailed)
        && lastProgramID == old(lastProgramID) && gl.programTag == old(gl.programTag)
        && gl.programs == old(gl.programs)
      ensures created != Null ==>
        && created == Obj(old(gl.nextId)) && gl.programs == old(gl.programs) + {created.id}
        && gl.programTag == old(gl.programTag)[created.id := old(lastProgramID)]
        && lastProgramID == old(lastProgramID) + 1
        && |gl.log| == |old(gl.log)| + |shaders| + 3
        && gl.log[..|gl.log| - 1] == old(gl.log) + [CreateProgram(created)] + AttachCalls(created, shaders) + [LinkProgram(created)]
        && Last(gl.log).GetLinkStatus? && Last(gl.log).program == created
        && (err.None? <==> Last(gl.log).linked)
        && (err.None? ==> p == created)
        && (err.Some? ==> err.value == ProgramLinkFailed)
    {
      var pr := gl.CreateProgram();
      created := pr;
      if pr == Null {
        return Null, Some(ProgramCreationFailed), created;
      }
      gl.programTag := gl.programTag[pr.id := lastProgramID];
      lastProgramID := lastProgramID + 1;

      AttachShaders(pr, shaders);
      gl.Issue(LinkProgram(pr));
      ghost var linking := gl.log;
      var linked := gl.GetLinkStatus(pr);
      assert gl.log[..|gl.log| - 1] == linking;
      if !linked {
        return Null, Some(ProgramLinkFailed), created;
      }
      return pr, None, created;
    }

    /** Attaches every shader to p, in order. */
    method AttachShaders(p: Handle, shaders: seq<Handle>)
      modifies gl`log
      ensures gl.log == old(gl.log) + AttachCalls(p, shaders)
    {
      for i := 0 to |shaders|
        invariant gl.log == old(gl.log) + AttachCalls(p, shaders[..i])
      {
        assert shaders[..i + 1][..i] == shaders[..i];
        gl.Issue(AttachShader(p, shaders[i]));
      }
      assert shaders[..|shaders|] == shaders;
    }

    /** Deletes p if the driver knows it as a program. */
    method DeleteProgram(p: Handle)
      requires Valid()
      modifies gl`programs, gl`log
      ensures Valid()
      ensures !old(gl.HasProgram(p)) ==>
        gl.log == old(gl.log) + [Call.IsProgram(p, false)] && gl.programs == old(gl.programs)
      ensures old(gl.HasProgram(p)) ==>
        gl.log == old(gl.log) + [Call.IsProgram(p, true), Call.DeleteProgram(p)]
        && gl.programs == old(gl.programs) - {p.id}
    {
      var live := gl.IsProgram(p);
      if !live {
        return;
      }
      gl.DeleteProgram(p);
    }

    /**
     * Uploads v to the uniform name of p, looked up through the location
     * cache: two, four or sixteen values; any other length is a panic.
     */
    method UniformFloats(p: Handle, name: string, v: seq<real>)
      requires Valid()
      requires |v| == 2 || |v| == 4 || |v| == 16
      modifies this`locationCache, gl`log
      ensures Valid()
      ensures |gl.log| >= |old(gl.log)| + 1
      ensures SetsUniform(Last(gl.log), v)
      ensures var before := gl.log[..|gl.log| - 1];
        before == old(gl.log) || before == old(gl.log) + [Call.GetUniformLocation(p, name, Last(gl.log).location)]
    {
      ghost var start := gl.log;
      var l := GetUniformLocation(p, name);
      ghost var looked := gl.log;
      if |v| == 2 {
        gl.Issue(Uniform2f(l, v[0], v[1]));
      } else if |v| == 4 {
        gl.Issue(Uniform4f(l, v[0], v[1], v[2], v[3]));
      } else {
        var m := new real[16];
        for i := 0 to |v|
          invariant m[..i] == v[..i]
          invariant gl.log == looked
        {
          m[i] := v[i];
        }
        assert m[..] == v;
        gl.Issue(UniformMatrix4fv(l, false, m[..]));
      }
      assert gl.log[..|gl.log| - 1] == looked;
    }

    /** Deletes b without first asking the driver whether it is a buffer. */
    method DeleteBuffer(b: Handle)
      modifies gl`log
      ensures gl.log == old(gl.log) + [Call.DeleteBuffer(b)]
    {
      gl.Issue(Call.DeleteBuffer(b));
    }
  }
}
