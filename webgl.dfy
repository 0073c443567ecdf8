/**
 * An abstract WebGL driver, as the context layer of the rendering backend
 * (internal/opengl/context_js.go) sees it: the objects it holds, the
 * framebuffer it has bound, and the calls it has received.  Whatever the real
 * driver decides (whether a creation succeeds, a status, an error code) is an
 * arbitrary choice here, recorded in the call log next to the call.
 */
module WebGL {

  /** A JavaScript value standing for a driver object: null, or an object. */
  datatype Handle = Null | Obj(id: nat)

  /** The blend factors the context reads off the WebGL prototype. */
  datatype Operation = Zero | One | SrcAlpha | DstAlpha | OneMinusSrcAlpha | OneMinusDstAlpha

  /** The texture parameters NewTexture sets, and their values. */
  datatype TexParameter = MagFilter | MinFilter | WrapS | WrapT
  datatype TexValue = Nearest | ClampToEdge

  /** gl.NO_ERROR and gl.FRAMEBUFFER_COMPLETE, as WebGL 1.0 defines them. */
  const NoError: int := 0
  const FramebufferComplete: int := 0x8CD5

  /** One call issued to the driver, with the answer it gave where it gives one. */
  datatype Call =
    | EnableBlend
    | BlendFunc(src: Operation, dst: Operation)
    | GetFramebufferBinding(bound: Handle)
    | CreateTexture(texture: Handle)
    | PixelStoreUnpackAlignment(alignment: int)
    | BindTexture(texture: Handle)
    | TexParameteri(param: TexParameter, value: TexValue)
    | TexImage2D(width: int, height: int)
    | IsTexture(texture: Handle, isTexture: bool)
    | DeleteTexture(texture: Handle)
    | CreateFramebuffer(framebuffer: Handle)
    | BindFramebuffer(framebuffer: Handle)
    | Viewport(width: int, height: int)
    | FramebufferTexture2D(texture: Handle)
    | CheckFramebufferStatus(status: int)
    | IsFramebuffer(framebuffer: Handle, isFramebuffer: bool)
    | DeleteFramebuffer(framebuffer: Handle)
    | ReadPixels(width: int, height: int)
    | GetError(code: int)
    | CreateShader(kind: int, shader: Handle)
    | ShaderSource(shader: Handle, source: string)
    | CompileShader(shader: Handle)
    | GetCompileStatus(shader: Handle, compiled: bool)
    | GetShaderInfoLog(shader: Handle, log: string)
    | DeleteShader(shader: Handle)
    | CreateProgram(program: Handle)
    | AttachShader(program: Handle, shader: Handle)
    | LinkProgram(program: Handle)
    | GetLinkStatus(program: Handle, linked: bool)
    | IsProgram(program: Handle, isProgram: bool)
    | DeleteProgram(program: Handle)
    | GetUniformLocation(program: Handle, name: string, location: Handle)
    | Uniform2f(location: Handle, x: real, y: real)
    | Uniform4f(location: Handle, x: real, y: real, z: real, w: real)
    | UniformMatrix4fv(location: Handle, transpose: bool, matrix: seq<real>)
    | DeleteBuffer(buffer: Handle)
  {
    /** Calls that neither answer anything nor change the driver's objects
        or bindings, as far as this model tracks them. */
    predicate IsCommand()
    {
      || EnableBlend? || BlendFunc? || PixelStoreUnpackAlignment? || BindTexture?
      || TexParameteri? || TexImage2D? || Viewport? || FramebufferTexture2D?
      || ShaderSource? || CompileShader? || AttachShader? || LinkProgram?
      || Uniform2f? || Uniform4f? || UniformMatrix4fv? || DeleteBuffer?
    }
  }

  class Driver {
    /** Live objects by kind, named by their ids. */
    var textures: set<nat>
    var framebuffers: set<nat>
    var shaders: set<nat>
    var programs: set<nat>
    /** The framebuffer bound to FRAMEBUFFER; Null is the default one. */
    var boundFramebuffer: Handle
    /** The id the next created object gets. */
    var nextId: nat
    /** The `__ebiten_programId` property the context stores on program objects. */
    var programTag: map<nat, nat>
    /** Every call received, oldest first. */
    var log: seq<Call>

    /** Every object and every tag belongs to an object created before. */
    ghost predicate Valid()
      reads this
    {
      && (forall id :: id in textures ==> id < nextId)
      && (forall id :: id in framebuffers ==> id < nextId)
      && (forall id :: id in shaders ==> id < nextId)
      && (forall id :: id in programs ==> id < nextId)
      && (forall id :: id in programTag ==> id < nextId)
    }

    predicate HasTexture(h: Handle)
      reads this
    {
      h.Obj? && h.id in textures
    }

    predicate HasFramebuffer(h: Handle)
      reads this
    {
      h.Obj? && h.id in framebuffers
    }

    predicate HasProgram(h: Handle)
      reads this
    {
      h.Obj? && h.id in programs
    }

    /** A driver with no objects and no calls yet. */
    constructor ()
      ensures Valid()
      ensures textures == {} && framebuffers == {} && shaders == {} && programs == {}
      ensures boundFramebuffer == Null && programTag == map[] && log == []
    {
      textures, framebuffers, shaders, programs := {}, {}, {}, {};
      boundFramebuffer := Null;
      nextId := 0;
      programTag := map[];
      log := [];
    }

    /** Issues a call that changes nothing else in the model. */
    method Issue(c: Call)
      requires c.IsCommand()
      modifies this`log
      ensures log == old(log) + [c]
    {
      log := log + [c];
    }

    /** createTexture: null on failure, otherwise a new texture. */
    method CreateTexture() returns (t: Handle)
      requires Valid()
      modifies this`textures, this`nextId, this`log
      ensures Valid()
      ensures t == Null ==> textures == old(textures) && nextId == old(nextId)
      ensures t != Null ==> t == Obj(old(nextId)) && textures == old(textures) + {t.id} && nextId == old(nextId) + 1
      ensures log == old(log) + [Call.CreateTexture(t)]
    {
      var ok: bool :| true;
      if ok {
        t := Obj(nextId);
        textures := textures + {nextId};
        nextId := nextId + 1;
      } else {
        t := Null;
      }
      log := log + [Call.CreateTexture(t)];
    }

    method IsTexture(t: Handle) returns (b: bool)
      modifies this`log
      ensures b == HasTexture(t)
      ensures log == old(log) + [Call.IsTexture(t, b)]
    {
      b := HasTexture(t);
      log := log + [Call.IsTexture(t, b)];
    }

    method DeleteTexture(t: Handle)
      modifies this`textures, this`log
      ensures textures == if t.Obj? then old(textures) - {t.id} else old(textures)
      ensures log == old(log) + [Call.DeleteTexture(t)]
    {
      if t.Obj? {
        textures := textures - {t.id};
      }
      log := log + [Call.DeleteTexture(t)];
    }

    /** createFramebuffer: null on failure, otherwise a new framebuffer. */
    method CreateFramebuffer() returns (f: Handle)
      requires Valid()
      modifies this`framebuffers, this`nextId, this`log
      ensures Valid()
      ensures f == Null ==> framebuffers == old(framebuffers) && nextId == old(nextId)
      ensures f != Null ==> f == Obj(old(nextId)) && framebuffers == old(framebuffers) + {f.id} && nextId == old(nextId) + 1
      ensures log == old(log) + [Call.CreateFramebuffer(f)]
    {
      var ok: bool :| true;
      if ok {
        f := Obj(nextId);
        framebuffers := framebuffers + {nextId};
        nextId := nextId + 1;
      } else {
        f := Null;
      }
      log := log + [Call.CreateFramebuffer(f)];
    }

    method BindFramebuffer(f: Handle)
      modifies this`boundFramebuffer, this`log
      ensures boundFramebuffer == f
      ensures log == old(log) + [Call.BindFramebuffer(f)]
    {
      boundFramebuffer := f;
      log := log + [Call.BindFramebuffer(f)];
    }

    /** getParameter(FRAMEBUFFER_BINDING). */
    method GetFramebufferBinding() returns (f: Handle)
      modifies this`log
      ensures f == boundFramebuffer
      ensures log == old(log) + [Call.GetFramebufferBinding(f)]
    {
      f := boundFramebuffer;
      log := log + [Call.GetFramebufferBinding(f)];
    }

    /** checkFramebufferStatus(FRAMEBUFFER): any status code. */
    method CheckFramebufferStatus() returns (status: int)
      modifies this`log
      ensures log == old(log) + [Call.CheckFramebufferStatus(status)]
    {
      status :| true;
      log := log + [Call.CheckFramebufferStatus(status)];
    }

    method IsFramebuffer(f: Handle) returns (b: bool)
      modifies this`log
      ensures b == HasFramebuffer(f)
      ensures log == old(log) + [Call.IsFramebuffer(f, b)]
    {
      b := HasFramebuffer(f);
      log := log + [Call.IsFramebuffer(f, b)];
    }

    /** Deleting the bound framebuffer makes the default framebuffer bound. */
    method DeleteFramebuffer(f: Handle)
      modifies this`framebuffers, this`boundFramebuffer, this`log
      ensures framebuffers == if f.Obj? then old(framebuffers) - {f.id} else old(framebuffers)
      ensures boundFramebuffer == if old(boundFramebuffer) == f then Null else old(boundFramebuffer)
      ensures log == old(log) + [Call.DeleteFramebuffer(f)]
    {
      if f.Obj? {
        framebuffers := framebuffers - {f.id};
      }
      if boundFramebuffer == f {
        boundFramebuffer := Null;
      }
      log := log + [Call.DeleteFramebuffer(f)];
    }

    /** readPixels into buf: its contents are whatever the driver writes. */
    method ReadPixels(width: int, height: int, buf: array<bv8>)
      modifies this`log, buf
      ensures log == old(log) + [Call.ReadPixels(width, height)]
    {
      forall i | 0 <= i < buf.Length {
        buf[i] := *;
      }
      log := log + [Call.ReadPixels(width, height)];
    }

    /** getError: any error code. */
    method GetError() returns (code: int)
      modifies this`log
      ensures log == old(log) + [Call.GetError(code)]
    {
      code :| true;
      log := log + [Call.GetError(code)];
    }

    /** createShader: null on failure, otherwise a new shader. */
    method CreateShader(kind: int) returns (s: Handle)
      requires Valid()
      modifies this`shaders, this`nextId, this`log
      ensures Valid()
      ensures s == Null ==> shaders == old(shaders) && nextId == old(nextId)
      ensures s != Null ==> s == Obj(old(nextId)) && shaders == old(shaders) + {s.id} && nextId == old(nextId) + 1
      ensures log == old(log) + [Call.CreateShader(kind, s)]
    {
      var ok: bool :| true;
      if ok {
        s := Obj(nextId);
        shaders := shaders + {nextId};
        nextId := nextId + 1;
      } else {
        s := Null;
      }
      log := log + [Call.CreateShader(kind, s)];
    }

    /** getShaderParameter(COMPILE_STATUS): either answer. */
    method GetCompileStatus(s: Handle) returns (compiled: bool)
      modifies this`log
      ensures log == old(log) + [Call.GetCompileStatus(s, compiled)]
    {
      compiled :| true;
      log := log + [Call.GetCompileStatus(s, compiled)];
    }

    /** getShaderInfoLog: any text. */
    method GetShaderInfoLog(s: Handle) returns (text: string)
      modifies this`log
      ensures log == old(log) + [Call.GetShaderInfoLog(s, text)]
    {
      text :| true;
      log := log + [Call.GetShaderInfoLog(s, text)];
    }

    method DeleteShader(s: Handle)
      modifies this`shaders, this`log
      ensures shaders == if s.Obj? then old(shaders) - {s.id} else old(shaders)
      ensures log == old(log) + [Call.DeleteShader(s)]
    {
      if s.Obj? {
        shaders := shaders - {s.id};
      }
      log := log + [Call.DeleteShader(s)];
    }

    /** createProgram: null on failure, otherwise a new program. */
    method CreateProgram() returns (p: Handle)
      requires Valid()
      modifies this`programs, this`nextId, this`log
      ensures Valid()
      ensures p == Null ==> programs == old(programs) && nextId == old(nextId)
      ensures p != Null ==> p == Obj(old(nextId)) && programs == old(programs) + {p.id} && nextId == old(nextId) + 1
      ensures log == old(log) + [Call.CreateProgram(p)]
    {
      var ok: bool :| true;
      if ok {
        p := Obj(nextId);
        programs := programs + {nextId};
        nextId := nextId + 1;
      } else {
        p := Null;
      }
      log := log + [Call.CreateProgram(p)];
    }

    /** getProgramParameter(LINK_STATUS): either answer. */
    method GetLinkStatus(p: Handle) returns (linked: bool)
      modifies this`log
      ensures log == old(log) + [Call.GetLinkStatus(p, linked)]
    {
      linked :| true;
      log := log + [Call.GetLinkStatus(p, linked)];
    }

    method IsProgram(p: Handle) returns (b: bool)
      modifies this`log
      ensures b == HasProgram(p)
      ensures log == old(log) + [Call.IsProgram(p, b)]
    {
      b := HasProgram(p);
      log := log + [Call.IsProgram(p, b)];
    }

    method DeleteProgram(p: Handle)
      modifies this`programs, this`log
      ensures programs == if p.Obj? then old(programs) - {p.id} else old(programs)
      ensures log == old(log) + [Call.DeleteProgram(p)]
    {
      if p.Obj? {
        programs := programs - {p.id};
      }
      log := log + [Call.DeleteProgram(p)];
    }

    /** getUniformLocation: any location value. */
    method GetUniformLocation(p: Handle, name: string) returns (l: Handle)
      modifies this`log
      ensures log == old(log) + [Call.GetUniformLocation(p, name, l)]
    {
      l :| true;
      log := log + [Call.GetUniformLocation(p, name, l)];
    }
  }
}
