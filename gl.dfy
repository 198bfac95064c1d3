/** The OpenGL calls the renderer makes, as commands, and the part of the driver's state
    they change: the program in use, the bound vertex array, the texture bound on each
    texture unit, each program's uniform values, and the draws issued so far. Handles
    are named by what they stand for (gProgramId, gMesh.vao, ...); uniform locations are
    named by the uniform and the program they were looked up in. */
module GL {
  import opened Glm

  /** 0, gProgramId and gLampProgramId. */
  datatype Program = NoProgram | ObjectProgram | LampProgram

  /** 0, gMesh.vao and gMesh.sphereVAO. */
  datatype VertexArray = NoVertexArray | MainVertexArray | SphereVertexArray

  /** 0 and gTextureId. */
  datatype Texture = NoTexture | MugTexture

  /** The argument of glActiveTexture: GL_TEXTURE (a texture target, not a unit), or
      GL_TEXTURE0 + index. */
  datatype TextureName = TextureTarget | TextureUnit(index: nat)

  /** The uniforms the two shader programs declare, looked up by these names. */
  datatype UniformName =
    | Model | View | Projection                // "model", "view", "projection"
    | ObjectColor | LightColor | LightPos      // "objectColor", "lightColor", "lightPos"
    | ViewPosition                            // "viewPosition"
    | FillLightColor | FillLightPos           // "fillLightColor", "fillLightPos"
    | UVScale | UTexture                      // "uvScale", "uTexture"

  datatype Value = Matrix(m: Mat4) | Vector(vec: Vec3) | Pair(first: real, second: real) | Sampler(unit: nat)

  datatype Command =
    | EnableDepthTest
    | ClearColor(r: real, g: real, b: real, a: real)
    | Clear
    | UseProgram(program: Program)
    | SetUniform(owner: Program, name: UniformName, value: Value)  // location looked up in owner
    | BindVertexArray(vao: VertexArray)
    | DrawElements(count: int, byteOffset: int)                // GL_TRIANGLES, GL_UNSIGNED_SHORT
    | ActiveTexture(unit: TextureName)
    | BindTexture(texture: Texture)                            // GL_TEXTURE_2D
    | SwapBuffers

  /** What one glDrawElements draws with: the program and vertex array in use, the
      element range, the uniform values of every program at that moment (the draw reads
      those of its own program), and the texture bound on unit 0, which the object
      program's fragment shader samples and the lamp program's ignores. */
  datatype Draw = Draw(program: Program, vao: VertexArray, count: int, byteOffset: int,
                       uniforms: map<(Program, UniformName), Value>, texture: Texture)

  datatype State = State(
    program: Program,
    vao: VertexArray,
    activeUnit: nat,
    textures: map<nat, Texture>,
    uniforms: map<(Program, UniformName), Value>,  // each program's uniform values
    depthTest: bool,
    draws: seq<Draw>,
    errors: nat,       // calls the driver rejects
    misdirected: nat,  // uniform locations used with a program other than their owner
    frames: nat)       // buffer swaps

  /** The draw reads value for its program's uniform n. */
  predicate Sees(d: Draw, n: UniformName, v: Value) {
    (d.program, n) in d.uniforms && d.uniforms[(d.program, n)] == v
  }

  /** A fresh context: nothing bound, unit 0 active, no uniforms set. */
  const Fresh := State(NoProgram, NoVertexArray, 0, map[], map[], false, [], 0, 0, 0)

  function TextureOn(s: State, unit: nat): Texture {
    if unit in s.textures then s.textures[unit] else NoTexture
  }

  /** The uniforms each program's shaders read: glGetUniformLocation finds a location
      only for these. The object program's fragment shader declares objectColor but
      never reads it (main.cpp:150), so the linker drops it; the lamp program's shaders
      read only its three matrices (main.cpp:208-221). */
  predicate Active(p: Program, n: UniformName) {
    match p
    case NoProgram => false
    case ObjectProgram => n != ObjectColor
    case LampProgram => n == Model || n == View || n == Projection
  }

  /** Every uniform value held is that of an active uniform. */
  predicate ActiveOnly(u: map<(Program, UniformName), Value>) {
    forall k :: k in u ==> Active(k.0, k.1)
  }

  /** The calls the driver rejects: glUniform with no program in use, and
      glActiveTexture with a name that is not a texture unit. */
  predicate Rejected(s: State, c: Command) {
    || (c.SetUniform? && s.program == NoProgram)
    || c == ActiveTexture(TextureTarget)
  }

  /** What one call does. A rejected call is an error that changes nothing else. A
      glUniform on the location -1 of an inactive uniform is ignored. A location looked
      up in another program is counted, since it does not name the uniform of that name
      in the program in use. Only glDrawElements draws, only a glUniform on an active
      uniform of the program in use changes a uniform, and only the swap ends a frame. */
  function Apply(s: State, c: Command): (r: State)
    ensures r.errors == s.errors + (if Rejected(s, c) then 1 else 0)
    ensures |r.draws| == |s.draws| + (if c.DrawElements? then 1 else 0)
    ensures r.frames == s.frames + (if c == SwapBuffers then 1 else 0)
  {
    match c
    case EnableDepthTest => s.(depthTest := true)
    case ClearColor(_, _, _, _) => s
    case Clear => s
    case UseProgram(p) => s.(program := p)
    case SetUniform(owner, name, value) =>
      if s.program == NoProgram then s.(errors := s.errors + 1)
      else if !Active(owner, name) then s
      else if owner != s.program then s.(misdirected := s.misdirected + 1)
      else s.(uniforms := s.uniforms[(owner, name) := value])
    case BindVertexArray(v) => s.(vao := v)
    case DrawElements(count, offset) =>
      s.(draws := s.draws + [Draw(s.program, s.vao, count, offset, s.uniforms, TextureOn(s, 0))])
    case ActiveTexture(unit) =>
      if unit.TextureTarget? then s.(errors := s.errors + 1) else s.(activeUnit := unit.index)
    case BindTexture(t) => s.(textures := s.textures[s.activeUnit := t])
    case SwapBuffers => s.(frames := s.frames + 1)
  }

  /** Only a glUniform on an active uniform of the program in use changes a uniform, and
      no call removes one. */
  lemma ApplyUniforms(s: State, c: Command)
    ensures s.uniforms.Keys <= Apply(s, c).uniforms.Keys
    ensures var u := Apply(s, c).uniforms;
      forall k :: k in u && (k !in s.uniforms || u[k] != s.uniforms[k]) ==>
        c.SetUniform? && k == (c.owner, c.name) && c.owner == s.program && Active(c.owner, c.name)
  {
  }

  /** The calls of cs, in order. */
  function Exec(s: State, cs: seq<Command>): State
    decreases |cs|
  {
    if cs == [] then s else Exec(Apply(s, cs[0]), cs[1..])
  }

  /** A call keeps every earlier draw, and a draw reads the uniforms held and the
      texture on unit 0 at the moment it is issued. */
  lemma ApplyKeepsDraws(s: State, c: Command)
    ensures Apply(s, c).draws[..|s.draws|] == s.draws
    ensures c.DrawElements? ==>
      Apply(s, c).draws[|s.draws|].uniforms == s.uniforms && Apply(s, c).draws[|s.draws|].texture == TextureOn(s, 0)
  {
  }

  /** A rejected call changes nothing but the error count, and a glUniform on an
      inactive uniform changes nothing at all. */
  lemma ApplyRejected(s: State, c: Command)
    ensures Rejected(s, c) ==> Apply(s, c) == s.(errors := s.errors + 1)
    ensures c.SetUniform? && !Active(c.owner, c.name) && !Rejected(s, c) ==> Apply(s, c) == s
  {
  }

  /** Any run of calls keeps the earlier draws, only adds errors and frames, and never
      makes an inactive uniform hold a value. */
  lemma {:induction false} ExecKeeps(s: State, cs: seq<Command>)
    ensures var r := Exec(s, cs);
      && |s.draws| <= |r.draws| && r.draws[..|s.draws|] == s.draws
      && s.errors <= r.errors && s.frames <= r.frames
      && (ActiveOnly(s.uniforms) ==> ActiveOnly(r.uniforms))
    decreases |cs|
  {
    if cs != [] {
      var t := Apply(s, cs[0]);
      ApplyUniforms(s, cs[0]);
      ApplyKeepsDraws(s, cs[0]);
      ExecKeeps(t, cs[1..]);
      var r := Exec(s, cs);
      assert r.draws[..|s.draws|] == r.draws[..|t.draws|][..|s.draws|];
    }
  }

  /** glUniform on an active uniform of the program in use sets that uniform only. */
  lemma ApplySetUniform(s: State, n: UniformName, v: Value)
    requires Active(s.program, n)
    ensures Apply(s, SetUniform(s.program, n, v)) == s.(uniforms := s.uniforms[(s.program, n) := v])
  {
  }

  lemma ExecSingle(s: State, c: Command)
    ensures Exec(s, [c]) == Apply(s, c)
  {
    assert [c][1..] == [];
  }

  lemma ExecPair(s: State, a: Command, b: Command)
    ensures Exec(s, [a, b]) == Apply(Apply(s, a), b)
  {
    assert [a, b][1..] == [b];
    assert Exec(s, [a, b]) == Exec(Apply(s, a), [b]);
    assert [b][1..] == [];
    assert Exec(Apply(s, a), [b]) == Exec(Apply(Apply(s, a), b), []);
  }

  lemma ExecTriple(s: State, a: Command, b: Command, c: Command)
    ensures Exec(s, [a, b, c]) == Apply(Apply(Apply(s, a), b), c)
  {
    assert [a, b, c][1..] == [b, c];
    ExecPair(Apply(s, a), b, c);
  }

  /** Running two lists of calls is running the first and then the second. */
  lemma {:induction false} ExecAppend(s: State, a: seq<Command>, b: seq<Command>)
    ensures Exec(s, a + b) == Exec(Exec(s, a), b)
    decreases |a|
  {
    if a == [] {
      assert a + b == b;
    } else {
      assert (a + b)[0] == a[0] && (a + b)[1..] == a[1..] + b;
      calc {
        Exec(s, a + b);
        Exec(Apply(s, a[0]), a[1..] + b);
        { ExecAppend(Apply(s, a[0]), a[1..], b); }
        Exec(Exec(Apply(s, a[0]), a[1..]), b);
      }
    }
  }

  /** The recorded calls of one GL context, and the state they leave it in. */
  class Context {
    var trace: seq<Command>
    var state: State

    constructor ()
      ensures trace == [] && state == Fresh
    {
      trace := [];
      state := Fresh;
    }

    /** Issue one call. */
    method Call(c: Command)
      modifies this
      ensures trace == old(trace) + [c]
      ensures state == Apply(old(state), c)
    {
      trace := trace + [c];
      state := Apply(state, c);
    }
  }
}
