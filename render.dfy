/** One frame of the render loop (URender, main.cpp:485-631) and the start-up calls that
    precede the first frame: the lamps orbit when orbiting is on, then the mug, the two
    lamps and the sphere are drawn with the uniforms the frame sets, and the mug's
    texture is bound only after everything has been drawn. */
module Render {
  import opened Glm
  import opened GL
  import opened Scene
  import opened MeshData
  import opened MeshBuffers

  // ---------------------------------------------------------------------------
  // The scene's constants (main.cpp:51, main.cpp:71-83, main.cpp:609-610)

  /** glm::translate(gPosition) * glm::scale(gScale). */
  const ObjectModelMatrix := TranslateScale(Vec3(1.0, 0.1, 0.0), Splat(0.36))
  /** gObjectColor, gLightColor and gFillLightColor. */
  const ObjectColorValue := Vec3(1.0, 0.2, 0.0)
  const LightColorValue := Vec3(1.0, 1.0, 0.95)
  const FillLightColorValue := Vec3(1.0, 1.0, 1.0)
  /** gLightScale and gFillLightScale. */
  const LampScale := Splat(0.3)
  /** gUVScale. */
  const UVScaleValue := Pair(2.0, 2.0)
  /** The sphere's model matrix: a translation to (0.3, 0.239, 0) and a scale of 0.13. */
  const SphereModelMatrix := TranslateScale(Vec3(0.3, 0.239, 0.0), Splat(0.13))

  /** What one frame reads: the projection toggle, the two light positions after this
      frame's orbit step, the camera position, and the counts and offset UCreateMesh
      recorded. */
  datatype Frame = Frame(
    ortho: bool,
    light: Vec3,
    fillLight: Vec3,
    camera: Vec3,
    nIndices: int,
    nLightIndices: int,
    sphereNumIndices: int,
    sphereIndexByteOffset: int)

  function ProjectionMatrix(ortho: bool): Mat4 {
    if ortho then OrthoProjection else PerspectiveProjection
  }

  // ---------------------------------------------------------------------------
  // The calls of one frame, in order

  /** Depth test, clear colour and clear, then the object program (main.cpp:503-526). */
  const FrameStartCommands := [EnableDepthTest, ClearColor(0.3, 0.0, 0.0, 0.0), Clear,
                               UseProgram(ObjectProgram)]

  /** The object program's matrices (main.cpp:529-536). */
  function ObjectMatrixCommands(f: Frame): seq<Command> {
    [SetUniform(ObjectProgram, Model, Matrix(ObjectModelMatrix)),
     SetUniform(ObjectProgram, View, Matrix(CameraView)),
     SetUniform(ObjectProgram, Projection, Matrix(ProjectionMatrix(f.ortho)))]
  }

  /** The object program's colours, lights, camera position and texture scale
      (main.cpp:538-559): first the object colour, then the uniforms the shaders read. */
  function ObjectLightingCommands(f: Frame): seq<Command> {
    [SetUniform(ObjectProgram, ObjectColor, Vector(ObjectColorValue))] + ActiveLightingCommands(f)
  }

  function ActiveLightingCommands(f: Frame): seq<Command> {
    [SetUniform(ObjectProgram, LightColor, Vector(LightColorValue)),
     SetUniform(ObjectProgram, LightPos, Vector(f.light)),
     SetUniform(ObjectProgram, ViewPosition, Vector(f.camera)),
     SetUniform(ObjectProgram, FillLightColor, Vector(FillLightColorValue)),
     SetUniform(ObjectProgram, FillLightPos, Vector(f.fillLight)),
     SetUniform(ObjectProgram, UVScale, UVScaleValue)]
  }

  /** The mug: the main vertex array and all nIndices elements (main.cpp:562-565). */
  function MugDrawCommands(f: Frame): seq<Command> {
    [BindVertexArray(MainVertexArray), DrawElements(f.nIndices, 0)]
  }

  /** One lamp (main.cpp:567-585, main.cpp:586-604): the lamp program, its matrices and
      the first nLightIndices elements of whatever vertex array is bound. */
  function LampCommands(f: Frame, position: Vec3): seq<Command> {
    [UseProgram(LampProgram),
     SetUniform(LampProgram, Model, Matrix(TranslateScale(position, LampScale))),
     SetUniform(LampProgram, View, Matrix(CameraView)),
     SetUniform(LampProgram, Projection, Matrix(ProjectionMatrix(f.ortho))),
     DrawElements(f.nLightIndices, 0)]
  }

  /** The sphere (main.cpp:605-616): the object program again, the sphere's vertex array,
      a new model matrix and nothing else. */
  function SphereCommands(f: Frame): seq<Command> {
    [UseProgram(ObjectProgram), BindVertexArray(SphereVertexArray),
     SetUniform(ObjectProgram, Model, Matrix(SphereModelMatrix)),
     DrawElements(f.sphereNumIndices, f.sphereIndexByteOffset)]
  }

  /** After the draws (main.cpp:619-630): glActiveTexture(GL_TEXTURE), which names a
      texture target rather than a texture unit, then the texture bind, the unbinds and
      the buffer swap. */
  const FrameEndCommands := [ActiveTexture(TextureTarget), BindTexture(MugTexture),
                             BindVertexArray(NoVertexArray), UseProgram(NoProgram), SwapBuffers]

  /** The calls up to and including the last draw. */
  function DrawCommands(f: Frame): seq<Command> {
    FrameStartCommands + ObjectMatrixCommands(f) + ObjectLightingCommands(f) + MugDrawCommands(f)
    + LampCommands(f, f.light) + LampCommands(f, f.fillLight) + SphereCommands(f)
  }

  function FrameCommands(f: Frame): seq<Command> {
    DrawCommands(f) + FrameEndCommands
  }

  /** The frame's 35 calls: exactly four glDrawElements, the mug's, the two lamps' and
      the sphere's, and the buffer swap last. */
  lemma FrameCalls(f: Frame)
    ensures var cs := FrameCommands(f);
      && |cs| == 35 && cs[34] == SwapBuffers
      && cs[15] == DrawElements(f.nIndices, 0) && cs[20] == DrawElements(f.nLightIndices, 0)
      && cs[25] == DrawElements(f.nLightIndices, 0)
      && cs[29] == DrawElements(f.sphereNumIndices, f.sphereIndexByteOffset)
      && forall i :: 0 <= i < |cs| && cs[i].DrawElements? ==> i == 15 || i == 20 || i == 25 || i == 29
  {
  }

  // ---------------------------------------------------------------------------
  // What the calls of one frame leave in the context

  /** The object program's matrices once set. */
  function ObjectMatrixValues(u: map<(Program, UniformName), Value>, f: Frame): map<(Program, UniformName), Value> {
    u[(ObjectProgram, Model) := Matrix(ObjectModelMatrix)]
     [(ObjectProgram, View) := Matrix(CameraView)]
     [(ObjectProgram, Projection) := Matrix(ProjectionMatrix(f.ortho))]
  }

  /** The object program's light colours, light positions, camera position and texture
      scale once set. The object colour is not among them: objectColor is inactive, so
      its glUniform3f is ignored. */
  function ObjectLightingValues(u: map<(Program, UniformName), Value>, f: Frame): map<(Program, UniformName), Value> {
    u[(ObjectProgram, LightColor) := Vector(LightColorValue)]
     [(ObjectProgram, LightPos) := Vector(f.light)]
     [(ObjectProgram, ViewPosition) := Vector(f.camera)]
     [(ObjectProgram, FillLightColor) := Vector(FillLightColorValue)]
     [(ObjectProgram, FillLightPos) := Vector(f.fillLight)]
     [(ObjectProgram, UVScale) := UVScaleValue]
  }

  /** The lamp program's uniforms once set for a lamp at position. */
  function LampValues(u: map<(Program, UniformName), Value>, position: Vec3, ortho: bool): map<(Program, UniformName), Value> {
    u[(LampProgram, Model) := Matrix(TranslateScale(position, LampScale))]
     [(LampProgram, View) := Matrix(CameraView)]
     [(LampProgram, Projection) := Matrix(ProjectionMatrix(ortho))]
  }

  /** After the mug's draw: one draw more, no error, no texture binding changed. */
  function MugPassResult(s: State, f: Frame): (t: State)
    ensures |t.draws| == |s.draws| + 1 && t.draws[..|s.draws|] == s.draws
    ensures t.textures == s.textures && t.activeUnit == s.activeUnit
    ensures t.errors == s.errors && t.misdirected == s.misdirected && t.frames == s.frames
  {
    var t := s.(depthTest := true, program := ObjectProgram, vao := MainVertexArray,
                uniforms := ObjectLightingValues(ObjectMatrixValues(s.uniforms, f), f));
    t.(draws := s.draws + [Draw(ObjectProgram, MainVertexArray, f.nIndices, 0,
                                t.uniforms, TextureOn(s, 0))])
  }

  /** After one lamp's draw: one draw more, with the vertex array that was already
      bound; no error, no texture binding changed. */
  function LampPassResult(s: State, f: Frame, position: Vec3): (t: State)
    ensures |t.draws| == |s.draws| + 1 && t.draws[..|s.draws|] == s.draws
    ensures t.draws[|s.draws|].vao == s.vao && t.vao == s.vao
    ensures t.textures == s.textures && t.activeUnit == s.activeUnit
    ensures t.errors == s.errors && t.misdirected == s.misdirected && t.frames == s.frames
  {
    var t := s.(program := LampProgram, uniforms := LampValues(s.uniforms, position, f.ortho));
    t.(draws := s.draws + [Draw(LampProgram, s.vao, f.nLightIndices, 0,
                                t.uniforms, TextureOn(s, 0))])
  }

  /** After the sphere's draw: one draw more, no error, no texture binding changed. */
  function SpherePassResult(s: State, f: Frame): (t: State)
    ensures |t.draws| == |s.draws| + 1 && t.draws[..|s.draws|] == s.draws
    ensures t.textures == s.textures && t.activeUnit == s.activeUnit
    ensures t.errors == s.errors && t.misdirected == s.misdirected && t.frames == s.frames
  {
    var t := s.(program := ObjectProgram, vao := SphereVertexArray,
                uniforms := s.uniforms[(ObjectProgram, Model) := Matrix(SphereModelMatrix)]);
    t.(draws := s.draws + [Draw(ObjectProgram, SphereVertexArray, f.sphereNumIndices,
                                f.sphereIndexByteOffset, t.uniforms, TextureOn(s, 0))])
  }

  /** After the frame's last calls: the glActiveTexture call is rejected, so the texture
      is bound on the unit that was already active. */
  function FrameEndResult(s: State): (t: State)
    ensures t.draws == s.draws && t.uniforms == s.uniforms
    ensures TextureOn(t, s.activeUnit) == MugTexture && t.activeUnit == s.activeUnit
    ensures t.errors == s.errors + 1 && t.frames == s.frames + 1
  {
    s.(errors := s.errors + 1, textures := s.textures[s.activeUnit := MugTexture],
       vao := NoVertexArray, program := NoProgram, frames := s.frames + 1)
  }

  /** After the four draws. */
  function DrawsResult(s: State, f: Frame): State {
    SpherePassResult(LampPassResult(LampPassResult(MugPassResult(s, f), f, f.light), f, f.fillLight), f)
  }

  /** After one frame: four draws more, one rejected call, one swap. */
  function FrameResult(s: State, f: Frame): (t: State)
    ensures |t.draws| == |s.draws| + 4
    ensures t.errors == s.errors + 1 && t.misdirected == s.misdirected && t.frames == s.frames + 1
  {
    FrameEndResult(DrawsResult(s, f))
  }

  // ---------------------------------------------------------------------------
  // What a frame draws

  // ---------------------------------------------------------------------------
  // The frame's calls, run one after another, leave FrameResult

  /** Running the frame's calls from any state leaves what the methods that issue them
      leave: the recorded trace and the state agree. */
  lemma FrameExec(s: State, f: Frame)
    ensures Exec(s, FrameCommands(f)) == FrameResult(s, f)
  {
    ExecAppend(s, DrawCommands(f), FrameEndCommands);
    DrawsExec(s, f);
    FrameEndExec(DrawsResult(s, f));
  }

  lemma DrawsExec(s: State, f: Frame)
    ensures Exec(s, DrawCommands(f)) == DrawsResult(s, f)
  {
    var mug := FrameStartCommands + ObjectMatrixCommands(f) + ObjectLightingCommands(f) + MugDrawCommands(f);
    var key := LampCommands(f, f.light);
    var fill := LampCommands(f, f.fillLight);
    ExecAppend(s, mug + key + fill, SphereCommands(f));
    ExecAppend(s, mug + key, fill);
    ExecAppend(s, mug, key);
    MugExec(s, f);
    var m := MugPassResult(s, f);
    LampExec(m, f, f.light);
    LampExec(LampPassResult(m, f, f.light), f, f.fillLight);
    SphereExec(LampPassResult(LampPassResult(m, f, f.light), f, f.fillLight), f);
  }

  lemma MugExec(s: State, f: Frame)
    ensures Exec(s, FrameStartCommands + ObjectMatrixCommands(f) + ObjectLightingCommands(f)
                    + MugDrawCommands(f)) == MugPassResult(s, f)
  {
    var started := s.(depthTest := true, program := ObjectProgram);
    var placed := started.(uniforms := ObjectMatrixValues(s.uniforms, f));
    var lit := placed.(uniforms := ObjectLightingValues(placed.uniforms, f));
    ExecAppend(s, FrameStartCommands + ObjectMatrixCommands(f) + ObjectLightingCommands(f),
               MugDrawCommands(f));
    ExecAppend(s, FrameStartCommands + ObjectMatrixCommands(f), ObjectLightingCommands(f));
    ExecAppend(s, FrameStartCommands, ObjectMatrixCommands(f));
    FrameStartExec(s);
    ObjectMatrixExec(started, f);
    ObjectLightingExec(placed, f);
    ExecPair(lit, BindVertexArray(MainVertexArray), DrawElements(f.nIndices, 0));
  }

  lemma FrameStartExec(s: State)
    ensures Exec(s, FrameStartCommands) == s.(depthTest := true, program := ObjectProgram)
  {
    assert FrameStartCommands == [EnableDepthTest, ClearColor(0.3, 0.0, 0.0, 0.0)] + [Clear, UseProgram(ObjectProgram)];
    ExecAppend(s, [EnableDepthTest, ClearColor(0.3, 0.0, 0.0, 0.0)], [Clear, UseProgram(ObjectProgram)]);
    ExecPair(s, EnableDepthTest, ClearColor(0.3, 0.0, 0.0, 0.0));
    ExecPair(s.(depthTest := true), Clear, UseProgram(ObjectProgram));
  }

  lemma ObjectMatrixExec(s: State, f: Frame)
    requires s.program == ObjectProgram
    ensures Exec(s, ObjectMatrixCommands(f)) == s.(uniforms := ObjectMatrixValues(s.uniforms, f))
  {
    var model, view, projection := Matrix(ObjectModelMatrix), Matrix(CameraView), Matrix(ProjectionMatrix(f.ortho));
    ExecTriple(s, SetUniform(ObjectProgram, Model, model), SetUniform(ObjectProgram, View, view),
               SetUniform(ObjectProgram, Projection, projection));
    var s1 := s.(uniforms := s.uniforms[(ObjectProgram, Model) := model]);
    var s2 := s1.(uniforms := s1.uniforms[(ObjectProgram, View) := view]);
    ApplySetUniform(s, Model, model);
    ApplySetUniform(s1, View, view);
    ApplySetUniform(s2, Projection, projection);
  }

  lemma ObjectLightingExec(s: State, f: Frame)
    requires s.program == ObjectProgram
    ensures Exec(s, ObjectLightingCommands(f)) == s.(uniforms := ObjectLightingValues(s.uniforms, f))
  {
    var colour := SetUniform(ObjectProgram, ObjectColor, Vector(ObjectColorValue));
    var first := [SetUniform(ObjectProgram, LightColor, Vector(LightColorValue)),
                  SetUniform(ObjectProgram, LightPos, Vector(f.light)),
                  SetUniform(ObjectProgram, ViewPosition, Vector(f.camera))];
    var second := [SetUniform(ObjectProgram, FillLightColor, Vector(FillLightColorValue)),
                   SetUniform(ObjectProgram, FillLightPos, Vector(f.fillLight)),
                   SetUniform(ObjectProgram, UVScale, UVScaleValue)];
    assert ActiveLightingCommands(f) == first + second;
    ExecAppend(s, [colour], first + second);
    ExecAppend(s, first, second);
    ExecSingle(s, colour);
    ExecTriple(s, first[0], first[1], first[2]);
    var s1 := s.(uniforms := s.uniforms[(ObjectProgram, LightColor) := Vector(LightColorValue)]);
    var s2 := s1.(uniforms := s1.uniforms[(ObjectProgram, LightPos) := Vector(f.light)]);
    var s3 := s2.(uniforms := s2.uniforms[(ObjectProgram, ViewPosition) := Vector(f.camera)]);
    ApplySetUniform(s, LightColor, Vector(LightColorValue));
    ApplySetUniform(s1, LightPos, Vector(f.light));
    ApplySetUniform(s2, ViewPosition, Vector(f.camera));
    ExecTriple(s3, second[0], second[1], second[2]);
    var s4 := s3.(uniforms := s3.uniforms[(ObjectProgram, FillLightColor) := Vector(FillLightColorValue)]);
    var s5 := s4.(uniforms := s4.uniforms[(ObjectProgram, FillLightPos) := Vector(f.fillLight)]);
    ApplySetUniform(s3, FillLightColor, Vector(FillLightColorValue));
    ApplySetUniform(s4, FillLightPos, Vector(f.fillLight));
    ApplySetUniform(s5, UVScale, UVScaleValue);
  }

  lemma LampExec(s: State, f: Frame, position: Vec3)
    ensures Exec(s, LampCommands(f, position)) == LampPassResult(s, f, position)
  {
    var cs := LampCommands(f, position);
    var model, view, projection := Matrix(TranslateScale(position, LampScale)), Matrix(CameraView),
                                   Matrix(ProjectionMatrix(f.ortho));
    assert cs == cs[..3] + cs[3..];
    ExecAppend(s, cs[..3], cs[3..]);
    ExecTriple(s, cs[0], cs[1], cs[2]);
    var s0 := s.(program := LampProgram);
    var s1 := s0.(uniforms := s0.uniforms[(LampProgram, Model) := model]);
    var s2 := s1.(uniforms := s1.uniforms[(LampProgram, View) := view]);
    ApplySetUniform(s0, Model, model);
    ApplySetUniform(s1, View, view);
    ApplySetUniform(s2, Projection, projection);
    ExecPair(s2, cs[3], cs[4]);
    assert cs[..3] == [cs[0], cs[1], cs[2]] && cs[3..] == [cs[3], cs[4]];
    assert Exec(s, cs[..3]) == s2;
    var s3 := s2.(uniforms := s2.uniforms[(LampProgram, Projection) := projection]);
    assert Exec(s2, cs[3..]) == Apply(s3, cs[4]);
  }

  lemma SphereExec(s: State, f: Frame)
    ensures Exec(s, SphereCommands(f)) == SpherePassResult(s, f)
  {
    var cs := SphereCommands(f);
    assert cs == cs[..2] + cs[2..];
    ExecAppend(s, cs[..2], cs[2..]);
    ExecPair(s, cs[0], cs[1]);
    ExecPair(Apply(Apply(s, cs[0]), cs[1]), cs[2], cs[3]);
  }

  lemma FrameEndExec(s: State)
    ensures Exec(s, FrameEndCommands) == FrameEndResult(s)
  {
    var cs := FrameEndCommands;
    assert cs == cs[..2] + cs[2..];
    ExecAppend(s, cs[..2], cs[2..]);
    ExecPair(s, cs[0], cs[1]);
    ExecTriple(Apply(Apply(s, cs[0]), cs[1]), cs[2], cs[3], cs[4]);
  }

  /** The object program's uniforms after the mug's pass: each active one set to the
      frame's value, while the object program's sampler and the inactive objectColor
      stay as they were. */
  lemma ObjectValuesSet(u: map<(Program, UniformName), Value>, f: Frame)
    ensures var w := ObjectLightingValues(ObjectMatrixValues(u, f), f);
      && w[(ObjectProgram, Model)] == Matrix(ObjectModelMatrix)
      && w[(ObjectProgram, View)] == Matrix(CameraView)
      && w[(ObjectProgram, Projection)] == Matrix(ProjectionMatrix(f.ortho))
      && w[(ObjectProgram, LightColor)] == Vector(LightColorValue)
      && w[(ObjectProgram, LightPos)] == Vector(f.light)
      && w[(ObjectProgram, ViewPosition)] == Vector(f.camera)
      && w[(ObjectProgram, FillLightColor)] == Vector(FillLightColorValue)
      && w[(ObjectProgram, FillLightPos)] == Vector(f.fillLight)
      && w[(ObjectProgram, UVScale)] == UVScaleValue
      && ((ObjectProgram, UTexture) in w <==> (ObjectProgram, UTexture) in u)
      && ((ObjectProgram, UTexture) in u ==> w[(ObjectProgram, UTexture)] == u[(ObjectProgram, UTexture)])
      && ((ObjectProgram, ObjectColor) in w <==> (ObjectProgram, ObjectColor) in u)
  {
  }

  /** A lamp's pass sets the lamp program's three matrices and leaves every uniform of the
      object program as it was. */
  lemma LampValuesSet(u: map<(Program, UniformName), Value>, position: Vec3, ortho: bool)
    ensures var w := LampValues(u, position, ortho);
      && w[(LampProgram, Model)] == Matrix(TranslateScale(position, LampScale))
      && w[(LampProgram, View)] == Matrix(CameraView)
      && w[(LampProgram, Projection)] == Matrix(ProjectionMatrix(ortho))
      && forall n :: ((ObjectProgram, n) in w <==> (ObjectProgram, n) in u)
           && ((ObjectProgram, n) in u ==> w[(ObjectProgram, n)] == u[(ObjectProgram, n)])
  {
  }

  /** Each frame adds exactly four draws, in this order: the mug with the object program
      and all nIndices elements of the main vertex array; the key lamp and then the fill
      lamp with the lamp program and the first nLightIndices elements of that same
      vertex array; the sphere with the object program and its own vertex array, from
      sphereIndexByteOffset. Each draw reads the uniforms set so far in the frame, and
      all four are issued with whatever texture unit 0 held before the frame. */
  lemma FrameDraws(s: State, f: Frame)
    ensures var mugU := ObjectLightingValues(ObjectMatrixValues(s.uniforms, f), f);
      var keyU := LampValues(mugU, f.light, f.ortho);
      var fillU := LampValues(keyU, f.fillLight, f.ortho);
      var tex := TextureOn(s, 0);
      FrameResult(s, f).draws == s.draws + [
        Draw(ObjectProgram, MainVertexArray, f.nIndices, 0, mugU, tex),
        Draw(LampProgram, MainVertexArray, f.nLightIndices, 0, keyU, tex),
        Draw(LampProgram, MainVertexArray, f.nLightIndices, 0, fillU, tex),
        Draw(ObjectProgram, SphereVertexArray, f.sphereNumIndices, f.sphereIndexByteOffset,
             fillU[(ObjectProgram, Model) := Matrix(SphereModelMatrix)], tex)]
  {
    var s1 := MugPassResult(s, f);
    var s2 := LampPassResult(s1, f, f.light);
    var s3 := LampPassResult(s2, f, f.fillLight);
    var s4 := SpherePassResult(s3, f);
    assert s4.draws == s.draws + [s1.draws[|s.draws|], s2.draws[|s.draws| + 1],
                                  s3.draws[|s.draws| + 2], s4.draws[|s.draws| + 3]];
  }

  /** The mug sees the frame's matrices, light colours and positions, camera position and
      texture scale, and the sampler set before the frame; it sees an object colour only
      if one was held before the frame, since the frame's own is ignored. */
  lemma MugUniforms(s: State, f: Frame)
    ensures var mug := FrameResult(s, f).draws[|s.draws|];
      && Sees(mug, Model, Matrix(ObjectModelMatrix))
      && Sees(mug, View, Matrix(CameraView))
      && Sees(mug, Projection, Matrix(ProjectionMatrix(f.ortho)))
      && Sees(mug, LightColor, Vector(LightColorValue))
      && Sees(mug, LightPos, Vector(f.light))
      && Sees(mug, ViewPosition, Vector(f.camera))
      && Sees(mug, FillLightColor, Vector(FillLightColorValue))
      && Sees(mug, FillLightPos, Vector(f.fillLight))
      && Sees(mug, UVScale, UVScaleValue)
      && ((ObjectProgram, UTexture) in s.uniforms ==>
            Sees(mug, UTexture, s.uniforms[(ObjectProgram, UTexture)]))
      && ((ObjectProgram, ObjectColor) in mug.uniforms <==> (ObjectProgram, ObjectColor) in s.uniforms)
  {
    FrameDraws(s, f);
    ObjectValuesSet(s.uniforms, f);
  }

  /** Each lamp sees a model matrix placing it at its light, the camera's view and the
      projection the ortho toggle selects. */
  lemma LampUniforms(s: State, f: Frame)
    ensures var t := FrameResult(s, f);
      var key, fill := t.draws[|s.draws| + 1], t.draws[|s.draws| + 2];
      && Sees(key, Model, Matrix(TranslateScale(f.light, LampScale)))
      && Sees(fill, Model, Matrix(TranslateScale(f.fillLight, LampScale)))
      && Sees(key, View, Matrix(CameraView)) && Sees(fill, View, Matrix(CameraView))
      && Sees(key, Projection, Matrix(ProjectionMatrix(f.ortho)))
      && Sees(fill, Projection, Matrix(ProjectionMatrix(f.ortho)))
  {
    FrameDraws(s, f);
    var mugU := ObjectLightingValues(ObjectMatrixValues(s.uniforms, f), f);
    LampValuesSet(mugU, f.light, f.ortho);
    LampValuesSet(LampValues(mugU, f.light, f.ortho), f.fillLight, f.ortho);
  }

  /** The sphere sees its own model matrix and, for every other uniform, exactly what
      the mug saw: it is lit and viewed like the mug. */
  lemma SphereUniforms(s: State, f: Frame)
    ensures var t := FrameResult(s, f);
      var mug, sphere := t.draws[|s.draws|], t.draws[|s.draws| + 3];
      && Sees(sphere, Model, Matrix(SphereModelMatrix))
      && forall n :: n != Model ==>
           ((ObjectProgram, n) in sphere.uniforms <==> (ObjectProgram, n) in mug.uniforms)
           && ((ObjectProgram, n) in mug.uniforms ==>
                 sphere.uniforms[(ObjectProgram, n)] == mug.uniforms[(ObjectProgram, n)])
  {
    FrameDraws(s, f);
    var mugU := ObjectLightingValues(ObjectMatrixValues(s.uniforms, f), f);
    LampValuesSet(mugU, f.light, f.ortho);
    LampValuesSet(LampValues(mugU, f.light, f.ortho), f.fillLight, f.ortho);
  }

  /** What a frame leaves behind: the mug's texture bound on the unit that was active
      (the frame's glActiveTexture is rejected and counted as an error), nothing in use,
      one more frame swapped, and the object program's sampler untouched. */
  lemma FrameEnd(s: State, f: Frame)
    ensures var t := FrameResult(s, f);
      && t.activeUnit == s.activeUnit
      && t.textures == s.textures[s.activeUnit := MugTexture]
      && t.errors == s.errors + 1 && t.misdirected == s.misdirected
      && t.program == NoProgram && t.vao == NoVertexArray && t.depthTest
      && t.frames == s.frames + 1
      && ((ObjectProgram, UTexture) in s.uniforms ==>
            (ObjectProgram, UTexture) in t.uniforms
            && t.uniforms[(ObjectProgram, UTexture)] == s.uniforms[(ObjectProgram, UTexture)])
  {
  }

  // ---------------------------------------------------------------------------
  // What a frame reads from the buffers UCreateMesh filled

  /** The frame's counts and offset are those UCreateMesh recorded for the sphere sizes. */
  predicate FromMesh(f: Frame, sphere: ShapeData) {
    && f.nIndices == |Indices| && f.nLightIndices == |LightIndices|
    && f.sphereNumIndices == sphere.numIndices
    && f.sphereIndexByteOffset == StoredIndexOffset(sphere)
  }

  /** A draw on the main vertex array reads a prefix of the element table, every entry a
      vertex of `verts`. */
  predicate ReadsMainElements(d: Draw) {
    && d.vao == MainVertexArray && d.byteOffset == 0
    && 0 <= d.count <= |Indices| && InRange(Indices[..d.count], VertexCount)
  }

  /** A draw on the sphere's vertex array reads only the index data uploaded into the
      sphere buffer. */
  predicate ReadsSphereIndices(d: Draw, sphere: ShapeData) {
    && d.vao == SphereVertexArray
    && SphereUploads(sphere)[1].offset <= d.byteOffset
    && DrawBytes(d.count, d.byteOffset).End() <= SphereUploads(sphere)[1].End()
  }

  /** With the counts UCreateMesh recorded, the mug and both lamps read element-table
      entries that are all vertices of `verts`, and the sphere reads inside its uploaded
      index data exactly when that data holds the numIndices GLushorts ShapeGenerator
      reports (given vertex data below 4 GiB, so the stored offset is exact). */
  lemma FrameReadsInBounds(s: State, f: Frame, sphere: ShapeData)
    requires FromMesh(f, sphere) && sphere.vertexBufferSize < GLuintLimit
    ensures var t := FrameResult(s, f);
      var n := |s.draws|;
      && |t.draws| == n + 4
      && ReadsMainElements(t.draws[n])
      && ReadsMainElements(t.draws[n + 1])
      && ReadsMainElements(t.draws[n + 2])
      && (ReadsSphereIndices(t.draws[n + 3], sphere)
          <==> IndexSize * sphere.numIndices <= sphere.indexBufferSize)
  {
    FrameDraws(s, f);
    IndexTableWellFormed();
    assert Indices[..|Indices|] == Indices;
    ElementDrawsInBounds(f.nIndices, f.nLightIndices, Indices);
    SphereDrawInIndexData(sphere);
  }

  // ---------------------------------------------------------------------------
  // From start-up through any number of frames

  /** The calls main makes before the render loop: UCreateMesh leaves the main vertex
      array bound (main.cpp:1144, main.cpp:1165), UCreateShaderProgram leaves each program
      in use in turn (main.cpp:1302), UCreateTexture binds and unbinds the texture
      (main.cpp:1210, main.cpp:1232), and main points the object program's sampler at
      texture unit 0 and sets the clear colour (main.cpp:276-281). */
  const StartupCommands := MeshStartupCommands + ProgramStartupCommands
                           + TextureStartupCommands + SamplerStartupCommands

  const MeshStartupCommands := [BindVertexArray(SphereVertexArray), BindVertexArray(MainVertexArray)]
  const ProgramStartupCommands := [UseProgram(ObjectProgram), UseProgram(LampProgram)]
  const TextureStartupCommands := [BindTexture(MugTexture), BindTexture(NoTexture)]
  const SamplerStartupCommands := [UseProgram(ObjectProgram), SetUniform(ObjectProgram, UTexture, Sampler(0)),
                                   ClearColor(0.0, 0.0, 0.0, 1.0)]

  /** After start-up the object program is in use, its sampler reads unit 0, and unit 0
      holds no texture: the texture was unbound again at the end of UCreateTexture. */
  lemma StartupState()
    ensures var s := Exec(Fresh, StartupCommands);
      && s.program == ObjectProgram && s.vao == MainVertexArray
      && s.activeUnit == 0 && TextureOn(s, 0) == NoTexture
      && s.uniforms == map[(ObjectProgram, UTexture) := Sampler(0)]
      && s.draws == [] && s.errors == 0 && s.misdirected == 0 && s.frames == 0
  {
    var meshed := Exec(Fresh, MeshStartupCommands);
    var linked := Exec(meshed, ProgramStartupCommands);
    var textured := Exec(linked, TextureStartupCommands);
    ExecAppend(Fresh, MeshStartupCommands, ProgramStartupCommands);
    ExecAppend(Fresh, MeshStartupCommands + ProgramStartupCommands, TextureStartupCommands);
    ExecAppend(Fresh, MeshStartupCommands + ProgramStartupCommands + TextureStartupCommands,
               SamplerStartupCommands);
    MeshStartup(Fresh);
    ProgramStartup(meshed);
    ExecPair(linked, BindTexture(MugTexture), BindTexture(NoTexture));
    TextureStartup(linked);
    SamplerStartup(textured);
  }

  /** What each part of start-up does, from any state. */
  lemma MeshStartup(s: State)
    ensures Exec(s, MeshStartupCommands) == s.(vao := MainVertexArray)
  {
    ExecPair(s, BindVertexArray(SphereVertexArray), BindVertexArray(MainVertexArray));
  }

  lemma ProgramStartup(s: State)
    ensures Exec(s, ProgramStartupCommands) == s.(program := LampProgram)
  {
    ExecPair(s, UseProgram(ObjectProgram), UseProgram(LampProgram));
  }

  /** Binding the texture and then 0 leaves 0 bound on the active unit. */
  lemma TextureStartup(s: State)
    ensures Apply(Apply(s, BindTexture(MugTexture)), BindTexture(NoTexture))
            == s.(textures := s.textures[s.activeUnit := NoTexture])
  {
    var u := s.activeUnit;
    assert s.textures[u := MugTexture][u := NoTexture] == s.textures[u := NoTexture];
  }

  lemma SamplerStartup(s: State)
    ensures Exec(s, SamplerStartupCommands)
      == s.(program := ObjectProgram, uniforms := s.uniforms[(ObjectProgram, UTexture) := Sampler(0)])
  {
    ExecTriple(s, UseProgram(ObjectProgram), SetUniform(ObjectProgram, UTexture, Sampler(0)),
               ClearColor(0.0, 0.0, 0.0, 1.0));
  }

  /** The context after the frames fs, in order, starting from s. */
  function AfterFrames(s: State, fs: seq<Frame>): (t: State)
    ensures |t.draws| == |s.draws| + 4 * |fs|
    ensures t.errors == s.errors + |fs| && t.frames == s.frames + |fs|
    decreases |fs|
  {
    if fs == [] then s else FrameResult(AfterFrames(s, fs[..|fs| - 1]), fs[|fs| - 1])
  }

  /** What k frames after start-up have left: four draws a frame, of which those of the
      first frame are issued with no texture on unit 0 and all later ones with the mug's; every object-program
      draw reads its sampler from unit 0; one rejected call per frame; the mug's texture
      on unit 0 from the first frame on; no object colour held or drawn with. */
  predicate SessionShape(t: State, k: nat) {
    && |t.draws| == 4 * k
    && (forall i :: 0 <= i < |t.draws| ==>
          t.draws[i].texture == (if i < 4 then NoTexture else MugTexture))
    && (forall i :: 0 <= i < |t.draws| && t.draws[i].program == ObjectProgram ==>
          Sees(t.draws[i], UTexture, Sampler(0)))
    && (ObjectProgram, UTexture) in t.uniforms && t.uniforms[(ObjectProgram, UTexture)] == Sampler(0)
    && t.activeUnit == 0
    && TextureOn(t, 0) == (if k == 0 then NoTexture else MugTexture)
    && t.errors == k && t.misdirected == 0 && t.frames == k
    && (ObjectProgram, ObjectColor) !in t.uniforms
    && (forall i :: 0 <= i < |t.draws| ==> (ObjectProgram, ObjectColor) !in t.draws[i].uniforms)
  }

  /** A state that adds four draws to one of shape k, textured as unit 0 was before,
      whose object-program draws read unit 0, and that then binds the mug's texture on
      unit 0 and raises one error, has shape k + 1. */
  lemma SessionShapeStep(s: State, t: State, k: nat)
    requires SessionShape(s, k)
    requires |t.draws| == |s.draws| + 4 && t.draws[..|s.draws|] == s.draws
    requires forall i :: |s.draws| <= i < |t.draws| ==> t.draws[i].texture == TextureOn(s, 0)
    requires forall i :: |s.draws| <= i < |t.draws| && t.draws[i].program == ObjectProgram ==>
               Sees(t.draws[i], UTexture, Sampler(0))
    requires (ObjectProgram, UTexture) in t.uniforms && t.uniforms[(ObjectProgram, UTexture)] == Sampler(0)
    requires t.activeUnit == 0 && TextureOn(t, 0) == MugTexture
    requires t.errors == k + 1 && t.misdirected == 0 && t.frames == k + 1
    requires (ObjectProgram, ObjectColor) !in t.uniforms
    requires forall i :: |s.draws| <= i < |t.draws| ==> (ObjectProgram, ObjectColor) !in t.draws[i].uniforms
    ensures SessionShape(t, k + 1)
  {
    var n := |s.draws|;
    forall i | 0 <= i < n
      ensures t.draws[i] == s.draws[i]
    {
      assert t.draws[..n][i] == t.draws[i];
    }
  }

  /** A frame keeps the draws before it, textures its four draws as unit 0 was before
      it, and of those only the first and the last use the object program. */
  lemma FrameNewDraws(s: State, f: Frame)
    ensures var t := FrameResult(s, f);
      var n := |s.draws|;
      && |t.draws| == n + 4 && t.draws[..n] == s.draws
      && (forall i :: n <= i < n + 4 ==> t.draws[i].texture == TextureOn(s, 0))
      && (forall i :: n <= i < n + 4 && t.draws[i].program == ObjectProgram ==> i == n || i == n + 3)
  {
    FrameDraws(s, f);
  }

  /** The mug and the sphere both read the object program's sampler as it was before
      the frame. */
  lemma FrameSampler(s: State, f: Frame)
    requires (ObjectProgram, UTexture) in s.uniforms
    ensures var t := FrameResult(s, f);
      var v := s.uniforms[(ObjectProgram, UTexture)];
      Sees(t.draws[|s.draws|], UTexture, v) && Sees(t.draws[|s.draws| + 3], UTexture, v)
  {
    MugUniforms(s, f);
    SphereUniforms(s, f);
    assert UTexture != Model;
  }

  /** The frame's glUniform3f for objectColor is ignored, so a frame that starts with no
      object colour held neither holds one afterwards nor draws with one. */
  lemma FrameNoObjectColor(s: State, f: Frame)
    requires (ObjectProgram, ObjectColor) !in s.uniforms
    ensures var t := FrameResult(s, f);
      && (ObjectProgram, ObjectColor) !in t.uniforms
      && forall i :: |s.draws| <= i < |t.draws| ==> (ObjectProgram, ObjectColor) !in t.draws[i].uniforms
  {
    FrameDraws(s, f);
    var t := FrameResult(s, f);
    var n := |s.draws|;
    var mugU := ObjectLightingValues(ObjectMatrixValues(s.uniforms, f), f);
    var keyU := LampValues(mugU, f.light, f.ortho);
    var fillU := LampValues(keyU, f.fillLight, f.ortho);
    assert (ObjectProgram, ObjectColor) !in mugU;
    assert (ObjectProgram, ObjectColor) !in fillU;
    forall i | n <= i < |t.draws| ensures (ObjectProgram, ObjectColor) !in t.draws[i].uniforms {
      assert t.draws[i].uniforms in {mugU, keyU, fillU, fillU[(ObjectProgram, Model) := Matrix(SphereModelMatrix)]};
    }
  }

  /** One more frame keeps the shape, with one frame more. */
  lemma FrameKeepsSessionShape(s: State, f: Frame, k: nat)
    requires SessionShape(s, k)
    ensures SessionShape(FrameResult(s, f), k + 1)
  {
    var t := FrameResult(s, f);
    FrameNewDraws(s, f);
    FrameSampler(s, f);
    FrameEnd(s, f);
    FrameNoObjectColor(s, f);
    SessionShapeStep(s, t, k);
  }

  /** From start-up through the frames fs: the first frame's four draws find no texture
      on unit 0, every later draw finds the mug's there (the mug and sphere sample it), every frame raises one error, the
      object program's sampler still reads unit 0, and no draw has an object colour. */
  lemma {:induction false} Session(fs: seq<Frame>)
    ensures SessionShape(AfterFrames(Exec(Fresh, StartupCommands), fs), |fs|)
    decreases |fs|
  {
    if fs == [] {
      StartupState();
    } else {
      Session(fs[..|fs| - 1]);
      FrameKeepsSessionShape(AfterFrames(Exec(Fresh, StartupCommands), fs[..|fs| - 1]), fs[|fs| - 1], |fs| - 1);
    }
  }

  // ---------------------------------------------------------------------------
  // URender

  /** What URender reads from the globals once the lamps have moved. */
  function CurrentFrame(scene: SceneState, mesh: GLMesh, camera: Vec3): Frame
    reads scene, mesh
  {
    Frame(scene.ortho, scene.lightPosition, scene.fillLightPosition, camera,
          mesh.nIndices, mesh.nLightIndices, mesh.sphereNumIndices, mesh.sphereIndexByteOffset)
  }

  /** URender: move the lamps, then issue the frame's calls. The rotation of this frame's
      orbit step and the camera position are inputs. */
  method Render(gl: Context, scene: SceneState, mesh: GLMesh, spin: Rotation, camera: Vec3)
    modifies gl, scene
    ensures scene.lightPosition == Orbit(old(scene.lampOrbiting), spin, old(scene.lightPosition))
    ensures scene.fillLightPosition == Orbit(old(scene.lampOrbiting), spin, old(scene.fillLightPosition))
    ensures scene.Flags() == old(scene.Flags())
    ensures gl.trace == old(gl.trace) + FrameCommands(CurrentFrame(scene, mesh, camera))
    ensures gl.state == FrameResult(old(gl.state), CurrentFrame(scene, mesh, camera))
  {
    scene.OrbitLamps(spin);
    IssueFrame(gl, CurrentFrame(scene, mesh, camera));
  }

  /** The calls of one frame. */
  method IssueFrame(gl: Context, f: Frame)
    modifies gl
    ensures gl.trace == old(gl.trace) + FrameCommands(f)
    ensures gl.state == FrameResult(old(gl.state), f)
  {
    IssueDraws(gl, f);
    EndFrame(gl);
  }

  /** The calls of the four draws. */
  method IssueDraws(gl: Context, f: Frame)
    modifies gl
    ensures gl.trace == old(gl.trace) + DrawCommands(f)
    ensures gl.state == DrawsResult(old(gl.state), f)
  {
    DrawMug(gl, f);
    DrawLamp(gl, f, f.light);
    DrawLamp(gl, f, f.fillLight);
    DrawSphere(gl, f);
  }

  method DrawMug(gl: Context, f: Frame)
    modifies gl
    ensures gl.trace == old(gl.trace) + FrameStartCommands + ObjectMatrixCommands(f)
                        + ObjectLightingCommands(f) + MugDrawCommands(f)
    ensures gl.state == MugPassResult(old(gl.state), f)
  {
    StartFrame(gl);
    SetObjectMatrices(gl, f);
    SetObjectLighting(gl, f);
    gl.Call(BindVertexArray(MainVertexArray));
    gl.Call(DrawElements(f.nIndices, 0));
  }

  method StartFrame(gl: Context)
    modifies gl
    ensures gl.trace == old(gl.trace) + FrameStartCommands
    ensures gl.state == old(gl.state).(depthTest := true, program := ObjectProgram)
  {
    gl.Call(EnableDepthTest);
    gl.Call(ClearColor(0.3, 0.0, 0.0, 0.0));
    gl.Call(Clear);
    gl.Call(UseProgram(ObjectProgram));
  }

  method SetObjectMatrices(gl: Context, f: Frame)
    requires gl.state.program == ObjectProgram
    modifies gl
    ensures gl.trace == old(gl.trace) + ObjectMatrixCommands(f)
    ensures gl.state == old(gl.state).(uniforms := ObjectMatrixValues(old(gl.state).uniforms, f))
  {
    SetObjectUniform(gl, Model, Matrix(ObjectModelMatrix));
    SetObjectUniform(gl, View, Matrix(CameraView));
    SetObjectUniform(gl, Projection, Matrix(ProjectionMatrix(f.ortho)));
  }

  method SetObjectLighting(gl: Context, f: Frame)
    requires gl.state.program == ObjectProgram
    modifies gl
    ensures gl.trace == old(gl.trace) + ObjectLightingCommands(f)
    ensures gl.state == old(gl.state).(uniforms := ObjectLightingValues(old(gl.state).uniforms, f))
  {
    SetInactiveUniform(gl, ObjectProgram, ObjectColor, Vector(ObjectColorValue));
    SetActiveLighting(gl, f);
  }

  method SetActiveLighting(gl: Context, f: Frame)
    requires gl.state.program == ObjectProgram
    modifies gl
    ensures gl.trace == old(gl.trace) + ActiveLightingCommands(f)
    ensures gl.state == old(gl.state).(uniforms := ObjectLightingValues(old(gl.state).uniforms, f))
  {
    SetObjectUniform(gl, LightColor, Vector(LightColorValue));
    SetObjectUniform(gl, LightPos, Vector(f.light));
    SetObjectUniform(gl, ViewPosition, Vector(f.camera));
    SetObjectUniform(gl, FillLightColor, Vector(FillLightColorValue));
    SetObjectUniform(gl, FillLightPos, Vector(f.fillLight));
    SetObjectUniform(gl, UVScale, UVScaleValue);
  }

  /** glUniform on a uniform its program does not have, objectColor here: the location is
      -1 and the call changes nothing. */
  method SetInactiveUniform(gl: Context, owner: Program, name: UniformName, v: Value)
    requires gl.state.program != NoProgram && !Active(owner, name)
    modifies gl
    ensures gl.trace == old(gl.trace) + [SetUniform(owner, name, v)]
    ensures gl.state == old(gl.state)
  {
    gl.Call(SetUniform(owner, name, v));
  }

  /** glUniform on an active uniform of the object program while that program is in
      use: the uniform takes the value. */
  method SetObjectUniform(gl: Context, name: UniformName, v: Value)
    requires gl.state.program == ObjectProgram && name != ObjectColor
    modifies gl
    ensures gl.trace == old(gl.trace) + [SetUniform(ObjectProgram, name, v)]
    ensures gl.state == old(gl.state).(uniforms := old(gl.state).uniforms[(ObjectProgram, name) := v])
  {
    gl.Call(SetUniform(ObjectProgram, name, v));
  }

  method DrawLamp(gl: Context, f: Frame, position: Vec3)
    modifies gl
    ensures gl.trace == old(gl.trace) + LampCommands(f, position)
    ensures gl.state == LampPassResult(old(gl.state), f, position)
  {
    gl.Call(UseProgram(LampProgram));
    gl.Call(SetUniform(LampProgram, Model, Matrix(TranslateScale(position, LampScale))));
    gl.Call(SetUniform(LampProgram, View, Matrix(CameraView)));
    gl.Call(SetUniform(LampProgram, Projection, Matrix(ProjectionMatrix(f.ortho))));
    gl.Call(DrawElements(f.nLightIndices, 0));
  }

  method DrawSphere(gl: Context, f: Frame)
    modifies gl
    ensures gl.trace == old(gl.trace) + SphereCommands(f)
    ensures gl.state == SpherePassResult(old(gl.state), f)
  {
    gl.Call(UseProgram(ObjectProgram));
    gl.Call(BindVertexArray(SphereVertexArray));
    gl.Call(SetUniform(ObjectProgram, Model, Matrix(SphereModelMatrix)));
    gl.Call(DrawElements(f.sphereNumIndices, f.sphereIndexByteOffset));
  }

  method EndFrame(gl: Context)
    modifies gl
    ensures gl.trace == old(gl.trace) + FrameEndCommands
    ensures gl.state == FrameEndResult(old(gl.state))
  {
    gl.Call(ActiveTexture(TextureTarget));
    gl.Call(BindTexture(MugTexture));
    gl.Call(BindVertexArray(NoVertexArray));
    gl.Call(UseProgram(NoProgram));
    gl.Call(SwapBuffers);
  }
}
