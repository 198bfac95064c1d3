/** URender with its texture bind as evidently intended: glActiveTexture(GL_TEXTURE0)
    and glBindTexture before the draws, so that every draw is issued with the mug's texture
    on unit 0, which the mug and sphere draws sample, and no call is rejected. The as-written frame (Render.FrameResult) instead calls
    glActiveTexture(GL_TEXTURE), which names a texture target rather than a unit, and
    binds the texture only after all four draws (main.cpp:619-621). */
module CorrectedRender {
  import opened Glm
  import opened GL
  import opened Scene
  import opened MeshBuffers
  import opened Render

  /** glActiveTexture(GL_TEXTURE0) and the bind, issued before the frame's draws. */
  const BindMugTextureCommands := [ActiveTexture(TextureUnit(0)), BindTexture(MugTexture)]

  /** The unbinds and the buffer swap (main.cpp:626-630). */
  const CorrectedFrameEndCommands := [BindVertexArray(NoVertexArray), UseProgram(NoProgram), SwapBuffers]

  function CorrectedFrameCommands(f: Frame): seq<Command> {
    BindMugTextureCommands + DrawCommands(f) + CorrectedFrameEndCommands
  }

  /** The corrected frame's calls: the texture bind first, then the as-written frame's
      calls up to the sphere's draw, then the unbinds and the swap. */
  lemma CorrectedFrameCalls(f: Frame)
    ensures var cs := CorrectedFrameCommands(f);
      && |cs| == 35 && cs[..2] == BindMugTextureCommands && cs[34] == SwapBuffers
      && cs[2..32] == FrameCommands(f)[..30]
  {
  }

  /** Running the corrected frame's calls from any state leaves CorrectedFrameResult. */
  lemma CorrectedFrameExec(s: State, f: Frame)
    ensures Exec(s, CorrectedFrameCommands(f)) == CorrectedFrameResult(s, f)
  {
    var b := BindMugTextureResult(s);
    ExecAppend(s, BindMugTextureCommands + DrawCommands(f), CorrectedFrameEndCommands);
    ExecAppend(s, BindMugTextureCommands, DrawCommands(f));
    ExecPair(s, ActiveTexture(TextureUnit(0)), BindTexture(MugTexture));
    DrawsExec(b, f);
    ExecTriple(DrawsResult(b, f), BindVertexArray(NoVertexArray), UseProgram(NoProgram), SwapBuffers);
  }

  /** After the bind: unit 0 active and holding the mug's texture. */
  function BindMugTextureResult(s: State): State {
    s.(activeUnit := 0, textures := s.textures[0 := MugTexture])
  }

  function CorrectedFrameEndResult(s: State): State {
    s.(vao := NoVertexArray, program := NoProgram, frames := s.frames + 1)
  }

  /** After one corrected frame: four draws more, no rejected call, one swap. */
  function CorrectedFrameResult(s: State, f: Frame): (t: State)
    ensures |t.draws| == |s.draws| + 4
    ensures t.errors == s.errors && t.misdirected == s.misdirected && t.frames == s.frames + 1
  {
    CorrectedFrameEndResult(DrawsResult(BindMugTextureResult(s), f))
  }

  /** The corrected frame draws what the as-written frame draws once the texture is
      bound, with the same uniforms, and raises no error. */
  lemma CorrectedFrameMatches(s: State, f: Frame)
    ensures var c := CorrectedFrameResult(s, f);
      var w := FrameResult(BindMugTextureResult(s), f);
      && c.draws == w.draws && c.uniforms == w.uniforms
      && TextureOn(BindMugTextureResult(s), 0) == MugTexture
      && c.activeUnit == 0 && TextureOn(c, 0) == MugTexture
      && c.errors == s.errors && c.misdirected == s.misdirected && c.frames == s.frames + 1
  {
  }

  /** What k corrected frames after start-up have left: four draws a frame, every one
      issued with the mug's texture on unit 0 and every object-program draw sampling it
      there, and no rejected call. */
  predicate CorrectedSessionShape(t: State, k: nat) {
    && |t.draws| == 4 * k
    && (forall i :: 0 <= i < |t.draws| ==> t.draws[i].texture == MugTexture)
    && (forall i :: 0 <= i < |t.draws| && t.draws[i].program == ObjectProgram ==>
          Sees(t.draws[i], UTexture, Sampler(0)))
    && (ObjectProgram, UTexture) in t.uniforms && t.uniforms[(ObjectProgram, UTexture)] == Sampler(0)
    && t.activeUnit == 0
    && t.errors == 0 && t.misdirected == 0 && t.frames == k
  }

  lemma CorrectedFrameKeepsShape(s: State, f: Frame, k: nat)
    requires CorrectedSessionShape(s, k)
    ensures CorrectedSessionShape(CorrectedFrameResult(s, f), k + 1)
  {
    var b := BindMugTextureResult(s);
    var t := CorrectedFrameResult(s, f);
    var n := |s.draws|;
    CorrectedFrameMatches(s, f);
    FrameNewDraws(b, f);
    FrameSampler(b, f);
    FrameEnd(b, f);
    forall i | 0 <= i < |t.draws|
      ensures t.draws[i].texture == MugTexture
      ensures t.draws[i].program == ObjectProgram ==> Sees(t.draws[i], UTexture, Sampler(0))
    {
      if i < n {
        assert t.draws[..n][i] == t.draws[i];
      }
    }
  }

  /** The context after the corrected frames fs, in order, starting from s. */
  function AfterCorrectedFrames(s: State, fs: seq<Frame>): (t: State)
    ensures |t.draws| == |s.draws| + 4 * |fs|
    ensures t.errors == s.errors && t.frames == s.frames + |fs|
    decreases |fs|
  {
    if fs == [] then s else CorrectedFrameResult(AfterCorrectedFrames(s, fs[..|fs| - 1]), fs[|fs| - 1])
  }

  /** From start-up through the corrected frames fs, every draw, the first frame's
      included, is issued with the mug's texture on unit 0, which the mug and sphere
      draws sample, and no call is rejected. */
  lemma {:induction false} CorrectedSession(fs: seq<Frame>)
    ensures CorrectedSessionShape(AfterCorrectedFrames(Exec(Fresh, StartupCommands), fs), |fs|)
    decreases |fs|
  {
    if fs == [] {
      StartupState();
    } else {
      CorrectedSession(fs[..|fs| - 1]);
      CorrectedFrameKeepsShape(AfterCorrectedFrames(Exec(Fresh, StartupCommands), fs[..|fs| - 1]),
                               fs[|fs| - 1], |fs| - 1);
    }
  }

  /** URender with the corrected texture bind. */
  method CorrectedRenderFrame(gl: Context, scene: SceneState, mesh: GLMesh, spin: Rotation, camera: Vec3)
    modifies gl, scene
    ensures scene.lightPosition == Orbit(old(scene.lampOrbiting), spin, old(scene.lightPosition))
    ensures scene.fillLightPosition == Orbit(old(scene.lampOrbiting), spin, old(scene.fillLightPosition))
    ensures scene.Flags() == old(scene.Flags())
    ensures gl.trace == old(gl.trace) + CorrectedFrameCommands(CurrentFrame(scene, mesh, camera))
    ensures gl.state == CorrectedFrameResult(old(gl.state), CurrentFrame(scene, mesh, camera))
  {
    scene.OrbitLamps(spin);
    IssueCorrectedFrame(gl, CurrentFrame(scene, mesh, camera));
  }

  /** The calls of one corrected frame. */
  method IssueCorrectedFrame(gl: Context, f: Frame)
    modifies gl
    ensures gl.trace == old(gl.trace) + CorrectedFrameCommands(f)
    ensures gl.state == CorrectedFrameResult(old(gl.state), f)
  {
    BindMugTexture(gl);
    IssueDraws(gl, f);
    CorrectedEndFrame(gl);
  }

  method BindMugTexture(gl: Context)
    modifies gl
    ensures gl.trace == old(gl.trace) + BindMugTextureCommands
    ensures gl.state == BindMugTextureResult(old(gl.state))
  {
    gl.Call(ActiveTexture(TextureUnit(0)));
    gl.Call(BindTexture(MugTexture));
  }

  method CorrectedEndFrame(gl: Context)
    modifies gl
    ensures gl.trace == old(gl.trace) + CorrectedFrameEndCommands
    ensures gl.state == CorrectedFrameEndResult(old(gl.state))
  {
    gl.Call(BindVertexArray(NoVertexArray));
    gl.Call(UseProgram(NoProgram));
    gl.Call(SwapBuffers);
  }
}
