/** The light rig of Light.h / Light.cpp: the light collections, the edge-triggered
    toggles on keys 1, 2 and 3, and the uniform writes that bind or neutralise each
    light category in the lighting program. The writes of each operation are given
    twice: as the list the C++ loops issue, and as a declarative description of
    the resulting uniform values; a lemma ties the two together. */
module LightRig {
  import opened Glm
  import opened Wrappers
  import opened ShaderUniforms
  import opened LightMarker

  datatype PointLight = PointLight(
    position: Vec3, color: Vec3, ambient: Vec3, diffuse: Vec3, specular: Vec3,
    attenuationConstant: real, attenuationLinear: real, attenuationExponent: real)

  datatype DirectionalLight = DirectionalLight(direction: Vec3, ambient: Vec3, diffuse: Vec3, specular: Vec3)

  /** cutOff and outerCutOff hold the cone half-angles in degrees; the C++ struct
      stores cos(radians(angle)), which is what Cosine(angle) stands for. */
  datatype SpotLight = SpotLight(
    position: Vec3, direction: Vec3, cutOff: real, outerCutOff: real,
    ambient: Vec3, diffuse: Vec3, specular: Vec3)

  // ---- The write lists ----

  /** The members of pointLights[i] in the order RenderPointLights writes them. */
  const PointFields: seq<Field> := [Position, Color, Ambient, Diffuse, Specular,
                                    AttenuationConstant, AttenuationLinear, AttenuationExponent]
  /** The members of spotLights[i] in the order RenderSpotlights writes them. */
  const SpotFields: seq<Field> := [Position, Direction, Ambient, Diffuse, Specular, CutOff, OuterCutOff]
  /** The members of dirLight in the order RenderDirectionalLight writes them. */
  const DirFields: seq<Field> := [Direction, Ambient, Diffuse, Specular]
  /** What DisablePointLights and DisableDirectionalLight zero. */
  const LightingTerms: seq<Field> := [Ambient, Diffuse, Specular]
  /** What DisableSpotlights zeroes. */
  const SpotZeroed: seq<Field> := [Diffuse, Specular]

  function PointValue(l: PointLight, f: Field): Value
    requires f in PointFields
  {
    match f
    case Position => Vec(l.position)
    case Color => Vec(l.color)
    case Ambient => Vec(l.ambient)
    case Diffuse => Vec(l.diffuse)
    case Specular => Vec(l.specular)
    case AttenuationConstant => Float(l.attenuationConstant)
    case AttenuationLinear => Float(l.attenuationLinear)
    case AttenuationExponent => Float(l.attenuationExponent)
  }

  function SpotValue(l: SpotLight, f: Field): Value
    requires f in SpotFields
  {
    match f
    case Position => Vec(l.position)
    case Direction => Vec(l.direction)
    case Ambient => Vec(l.ambient)
    case Diffuse => Vec(l.diffuse)
    case Specular => Vec(l.specular)
    case CutOff => Cosine(l.cutOff)
    case OuterCutOff => Cosine(l.outerCutOff)
  }

  function DirValue(d: DirectionalLight, f: Field): Value
    requires f in DirFields
  {
    match f
    case Direction => Vec(d.direction)
    case Ambient => Vec(d.ambient)
    case Diffuse => Vec(d.diffuse)
    case Specular => Vec(d.specular)
  }

  /** One iteration of the loop in RenderPointLights. */
  function PointLightWrites(i: nat, l: PointLight): Writes {
    seq(|PointFields|, k requires 0 <= k < |PointFields| => (PointLightField(i, PointFields[k]), PointValue(l, PointFields[k])))
  }

  /** One loop iteration of RenderPointLights written out in source order. */
  lemma PointLightWritesInOrder(i: nat, l: PointLight)
    ensures PointLightWrites(i, l) == [
            (PointLightField(i, Position), Vec(l.position)), (PointLightField(i, Color), Vec(l.color)),
            (PointLightField(i, Ambient), Vec(l.ambient)), (PointLightField(i, Diffuse), Vec(l.diffuse)),
            (PointLightField(i, Specular), Vec(l.specular)),
            (PointLightField(i, AttenuationConstant), Float(l.attenuationConstant)),
            (PointLightField(i, AttenuationLinear), Float(l.attenuationLinear)),
            (PointLightField(i, AttenuationExponent), Float(l.attenuationExponent))]
  {
  }

  /** The first n iterations of the loop in RenderPointLights. */
  function PointLoopWrites(ls: seq<PointLight>, n: nat): Writes
    requires n <= |ls|
  {
    if n == 0 then [] else PointLoopWrites(ls, n - 1) + PointLightWrites(n - 1, ls[n - 1])
  }

  /** Everything RenderPointLights writes when point lights are enabled. */
  function RenderPointWrites(ls: seq<PointLight>): Writes {
    PointLoopWrites(ls, |ls|) + [(PointLightCount, Int(|ls|)), (IsPointLightsEnable, BoolValue(true))]
  }

  function PointZeroWrites(i: nat): Writes {
    seq(|LightingTerms|, k requires 0 <= k < |LightingTerms| => (PointLightField(i, LightingTerms[k]), Vec(Zero)))
  }

  function PointZeroLoopWrites(n: nat): Writes {
    if n == 0 then [] else PointZeroLoopWrites(n - 1) + PointZeroWrites(n - 1)
  }

  /** Everything DisablePointLights writes for n point lights. */
  function DisablePointWrites(n: nat): Writes { PointZeroLoopWrites(n) }

  /** RenderDirectionalLight: the enable flag first, then the four members. */
  function RenderDirWrites(d: DirectionalLight): Writes {
    [(IsDirectionalLightEnable, BoolValue(true))]
    + seq(|DirFields|, k requires 0 <= k < |DirFields| => (DirLightField(DirFields[k]), DirValue(d, DirFields[k])))
  }

  function DisableDirWrites(): Writes {
    seq(|LightingTerms|, k requires 0 <= k < |LightingTerms| => (DirLightField(LightingTerms[k]), Vec(Zero)))
  }

  /** One iteration of the loop in RenderSpotlights: the enable flag is written inside the loop. */
  function SpotLightWrites(i: nat, l: SpotLight): Writes {
    [(IsSpotLightsEnable, BoolValue(true))]
    + seq(|SpotFields|, k requires 0 <= k < |SpotFields| => (SpotLightField(i, SpotFields[k]), SpotValue(l, SpotFields[k])))
  }

  function SpotLoopWrites(ls: seq<SpotLight>, n: nat): Writes
    requires n <= |ls|
  {
    if n == 0 then [] else SpotLoopWrites(ls, n - 1) + SpotLightWrites(n - 1, ls[n - 1])
  }

  /** Everything RenderSpotlights writes when spotlights are enabled: the count, then the loop. */
  function RenderSpotWrites(ls: seq<SpotLight>): Writes {
    [(SpotLightCount, Int(|ls|))] + SpotLoopWrites(ls, |ls|)
  }

  function SpotZeroWrites(i: nat): Writes {
    seq(|SpotZeroed|, k requires 0 <= k < |SpotZeroed| => (SpotLightField(i, SpotZeroed[k]), Vec(Zero)))
  }

  function SpotZeroLoopWrites(n: nat): Writes {
    if n == 0 then [] else SpotZeroLoopWrites(n - 1) + SpotZeroWrites(n - 1)
  }

  /** Everything DisableSpotlights writes for n spotlights: the count 0, then the loop. */
  function DisableSpotWrites(n: nat): Writes {
    [(SpotLightCount, Int(0))] + SpotZeroLoopWrites(n)
  }

  /** RenderRimLight: only the flag; the RimStrength, RimPower and RimLightColor lookups write nothing. */
  function RimWrites(rim: bool): Writes {
    [(IsRimLightEnable, BoolValue(rim))]
  }

  lemma PointZeroWritesInOrder(i: nat)
    ensures PointZeroWrites(i) == [(PointLightField(i, Ambient), Vec(Zero)), (PointLightField(i, Diffuse), Vec(Zero)),
                                   (PointLightField(i, Specular), Vec(Zero))]
  {
  }

  lemma DirWritesInOrder(d: DirectionalLight)
    ensures RenderDirWrites(d) == [(IsDirectionalLightEnable, Int(1)), (DirLightField(Direction), Vec(d.direction)),
                                   (DirLightField(Ambient), Vec(d.ambient)), (DirLightField(Diffuse), Vec(d.diffuse)),
                                   (DirLightField(Specular), Vec(d.specular))]
    ensures DisableDirWrites() == [(DirLightField(Ambient), Vec(Zero)), (DirLightField(Diffuse), Vec(Zero)),
                                   (DirLightField(Specular), Vec(Zero))]
  {
  }

  lemma SpotLightWritesInOrder(i: nat, l: SpotLight)
    ensures SpotLightWrites(i, l) == [
      (IsSpotLightsEnable, Int(1)),
      (SpotLightField(i, Position), Vec(l.position)), (SpotLightField(i, Direction), Vec(l.direction)),
      (SpotLightField(i, Ambient), Vec(l.ambient)), (SpotLightField(i, Diffuse), Vec(l.diffuse)),
      (SpotLightField(i, Specular), Vec(l.specular)),
      (SpotLightField(i, CutOff), Cosine(l.cutOff)), (SpotLightField(i, OuterCutOff), Cosine(l.outerCutOff))]
  {
  }

  lemma SpotZeroWritesInOrder(i: nat)
    ensures SpotZeroWrites(i) == [(SpotLightField(i, Diffuse), Vec(Zero)), (SpotLightField(i, Specular), Vec(Zero))]
  {
  }

  // ---- Declarative descriptions of the effect of each list ----

  /** After RenderPointLights: every member of every point light, the count and the flag. */
  function PointRenderSpec(ls: seq<PointLight>, u: Uniform): Option<Value> {
    match u
    case PointLightField(i, f) => if i < |ls| && f in PointFields then Some(PointValue(ls[i], f)) else None
    case PointLightCount => Some(Int(|ls|))
    case IsPointLightsEnable => Some(BoolValue(true))
    case _ => None
  }

  /** After DisablePointLights: ambient, diffuse and specular of each point light are zero. */
  function PointDisableSpec(n: nat, u: Uniform): Option<Value> {
    if u.PointLightField? && u.index < n && u.field in LightingTerms then Some(Vec(Zero)) else None
  }

  function DirRenderSpec(d: DirectionalLight, u: Uniform): Option<Value> {
    match u
    case DirLightField(f) => if f in DirFields then Some(DirValue(d, f)) else None
    case IsDirectionalLightEnable => Some(BoolValue(true))
    case _ => None
  }

  function DirDisableSpec(u: Uniform): Option<Value> {
    if u.DirLightField? && u.field in LightingTerms then Some(Vec(Zero)) else None
  }

  /** After RenderSpotlights: the count, every member of every spotlight, and the
      flag, which is written only if there is at least one spotlight. */
  function SpotRenderSpec(ls: seq<SpotLight>, u: Uniform): Option<Value> {
    match u
    case SpotLightField(i, f) => if i < |ls| && f in SpotFields then Some(SpotValue(ls[i], f)) else None
    case SpotLightCount => Some(Int(|ls|))
    case IsSpotLightsEnable => if |ls| > 0 then Some(BoolValue(true)) else None
    case _ => None
  }

  /** After DisableSpotlights: the count is 0, diffuse and specular of each spotlight are zero. */
  function SpotDisableSpec(n: nat, u: Uniform): Option<Value> {
    match u
    case SpotLightField(i, f) => if i < n && f in SpotZeroed then Some(Vec(Zero)) else None
    case SpotLightCount => Some(Int(0))
    case _ => None
  }

  function RimSpec(rim: bool, u: Uniform): Option<Value> {
    if u == IsRimLightEnable then Some(BoolValue(rim)) else None
  }

  // ---- Each list realizes its description ----

  /** The uniforms the first n iterations of RenderPointLights' loop have set. */
  function PointLoopSpec(ls: seq<PointLight>, n: nat, u: Uniform): Option<Value>
    requires n <= |ls|
  {
    if u.PointLightField? && u.index < n && u.field in PointFields then Some(PointValue(ls[u.index], u.field)) else None
  }

  /** The uniforms one iteration of RenderPointLights' loop sets. */
  function PointBlockSpec(i: nat, l: PointLight, u: Uniform): Option<Value> {
    if u.PointLightField? && u.index == i && u.field in PointFields then Some(PointValue(l, u.field)) else None
  }

  lemma PointBlockRealizes(i: nat, l: PointLight)
    ensures Realizes(PointLightWrites(i, l), u => PointBlockSpec(i, l, u))
  {
    var block := PointLightWrites(i, l);
    forall u | PointBlockSpec(i, l, u).Some? ensures Targets(block, u) {
      var k :| 0 <= k < |PointFields| && PointFields[k] == u.field;
      assert block[k].0 == u;
    }
  }

  lemma {:induction false} PointLoopRealizes(ls: seq<PointLight>, n: nat)
    requires n <= |ls|
    ensures Realizes(PointLoopWrites(ls, n), u => PointLoopSpec(ls, n, u))
  {
    if n > 0 {
      PointLoopRealizes(ls, n - 1);
      PointBlockRealizes(n - 1, ls[n - 1]);
      RealizesConcat(PointLoopWrites(ls, n - 1), PointLightWrites(n - 1, ls[n - 1]),
        u => PointLoopSpec(ls, n - 1, u), u => PointBlockSpec(n - 1, ls[n - 1], u), u => PointLoopSpec(ls, n, u));
    }
  }

  lemma RenderPointRealizes(ls: seq<PointLight>)
    ensures Realizes(RenderPointWrites(ls), u => PointRenderSpec(ls, u))
  {
    PointLoopRealizes(ls, |ls|);
    var tail := [(PointLightCount, Int(|ls|)), (IsPointLightsEnable, BoolValue(true))];
    var st := (u: Uniform) => if u == PointLightCount then Some(Int(|ls|)) else if u == IsPointLightsEnable then Some(BoolValue(true)) else None;
    assert tail[0].0 == PointLightCount && tail[1].0 == IsPointLightsEnable;
    assert Realizes(tail, st);
    RealizesConcat(PointLoopWrites(ls, |ls|), tail, u => PointLoopSpec(ls, |ls|, u), st, u => PointRenderSpec(ls, u));
  }

  function PointZeroLoopSpec(n: nat, u: Uniform): Option<Value> {
    if u.PointLightField? && u.index < n && u.field in LightingTerms then Some(Vec(Zero)) else None
  }

  lemma {:induction false} PointZeroLoopRealizes(n: nat)
    ensures Realizes(PointZeroLoopWrites(n), u => PointZeroLoopSpec(n, u))
  {
    if n > 0 {
      PointZeroLoopRealizes(n - 1);
      var block := PointZeroWrites(n - 1);
      var sb := (u: Uniform) => if u.PointLightField? && u.index == n - 1 && u.field in LightingTerms then Some(Vec(Zero)) else None;
      forall u | sb(u).Some? ensures Targets(block, u) {
        var k :| 0 <= k < |LightingTerms| && LightingTerms[k] == u.field;
        assert block[k].0 == u;
      }
      RealizesConcat(PointZeroLoopWrites(n - 1), block, u => PointZeroLoopSpec(n - 1, u), sb, u => PointZeroLoopSpec(n, u));
    }
  }

  lemma DisablePointRealizes(n: nat)
    ensures Realizes(DisablePointWrites(n), u => PointDisableSpec(n, u))
  {
    PointZeroLoopRealizes(n);
  }

  lemma RenderDirRealizes(d: DirectionalLight)
    ensures Realizes(RenderDirWrites(d), u => DirRenderSpec(d, u))
  {
    var ws := RenderDirWrites(d);
    forall u | DirRenderSpec(d, u).Some? ensures Targets(ws, u) {
      if u == IsDirectionalLightEnable {
        assert ws[0].0 == u;
      } else {
        var k :| 0 <= k < |DirFields| && DirFields[k] == u.field;
        assert ws[k + 1].0 == u;
      }
    }
  }

  lemma DisableDirRealizes()
    ensures Realizes(DisableDirWrites(), u => DirDisableSpec(u))
  {
    var ws := DisableDirWrites();
    forall u | DirDisableSpec(u).Some? ensures Targets(ws, u) {
      var k :| 0 <= k < |LightingTerms| && LightingTerms[k] == u.field;
      assert ws[k].0 == u;
    }
  }

  /** The uniforms the first n iterations of RenderSpotlights' loop have set. */
  function SpotLoopSpec(ls: seq<SpotLight>, n: nat, u: Uniform): Option<Value>
    requires n <= |ls|
  {
    match u
    case SpotLightField(i, f) => if i < n && f in SpotFields then Some(SpotValue(ls[i], f)) else None
    case IsSpotLightsEnable => if n > 0 then Some(BoolValue(true)) else None
    case _ => None
  }

  function SpotBlockSpec(i: nat, l: SpotLight, u: Uniform): Option<Value> {
    match u
    case SpotLightField(j, f) => if j == i && f in SpotFields then Some(SpotValue(l, f)) else None
    case IsSpotLightsEnable => Some(BoolValue(true))
    case _ => None
  }

  lemma SpotBlockRealizes(i: nat, l: SpotLight)
    ensures Realizes(SpotLightWrites(i, l), u => SpotBlockSpec(i, l, u))
  {
    var ws := SpotLightWrites(i, l);
    forall u | SpotBlockSpec(i, l, u).Some? ensures Targets(ws, u) {
      if u == IsSpotLightsEnable {
        assert ws[0].0 == u;
      } else {
        var k :| 0 <= k < |SpotFields| && SpotFields[k] == u.field;
        assert ws[k + 1].0 == u;
      }
    }
  }

  lemma {:induction false} SpotLoopRealizes(ls: seq<SpotLight>, n: nat)
    requires n <= |ls|
    ensures Realizes(SpotLoopWrites(ls, n), u => SpotLoopSpec(ls, n, u))
  {
    if n > 0 {
      SpotLoopRealizes(ls, n - 1);
      SpotBlockRealizes(n - 1, ls[n - 1]);
      RealizesConcat(SpotLoopWrites(ls, n - 1), SpotLightWrites(n - 1, ls[n - 1]),
        u => SpotLoopSpec(ls, n - 1, u), u => SpotBlockSpec(n - 1, ls[n - 1], u), u => SpotLoopSpec(ls, n, u));
    }
  }

  lemma RenderSpotRealizes(ls: seq<SpotLight>)
    ensures Realizes(RenderSpotWrites(ls), u => SpotRenderSpec(ls, u))
  {
    SpotLoopRealizes(ls, |ls|);
    var head := [(SpotLightCount, Int(|ls|))];
    var sh := (u: Uniform) => if u == SpotLightCount then Some(Int(|ls|)) else None;
    assert head[0].0 == SpotLightCount;
    RealizesConcat(head, SpotLoopWrites(ls, |ls|), sh, u => SpotLoopSpec(ls, |ls|, u), u => SpotRenderSpec(ls, u));
  }

  function SpotZeroLoopSpec(n: nat, u: Uniform): Option<Value> {
    if u.SpotLightField? && u.index < n && u.field in SpotZeroed then Some(Vec(Zero)) else None
  }

  lemma {:induction false} SpotZeroLoopRealizes(n: nat)
    ensures Realizes(SpotZeroLoopWrites(n), u => SpotZeroLoopSpec(n, u))
  {
    if n > 0 {
      SpotZeroLoopRealizes(n - 1);
      var block := SpotZeroWrites(n - 1);
      var sb := (u: Uniform) => if u.SpotLightField? && u.index == n - 1 && u.field in SpotZeroed then Some(Vec(Zero)) else None;
      forall u | sb(u).Some? ensures Targets(block, u) {
        var k :| 0 <= k < |SpotZeroed| && SpotZeroed[k] == u.field;
        assert block[k].0 == u;
      }
      RealizesConcat(SpotZeroLoopWrites(n - 1), block, u => SpotZeroLoopSpec(n - 1, u), sb, u => SpotZeroLoopSpec(n, u));
    }
  }

  lemma DisableSpotRealizes(n: nat)
    ensures Realizes(DisableSpotWrites(n), u => SpotDisableSpec(n, u))
  {
    SpotZeroLoopRealizes(n);
    var head := [(SpotLightCount, Int(0))];
    var sh := (u: Uniform) => if u == SpotLightCount then Some(Int(0)) else None;
    assert head[0].0 == SpotLightCount;
    RealizesConcat(head, SpotZeroLoopWrites(n), sh, u => SpotZeroLoopSpec(n, u), u => SpotDisableSpec(n, u));
  }

  lemma RimRealizes(rim: bool)
    ensures Realizes(RimWrites(rim), u => RimSpec(rim, u))
  {
    assert RimWrites(rim)[0].0 == IsRimLightEnable;
  }

  // ---- One frame of Main's lighting dispatch ----

  /** The enable flags that decide which branch of each category a frame takes. */
  datatype Switches = Switches(point: bool, directional: bool, spot: bool, rim: bool)

  /** The point-light branch of a frame. */
  function PointStepWrites(pts: seq<PointLight>, on: bool): Writes {
    if on then RenderPointWrites(pts) else DisablePointWrites(|pts|)
  }

  /** The directional branch of a frame. */
  function DirStepWrites(d: DirectionalLight, on: bool): Writes {
    if on then RenderDirWrites(d) else DisableDirWrites()
  }

  /** The spotlight branch of a frame. */
  function SpotStepWrites(spots: seq<SpotLight>, on: bool): Writes {
    if on then RenderSpotWrites(spots) else DisableSpotWrites(|spots|)
  }

  /** What one frame writes: Render or Disable for each category, then the rim flag. */
  function FrameWrites(pts: seq<PointLight>, d: DirectionalLight, spots: seq<SpotLight>, s: Switches): Writes {
    PointStepWrites(pts, s.point) + DirStepWrites(d, s.directional) + SpotStepWrites(spots, s.spot) + RimWrites(s.rim)
  }

  predicate IsPointUniform(u: Uniform) { u.PointLightField? || u == PointLightCount || u == IsPointLightsEnable }
  predicate IsDirUniform(u: Uniform) { u.DirLightField? || u == IsDirectionalLightEnable }
  predicate IsSpotUniform(u: Uniform) { u.SpotLightField? || u == SpotLightCount || u == IsSpotLightsEnable }

  function PointSpec(pts: seq<PointLight>, on: bool, u: Uniform): (r: Option<Value>)
    ensures r.Some? ==> IsPointUniform(u)
  {
    if on then PointRenderSpec(pts, u) else PointDisableSpec(|pts|, u)
  }

  function DirSpec(d: DirectionalLight, on: bool, u: Uniform): (r: Option<Value>)
    ensures r.Some? ==> IsDirUniform(u)
  {
    if on then DirRenderSpec(d, u) else DirDisableSpec(u)
  }

  function SpotSpec(spots: seq<SpotLight>, on: bool, u: Uniform): (r: Option<Value>)
    ensures r.Some? ==> IsSpotUniform(u)
  {
    if on then SpotRenderSpec(spots, u) else SpotDisableSpec(|spots|, u)
  }

  /** The uniform values a frame leaves behind, category by category. */
  function FrameSpec(pts: seq<PointLight>, d: DirectionalLight, spots: seq<SpotLight>, s: Switches, u: Uniform): Option<Value> {
    if IsPointUniform(u) then PointSpec(pts, s.point, u)
    else if IsDirUniform(u) then DirSpec(d, s.directional, u)
    else if IsSpotUniform(u) then SpotSpec(spots, s.spot, u)
    else RimSpec(s.rim, u)
  }

  /** What the point and directional steps of a frame leave behind. */
  function PointDirSpec(pts: seq<PointLight>, d: DirectionalLight, s: Switches, u: Uniform): Option<Value> {
    if IsPointUniform(u) then PointSpec(pts, s.point, u) else DirSpec(d, s.directional, u)
  }

  /** What the point, directional and spot steps of a frame leave behind. */
  function LitSpec(pts: seq<PointLight>, d: DirectionalLight, spots: seq<SpotLight>, s: Switches, u: Uniform): Option<Value> {
    if IsPointUniform(u) || IsDirUniform(u) then PointDirSpec(pts, d, s, u) else SpotSpec(spots, s.spot, u)
  }

  lemma PointDirRealizes(pts: seq<PointLight>, d: DirectionalLight, s: Switches)
    ensures Realizes(PointStepWrites(pts, s.point)
                     + DirStepWrites(d, s.directional),
                     u => PointDirSpec(pts, d, s, u))
  {
    if s.point { RenderPointRealizes(pts); } else { DisablePointRealizes(|pts|); }
    if s.directional { RenderDirRealizes(d); } else { DisableDirRealizes(); }
    RealizesConcat(PointStepWrites(pts, s.point),
                   DirStepWrites(d, s.directional),
                   u => PointSpec(pts, s.point, u), u => DirSpec(d, s.directional, u), u => PointDirSpec(pts, d, s, u));
  }

  lemma LitRealizes(pts: seq<PointLight>, d: DirectionalLight, spots: seq<SpotLight>, s: Switches)
    ensures Realizes(PointStepWrites(pts, s.point)
                     + DirStepWrites(d, s.directional)
                     + SpotStepWrites(spots, s.spot),
                     u => LitSpec(pts, d, spots, s, u))
  {
    PointDirRealizes(pts, d, s);
    if s.spot { RenderSpotRealizes(spots); } else { DisableSpotRealizes(|spots|); }
    RealizesConcat(PointStepWrites(pts, s.point)
                   + DirStepWrites(d, s.directional),
                   SpotStepWrites(spots, s.spot),
                   u => PointDirSpec(pts, d, s, u), u => SpotSpec(spots, s.spot, u), u => LitSpec(pts, d, spots, s, u));
  }

  lemma FrameRealizes(pts: seq<PointLight>, d: DirectionalLight, spots: seq<SpotLight>, s: Switches)
    ensures Realizes(FrameWrites(pts, d, spots, s), u => FrameSpec(pts, d, spots, s, u))
  {
    LitRealizes(pts, d, spots, s);
    RimRealizes(s.rim);
    RealizesConcat(PointStepWrites(pts, s.point)
                   + DirStepWrites(d, s.directional)
                   + SpotStepWrites(spots, s.spot),
                   RimWrites(s.rim),
                   u => LitSpec(pts, d, spots, s, u), u => RimSpec(s.rim, u), u => FrameSpec(pts, d, spots, s, u));
  }

  // ---- The effect of each operation on a program's uniform table ----

  /** RenderPointLights with the flag on: every member of every point light, the
      count and the flag take the rig's values, where the program declares them;
      every other uniform keeps its value; no uniform appears or disappears. */
  lemma RenderPointEffect(t: Table, ls: seq<PointLight>)
    ensures Apply(t, RenderPointWrites(ls)).Keys == t.Keys
    ensures forall i: nat, f :: PointLightField(i, f) in t && i < |ls| && f in PointFields ==>
              Apply(t, RenderPointWrites(ls))[PointLightField(i, f)] == PointValue(ls[i], f)
    ensures PointLightCount in t ==> Apply(t, RenderPointWrites(ls))[PointLightCount] == Int(|ls|)
    ensures IsPointLightsEnable in t ==> Apply(t, RenderPointWrites(ls))[IsPointLightsEnable] == Int(1)
    ensures forall u :: u in t && !u.PointLightField? && u != PointLightCount && u != IsPointLightsEnable ==>
              Apply(t, RenderPointWrites(ls))[u] == t[u]
  {
    RenderPointRealizes(ls);
    ApplyRealizes(t, RenderPointWrites(ls), u => PointRenderSpec(ls, u));
  }

  /** DisablePointLights zeroes ambient, diffuse and specular of each of the n
      point lights; position, colour, attenuation and every other uniform keep their values. */
  lemma DisablePointEffect(t: Table, n: nat)
    ensures Apply(t, DisablePointWrites(n)).Keys == t.Keys
    ensures forall i: nat, f :: PointLightField(i, f) in t && i < n && f in LightingTerms ==>
              Apply(t, DisablePointWrites(n))[PointLightField(i, f)] == Vec(Zero)
    ensures forall u :: u in t && !(u.PointLightField? && u.index < n && u.field in LightingTerms) ==>
              Apply(t, DisablePointWrites(n))[u] == t[u]
  {
    DisablePointRealizes(n);
    ApplyRealizes(t, DisablePointWrites(n), u => PointDisableSpec(n, u));
  }

  /** RenderDirectionalLight with the flag on: the flag and the four members of dirLight. */
  lemma RenderDirEffect(t: Table, d: DirectionalLight)
    ensures Apply(t, RenderDirWrites(d)).Keys == t.Keys
    ensures forall f :: DirLightField(f) in t && f in DirFields ==> Apply(t, RenderDirWrites(d))[DirLightField(f)] == DirValue(d, f)
    ensures IsDirectionalLightEnable in t ==> Apply(t, RenderDirWrites(d))[IsDirectionalLightEnable] == Int(1)
    ensures forall u :: u in t && !u.DirLightField? && u != IsDirectionalLightEnable ==> Apply(t, RenderDirWrites(d))[u] == t[u]
  {
    RenderDirRealizes(d);
    ApplyRealizes(t, RenderDirWrites(d), u => DirRenderSpec(d, u));
  }

  /** DisableDirectionalLight zeroes ambient, diffuse and specular; the direction and everything else keep their values. */
  lemma DisableDirEffect(t: Table)
    ensures Apply(t, DisableDirWrites()).Keys == t.Keys
    ensures forall f :: DirLightField(f) in t && f in LightingTerms ==> Apply(t, DisableDirWrites())[DirLightField(f)] == Vec(Zero)
    ensures DirLightField(Direction) in t ==> Apply(t, DisableDirWrites())[DirLightField(Direction)] == t[DirLightField(Direction)]
    ensures forall u :: u in t && !(u.DirLightField? && u.field in LightingTerms) ==> Apply(t, DisableDirWrites())[u] == t[u]
  {
    DisableDirRealizes();
    ApplyRealizes(t, DisableDirWrites(), u => DirDisableSpec(u));
  }

  /** RenderSpotlights with the flag on: the count, every member of every spotlight,
      and the flag when there is at least one spotlight. */
  lemma RenderSpotEffect(t: Table, ls: seq<SpotLight>)
    ensures Apply(t, RenderSpotWrites(ls)).Keys == t.Keys
    ensures forall i: nat, f :: SpotLightField(i, f) in t && i < |ls| && f in SpotFields ==>
              Apply(t, RenderSpotWrites(ls))[SpotLightField(i, f)] == SpotValue(ls[i], f)
    ensures SpotLightCount in t ==> Apply(t, RenderSpotWrites(ls))[SpotLightCount] == Int(|ls|)
    ensures IsSpotLightsEnable in t ==>
              Apply(t, RenderSpotWrites(ls))[IsSpotLightsEnable] == (if |ls| > 0 then Int(1) else t[IsSpotLightsEnable])
    ensures forall u :: u in t && !u.SpotLightField? && u != SpotLightCount && u != IsSpotLightsEnable ==>
              Apply(t, RenderSpotWrites(ls))[u] == t[u]
  {
    RenderSpotRealizes(ls);
    ApplyRealizes(t, RenderSpotWrites(ls), u => SpotRenderSpec(ls, u));
  }

  /** DisableSpotlights sets the count to 0 and zeroes only diffuse and specular of
      each of the n spotlights: ambient, position, direction, the cutoffs and the
      flag keep their values. */
  lemma DisableSpotEffect(t: Table, n: nat)
    ensures Apply(t, DisableSpotWrites(n)).Keys == t.Keys
    ensures SpotLightCount in t ==> Apply(t, DisableSpotWrites(n))[SpotLightCount] == Int(0)
    ensures forall i: nat, f :: SpotLightField(i, f) in t && i < n && f in SpotZeroed ==>
              Apply(t, DisableSpotWrites(n))[SpotLightField(i, f)] == Vec(Zero)
    ensures forall i: nat, f :: SpotLightField(i, f) in t && f !in SpotZeroed ==>
              Apply(t, DisableSpotWrites(n))[SpotLightField(i, f)] == t[SpotLightField(i, f)]
    ensures forall u :: u in t && !u.SpotLightField? && u != SpotLightCount ==> Apply(t, DisableSpotWrites(n))[u] == t[u]
  {
    DisableSpotRealizes(n);
    ApplyRealizes(t, DisableSpotWrites(n), u => SpotDisableSpec(n, u));
  }

  /** A whole frame: each category ends as its own Render or Disable leaves it,
      whatever the other categories wrote, and the rim flag is the rig's. */
  lemma FrameEffect(t: Table, pts: seq<PointLight>, d: DirectionalLight, spots: seq<SpotLight>, s: Switches)
    ensures Apply(t, FrameWrites(pts, d, spots, s)).Keys == t.Keys
    ensures forall u :: u in t ==>
              Apply(t, FrameWrites(pts, d, spots, s))[u]
              == (if FrameSpec(pts, d, spots, s, u).Some? then FrameSpec(pts, d, spots, s, u).value else t[u])
    ensures IsRimLightEnable in t ==> Apply(t, FrameWrites(pts, d, spots, s))[IsRimLightEnable] == BoolValue(s.rim)
    ensures !s.spot && SpotLightCount in t ==> Apply(t, FrameWrites(pts, d, spots, s))[SpotLightCount] == Int(0)
    ensures !s.point ==> forall i: nat, f :: PointLightField(i, f) in t && i < |pts| && f in LightingTerms ==>
              Apply(t, FrameWrites(pts, d, spots, s))[PointLightField(i, f)] == Vec(Zero)
    ensures !s.directional ==> forall f :: DirLightField(f) in t && f in LightingTerms ==>
              Apply(t, FrameWrites(pts, d, spots, s))[DirLightField(f)] == Vec(Zero)
  {
    var ws := FrameWrites(pts, d, spots, s);
    FrameRealizes(pts, d, spots, s);
    ApplyRealizes(t, ws, u => FrameSpec(pts, d, spots, s, u));
    assert FrameSpec(pts, d, spots, s, IsRimLightEnable) == Some(BoolValue(s.rim));
    assert !s.spot ==> FrameSpec(pts, d, spots, s, SpotLightCount) == Some(Int(0));
    if !s.point {
      forall i: nat, f | PointLightField(i, f) in t && i < |pts| && f in LightingTerms
        ensures Apply(t, ws)[PointLightField(i, f)] == Vec(Zero)
      {
        assert FrameSpec(pts, d, spots, s, PointLightField(i, f)) == Some(Vec(Zero));
      }
    }
    if !s.directional {
      forall f | DirLightField(f) in t && f in LightingTerms
        ensures Apply(t, ws)[DirLightField(f)] == Vec(Zero)
      {
        assert FrameSpec(pts, d, spots, s, DirLightField(f)) == Some(Vec(Zero));
      }
    }
  }

  /** Issuing four write lists one after the other is issuing their concatenation. */
  lemma ConcatFour(w: Writes, a: Writes, b: Writes, c: Writes, e: Writes)
    ensures w + (a + b + c + e) == w + a + b + c + e
  {
    assert a + b + c + e == a + (b + (c + e));
    assert w + a + b + c + e == w + (a + (b + (c + e)));
  }

  // ---- The edge-triggered toggles of HandleKeyPress ----

  /** One key's enable flag and its latch (the function-static isPointKeyPressed and friends). */
  datatype Toggle = Toggle(enabled: bool, latched: bool)

  /** One frame of one key: a press while the latch is clear flips the flag and
      sets the latch; a release while the latch is set clears it; nothing else changes anything. */
  function KeyStep(t: Toggle, pressed: bool): (r: Toggle)
    ensures r.latched == pressed
    ensures r.enabled <==> (t.enabled != (pressed && !t.latched))
  {
    if pressed && !t.latched then Toggle(!t.enabled, true)
    else if !pressed && t.latched then Toggle(t.enabled, false)
    else t
  }

  lemma PressWhileLatchedChangesNothing(t: Toggle)
    requires t.latched
    ensures KeyStep(t, true) == t
  {}

  lemma ReleaseClearsLatch(t: Toggle)
    requires t.latched
    ensures KeyStep(t, false) == Toggle(t.enabled, false)
  {}

  /** The key held or released over successive frames. */
  function KeyRun(t: Toggle, keys: seq<bool>): Toggle
    decreases |keys|
  {
    if keys == [] then t else KeyRun(KeyStep(t, keys[0]), keys[1..])
  }

  /** How many frames see the key pressed after a frame (or an initial latch) that did not. */
  function RisingEdges(prev: bool, keys: seq<bool>): nat
    decreases |keys|
  {
    if keys == [] then 0 else (if keys[0] && !prev then 1 else 0) + RisingEdges(keys[0], keys[1..])
  }

  /** Over any run of frames, the latch ends equal to the last key state and the
      flag has flipped once per rising edge. */
  lemma {:induction false} KeyRunCountsEdges(t: Toggle, keys: seq<bool>)
    ensures KeyRun(t, keys).latched == (if keys == [] then t.latched else keys[|keys| - 1])
    ensures KeyRun(t, keys).enabled <==> (t.enabled != (RisingEdges(t.latched, keys) % 2 == 1))
    decreases |keys|
  {
    if keys != [] {
      KeyRunCountsEdges(KeyStep(t, keys[0]), keys[1..]);
      if |keys| > 1 {
        assert keys[1..][|keys[1..]| - 1] == keys[|keys| - 1];
      }
    }
  }

  /** Holding the key down for any number of frames toggles the flag exactly once. */
  lemma {:induction false} HeldKeyTogglesOnce(t: Toggle, n: nat)
    requires !t.latched && n >= 1
    ensures KeyRun(t, seq(n, _ => true)) == Toggle(!t.enabled, true)
  {
    var held := seq(n, _ => true);
    KeyRunCountsEdges(t, held);
    HeldEdges(n);
  }

  lemma {:induction false} HeldEdges(n: nat)
    requires n >= 1
    ensures RisingEdges(false, seq(n, _ => true)) == 1
  {
    var held := seq(n, _ => true);
    assert held[1..] == seq(n - 1, _ => true);
    NoEdgesWhileHeld(n - 1);
  }

  lemma {:induction false} NoEdgesWhileHeld(n: nat)
    ensures RisingEdges(true, seq(n, _ => true)) == 0
  {
    if n > 0 {
      assert seq(n, _ => true)[1..] == seq(n - 1, _ => true);
      NoEdgesWhileHeld(n - 1);
    }
  }

  lemma PressPressTogglesOnce(t: Toggle)
    requires !t.latched
    ensures KeyRun(t, [true, true]).enabled == !t.enabled
  {
    HeldKeyTogglesOnce(t, 2);
    assert seq(2, _ => true) == [true, true];
  }

  lemma PressReleasePressRestores(t: Toggle)
    requires !t.latched
    ensures KeyRun(t, [true, false, true]) == Toggle(t.enabled, true)
  {
    KeyRunCountsEdges(t, [true, false, true]);
  }

  // ---- The Light object ----

  /** The initial point lights, directional light and spotlight of InitializeLights. */
  const RedPointLight := PointLight(Vec3(0.0, 10.0, 0.0), Vec3(1.0, 0.0, 0.0), Vec3(0.02, 0.02, 0.02),
                                    Vec3(0.5, 0.5, 0.5), Vec3(1.0, 1.0, 1.0), 2.0, 0.09, 0.032)
  const BluePointLight := PointLight(Vec3(0.0, -10.0, 0.0), Vec3(0.0, 0.0, 1.0), Vec3(0.2, 0.2, 0.2),
                                     Vec3(0.5, 0.5, 0.5), Vec3(1.0, 1.0, 1.0), 2.0, 0.09, 0.037)
  const Sun := DirectionalLight(Vec3(2.0, 1.0, 0.0), Vec3(0.1, 0.1, 0.1), Vec3(0.5, 0.5, 0.5), Vec3(1.0, 1.0, 0.5))
  const Flashlight := SpotLight(Vec3(0.0, 0.0, 5.0), Vec3(0.0, 0.0, -5.0), 5.0, 18.0,
                                Vec3(0.1, 0.1, 0.1), Vec3(1.0, 1.0, 1.0), Vec3(1.0, 1.0, 1.0))

  /** One marker draw of RenderLightObjects: where the cube is drawn and in which colour. */
  datatype MarkerDraw = MarkerDraw(position: Vec3, color: Vec3)

  class Light {
    var pointLights: seq<PointLight>
    var lightObjects: seq<LightObj>
    // The generic lightObj member, built by the constructor's initialiser and never drawn.
    var lightObj: LightObj
    var dirLight: DirectionalLight
    var spotLights: seq<SpotLight>
    var spotlight: SpotLight
    var isPointLightsEnable: bool
    var isDirectionalLightEnable: bool
    var isSpotLightsEnable: bool
    var isRimLightEnable: bool
    // The function-static latches of HandleKeyPress.
    var isPointKeyPressed: bool
    var isDirectionalKeyPressed: bool
    var isSpotKeyPressed: bool

    /** Every point light has its marker, built from its position and colour. */
    ghost predicate Valid()
      reads this`pointLights, this`lightObjects
    {
      |lightObjects| == |pointLights|
      && forall i :: 0 <= i < |pointLights| ==>
           lightObjects[i].position == pointLights[i].position && lightObjects[i].color == pointLights[i].color
    }

    /** The flags the frame dispatch branches on. */
    function CurrentSwitches(): Switches
      reads this
    {
      Switches(isPointLightsEnable, isDirectionalLightEnable, isSpotLightsEnable, isRimLightEnable)
    }

    /** The three category flags start as given (the C++ members are left
        uninitialised); the rim light starts enabled and the latches clear.
        genericProgram, redProgram and blueProgram are the program handles the
        three LightObj constructors obtain: the lightObj member's, then the
        markers' of InitializeLights. */
    constructor (pointOn: bool, dirOn: bool, spotOn: bool, genericProgram: nat, redProgram: nat, blueProgram: nat)
      ensures Valid()
      ensures lightObj == LightObj(Vec3(1.0, 1.0, 1.0), Zero, genericProgram)
      ensures pointLights == [RedPointLight, BluePointLight]
      ensures lightObjects == [LightObj(RedPointLight.position, RedPointLight.color, redProgram),
                               LightObj(BluePointLight.position, BluePointLight.color, blueProgram)]
      ensures dirLight == Sun && spotLights == [Flashlight] && spotlight == Flashlight
      ensures isPointLightsEnable == pointOn && isDirectionalLightEnable == dirOn && isSpotLightsEnable == spotOn
      ensures isRimLightEnable
      ensures !isPointKeyPressed && !isDirectionalKeyPressed && !isSpotKeyPressed
    {
      lightObj := LightObj(Vec3(1.0, 1.0, 1.0), Zero, genericProgram);
      pointLights := [];
      lightObjects := [];
      dirLight := DirectionalLight(Zero, Zero, Zero, Zero);
      spotLights := [];
      spotlight := SpotLight(Zero, Zero, 0.0, 0.0, Zero, Zero, Zero);
      isPointLightsEnable := pointOn;
      isDirectionalLightEnable := dirOn;
      isSpotLightsEnable := spotOn;
      isRimLightEnable := true;
      isPointKeyPressed := false;
      isDirectionalKeyPressed := false;
      isSpotKeyPressed := false;
      new;
      InitializeLights(redProgram, blueProgram);
    }

    /** Appends the two point lights with their markers and the spotlight, and sets the
        directional light. redProgram and blueProgram are the markers' program handles. */
    method InitializeLights(redProgram: nat, blueProgram: nat)
      requires Valid()
      modifies this`pointLights, this`lightObjects, this`dirLight, this`spotLights, this`spotlight
      ensures Valid()
      ensures pointLights == old(pointLights) + [RedPointLight, BluePointLight]
      ensures lightObjects == old(lightObjects) + [LightObj(RedPointLight.position, RedPointLight.color, redProgram),
                                                   LightObj(BluePointLight.position, BluePointLight.color, blueProgram)]
      ensures dirLight == Sun && spotlight == Flashlight && spotLights == old(spotLights) + [Flashlight]
    {
      var light1 := RedPointLight;
      pointLights := pointLights + [light1];
      lightObjects := lightObjects + [LightObj(light1.position, light1.color, redProgram)];
      var light2 := BluePointLight;
      pointLights := pointLights + [light2];
      lightObjects := lightObjects + [LightObj(light2.position, light2.color, blueProgram)];
      dirLight := Sun;
      spotlight := Flashlight;
      spotLights := spotLights + [spotlight];
    }

    /** Keys 1, 2 and 3 (pressed or released this frame) each drive their own toggle. */
    method HandleKeyPress(key1: bool, key2: bool, key3: bool)
      modifies this`isPointLightsEnable, this`isPointKeyPressed, this`isDirectionalLightEnable,
               this`isDirectionalKeyPressed, this`isSpotLightsEnable, this`isSpotKeyPressed
      ensures isPointLightsEnable == KeyStep(Toggle(old(isPointLightsEnable), old(isPointKeyPressed)), key1).enabled
      ensures isPointKeyPressed == KeyStep(Toggle(old(isPointLightsEnable), old(isPointKeyPressed)), key1).latched
      ensures isDirectionalLightEnable == KeyStep(Toggle(old(isDirectionalLightEnable), old(isDirectionalKeyPressed)), key2).enabled
      ensures isDirectionalKeyPressed == KeyStep(Toggle(old(isDirectionalLightEnable), old(isDirectionalKeyPressed)), key2).latched
      ensures isSpotLightsEnable == KeyStep(Toggle(old(isSpotLightsEnable), old(isSpotKeyPressed)), key3).enabled
      ensures isSpotKeyPressed == KeyStep(Toggle(old(isSpotLightsEnable), old(isSpotKeyPressed)), key3).latched
    {
      if key1 && !isPointKeyPressed {
        isPointLightsEnable := !isPointLightsEnable;
        isPointKeyPressed := true;
      } else if !key1 && isPointKeyPressed {
        isPointKeyPressed := false;
      }
      if key2 && !isDirectionalKeyPressed {
        isDirectionalLightEnable := !isDirectionalLightEnable;
        isDirectionalKeyPressed := true;
      } else if !key2 && isDirectionalKeyPressed {
        isDirectionalKeyPressed := false;
      }
      if key3 && !isSpotKeyPressed {
        isSpotLightsEnable := !isSpotLightsEnable;
        isSpotKeyPressed := true;
      } else if !key3 && isSpotKeyPressed {
        isSpotKeyPressed := false;
      }
    }

    /** One marker draw per light object, in the colour of the point light at the same
        index. Each draw binds that marker's own program, so once any marker is drawn the
        last marker's program is left bound. */
    method RenderLightObjects(gl: GlState) returns (draws: seq<MarkerDraw>)
      requires Valid()
      modifies gl
      ensures |draws| == |pointLights|
      ensures forall i :: 0 <= i < |draws| ==> draws[i] == MarkerDraw(pointLights[i].position, pointLights[i].color)
      ensures gl.current == if |lightObjects| > 0 then lightObjects[|lightObjects| - 1].program else old(gl.current)
    {
      draws := [];
      var i := 0;
      while i < |lightObjects|
        invariant 0 <= i <= |lightObjects|
        invariant |draws| == i
        invariant forall k :: 0 <= k < i ==> draws[k] == MarkerDraw(pointLights[k].position, pointLights[k].color)
        invariant gl.current == if i > 0 then lightObjects[i - 1].program else old(gl.current)
      {
        gl.UseProgram(lightObjects[i].program);
        draws := draws + [MarkerDraw(lightObjects[i].position, pointLights[i].color)];
        i := i + 1;
      }
    }

    /** The body of RenderPointLights' loop: the eight members of one point light. */
    static method WritePointLight(prog: ShaderProgram, i: nat, l: PointLight)
      requires prog.Valid()
      modifies prog
      ensures prog.Valid() && prog.linked == old(prog.linked)
      ensures prog.log == old(prog.log) + PointLightWrites(i, l)
    {
      PointLightWritesInOrder(i, l);
      prog.SetUniforms([
        (PointLightField(i, Position), Vec(l.position)), (PointLightField(i, Color), Vec(l.color)),
        (PointLightField(i, Ambient), Vec(l.ambient)), (PointLightField(i, Diffuse), Vec(l.diffuse)),
        (PointLightField(i, Specular), Vec(l.specular)),
        (PointLightField(i, AttenuationConstant), Float(l.attenuationConstant)),
        (PointLightField(i, AttenuationLinear), Float(l.attenuationLinear)),
        (PointLightField(i, AttenuationExponent), Float(l.attenuationExponent))]);
    }

    method RenderPointLights(gl: GlState, prog: ShaderProgram)
      requires prog.Valid()
      modifies gl, prog
      ensures prog.Valid() && prog.linked == old(prog.linked)
      ensures prog.log == old(prog.log) + (if isPointLightsEnable then RenderPointWrites(pointLights) else [])
      ensures prog.uniforms == Apply(old(prog.uniforms), if isPointLightsEnable then RenderPointWrites(pointLights) else [])
      ensures gl.current == if isPointLightsEnable then prog.handle else old(gl.current)
    {
      ghost var ws: Writes := [];
      if isPointLightsEnable {
        gl.UseProgram(prog.handle);
        var i := 0;
        while i < |pointLights|
          invariant 0 <= i <= |pointLights|
          invariant prog.Valid() && prog.linked == old(prog.linked)
          invariant prog.log == old(prog.log) + PointLoopWrites(pointLights, i)
          invariant gl.current == prog.handle
        {
          WritePointLight(prog, i, pointLights[i]);
          AppendAssoc(old(prog.log), PointLoopWrites(pointLights, i), PointLightWrites(i, pointLights[i]));
          i := i + 1;
        }
        prog.SetUniform(PointLightCount, Int(|pointLights|));
        prog.SetUniform(IsPointLightsEnable, BoolValue(isPointLightsEnable));
        ws := RenderPointWrites(pointLights);
        assert prog.log == old(prog.log) + ws;
      }
      ApplyConcat(prog.linked, old(prog.log), ws);
    }
  
    method DisablePointLights(gl: GlState, prog: ShaderProgram)
      requires prog.Valid()
      modifies gl, prog
      ensures prog.Valid() && prog.linked == old(prog.linked)
      ensures prog.log == old(prog.log) + DisablePointWrites(|pointLights|)
      ensures prog.uniforms == Apply(old(prog.uniforms), DisablePointWrites(|pointLights|))
      ensures gl.current == prog.handle
    {
      gl.UseProgram(prog.handle);
      var i := 0;
      while i < |pointLights|
        invariant 0 <= i <= |pointLights|
        invariant prog.Valid() && prog.linked == old(prog.linked)
        invariant prog.log == old(prog.log) + PointZeroLoopWrites(i)
        invariant gl.current == prog.handle
      {
        PointZeroWritesInOrder(i);
        prog.SetUniforms([(PointLightField(i, Ambient), Vec(Zero)), (PointLightField(i, Diffuse), Vec(Zero)),
                          (PointLightField(i, Specular), Vec(Zero))]);
        AppendAssoc(old(prog.log), PointZeroLoopWrites(i), PointZeroWrites(i));
        i := i + 1;
      }
      ApplyConcat(prog.linked, old(prog.log), DisablePointWrites(|pointLights|));
    }

    method RenderDirectionalLight(gl: GlState, prog: ShaderProgram)
      requires prog.Valid()
      modifies gl, prog
      ensures prog.Valid() && prog.linked == old(prog.linked)
      ensures prog.log == old(prog.log) + (if isDirectionalLightEnable then RenderDirWrites(dirLight) else [])
      ensures prog.uniforms == Apply(old(prog.uniforms), if isDirectionalLightEnable then RenderDirWrites(dirLight) else [])
      ensures gl.current == if isDirectionalLightEnable then prog.handle else old(gl.current)
    {
      ghost var ws: Writes := [];
      if isDirectionalLightEnable {
        gl.UseProgram(prog.handle);
        prog.SetUniform(IsDirectionalLightEnable, BoolValue(isDirectionalLightEnable));
        prog.SetUniform(DirLightField(Direction), Vec(dirLight.direction));
        prog.SetUniform(DirLightField(Ambient), Vec(dirLight.ambient));
        prog.SetUniform(DirLightField(Diffuse), Vec(dirLight.diffuse));
        prog.SetUniform(DirLightField(Specular), Vec(dirLight.specular));
        DirWritesInOrder(dirLight);
        ws := RenderDirWrites(dirLight);
      }
      ApplyConcat(prog.linked, old(prog.log), ws);
    }

    method DisableDirectionalLight(gl: GlState, prog: ShaderProgram)
      requires prog.Valid()
      modifies gl, prog
      ensures prog.Valid() && prog.linked == old(prog.linked)
      ensures prog.log == old(prog.log) + DisableDirWrites()
      ensures prog.uniforms == Apply(old(prog.uniforms), DisableDirWrites())
      ensures gl.current == prog.handle
    {
      gl.UseProgram(prog.handle);
      prog.SetUniform(DirLightField(Ambient), Vec(Zero));
      prog.SetUniform(DirLightField(Diffuse), Vec(Zero));
      prog.SetUniform(DirLightField(Specular), Vec(Zero));
      DirWritesInOrder(dirLight);
      ApplyConcat(prog.linked, old(prog.log), DisableDirWrites());
    }

    /** The body of RenderSpotlights' loop. Each member write is guarded by its
        location being found; a write to an undeclared name is dropped by
        SetUniform, so the guards need no separate branch here. */
    static method WriteSpotLight(prog: ShaderProgram, i: nat, l: SpotLight)
      requires prog.Valid()
      modifies prog
      ensures prog.Valid() && prog.linked == old(prog.linked)
      ensures prog.log == old(prog.log) + SpotLightWrites(i, l)
    {
      SpotLightWritesInOrder(i, l);
      prog.SetUniforms([
        (IsSpotLightsEnable, BoolValue(true)),
        (SpotLightField(i, Position), Vec(l.position)), (SpotLightField(i, Direction), Vec(l.direction)),
        (SpotLightField(i, Ambient), Vec(l.ambient)), (SpotLightField(i, Diffuse), Vec(l.diffuse)),
        (SpotLightField(i, Specular), Vec(l.specular)),
        (SpotLightField(i, CutOff), Cosine(l.cutOff)), (SpotLightField(i, OuterCutOff), Cosine(l.outerCutOff))]);
    }

    method RenderSpotlights(gl: GlState, prog: ShaderProgram)
      requires prog.Valid()
      modifies gl, prog
      ensures prog.Valid() && prog.linked == old(prog.linked)
      ensures prog.log == old(prog.log) + (if isSpotLightsEnable then RenderSpotWrites(spotLights) else [])
      ensures prog.uniforms == Apply(old(prog.uniforms), if isSpotLightsEnable then RenderSpotWrites(spotLights) else [])
      ensures gl.current == if isSpotLightsEnable then prog.handle else old(gl.current)
    {
      ghost var ws: Writes := [];
      if isSpotLightsEnable {
        gl.UseProgram(prog.handle);
        prog.SetUniform(SpotLightCount, Int(|spotLights|));
        ghost var head := prog.log;
        var i := 0;
        while i < |spotLights|
          invariant 0 <= i <= |spotLights|
          invariant prog.Valid() && prog.linked == old(prog.linked)
          invariant prog.log == head + SpotLoopWrites(spotLights, i)
          invariant gl.current == prog.handle
        {
          WriteSpotLight(prog, i, spotLights[i]);
          AppendAssoc(head, SpotLoopWrites(spotLights, i), SpotLightWrites(i, spotLights[i]));
          i := i + 1;
        }
        ws := RenderSpotWrites(spotLights);
        AppendAssoc(old(prog.log), [(SpotLightCount, Int(|spotLights|))], SpotLoopWrites(spotLights, |spotLights|));
      }
      ApplyConcat(prog.linked, old(prog.log), ws);
    }

    /** DisableSpotlights binds no program: its writes reach prog only while prog is the bound one. */
    method DisableSpotlights(gl: GlState, prog: ShaderProgram)
      requires prog.Valid() && gl.current == prog.handle
      modifies prog
      ensures prog.Valid() && prog.linked == old(prog.linked)
      ensures prog.log == old(prog.log) + DisableSpotWrites(|spotLights|)
      ensures prog.uniforms == Apply(old(prog.uniforms), DisableSpotWrites(|spotLights|))
    {
      prog.SetUniform(SpotLightCount, Int(0));
      ghost var head := prog.log;
      var i := 0;
      while i < |spotLights|
        invariant 0 <= i <= |spotLights|
        invariant prog.Valid() && prog.linked == old(prog.linked)
        invariant prog.log == head + SpotZeroLoopWrites(i)
      {
        SpotZeroWritesInOrder(i);
        prog.SetUniforms([(SpotLightField(i, Diffuse), Vec(Zero)), (SpotLightField(i, Specular), Vec(Zero))]);
        AppendAssoc(head, SpotZeroLoopWrites(i), SpotZeroWrites(i));
        i := i + 1;
      }
      AppendAssoc(old(prog.log), [(SpotLightCount, Int(0))], SpotZeroLoopWrites(|spotLights|));
      ApplyConcat(prog.linked, old(prog.log), DisableSpotWrites(|spotLights|));
    }

    /** Only the flag is written; the RimStrength, RimPower and RimLightColor locations are looked up and unused. */
    method RenderRimLight(gl: GlState, prog: ShaderProgram)
      requires prog.Valid()
      modifies gl, prog
      ensures prog.Valid() && prog.linked == old(prog.linked)
      ensures prog.log == old(prog.log) + RimWrites(isRimLightEnable)
      ensures prog.uniforms == Apply(old(prog.uniforms), RimWrites(isRimLightEnable))
      ensures gl.current == prog.handle
    {
      gl.UseProgram(prog.handle);
      prog.SetUniform(IsRimLightEnable, BoolValue(isRimLightEnable));
      ApplyConcat(prog.linked, old(prog.log), RimWrites(isRimLightEnable));
    }

    /** The point-light branch of Main's frame: Render (and draw the markers) when enabled, else Disable.
        Drawing the markers leaves the last marker's program bound instead of prog. */
    method PointStep(gl: GlState, prog: ShaderProgram) returns (draws: seq<MarkerDraw>)
      requires Valid() && prog.Valid()
      modifies gl, prog
      ensures prog.Valid() && prog.linked == old(prog.linked)
      ensures prog.log == old(prog.log) + PointStepWrites(pointLights, isPointLightsEnable)
      ensures gl.current == if isPointLightsEnable && |pointLights| > 0 then lightObjects[|lightObjects| - 1].program
                            else prog.handle
      ensures |draws| == (if isPointLightsEnable then |pointLights| else 0)
      ensures forall i :: 0 <= i < |draws| ==> draws[i] == MarkerDraw(pointLights[i].position, pointLights[i].color)
    {
      draws := [];
      if isPointLightsEnable {
        RenderPointLights(gl, prog);
        draws := RenderLightObjects(gl);
      } else {
        DisablePointLights(gl, prog);
      }
    }

    /** The directional branch of Main's frame. Both branches bind the program. */
    method DirStep(gl: GlState, prog: ShaderProgram)
      requires prog.Valid()
      modifies gl, prog
      ensures prog.Valid() && prog.linked == old(prog.linked)
      ensures prog.log == old(prog.log) + DirStepWrites(dirLight, isDirectionalLightEnable)
      ensures gl.current == prog.handle
    {
      if isDirectionalLightEnable {
        RenderDirectionalLight(gl, prog);
      } else {
        DisableDirectionalLight(gl, prog);
      }
    }

    /** The spotlight branch of Main's frame; it relies on the program being bound already. */
    method SpotStep(gl: GlState, prog: ShaderProgram)
      requires prog.Valid() && gl.current == prog.handle
      modifies gl, prog
      ensures prog.Valid() && prog.linked == old(prog.linked)
      ensures prog.log == old(prog.log) + SpotStepWrites(spotLights, isSpotLightsEnable)
      ensures gl.current == prog.handle
    {
      if isSpotLightsEnable {
        RenderSpotlights(gl, prog);
      } else {
        DisableSpotlights(gl, prog);
      }
    }

    /** Render or Disable for each category in Main's order, then the rim flag.
        Whatever the branches, the program ends bound and holding FrameWrites' effect. */
    method DispatchLights(gl: GlState, prog: ShaderProgram) returns (draws: seq<MarkerDraw>)
      requires Valid() && prog.Valid()
      modifies gl, prog
      ensures prog.Valid() && prog.linked == old(prog.linked)
      ensures prog.log == old(prog.log) + FrameWrites(pointLights, dirLight, spotLights, CurrentSwitches())
      ensures prog.uniforms == Apply(old(prog.uniforms), FrameWrites(pointLights, dirLight, spotLights, CurrentSwitches()))
      ensures gl.current == prog.handle
      ensures |draws| == (if isPointLightsEnable then |pointLights| else 0)
      ensures forall i :: 0 <= i < |draws| ==> draws[i] == MarkerDraw(pointLights[i].position, pointLights[i].color)
    {
      ghost var sw := CurrentSwitches();
      draws := PointStep(gl, prog);
      ghost var log1 := prog.log;
      DirStep(gl, prog);
      ghost var log2 := prog.log;
      SpotStep(gl, prog);
      ghost var log3 := prog.log;
      RenderRimLight(gl, prog);
      ghost var p, d, s, r := PointStepWrites(pointLights, sw.point), DirStepWrites(dirLight, sw.directional),
                              SpotStepWrites(spotLights, sw.spot), RimWrites(sw.rim);
      assert log1 == old(prog.log) + p && log2 == log1 + d && log3 == log2 + s && prog.log == log3 + r;
      ConcatFour(old(prog.log), p, d, s, r);
      ApplyConcat(prog.linked, old(prog.log), FrameWrites(pointLights, dirLight, spotLights, sw));
    }

    /** The lighting part of one frame in Main: the key toggles, then the dispatch on the new flags. */
    method LightingFrame(gl: GlState, prog: ShaderProgram, key1: bool, key2: bool, key3: bool)
      returns (draws: seq<MarkerDraw>)
      requires Valid() && prog.Valid()
      modifies this`isPointLightsEnable, this`isPointKeyPressed, this`isDirectionalLightEnable,
               this`isDirectionalKeyPressed, this`isSpotLightsEnable, this`isSpotKeyPressed, gl, prog
      ensures Valid() && prog.Valid() && prog.linked == old(prog.linked)
      ensures isPointLightsEnable == KeyStep(Toggle(old(isPointLightsEnable), old(isPointKeyPressed)), key1).enabled
      ensures isDirectionalLightEnable == KeyStep(Toggle(old(isDirectionalLightEnable), old(isDirectionalKeyPressed)), key2).enabled
      ensures isSpotLightsEnable == KeyStep(Toggle(old(isSpotLightsEnable), old(isSpotKeyPressed)), key3).enabled
      ensures isPointKeyPressed == key1 && isDirectionalKeyPressed == key2 && isSpotKeyPressed == key3
      ensures prog.uniforms == Apply(old(prog.uniforms), FrameWrites(pointLights, dirLight, spotLights, CurrentSwitches()))
      ensures gl.current == prog.handle
      ensures |draws| == (if isPointLightsEnable then |pointLights| else 0)
      ensures forall i :: 0 <= i < |draws| ==> draws[i] == MarkerDraw(pointLights[i].position, pointLights[i].color)
    {
      HandleKeyPress(key1, key2, key3);
      draws := DispatchLights(gl, prog);
    }
  }
}
