/** The uniform state of a linked shader program, as the light rig sees it.
    A program is a table from uniform name to current value; its keys are the
    uniforms the program declares (those for which glGetUniformLocation gives a
    location other than -1). A write to a name outside the table is dropped, as
    glUniform* does for location -1. */
module ShaderUniforms {
  import opened Glm
  import opened Wrappers

  /** Members of the light structs declared by the lighting shader. */
  datatype Field =
    | Position | Color | Direction | Ambient | Diffuse | Specular
    | AttenuationConstant | AttenuationLinear | AttenuationExponent
    | CutOff | OuterCutOff

  /** Uniform names: PointLightField(1, Ambient) is "pointLights[1].ambient",
      DirLightField(Direction) is "dirLight.direction", and so on. */
  datatype Uniform =
    | PointLightField(index: nat, field: Field)
    | SpotLightField(index: nat, field: Field)
    | DirLightField(field: Field)
    | PointLightCount
    | SpotLightCount
    | IsPointLightsEnable
    | IsDirectionalLightEnable
    | IsSpotLightsEnable
    | IsRimLightEnable

  /** glUniform3fv / glUniform3f, glUniform1f, glUniform1i. The spot cutoffs are
      uploaded as cos(radians(angle)); they are kept here as the symbolic value
      Cosine(angle) because the model has no trigonometry. */
  datatype Value = Vec(v: Vec3) | Float(f: real) | Int(n: int) | Cosine(degrees: real)

  type Table = map<Uniform, Value>

  /** A sequence of uniform writes, in the order they are issued. */
  type Writes = seq<(Uniform, Value)>

  /** glUniform1i(loc, b) with a C++ bool. */
  function BoolValue(b: bool): Value { Int(if b then 1 else 0) }

  /** One write at glGetUniformLocation(program, u). */
  function Write(t: Table, u: Uniform, v: Value): Table {
    if u in t then t[u := v] else t
  }

  /** The table after issuing the writes ws in order. */
  function Apply(t: Table, ws: Writes): Table
    decreases |ws|
  {
    if ws == [] then t
    else Write(Apply(t, ws[..|ws| - 1]), ws[|ws| - 1].0, ws[|ws| - 1].1)
  }

  /** Some write in ws is aimed at u. */
  ghost predicate Targets(ws: Writes, u: Uniform) {
    exists k :: 0 <= k < |ws| && ws[k].0 == u
  }

  /** ws writes exactly the uniforms for which spec gives a value, and always
      that value: spec is a declarative description of the effect of ws. */
  ghost predicate Realizes(ws: Writes, spec: Uniform -> Option<Value>) {
    && (forall k :: 0 <= k < |ws| ==> spec(ws[k].0) == Some(ws[k].1))
    && (forall u :: spec(u).Some? ==> Targets(ws, u))
  }

  lemma {:induction false} ApplyKeys(t: Table, ws: Writes)
    ensures Apply(t, ws).Keys == t.Keys
    decreases |ws|
  {
    if ws != [] {
      ApplyKeys(t, ws[..|ws| - 1]);
    }
  }

  lemma {:induction false} ApplySnoc(t: Table, ws: Writes, u: Uniform, v: Value)
    ensures Apply(t, ws + [(u, v)]) == Write(Apply(t, ws), u, v)
  {
    assert (ws + [(u, v)])[..|ws|] == ws;
  }

  lemma {:induction false} ApplyConcat(t: Table, a: Writes, b: Writes)
    ensures Apply(t, a + b) == Apply(Apply(t, a), b)
    decreases |b|
  {
    if b != [] {
      var b' := b[..|b| - 1];
      assert (a + b)[..|a + b| - 1] == a + b';
      ApplyConcat(t, a, b');
    } else {
      assert a + b == a;
    }
  }

  lemma AppendAssoc(a: Writes, b: Writes, c: Writes)
    ensures a + b + c == a + (b + c)
  {
  }

  /** A uniform no write is aimed at keeps its value. */
  lemma {:induction false} ApplyUntargeted(t: Table, ws: Writes, u: Uniform)
    requires u in t
    requires forall k :: 0 <= k < |ws| ==> ws[k].0 != u
    ensures u in Apply(t, ws) && Apply(t, ws)[u] == t[u]
    decreases |ws|
  {
    ApplyKeys(t, ws);
    if ws != [] {
      var ws' := ws[..|ws| - 1];
      assert forall k :: 0 <= k < |ws'| ==> ws'[k] == ws[k];
      ApplyUntargeted(t, ws', u);
    }
  }

  /** A declared uniform that is written, always with the same value, ends with that value. */
  lemma {:induction false} ApplyConsistent(t: Table, ws: Writes, u: Uniform, v: Value)
    requires u in t
    requires Targets(ws, u)
    requires forall k :: 0 <= k < |ws| && ws[k].0 == u ==> ws[k].1 == v
    ensures u in Apply(t, ws) && Apply(t, ws)[u] == v
    decreases |ws|
  {
    ApplyKeys(t, ws);
    var ws' := ws[..|ws| - 1];
    assert forall k :: 0 <= k < |ws'| ==> ws'[k] == ws[k];
    if ws[|ws| - 1].0 != u {
      var k :| 0 <= k < |ws| && ws[k].0 == u;
      assert ws'[k].0 == u;
      ApplyConsistent(t, ws', u, v);
    }
  }

  /** The effect of a write list that realizes spec: the declared uniforms spec
      names take spec's value, every other uniform keeps its value, and no
      uniform is added or removed. */
  lemma ApplyRealizes(t: Table, ws: Writes, spec: Uniform -> Option<Value>)
    requires Realizes(ws, spec)
    ensures Apply(t, ws).Keys == t.Keys
    ensures forall u :: u in t ==> Apply(t, ws)[u] == (if spec(u).Some? then spec(u).value else t[u])
  {
    ApplyKeys(t, ws);
    forall u | u in t
      ensures Apply(t, ws)[u] == (if spec(u).Some? then spec(u).value else t[u])
    {
      if spec(u).Some? {
        ApplyConsistent(t, ws, u, spec(u).value);
      } else {
        ApplyUntargeted(t, ws, u);
      }
    }
  }

  /** Two write lists whose specs agree wherever both give a value realize the
      union of their specs when issued one after the other. */
  lemma RealizesConcat(a: Writes, b: Writes, sa: Uniform -> Option<Value>, sb: Uniform -> Option<Value>,
                       s: Uniform -> Option<Value>)
    requires Realizes(a, sa) && Realizes(b, sb)
    requires forall u :: sa(u).Some? && sb(u).Some? ==> sa(u) == sb(u)
    requires forall u :: s(u) == if sa(u).Some? then sa(u) else sb(u)
    ensures Realizes(a + b, s)
  {
    forall k | 0 <= k < |a + b| ensures s((a + b)[k].0) == Some((a + b)[k].1) {
      if k < |a| {
        assert (a + b)[k] == a[k];
      } else {
        assert (a + b)[k] == b[k - |a|];
      }
    }
    forall u | s(u).Some? ensures Targets(a + b, u) {
      if sa(u).Some? {
        var k :| 0 <= k < |a| && a[k].0 == u;
        assert (a + b)[k] == a[k];
      } else {
        var k :| 0 <= k < |b| && b[k].0 == u;
        assert (a + b)[|a| + k] == b[k];
      }
    }
  }

  /** A linked program's uniform table. The ghost log records every write
      issued to it since it was linked. */
  class ShaderProgram {
    const handle: nat
    var uniforms: Table
    ghost var linked: Table
    ghost var log: Writes

    ghost predicate Valid()
      reads this
    {
      uniforms == Apply(linked, log)
    }

    /** A program whose declared uniforms hold the given initial values. */
    constructor (handle: nat, declared: Table)
      ensures Valid()
      ensures this.handle == handle && uniforms == declared && linked == declared && log == []
    {
      this.handle := handle;
      uniforms := declared;
      linked := declared;
      log := [];
    }

    /** glUniform* at glGetUniformLocation(handle, u); dropped when the program does not declare u. */
    method SetUniform(u: Uniform, v: Value)
      requires Valid()
      modifies this`uniforms, this`log
      ensures Valid()
      ensures uniforms == Write(old(uniforms), u, v)
      ensures log == old(log) + [(u, v)] && linked == old(linked)
    {
      ApplySnoc(linked, log, u, v);
      uniforms := Write(uniforms, u, v);
      log := log + [(u, v)];
    }

    /** The glUniform* calls of ws, issued one after the other. */
    method SetUniforms(ws: Writes)
      requires Valid()
      modifies this`uniforms, this`log
      ensures Valid()
      ensures uniforms == Apply(old(uniforms), ws)
      ensures log == old(log) + ws
    {
      var k := 0;
      while k < |ws|
        invariant 0 <= k <= |ws|
        invariant Valid()
        invariant log == old(log) + ws[..k]
      {
        SetUniform(ws[k].0, ws[k].1);
        assert ws[..k + 1] == ws[..k] + [ws[k]];
        k := k + 1;
      }
      assert ws[..|ws|] == ws;
      ApplyConcat(linked, old(log), ws);
    }
  }

  /** The program bound with glUseProgram. */
  class GlState {
    var current: nat

    constructor ()
      ensures current == 0
    {
      current := 0;
    }

    method UseProgram(p: nat)
      modifies this
      ensures current == p
    {
      current := p;
    }
  }
}
