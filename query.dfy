/**
 * Resolution of a factor to an image and assembly of its execution plan
 * (query.py).
 *
 * The project index (`Context.split`, `pj.image`) and the platform's
 * `prepare` are foreign calls: they enter as function-valued fields and
 * parameters about which nothing is assumed.
 */
module Query {
  import opened Plans

  datatype Option<T> = None | Some(value: T)

  /** A build configuration point; only `architecture` varies during a scan. */
  datatype Variant = Variant(system: string, architecture: string, intention: string, form: string)

  /** The project descriptor fields the environment reads. */
  datatype Project = Project(factor: string, product: string, identifier: string)

  /** A filesystem path as the index answers it: its text and its `fs_type()`. */
  datatype Path = Path(text: string, fsType: string)

  predicate IsVoid(i: Path)
  {
    i.fsType == "void"
  }

  /** `pj.image(variant, factor)`. */
  type Resolver = (Variant, string) -> Path

  /** The execution platform: its system, its architectures in priority order,
      and `prepare(architecture, qualified factor, argv)`. */
  datatype Platform = Platform(
    system: string,
    architectures: seq<string>,
    prepare: (string, string, seq<string>) -> Triple)

  /** The project index: `split(factor)` gives the project and the project-relative
      factor path, or nothing when the factor is not in any project; `image`
      is the chosen project's image lookup. */
  datatype Context = Context(
    split: string -> Option<(Project, string)>,
    image: (Project, Variant, string) -> Path)

  datatype Failure =
    | IntegrationError(message: string)
    | UnknownFactor(factor: string)

  datatype Result<T> = Ok(value: T) | Err(failure: Failure)

  const NoArchitecture := "no architecture available for the selected factor"

  /** The environment a list of pairs produces when applied in order: later pairs win. */
  function Effective(env: seq<(string, string)>): map<string, string>
  {
    if |env| == 0 then map[] else map[env[0].0 := env[0].1] + Effective(env[1..])
  }

  function Names(env: seq<(string, string)>): (r: seq<string>)
    ensures |r| == |env|
    ensures forall i | 0 <= i < |env| :: r[i] == env[i].0
  {
    if |env| == 0 then [] else [env[0].0] + Names(env[1..])
  }

  /** The dotted, fully qualified factor name. */
  function Qualified(project: Project, factor: string): (r: string)
    ensures |r| == |project.factor| + 1 + |factor|
    ensures r[..|project.factor|] == project.factor && r[|project.factor|] == '.'
    ensures r[|project.factor| + 1..] == factor
  {
    project.factor + "." + factor
  }

  /** Variables describing the executing factor. */
  function ProjectEnvironment(project: Project, factor: string): (env: seq<(string, string)>)
    ensures Names(env) == ["FACTOR", "F_PRODUCT", "F_PROJECT", "F_PATH", "F_IDENTIFIER"]
  {
    [
      ("FACTOR", Qualified(project, factor)),
      ("F_PRODUCT", project.product),
      ("F_PROJECT", project.factor),
      ("F_PATH", factor),
      ("F_IDENTIFIER", project.identifier + "/" + factor)
    ]
  }

  /** Applied, the factor variables give the dotted factor name, the product,
      the project, the project-relative path and the slash-joined identifier. */
  lemma ProjectEnvironmentValues(project: Project, factor: string)
    ensures Effective(ProjectEnvironment(project, factor)) == map[
      "FACTOR" := project.factor + "." + factor,
      "F_PRODUCT" := project.product,
      "F_PROJECT" := project.factor,
      "F_PATH" := factor,
      "F_IDENTIFIER" := project.identifier + "/" + factor]
  {
    var env := ProjectEnvironment(project, factor);
    var e4 := [env[4]];
    var e3 := [env[3]] + e4;
    var e2 := [env[2]] + e3;
    var e1 := [env[1]] + e2;
    assert env == [env[0]] + e1;
    assert Effective(e4) == map[env[4].0 := env[4].1] + Effective([]);
    assert Effective(e3) == map[env[3].0 := env[3].1] + Effective(e4) by { assert e3[1..] == e4; }
    assert Effective(e2) == map[env[2].0 := env[2].1] + Effective(e3) by { assert e2[1..] == e3; }
    assert Effective(e1) == map[env[1].0 := env[1].1] + Effective(e2) by { assert e1[1..] == e2; }
    assert Effective(env) == map[env[0].0 := env[0].1] + Effective(e1) by { assert env[1..] == e1; }
  }

  /** Variables describing the factor's image. */
  function ImageEnvironment(v: Variant, image: Path): (env: seq<(string, string)>)
    ensures Names(env) == ["F_SYSTEM", "F_ARCHITECTURE", "F_IMAGE"]
  {
    [
      ("F_SYSTEM", v.system),
      ("F_ARCHITECTURE", v.architecture),
      ("F_IMAGE", image.text)
    ]
  }

  /** Applied, the image variables give the variant's system and architecture and the image path. */
  lemma ImageEnvironmentValues(v: Variant, image: Path)
    ensures Effective(ImageEnvironment(v, image)) == map[
      "F_SYSTEM" := v.system,
      "F_ARCHITECTURE" := v.architecture,
      "F_IMAGE" := image.text]
  {
    var env := ImageEnvironment(v, image);
    var e2 := [env[2]];
    var e1 := [env[1]] + e2;
    assert env == [env[0]] + e1;
    assert Effective(e2) == map[env[2].0 := env[2].1] + Effective([]);
    assert Effective(e1) == map[env[1].0 := env[1].1] + Effective(e2) by { assert e1[1..] == e2; }
    assert Effective(env) == map[env[0].0 := env[0].1] + Effective(e1) by { assert env[1..] == e1; }
  }

  /** `_cvar`: the variant with only its architecture replaced. */
  function Cvar(v: Variant, a: string): (r: Variant)
    ensures r.architecture == a
    ensures r.system == v.system && r.intention == v.intention && r.form == v.form
  {
    v.(architecture := a)
  }

  /** Index of the first architecture whose image is not void; `|archs|` when there is none. */
  function FirstHit(resolve: Resolver, factor: string, v: Variant, archs: seq<string>): (k: nat)
    ensures k <= |archs|
    ensures forall j | 0 <= j < k :: IsVoid(resolve(Cvar(v, archs[j]), factor))
    ensures k < |archs| ==> !IsVoid(resolve(Cvar(v, archs[k]), factor))
    decreases |archs|
  {
    if |archs| == 0 then 0
    else if !IsVoid(resolve(Cvar(v, archs[0]), factor)) then 0
    else 1 + FirstHit(resolve, factor, v, archs[1..])
  }

  /** What the scan returns: the first variant with an image, and that image; nothing exactly
      when every architecture's image is void. */
  function Found(resolve: Resolver, factor: string, v: Variant, archs: seq<string>): (r: Option<(Variant, Path)>)
    ensures r.None? <==> forall j | 0 <= j < |archs| :: IsVoid(resolve(Cvar(v, archs[j]), factor))
    ensures r.Some? ==> && r.value.0.architecture in archs
                        && r.value.0 == Cvar(v, r.value.0.architecture)
                        && r.value.1 == resolve(r.value.0, factor)
                        && !IsVoid(r.value.1)
  {
    var k := FirstHit(resolve, factor, v, archs);
    if k < |archs| then Some((Cvar(v, archs[k]), resolve(Cvar(v, archs[k]), factor))) else None
  }

  /** The variants the scan hands to `resolve`, in order. */
  function Probes(resolve: Resolver, factor: string, v: Variant, archs: seq<string>): (ps: seq<Variant>)
  {
    var k := FirstHit(resolve, factor, v, archs);
    var n := if k < |archs| then k + 1 else |archs|;
    seq(n, j requires 0 <= j < n => Cvar(v, archs[j]))
  }

  /** `image`: scan the architectures in order and stop at the first non-void image. */
  method Image(resolve: Resolver, factor: string, variants: Variant, architectures: seq<string>)
    returns (r: Option<(Variant, Path)>, ghost probes: seq<Variant>)
    ensures r == Found(resolve, factor, variants, architectures)
    ensures probes == Probes(resolve, factor, variants, architectures)
  {
    var n := 0;
    probes := [];
    while n < |architectures|
      invariant 0 <= n <= |architectures|
      invariant forall j | 0 <= j < n :: IsVoid(resolve(Cvar(variants, architectures[j]), factor))
      invariant probes == seq(n, j requires 0 <= j < n => Cvar(variants, architectures[j]))
    {
      var v := Cvar(variants, architectures[n]);
      var i := resolve(v, factor);
      probes := probes + [v];
      if !IsVoid(i) {
        FirstHitIs(resolve, factor, variants, architectures, n);
        return Some((v, i)), probes;
      }
      n := n + 1;
    }
    FirstHitIs(resolve, factor, variants, architectures, n);
    r := None;
  }

  /** The index characterised by "all before it void, itself not void" is the first hit. */
  lemma FirstHitIs(resolve: Resolver, factor: string, v: Variant, archs: seq<string>, k: nat)
    requires k <= |archs|
    requires forall j | 0 <= j < k :: IsVoid(resolve(Cvar(v, archs[j]), factor))
    requires k < |archs| ==> !IsVoid(resolve(Cvar(v, archs[k]), factor))
    ensures FirstHit(resolve, factor, v, archs) == k
  {
  }

  /** `plan`: identity variables, then image variables, then the platform's own,
      kept as one list in that order; the executable falls back to the image. */
  function Plan(execution: Platform, project: Project, factor: string, variants: Variant,
                image: Path, argv: seq<string>): (t: Triple)
    ensures var p := execution.prepare(variants.architecture, Qualified(project, factor), argv);
      && |t.env| == 8 + |p.env|
      && t.env[..5] == ProjectEnvironment(project, factor)
      && t.env[5..8] == ImageEnvironment(variants, image)
      && t.env[8..] == p.env
      && (p.exe != "" ==> t.exe == p.exe)
      && (p.exe == "" ==> t.exe == image.text)
      && t.argv == p.argv
  {
    var env := ProjectEnvironment(project, factor) + ImageEnvironment(variants, image);
    var prepared := execution.prepare(variants.architecture, Qualified(project, factor), argv);
    Triple(env + prepared.env, if prepared.exe != "" then prepared.exe else image.text, prepared.argv)
  }

  /** `select`: with a fixed architecture, one query and no void check; otherwise
      the scan, whose miss becomes an integration error. */
  method Select(
    execution: Platform,
    projects: Context,
    factor: string,
    argv: seq<string>,
    architecture: Option<string> := None,
    intention: string := "optimal",
    form: string := "")
    returns (r: Result<Triple>, ghost probes: seq<Variant>)
    ensures projects.split(factor).None? ==> r == Err(UnknownFactor(factor)) && probes == []
    ensures projects.split(factor).Some? && architecture.Some? ==>
      var (pj, fp) := projects.split(factor).value;
      var v := Variant(execution.system, architecture.value, intention, form);
      && r == Ok(Plan(execution, pj, fp, v, projects.image(pj, v, fp), argv))
      && probes == [v]
    ensures projects.split(factor).Some? && architecture.None? ==>
      var (pj, fp) := projects.split(factor).value;
      var resolve := (w, f) => projects.image(pj, w, f);
      var base := Variant(execution.system, "", intention, form);
      && probes == Probes(resolve, fp, base, execution.architectures)
      && match Found(resolve, fp, base, execution.architectures)
         case None => r == Err(IntegrationError(NoArchitecture))
         case Some((w, i)) => r == Ok(Plan(execution, pj, fp, w, i, argv))
  {
    var split := projects.split(factor);
    if split.None? {
      return Err(UnknownFactor(factor)), [];
    }
    var (pj, fp) := split.value;
    if architecture.Some? {
      var v := Variant(execution.system, architecture.value, intention, form);
      var i := projects.image(pj, v, fp);
      return Ok(Plan(execution, pj, fp, v, i, argv)), [v];
    }
    var base := Variant(execution.system, "", intention, form);
    var found;
    found, probes := Image((w, f) => projects.image(pj, w, f), fp, base, execution.architectures);
    if found.None? {
      return Err(IntegrationError(NoArchitecture)), probes;
    }
    var (v, i) := found.value;
    r := Ok(Plan(execution, pj, fp, v, i, argv));
  }

  /** Applying a concatenation applies the second list over the first. */
  lemma {:induction false} EffectiveAppend(a: seq<(string, string)>, b: seq<(string, string)>)
    ensures Effective(a + b) == Effective(a) + Effective(b)
    decreases |a|
  {
    if |a| == 0 {
      assert a + b == b;
    } else {
      var head := map[a[0].0 := a[0].1];
      assert (a + b)[1..] == a[1..] + b;
      EffectiveAppend(a[1..], b);
      UnionAssociates(head, Effective(a[1..]), Effective(b));
    }
  }

  lemma UnionAssociates(x: map<string, string>, y: map<string, string>, z: map<string, string>)
    ensures x + (y + z) == (x + y) + z
  {
    var l, r := x + (y + z), (x + y) + z;
    assert l.Keys == r.Keys;
    forall key | key in l ensures l[key] == r[key] { }
  }

  /** The identity variables a plan carries before the platform's own. */
  function IdentityValues(project: Project, factor: string, v: Variant, image: Path): map<string, string>
  {
    map[
      "FACTOR" := project.factor + "." + factor,
      "F_PRODUCT" := project.product,
      "F_PROJECT" := project.factor,
      "F_PATH" := factor,
      "F_IDENTIFIER" := project.identifier + "/" + factor,
      "F_SYSTEM" := v.system,
      "F_ARCHITECTURE" := v.architecture,
      "F_IMAGE" := image.text]
  }

  /** Applying a plan's environment is applying the identity variables and then the platform's. */
  lemma PlanEffective(execution: Platform, project: Project, factor: string,
                      v: Variant, image: Path, argv: seq<string>)
    ensures Effective(Plan(execution, project, factor, v, image, argv).env)
      == IdentityValues(project, factor, v, image)
       + Effective(execution.prepare(v.architecture, Qualified(project, factor), argv).env)
  {
    var t := Plan(execution, project, factor, v, image, argv);
    var p := execution.prepare(v.architecture, Qualified(project, factor), argv);
    var pe := ProjectEnvironment(project, factor);
    var ie := ImageEnvironment(v, image);
    assert t.env == pe + ie + p.env;
    EffectiveAppend(pe + ie, p.env);
    EffectiveAppend(pe, ie);
    IdentityUnion(project, factor, v, image);
  }

  lemma IdentityUnion(project: Project, factor: string, v: Variant, image: Path)
    ensures Effective(ProjectEnvironment(project, factor)) + Effective(ImageEnvironment(v, image))
      == IdentityValues(project, factor, v, image)
  {
    ProjectEnvironmentValues(project, factor);
    ImageEnvironmentValues(v, image);
    var l := Effective(ProjectEnvironment(project, factor)) + Effective(ImageEnvironment(v, image));
    var r := IdentityValues(project, factor, v, image);
    assert l.Keys == r.Keys;
    forall key | key in l ensures l[key] == r[key] { }
  }

  /** Once applied, a plan's environment holds every identity variable and every
      platform variable; a platform variable wins over an identity variable of the
      same name, and an identity variable the platform does not name keeps its value. */
  lemma PlanEnvironmentPrecedence(execution: Platform, project: Project, factor: string,
                                  v: Variant, image: Path, argv: seq<string>)
    ensures var t := Plan(execution, project, factor, v, image, argv);
      var p := execution.prepare(v.architecture, Qualified(project, factor), argv);
      var id := IdentityValues(project, factor, v, image);
      && Effective(t.env).Keys == id.Keys + Effective(p.env).Keys
      && (forall key | key in Effective(p.env) :: Effective(t.env)[key] == Effective(p.env)[key])
      && (forall key | key in id && key !in Effective(p.env) :: Effective(t.env)[key] == id[key])
  {
    PlanEffective(execution, project, factor, v, image, argv);
  }

  /** A found image comes from an architecture no later than any architecture that has one. */
  lemma FoundPrecedesEveryImage(resolve: Resolver, factor: string, v: Variant, archs: seq<string>, j: nat)
    requires j < |archs| && !IsVoid(resolve(Cvar(v, archs[j]), factor))
    ensures FirstHit(resolve, factor, v, archs) <= j
    ensures Found(resolve, factor, v, archs).Some?
  {
  }

  /** Architectures after the hit are never queried and cannot change the result:
      replacing everything after the hit leaves both the result and the queries as they were. */
  lemma LaterArchitecturesIgnored(resolve: Resolver, factor: string, v: Variant, archs: seq<string>, tail: seq<string>)
    requires FirstHit(resolve, factor, v, archs) < |archs|
    ensures var k := FirstHit(resolve, factor, v, archs);
      && Found(resolve, factor, v, archs[..k + 1] + tail) == Found(resolve, factor, v, archs)
      && Probes(resolve, factor, v, archs[..k + 1] + tail) == Probes(resolve, factor, v, archs)
      && |Probes(resolve, factor, v, archs)| == k + 1
  {
    var k := FirstHit(resolve, factor, v, archs);
    var archs' := archs[..k + 1] + tail;
    assert forall j | 0 <= j <= k :: archs'[j] == archs[j];
    FirstHitIs(resolve, factor, v, archs', k);
  }

  /** With no image anywhere, every architecture is queried exactly once, in order. */
  lemma ExhaustedScanQueriesAll(resolve: Resolver, factor: string, v: Variant, archs: seq<string>)
    requires Found(resolve, factor, v, archs).None?
    ensures var ps := Probes(resolve, factor, v, archs);
      && |ps| == |archs|
      && forall j | 0 <= j < |archs| :: ps[j] == Cvar(v, archs[j])
  {
  }

  /** Every queried variant is the base variant with one listed architecture substituted. */
  lemma ProbesVaryOnlyArchitecture(resolve: Resolver, factor: string, v: Variant, archs: seq<string>)
    ensures forall p | p in Probes(resolve, factor, v, archs) ::
      && p.system == v.system && p.intention == v.intention && p.form == v.form
      && p.architecture in archs
  {
  }

  /** Priority order decides: of `[a1, a2, a3]` with an image only for `a2`, the scan
      returns `a2`'s variant after querying `a1` then `a2`, and never `a3`. */
  lemma PriorityScenario(resolve: Resolver, factor: string, v: Variant, a1: string, a2: string, a3: string)
    requires IsVoid(resolve(Cvar(v, a1), factor))
    requires !IsVoid(resolve(Cvar(v, a2), factor))
    ensures Found(resolve, factor, v, [a1, a2, a3]) == Some((Cvar(v, a2), resolve(Cvar(v, a2), factor)))
    ensures Probes(resolve, factor, v, [a1, a2, a3]) == [Cvar(v, a1), Cvar(v, a2)]
  {
    FirstHitIs(resolve, factor, v, [a1, a2, a3], 1);
  }

  /** A native platform plan (no executable of its own) runs the image itself,
      and the environment names the resolved architecture, the image and the factor. */
  lemma NativePlanRunsImage(execution: Platform, project: Project, factor: string,
                            v: Variant, image: Path, argv: seq<string>)
    requires execution.prepare(v.architecture, Qualified(project, factor), argv).exe == ""
    ensures var t := Plan(execution, project, factor, v, image, argv);
      && t.exe == image.text
      && ("F_ARCHITECTURE", v.architecture) in t.env
      && ("F_IMAGE", image.text) in t.env
      && ("FACTOR", project.factor + "." + factor) in t.env
  {
    var t := Plan(execution, project, factor, v, image, argv);
    assert t.env[6] == ("F_ARCHITECTURE", v.architecture);
    assert t.env[7] == ("F_IMAGE", image.text);
    assert t.env[0] == ("FACTOR", project.factor + "." + factor);
  }
}
