/** The admission gate: `validate_odoo_instance`, an ordered rule check on the
    submitted object; `mutate_odoo_instance`, which fills defaults into the
    object in place; and the two webhook endpoints that wrap them in
    AdmissionReview answers. Objects are JSON values, and every Python
    operation the code applies to them raises what Python raises. */
module Admission {
  import opened Common
  import opened Json

  /* ---------------- The limit patterns ---------------- */

  /** The unit letters of `[KMGTPEkmgtpe]`. */
  predicate IsUnitLetter(c: char) {
    c in "KMGTPEkmgtpe"
  }

  /** `\d+` over ASCII digits. */
  predicate IsDigits(s: string) {
    s != [] && AllDigits(s)
  }

  /** `\d+[KMGTPEkmgtpe]i?`, the whole string. */
  predicate IsMemoryQuantity(t: string) {
    || (|t| >= 2 && IsUnitLetter(t[|t| - 1]) && IsDigits(t[..|t| - 1]))
    || (|t| >= 3 && t[|t| - 1] == 'i' && IsUnitLetter(t[|t| - 2]) && IsDigits(t[..|t| - 2]))
  }

  /** `\d+m?`, the whole string. */
  predicate IsCpuQuantity(t: string) {
    IsDigits(t) || (|t| >= 2 && t[|t| - 1] == 'm' && IsDigits(t[..|t| - 1]))
  }

  datatype Pattern = MemoryPattern | CpuPattern

  predicate Whole(p: Pattern, t: string) {
    match p
    case MemoryPattern => IsMemoryQuantity(t)
    case CpuPattern => IsCpuQuantity(t)
  }

  /** `re.match('^...$', s)`: `$` also matches just before a final newline. */
  predicate Matches(p: Pattern, s: string) {
    Whole(p, s) || (s != [] && s[|s| - 1] == '\n' && Whole(p, s[..|s| - 1]))
  }

  function NameError(): PyError {
    PyError("NameError", "name 're' is not defined")
  }

  /** A call `re.match(pattern, subject)`. Python looks up the name `re`
      before it evaluates the subject, so without the import the call fails
      first; with it, a subject that raised or is not a string fails next. */
  function ReMatch(p: Pattern, subject: Result<Json>, reImported: bool): (r: Result<bool>)
    ensures !reImported ==> r == Raise(NameError())
    ensures reImported && subject.Raise? ==> r == Raise(subject.error)
    ensures reImported && subject.Ok? && subject.value.JString? ==> r == Ok(Matches(p, subject.value.s))
  {
    if !reImported then Raise(NameError())
    else
      var value :- subject;
      if value.JString? then Ok(Matches(p, value.s))
      else Raise(TypeError("expected string or bytes-like object"))
  }

  /** A memory quantity built from its parts: digits, a unit letter, an optional `i`. */
  function MemoryQuantity(digits: string, unit: char, binary: bool): string {
    digits + [unit] + (if binary then "i" else "")
  }

  /** A CPU quantity built from its parts: digits and an optional `m`. */
  function CpuQuantity(digits: string, milli: bool): string {
    digits + (if milli then "m" else "")
  }

  /** Every memory quantity the pattern takes is digits, a unit letter and an
      optional `i`; and every such string is taken. */
  lemma MemoryQuantityForm(t: string)
    ensures IsMemoryQuantity(t) <==>
      exists digits, unit, binary :: IsDigits(digits) && IsUnitLetter(unit) && t == MemoryQuantity(digits, unit, binary)
  {
    if IsMemoryQuantity(t) {
      if |t| >= 2 && IsUnitLetter(t[|t| - 1]) && IsDigits(t[..|t| - 1]) {
        assert t == MemoryQuantity(t[..|t| - 1], t[|t| - 1], false);
      } else {
        assert t == MemoryQuantity(t[..|t| - 2], t[|t| - 2], true);
      }
    }
    forall digits, unit, binary | IsDigits(digits) && IsUnitLetter(unit) && t == MemoryQuantity(digits, unit, binary)
      ensures IsMemoryQuantity(t)
    {
      if binary {
        assert t[..|t| - 2] == digits;
      } else {
        assert t[..|t| - 1] == digits;
      }
    }
  }

  /** Every CPU quantity the pattern takes is digits and an optional `m`; and
      every such string is taken. */
  lemma CpuQuantityForm(t: string)
    ensures IsCpuQuantity(t) <==> exists digits, milli :: IsDigits(digits) && t == CpuQuantity(digits, milli)
  {
    if IsCpuQuantity(t) {
      if IsDigits(t) {
        assert t == CpuQuantity(t, false);
      } else {
        assert t == CpuQuantity(t[..|t| - 1], true);
      }
    }
    forall digits, milli | IsDigits(digits) && t == CpuQuantity(digits, milli)
      ensures IsCpuQuantity(t)
    {
      if milli {
        assert t[..|t| - 1] == digits;
      } else {
        assert t == digits;
      }
    }
  }

  /** Memory limits the pattern takes. */
  lemma MemoryPatternAccepts()
    ensures Matches(MemoryPattern, "512Mi") && Matches(MemoryPattern, "1G") && Matches(MemoryPattern, "4Gi\n")
  {
    assert Matches(MemoryPattern, "512Mi") by { assert "512Mi"[..3] == "512"; }
    assert Matches(MemoryPattern, "1G") by { assert "1G"[..1] == "1"; }
    assert Matches(MemoryPattern, "4Gi\n") by {
      assert "4Gi\n"[..3] == "4Gi";
      assert Whole(MemoryPattern, "4Gi") by { assert "4Gi"[..1] == "4"; }
    }
  }

  /** Memory limits the pattern turns away: no unit, no digits, a fraction. */
  lemma MemoryPatternRejects()
    ensures !Matches(MemoryPattern, "512") && !Matches(MemoryPattern, "Mi") && !Matches(MemoryPattern, "1.5Gi")
  {
    assert !Matches(MemoryPattern, "512") by { assert "512"[2] == '2' && "512"[1] == '1' && !IsUnitLetter('2'); }
    assert !Matches(MemoryPattern, "Mi") by { assert "Mi"[..1] == "M" && "Mi"[..0] == ""; }
    assert "1.5Gi"[..3] == "1.5" && "1.5Gi"[..4] == "1.5G";
    assert "1.5Gi"[..3][1] == '.';
  }

  /** CPU limits the pattern takes and turns away. */
  lemma CpuPatternExamples()
    ensures Matches(CpuPattern, "500m") && Matches(CpuPattern, "2")
    ensures !Matches(CpuPattern, "0.5") && !Matches(CpuPattern, "m")
  {
    assert Matches(CpuPattern, "500m") by { assert "500m"[..3] == "500"; }
    assert !Matches(CpuPattern, "0.5") by { assert !IsDigits("0.5") by { assert "0.5"[1] == '.'; } }
    assert !Matches(CpuPattern, "m") by { assert |"m"| == 1 && "m"[0] == 'm' && !IsDigits("m"); }
  }

  /* ---------------- validate_odoo_instance ---------------- */

  datatype Verdict = Accepted | Denied(reason: string)

  const VersionRequired: string := "'version' is required in the OdooInstance spec"
  const ImageEmpty: string := "'image' cannot be empty if specified"
  const ReplicasNotInteger: string := "'replicas' must be a valid integer"
  const ReplicasTooFew: string := "'replicas' must be at least 1"
  const MemoryInvalid: string := "Invalid memory limit format"
  const CpuInvalid: string := "Invalid CPU limit format"

  /** One limit rule: when `key` is in the limits, its value must match. */
  function CheckLimit(limits: Json, key: string, p: Pattern, reason: string, reImported: bool): (r: Result<Option<string>>)
  {
    var present :- Contains(limits, key);
    if !present then Ok(None)
    else
      var ok :- ReMatch(p, Subscript(limits, key), reImported);
      Ok(if ok then None else Some(reason))
  }

  /** The resource rules: memory limit first, then cpu limit. */
  function CheckResources(resources: Json, reImported: bool): (r: Result<Verdict>) {
    var hasLimits :- Contains(resources, "limits");
    if !hasLimits then Ok(Accepted)
    else
      var limits :- Subscript(resources, "limits");
      var memory :- CheckLimit(limits, "memory", MemoryPattern, MemoryInvalid, reImported);
      if memory.Some? then Ok(Denied(memory.value))
      else
        var cpu :- CheckLimit(limits, "cpu", CpuPattern, CpuInvalid, reImported);
        Ok(if cpu.Some? then Denied(cpu.value) else Accepted)
  }

  /** The rules in order; the first one broken is reported. `reImported`
      says whether `re` is bound when the limit rules run. */
  function ValidateWith(instance: Json, reImported: bool): (r: Result<Verdict>) {
    var spec :- Get(instance, "spec", JObject(map[]));
    var version :- Get(spec, "version", JNull);
    var fields := spec.fields;
    if !Truthy(version) then Ok(Denied(VersionRequired))
    else if "image" in fields && !Truthy(fields["image"]) then Ok(Denied(ImageEmpty))
    else if "replicas" in fields && PyInt(fields["replicas"]).None? then Ok(Denied(ReplicasNotInteger))
    else if "replicas" in fields && PyInt(fields["replicas"]).value < 1 then Ok(Denied(ReplicasTooFew))
    else if "resources" in fields then CheckResources(fields["resources"], reImported)
    else Ok(Accepted)
  }

  /** `validate_odoo_instance` as written: `re` is never imported. */
  function ValidateAsWritten(instance: Json): Result<Verdict> {
    ValidateWith(instance, false)
  }

  /** `validate_odoo_instance` with `re` imported. */
  function Validate(instance: Json): Result<Verdict> {
    ValidateWith(instance, true)
  }

  /** The spec as the rules see it: the instance's `spec`, an empty object when absent. */
  function SpecOf(instance: map<string, Json>): Json {
    if "spec" in instance then instance["spec"] else JObject(map[])
  }

  predicate VersionGiven(spec: map<string, Json>) {
    "version" in spec && Truthy(spec["version"])
  }

  predicate ImageAcceptable(spec: map<string, Json>) {
    "image" !in spec || Truthy(spec["image"])
  }

  predicate ReplicasAcceptable(spec: map<string, Json>) {
    "replicas" !in spec || (PyInt(spec["replicas"]).Some? && PyInt(spec["replicas"]).value >= 1)
  }

  /** A limit, if given, is a string matching its pattern. */
  predicate LimitAcceptable(limits: map<string, Json>, key: string, p: Pattern) {
    key !in limits || (limits[key].JString? && Matches(p, limits[key].s))
  }

  /** A limit given as a string that does not match its pattern. */
  predicate LimitRejected(limits: map<string, Json>, key: string, p: Pattern) {
    key in limits && limits[key].JString? && !Matches(p, limits[key].s)
  }

  /** The limits of a spec whose resources and limits are objects. */
  function LimitsOf(spec: map<string, Json>): map<string, Json> {
    if "resources" in spec && spec["resources"].JObject? && "limits" in spec["resources"].fields
      && spec["resources"].fields["limits"].JObject?
    then spec["resources"].fields["limits"].fields
    else map[]
  }

  /** The spec is an object, and so are its resources and their limits when given. */
  predicate WellShaped(instance: map<string, Json>) {
    var spec := SpecOf(instance);
    spec.JObject?
    && ("resources" in spec.fields ==>
          spec.fields["resources"].JObject?
          && ("limits" in spec.fields["resources"].fields ==>
                spec.fields["resources"].fields["limits"].JObject?))
  }

  /** What an acceptable instance is: its spec names a version, has a
      non-empty image if any, at least one replica if any, and memory and cpu
      limits in their formats if any. */
  predicate Admissible(instance: map<string, Json>)
    requires SpecOf(instance).JObject?
  {
    var spec := SpecOf(instance).fields;
    VersionGiven(spec) && ImageAcceptable(spec) && ReplicasAcceptable(spec)
    && LimitAcceptable(LimitsOf(spec), "memory", MemoryPattern)
    && LimitAcceptable(LimitsOf(spec), "cpu", CpuPattern)
  }

  /** With `re` imported, a well-shaped instance is accepted exactly when it
      is admissible. */
  lemma ValidateAcceptsAdmissible(instance: map<string, Json>)
    requires WellShaped(instance)
    ensures Validate(JObject(instance)) == Ok(Accepted) <==> Admissible(instance)
  {
  }

  /** The rules are checked in order and the first one broken is the one
      reported, for an instance with an object spec. */
  lemma ValidateReportsFirstFailure(instance: map<string, Json>, reImported: bool)
    requires SpecOf(instance).JObject?
    ensures var spec := SpecOf(instance).fields;
      var r := ValidateWith(JObject(instance), reImported);
      && (!VersionGiven(spec) ==> r == Ok(Denied(VersionRequired)))
      && (VersionGiven(spec) && !ImageAcceptable(spec) ==> r == Ok(Denied(ImageEmpty)))
      && ((VersionGiven(spec) && ImageAcceptable(spec) && "replicas" in spec && PyInt(spec["replicas"]).None?)
            ==> r == Ok(Denied(ReplicasNotInteger)))
      && ((VersionGiven(spec) && ImageAcceptable(spec) && !ReplicasAcceptable(spec) && PyInt(spec["replicas"]).Some?)
            ==> r == Ok(Denied(ReplicasTooFew)))
      && ((VersionGiven(spec) && ImageAcceptable(spec) && ReplicasAcceptable(spec) && "resources" !in spec)
            ==> r == Ok(Accepted))
  {
  }

  /** With `re` imported, a well-shaped instance that passes the first rules
      is denied for its memory limit first, then for its cpu limit. */
  lemma ValidateLimitOrder(instance: map<string, Json>)
    requires WellShaped(instance)
    requires var spec := SpecOf(instance).fields;
      VersionGiven(spec) && ImageAcceptable(spec) && ReplicasAcceptable(spec)
    ensures var limits := LimitsOf(SpecOf(instance).fields);
      var r := Validate(JObject(instance));
      && (LimitRejected(limits, "memory", MemoryPattern) ==> r == Ok(Denied(MemoryInvalid)))
      && ((LimitAcceptable(limits, "memory", MemoryPattern) && LimitRejected(limits, "cpu", CpuPattern))
            ==> r == Ok(Denied(CpuInvalid)))
  {
  }

  /** As written, a spec that passes the first rules and sets a memory or cpu
      limit makes the check raise NameError, whatever the limit's value. */
  lemma AsWrittenRaisesOnLimits(instance: map<string, Json>)
    requires WellShaped(instance)
    requires var spec := SpecOf(instance).fields;
      VersionGiven(spec) && ImageAcceptable(spec) && ReplicasAcceptable(spec)
    requires "memory" in LimitsOf(SpecOf(instance).fields) || "cpu" in LimitsOf(SpecOf(instance).fields)
    ensures ValidateAsWritten(JObject(instance)) == Raise(NameError())
  {
  }

  /** When no memory or cpu limit is set, the missing import is never reached. */
  lemma AsWrittenAgreesWithoutLimits(instance: map<string, Json>)
    requires WellShaped(instance)
    requires "memory" !in LimitsOf(SpecOf(instance).fields) && "cpu" !in LimitsOf(SpecOf(instance).fields)
    ensures ValidateAsWritten(JObject(instance)) == Validate(JObject(instance))
  {
  }

  /** The documented cases: no version, zero replicas, and a bare version. */
  lemma ValidateScenarios()
    ensures Validate(JObject(map["spec" := JObject(map[])])) == Ok(Denied(VersionRequired))
    ensures Validate(JObject(map["spec" := JObject(map["version" := JString("17.0"), "replicas" := JInt(0)])]))
         == Ok(Denied(ReplicasTooFew))
    ensures Validate(JObject(map["spec" := JObject(map["version" := JString("17.0")])])) == Ok(Accepted)
  {
  }

  /* ---------------- mutate_odoo_instance ---------------- */

  /** The resources block filled in when the spec has none. */
  const DefaultResourcesJson: Json :=
    JObject(map[
      "limits" := JObject(map["memory" := JString("512Mi"), "cpu" := JString("500m")]),
      "requests" := JObject(map["memory" := JString("256Mi"), "cpu" := JString("250m")])])

  /** `if key not in container: container[key] = value`. */
  function SetDefault(container: Json, key: string, value: Json): (r: Result<Json>)
    ensures container.JObject? ==> r == Ok(if key in container.fields then container else JObject(container.fields[key := value]))
  {
    var present :- Contains(container, key);
    if present then Ok(container) else SetItem(container, key, value)
  }

  /** The object after the mutation, as far as it got, and what stopped it. */
  datatype Mutation = Mutation(doc: Json, error: Option<PyError>)

  /** The defaults inside the ingress and after it: `ingress.tls`, then `resources`. */
  function FillIngressAndResources(doc: map<string, Json>, spec: Json): Mutation {
    var ingress := Subscript(spec, "ingress");
    if ingress.Raise? then Mutation(JObject(doc), Some(ingress.error))
    else
      var withTls := SetDefault(ingress.value, "tls", JBool(true));
      if withTls.Raise? then Mutation(JObject(doc), Some(withTls.error))
      else
        var spec1 := JObject(spec.fields["ingress" := withTls.value]);
        var doc1 := doc["spec" := spec1];
        var spec2 := SetDefault(spec1, "resources", DefaultResourcesJson);
        if spec2.Raise? then Mutation(JObject(doc1), Some(spec2.error))
        else Mutation(JObject(doc1["spec" := spec2.value]), None)
  }

  /** The defaults of the spec: `replicas`, `ingress`, then the rest. */
  function FillSpec(doc: map<string, Json>, spec: Json): Mutation {
    var spec1 := SetDefault(spec, "replicas", JInt(1));
    if spec1.Raise? then Mutation(JObject(doc), Some(spec1.error))
    else
      var spec2 := SetDefault(spec1.value, "ingress", JObject(map[]));
      if spec2.Raise? then Mutation(JObject(doc["spec" := spec1.value]), Some(spec2.error))
      else FillIngressAndResources(doc["spec" := spec2.value], spec2.value)
  }

  /** `mutate_odoo_instance`: each default is written into the object, through
      the nested dictionaries it shares with its parent, as soon as it is set. */
  function FillDefaults(instance: Json): Mutation {
    var withSpec := SetDefault(instance, "spec", JObject(map[]));
    if withSpec.Raise? then Mutation(instance, Some(withSpec.error))
    else
      var spec := Subscript(withSpec.value, "spec");
      if spec.Raise? then Mutation(withSpec.value, Some(spec.error))
      else FillSpec(withSpec.value.fields, spec.value)
  }

  /** An ingress the TLS default can be applied to: a dictionary, or a value
      that already answers `'tls' in ingress`. */
  predicate TlsSettable(ingress: Json) {
    ingress.JObject? || Contains(ingress, "tls") == Ok(true)
  }

  /** The instance has the shape the defaults need: a dictionary whose spec,
      if any, is a dictionary whose ingress, if any, takes the TLS default. */
  predicate Mutable(instance: Json) {
    instance.JObject? &&
    var spec := SpecOf(instance.fields);
    spec.JObject? && ("ingress" in spec.fields ==> TlsSettable(spec.fields["ingress"]))
  }

  /** The ingress with TLS on unless it says otherwise. */
  function TlsDefault(ingress: Json): Json {
    if ingress.JObject? && "tls" !in ingress.fields then JObject(ingress.fields["tls" := JBool(true)]) else ingress
  }

  /** The spec with every missing default in place, independently of the
      order the mutation writes them in. */
  function DefaultedSpec(spec: map<string, Json>): map<string, Json> {
    var withReplicas := if "replicas" in spec then spec else spec["replicas" := JInt(1)];
    var ingress := if "ingress" in spec then spec["ingress"] else JObject(map[]);
    var withIngress := withReplicas["ingress" := TlsDefault(ingress)];
    if "resources" in spec then withIngress else withIngress["resources" := DefaultResourcesJson]
  }

  /** The object `mutate_odoo_instance` should leave: its spec defaulted. */
  function Defaulted(instance: map<string, Json>): Json
    requires SpecOf(instance).JObject?
  {
    JObject(instance["spec" := JObject(DefaultedSpec(SpecOf(instance).fields))])
  }

  lemma FillIngressAndResourcesEffect(doc: map<string, Json>, spec: map<string, Json>)
    requires "replicas" in spec && "ingress" in spec
    ensures FillIngressAndResources(doc, JObject(spec)).error.None? <==> TlsSettable(spec["ingress"])
    ensures TlsSettable(spec["ingress"]) ==>
      FillIngressAndResources(doc, JObject(spec)).doc == JObject(doc["spec" := JObject(DefaultedSpec(spec))])
  {
    var ingress := spec["ingress"];
    if TlsSettable(ingress) {
      var spec1 := spec["ingress" := TlsDefault(ingress)];
      assert SetDefault(ingress, "tls", JBool(true)) == Ok(TlsDefault(ingress));
      assert DefaultedSpec(spec) == if "resources" in spec then spec1 else spec1["resources" := DefaultResourcesJson];
    } else {
      assert SetDefault(ingress, "tls", JBool(true)).Raise?;
    }
  }

  /** The spec after its first two defaults, `replicas` and `ingress`. */
  function WithReplicasAndIngress(s: map<string, Json>): (r: map<string, Json>)
    ensures "replicas" in r && "ingress" in r
  {
    var s1 := if "replicas" in s then s else s["replicas" := JInt(1)];
    if "ingress" in s1 then s1 else s1["ingress" := JObject(map[])]
  }

  lemma FillSpecUnfolds(doc: map<string, Json>, s: map<string, Json>)
    ensures var s2 := WithReplicasAndIngress(s);
      FillSpec(doc, JObject(s)) == FillIngressAndResources(doc["spec" := JObject(s2)], JObject(s2))
  {
    var s1 := if "replicas" in s then s else s["replicas" := JInt(1)];
    assert SetDefault(JObject(s), "replicas", JInt(1)) == Ok(JObject(s1));
  }

  lemma WithReplicasAndIngressDefaults(s: map<string, Json>)
    ensures var s2 := WithReplicasAndIngress(s);
      && (TlsSettable(s2["ingress"]) <==> ("ingress" in s ==> TlsSettable(s["ingress"])))
      && DefaultedSpec(s2) == DefaultedSpec(s)
  {
  }

  /** The spec defaults raise nothing exactly when the ingress, if any, takes
      the TLS default. */
  lemma FillSpecSucceeds(doc: map<string, Json>, s: map<string, Json>)
    ensures FillSpec(doc, JObject(s)).error.None? <==> ("ingress" in s ==> TlsSettable(s["ingress"]))
  {
    var s2 := WithReplicasAndIngress(s);
    var m := FillIngressAndResources(doc["spec" := JObject(s2)], JObject(s2));
    assert FillSpec(doc, JObject(s)) == m by {
      FillSpecUnfolds(doc, s);
    }
    assert TlsSettable(s2["ingress"]) <==> ("ingress" in s ==> TlsSettable(s["ingress"])) by {
      WithReplicasAndIngressDefaults(s);
    }
    FillIngressAndResourcesEffect(doc["spec" := JObject(s2)], s2);
  }

  /** Writing the spec twice leaves the second value. */
  lemma SpecWrittenTwice(doc: map<string, Json>, first: Json, second: Json)
    ensures doc["spec" := first]["spec" := second] == doc["spec" := second]
  {
  }

  /** When they succeed, the spec defaults leave the defaulted spec in the object. */
  lemma FillSpecDoc(doc: map<string, Json>, s: map<string, Json>)
    requires "ingress" in s ==> TlsSettable(s["ingress"])
    ensures FillSpec(doc, JObject(s)).doc == JObject(doc["spec" := JObject(DefaultedSpec(s))])
  {
    var s2 := WithReplicasAndIngress(s);
    var d2 := doc["spec" := JObject(s2)];
    var m := FillIngressAndResources(d2, JObject(s2));
    var defaulted := JObject(DefaultedSpec(s));
    assert FillSpec(doc, JObject(s)) == m by {
      FillSpecUnfolds(doc, s);
    }
    assert m.doc == JObject(d2["spec" := defaulted]) by {
      WithReplicasAndIngressDefaults(s);
      FillIngressAndResourcesEffect(d2, s2);
    }
    SpecWrittenTwice(doc, JObject(s2), defaulted);
  }

  /** The spec defaults succeed exactly when the ingress, if any, takes the
      TLS default, and then leave the defaulted spec in the object. */
  lemma FillSpecEffect(doc: map<string, Json>, s: map<string, Json>)
    ensures FillSpec(doc, JObject(s)).error.None? <==> ("ingress" in s ==> TlsSettable(s["ingress"]))
    ensures ("ingress" in s ==> TlsSettable(s["ingress"])) ==>
      FillSpec(doc, JObject(s)).doc == JObject(doc["spec" := JObject(DefaultedSpec(s))])
  {
    FillSpecSucceeds(doc, s);
    if "ingress" in s ==> TlsSettable(s["ingress"]) {
      FillSpecDoc(doc, s);
    }
  }

  /** On a dictionary, the mutation is the spec defaults applied to the
      object with `spec` set, and to that spec. */
  lemma FillDefaultsUnfolds(instance: map<string, Json>)
    ensures var doc := if "spec" in instance then instance else instance["spec" := JObject(map[])];
      FillDefaults(JObject(instance)) == FillSpec(doc, SpecOf(instance))
  {
    var doc := if "spec" in instance then instance else instance["spec" := JObject(map[])];
    assert SetDefault(JObject(instance), "spec", JObject(map[])) == Ok(JObject(doc));
    assert Subscript(JObject(doc), "spec") == Ok(SpecOf(instance));
  }

  /** A spec that is not a dictionary stops the spec defaults with an error. */
  lemma FillSpecNeedsObject(doc: map<string, Json>, spec: Json)
    requires !spec.JObject?
    ensures FillSpec(doc, spec).error.Some?
  {
    var spec1 := SetDefault(spec, "replicas", JInt(1));
    if spec1.Ok? {
      assert spec1.value == spec;
      var spec2 := SetDefault(spec, "ingress", JObject(map[]));
      if spec2.Ok? {
        assert spec2.value == spec;
        assert Subscript(spec, "ingress").Raise?;
      }
    }
  }

  /** A value that is not a dictionary cannot be mutated. */
  lemma FillDefaultsNeedsObject(instance: Json)
    requires !instance.JObject?
    ensures FillDefaults(instance).error.Some?
  {
    var withSpec := SetDefault(instance, "spec", JObject(map[]));
    if withSpec.Ok? {
      assert withSpec.value == instance;
      assert Subscript(instance, "spec").Raise?;
    }
  }

  /** A dictionary whose spec is a dictionary is mutated as its spec is. */
  lemma FillDefaultsOnObject(instance: map<string, Json>)
    requires SpecOf(instance).JObject?
    ensures var spec := SpecOf(instance).fields;
      && (FillDefaults(JObject(instance)).error.None? <==> ("ingress" in spec ==> TlsSettable(spec["ingress"])))
      && (("ingress" in spec ==> TlsSettable(spec["ingress"])) ==> FillDefaults(JObject(instance)).doc == Defaulted(instance))
  {
    var doc := if "spec" in instance then instance else instance["spec" := JObject(map[])];
    var spec := SpecOf(instance).fields;
    FillDefaultsUnfolds(instance);
    FillSpecEffect(doc, spec);
    var defaulted := JObject(DefaultedSpec(spec));
    assert doc["spec" := defaulted] == instance["spec" := defaulted];
  }

  /** The mutation succeeds exactly on the instances of the shape it needs,
      and then leaves the defaulted object. */
  lemma FillDefaultsEffect(instance: Json)
    ensures FillDefaults(instance).error.None? <==> Mutable(instance)
    ensures Mutable(instance) ==> FillDefaults(instance).doc == Defaulted(instance.fields)
  {
    if !instance.JObject? {
      FillDefaultsNeedsObject(instance);
    } else if SpecOf(instance.fields).JObject? {
      FillDefaultsOnObject(instance.fields);
    } else {
      assert "spec" in instance.fields;
      FillDefaultsUnfolds(instance.fields);
      FillSpecNeedsObject(instance.fields, SpecOf(instance.fields));
    }
  }

  /** What the defaulted spec holds: every key it had with its value (the
      ingress gaining `tls`), plus one replica, an ingress and the resource
      block where they were missing. */
  lemma DefaultedSpecContents(spec: map<string, Json>)
    ensures var out := DefaultedSpec(spec);
      && out.Keys == spec.Keys + {"replicas", "ingress", "resources"}
      && (forall k :: k in spec && k != "ingress" ==> out[k] == spec[k])
      && ("replicas" !in spec ==> out["replicas"] == JInt(1))
      && ("resources" !in spec ==> out["resources"] == DefaultResourcesJson)
      && ("ingress" !in spec ==> out["ingress"] == JObject(map["tls" := JBool(true)]))
      && ("ingress" in spec && spec["ingress"].JObject? ==>
            && out["ingress"].JObject?
            && out["ingress"].fields.Keys == spec["ingress"].fields.Keys + {"tls"}
            && (forall k :: k in spec["ingress"].fields ==> out["ingress"].fields[k] == spec["ingress"].fields[k])
            && ("tls" !in spec["ingress"].fields ==> out["ingress"].fields["tls"] == JBool(true)))
  {
    assert map[]["tls" := JBool(true)] == map["tls" := JBool(true)];
  }

  /** Defaulting a defaulted spec changes nothing, and its ingress takes TLS. */
  lemma DefaultedSpecStable(spec: map<string, Json>)
    requires "ingress" in spec ==> TlsSettable(spec["ingress"])
    ensures var d := DefaultedSpec(spec);
      "ingress" in d && TlsSettable(d["ingress"]) && DefaultedSpec(d) == d
  {
    var d := DefaultedSpec(spec);
    var ingress := d["ingress"];
    if ingress.JObject? {
      assert "tls" in ingress.fields;
    } else {
      assert "ingress" in spec && ingress == spec["ingress"];
    }
    assert TlsDefault(ingress) == ingress;
  }

  /** Mutating a mutated instance changes nothing more. */
  lemma FillDefaultsIdempotent(instance: Json)
    requires FillDefaults(instance).error.None?
    ensures FillDefaults(FillDefaults(instance).doc) == Mutation(FillDefaults(instance).doc, None)
  {
    FillDefaultsEffect(instance);
    var spec := SpecOf(instance.fields).fields;
    var d := DefaultedSpec(spec);
    var out := instance.fields["spec" := JObject(d)];
    assert FillDefaults(instance).doc == JObject(out);
    assert SpecOf(out) == JObject(d);
    DefaultedSpecStable(spec);
    FillDefaultsOnObject(out);
    assert out["spec" := JObject(d)] == out;
  }

  /** The spec defaults of a spec holding only its version. */
  lemma BareSpecDefaulted(version: Json)
    ensures DefaultedSpec(map["version" := version]) == map["version" := version, "replicas" := JInt(1),
              "ingress" := JObject(map["tls" := JBool(true)]), "resources" := DefaultResourcesJson]
  {
    assert map[]["tls" := JBool(true)] == map["tls" := JBool(true)];
  }

  /** An instance whose spec holds only its version is defaulted to one replica,
      TLS on, and the resources block; the rest of the instance is kept. */
  lemma MutateScenario(instance: map<string, Json>, version: Json)
    requires SpecOf(instance) == JObject(map["version" := version])
    ensures FillDefaults(JObject(instance))
         == Mutation(JObject(instance["spec" := JObject(map[
              "version" := version, "replicas" := JInt(1),
              "ingress" := JObject(map["tls" := JBool(true)]), "resources" := DefaultResourcesJson])]), None)
  {
    FillDefaultsOnObject(instance);
    BareSpecDefaulted(version);
  }

  /** A spec that passes the first rules and has no resources still passes
      them once defaulted, and then carries well-shaped limits with a memory limit. */
  lemma DefaultedSpecHasLimits(spec: map<string, Json>)
    requires VersionGiven(spec) && ImageAcceptable(spec) && ReplicasAcceptable(spec) && "resources" !in spec
    ensures var d := DefaultedSpec(spec);
      && VersionGiven(d) && ImageAcceptable(d) && ReplicasAcceptable(d)
      && d["resources"] == DefaultResourcesJson
      && "memory" in LimitsOf(d)
  {
    var d := DefaultedSpec(spec);
    assert d["version"] == spec["version"];
    assert "image" in d ==> d["image"] == spec["image"];
  }

  /** Were the defaults applied, every instance that leaves its resources
      unset would then carry a memory limit, and the validation as written
      would raise on it however well-formed it is. */
  lemma DefaultedInstanceFailsAsWritten(instance: map<string, Json>)
    requires Mutable(JObject(instance))
    requires var spec := SpecOf(instance).fields;
      VersionGiven(spec) && ImageAcceptable(spec) && ReplicasAcceptable(spec) && "resources" !in spec
    ensures FillDefaults(JObject(instance)).error.None?
    ensures ValidateAsWritten(FillDefaults(JObject(instance)).doc) == Raise(NameError())
  {
    var spec := SpecOf(instance).fields;
    FillDefaultsOnObject(instance);
    var d := DefaultedSpec(spec);
    var out := instance["spec" := JObject(d)];
    assert SpecOf(out) == JObject(d);
    DefaultedSpecHasLimits(spec);
    assert WellShaped(out);
    AsWrittenRaisesOnLimits(out);
  }

  /** The submitted object, which the mutation edits in place. */
  class Document {
    var value: Json

    constructor (value: Json)
      ensures this.value == value
    {
      this.value := value;
    }

    /** `mutate_odoo_instance`: edits this object and returns the same object. */
    method Mutate() returns (same: Document, error: Option<PyError>)
      modifies this
      ensures same == this
      ensures Mutation(value, error) == FillDefaults(old(value))
    {
      same := this;
      var withSpec := SetDefault(value, "spec", JObject(map[]));
      if withSpec.Raise? {
        return this, Some(withSpec.error);
      }
      value := withSpec.value;
      var spec := Subscript(value, "spec");
      if spec.Raise? {
        return this, Some(spec.error);
      }
      error := FillSpecDefaults(spec.value);
    }

    /** The spec defaults, each written back through the shared spec. */
    method FillSpecDefaults(spec: Json) returns (error: Option<PyError>)
      requires value.JObject?
      modifies this
      ensures Mutation(value, error) == FillSpec(old(value.fields), spec)
    {
      var spec1 := SetDefault(spec, "replicas", JInt(1));
      if spec1.Raise? {
        return Some(spec1.error);
      }
      value := JObject(value.fields["spec" := spec1.value]);
      var spec2 := SetDefault(spec1.value, "ingress", JObject(map[]));
      if spec2.Raise? {
        return Some(spec2.error);
      }
      ghost var written := value.fields;
      value := JObject(value.fields["spec" := spec2.value]);
      assert value.fields == old(value.fields)["spec" := spec2.value] by {
        assert written == old(value.fields)["spec" := spec1.value];
      }
      error := FillIngress(spec2.value);
    }

    /** The ingress default and the resources default, written through the spec. */
    method FillIngress(spec: Json) returns (error: Option<PyError>)
      requires value.JObject?
      modifies this
      ensures Mutation(value, error) == FillIngressAndResources(old(value.fields), spec)
    {
      var ingress := Subscript(spec, "ingress");
      if ingress.Raise? {
        return Some(ingress.error);
      }
      var withTls := SetDefault(ingress.value, "tls", JBool(true));
      if withTls.Raise? {
        return Some(withTls.error);
      }
      var spec1 := JObject(spec.fields["ingress" := withTls.value]);
      value := JObject(value.fields["spec" := spec1]);
      var spec2 := SetDefault(spec1, "resources", DefaultResourcesJson);
      if spec2.Raise? {
        return Some(spec2.error);
      }
      value := JObject(value.fields["spec" := spec2.value]);
      error := None;
    }
  }

  /* ---------------- JSON patches ---------------- */

  /** One JSON Patch operation (RFC 6902). */
  datatype PatchOp = PatchOp(op: string, path: string, value: Json)

  /** The patch from one document to another: none between equal documents,
      else a replacement of the whole document. */
  function Diff(before: Json, after: Json): (p: seq<PatchOp>)
    ensures p == [] <==> before == after
  {
    if before == after then [] else [PatchOp("replace", "", after)]
  }

  /** Applies a patch of whole-document replacements. */
  function ApplyPatch(doc: Json, patch: seq<PatchOp>): Json
    decreases |patch|
  {
    if patch == [] then doc
    else if patch[0].op == "replace" && patch[0].path == "" then ApplyPatch(patch[0].value, patch[1..])
    else ApplyPatch(doc, patch[1..])
  }

  /** Applying the patch from `before` to `after` to `before` gives `after`. */
  lemma DiffApplies(before: Json, after: Json)
    ensures ApplyPatch(before, Diff(before, after)) == after
  {
  }

  /* ---------------- The webhook endpoints ---------------- */

  datatype ReviewStatus = ReviewStatus(code: Option<nat>, message: string)

  /** The `response` of an AdmissionReview; the patch is kept as operations,
      not as the base64 text of their JSON. */
  datatype Review = Review(uid: Json, allowed: bool, status: Option<ReviewStatus>, patch: Option<seq<PatchOp>>)

  /** An HTTP answer: its status and the review it carries; none when Flask
      answers an uncaught exception with its own error page. */
  datatype Reply = Reply(httpStatus: nat, review: Option<Review>)

  const BadRequest: nat := 400
  const HttpOk: nat := 200
  const ServerError: nat := 500

  const ValidationError: string := "Error validating OdooInstance: "
  const MutationError: string := "Error mutating OdooInstance: "

  function NoRequestReply(): Reply {
    Reply(BadRequest, Some(Review(JString(""), false, Some(ReviewStatus(Some(BadRequest), "No request information provided")), None)))
  }

  function Denial(uid: Json, message: string): Reply {
    Reply(HttpOk, Some(Review(uid, false, Some(ReviewStatus(None, message)), None)))
  }

  /** The envelope both endpoints unpack: the `request` object and its `uid`
      (default empty), read before the `try`, and its `object` (default
      empty), read inside it but unable to fail once `uid` was read. */
  datatype Envelope = Envelope(uid: Json, instance: Json)

  function Unpack(body: Json): Result<Envelope> {
    var request :- Get(body, "request", JObject(map[]));
    var uid :- Get(request, "uid", JString(""));
    var instance :- Get(request, "object", JObject(map[]));
    Ok(Envelope(uid, instance))
  }

  /** The validating endpoint, with the check it runs. */
  function ValidateReplyWith(body: Json, reImported: bool): (r: Reply)
    ensures r.review.Some? && r.review.value.allowed ==> r.httpStatus == HttpOk
  {
    if !Truthy(body) then NoRequestReply()
    else
      var envelope := Unpack(body);
      if envelope.Raise? then Reply(ServerError, None)
      else
        var uid := envelope.value.uid;
        match ValidateWith(envelope.value.instance, reImported)
        case Ok(Accepted) => Reply(HttpOk, Some(Review(uid, true, None, None)))
        case Ok(Denied(reason)) => Denial(uid, reason)
        case Raise(e) => Denial(uid, ValidationError + e.message)
  }

  function ValidateReplyAsWritten(body: Json): Reply {
    ValidateReplyWith(body, false)
  }

  function ValidateReply(body: Json): Reply {
    ValidateReplyWith(body, true)
  }

  /** What a validating reply means, for every request body: an empty body is
      answered 400; a body whose `request` or `uid` cannot be read is a 500
      error page; otherwise the review carries the request's uid and allows
      exactly what the check accepts, and a denial carries the check's reason
      or the text of the exception it raised. */
  lemma ValidateReplyMeaning(body: Json, reImported: bool)
    ensures var r := ValidateReplyWith(body, reImported);
      && (!Truthy(body) ==> r == NoRequestReply())
      && (r.httpStatus == ServerError <==> Truthy(body) && Unpack(body).Raise?)
      && (r.httpStatus == ServerError ==> r.review.None?)
      && (r.review.Some? && r.review.value.allowed <==>
            Truthy(body) && Unpack(body).Ok? && ValidateWith(Unpack(body).value.instance, reImported) == Ok(Accepted))
      && (Truthy(body) && Unpack(body).Ok? ==>
            var envelope := Unpack(body).value;
            var verdict := ValidateWith(envelope.instance, reImported);
            && r.httpStatus == HttpOk && r.review.Some? && r.review.value.uid == envelope.uid
            && (verdict.Ok? && verdict.value.Denied? ==> r == Denial(envelope.uid, verdict.value.reason))
            && (verdict.Raise? ==> r == Denial(envelope.uid, ValidationError + verdict.error.message)))
  {
  }

  /** An instance of version 17.0 whose only limit is the memory limit `memory`. */
  function LimitedInstance(memory: string): Json {
    JObject(map["spec" := JObject(map[
      "version" := JString("17.0"),
      "resources" := JObject(map["limits" := JObject(map["memory" := JString(memory)])])])])
  }

  /** An admission request for `LimitedInstance(memory)`. */
  function LimitedRequest(memory: string): Json {
    JObject(map["request" := JObject(map["uid" := JString("u1"), "object" := LimitedInstance(memory)])])
  }

  lemma LimitedRequestUnpacks(memory: string)
    ensures Truthy(LimitedRequest(memory))
    ensures Unpack(LimitedRequest(memory)) == Ok(Envelope(JString("u1"), LimitedInstance(memory)))
  {
    assert "request" in LimitedRequest(memory).fields;
  }

  /** As written, the validating endpoint turns away every instance with a
      memory limit, however well formed, reporting the missing name. */
  lemma LimitedRequestDenied(memory: string)
    ensures ValidateReplyAsWritten(LimitedRequest(memory)) == Denial(JString("u1"), ValidationError + NameError().message)
  {
    var limits := JObject(map["memory" := JString(memory)]);
    LimitedRequestUnpacks(memory);
    assert CheckLimit(limits, "memory", MemoryPattern, MemoryInvalid, false) == Raise(NameError());
    assert ValidateWith(LimitedInstance(memory), false) == Raise(NameError());
  }

  /** With `re` imported, an instance whose memory limit matches the pattern passes. */
  lemma LimitedInstanceAccepted(memory: string)
    requires Matches(MemoryPattern, memory)
    ensures Validate(LimitedInstance(memory)) == Ok(Accepted)
  {
    var instance := LimitedInstance(memory).fields;
    var limits := map["memory" := JString(memory)];
    var spec := map["version" := JString("17.0"), "resources" := JObject(map["limits" := JObject(limits)])];
    assert SpecOf(instance) == JObject(spec);
    assert LimitsOf(spec) == limits;
    ValidateAcceptsAdmissible(instance);
  }

  /** With `re` imported, the same request is admitted. */
  lemma LimitedRequestAdmitted(memory: string)
    requires Matches(MemoryPattern, memory)
    ensures ValidateReply(LimitedRequest(memory)) == Reply(HttpOk, Some(Review(JString("u1"), true, None, None)))
  {
    LimitedRequestUnpacks(memory);
    LimitedInstanceAccepted(memory);
  }

  /** Whether the mutating endpoint diffs the same object against itself (as
      written) or a copy taken before the mutation. */
  datatype DiffBase = SameObject | Snapshot

  /** The mutating endpoint. */
  function MutateReplyWith(body: Json, base: DiffBase): (r: Reply)
    ensures r.review.Some? && r.review.value.allowed ==> r.httpStatus == HttpOk && r.review.value.patch.Some?
  {
    if !Truthy(body) then NoRequestReply()
    else
      var envelope := Unpack(body);
      if envelope.Raise? then Reply(ServerError, None)
      else
        var uid := envelope.value.uid;
        var m := FillDefaults(envelope.value.instance);
        if m.error.Some? then Denial(uid, MutationError + m.error.value.message)
        else
          var before := if base == SameObject then m.doc else envelope.value.instance;
          Reply(HttpOk, Some(Review(uid, true, None, Some(Diff(before, m.doc)))))
  }

  /** As written, every admitted object comes back with an empty patch: the
      mutation edits the object it then compares with. */
  lemma MutatePatchAlwaysEmpty(body: Json)
    ensures var r := MutateReplyWith(body, SameObject);
      r.review.Some? && r.review.value.allowed ==> r.review.value.patch == Some([])
  {
  }

  /** Diffing against a copy taken before the mutation, the patch turns the
      submitted object into the defaulted one, and is empty only when there
      was nothing to fill in. */
  lemma MutatePatchApplies(body: Json)
    requires Truthy(body) && Unpack(body).Ok? && FillDefaults(Unpack(body).value.instance).error.None?
    ensures var r := MutateReplyWith(body, Snapshot);
      var instance := Unpack(body).value.instance;
      && r.review.Some? && r.review.value.allowed
      && ApplyPatch(instance, r.review.value.patch.value) == FillDefaults(instance).doc
      && (r.review.value.patch.value == [] <==> FillDefaults(instance).doc == instance)
  {
    var instance := Unpack(body).value.instance;
    DiffApplies(instance, FillDefaults(instance).doc);
  }

  /** The validating endpoint, call by call. */
  method ValidateWebhook(body: Json, reImported: bool) returns (reply: Reply)
    ensures reply == ValidateReplyWith(body, reImported)
  {
    if !Truthy(body) {
      return NoRequestReply();
    }
    var envelope := Unpack(body);
    if envelope.Raise? {
      return Reply(ServerError, None);
    }
    var uid := envelope.value.uid;
    var verdict := ValidateWith(envelope.value.instance, reImported);
    if verdict.Raise? {
      reply := Denial(uid, ValidationError + verdict.error.message);
    } else if verdict.value.Accepted? {
      reply := Reply(HttpOk, Some(Review(uid, true, None, None)));
    } else {
      reply := Denial(uid, verdict.value.reason);
    }
  }

  /** The mutating endpoint, call by call: the object is mutated in place,
      and the patch is taken between the names `instance` and
      `mutated_instance`, which denote the same object unless a copy is kept. */
  method MutateWebhook(body: Json, base: DiffBase) returns (reply: Reply)
    ensures reply == MutateReplyWith(body, base)
  {
    if !Truthy(body) {
      return NoRequestReply();
    }
    var envelope := Unpack(body);
    if envelope.Raise? {
      return Reply(ServerError, None);
    }
    var uid := envelope.value.uid;
    var instance := new Document(envelope.value.instance);
    var snapshot := instance.value;
    var mutated, error := instance.Mutate();
    if error.Some? {
      return Denial(uid, MutationError + error.value.message);
    }
    var before := if base == SameObject then instance.value else snapshot;
    reply := Reply(HttpOk, Some(Review(uid, true, None, Some(Diff(before, mutated.value)))));
  }
}
