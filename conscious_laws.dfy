/**
  Properties of `ConsciousConfig` that relate several operations: the
  defaults, the `to_dict`/`from_dict` round trip, how `from_dict` fills
  absent, `None` and unknown keys, and how the model-config factory compares
  with `from_dict`.
 */
module ConsciousLaws {
  import opened Wrappers
  import opened Conscious

  /** The value `from_dict` passes for field `f`: the entry when present and not `None`, else the default. */
  function DictArg(data: map<string, Value>, f: Field): Value {
    if Present(data, Key(f)) then data[Key(f)] else Default.Get(f)
  }

  /** The defaults are (0, 0, "none"), they form a valid instance, and that is what an argument-free call builds. */
  lemma DefaultInstance()
    ensures Default.Valid()
    ensures Default == ConsciousConfig(0, 0, "none")
    ensures Construct(map[]) == Success(Default)
    ensures New(0, 0, "none") == Success(Default)
  {
  }

  /** `from_dict(c.to_dict())` gives back `c`, field for field. */
  lemma RoundTrip(c: ValidConfig)
    ensures FromDict(Some(c.ToDict())) == Success(c)
  {
  }

  /** `to_dict` loses nothing: two instances with the same mapping are the same instance. */
  lemma ToDictInjective(c: ValidConfig, c': ValidConfig)
    requires c.ToDict() == c'.ToDict()
    ensures c == c'
  {
    RoundTrip(c);
    RoundTrip(c');
  }

  /** An absent mapping and the empty mapping both give the default instance. */
  lemma FromDictAbsent()
    ensures FromDict(None) == Success(Default)
    ensures FromDict(Some(map[])) == Success(Default)
  {
  }

  /** `from_dict` is construction from the recognised, non-`None` entries, every other field defaulted. */
  lemma FromDictFillsDefaults(data: map<string, Value>)
    ensures FromDict(Some(data)) ==
      PostInit(DictArg(data, ReentrySteps), DictArg(data, IgniteTopk), DictArg(data, GateMode))
  {
  }

  /** A key that names no field does not change what `from_dict` returns. */
  lemma FromDictIgnoresUnknownKey(data: map<string, Value>, k: string, v: Value)
    requires k !in FieldNames
    ensures FromDict(Some(data[k := v])) == FromDict(Some(data))
  {
  }

  /** A key bound to `None` is treated exactly like a key that is missing. */
  lemma FromDictNullIsAbsent(data: map<string, Value>, k: string)
    ensures FromDict(Some(data[k := Null])) == FromDict(Some(data - {k}))
  {
  }

  /** `{"reentry_steps": 5, "unknown_key": 99}` gives (5, 0, "none"). */
  lemma FromDictUnknownKeyExample()
    ensures FromDict(Some(map[ReentryStepsKey := Int(5), "unknown_key" := Int(99)])) ==
      Success(ConsciousConfig(5, 0, "none"))
  {
  }

  /** `from_dict` raises for a present value out of range, as direct construction does. */
  lemma FromDictRejectsNegative(data: map<string, Value>, n: int)
    requires n < 0
    ensures FromDict(Some(data[ReentryStepsKey := Int(n)])) == Failure(ValueError(ReentrySteps))
  {
  }

  /** `from_model_config` copies each exposed attribute, whatever its value, and defaults the rest. */
  lemma FromModelConfigCopiesExposed(attrs: Attributes)
    ensures FromModelConfigSpec(Some(attrs)) ==
      PostInit(Arg(attrs, ReentrySteps), Arg(attrs, IgniteTopk), Arg(attrs, GateMode))
  {
  }

  /** An exposed count attribute whose value is `None` is copied and then fails the `<` comparison. */
  lemma FromModelConfigCopiesNull(attrs: Attributes)
    requires ReentryStepsKey in attrs && attrs[ReentryStepsKey] == Null
    ensures FromModelConfigSpec(Some(attrs)) == Failure(TypeError(ReentrySteps))
  {
  }

  /** When no recognised attribute is `None`, the model-config factory and `from_dict` agree. */
  lemma FromModelConfigAgreesWithFromDict(attrs: Attributes)
    requires forall f: Field :: Key(f) in attrs ==> attrs[Key(f)] != Null
    ensures FromModelConfigSpec(Some(attrs)) == FromDict(Some(attrs))
  {
  }

  /** An object exposing only `gate_mode = "token"` gives (0, 0, "token"). */
  lemma FromModelConfigGateModeExample()
    ensures FromModelConfigSpec(Some(map[GateModeKey := Str("token")])) ==
      Success(ConsciousConfig(0, 0, "token"))
  {
  }

  /** `from_model` on a model whose `config` exposes only `ignite_topk = 7` gives (0, 7, "none"). */
  method FromModelIgniteTopkExample() returns (res: Result<ValidConfig, ConfigError>)
    ensures res == Success(ConsciousConfig(0, 7, "none"))
  {
    res := FromModel(Model(Some(map[IgniteTopkKey := Int(7)])));
  }
}
