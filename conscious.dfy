/**
  The `ConsciousConfig` value object of nanochat: three hyperparameters, checked
  once when an instance is built and never changed afterwards.

  Python is dynamically typed, so a mapping entry or an attribute the factories
  copy may hold `None` or a value of the wrong kind; `Value` keeps exactly the
  kinds the configuration meets, and the checks say what each kind does.
 */
module Conscious {
  import opened Wrappers

  /** A Python value as read from a mapping entry or an attribute: `None`, an `int` or a `str`. */
  datatype Value = Null | Int(i: int) | Str(s: string)

  /** The three fields, in declaration order. */
  datatype Field = ReentrySteps | IgniteTopk | GateMode

  /** What construction raises. */
  datatype ConfigError =
    | ValueError(field: Field)  // a range or membership check failed
    | TypeError(field: Field)   // `<` was applied to a value that is not an int
    | UnexpectedKeyword         // a keyword argument that names no field

  const ReentryStepsKey: string := "reentry_steps"
  const IgniteTopkKey: string := "ignite_topk"
  const GateModeKey: string := "gate_mode"

  /** The recognised keys, in the order `from_dict` and `from_model_config` visit them. */
  const FieldNames: seq<string> := [ReentryStepsKey, IgniteTopkKey, GateModeKey]

  /** `VALID_GATE_MODES`. */
  const ValidGateModes: seq<string> := ["none", "token", "head"]

  const DefaultReentrySteps: int := 0
  const DefaultIgniteTopk: int := 0
  const DefaultGateMode: string := "none"

  /** The mapping key under which a field is stored. */
  function Key(f: Field): (k: string)
    ensures k in FieldNames
  {
    match f
    case ReentrySteps => ReentryStepsKey
    case IgniteTopk => IgniteTopkKey
    case GateMode => GateModeKey
  }

  /** The three field values of a configuration; whether they are acceptable is `Valid`. */
  datatype ConsciousConfig = ConsciousConfig(reentrySteps: int, igniteTopk: int, gateMode: string) {

    /** The invariant `__post_init__` enforces. */
    predicate Valid() {
      reentrySteps >= 0 && igniteTopk >= 0 && gateMode in ValidGateModes
    }

    /** The value this configuration holds for field `f`, as a mapping would carry it. */
    function Get(f: Field): Value {
      match f
      case ReentrySteps => Int(reentrySteps)
      case IgniteTopk => Int(igniteTopk)
      case GateMode => Str(gateMode)
    }

    /** `to_dict`: exactly the recognised keys, each bound to the current field value. */
    function ToDict(): (m: map<string, Value>)
      ensures forall k :: k in m <==> k in FieldNames
      ensures forall f: Field :: m[Key(f)] == Get(f)
    {
      map[ReentryStepsKey := Int(reentrySteps), IgniteTopkKey := Int(igniteTopk), GateModeKey := Str(gateMode)]
    }
  }

  /** A live instance: every instance that construction hands out satisfies the invariant. */
  type ValidConfig = c: ConsciousConfig | c.Valid() witness ConsciousConfig(0, 0, "none")

  /** The instance built from no arguments. */
  const Default: ValidConfig := ConsciousConfig(DefaultReentrySteps, DefaultIgniteTopk, DefaultGateMode)

  /** An argument value that passes the count checks of `__post_init__`. */
  predicate IsCount(v: Value) {
    v.Int? && v.i >= 0
  }

  /** An argument value that passes the gate-mode check of `__post_init__`. */
  predicate IsGateMode(v: Value) {
    v.Str? && v.s in ValidGateModes
  }

  /**
    `__post_init__` on the three values the fields were assigned: the checks
    run for `reentry_steps`, then `ignite_topk`, then `gate_mode`, and the
    first that fails is the one raised.
   */
  function PostInit(reentry: Value, topk: Value, mode: Value): (res: Result<ValidConfig, ConfigError>)
    ensures res.Success? <==> IsCount(reentry) && IsCount(topk) && IsGateMode(mode)
    ensures res.Success? ==>
      res.value.Get(ReentrySteps) == reentry && res.value.Get(IgniteTopk) == topk && res.value.Get(GateMode) == mode
    ensures !reentry.Int? ==> res == Failure(TypeError(ReentrySteps))
    ensures reentry.Int? && reentry.i < 0 ==> res == Failure(ValueError(ReentrySteps))
    ensures IsCount(reentry) && !topk.Int? ==> res == Failure(TypeError(IgniteTopk))
    ensures IsCount(reentry) && topk.Int? && topk.i < 0 ==> res == Failure(ValueError(IgniteTopk))
    ensures IsCount(reentry) && IsCount(topk) && !IsGateMode(mode) ==> res == Failure(ValueError(GateMode))
  {
    if !reentry.Int? then Failure(TypeError(ReentrySteps))
    else if reentry.i < 0 then Failure(ValueError(ReentrySteps))
    else if !topk.Int? then Failure(TypeError(IgniteTopk))
    else if topk.i < 0 then Failure(ValueError(IgniteTopk))
    else if !(mode.Str? && mode.s in ValidGateModes) then Failure(ValueError(GateMode))
    else Success(ConsciousConfig(reentry.i, topk.i, mode.s))
  }

  /** Direct construction with all three fields given as values of their declared types. */
  function New(reentrySteps: int, igniteTopk: int, gateMode: string): (res: Result<ValidConfig, ConfigError>)
    ensures res.Success? <==> ConsciousConfig(reentrySteps, igniteTopk, gateMode).Valid()
    ensures res.Success? ==> res.value == ConsciousConfig(reentrySteps, igniteTopk, gateMode)
    ensures reentrySteps < 0 ==> res == Failure(ValueError(ReentrySteps))
    ensures reentrySteps >= 0 && igniteTopk < 0 ==> res == Failure(ValueError(IgniteTopk))
    ensures reentrySteps >= 0 && igniteTopk >= 0 && gateMode !in ValidGateModes ==>
      res == Failure(ValueError(GateMode))
  {
    PostInit(Int(reentrySteps), Int(igniteTopk), Str(gateMode))
  }

  /** The value a keyword argument supplies, or the field's default when it is not passed. */
  function Arg(kwargs: map<string, Value>, f: Field): Value {
    if Key(f) in kwargs then kwargs[Key(f)] else Default.Get(f)
  }

  /**
    `ConsciousConfig(**kwargs)`: a keyword that names no field is refused
    before any field is checked; every field not passed takes its default.
   */
  function Construct(kwargs: map<string, Value>): (res: Result<ValidConfig, ConfigError>)
    ensures res == Failure(UnexpectedKeyword) <==> exists k :: k in kwargs && k !in FieldNames
    ensures (forall k :: k in kwargs ==> k in FieldNames) ==>
      res == PostInit(Arg(kwargs, ReentrySteps), Arg(kwargs, IgniteTopk), Arg(kwargs, GateMode))
    ensures res.Success? ==> forall f: Field ::
      res.value.Get(f) == if Key(f) in kwargs then kwargs[Key(f)] else Default.Get(f)
  {
    if exists k :: k in kwargs && k !in FieldNames then Failure(UnexpectedKeyword)
    else PostInit(Arg(kwargs, ReentrySteps), Arg(kwargs, IgniteTopk), Arg(kwargs, GateMode))
  }

  /** A recognised key the mapping holds with a value other than `None`. */
  predicate Present(data: map<string, Value>, k: string) {
    k in data && data[k] != Null
  }

  /** The comprehension of `from_dict`: recognised keys with a non-`None` value, copied unchanged. */
  function Filtered(data: map<string, Value>): map<string, Value> {
    map k | k in FieldNames && Present(data, k) :: data[k]
  }

  /** `from_dict`: an absent mapping counts as the empty one. */
  function FromDict(data: Option<map<string, Value>>): (res: Result<ValidConfig, ConfigError>)
    ensures res != Failure(UnexpectedKeyword)
    ensures res.Success? ==> forall f: Field ::
      res.value.Get(f) == if data.Some? && Present(data.value, Key(f)) then data.value[Key(f)] else Default.Get(f)
  {
    Construct(Filtered(data.GetOr(map[])))
  }

  /** The readable attributes of an external object, by name. */
  type Attributes = map<string, Value>

  /** A host model: its `config` attribute, `None` when it has none or it is `None`. */
  datatype Model = Model(config: Option<Attributes>)

  /** The payload `from_model_config` collects: every recognised attribute the object exposes, whatever its value. */
  function Exposed(attrs: Attributes): map<string, Value> {
    map k | k in FieldNames && k in attrs :: attrs[k]
  }

  /** What `from_model_config` returns, stated without its loop. */
  function FromModelConfigSpec(config: Option<Attributes>): (res: Result<ValidConfig, ConfigError>)
    ensures res != Failure(UnexpectedKeyword)
    ensures config.None? ==> res == Success(Default)
    ensures config.Some? && res.Success? ==> forall f: Field ::
      res.value.Get(f) == if Key(f) in config.value then config.value[Key(f)] else Default.Get(f)
  {
    match config
    case None => Success(Default)
    case Some(attrs) => Construct(Exposed(attrs))
  }

  /**
    `with_overrides`: start from `to_dict()`, overwrite the entry of each
    supplied override, and construct again. The receiver `c` is a value
    and cannot change.
   */
  method WithOverrides(c: ValidConfig, reentrySteps: Option<int>, igniteTopk: Option<int>, gateMode: Option<string>)
    returns (res: Result<ValidConfig, ConfigError>)
    ensures res == New(reentrySteps.GetOr(c.reentrySteps), igniteTopk.GetOr(c.igniteTopk), gateMode.GetOr(c.gateMode))
    ensures reentrySteps.None? && igniteTopk.None? && gateMode.None? ==> res == Success(c)
    ensures res.Success? ==>
      && res.value.reentrySteps == (if reentrySteps.Some? then reentrySteps.value else c.reentrySteps)
      && res.value.igniteTopk == (if igniteTopk.Some? then igniteTopk.value else c.igniteTopk)
      && res.value.gateMode == (if gateMode.Some? then gateMode.value else c.gateMode)
  {
    var data := c.ToDict();
    if reentrySteps.Some? {
      data := data[ReentryStepsKey := Int(reentrySteps.value)];
    }
    if igniteTopk.Some? {
      data := data[IgniteTopkKey := Int(igniteTopk.value)];
    }
    if gateMode.Some? {
      data := data[GateModeKey := Str(gateMode.value)];
    }
    res := Construct(data);
  }

  /** `from_model_config`: visit the recognised names in order and copy each attribute the object exposes. */
  method FromModelConfig(config: Option<Attributes>) returns (res: Result<ValidConfig, ConfigError>)
    ensures res == FromModelConfigSpec(config)
  {
    if config.None? {
      return Success(Default);
    }
    var attrs := config.value;
    var payload: map<string, Value> := map[];
    for i := 0 to |FieldNames|
      invariant forall k :: k in payload <==> k in FieldNames[..i] && k in attrs
      invariant forall k :: k in payload ==> payload[k] == attrs[k]
    {
      var key := FieldNames[i];
      if key in attrs {
        payload := payload[key := attrs[key]];
      }
    }
    assert FieldNames[..|FieldNames|] == FieldNames;
    assert payload == Exposed(attrs);
    res := Construct(payload);
  }

  /** `from_model`: `from_model_config` applied to the model's `config`. */
  method FromModel(model: Model) returns (res: Result<ValidConfig, ConfigError>)
    ensures res == FromModelConfigSpec(model.config)
    ensures model.config.None? ==> res == Success(Default)
  {
    res := FromModelConfig(model.config);
  }
}
