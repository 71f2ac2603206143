# ConsciousConfig

A model of nanochat's `ConsciousConfig`: an immutable record of three
hyperparameters (`reentry_steps`, `ignite_topk`, `gate_mode`) that is checked
once at construction, converts to and from a flat key/value mapping, copies
itself with overrides, and can be collected from a host model's config object.

- `wrappers.dfy`: `Option` and `Result`.
- `conscious.dfy` (module `Conscious`): the record `ConsciousConfig` and its
  invariant `Valid()`, the subset type `ValidConfig` of live instances, the
  `__post_init__` checks (`PostInit`), direct construction (`New`),
  construction from keyword arguments (`Construct`, i.e. `cls(**kwargs)`),
  `to_dict`, `from_dict`, `with_overrides`, `from_model_config` and
  `from_model`.
- `conscious_laws.dfy` (module `ConsciousLaws`): the round trip, the
  default-filling rules and the relation between the factories.

Python values read from a mapping or an attribute are modelled as
`Value = Null | Int | Str`, so the model follows what the code does with a
`None` or a wrongly typed value:
- `__post_init__` raises `ValueError` when a range or membership check fails
  (nanochat/conscious.py:20-27), and `TypeError` when `<` meets a count that is not an
  int. A gate mode that is not one of the three strings, `None` included,
  fails the `in` test with a `ValueError`.
- A keyword that names no field makes the generated `__init__` raise before
  any check runs. The model calls this `UnexpectedKeyword`; the contracts of
  `FromDict` and `FromModelConfigSpec` show that neither factory can reach it,
  and for `WithOverrides` it follows from its tie to `New`.
- `from_model_config` copies an exposed attribute even when its value is
  `None` (nanochat/conscious.py:67-70), while `from_dict` drops such entries
  (nanochat/conscious.py:59). So an exposed `None` count makes `from_model_config`
  fail (`FromModelConfigCopiesNull`), and the two factories agree whenever no
  recognised value is `None` (`FromModelConfigAgreesWithFromDict`).

Instances are Dafny datatype values, so "the receiver is never changed" holds
by construction: `WithOverrides` returns a new value and cannot touch its receiver `c`.

## Model

| member | source | states |
|---|---|---|
| Conscious.PostInit | nanochat/conscious.py:19-27 | succeeds exactly when both counts are non-negative ints and the mode is one of the valid modes; the instance carries the given values; the error is the first failing check in the order reentry_steps, ignite_topk, gate_mode (TypeError for a non-int count, ValueError otherwise) |
| Conscious.New | nanochat/conscious.py:13-27 | direct construction succeeds iff `ConsciousConfig(r, k, g).Valid()`, and then yields exactly those fields; otherwise ValueError for the first violated field in check order |
| Conscious.Construct | nanochat/conscious.py:13-27 | `cls(**kwargs)`: an unknown keyword is refused (and only then UnexpectedKeyword); with only recognised keywords the `__post_init__` checks run on each supplied argument or the field's default; on success each field is that value |
| Conscious.ConsciousConfig.ToDict | nanochat/conscious.py:29-34 | the mapping has exactly the three recognised keys, each bound to the instance's field value |
| Conscious.FromDict | nanochat/conscious.py:52-61 | never raises UnexpectedKeyword; on success each field is the mapping's non-`None` entry for it, else the default |
| Conscious.FromModelConfigSpec | nanochat/conscious.py:63-71 | an absent config gives the default; otherwise on success each field is the exposed attribute for it, else the default; never UnexpectedKeyword |
| Conscious.WithOverrides | nanochat/conscious.py:36-50 | equals direct construction on the receiver's fields with each supplied override substituted; no overrides returns the receiver; on success every non-overridden field keeps the receiver's value; an invalid override fails with the constructor's error |
| Conscious.FromModelConfig | nanochat/conscious.py:63-71 | the loop over the recognised names returns exactly `FromModelConfigSpec(config)` |
| Conscious.FromModel | nanochat/conscious.py:73-75 | equals the model-config result for the model's `config`, and the default when there is none |
| ConsciousLaws.DefaultInstance | nanochat/conscious.py:13-17 | defaults are (0, 0, "none"), valid, and are what an argument-free construction returns |
| ConsciousLaws.RoundTrip | nanochat/conscious.py:29-61 | `from_dict(c.to_dict())` succeeds and equals `c` for every valid instance |
| ConsciousLaws.ToDictInjective | nanochat/conscious.py:29-34 | two valid instances with equal mappings are equal |
| ConsciousLaws.FromDictAbsent | nanochat/conscious.py:53-61 | `from_dict(None)` and `from_dict({})` both give the default instance |
| ConsciousLaws.FromDictFillsDefaults | nanochat/conscious.py:56-61 | `from_dict` is the checks applied to the present non-`None` entries, with every other field defaulted (success and error cases alike) |
| ConsciousLaws.FromDictIgnoresUnknownKey | nanochat/conscious.py:56-60 | adding a key that names no field never changes the result |
| ConsciousLaws.FromDictNullIsAbsent | nanochat/conscious.py:59 | a key bound to `None` gives the same result as the key missing |
| ConsciousLaws.FromDictUnknownKeyExample | nanochat/conscious.py:53-61 | `{"reentry_steps": 5, "unknown_key": 99}` gives (5, 0, "none") |
| ConsciousLaws.FromDictRejectsNegative | nanochat/conscious.py:20-21 | a negative `reentry_steps` entry makes `from_dict` fail with the reentry_steps ValueError, whatever else the mapping holds |
| ConsciousLaws.FromModelConfigCopiesExposed | nanochat/conscious.py:67-71 | each exposed recognised attribute is copied whatever its value and each missing one takes its default, before the checks run |
| ConsciousLaws.FromModelConfigCopiesNull | nanochat/conscious.py:67-71 | an exposed `reentry_steps` attribute that is `None` makes the factory fail with a TypeError for that field |
| ConsciousLaws.FromModelConfigAgreesWithFromDict | nanochat/conscious.py:53-71 | when no recognised attribute is `None`, `from_model_config` and `from_dict` give the same result |
| ConsciousLaws.FromModelConfigGateModeExample | nanochat/conscious.py:63-71 | an object exposing only `gate_mode = "token"` gives (0, 0, "token") |
| ConsciousLaws.FromModelIgniteTopkExample | nanochat/conscious.py:73-75 | calling `FromModel` on a model whose config exposes only `ignite_topk = 7` returns (0, 7, "none") |

## Left out

- `hasattr`/`getattr` introspection of arbitrary objects: an external object is modelled by the map of its readable attributes, and a model by its `config` attribute, with a missing `config` and `config = None` both as `None`.
- Values other than `None`, `int` and `str`. A float or bool count would pass the `< 0` test in Python; the model cannot express one.
- The text of the error messages, including the `join` of the valid modes: errors are tagged only with their kind and the failing field.
- Dict insertion order, and the frozen-dataclass machinery (generated `__eq__`, `__hash__`, `ClassVar`): datatype equality stands in for `__eq__`.
- WithOverrides: the overrides are typed (`Option<int>`, `Option<string>`), as the signature declares; a wrongly typed override passed at run time is not modelled.
- The host model, training loops and whatever reads `gate_mode`: none of them is part of this model.
