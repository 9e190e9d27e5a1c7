# django-nats-consumer: subject router and configuration merge, in Dafny

This project models two pieces of the `nats_consumer` package, a framework
for consuming messages from a NATS JetStream broker:

- **The subject router `ConsumerHandler`** (`src/nats_consumer/handler.py`).
  At construction it turns its list of subjects into a handler map from each
  non-wildcard subject to a handler-method name. To derive a name it unifies
  `.`, `-` and `_`, splits on `_` with Python's `str.split` semantics and
  prefixes `handle_`. With two or more tokens the first is dropped as a
  namespace (`orders.created` gives `handle_created`); a single token is kept
  (`payments` gives `handle_payments`). Subjects that derive
  the same name are logged as collisions; none is dropped. `handle` then
  routes a message by its subject in one of four ways. It falls back with
  `unhandled_subject`, `no_mapping` or `not_implemented`, or it invokes the
  handler method and lets the method's exception propagate unchanged. The
  default fallback naks (negatively acknowledges) the message.
  `get_handler_methods` and `validate_handlers` are the introspection calls.
- **Configuration loading** (`src/nats_consumer/settings.py`). `merge_dicts`
  deep-merges the user's `NATS_CONSUMER` setting over `CONFIG_DEFAULTS`, with
  the right side winning. The module then insists that `nats_servers` is a
  list and builds `connection_args` from the options whose values are truthy.

Files:

- `wrappers.dfy` (module `Wrappers`): `Option` and `Result`.
- `pystring.dfy` (module `PyString`): Python's `str.replace` (one character),
  `str.split` and `str.join`. It proves that split and join are inverse.
- `handler.dfy` (module `Handler`): name derivation, the construction loop as
  a fold (`Build`), and its lemmas. It also holds the classes `Msg` (ack and
  nak counters) and `ConsumerHandler` (constant `subjects`, `attributes`,
  `handlerMap`, `collisionLog`). `ConsumerHandler` has the loop method
  `BuildHandlerMap`, the routing decision `Route`, and the methods `Handle`,
  `FallbackHandle` and `ValidateHandlers`.
- `scenarios.dfy` (module `HandlerScenarios`): client code for the situations
  in `tests/test_handler.py`. The methods are proved from the router's
  contracts; two small lemmas (`TwoSubjectKeys`, `OnlyDeletedMissing`) work
  out the handler map and the validation filter for two concrete names.
- `settings.dfy` (module `Settings`): the `Value` type, `Merge`, the loop
  method `MergeDicts`, `GetConfig`, `ConnectionArgs` and `LoadSettings`.

Modelling choices:

- The router object's dynamic attributes (`hasattr`/`getattr`) are a map
  `attributes` from name to `AsyncMethod(result)` or `NonCallable`. Every
  derived name starts with `handle_`, and no attribute of the base class does,
  so the map holds only the handler methods a subclass defines.
- Calling a handler method is modelled by its result: it returns, or it
  raises an exception with a message. `Handle` returns an `Outcome` that says
  which path ran, and which exception, if any, left it.
- The handler map is an ordered dict: `keys` in insertion order plus `names`.
  Order matters because `get_handler_methods` and `validate_handlers` follow
  it.
- Configuration dicts are Dafny maps, because no property of `merge_dicts`
  depends on key order.
- The Django settings object is a parameter: a map from setting name to
  value.

## Model

| member | source | states |
|---|---|---|
| `Handler.IsWildcard` | src/nats_consumer/handler.py:55-57 | the definition of the wildcard test (a subject is skipped exactly when some character of it is `*` or `>`); what it buys is stated by `Handler.NoWildcardKeys` and `Handler.BuildMapKeys` |
| `Handler.HandlerName` | src/nats_consumer/handler.py:59-74 | every derived name starts with `handle_`, so it is never empty and the `if not handler_name` test at line 112 never fires for a mapped subject |
| `PyString.ReplaceChar` | src/nats_consumer/handler.py:60 | `replace` keeps the length, swaps each occurrence of the character and nothing else, and leaves none of it behind |
| `PyString.Split` | src/nats_consumer/handler.py:63 | `split('_')` never returns an empty list, no part holds the separator, and joining the parts with it gives back the input |
| `PyString.SplitJoin` | src/nats_consumer/handler.py:63-70 | splitting a join of separator-free parts returns exactly those parts, so empty tokens survive |
| `PyString.SplitLength` | src/nats_consumer/handler.py:63 | a string with k separators splits into k + 1 parts |
| `Handler.Normalize` | src/nats_consumer/handler.py:60 | each `.`, `-` and `_` becomes `_`; every other character and the length are kept |
| `Handler.NamespaceDropped` | src/nats_consumer/handler.py:59-70 | for a subject `ns<sep>rest` whose first token has no separator, the name is `handle_` + `rest` with its separators unified, so the first token is dropped |
| `Handler.TwoTokenName` | src/nats_consumer/handler.py:59-70 | a two-token subject whose tokens hold no separator is served by `handle_` + its second token, whichever of `.`, `-`, `_` joins them |
| `Handler.SingleTokenName` | src/nats_consumer/handler.py:71-74 | a subject without separators is served by `handle_` + the subject |
| `Handler.SeparatorsInterchangeable` | src/nats_consumer/handler.py:59-74 | subjects that differ only in which of `.`, `-`, `_` they use derive the same name |
| `Handler.DocumentedNotations` | src/nats_consumer/handler.py:12-15 | `orders.created`, `orders-created` and `orders_created` all give `handle_created` |
| `Handler.MultiLevelName` | src/nats_consumer/handler.py:59-70 | a three-token subject `ns<sep>a<sep>b` gives `handle_a_b`: every token after the namespace is kept, joined by `_` (so the tested `orders.old.archived` gives `handle_old_archived`) |
| `Handler.DocumentedMultiLevel` | src/nats_consumer/handler.py:17 | `orders.old.deleted` gives `handle_old_deleted`, with any of the three separators at either place |
| `Handler.EmptyTokensKept` | src/nats_consumer/handler.py:62-70 | empty tokens are kept: `a..b` gives `handle__b`, `a.` gives `handle_` |
| `Handler.HandlerMap.Put` | src/nats_consumer/handler.py:87 | `handler_map[subject] = name`: the entry is set, a new key goes last, an existing key keeps its place, and the map stays well-formed |
| `Handler.HandlerMap.Values` | src/nats_consumer/handler.py:131 | `values()` lists one value per key, in key order |
| `Handler.Step` | src/nats_consumer/handler.py:54-87 | one loop iteration: a wildcard changes nothing; otherwise the subject is mapped to its derived name and that name is recorded in `method_collisions`; the warning log only grows, by at most one entry |
| `Handler.Build` | src/nats_consumer/handler.py:51-87 | the whole loop, as a fold of `Step` over the list; it logs at most one warning per entry |
| `Handler.BuildMapKeys` | src/nats_consumer/handler.py:54-87 | the map's keys are distinct and are exactly the listed subjects without `*` or `>`; each key maps to the name derived from that key alone |
| `Handler.BuildKeyOrder` | src/nats_consumer/handler.py:51-87 | the keys come from the list, in order of first appearance (dict insertion order) |
| `Handler.NoWildcardKeys` | src/nats_consumer/handler.py:55-57 | no key holds `*` or `>`; `orders.*` and `users.>` are never keys |
| `Handler.SameSubjectsSameMap` | src/nats_consumer/handler.py:35-97 | lists with the same subjects give the same map, whatever their order or repetitions, so construction is deterministic |
| `Handler.CollisionKeepsBoth` | src/nats_consumer/handler.py:76-87 | two listed subjects that derive the same name both stay keys, mapped to that shared name |
| `Handler.CollisionTableKeys` | src/nats_consumer/handler.py:76-85 | `method_collisions` has one entry per distinct derived name |
| `Handler.CollisionTableFirst` | src/nats_consumer/handler.py:76-85 | `method_collisions` maps each name to the first listed subject that derives it |
| `Handler.CollisionAccounting` | src/nats_consumer/handler.py:76-87 | each non-wildcard entry of the list either records a new name or logs exactly one warning |
| `Handler.WarningStep` | src/nats_consumer/handler.py:76-83 | one more subject logs one warning exactly when it is not a wildcard and an earlier subject already derives its name; the warning names the first such subject |
| `Handler.WarningCount` | src/nats_consumer/handler.py:76-87 | the number of warnings is the number of non-wildcard entries minus the number of distinct derived names |
| `Handler.ConsumerHandler.constructor` | src/nats_consumer/handler.py:31-33 | keeps the subjects and builds the handler map and collision log from them |
| `Handler.ConsumerHandler.BuildHandlerMap` | src/nats_consumer/handler.py:35-97 | the loop computes the fold `Build`; the result has exactly the non-wildcard subjects as keys, each mapped to its derived name, and warnings = mapped entries − distinct names |
| `Handler.ConsumerHandler.Route` | src/nats_consumer/handler.py:104-122 | each of the four paths happens exactly when its condition holds: unlisted subject gives `unhandled_subject`; listed wildcard gives `no_mapping`; listed subject whose name has no attribute gives `not_implemented`; otherwise the subject's own derived name is invoked |
| `Handler.ConsumerHandler.Handle` | src/nats_consumer/handler.py:99-127 | a fallback path naks once and never acks; on the invoke path the router neither acks nor naks, and the method's return or exception is passed on unchanged; a non-callable attribute raises a TypeError |
| `Handler.Msg.Nak` | src/nats_consumer/handler.py:174 | `msg.nak()` counts one more nak and leaves the ack count alone |
| `Handler.ConsumerHandler.FallbackHandle` | src/nats_consumer/handler.py:144-174 | the default fallback naks the message exactly once and never acks it |
| `Handler.MapValuesAreDerivedNames` | src/nats_consumer/handler.py:129-131 | the proof behind `Handler.ConsumerHandler.HandlerMethods`, stated over `Build(subjects)`: the map's values, in key order, are the names derived from the keys, and as a set exactly the derived names of the listed subjects |
| `Handler.ConsumerHandler.HandlerMethods` | src/nats_consumer/handler.py:129-131 | one name per mapped subject, in map order, each that subject's derived name; the names are exactly the derived names of the listed subjects |
| `Handler.ConsumerHandler.Implemented` | src/nats_consumer/handler.py:140 | the definition of the check in `validate_handlers`: a name is implemented exactly when the attribute exists and is callable |
| `Handler.ConsumerHandler.Unimplemented` | src/nats_consumer/handler.py:138-141 | keeps, in order, exactly the names without a callable attribute |
| `Handler.ConsumerHandler.ValidateHandlers` | src/nats_consumer/handler.py:133-142 | returns, in map order and one per mapped subject, the names whose attribute is absent or not callable |
| `Handler.ConsumerHandler.ValidatedRoutesInvoke` | src/nats_consumer/handler.py:117-142 | when validation reports nothing, every listed non-wildcard subject is routed to a callable handler method |
| `Handler.ConsumerHandler.NonCallableRoutedAndReported` | src/nats_consumer/handler.py:117-140 | `handle` checks only `hasattr` and validation also checks `callable`, so a non-callable attribute is invoked by `handle` and is also reported missing |
| `HandlerScenarios.MissingMethodScenario` | tests/test_handler.py:144-159 | a mapped subject without its method falls back with `not_implemented`; nak once, no ack |
| `HandlerScenarios.UnhandledSubjectScenario` | tests/test_handler.py:267-280 | an unlisted subject falls back with `unhandled_subject`; nak once, no ack |
| `HandlerScenarios.RaisingHandlerScenario` | tests/test_handler.py:161-180 | a handler's exception propagates unchanged; neither ack nor nak |
| `HandlerScenarios.WildcardScenario` | src/nats_consumer/handler.py:111-115 | a listed wildcard subject falls back with `no_mapping` |
| `HandlerScenarios.CollisionScenario` | tests/test_handler.py:209-241 | three subjects that derive `handle_created` log two warnings and all three map to `handle_created` |
| `HandlerScenarios.CollisionTest` | tests/test_handler.py:214-231 | the test's own `orders.created`, `users-created`, `items_created` log two collision warnings |
| `HandlerScenarios.ValidationScenario` | tests/test_handler.py:79-93 | for any two non-wildcard subjects that derive `handle_created` and `handle_deleted`, with only `handle_created` implemented, validation returns exactly `["handle_deleted"]` |
| `HandlerScenarios.ValidationTest` | tests/test_handler.py:79-93 | the test's own `orders.created` and `orders.deleted`, in any notation, validate to exactly `["handle_deleted"]` |
| `HandlerScenarios.TwoTokenSubject` | src/nats_consumer/handler.py:55-70 | a two-token subject without `*` or `>` is not a wildcard and is served by `handle_` + its second token |
| `HandlerScenarios.TwoSubjectKeys` | src/nats_consumer/handler.py:54-87 | two distinct non-wildcard subjects become the map's keys in list order |
| `HandlerScenarios.OnlyDeletedMissing` | src/nats_consumer/handler.py:138-141 | with only `handle_created` defined, scanning `handle_created`, `handle_deleted` reports `handle_deleted` alone |
| `HandlerScenarios.SharedNameCollisions` | src/nats_consumer/handler.py:76-87 | n subjects that all derive one name log n − 1 warnings |
| `Settings.Truthy` | src/nats_consumer/settings.py:43-50 | a value is falsy exactly when it is `None`, `False`, `0`, `""`, `[]` or `{}` |
| `Settings.BothDicts` | src/nats_consumer/settings.py:21 | the definition of the recursion test: `merge_dicts` recurses on a key exactly when both sides hold a dict under it |
| `Settings.Merge` | src/nats_consumer/settings.py:17-26 | the merged keys are those of both sides; a key only on the left keeps its value; on a key of the right the right value wins unless both sides hold a dict |
| `Settings.MergeDicts` | src/nats_consumer/settings.py:17-26 | the result's keys are those of both sides; a key only on the left keeps its value; on a key of the right the right value wins unless both are dicts, which are merged recursively |
| `Settings.MergeEmptyRight` | src/nats_consumer/settings.py:17-26 | `merge_dicts(d, {}) == d` |
| `Settings.MergeEmptyLeft` | src/nats_consumer/settings.py:17-26 | `merge_dicts({}, d) == d` |
| `Settings.MergeIdempotent` | src/nats_consumer/settings.py:17-26 | merging a dict with itself changes nothing, at any depth |
| `Settings.MergeReapply` | src/nats_consumer/settings.py:17-26 | merging the same overrides twice gives what merging them once gives |
| `Settings.DefaultsShape` | src/nats_consumer/settings.py:5-10 | `CONFIG_DEFAULTS` names exactly the four connection options (`True`, `5`, `1`, `None`); none is a dict, and only `connect_timeout` is falsy |
| `Settings.GetConfig` | src/nats_consumer/settings.py:5-28 | fails exactly when the named setting exists but is not a dict; otherwise the result holds every default key, every user value overrides its default, and defaults the user does not set are kept |
| `Settings.MergeOverDefaults` | src/nats_consumer/settings.py:5-28 | no default is a dict, so merging the user's setting over `CONFIG_DEFAULTS` gives every key of both, the user's values as given and the defaults elsewhere |
| `Settings.ConnectionArgs` | src/nats_consumer/settings.py:42-50 | each of the four options is present exactly when its value is truthy, and then holds that value; nothing else is present |
| `Settings.LoadSettings` | src/nats_consumer/settings.py:31-50 | fails with a non-dict setting exactly when `get_config` does, and with `ValueError` exactly when the merged config's `nats_servers` is missing or not a list; otherwise the loaded config is the merged config and `nats_servers` is its list |
| `Settings.LoadedConnectionArgs` | src/nats_consumer/settings.py:37-50 | once loaded, `connection_args` holds exactly the default options whose configured value is truthy, each with that value, and no key outside `CONFIG_DEFAULTS` |
| `Settings.ArgsFromConfig` | src/nats_consumer/settings.py:37-50 | from any config holding the default keys, `connection_args` holds exactly the default options whose value is truthy, each with that value, and no other key |
| `Settings.MissingSettingFails` | src/nats_consumer/settings.py:31-35 | without a `NATS_CONSUMER` setting, loading raises the `nats_servers` `ValueError` |
| `Settings.DefaultConnectionArgs` | src/nats_consumer/settings.py:37-50 | with only a server list configured, `connection_args` is `allow_reconnect=True`, `max_reconnect_attempts=5`, `reconnect_time_wait=1`; `connect_timeout` is `None` and left out |

## Left out

- Logging: the collision warnings are kept as the list `collisionLog`. The
  other log lines (unhandled subject, missing mapping, handler error, fallback
  reason) and the "RECOMMENDATION" info line (src/nats_consumer/handler.py:89-95)
  are not modelled.
- Async/await: `handle`, `fallback_handle` and `nak` are modelled as
  ordinary sequential calls. `ack` is only a counter on `Msg`, because nothing
  in the core calls it.
- Handler-method bodies are application code. Only their result is modelled
  (return, or raise with a message). What a body does to the message, such as
  acking it itself, is not modelled.
- Overriding `fallback_handle` in a subclass is not modelled. Only the default,
  which naks, is, since overriding is subclassing with arbitrary code.
- Python dict key order is not modelled for the configuration dicts.
  `merge_dicts` puts the keys of `dict1` first, then the new keys of `dict2`.
- Aliasing of the subject list is not modelled. `self.subjects = subjects`
  keeps the caller's list, so a later change to that list changes the
  membership test of `handle` (src/nats_consumer/handler.py:106) but not the
  handler map built at construction. The model keeps `subjects` as an
  immutable value, so the two always agree.
- Aliasing is not modelled for the configuration dicts. `dict1.copy()` is
  shallow, so the result shares nested dicts with both inputs. The model has
  value semantics, so "the inputs are not modified" holds trivially.
- `Value` has no floats, tuples or other Python types. A float option such as
  `reconnect_time_wait=0.5` is not representable. `isinstance(x, dict)` and
  `isinstance(x, list)` are the `Dict` and `List` cases.
- Django's settings access at import time is not modelled. The settings object
  is the parameter of `GetConfig` and `LoadSettings`.
- Not part of this model: the consumer runtime with its ack/nak/retry state
  machine and counters, and `nats_consumer/consumer.py`, whose source is not
  available. The JetStream admin wrappers in `operations.py` are network I/O.
  The management command is a process supervisor. The example apps, URL
  config, publisher command and test runner are demos or glue.
