# Validation message resolver of ember-changeset-validations

This project models `addon/utils/get-messages.js`, the code that tells the
validators which message set to use, and proves properties of it in Dafny.

`getMessages(moduleMap, useCache)` returns the cached message set if there is
one and `useCache` holds. Otherwise it tries three sources in strict order:

1. the object registered in the application's container under
   `validation:messages`;
2. the default export of the first module whose path ends in
   `validations/messages`, ignoring case;
3. the bundled default messages.

It caches whatever it picked, and `setContainer` drops that cache. A registered
class or instance is reopened in place with a message mixin that carries the
defaults. The mixin's `unknownProperty` answers a missing key from three places,
in this order: a custom `messageForKey`, the proxied content, the defaults.

Files:

- `wrappers.dfy`: module `Wrappers`, holding `Option` (for `null`/`undefined`),
  `Result` (for thrown errors) and `MapGet`.
- `message_resolver.dfy`: module `MessageResolver`, which contains:
  - the Ember objects (class `EmberObject`) and the mixin's lookup chain;
  - the message sets returned (datatype `Messages`) and the property lookup on them;
  - the module-map scan;
  - the container (class `Container`, with datatype `Registration`, the shape `typeOf` reports);
  - class `Resolver`. Its fields are the module-level `container` and `cachedRef`, plus the bundled defaults.
- `container_scenarios.dfy`: module `ContainerScenarios`. It restates the
  situations of `tests/unit/utils/get-messages-container-test.js` as client
  methods. Each one is proved from the resolver's contracts alone.

`Resolver.Valid()` is the invariant that `GetMessages` keeps: any cached set
resolves every key of the default messages. Each non-cached `GetMessages` call
is specified through `Winner`, a function that names the source the call must
use.

## Model

| member | source | states |
|---|---|---|
| `MessageResolver.UnknownProperty` | addon/utils/get-messages.js:30-49 | Covers the `canInvoke` guard at :34-36, with `CustomLookup` as its helper: when the object has a `messageForKey` method and that method answers the key, its answer wins. Otherwise the proxied content answers, otherwise `defaults[key]`. The result is none exactly when all three lack the key, so every key of the applied defaults resolves. |
| `MessageResolver.Lookup` | addon/utils/get-messages.js:14-49 | A property read on a message set. A defined property wins. Otherwise a mixed-in object falls back through `unknownProperty`, and every default key of a reopened object resolves. A plain object answers exactly its own message keys. |
| `MessageResolver.ApplyDefaults` | addon/utils/get-messages.js:55-57 | Reopens the object in place with the mixin and the given defaults and returns that same object. Its messages, content and lookup are unchanged. |
| `MessageResolver.EmberObject.Instantiate` | addon/utils/get-messages.js:80-81 | The instance the container builds from the reopened class carries the class's messages, lookup, mixin and defaults. |
| `MessageResolver.WithDefaults` | addon/utils/get-messages.js:85-87 | The merge has exactly the user's keys plus the default keys. User entries override defaults, every other default is kept, and the defaults are exposed as `defaults`. |
| `MessageResolver.ReopenedCoversDefaults` | addon/utils/get-messages.js:43-46 | On an object reopened with the defaults, every default key resolves, because the fallback chain ends at `defaults`. |
| `MessageResolver.WithDefaultsCoversDefaults` | addon/utils/get-messages.js:103-105 | On a merged set, every default key resolves, to the default itself unless the user overrides it. |
| `MessageResolver.EndsWithIgnoreCase` | addon/utils/get-messages.js:8 | True exactly when the path is at least as long as the suffix and its last characters equal the suffix up to ASCII letter case. For an ASCII suffix, such as the one `IsMessagesModule` uses, this is the `$`-anchored, `i`-flagged regular expression. |
| `MessageResolver.IsMessagesModule` | addon/utils/get-messages.js:101 | `isPresent(module.match(matchRegex))`: a path matches exactly when it is at least twenty characters long and its last twenty equal `validations/messages` up to ASCII letter case. |
| `MessageResolver.MessagesModuleAnyCasing` | addon/utils/get-messages.js:8 | Any path ending in `validations/messages`, in any letter case and after any prefix, is a messages module. |
| `MessageResolver.FirstMatch` | addon/utils/get-messages.js:100-101 | Returns none exactly when no path matches. Otherwise it returns the least index whose path matches, so every earlier path does not match. |
| `MessageResolver.FirstMatchIgnoresLaterEntries` | addon/utils/get-messages.js:100-101 | Once a matching module exists, modules listed after it never change which one the scan picks. |
| `MessageResolver.LoadFromModuleMap` | addon/utils/get-messages.js:99-109 | Returns null exactly when no module path matches. Otherwise it returns the merge of the first matching module's default export with the defaults. |
| `MessageResolver.LoadFromContainer` | addon/utils/get-messages.js:65-91 | Nothing registered gives null. A class is reopened and a fresh instance returned. An instance is reopened and returned itself. A plain object is merged with the defaults. Any other shape gives the error. |
| `MessageResolver.Winner` | addon/utils/get-messages.js:125-137 | Strict precedence. The container wins when it holds an accepted shape, and any other registered shape is an error. A module wins only when nothing is registered, and it is the first matching one. The defaults win only when neither source applies. |
| `MessageResolver.Resolver.constructor` | addon/utils/get-messages.js:52-53 | The resolver starts with no container and no cached set. |
| `MessageResolver.Resolver.SetContainer` | addon/utils/get-messages.js:143-146 | Installs the container and clears the cache, so the next call resolves again. |
| `MessageResolver.Resolver.GetMessages` | addon/utils/get-messages.js:120-141 | With `useCache` and a cached set, returns that set and touches nothing. Otherwise it returns what `Winner` selects. On success the cache holds the result whatever `useCache` was. On the error the cache is unchanged. Every returned set resolves every default key. |
| `ContainerScenarios.LoadsObjectClass` | tests/unit/utils/get-messages-container-test.js:39-65 | Whatever the module map holds, a registered proxy class gives an instance, not the class, and the class is reopened with the defaults. That instance has every default key, its own `custom` message, and `defaults` equal to the bundled defaults. |
| `ContainerScenarios.LoadsObjectInstance` | tests/unit/utils/get-messages-container-test.js:67-90 | Whatever the module map holds, a registered instance comes back as the same object, with every default key, its `custom` message and the bundled defaults. |
| `ContainerScenarios.UsesCustomLookup` | tests/unit/utils/get-messages-container-test.js:92-119 | Whatever the module map holds, `custom-lookup` resolves to `Custom lookup`, `custom` keeps its message, and every other default key resolves to its default. |
| `ContainerScenarios.DummyModuleMapFindsMessages` | addon/utils/get-messages.js:100-101 | Given an unrelated module followed by a messages module, the scan skips the first and picks the second. |
| `ContainerScenarios.LoadsPlainObject` | tests/unit/utils/get-messages-container-test.js:121-136 | With nothing registered, the app's messages module is merged with the defaults: every default key and `custom` resolve. Its `defaults` fact rests on the assumed merge semantics. The test builds its registry from the app's resolver, so there `factoryFor` probably finds the same module and takes the plain-object branch at get-messages.js:85-87 instead. That branch yields the same merge of the same export, as `CachedCallIgnoresNewRegistration` shows for a plain registration. |
| `ContainerScenarios.CachedCallIgnoresNewRegistration` | addon/utils/get-messages.js:120-123 | A registration made after caching is ignored by a cached call, which returns the cached set. A call with `useCache` false sees the new registration. |
| `ContainerScenarios.SetContainerInvalidatesCache` | addon/utils/get-messages.js:143-146 | After a set is cached, installing a new container makes the next cached call resolve from that container. |
| `ContainerScenarios.RejectsOtherShapes` | addon/utils/get-messages.js:88-90 | A registration of any other shape makes `getMessages` fail with the error message, even when a messages module exists. The cached set survives the failure, and a later cached call still returns it. |

Two points of the code that the model keeps exactly:

- `find` over the module keys (get-messages.js:100-101) takes the first
  matching key in key order, and later matches are ignored. `FirstMatch` does
  the same.
- `unknownProperty` tries `this._super(key)` (get-messages.js:40), the proxied
  content, between `messageForKey` and `defaults`. `UnknownProperty` does the
  same.

## Left out

- `formatMessage`, `getMessageFor` and `getDescriptionFor` are called by the tests, but their definitions are not part of this model.
- The bundled `utils/messages.js` is not part of this model. The default map is a constructor parameter of `Resolver` (`defaultMessages`), and nothing is assumed about its entries.
- `WithDefaults`: `utils/with-defaults.js` is not part of this model. Its merge semantics (user entries over defaults, the defaults exposed as `defaults`) are assumed, because that file is not among the sources. So `LoadsPlainObject`'s fact about `defaults` rests on this assumption; the plain-object test itself does not check `defaults`.
- The module loader (`requirejs.entries`, `requireModule`) is I/O. It becomes the `moduleMap` parameter: a sequence of (path, default export) pairs in key order.
- Ember container internals are replaced by the `Registration` variant and a direct instantiation: `factoryFor`, the `.class` unwrapping, `typeOf` and `lookup`. The container's singleton cache is not modelled, so each lookup of a class builds a new instance.
- Ember's `get` treats a key containing `.` as a path, including `defaults.${key}`. Here a key is a single property name. A message key named `defaults` is kept apart from the `defaults` property rather than colliding with it. Names a JavaScript object inherits (`constructor`, `toString`) are not message keys here, and neither is the merge's own `defaults` key.
- `isPresent`/`isNone` on exotic values (empty strings, empty arrays, objects with a zero `length`) are not modelled. Presence is `Some`.
- Message values are strings. The mock service and `getMessage` helper of the tests are not modelled.
- `tests/dummy/app/components/foo-bar.js` only wires validators into a component and contains no resolver logic.
- The effect of reopening a class that was already instantiated is not modelled: existing instances do not see the change.
- `Container.Register` replaces a registration in place. Ember's registry refuses to re-register a name it has already resolved, and `factoryFor` caches its answer, so `Register` stands for unregister-then-register with that cache reset.
