/**
 * The validation-message resolver of addon/utils/get-messages.js.
 *
 * `getMessages` answers with the message set the application should use: one
 * registered in the dependency-injection container under `validation:messages`,
 * else the default export of a module whose path ends in `validations/messages`,
 * else the bundled default messages. The answer is cached until `setContainer`
 * replaces the container. Message objects coming from the container get the
 * message mixin, whose `unknownProperty` falls back from a custom
 * `messageForKey` lookup to the proxied content and finally to the defaults.
 */
module MessageResolver {
  import opened Wrappers

  type Key = string
  type Template = string
  type MessageMap = map<Key, Template>

  /** The path suffix that marks the application's messages module (matched case-insensitively). */
  const MessagesModuleSuffix: string := "validations/messages"

  /** The text of the error thrown for a registration of an unsupported shape. */
  const InvalidExportError: string :=
    "You custom `messages.js` file must export an `Ember.ObjectProxy` or `Object` instance."

  // ---------------------------------------------------------------------------
  // Ember objects and the message mixin
  // ---------------------------------------------------------------------------

  /**
   * An Ember class or instance that can serve as a message set. A class is
   * represented by its prototype; instantiating it copies these fields.
   */
  class EmberObject {
    /** Properties defined on the object or its class, such as `custom`. */
    var props: MessageMap
    /** What an `ObjectProxy` forwards to: the `_super` lookup of `unknownProperty`. */
    var content: MessageMap
    /** A user-defined `messageForKey(key)` method, when the object has one. */
    var messageForKey: Option<Key -> Option<Template>>
    /** Whether the message mixin (and so its `unknownProperty`) has been applied. */
    var hasMessageMixin: bool
    /** The mixin's `defaults` property; `null` until the defaults are applied. */
    var defaults: Option<MessageMap>

    /** A class or instance as the application defines it, before any reopening. */
    constructor (props: MessageMap, content: MessageMap, messageForKey: Option<Key -> Option<Template>>)
      ensures this.props == props && this.content == content && this.messageForKey == messageForKey
      ensures !hasMessageMixin && defaults == None
    {
      this.props := props;
      this.content := content;
      this.messageForKey := messageForKey;
      hasMessageMixin := false;
      defaults := None;
    }

    /** The instance the container creates from a (reopened) class. */
    constructor Instantiate(cls: EmberObject)
      ensures SameState(this, cls)
    {
      props := cls.props;
      content := cls.content;
      messageForKey := cls.messageForKey;
      hasMessageMixin := cls.hasMessageMixin;
      defaults := cls.defaults;
    }
  }

  /** `a` and `b` hold the same properties, lookup, mixin and defaults. */
  ghost predicate SameState(a: EmberObject, b: EmberObject)
    reads a, b
  {
    && a.props == b.props && a.content == b.content && a.messageForKey == b.messageForKey
    && a.hasMessageMixin == b.hasMessageMixin && a.defaults == b.defaults
  }

  /** `o` has been reopened with the message mixin and the given defaults. */
  ghost predicate Reopened(o: EmberObject, defaults: MessageMap)
    reads o
  {
    o.hasMessageMixin && o.defaults == Some(defaults)
  }

  /** What a custom `messageForKey` answers for `key`; `None` when there is no such method. */
  function CustomLookup(o: EmberObject, key: Key): Option<Template>
    reads o
  {
    if o.messageForKey.Some? then o.messageForKey.value(key) else None
  }

  /**
   * The mixin's `unknownProperty`: the custom lookup if it answers, else the
   * proxied content, else the key of `defaults`.
   */
  function UnknownProperty(o: EmberObject, key: Key): (r: Option<Template>)
    reads o
    ensures o.messageForKey.Some? && o.messageForKey.value(key).Some? ==> r == o.messageForKey.value(key)
    ensures (o.messageForKey.None? || o.messageForKey.value(key).None?) && key in o.content ==>
      r == Some(o.content[key])
    ensures r.None? <==>
      (o.messageForKey.None? || o.messageForKey.value(key).None?)
      && key !in o.content && (o.defaults.None? || key !in o.defaults.value)
    ensures o.defaults.Some? && key in o.defaults.value ==> r.Some?
    ensures r.Some? ==>
      (o.messageForKey.Some? && r == o.messageForKey.value(key)) || r == MapGet(o.content, key)
      || (o.defaults.Some? && r == MapGet(o.defaults.value, key))
  {
    var value := CustomLookup(o, key);
    var value := if value.None? then MapGet(o.content, key) else value;
    if value.None? && o.defaults.Some? then MapGet(o.defaults.value, key) else value
  }

  /** `applyDefaults`: reopen `obj` in place with the mixin and the defaults, and return it. */
  method ApplyDefaults(obj: EmberObject, defaults: MessageMap) returns (r: EmberObject)
    modifies obj
    ensures r == obj && Reopened(obj, defaults)
    ensures unchanged(obj`props, obj`content, obj`messageForKey)
  {
    obj.hasMessageMixin := true;
    obj.defaults := Some(defaults);
    r := obj;
  }

  // ---------------------------------------------------------------------------
  // Message sets and property lookup on them
  // ---------------------------------------------------------------------------

  /**
   * What `getMessages` returns: an Ember object, or a plain object (the merge
   * made by `withDefaults`, or the bundled defaults themselves).
   */
  datatype Messages =
    | Object(obj: EmberObject)
    | Plain(props: MessageMap, defaults: Option<MessageMap>)

  function ObjectsOf(m: Messages): set<object>
  {
    if m.Object? then {m.obj} else {}
  }

  /**
   * `Ember.get(messages, key)`: a defined property wins; otherwise an object
   * with the mixin goes through `UnknownProperty`, a bare proxy forwards to its
   * content, and a plain object reads as `undefined`.
   */
  function Lookup(m: Messages, key: Key): (r: Option<Template>)
    reads ObjectsOf(m)
    ensures m.Plain? ==> (r.Some? <==> key in m.props) && (r.Some? ==> r.value == m.props[key])
    ensures m.Object? && key in m.obj.props ==> r == Some(m.obj.props[key])
    ensures m.Object? && key !in m.obj.props && m.obj.hasMessageMixin ==> r == UnknownProperty(m.obj, key)
    ensures m.Object? && m.obj.hasMessageMixin && m.obj.defaults.Some? && key in m.obj.defaults.value
      ==> r.Some?
  {
    match m
    case Plain(props, _) => MapGet(props, key)
    case Object(o) =>
      if key in o.props then Some(o.props[key])
      else if o.hasMessageMixin then UnknownProperty(o, key)
      else MapGet(o.content, key)
  }

  /** Every key of `defaults` resolves to some message on `m`. */
  ghost predicate CoversDefaults(m: Messages, defaults: MessageMap)
    reads ObjectsOf(m)
  {
    forall key :: key in defaults ==> Lookup(m, key).Some?
  }

  /**
   * `withDefaults(user, defaults)` (its file is not part of this model): a new
   * plain object holding every default, overridden by the user's entries, and
   * exposing the defaults themselves under `defaults`.
   */
  function WithDefaults(user: MessageMap, defaults: MessageMap): (r: Messages)
    ensures r.Plain? && r.defaults == Some(defaults)
    ensures r.props.Keys == user.Keys + defaults.Keys
    ensures forall key :: key in user ==> r.props[key] == user[key]
    ensures forall key :: key in defaults && key !in user ==> r.props[key] == defaults[key]
  {
    Plain(defaults + user, Some(defaults))
  }

  /** An Ember object reopened with `defaults` resolves every default key. */
  lemma ReopenedCoversDefaults(o: EmberObject, defaults: MessageMap)
    requires Reopened(o, defaults)
    ensures CoversDefaults(Object(o), defaults)
  {
    forall key | key in defaults
      ensures Lookup(Object(o), key).Some?
    {
      if key !in o.props {
        assert UnknownProperty(o, key).Some?;
      }
    }
  }

  /** The merge made by `withDefaults` resolves every default key, to the default itself unless overridden. */
  lemma WithDefaultsCoversDefaults(user: MessageMap, defaults: MessageMap)
    ensures CoversDefaults(WithDefaults(user, defaults), defaults)
    ensures forall key :: key in defaults && key !in user ==> Lookup(WithDefaults(user, defaults), key) == Some(defaults[key])
  {
    var m := WithDefaults(user, defaults);
    forall key | key in defaults
      ensures Lookup(m, key).Some?
      ensures key !in user ==> Lookup(m, key) == Some(defaults[key])
    {
      assert key in m.props;
    }
  }

  // ---------------------------------------------------------------------------
  // The module map
  // ---------------------------------------------------------------------------

  /** An entry of the module loader's registry: a module path and its default export. */
  datatype ModuleEntry = ModuleEntry(path: string, exports: MessageMap)

  /** The case folding of an ignore-case regular expression on ASCII letters. */
  function FoldCase(c: char): char
  {
    if 'A' <= c <= 'Z' then (c as int + 32) as char else c
  }

  /** Whether `s` ends in `suffix`, letters compared without regard to case. */
  function EndsWithIgnoreCase(s: string, suffix: string): (r: bool)
    ensures r <==>
      |suffix| <= |s| && forall i :: 0 <= i < |suffix| ==> FoldCase(s[|s| - |suffix| + i]) == FoldCase(suffix[i])
    decreases |suffix|
  {
    if |suffix| == 0 then true
    else if |s| == 0 then false
    else
      FoldCase(s[|s| - 1]) == FoldCase(suffix[|suffix| - 1])
      && EndsWithIgnoreCase(s[..|s| - 1], suffix[..|suffix| - 1])
  }

  /** The test the scan applies to a module path: `/validations\/messages$/i`. */
  predicate IsMessagesModule(path: string)
    ensures IsMessagesModule(path) <==>
      |MessagesModuleSuffix| <= |path| && forall i :: 0 <= i < |MessagesModuleSuffix| ==>
        FoldCase(path[|path| - |MessagesModuleSuffix| + i]) == FoldCase(MessagesModuleSuffix[i])
  {
    EndsWithIgnoreCase(path, MessagesModuleSuffix)
  }

  /** A path matches exactly when its last twenty characters spell the suffix in any casing. */
  lemma MessagesModuleAnyCasing(prefix: string, tail: string)
    requires |tail| == |MessagesModuleSuffix|
    requires forall i :: 0 <= i < |tail| ==> FoldCase(tail[i]) == FoldCase(MessagesModuleSuffix[i])
    ensures IsMessagesModule(prefix + tail)
  {
    var s := prefix + tail;
    forall i | 0 <= i < |MessagesModuleSuffix|
      ensures FoldCase(s[|s| - |MessagesModuleSuffix| + i]) == FoldCase(MessagesModuleSuffix[i])
    {
      assert s[|s| - |MessagesModuleSuffix| + i] == tail[i];
    }
  }

  /** The index of the first entry, in key order, whose path is a messages module. */
  function FirstMatch(entries: seq<ModuleEntry>): (r: Option<nat>)
    ensures r.None? <==> forall i :: 0 <= i < |entries| ==> !IsMessagesModule(entries[i].path)
    ensures r.Some? ==>
      && r.value < |entries| && IsMessagesModule(entries[r.value].path)
      && forall j :: 0 <= j < r.value ==> !IsMessagesModule(entries[j].path)
  {
    if |entries| == 0 then None
    else if IsMessagesModule(entries[0].path) then Some(0)
    else match FirstMatch(entries[1..])
      case None => None
      case Some(i) => Some(i + 1)
  }

  /** Entries after a matching one never change which entry the scan picks. */
  lemma {:induction false} FirstMatchIgnoresLaterEntries(entries: seq<ModuleEntry>, later: seq<ModuleEntry>)
    requires FirstMatch(entries).Some?
    ensures FirstMatch(entries + later) == FirstMatch(entries)
  {
    assert (entries + later)[0] == entries[0];
    if !IsMessagesModule(entries[0].path) {
      assert (entries + later)[1..] == entries[1..] + later;
      FirstMatchIgnoresLaterEntries(entries[1..], later);
    }
  }

  /**
   * `loadFromModuleMap`: the merge of the first messages module's default
   * export with the defaults, or `null` when no path matches.
   */
  function LoadFromModuleMap(moduleMap: seq<ModuleEntry>, defaults: MessageMap): (r: Option<Messages>)
    ensures r.None? <==> forall i :: 0 <= i < |moduleMap| ==> !IsMessagesModule(moduleMap[i].path)
    ensures r.Some? ==>
      exists i ::
        && 0 <= i < |moduleMap| && IsMessagesModule(moduleMap[i].path)
        && (forall j :: 0 <= j < i ==> !IsMessagesModule(moduleMap[j].path))
        && r.value == WithDefaults(moduleMap[i].exports, defaults)
  {
    match FirstMatch(moduleMap)
    case None => None
    case Some(i) => Some(WithDefaults(moduleMap[i].exports, defaults))
  }

  // ---------------------------------------------------------------------------
  // The container
  // ---------------------------------------------------------------------------

  /** What the container holds under `validation:messages`, classified as `typeOf` does. */
  datatype Registration =
    | Unregistered
    | ClassReg(cls: EmberObject)
    | InstanceReg(obj: EmberObject)
    | PlainReg(props: MessageMap)
    | OtherReg(typeName: string)
  {
    /** The shapes the resolver accepts as a message set. */
    predicate IsMessageSource()
    {
      ClassReg? || InstanceReg? || PlainReg?
    }
  }

  /** The Ember objects a registration refers to, which loading it may reopen. */
  function Targets(reg: Registration): set<EmberObject>
  {
    match reg
    case ClassReg(cls) => {cls}
    case InstanceReg(obj) => {obj}
    case _ => {}
  }

  /** The application's container; its registry can change after it is handed to the resolver. */
  class Container {
    var registration: Registration

    constructor ()
      ensures registration == Unregistered
    {
      registration := Unregistered;
    }

    method Register(reg: Registration)
      modifies this
      ensures registration == reg
    {
      registration := reg;
    }
  }

  /** The container's registration; no container means nothing is registered. */
  function RegistrationOf(c: Option<Container>): Registration
    reads if c.Some? then {c.value} else {}
  {
    if c.Some? then c.value.registration else Unregistered
  }

  /** The message set loaded from a registration of an accepted shape. */
  ghost predicate LoadedFrom(reg: Registration, m: Messages, defaults: MessageMap)
    reads Targets(reg), ObjectsOf(m)
  {
    match reg
    case ClassReg(cls) => m.Object? && m.obj != cls && Reopened(cls, defaults) && SameState(m.obj, cls)
    case InstanceReg(obj) => m == Object(obj) && Reopened(obj, defaults)
    case PlainReg(props) => m == WithDefaults(props, defaults)
    case _ => false
  }

  /**
   * `loadFromContainer`: `null` when nothing is registered; a reopened instance
   * for a class or an instance; the merge with the defaults for a plain object;
   * an error for any other shape.
   */
  method LoadFromContainer(container: Container, defaults: MessageMap) returns (r: Result<Option<Messages>, string>)
    modifies Targets(container.registration)
    ensures container.registration.Unregistered? ==> r == Ok(None)
    ensures container.registration.OtherReg? ==> r == Err(InvalidExportError)
    ensures container.registration.IsMessageSource() ==>
      r.Ok? && r.value.Some? && LoadedFrom(container.registration, r.value.value, defaults)
    ensures container.registration.ClassReg? ==> r.Ok? && r.value.Some? && r.value.value.Object? && fresh(r.value.value.obj)
    ensures forall o <- Targets(container.registration) :: unchanged(o`props, o`content, o`messageForKey)
  {
    var reg := container.registration;
    if reg.Unregistered? {
      r := Ok(None);
    } else if reg.ClassReg? {
      // Reopen the class, then let the container instantiate it.
      var reopened := ApplyDefaults(reg.cls, defaults);
      var instance := new EmberObject.Instantiate(reopened);
      r := Ok(Some(Object(instance)));
    } else if reg.InstanceReg? {
      var reopened := ApplyDefaults(reg.obj, defaults);
      r := Ok(Some(Object(reopened)));
    } else if reg.PlainReg? {
      r := Ok(Some(WithDefaults(reg.props, defaults)));
    } else {
      r := Err(InvalidExportError);
    }
  }

  // ---------------------------------------------------------------------------
  // The resolver and its cache
  // ---------------------------------------------------------------------------

  /** The source whose message set a non-cached `getMessages` call returns. */
  datatype Source = ContainerObject | ContainerInvalid | ModuleEntryAt(index: nat) | BundledDefaults

  /** Strict precedence: the container, then the first messages module, then the bundled defaults. */
  function Winner(c: Option<Container>, moduleMap: seq<ModuleEntry>): (w: Source)
    reads if c.Some? then {c.value} else {}
    ensures w.ContainerObject? <==> RegistrationOf(c).IsMessageSource()
    ensures w.ContainerInvalid? <==> RegistrationOf(c).OtherReg?
    ensures w.ModuleEntryAt? ==>
      && RegistrationOf(c).Unregistered?
      && w.index < |moduleMap| && IsMessagesModule(moduleMap[w.index].path)
      && forall j :: 0 <= j < w.index ==> !IsMessagesModule(moduleMap[j].path)
    ensures w.BundledDefaults? <==>
      RegistrationOf(c).Unregistered? && forall i :: 0 <= i < |moduleMap| ==> !IsMessagesModule(moduleMap[i].path)
  {
    var reg := RegistrationOf(c);
    if reg.IsMessageSource() then ContainerObject
    else if reg.OtherReg? then ContainerInvalid
    else match FirstMatch(moduleMap)
      case Some(i) => ModuleEntryAt(i)
      case None => BundledDefaults
  }

  /** The module-level `container` and `cachedRef` of get-messages.js, with the bundled defaults. */
  class Resolver {
    const defaultMessages: MessageMap
    var container: Option<Container>
    var cache: Option<Messages>

    /** The cached message set, whenever there is one, resolves every default key. */
    ghost predicate Valid()
      reads this, CachedObjects()
    {
      cache.Some? ==> CoversDefaults(cache.value, defaultMessages)
    }

    ghost function CachedObjects(): set<object>
      reads this
    {
      if cache.Some? then ObjectsOf(cache.value) else {}
    }

    constructor (defaultMessages: MessageMap)
      ensures Valid()
      ensures this.defaultMessages == defaultMessages && container == None && cache == None
    {
      this.defaultMessages := defaultMessages;
      container := None;
      cache := None;
    }

    /** `setContainer`: replace the container and drop the cached message set. */
    method SetContainer(c: Option<Container>)
      modifies this
      ensures Valid()
      ensures container == c && cache == None
    {
      container := c;
      cache := None;
    }

    /** `getMessages(moduleMap, useCache)`. */
    method GetMessages(moduleMap: seq<ModuleEntry>, useCache: bool) returns (r: Result<Messages, string>)
      requires Valid()
      modifies this, Targets(RegistrationOf(container))
      ensures Valid()
      ensures container == old(container)
      ensures r.Ok? ==> cache == Some(r.value) && CoversDefaults(r.value, defaultMessages)
      ensures r.Err? ==> cache == old(cache) && unchanged(Targets(RegistrationOf(container)))
      // A cached set is returned as it is, and nothing is consulted or reopened.
      ensures useCache && old(cache).Some? ==>
        r == Ok(old(cache).value) && unchanged(Targets(RegistrationOf(container)))
      // Otherwise the sources are tried in strict order.
      ensures !(useCache && old(cache).Some?) ==>
        match Winner(container, moduleMap)
        case ContainerObject =>
          && r.Ok? && LoadedFrom(RegistrationOf(container), r.value, defaultMessages)
          && (RegistrationOf(container).ClassReg? ==> fresh(r.value.obj))
        case ContainerInvalid => r == Err(InvalidExportError)
        case ModuleEntryAt(i) => r == Ok(WithDefaults(moduleMap[i].exports, defaultMessages))
        case BundledDefaults => r == Ok(Plain(defaultMessages, None))
      ensures forall o <- Targets(RegistrationOf(container)) :: unchanged(o`props, o`content, o`messageForKey)
    {
      if useCache && cache.Some? {
        return Ok(cache.value);
      }

      var messagesModule: Option<Messages> := None;

      if container.Some? {
        var loaded := LoadFromContainer(container.value, defaultMessages);
        if loaded.Err? {
          return Err(loaded.error);
        }
        messagesModule := loaded.value;
      }

      if messagesModule.None? {
        messagesModule := LoadFromModuleMap(moduleMap, defaultMessages);
      }

      if messagesModule.None? {
        messagesModule := Some(Plain(defaultMessages, None));
      }

      var resolved := messagesModule.value;
      if resolved.Object? {
        ReopenedCoversDefaults(resolved.obj, defaultMessages);
      }

      cache := messagesModule;
      r := Ok(resolved);
    }
  }
}
