/**
 * The situations of tests/unit/utils/get-messages-container-test.js, written as
 * clients of the resolver: each one is proved from the contracts of
 * `MessageResolver` alone. `defaults` stands for the bundled default messages.
 */
module ContainerScenarios {
  import opened Wrappers
  import opened MessageResolver

  /** The `custom` message of the test's `Messages` proxy. */
  const CustomMessage: Template := "[CUSTOM] This is a custom message for {description} field"

  /** The `messageForKey` of the custom-lookup test. */
  function CustomLookupFn(key: Key): Option<Template>
  {
    if key == "custom-lookup" then Some("Custom lookup") else None
  }

  /**
   * A registered proxy class is reopened and instantiated, whatever modules the
   * module map holds; the instance, not the class, has the defaults and its own
   * messages.
   */
  method LoadsObjectClass(defaults: MessageMap, moduleMap: seq<ModuleEntry>) returns (cls: EmberObject, messages: Messages)
    ensures messages.Object? && messages.obj != cls && Reopened(cls, defaults)
    ensures CoversDefaults(messages, defaults)
    ensures Lookup(messages, "custom") == Some(CustomMessage)
    ensures messages.obj.defaults == Some(defaults)
  {
    var resolver := new Resolver(defaults);
    var container := new Container();
    resolver.SetContainer(Some(container));
    cls := new EmberObject(map["custom" := CustomMessage], map[], None);
    container.Register(ClassReg(cls));
    var r := resolver.GetMessages(moduleMap, true);
    messages := r.value;
  }

  /** A registered proxy instance is reopened in place and returned itself, whatever modules the module map holds. */
  method LoadsObjectInstance(defaults: MessageMap, moduleMap: seq<ModuleEntry>) returns (instance: EmberObject, messages: Messages)
    ensures messages == Object(instance)
    ensures CoversDefaults(messages, defaults)
    ensures Lookup(messages, "custom") == Some(CustomMessage)
    ensures instance.defaults == Some(defaults)
  {
    var resolver := new Resolver(defaults);
    var container := new Container();
    resolver.SetContainer(Some(container));
    instance := new EmberObject(map["custom" := CustomMessage], map[], None);
    container.Register(InstanceReg(instance));
    var r := resolver.GetMessages(moduleMap, true);
    messages := r.value;
  }

  /**
   * A `messageForKey` that answers only `custom-lookup` takes precedence for
   * that key, while every default key still resolves; a messages module in the
   * module map does not take over.
   */
  method UsesCustomLookup(defaults: MessageMap, moduleMap: seq<ModuleEntry>) returns (messages: Messages)
    ensures CoversDefaults(messages, defaults)
    ensures Lookup(messages, "custom") == Some(CustomMessage)
    ensures Lookup(messages, "custom-lookup") == Some("Custom lookup")
    ensures forall key :: key in defaults && key != "custom" && key != "custom-lookup" ==>
      Lookup(messages, key) == Some(defaults[key])
  {
    var resolver := new Resolver(defaults);
    var container := new Container();
    resolver.SetContainer(Some(container));
    var cls := new EmberObject(map["custom" := CustomMessage], map[], Some(CustomLookupFn));
    container.Register(ClassReg(cls));
    var r := resolver.GetMessages(moduleMap, true);
    messages := r.value;
  }

  /**
   * The dummy application's module registry: an unrelated module, then its
   * messages module (the tests' `dummy/validations/messages`, in whatever case).
   */
  function DummyModuleMap(appPath: string, messagesPath: string): seq<ModuleEntry>
  {
    [ModuleEntry(appPath, map[]), ModuleEntry(messagesPath, map["custom" := CustomMessage])]
  }

  /** The scan skips the unrelated module and picks the messages module. */
  lemma DummyModuleMapFindsMessages(appPath: string, messagesPath: string)
    requires !IsMessagesModule(appPath) && IsMessagesModule(messagesPath)
    ensures FirstMatch(DummyModuleMap(appPath, messagesPath)) == Some(1)
  {
    assert DummyModuleMap(appPath, messagesPath)[1..] == [ModuleEntry(messagesPath, map["custom" := CustomMessage])];
  }

  /**
   * With nothing registered, the application's messages module is found in the
   * module map and merged with the defaults.
   */
  method LoadsPlainObject(defaults: MessageMap, appPath: string, messagesPath: string) returns (messages: Messages)
    requires !IsMessagesModule(appPath) && IsMessagesModule(messagesPath)
    ensures CoversDefaults(messages, defaults)
    ensures Lookup(messages, "custom") == Some(CustomMessage)
    ensures messages.Plain? && messages.defaults == Some(defaults)
  {
    var resolver := new Resolver(defaults);
    var container := new Container();
    resolver.SetContainer(Some(container));
    var moduleMap := DummyModuleMap(appPath, messagesPath);
    DummyModuleMapFindsMessages(appPath, messagesPath);
    var r := resolver.GetMessages(moduleMap, true);
    messages := r.value;
  }

  /**
   * A registration made after a set was cached is not seen by a cached call,
   * while a call that bypasses the cache sees it.
   */
  method CachedCallIgnoresNewRegistration(defaults: MessageMap, first: MessageMap, second: MessageMap)
    returns (before: Messages, stale: Messages, bypassed: Messages)
    ensures before == WithDefaults(first, defaults)
    ensures stale == before
    ensures bypassed == WithDefaults(second, defaults)
  {
    var resolver := new Resolver(defaults);
    var container := new Container();
    resolver.SetContainer(Some(container));
    container.Register(PlainReg(first));
    var r := resolver.GetMessages([], true);
    before := r.value;
    container.Register(PlainReg(second));
    r := resolver.GetMessages([], true);
    stale := r.value;
    r := resolver.GetMessages([], false);
    bypassed := r.value;
  }

  /**
   * Installing a new container (a fresh registry, as each test sets up) drops
   * the cached set: the next cached call resolves from the new container.
   */
  method SetContainerInvalidatesCache(defaults: MessageMap, first: MessageMap, second: MessageMap)
    returns (before: Messages, after: Messages)
    ensures before == WithDefaults(first, defaults)
    ensures after == WithDefaults(second, defaults)
  {
    var resolver := new Resolver(defaults);
    var container := new Container();
    container.Register(PlainReg(first));
    resolver.SetContainer(Some(container));
    var r := resolver.GetMessages([], true);
    before := r.value;
    var freshContainer := new Container();
    freshContainer.Register(PlainReg(second));
    resolver.SetContainer(Some(freshContainer));
    r := resolver.GetMessages([], true);
    after := r.value;
  }

  /**
   * A registration of any other shape makes `getMessages` throw, even when a
   * messages module exists, and leaves the cached set alone: a later cached
   * call still returns it.
   */
  method RejectsOtherShapes(defaults: MessageMap, first: MessageMap, typeName: string)
    returns (before: Messages, r: Result<Messages, string>, after: Messages)
    ensures before == WithDefaults(first, defaults)
    ensures r == Err(InvalidExportError)
    ensures after == before
  {
    var resolver := new Resolver(defaults);
    var container := new Container();
    container.Register(PlainReg(first));
    resolver.SetContainer(Some(container));
    var cached := resolver.GetMessages([], true);
    before := cached.value;
    container.Register(OtherReg(typeName));
    r := resolver.GetMessages([ModuleEntry("app/validations/messages", map[])], false);
    cached := resolver.GetMessages([], true);
    after := cached.value;
  }
}
