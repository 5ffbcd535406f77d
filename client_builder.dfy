/**
 * The client builder: it collects settings, finds the client class's constructor that
 * accepts the schema and the caller's arguments, and applies the settings in order to
 * the connector it wires to the new client. Reflection is reduced to a list of declared
 * constructors (their parameter types) and an `assignable` relation between class names.
 */
module ClientBuilder {
  import opened Wrappers
  import opened Text

  type ClassName = string

  /** An argument object; constructor lookup only looks at its runtime class. */
  datatype Obj = Obj(cls: ClassName, id: nat)

  /** A declared constructor, given by its parameter types in order. */
  type Signature = seq<ClassName>

  /** The client class named by a schema's `@Client` annotation, with its declared constructors. */
  datatype ClientClass = ClientClass(name: ClassName, constructors: seq<Signature>)

  /**
   * A schema class: its `@Client` annotation (if any) and the instance `newInstance`
   * yields (none when instantiation throws).
   */
  datatype SchemaClass = SchemaClass(simpleName: string, client: Option<ClientClass>, instance: Option<Obj>)

  /** An opaque `UnaryOperator<TestConnector>`. */
  datatype Setter = Setter(id: nat)

  /** A pending setting: a key/value pair, or a setter; the unused fields are null. */
  datatype Setting = Setting(key: Option<string>, value: Option<string>, setter: Option<Setter>)

  /** What applying a setting does to the connector, in order. */
  datatype Effect = SetProperty(key: string, value: string) | RunSetter(setter: Setter)

  /** Where the connector's logger prints: the default null stream or a caller's stream. */
  datatype Sink = NullSink | StreamSink(id: nat)

  datatype BuildError =
    | NotASchemaClass(simpleName: string)
    | InstantiationFailed
    | NoSuchConstructor          // NoSuchMethodException, wrapped in a ConnectorException
    | NullArgumentThrown         // NullPointerException, which build does not catch

  /** A built client: its class, the chosen constructor, its arguments, and the connector's state. */
  datatype Client = Client(cls: ClientClass, chosen: nat, args: seq<Option<Obj>>, effects: seq<Effect>, logger: Sink)

  /** `new Setting(key, value)`. */
  function KeyValueSetting(key: Option<string>, value: Option<string>): (s: Setting)
    ensures s.key == key && s.value == value && s.setter.None?
  {
    Setting(key, value, None)
  }

  /** `new Setting(setter)`. */
  function SetterSetting(setter: Option<Setter>): (s: Setting)
    ensures s.key.None? && s.value.None? && s.setter == setter
  {
    Setting(None, None, setter)
  }

  /**
   * `Setting.apply`: sets the property only when both key and value are non-null, runs the
   * setter only when it is non-null, and does the property first.
   */
  function Apply(s: Setting): (r: seq<Effect>)
    ensures |r| == (if s.key.Some? && s.value.Some? then 1 else 0) + (if s.setter.Some? then 1 else 0)
    ensures s.key.Some? && s.value.Some? ==> r[0] == SetProperty(s.key.value, s.value.value)
    ensures s.setter.Some? ==> r[|r| - 1] == RunSetter(s.setter.value)
  {
    (if s.key.Some? && s.value.Some? then [SetProperty(s.key.value, s.value.value)] else [])
      + (if s.setter.Some? then [RunSetter(s.setter.value)] else [])
  }

  /** The effects of applying every setting, first to last. */
  function ApplyAll(settings: seq<Setting>): (r: seq<Effect>)
    ensures |r| <= 2 * |settings|
  {
    if settings == [] then [] else Apply(settings[0]) + ApplyAll(settings[1..])
  }

  /** Applying two lists of settings one after the other is applying their concatenation. */
  lemma {:induction false} ApplyAllConcat(a: seq<Setting>, b: seq<Setting>)
    ensures ApplyAll(a + b) == ApplyAll(a) + ApplyAll(b)
  {
    if a != [] {
      assert (a + b)[1..] == a[1..] + b;
      ApplyAllConcat(a[1..], b);
    } else {
      assert a + b == b;
    }
  }

  /** The settings `set(String...)` adds for an even-length key/value list. */
  function Pairs(keyValue: seq<Option<string>>): (r: seq<Setting>)
    requires |keyValue| % 2 == 0
    ensures |r| == |keyValue| / 2
  {
    if keyValue == [] then [] else [KeyValueSetting(keyValue[0], keyValue[1])] + Pairs(keyValue[2..])
  }

  lemma {:induction false} PairsAppend(keyValue: seq<Option<string>>, key: Option<string>, value: Option<string>)
    requires |keyValue| % 2 == 0
    ensures Pairs(keyValue + [key, value]) == Pairs(keyValue) + [KeyValueSetting(key, value)]
  {
    if keyValue != [] {
      assert (keyValue + [key, value])[2..] == keyValue[2..] + [key, value];
      PairsAppend(keyValue[2..], key, value);
    }
  }

  /** A list of `2n` strings yields `n` settings; setting `i` pairs strings `2i` and `2i+1`. */
  lemma {:induction false} PairsAt(keyValue: seq<Option<string>>, i: nat)
    requires |keyValue| % 2 == 0 && i < |keyValue| / 2
    ensures |Pairs(keyValue)| == |keyValue| / 2
    ensures Pairs(keyValue)[i] == Setting(keyValue[2 * i], keyValue[2 * i + 1], None)
  {
    if i > 0 {
      PairsAt(keyValue[2..], i - 1);
    } else if |keyValue| > 2 {
      PairsAt(keyValue[2..], 0);
    }
  }

  /** How the scan of one constructor ends. */
  datatype Verdict = Accepted | Rejected | NullArgument

  /**
   * A constructor accepts the arguments when the arities agree and every argument is
   * non-null and its class is assignable to the parameter type.
   */
  predicate Accepts(sig: Signature, args: seq<Option<Obj>>, assignable: (ClassName, ClassName) -> bool)
    ensures Accepts(sig, args, assignable) ==> |sig| == |args|
  {
    |sig| == |args| && forall i :: 0 <= i < |sig| ==> args[i].Some? && assignable(sig[i], args[i].value.cls)
  }

  /**
   * The check of parameters `i` onwards, in order: the first null argument throws
   * (`getClass()` on null), the first unassignable one rejects the constructor.
   */
  function CheckFrom(sig: Signature, args: seq<Option<Obj>>, assignable: (ClassName, ClassName) -> bool, i: nat): Verdict
    requires |sig| == |args| && i <= |sig|
    decreases |sig| - i
  {
    if i == |sig| then Accepted
    else if args[i].None? then NullArgument
    else if !assignable(sig[i], args[i].value.cls) then Rejected
    else CheckFrom(sig, args, assignable, i + 1)
  }

  /** How checking one constructor against the arguments ends; a wrong arity rejects it unchecked. */
  function Check(sig: Signature, args: seq<Option<Obj>>, assignable: (ClassName, ClassName) -> bool): (v: Verdict)
    ensures |sig| != |args| ==> v == Rejected
  {
    if |sig| != |args| then Rejected else CheckFrom(sig, args, assignable, 0)
  }

  lemma {:induction false} CheckFromAccepted(sig: Signature, args: seq<Option<Obj>>, assignable: (ClassName, ClassName) -> bool, i: nat)
    requires |sig| == |args| && i <= |sig|
    ensures CheckFrom(sig, args, assignable, i) == Accepted <==>
      forall m :: i <= m < |sig| ==> args[m].Some? && assignable(sig[m], args[m].value.cls)
    decreases |sig| - i
  {
    if i < |sig| {
      CheckFromAccepted(sig, args, assignable, i + 1);
    }
  }

  /** A constructor is accepted exactly when it `Accepts` the arguments. */
  lemma CheckAccepted(sig: Signature, args: seq<Option<Obj>>, assignable: (ClassName, ClassName) -> bool)
    ensures Check(sig, args, assignable) == Accepted <==> Accepts(sig, args, assignable)
  {
    if |sig| == |args| {
      CheckFromAccepted(sig, args, assignable, 0);
    }
  }

  lemma {:induction false} CheckFromNonNull(sig: Signature, args: seq<Option<Obj>>, assignable: (ClassName, ClassName) -> bool, i: nat)
    requires |sig| == |args| && i <= |sig|
    requires forall m :: 0 <= m < |args| ==> args[m].Some?
    ensures CheckFrom(sig, args, assignable, i) != NullArgument
    decreases |sig| - i
  {
    if i < |sig| {
      CheckFromNonNull(sig, args, assignable, i + 1);
    }
  }

  /** Without null arguments the scan never throws: every constructor is accepted or rejected. */
  lemma CheckNonNull(sig: Signature, args: seq<Option<Obj>>, assignable: (ClassName, ClassName) -> bool)
    requires forall m :: 0 <= m < |args| ==> args[m].Some?
    ensures Check(sig, args, assignable) != NullArgument
  {
    if |sig| == |args| {
      CheckFromNonNull(sig, args, assignable, 0);
    }
  }

  lemma {:induction false} CheckFromNull(sig: Signature, args: seq<Option<Obj>>, assignable: (ClassName, ClassName) -> bool, i: nat, j: nat)
    requires |sig| == |args| && j <= i < |sig| && args[i].None?
    requires forall m :: j <= m < i ==> args[m].Some? && assignable(sig[m], args[m].value.cls)
    ensures CheckFrom(sig, args, assignable, j) == NullArgument
    decreases i - j
  {
    if j < i {
      CheckFromNull(sig, args, assignable, i, j + 1);
    }
  }

  /**
   * The scan throws when it reaches a null argument: every earlier argument is non-null
   * and assignable, and argument `i` is null.
   */
  lemma CheckNull(sig: Signature, args: seq<Option<Obj>>, assignable: (ClassName, ClassName) -> bool, i: nat)
    requires |sig| == |args| && i < |sig| && args[i].None?
    requires forall m :: 0 <= m < i ==> args[m].Some? && assignable(sig[m], args[m].value.cls)
    ensures Check(sig, args, assignable) == NullArgument
  {
    CheckFromNull(sig, args, assignable, i, 0);
  }

  /** Why `findConstructor` does not return a constructor. */
  datatype LookupError =
    | NoSuchMethod                 // no constructor qualifies
    | NullPointer(at: nat)         // checking constructor `at` met a null argument

  /**
   * `findConstructor`: the declared constructors are checked in order. The first one that is
   * accepted is returned, but checking stops with a `NullPointerException` at the
   * first constructor whose check reaches a null argument.
   */
  method FindConstructor(constructors: seq<Signature>, args: seq<Option<Obj>>, assignable: (ClassName, ClassName) -> bool)
    returns (r: Result<nat, LookupError>)
    ensures r.Ok? ==> r.value < |constructors| && |constructors[r.value]| == |args|
    ensures r.Ok? ==> Check(constructors[r.value], args, assignable) == Accepted
    ensures r.Ok? ==> forall j :: 0 <= j < r.value ==> Check(constructors[j], args, assignable) == Rejected
    ensures r.Err? && r.error.NullPointer? ==> r.error.at < |constructors|
    ensures r.Err? && r.error.NullPointer? ==> Check(constructors[r.error.at], args, assignable) == NullArgument
    ensures r.Err? && r.error.NullPointer? ==>
      forall j :: 0 <= j < r.error.at ==> Check(constructors[j], args, assignable) == Rejected
    ensures r.Err? && r.error.NoSuchMethod? ==>
      forall j :: 0 <= j < |constructors| ==> Check(constructors[j], args, assignable) == Rejected
  {
    label Candidates:
    for k := 0 to |constructors|
      invariant forall j :: 0 <= j < k ==> Check(constructors[j], args, assignable) == Rejected
    {
      var types := constructors[k];
      if |types| == |args| {
        for i := 0 to |types|
          invariant CheckFrom(types, args, assignable, i) == CheckFrom(types, args, assignable, 0)
        {
          if args[i].None? {
            return Err(NullPointer(k));
          }
          if !assignable(types[i], args[i].value.cls) {
            continue Candidates;
          }
        }
        return Ok(k);
      }
    }
    return Err(NoSuchMethod);
  }

  class TestClientBuilder {
    const clientClass: ClientClass
    const schema: Obj
    var logger: Sink
    /** The settings to apply, oldest first. */
    var settings: seq<Setting>

    constructor (clientClass: ClientClass, schema: Obj)
      ensures this.clientClass == clientClass && this.schema == schema
      ensures logger == NullSink && settings == []
    {
      this.clientClass := clientClass;
      this.schema := schema;
      logger := NullSink;
      settings := [];
    }

    /** The public constructor: fails without a `@Client` annotation or when the schema cannot be instantiated. */
    static method Open(schemaClass: SchemaClass) returns (r: Result<TestClientBuilder, BuildError>)
      ensures schemaClass.client.None? ==> r == Err(NotASchemaClass(schemaClass.simpleName))
      ensures schemaClass.client.Some? && schemaClass.instance.None? ==> r == Err(InstantiationFailed)
      ensures schemaClass.client.Some? && schemaClass.instance.Some? ==>
        r.Ok? && fresh(r.value) && r.value.clientClass == schemaClass.client.value &&
        r.value.schema == schemaClass.instance.value && r.value.logger == NullSink && r.value.settings == []
    {
      if schemaClass.client.None? {
        return Err(NotASchemaClass(schemaClass.simpleName));
      }
      if schemaClass.instance.None? {
        return Err(InstantiationFailed);
      }
      var b := new TestClientBuilder(schemaClass.client.value, schemaClass.instance.value);
      return Ok(b);
    }

    method Logger(sink: Sink) returns (self: TestClientBuilder)
      modifies this
      ensures self == this && logger == sink && settings == old(settings)
    {
      logger := sink;
      return this;
    }

    /**
     * `set(String...)`: an odd-length list is refused before anything is added; otherwise
     * its pairs are appended in order.
     */
    method SetPairs(keyValue: seq<Option<string>>) returns (ok: bool)
      modifies this
      ensures ok <==> |keyValue| % 2 == 0
      ensures !ok ==> settings == old(settings)
      ensures ok ==> settings == old(settings) + Pairs(keyValue)
      ensures logger == old(logger)
    {
      if |keyValue| % 2 != 0 {
        return false;
      }
      var i := 0;
      while i < |keyValue|
        invariant 0 <= i <= |keyValue| && i % 2 == 0
        invariant settings == old(settings) + Pairs(keyValue[..i])
        invariant logger == old(logger)
      {
        PairsAppend(keyValue[..i], keyValue[i], keyValue[i + 1]);
        assert keyValue[..i + 2] == keyValue[..i] + [keyValue[i], keyValue[i + 1]];
        settings := settings + [KeyValueSetting(keyValue[i], keyValue[i + 1])];
        i := i + 2;
      }
      assert keyValue[..i] == keyValue;
      return true;
    }

    /** `set(UnaryOperator)`: appends one setter setting. */
    method SetSetter(setter: Option<Setter>) returns (self: TestClientBuilder)
      modifies this
      ensures self == this && settings == old(settings) + [SetterSetting(setter)] && logger == old(logger)
    {
      settings := settings + [SetterSetting(setter)];
      return this;
    }

    /** `debug(b)`: appends the setting EnableDebug = "true" or "false". */
    method Debug(debug: bool) returns (self: TestClientBuilder)
      modifies this
      ensures self == this && logger == old(logger)
      ensures settings == old(settings) + [KeyValueSetting(Some("EnableDebug"), Some(BoolText(debug)))]
    {
      settings := settings + [KeyValueSetting(Some("EnableDebug"), Some(BoolText(debug)))];
      return this;
    }

    /**
     * `build`: the constructor arguments are the schema followed by the caller's arguments
     * (which may be null). Constructor lookup fails or throws as `FindConstructor` does;
     * otherwise every setting is applied in order.
     */
    method Build(args: seq<Option<Obj>>, assignable: (ClassName, ClassName) -> bool) returns (r: Result<Client, BuildError>)
      ensures r.Err? ==> r.error == NoSuchConstructor || r.error == NullArgumentThrown
      ensures r.Err? && r.error == NoSuchConstructor <==>
        forall j :: 0 <= j < |clientClass.constructors| ==>
          Check(clientClass.constructors[j], [Some(schema)] + args, assignable) == Rejected
      ensures r.Err? && r.error == NullArgumentThrown ==>
        exists k :: 0 <= k < |clientClass.constructors| &&
          Check(clientClass.constructors[k], [Some(schema)] + args, assignable) == NullArgument
      ensures r.Ok? ==> r.value.cls == clientClass && r.value.args == [Some(schema)] + args
      ensures r.Ok? ==> r.value.chosen < |clientClass.constructors|
      ensures r.Ok? ==> Accepts(clientClass.constructors[r.value.chosen], [Some(schema)] + args, assignable)
      ensures r.Ok? ==> forall j :: 0 <= j < r.value.chosen ==>
        !Accepts(clientClass.constructors[j], [Some(schema)] + args, assignable)
      ensures r.Ok? ==> r.value.effects == ApplyAll(settings) && r.value.logger == logger
    {
      var constructorArgs := [Some(schema)];
      for i := 0 to |args|
        invariant constructorArgs == [Some(schema)] + args[..i]
      {
        assert args[..i + 1] == args[..i] + [args[i]];
        constructorArgs := constructorArgs + [args[i]];
      }
      assert args[..|args|] == args;
      var found := FindConstructor(clientClass.constructors, constructorArgs, assignable);
      if found.Err? {
        if found.error.NullPointer? {
          return Err(NullArgumentThrown);
        }
        return Err(NoSuchConstructor);
      }
      CheckAccepted(clientClass.constructors[found.value], constructorArgs, assignable);
      forall j | 0 <= j < found.value
        ensures !Accepts(clientClass.constructors[j], constructorArgs, assignable)
      {
        CheckAccepted(clientClass.constructors[j], constructorArgs, assignable);
      }
      var effects := [];
      for i := 0 to |settings|
        invariant effects == ApplyAll(settings[..i])
      {
        ApplyAllConcat(settings[..i], [settings[i]]);
        assert settings[..i + 1] == settings[..i] + [settings[i]];
        assert ApplyAll([settings[i]]) == Apply(settings[i]) + ApplyAll([]);
        effects := effects + Apply(settings[i]);
      }
      assert settings[..|settings|] == settings;
      return Ok(Client(clientClass, found.value, constructorArgs, effects, logger));
    }
  }
}
