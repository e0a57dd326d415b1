/** `configValidator`: normalises a configuration tree for the health/status
    middleware. The closed-form functions (ValidateSpec and the per-block ones)
    say what the result is; the methods make the source's writes one after
    another, in its order, and are proved to produce exactly that result. */
module Validator {
  import opened JsValue
  import opened Defaults

  // ---------------------------------------------------------------------------
  // What the source can process without throwing

  /** A `requestMethod` that `.toUpperCase()` can be called on after defaulting:
      falsy (the default string is used) or a string. */
  predicate MethodOk(m: Value) {
    Truthy(m) ==> m.Str?
  }

  /** A service entry: falsy entries are skipped; a truthy one must be an object,
      since on a primitive the writes are dropped and `requestMethod` stays
      `undefined`. */
  predicate ServiceEntryOk(s: Value) {
    Truthy(s) ==> s.Obj? && MethodOk(Get(s, "requestMethod"))
  }

  /** An API entry is never skipped, so it must be an object. */
  predicate ApiEntryOk(a: Value) {
    a.Obj? && MethodOk(Get(a, "requestMethod"))
  }

  /** `consumedServices`: falsy, a boolean or a number (no own entries), or an
      object whose entries are acceptable. A non-empty string would be walked
      character by character and throw. */
  predicate ServicesOk(cs: Value) {
    Truthy(cs) ==>
      cs.Bool? || cs.Num? ||
      (cs.Obj? && forall k :: k in cs.props ==> ServiceEntryOk(cs.props[k]))
  }

  /** `apis`, with the same shape as `consumedServices`. */
  predicate ApisOk(apis: Value) {
    Truthy(apis) ==>
      apis.Bool? || apis.Num? ||
      (apis.Obj? && forall k :: k in apis.props ==> ApiEntryOk(apis.props[k]))
  }

  /** The inputs the model covers: anything falsy, any truthy primitive, and any
      object whose maps are acceptable. Arrays are excluded where the validator
      writes properties, because the model gives arrays no named properties. */
  predicate InputOk(config: Value) {
    Truthy(config) ==>
      && !config.Arr?
      && !Get(config, "response").Arr?
      && ServicesOk(Get(config, "consumedServices"))
      && ApisOk(Get(config, "apis"))
  }

  // ---------------------------------------------------------------------------
  // The result, in closed form

  /** The keys a truthy service entry is given. */
  const SERVICE_KEYS: set<string> :=
    {"isValid", "serviceName", "requestMethod", "expectedResponseStatus", "isRequired"}

  /** The keys every API entry is given. */
  const API_KEYS: set<string> := {"apiName", "requestMethod", "dependsOn"}

  /** The keys a truthy object root is given. */
  const ROOT_KEYS: set<string> :=
    {"isDefault", "apiPath", "consumedServicesAsyncMode", "response", "consumedServices", "apis"}

  /** A service's request method after defaulting and upper-casing. */
  function ServiceMethod(s: Value, env: Env): string
    requires ValidEnv(env) && s.Obj? && MethodOk(Get(s, "requestMethod"))
  {
    ToUpper(Or(Get(s, "requestMethod"), Get(DefaultService(env), "requestMethod")).s)
  }

  /** A service entry after the pass. */
  function ServiceSpec(s: Value, env: Env): Value
    requires ValidEnv(env) && ServiceEntryOk(s)
  {
    if !Truthy(s) then s
    else
      var ds := DefaultService(env);
      var m := ServiceMethod(s, env);
      Obj(s.props
        ["isValid" := Bool(Truthy(Get(s, "healthCheckUrl")) && m in env.requestTypes)]
        ["serviceName" := Or(Get(s, "serviceName"), Get(ds, "serviceName"))]
        ["requestMethod" := Str(m)]
        ["expectedResponseStatus" := Or(Get(s, "expectedResponseStatus"), Get(ds, "expectedResponseStatus"))]
        ["isRequired" := if Get(s, "isRequired") == Bool(true) then Bool(true) else Get(ds, "isRequired")])
  }

  /** An API's request method after defaulting and upper-casing, before the
      check against the table. */
  function ApiMethod(a: Value, env: Env): string
    requires ValidEnv(env) && ApiEntryOk(a)
  {
    ToUpper(Or(Get(a, "requestMethod"), Get(DefaultApi(env), "requestMethod")).s)
  }

  /** An API entry after the pass. */
  function ApiSpec(a: Value, env: Env): Value
    requires ValidEnv(env) && ApiEntryOk(a)
  {
    var da := DefaultApi(env);
    var m := ApiMethod(a, env);
    var deps := Get(a, "dependsOn");
    Obj(a.props
      ["apiName" := Or(Get(a, "apiName"), Get(da, "apiName"))]
      ["requestMethod" := if m in env.requestTypes then Str(m) else Get(da, "requestMethod")]
      ["dependsOn" := if deps.Arr? then deps else Arr([])])
  }

  function ServicesSpec(services: map<string, Value>, env: Env): map<string, Value>
    requires ValidEnv(env) && forall k :: k in services ==> ServiceEntryOk(services[k])
  {
    map k | k in services :: ServiceSpec(services[k], env)
  }

  function ApisSpec(apis: map<string, Value>, env: Env): map<string, Value>
    requires ValidEnv(env) && forall k :: k in apis ==> ApiEntryOk(apis[k])
  {
    map k | k in apis :: ApiSpec(apis[k], env)
  }

  /** The `response` block after the pass. */
  function ResponseSpec(resp: Value, env: Env): Value {
    if !Truthy(resp) then DefaultResponse(env)
    else if Get(resp, "statusCodes").Bool? then resp
    else Put(resp, "statusCodes", Get(DefaultResponse(env), "statusCodes"))
  }

  /** The `consumedServices` block after the pass. */
  function ServicesBlockSpec(cs: Value, env: Env): Value
    requires ValidEnv(env) && ServicesOk(cs)
  {
    if !Truthy(cs) then Obj(map[])
    else if cs.Obj? then Obj(ServicesSpec(cs.props, env))
    else cs
  }

  /** The `apis` block after the pass. */
  function ApisBlockSpec(apis: Value, env: Env): Value
    requires ValidEnv(env) && ApisOk(apis)
  {
    if !Truthy(apis) then Obj(map[])
    else if apis.Obj? then Obj(ApisSpec(apis.props, env))
    else apis
  }

  /** The value `configValidator(config)` returns. */
  function ValidateSpec(config: Value, env: Env): Value
    requires ValidEnv(env) && InputOk(config)
  {
    if !Truthy(config) then env.defaults
    else if !config.Obj? then config
    else
      var d := env.defaults;
      Obj(config.props
        ["isDefault" := Bool(false)]
        ["apiPath" := Or(Get(config, "apiPath"), Get(d, "apiPath"))]
        ["consumedServicesAsyncMode" := Or(Get(config, "consumedServicesAsyncMode"), Get(d, "consumedServicesAsyncMode"))]
        ["response" := ResponseSpec(Get(config, "response"), env)]
        ["consumedServices" := ServicesBlockSpec(Get(config, "consumedServices"), env)]
        ["apis" := ApisBlockSpec(Get(config, "apis"), env)])
  }

  // ---------------------------------------------------------------------------
  // The source's statements, in order

  /** The property names the validator writes are pairwise different. */
  lemma KeysDistinct()
    ensures "isValid" != "serviceName" && "isValid" != "requestMethod"
    ensures "isValid" != "expectedResponseStatus" && "isValid" != "isRequired"
    ensures "isValid" != "healthCheckUrl" && "serviceName" != "healthCheckUrl"
    ensures "serviceName" != "requestMethod" && "serviceName" != "expectedResponseStatus"
    ensures "serviceName" != "isRequired" && "requestMethod" != "healthCheckUrl"
    ensures "requestMethod" != "expectedResponseStatus" && "requestMethod" != "isRequired"
    ensures "expectedResponseStatus" != "isRequired"
    ensures "apiName" != "requestMethod" && "apiName" != "dependsOn" && "requestMethod" != "dependsOn"
  {
  }

  /** The property names written on the root object are pairwise different. */
  lemma RootKeysDistinct()
    ensures "isDefault" != "apiPath" && "isDefault" != "consumedServicesAsyncMode"
    ensures "isDefault" != "response" && "isDefault" != "consumedServices" && "isDefault" != "apis"
    ensures "apiPath" != "consumedServicesAsyncMode" && "apiPath" != "response"
    ensures "apiPath" != "consumedServices" && "apiPath" != "apis"
    ensures "consumedServicesAsyncMode" != "response" && "consumedServicesAsyncMode" != "consumedServices"
    ensures "consumedServicesAsyncMode" != "apis"
    ensures "response" != "consumedServices" && "response" != "apis" && "consumedServices" != "apis"
  {
  }

  /** Writing a key a second time, across a write to another key, leaves only the
      second value. */
  lemma UpdateAgain(p: map<string, Value>, a: string, b: string, x: Value, y: Value, z: Value)
    requires a != b
    ensures p[a := x][b := y][a := z] == p[a := z][b := y]
  {
  }

  /** The same, across writes to two other keys. */
  lemma UpdateAgainAcrossTwo(p: map<string, Value>, a: string, b: string, c: string, x: Value, y: Value, z: Value, w: Value)
    requires a != b && a != c
    ensures p[a := x][b := y][c := z][a := w] == p[a := w][b := y][c := z]
  {
  }

  /** Writing a key twice in a row leaves the second value. */
  lemma Overwrite(p: map<string, Value>, k: string, x: Value, y: Value)
    ensures p[k := x][k := y] == p[k := y]
  {
  }

  /** Writing back the value a key already holds changes nothing. */
  lemma WriteBack(p: map<string, Value>, k: string)
    requires k in p
    ensures p[k := p[k]] == p
  {
  }

  /** The body of the `consumedServices` loop for one entry: a truthy entry is an
      object, and its own properties are rewritten one statement at a time. */
  method NormaliseService(s: Value, env: Env) returns (r: Value)
    requires ValidEnv(env) && ServiceEntryOk(s)
    ensures r == ServiceSpec(s, env)
  {
    if !Truthy(s) {
      return s;
    }
    KeysDistinct();
    var ds := DefaultService(env);
    var p := s.props;
    ghost var name := Or(Get(s, "serviceName"), Get(ds, "serviceName"));
    ghost var urlOk := Truthy(Get(s, "healthCheckUrl"));
    ghost var m := ServiceMethod(s, env);
    ghost var valid := urlOk && m in env.requestTypes;
    ghost var status := Or(Get(s, "expectedResponseStatus"), Get(ds, "expectedResponseStatus"));
    ghost var required := if Get(s, "isRequired") == Bool(true) then Bool(true) else Get(ds, "isRequired");

    p := p["isValid" := Bool(true)];
    p := p["serviceName" := Or(Lookup(p, "serviceName"), Get(ds, "serviceName"))];
    if !Truthy(Lookup(p, "healthCheckUrl")) {
      p := p["isValid" := Bool(false)];
      UpdateAgain(s.props, "isValid", "serviceName", Bool(true), name, Bool(false));
    }
    ghost var p1 := s.props["isValid" := Bool(urlOk)]["serviceName" := name];
    assert p == p1;

    if !Truthy(Lookup(p, "requestMethod")) {
      p := p["requestMethod" := Get(ds, "requestMethod")];
    }
    ghost var p2 := p;
    p := p["requestMethod" := Str(ToUpper(Lookup(p, "requestMethod").s))];
    Overwrite(p1, "requestMethod", p2["requestMethod"], Str(m));
    assert p == p1["requestMethod" := Str(m)];

    if Lookup(p, "requestMethod").s !in env.requestTypes {
      p := p["isValid" := Bool(false)];
      UpdateAgainAcrossTwo(s.props, "isValid", "serviceName", "requestMethod", Bool(urlOk), name, Str(m), Bool(false));
    }
    ghost var p3 := s.props["isValid" := Bool(valid)]["serviceName" := name]["requestMethod" := Str(m)];
    assert p == p3;

    if !Truthy(Lookup(p, "expectedResponseStatus")) {
      p := p["expectedResponseStatus" := Get(ds, "expectedResponseStatus")];
    } else {
      WriteBack(p, "expectedResponseStatus");
    }
    ghost var p4 := p3["expectedResponseStatus" := status];
    assert p == p4;

    if !Truthy(Lookup(p, "isRequired")) || !Lookup(p, "isRequired").Bool? {
      p := p["isRequired" := Get(ds, "isRequired")];
    } else {
      WriteBack(p, "isRequired");
    }
    assert p == p4["isRequired" := required];
    r := Obj(p);
  }

  /** The body of the `apis` loop for one entry, on the entry's own properties. */
  method NormaliseApi(a: Value, env: Env) returns (r: Value)
    requires ValidEnv(env) && ApiEntryOk(a)
    ensures r == ApiSpec(a, env)
  {
    KeysDistinct();
    var da := DefaultApi(env);
    var p := a.props;
    ghost var m := ApiMethod(a, env);
    ghost var deps := Get(a, "dependsOn");
    ghost var p0 := a.props["apiName" := Or(Get(a, "apiName"), Get(da, "apiName"))];

    p := p["apiName" := Or(Lookup(p, "apiName"), Get(da, "apiName"))];
    if !Truthy(Lookup(p, "requestMethod")) {
      p := p["requestMethod" := Get(da, "requestMethod")];
      Overwrite(p0, "requestMethod", Get(da, "requestMethod"), Str(m));
    } else {
      Overwrite(p0, "requestMethod", Lookup(p, "requestMethod"), Str(m));
      WriteBack(p, "requestMethod");
    }
    p := p["requestMethod" := Str(ToUpper(Lookup(p, "requestMethod").s))];
    assert p == p0["requestMethod" := Str(m)];

    if Lookup(p, "requestMethod").s !in env.requestTypes {
      p := p["requestMethod" := Get(da, "requestMethod")];
      Overwrite(p0, "requestMethod", Str(m), Get(da, "requestMethod"));
    }
    ghost var p1 := p0["requestMethod" := if m in env.requestTypes then Str(m) else Get(da, "requestMethod")];
    assert p == p1;

    if !Truthy(Lookup(p, "dependsOn")) || !Lookup(p, "dependsOn").Arr? {
      p := p["dependsOn" := Arr([])];
    } else {
      WriteBack(p, "dependsOn");
    }
    assert p == p1["dependsOn" := if deps.Arr? then deps else Arr([])];
    r := Obj(p);
  }

  /** The `consumedServices` loop: every entry is rewritten in place, no key is
      added or removed. */
  method NormaliseServices(services: map<string, Value>, env: Env) returns (r: map<string, Value>)
    requires ValidEnv(env) && forall k :: k in services ==> ServiceEntryOk(services[k])
    ensures r == ServicesSpec(services, env)
  {
    r := services;
    var todo := services.Keys;
    while todo != {}
      invariant todo <= services.Keys
      invariant r.Keys == services.Keys
      invariant forall k :: k in services ==> r[k] == if k in todo then services[k] else ServiceSpec(services[k], env)
      decreases todo
    {
      var id :| id in todo;
      var entry := NormaliseService(r[id], env);
      r := r[id := entry];
      todo := todo - {id};
    }
  }

  /** The `apis` loop: every entry is rewritten in place, no key is added or
      removed. */
  method NormaliseApis(apis: map<string, Value>, env: Env) returns (r: map<string, Value>)
    requires ValidEnv(env) && forall k :: k in apis ==> ApiEntryOk(apis[k])
    ensures r == ApisSpec(apis, env)
  {
    r := apis;
    var todo := apis.Keys;
    while todo != {}
      invariant todo <= apis.Keys
      invariant r.Keys == apis.Keys
      invariant forall k :: k in apis ==> r[k] == if k in todo then apis[k] else ApiSpec(apis[k], env)
      decreases todo
    {
      var id :| id in todo;
      var entry := NormaliseApi(r[id], env);
      r := r[id := entry];
      todo := todo - {id};
    }
  }

  /** `configValidator(config)`. On a truthy primitive every write of the source
      is dropped and every read gives `undefined`, so the value comes back as it
      was; on an object the statements below rewrite its own properties in the
      source's order. */
  method ConfigValidator(config: Value, env: Env) returns (r: Value)
    requires ValidEnv(env) && InputOk(config)
    ensures r == ValidateSpec(config, env)
  {
    var d := env.defaults;
    if !Truthy(config) {
      return d;
    }
    if !config.Obj? {
      return config;
    }
    RootKeysDistinct();
    var p := config.props;
    p := p["isDefault" := Bool(false)];
    p := p["apiPath" := Or(Lookup(p, "apiPath"), Get(d, "apiPath"))];
    p := p["consumedServicesAsyncMode" :=
           Or(Lookup(p, "consumedServicesAsyncMode"), Get(d, "consumedServicesAsyncMode"))];
    ghost var p0 := config.props
      ["isDefault" := Bool(false)]
      ["apiPath" := Or(Get(config, "apiPath"), Get(d, "apiPath"))]
      ["consumedServicesAsyncMode" := Or(Get(config, "consumedServicesAsyncMode"), Get(d, "consumedServicesAsyncMode"))];
    assert p == p0;

    var resp := Lookup(p, "response");
    if Truthy(resp) {
      if !Get(resp, "statusCodes").Bool? {
        p := p["response" := Put(resp, "statusCodes", Get(DefaultResponse(env), "statusCodes"))];
      } else {
        WriteBack(p, "response");
      }
    } else {
      p := p["response" := DefaultResponse(env)];
    }
    ghost var p1 := p0["response" := ResponseSpec(Get(config, "response"), env)];
    assert p == p1;

    var cs := Lookup(p, "consumedServices");
    if Truthy(cs) {
      if cs.Obj? {
        var services := NormaliseServices(cs.props, env);
        p := p["consumedServices" := Obj(services)];
      } else {
        WriteBack(p, "consumedServices");
      }
    } else {
      p := p["consumedServices" := Obj(map[])];
    }
    ghost var p2 := p1["consumedServices" := ServicesBlockSpec(Get(config, "consumedServices"), env)];
    assert p == p2;

    var apis := Lookup(p, "apis");
    if Truthy(apis) {
      if apis.Obj? {
        var entries := NormaliseApis(apis.props, env);
        p := p["apis" := Obj(entries)];
      } else {
        WriteBack(p, "apis");
      }
    } else {
      p := p["apis" := Obj(map[])];
    }
    assert p == p2["apis" := ApisBlockSpec(Get(config, "apis"), env)];
    r := Obj(p);
  }
}
