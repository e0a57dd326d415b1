/** What `configValidator` promises, proved about the closed form the methods of
    module Validator are shown to compute. */
module ValidatorProperties {
  import opened JsValue
  import opened Defaults
  import opened Validator

  // ---------------------------------------------------------------------------
  // Service entries

  /** A truthy service entry is valid exactly when it has a truthy
      `healthCheckUrl` and its request method, defaulted and upper-cased, is in
      the request-method table; the URL itself is never filled in. Read on the
      result alone: `isValid` holds iff the URL is set and the final
      `requestMethod` is a known verb. */
  lemma ServiceValidity(s: Value, env: Env)
    requires ValidEnv(env) && ServiceEntryOk(s) && Truthy(s)
    ensures
      var r := ServiceSpec(s, env);
      var verb := Or(Get(s, "requestMethod"), Get(DefaultService(env), "requestMethod"));
      && Get(r, "isValid") == Bool(Truthy(Get(s, "healthCheckUrl")) && ToUpper(verb.s) in env.requestTypes)
      && Get(r, "healthCheckUrl") == Get(s, "healthCheckUrl")
      && Get(r, "requestMethod").Str?
      && (Get(r, "isValid") == Bool(true) <==>
            Truthy(Get(r, "healthCheckUrl")) && Get(r, "requestMethod").s in env.requestTypes)
  {
    KeysDistinct();
  }

  /** The other fields of a truthy service entry: the request method is the
      input's (or the default when falsy) in upper case; `serviceName` and
      `expectedResponseStatus` are kept when truthy and defaulted otherwise;
      `isRequired` is kept only when it is `true`, anything else (`false`
      included) becomes the default. No other property changes, none is removed. */
  lemma ServiceFields(s: Value, env: Env)
    requires ValidEnv(env) && ServiceEntryOk(s) && Truthy(s)
    ensures
      var r := ServiceSpec(s, env);
      var ds := DefaultService(env);
      var verb := Or(Get(s, "requestMethod"), Get(ds, "requestMethod"));
      && r.Obj?
      && Get(r, "requestMethod") == Str(ToUpper(verb.s))
      && IsUpperCase(Get(r, "requestMethod").s)
      && (Truthy(Get(s, "serviceName")) ==> Get(r, "serviceName") == Get(s, "serviceName"))
      && (!Truthy(Get(s, "serviceName")) ==> Get(r, "serviceName") == Get(ds, "serviceName"))
      && (Truthy(Get(s, "expectedResponseStatus")) ==>
            Get(r, "expectedResponseStatus") == Get(s, "expectedResponseStatus"))
      && (!Truthy(Get(s, "expectedResponseStatus")) ==>
            Get(r, "expectedResponseStatus") == Get(ds, "expectedResponseStatus"))
      && (Get(s, "isRequired") == Bool(true) ==> Get(r, "isRequired") == Bool(true))
      && (Get(s, "isRequired") != Bool(true) ==> Get(r, "isRequired") == Get(ds, "isRequired"))
      && r.props.Keys == s.props.Keys + SERVICE_KEYS
      && (forall k :: k in s.props && k !in SERVICE_KEYS ==> r.props[k] == s.props[k])
  {
    KeysDistinct();
  }

  /** A falsy service entry is skipped. */
  lemma FalsyServiceUntouched(s: Value, env: Env)
    requires ValidEnv(env) && !Truthy(s)
    ensures ServiceSpec(s, env) == s
  {
  }

  /** Case is never significant: two entries that differ only in the spelling
      of a non-empty request method with the same upper case normalise to the
      same entry. */
  lemma {:induction false} ServiceMethodCaseInsensitive(s: Value, x: string, y: string, env: Env)
    requires ValidEnv(env) && ServiceEntryOk(s) && s.Obj?
    requires x != "" && ToUpper(x) == ToUpper(y)
    ensures ServiceEntryOk(Put(s, "requestMethod", Str(x))) && ServiceEntryOk(Put(s, "requestMethod", Str(y)))
    ensures ServiceSpec(Put(s, "requestMethod", Str(x)), env) == ServiceSpec(Put(s, "requestMethod", Str(y)), env)
  {
    assert y != "" by {
      assert |ToUpper(y)| == |ToUpper(x)| == |x|;
    }
    var sx := Put(s, "requestMethod", Str(x));
    var sy := Put(s, "requestMethod", Str(y));
    ServiceFields(sx, env);
    ServiceFields(sy, env);
    ServiceValidity(sx, env);
    ServiceValidity(sy, env);
    var rx := ServiceSpec(sx, env);
    var ry := ServiceSpec(sy, env);
    forall k | k in rx.props ensures k in ry.props && rx.props[k] == ry.props[k] {
      if k in SERVICE_KEYS {
        assert Get(rx, k) == Get(ry, k);
      } else if k != "healthCheckUrl" {
        assert rx.props[k] == s.props[k] == ry.props[k];
      }
    }
  }

  /** The case-insensitivity the tests rely on: given a URL and `GET` in the
      table, each of `get`, `Get` and `gEt` becomes `GET` and the entry is valid. */
  lemma GetInAnyCase(s: Value, x: string, env: Env)
    requires ValidEnv(env) && s.Obj? && "GET" in env.requestTypes
    requires Truthy(Get(s, "healthCheckUrl"))
    requires x in {"get", "Get", "gEt", "GET"}
    ensures ServiceEntryOk(Put(s, "requestMethod", Str(x)))
    ensures
      var r := ServiceSpec(Put(s, "requestMethod", Str(x)), env);
      Get(r, "requestMethod") == Str("GET") && Get(r, "isValid") == Bool(true)
  {
    KeysDistinct();
    var sx := Put(s, "requestMethod", Str(x));
    assert ToUpper(x) == "GET";
    ServiceFields(sx, env);
    ServiceValidity(sx, env);
  }

  // ---------------------------------------------------------------------------
  // API entries

  /** Every API entry ends with a name (the input's when truthy, else the
      default), a request method that is either the upper-cased input (or
      default) when the table knows it or the raw default API method otherwise,
      and a `dependsOn` that is an array: the input's when it is one, else `[]`.
      No other property changes. */
  lemma ApiFields(a: Value, env: Env)
    requires ValidEnv(env) && ApiEntryOk(a)
    ensures
      var r := ApiSpec(a, env);
      var da := DefaultApi(env);
      var u := ToUpper(Or(Get(a, "requestMethod"), Get(da, "requestMethod")).s);
      && r.Obj?
      && (Truthy(Get(a, "apiName")) ==> Get(r, "apiName") == Get(a, "apiName"))
      && (!Truthy(Get(a, "apiName")) ==> Get(r, "apiName") == Get(da, "apiName"))
      && (u in env.requestTypes ==> Get(r, "requestMethod") == Str(u))
      && (u !in env.requestTypes ==> Get(r, "requestMethod") == Get(da, "requestMethod"))
      && (Get(r, "requestMethod") == Get(da, "requestMethod") ||
          (IsUpperCase(Get(r, "requestMethod").s) && Get(r, "requestMethod").s in env.requestTypes))
      && Get(r, "dependsOn").Arr?
      && (Get(a, "dependsOn").Arr? ==> Get(r, "dependsOn") == Get(a, "dependsOn"))
      && (!Get(a, "dependsOn").Arr? ==> Get(r, "dependsOn") == Arr([]))
      && r.props.Keys == a.props.Keys + API_KEYS
      && (forall k :: k in a.props && k !in API_KEYS ==> r.props[k] == a.props[k])
  {
    KeysDistinct();
  }

  /** With no request method of its own, an API entry gets the default API
      method back unchanged exactly when that method is upper case or not in the
      table: otherwise it comes back upper-cased. */
  lemma ApiDefaultMethod(a: Value, env: Env)
    requires ValidEnv(env) && ApiEntryOk(a) && !Truthy(Get(a, "requestMethod"))
    ensures
      var dm := Get(DefaultApi(env), "requestMethod");
      Get(ApiSpec(a, env), "requestMethod") == dm <==>
        (ToUpper(dm.s) == dm.s || ToUpper(dm.s) !in env.requestTypes)
  {
    KeysDistinct();
  }

  // ---------------------------------------------------------------------------
  // The root object

  /** No configuration, or a falsy one: the default configuration itself. */
  lemma FalsyConfigGivesDefaults(config: Value, env: Env)
    requires ValidEnv(env) && !Truthy(config)
    ensures ValidateSpec(config, env) == env.defaults
    ensures Get(ValidateSpec(config, env), "isDefault") == Get(env.defaults, "isDefault")
  {
  }

  /** A truthy primitive: every write is dropped and the value is returned as is. */
  lemma PrimitiveConfigUnchanged(config: Value, env: Env)
    requires ValidEnv(env) && InputOk(config) && Truthy(config) && !config.Obj?
    ensures ValidateSpec(config, env) == config
  {
  }

  /** A configuration object: it is marked as not the default one; `apiPath` and
      `consumedServicesAsyncMode` are kept when truthy and taken from the default
      otherwise; the six named blocks are present afterwards and every other
      root property passes through unchanged. */
  lemma RootFields(config: Value, env: Env)
    requires ValidEnv(env) && InputOk(config) && config.Obj?
    ensures
      var r := ValidateSpec(config, env);
      var d := env.defaults;
      && r.Obj?
      && Get(r, "isDefault") == Bool(false)
      && (Truthy(Get(config, "apiPath")) ==> Get(r, "apiPath") == Get(config, "apiPath"))
      && (!Truthy(Get(config, "apiPath")) ==> Get(r, "apiPath") == Get(d, "apiPath"))
      && (Truthy(Get(config, "consumedServicesAsyncMode")) ==>
            Get(r, "consumedServicesAsyncMode") == Get(config, "consumedServicesAsyncMode"))
      && (!Truthy(Get(config, "consumedServicesAsyncMode")) ==>
            Get(r, "consumedServicesAsyncMode") == Get(d, "consumedServicesAsyncMode"))
      && r.props.Keys == config.props.Keys + ROOT_KEYS
      && (forall k :: k in config.props && k !in ROOT_KEYS ==> r.props[k] == config.props[k])
  {
    RootKeysDistinct();
  }

  /** An explicit `consumedServicesAsyncMode: false` survives only when the
      default is `false` as well: `false || default` is the default. */
  lemma AsyncFalseOverwritten(config: Value, env: Env)
    requires ValidEnv(env) && InputOk(config) && config.Obj?
    requires Get(config, "consumedServicesAsyncMode") == Bool(false)
    ensures
      Get(ValidateSpec(config, env), "consumedServicesAsyncMode") == Bool(false) <==>
        Get(env.defaults, "consumedServicesAsyncMode") == Bool(false)
  {
    RootFields(config, env);
  }

  /** The `response` block: a missing one becomes the default block; in an
      object, `statusCodes` is replaced by the default exactly when it is not a
      boolean and every other property is kept; a truthy primitive is kept.
      When the default `statusCodes` is a boolean, so is the result's whenever
      the result is an object. */
  lemma ResponseOfResult(config: Value, env: Env)
    requires ValidEnv(env) && InputOk(config) && config.Obj?
    ensures
      var resp := Get(config, "response");
      var out := Get(ValidateSpec(config, env), "response");
      var dsc := Get(DefaultResponse(env), "statusCodes");
      && (!Truthy(resp) ==> out == DefaultResponse(env))
      && (resp.Obj? && Get(resp, "statusCodes").Bool? ==> out == resp)
      && (resp.Obj? && !Get(resp, "statusCodes").Bool? ==>
            && out.Obj?
            && Get(out, "statusCodes") == dsc
            && out.props.Keys == resp.props.Keys + {"statusCodes"}
            && (forall k :: k in resp.props && k != "statusCodes" ==> out.props[k] == resp.props[k]))
      && (Truthy(resp) && !resp.Obj? ==> out == resp)
      && (dsc.Bool? && out.Obj? ==> Get(out, "statusCodes").Bool?)
  {
    RootKeysDistinct();
  }

  /** `consumedServices`: a missing map becomes `{}`; an object keeps its key
      set and each entry is normalised on its own; a truthy primitive is kept. */
  lemma ServicesOfResult(config: Value, env: Env)
    requires ValidEnv(env) && InputOk(config) && config.Obj?
    ensures
      var cs := Get(config, "consumedServices");
      var out := Get(ValidateSpec(config, env), "consumedServices");
      && (!Truthy(cs) ==> out == Obj(map[]))
      && (cs.Obj? ==>
            && out.Obj? && out.props.Keys == cs.props.Keys
            && forall id :: id in cs.props ==> out.props[id] == ServiceSpec(cs.props[id], env))
      && (Truthy(cs) && !cs.Obj? ==> out == cs)
  {
    RootKeysDistinct();
  }

  /** `apis`: the same shape as `consumedServices`. */
  lemma ApisOfResult(config: Value, env: Env)
    requires ValidEnv(env) && InputOk(config) && config.Obj?
    ensures
      var apis := Get(config, "apis");
      var out := Get(ValidateSpec(config, env), "apis");
      && (!Truthy(apis) ==> out == Obj(map[]))
      && (apis.Obj? ==>
            && out.Obj? && out.props.Keys == apis.props.Keys
            && forall id :: id in apis.props ==> out.props[id] == ApiSpec(apis.props[id], env))
      && (Truthy(apis) && !apis.Obj? ==> out == apis)
  {
    RootKeysDistinct();
  }

  /** After the pass, every truthy service entry of a configuration object
      carries a boolean `isValid` that holds exactly when its URL is set and its
      (upper-case) request method is in the table. */
  lemma {:induction false} ServicesWellFormed(config: Value, env: Env)
    requires ValidEnv(env) && InputOk(config) && config.Obj? && Get(config, "consumedServices").Obj?
    ensures
      var out := Get(ValidateSpec(config, env), "consumedServices");
      && out.Obj?
      && forall id :: id in out.props && Truthy(out.props[id]) ==>
           && Get(out.props[id], "isValid").Bool?
           && Get(out.props[id], "requestMethod").Str?
           && IsUpperCase(Get(out.props[id], "requestMethod").s)
           && (Get(out.props[id], "isValid") == Bool(true) <==>
                 Truthy(Get(out.props[id], "healthCheckUrl")) &&
                 Get(out.props[id], "requestMethod").s in env.requestTypes)
  {
    ServicesOfResult(config, env);
    var cs := Get(config, "consumedServices");
    forall id | id in cs.props && Truthy(cs.props[id])
      ensures
        var e := ServiceSpec(cs.props[id], env);
        && Get(e, "isValid").Bool?
        && Get(e, "requestMethod").Str?
        && IsUpperCase(Get(e, "requestMethod").s)
        && (Get(e, "isValid") == Bool(true) <==>
              Truthy(Get(e, "healthCheckUrl")) && Get(e, "requestMethod").s in env.requestTypes)
    {
      ServiceFields(cs.props[id], env);
      ServiceValidity(cs.props[id], env);
    }
  }

  /** After the pass, every API entry of a configuration object has a truthy-or-
      default name, a request method that is a recognised upper-case verb or the
      default API method, and an array `dependsOn`. */
  lemma {:induction false} ApisWellFormed(config: Value, env: Env)
    requires ValidEnv(env) && InputOk(config) && config.Obj? && Get(config, "apis").Obj?
    ensures
      var out := Get(ValidateSpec(config, env), "apis");
      var da := DefaultApi(env);
      && out.Obj?
      && forall id :: id in out.props ==>
           && (Truthy(Get(out.props[id], "apiName")) || Get(out.props[id], "apiName") == Get(da, "apiName"))
           && (Get(out.props[id], "requestMethod") == Get(da, "requestMethod") ||
               (Get(out.props[id], "requestMethod").Str? &&
                IsUpperCase(Get(out.props[id], "requestMethod").s) &&
                Get(out.props[id], "requestMethod").s in env.requestTypes))
           && Get(out.props[id], "dependsOn").Arr?
  {
    ApisOfResult(config, env);
    var apis := Get(config, "apis");
    var da := DefaultApi(env);
    forall id | id in apis.props
      ensures
        var e := ApiSpec(apis.props[id], env);
        && (Truthy(Get(e, "apiName")) || Get(e, "apiName") == Get(da, "apiName"))
        && (Get(e, "requestMethod") == Get(da, "requestMethod") ||
            (Get(e, "requestMethod").Str? && IsUpperCase(Get(e, "requestMethod").s) &&
             Get(e, "requestMethod").s in env.requestTypes))
        && Get(e, "dependsOn").Arr?
    {
      ApiFields(apis.props[id], env);
    }
  }

  // ---------------------------------------------------------------------------
  // Running the validator twice

  /** A service entry whose fields already have the shape the pass gives them
      is left as it is. */
  lemma ServiceFixedPoint(r: Value, env: Env)
    requires ValidEnv(env) && r.Obj? && SERVICE_KEYS <= r.props.Keys
    requires
      var ds := DefaultService(env);
      var rm := Get(r, "requestMethod");
      && rm.Str? && IsUpperCase(rm.s)
      && (rm.s == "" ==> ToUpper(Get(ds, "requestMethod").s) == "")
      && Get(r, "isValid") == Bool(Truthy(Get(r, "healthCheckUrl")) && rm.s in env.requestTypes)
      && (Truthy(Get(r, "serviceName")) || Get(r, "serviceName") == Get(ds, "serviceName"))
      && (Truthy(Get(r, "expectedResponseStatus")) ||
          Get(r, "expectedResponseStatus") == Get(ds, "expectedResponseStatus"))
      && (Get(r, "isRequired") == Bool(true) || Get(r, "isRequired") == Get(ds, "isRequired"))
    ensures ServiceEntryOk(r) && ServiceSpec(r, env) == r
  {
    var p := r.props;
    var rm := Get(r, "requestMethod");
    ToUpperFixesUpperCase(rm.s);
    assert ServiceMethod(r, env) == rm.s;
    WriteBack(p, "isValid");
    WriteBack(p, "serviceName");
    WriteBack(p, "requestMethod");
    WriteBack(p, "expectedResponseStatus");
    WriteBack(p, "isRequired");
  }

  /** A normalised service entry is normalised again to itself. */
  lemma {:induction false} ServiceIdempotent(s: Value, env: Env)
    requires ValidEnv(env) && ServiceEntryOk(s)
    ensures ServiceEntryOk(ServiceSpec(s, env))
    ensures ServiceSpec(ServiceSpec(s, env), env) == ServiceSpec(s, env)
  {
    if Truthy(s) {
      ServiceFields(s, env);
      ServiceValidity(s, env);
      assert Get(ServiceSpec(s, env), "requestMethod").s == "" ==> !Truthy(Get(s, "requestMethod"));
      ServiceFixedPoint(ServiceSpec(s, env), env);
    }
  }

  /** A normalised API entry is normalised again to itself, provided the default
      API method is upper case (a recognised lower-case default would be
      upper-cased by the second pass). */
  lemma {:induction false} ApiIdempotent(a: Value, env: Env)
    requires StableEnv(env) && ApiEntryOk(a)
    ensures ApiEntryOk(ApiSpec(a, env))
    ensures ApiSpec(ApiSpec(a, env), env) == ApiSpec(a, env)
  {
    KeysDistinct();
    var r := ApiSpec(a, env);
    var da := DefaultApi(env);
    var dm := Get(da, "requestMethod");
    var u := ApiMethod(a, env);
    ToUpperFixesUpperCase(dm.s);
    var rm := Get(r, "requestMethod");
    assert rm.Str? && IsUpperCase(rm.s);
    ToUpperFixesUpperCase(rm.s);
    assert ApiMethod(r, env) == rm.s by {
      if !Truthy(rm) {
        assert rm.s == "";
        if u in env.requestTypes {
          assert !Truthy(Get(a, "requestMethod"));
        }
        assert dm.s == "";
      }
    }
    var p := r.props;
    WriteBack(p, "apiName");
    WriteBack(p, "requestMethod");
    WriteBack(p, "dependsOn");
  }

  /** The `response` block is stable once its `statusCodes` is a boolean, which
      the first pass guarantees when the default's is. */
  lemma ResponseIdempotent(resp: Value, env: Env)
    requires StableEnv(env)
    ensures ResponseSpec(ResponseSpec(resp, env), env) == ResponseSpec(resp, env)
  {
  }

  /** The service map is stable, entry by entry. */
  lemma {:induction false} ServicesIdempotent(m: map<string, Value>, env: Env)
    requires ValidEnv(env) && forall id :: id in m ==> ServiceEntryOk(m[id])
    ensures forall id :: id in ServicesSpec(m, env) ==> ServiceEntryOk(ServicesSpec(m, env)[id])
    ensures ServicesSpec(ServicesSpec(m, env), env) == ServicesSpec(m, env)
  {
    var once := ServicesSpec(m, env);
    forall id | id in m
      ensures ServiceEntryOk(once[id]) && ServiceSpec(once[id], env) == once[id]
    {
      ServiceIdempotent(m[id], env);
    }
  }

  /** The API map is stable, entry by entry. */
  lemma {:induction false} ApisIdempotent(m: map<string, Value>, env: Env)
    requires StableEnv(env) && forall id :: id in m ==> ApiEntryOk(m[id])
    ensures forall id :: id in ApisSpec(m, env) ==> ApiEntryOk(ApisSpec(m, env)[id])
    ensures ApisSpec(ApisSpec(m, env), env) == ApisSpec(m, env)
  {
    var once := ApisSpec(m, env);
    forall id | id in m
      ensures ApiEntryOk(once[id]) && ApiSpec(once[id], env) == once[id]
    {
      ApiIdempotent(m[id], env);
    }
  }

  /** The `consumedServices` block is stable. */
  lemma {:induction false} ServicesBlockIdempotent(cs: Value, env: Env)
    requires ValidEnv(env) && ServicesOk(cs)
    ensures ServicesOk(ServicesBlockSpec(cs, env))
    ensures ServicesBlockSpec(ServicesBlockSpec(cs, env), env) == ServicesBlockSpec(cs, env)
  {
    if cs.Obj? {
      ServicesIdempotent(cs.props, env);
    }
  }

  /** The `apis` block is stable. */
  lemma {:induction false} ApisBlockIdempotent(apis: Value, env: Env)
    requires StableEnv(env) && ApisOk(apis)
    ensures ApisOk(ApisBlockSpec(apis, env))
    ensures ApisBlockSpec(ApisBlockSpec(apis, env), env) == ApisBlockSpec(apis, env)
  {
    if apis.Obj? {
      ApisIdempotent(apis.props, env);
    }
  }

  /** Running the validator on its own output changes nothing: a truthy
      configuration is a fixed point after one pass. */
  lemma {:induction false} ValidateIdempotent(config: Value, env: Env)
    requires StableEnv(env) && InputOk(config) && Truthy(config)
    ensures InputOk(ValidateSpec(config, env))
    ensures ValidateSpec(ValidateSpec(config, env), env) == ValidateSpec(config, env)
  {
    if config.Obj? {
      RootKeysDistinct();
      var r := ValidateSpec(config, env);
      var resp := Get(config, "response");
      var cs := Get(config, "consumedServices");
      var apis := Get(config, "apis");
      ResponseIdempotent(resp, env);
      ServicesBlockIdempotent(cs, env);
      ApisBlockIdempotent(apis, env);
      var p := r.props;
      WriteBack(p, "isDefault");
      WriteBack(p, "apiPath");
      WriteBack(p, "consumedServicesAsyncMode");
      WriteBack(p, "response");
      WriteBack(p, "consumedServices");
      WriteBack(p, "apis");
    }
  }
}
