/** The two collaborators the validator imports and does not define: the default
    configuration object and the table of accepted request methods. Their contents
    are not part of this model; they are a parameter, constrained only by what the
    validator needs of them. */
module Defaults {
  import opened JsValue

  /** `defaults` is the default configuration object; `requestTypes` holds the
      names `REQUEST_TYPES` maps to a truthy marker. */
  datatype Env = Env(defaults: Value, requestTypes: set<string>)

  /** `defaultConfig.response` */
  function DefaultResponse(env: Env): Value {
    Get(env.defaults, "response")
  }

  /** `defaultConfig.consumedServices.defaultServiceId`, the template of a service entry */
  function DefaultService(env: Env): Value {
    Get(Get(env.defaults, "consumedServices"), "defaultServiceId")
  }

  /** `defaultConfig.apis.defaultApi`, the template of an API entry */
  function DefaultApi(env: Env): Value {
    Get(Get(env.defaults, "apis"), "defaultApi")
  }

  /** The default configuration supplies the blocks the validator reads from, and
      the two default request methods are strings that `.toUpperCase()` accepts. */
  predicate ValidEnv(env: Env) {
    && env.defaults.Obj?
    && DefaultResponse(env).Obj?
    && DefaultService(env).Obj?
    && Get(DefaultService(env), "requestMethod").Str?
    && DefaultApi(env).Obj?
    && Get(DefaultApi(env), "requestMethod").Str?
  }

  /** What idempotence needs beyond ValidEnv: the default API request method is
      already upper case, and the default `statusCodes` is a boolean. */
  predicate StableEnv(env: Env) {
    && ValidEnv(env)
    && IsUpperCase(Get(DefaultApi(env), "requestMethod").s)
    && Get(DefaultResponse(env), "statusCodes").Bool?
  }
}
