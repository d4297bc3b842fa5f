/**
 The topic namespace of the agent and its start-up configuration.

 The environment is a map from variable names to the strings the process
 inherited. Python is dynamically typed and the lookups return either the
 environment's string or a default of any type (the broker port defaults to
 the integer 1883), so looked-up values are modelled as `Value`.
 */
module Config {

  /** The fixed topic tree: commands arrive on `Power`, the relay state is
      published on `State`; `Status` is declared but nothing publishes on it. */
  const TopicRoot: string := "rpi/fireplace"
  const TopicPower: string := TopicRoot + "/power"
  const TopicState: string := TopicRoot + "/state"
  const TopicStatus: string := TopicRoot + "/status"

  const DefaultHost: string := "mosquitto.data"
  const DefaultPort: int := 1883
  /** Keepalive interval, in seconds, handed to the broker connection. */
  const Keepalive: nat := 60
  /** Exit code of the process when a required variable is missing. */
  const MissingVariableExit: int := 1

  type Environment = map<string, string>

  /** A looked-up setting: the environment's text, or a default of either type. */
  datatype Value = Text(text: string) | Number(number: int)

  /** The outcome of a lookup that cannot fall back to a default. */
  datatype Lookup<+T> = Found(value: T) | Fatal(exitCode: int)

  datatype Settings = Settings(host: Value, port: Value, username: string, password: string)

  /** The variable's text when it is set, the default otherwise. */
  function GetOrDefault(env: Environment, name: string, default: Value): (v: Value)
    ensures name in env ==> v == Text(env[name])
    ensures name !in env ==> v == default
  {
    if name in env then Text(env[name]) else default
  }

  /** The variable's text when it is set; otherwise the process exits with code 1. */
  function GetOrError(env: Environment, name: string): (r: Lookup<string>)
    ensures r.Found? <==> name in env
    ensures r.Found? ==> r.value == env[name]
    ensures r.Fatal? ==> r.exitCode == MissingVariableExit
  {
    if name in env then Found(env[name]) else Fatal(MissingVariableExit)
  }

  /** The four module-level settings, in the order the module reads them:
      host and port fall back to defaults, username and password are required. */
  function LoadSettings(env: Environment): (r: Lookup<Settings>)
    ensures r.Fatal? <==> "MQTT_USERNAME" !in env || "MQTT_PASSWORD" !in env
    ensures r.Fatal? ==> r.exitCode == 1
    ensures r.Found? ==> r.value.username == env["MQTT_USERNAME"] && r.value.password == env["MQTT_PASSWORD"]
    ensures r.Found? ==> r.value.host == (if "MQTT_HOST" in env then Text(env["MQTT_HOST"]) else Text("mosquitto.data"))
    ensures r.Found? ==> r.value.port == (if "MQTT_PORT" in env then Text(env["MQTT_PORT"]) else Number(1883))
  {
    var host := GetOrDefault(env, "MQTT_HOST", Text(DefaultHost));
    var port := GetOrDefault(env, "MQTT_PORT", Number(DefaultPort));
    match GetOrError(env, "MQTT_USERNAME")
    case Fatal(code) => Fatal(code)
    case Found(username) =>
      match GetOrError(env, "MQTT_PASSWORD")
      case Fatal(code) => Fatal(code)
      case Found(password) => Found(Settings(host, port, username, password))
  }

  /** Both lookups agree on a variable that is set; the required lookup
      fails exactly when the defaulting one falls back, whatever the default. */
  lemma LookupsAgree(env: Environment, name: string, default: Value)
    ensures GetOrError(env, name).Found? ==> GetOrDefault(env, name, default) == Text(GetOrError(env, name).value)
    ensures GetOrError(env, name).Fatal? <==> forall d :: GetOrDefault(env, name, d) == d
  {
    if name in env {
      assert GetOrDefault(env, name, Number(0)) != Number(0);
    }
  }

  /** Setting a variable is seen by the next lookup of that variable and by
      no other; unsetting it brings back the default. */
  lemma LookupAfterUpdate(env: Environment, name: string, other: string, text: string, default: Value)
    requires other != name
    ensures GetOrDefault(env[name := text], name, default) == Text(text)
    ensures GetOrError(env[name := text], name) == Found(text)
    ensures GetOrDefault(env - {name}, name, default) == default
    ensures GetOrError(env - {name}, name) == Fatal(1)
    ensures GetOrDefault(env[name := text], other, default) == GetOrDefault(env, other, default)
  {
  }

  /** A missing username is fatal whether or not the password is set. */
  lemma MissingUsernameIsFatal(env: Environment, password: string)
    requires "MQTT_USERNAME" !in env
    ensures LoadSettings(env) == Fatal(1)
    ensures LoadSettings(env["MQTT_PASSWORD" := password]) == Fatal(1)
  {
  }
}
