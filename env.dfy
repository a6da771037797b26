/** Reading configuration from the process environment (`getEnv` in api/main.go). */
module Env {

  /** `os.Getenv(key)`: the value of `key`, or the empty string when it is unset. */
  function OsGetenv(env: map<string, string>, key: string): string
  {
    if key in env then env[key] else ""
  }

  /** `getEnv(key, defaultValue)`: the environment value, falling back to
      `defaultValue` when the variable is unset or set to the empty string. */
  function GetEnv(env: map<string, string>, key: string, defaultValue: string): (r: string)
    ensures (key !in env || env[key] == "") ==> r == defaultValue
    ensures key in env && env[key] != "" ==> r == env[key]
    ensures r != "" <==> (key in env && env[key] != "") || defaultValue != ""
  {
    var value := OsGetenv(env, key);
    if |value| == 0 then defaultValue else value
  }
}
