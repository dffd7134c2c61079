/** The process environment, as the log analyzer reads it through `os.getenv`. */
module Environ {

  /** The variables that are set, with their values; a variable set to "" is present. */
  type Env = map<string, string>

  /** `os.getenv(key, default)`: the value when the variable is set, even if it is
      empty, and `default` otherwise. */
  function GetEnv(env: Env, key: string, default: string): string {
    if key in env then env[key] else default
  }
}
