/**
 Typed accessors over a snapshot of the process environment (`get_env`, `get_bool_env`,
 `get_int_env` in src/main.py). The environment is passed in as an immutable map instead of
 being read from the process; a raised `ValueError` becomes a `Failure`.
 */
module EnvAccess {
  import opened Wrappers
  import opened Text
  import opened IntParse

  /** A snapshot of the process environment: case-sensitive names to string values. */
  type Env = map<string, string>

  /** The one error the accessors can raise. */
  datatype ConfigError = MissingRequired(key: string)

  /** The text of the `ValueError` raised for a missing required variable. */
  function ErrorMessage(e: ConfigError): (msg: string)
    ensures MissingPrefix + e.key <= msg
  {
    MissingPrefix + e.key + "' is not set.\n"
    + "Please ensure it's defined in your .env file or exported in your shell."
  }

  const MissingPrefix: string := "Required environment variable '"

  /**
   `get_env(key, default, required)`: the variable's value when it is set (even to the empty
   string), else `default`; with `required`, a missing variable and a missing default together
   are an error naming `key`.
   */
  function GetEnv(env: Env, key: string, default: Option<string>, required: bool): (r: Result<Option<string>, ConfigError>)
    ensures key in env ==> r == Success(Some(env[key]))
    ensures key !in env && !(required && default == None) ==> r == Success(default)
    ensures r.Failure? <==> required && key !in env && default == None
    ensures r.Failure? ==> r.error == MissingRequired(key)
    ensures r.Success? && (required || default.Some?) ==> r.value.Some?
  {
    var value := if key in env then Some(env[key]) else default;
    if required && value == None then Failure(MissingRequired(key)) else Success(value)
  }

  /** A variable read only for its value, with no default and not required (`get_env(key)`). */
  function GetOptional(env: Env, key: string): (v: Option<string>)
    ensures v == GetEnv(env, key, None, false).value
    ensures v.Some? <==> key in env
  {
    if key in env then Some(env[key]) else None
  }

  /** Python's `str(b)` for a boolean. */
  function BoolToString(b: bool): string
  {
    if b then "True" else "False"
  }

  /** The lower-case spellings `get_bool_env` accepts as true. */
  const Truthy: set<string> := {"true", "yes", "1", "on"}

  /**
   `get_bool_env(key, default)`: the variable's value (or `str(default)` when unset), lower-cased,
   is one of the truthy words. It never fails, and an unset variable yields `default` itself.
   */
  function GetBoolEnv(env: Env, key: string, default: bool): (r: bool)
    ensures key !in env ==> r == default
  {
    var raw := if key in env then env[key] else BoolToString(default);
    assert Lower("True") == "true";
    assert Lower("False") == "false";
    Lower(raw) in Truthy
  }

  /** `get_bool_env` is case-insensitive: a set variable is true exactly when it spells a truthy word in any case. */
  lemma GetBoolEnvCaseInsensitive(env: Env, key: string, default: bool)
    requires key in env
    ensures GetBoolEnv(env, key, default) <==>
      CaseVariant(env[key], "true") || CaseVariant(env[key], "yes")
      || CaseVariant(env[key], "1") || CaseVariant(env[key], "on")
  {
    var v := env[key];
    LowerIsIffCaseVariant(v, "true");
    LowerIsIffCaseVariant(v, "yes");
    LowerIsIffCaseVariant(v, "1");
    LowerIsIffCaseVariant(v, "on");
  }

  /** What `get_int_env` yields: the integer, and whether it printed the invalid-integer warning. */
  datatype IntReading = IntReading(value: int, warned: bool)

  /**
   `get_int_env(key, default)`: the variable parsed as a decimal integer; when it does not parse,
   `default` with a warning instead of an error. An unset variable yields `default` silently,
   because `int(str(default)) == default`.
   */
  function GetIntEnv(env: Env, key: string, default: int): (r: IntReading)
    ensures key !in env ==> r == IntReading(default, false)
    ensures key in env && ParseInt(env[key]).Some? ==> r == IntReading(ParseInt(env[key]).value, false)
    ensures key in env && ParseInt(env[key]).None? ==> r == IntReading(default, true)
  {
    var raw := if key in env then env[key] else IntToString(default);
    IntRoundTrip(default);
    match ParseInt(raw)
    case Some(n) => IntReading(n, false)
    case None => IntReading(default, true)
  }

  /** Case variants of the truthy words read as true. */
  lemma GetBoolEnvTrueExamples(key: string)
    ensures GetBoolEnv(map[key := "TRUE"], key, false)
    ensures GetBoolEnv(map[key := "Yes"], key, false)
    ensures GetBoolEnv(map[key := "1"], key, false)
    ensures GetBoolEnv(map[key := "On"], key, false)
  {
    GetBoolEnvCaseInsensitive(map[key := "TRUE"], key, false);
    GetBoolEnvCaseInsensitive(map[key := "Yes"], key, false);
    GetBoolEnvCaseInsensitive(map[key := "1"], key, false);
    GetBoolEnvCaseInsensitive(map[key := "On"], key, false);
  }

  /** Other words, other digits and the empty string read as false, whatever the default. */
  lemma GetBoolEnvFalseExamples(key: string)
    ensures !GetBoolEnv(map[key := "false"], key, true)
    ensures !GetBoolEnv(map[key := "no"], key, true)
    ensures !GetBoolEnv(map[key := "2"], key, true)
    ensures !GetBoolEnv(map[key := ""], key, true)
  {
    GetBoolEnvCaseInsensitive(map[key := "false"], key, true);
    assert UpperChar('o') == 'O' && UpperChar('1') == '1';
    assert !CaseVariant("no", "on") by { assert "no"[0] == 'n'; }
    assert !CaseVariant("2", "1") by { assert "2"[0] == '2'; }
    GetBoolEnvCaseInsensitive(map[key := "no"], key, true);
    GetBoolEnvCaseInsensitive(map[key := "2"], key, true);
    GetBoolEnvCaseInsensitive(map[key := ""], key, true);
  }
}
