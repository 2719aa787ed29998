/**
 * The environment overrides of the vSphere client: `getEnvString`,
 * `getEnvBool` and `processOverride`, which puts the `GOVMOMI_USERNAME` and
 * `GOVMOMI_PASSWORD` variables into the user part of a URL.
 *
 * The environment is a map; a variable that is not in it reads as `""`,
 * as `os.Getenv` answers for an unset variable.
 */
module VmwareEnv {
  import opened Wrappers

  const EnvUrl := "GOVMOMI_URL"
  const EnvUserName := "GOVMOMI_USERNAME"
  const EnvPassword := "GOVMOMI_PASSWORD"
  const EnvInsecure := "GOVMOMI_INSECURE"

  /** `os.Getenv`. */
  function Getenv(env: map<string, string>, v: string): string
  {
    if v in env then env[v] else ""
  }

  /** `getEnvString`: the variable's value, or the default when it is empty or unset. */
  function EnvString(env: map<string, string>, v: string, def: string): (r: string)
    ensures Getenv(env, v) == "" ==> r == def
    ensures Getenv(env, v) != "" ==> r == env[v]
    ensures def != "" ==> r != ""
  {
    var r := Getenv(env, v);
    if r == "" then def else r
  }

  /** `strings.ToLower` on one character, for the ASCII letters it changes. */
  function Lower(c: char): char
  {
    if 'A' <= c <= 'Z' then (c as int - 'A' as int + 'a' as int) as char else c
  }

  /**
   * `getEnvBool`: the default when the variable is empty or unset; otherwise
   * true exactly when its first character, lower-cased, is `t`, `y` or `1`.
   */
  function EnvBool(env: map<string, string>, v: string, def: bool): (r: bool)
    ensures Getenv(env, v) == "" ==> r == def
    ensures Getenv(env, v) != "" ==> (r <==> env[v][0] in {'t', 'T', 'y', 'Y', '1'})
  {
    var r := Getenv(env, v);
    if r == "" then def
    else Lower(r[0]) in {'t', 'y', '1'}
  }

  /**
   * Only the first character counts: "true", "Yes" and "1" are true, "false",
   * "no", "0" and "on" are false, and so is any word not starting with t, y or 1.
   */
  lemma EnvBoolWords(env: map<string, string>, v: string)
    ensures v in env && env[v] in {"true", "TRUE", "Yes", "y", "1", "tomato"} ==> EnvBool(env, v, false)
    ensures v in env && env[v] in {"false", "no", "0", "on", "off"} ==> !EnvBool(env, v, true)
  {
  }

  // ------------------------------------------------------------ processOverride

  /** `url.Userinfo`: a username, and a password that may be unset (`url.User`) or set (`url.UserPassword`). */
  datatype Userinfo = Userinfo(username: string, password: Option<string>)

  /**
   * What `processOverride` makes of the user part, given the two variables:
   * first a non-empty username replaces the user and keeps a password that
   * was set; then a non-empty password replaces the password and keeps the
   * username then in place, `""` when there is no user.
   */
  function Override(user: Option<Userinfo>, envUsername: string, envPassword: string): Option<Userinfo>
  {
    var named :=
      if envUsername == "" then user
      else if user.Some? && user.value.password.Some? then Some(Userinfo(envUsername, user.value.password))
      else Some(Userinfo(envUsername, None));
    if envPassword == "" then named
    else Some(Userinfo(if named.Some? then named.value.username else "", Some(envPassword)))
  }

  /** With both variables empty the user part is unchanged. */
  lemma OverrideNothing(user: Option<Userinfo>)
    ensures Override(user, "", "") == user
  {
  }

  /** A username alone replaces the username and keeps a password that was set, and only one that was set. */
  lemma OverrideUsername(user: Option<Userinfo>, envUsername: string)
    requires envUsername != ""
    ensures var r := Override(user, envUsername, "");
      r.Some? && r.value.username == envUsername &&
      r.value.password == (if user.Some? then user.value.password else None)
  {
  }

  /** A password alone replaces the password, set, and keeps the username, `""` when there was no user. */
  lemma OverridePassword(user: Option<Userinfo>, envPassword: string)
    requires envPassword != ""
    ensures Override(user, "", envPassword) ==
      Some(Userinfo(if user.Some? then user.value.username else "", Some(envPassword)))
  {
  }

  /** With both variables set the user part is exactly theirs, whatever it was. */
  lemma OverrideBoth(user: Option<Userinfo>, envUsername: string, envPassword: string)
    requires envUsername != "" && envPassword != ""
    ensures Override(user, envUsername, envPassword) == Some(Userinfo(envUsername, Some(envPassword)))
  {
  }

  /** Applying the same overrides twice is the same as once. */
  lemma OverrideIdempotent(user: Option<Userinfo>, envUsername: string, envPassword: string)
    ensures var once := Override(user, envUsername, envPassword);
      Override(once, envUsername, envPassword) == once
  {
  }

  /** The part of `url.URL` that `processOverride` changes. */
  class Url {
    var user: Option<Userinfo>

    constructor(user: Option<Userinfo>)
      ensures this.user == user
    {
      this.user := user;
    }

    /** `processOverride`: the user part becomes `Override` of the old one and the two variables. */
    method ProcessOverride(env: map<string, string>)
      modifies this
      ensures user == Override(old(user), Getenv(env, EnvUserName), Getenv(env, EnvPassword))
    {
      var envUsername := Getenv(env, EnvUserName);
      var envPassword := Getenv(env, EnvPassword);
      if envUsername != "" {
        var password := "";
        var ok := false;
        if user.Some? {
          if user.value.password.Some? {
            password, ok := user.value.password.value, true;
          }
        }
        if ok {
          user := Some(Userinfo(envUsername, Some(password)));
        } else {
          user := Some(Userinfo(envUsername, None));
        }
      }
      if envPassword != "" {
        var username := "";
        if user.Some? {
          username := user.value.username;
        }
        user := Some(Userinfo(username, Some(envPassword)));
      }
    }
  }
}
