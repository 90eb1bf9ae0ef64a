/**
 * The guards of the live-status update: the username check and the
 * credential checks of `update_live_status` and `_prepare_client`.
 * Environment variables are inputs; logging in and posting are left out.
 */
module Bsky {
  import opened Options

  /** The character class `[a-zA-Z0-9_]`. */
  predicate IsWordChar(c: char)
  {
    ('a' <= c <= 'z') || ('A' <= c <= 'Z') || ('0' <= c <= '9') || c == '_'
  }

  /**
   * Whether `[a-zA-Z0-9_]{lo,hi}` matches all of s: between lo and hi
   * characters, each in the class, consumed one at a time.
   */
  predicate FullMatchRepeat(s: string, lo: nat, hi: nat)
    decreases |s|
  {
    if s == [] then lo == 0
    else hi > 0 && IsWordChar(s[0]) && FullMatchRepeat(s[1..], if lo > 0 then lo - 1 else 0, hi - 1)
  }

  /** `_is_valid_username`: `re.compile(r'^[a-zA-Z0-9_]{4,25}$').fullmatch(s)`. */
  predicate IsValidUsername(s: string)
  {
    FullMatchRepeat(s, 4, 25)
  }

  /** The matcher accepts exactly the strings of lo..hi class characters. */
  lemma {:induction false} FullMatchRepeatIff(s: string, lo: nat, hi: nat)
    ensures FullMatchRepeat(s, lo, hi) <==>
      lo <= |s| <= hi && forall i :: 0 <= i < |s| ==> IsWordChar(s[i])
  {
    if s != [] && hi > 0 {
      FullMatchRepeatIff(s[1..], if lo > 0 then lo - 1 else 0, hi - 1);
      assert forall i :: 1 <= i < |s| ==> s[i] == s[1..][i - 1];
    }
  }

  /** A username is valid iff it has 4 to 25 characters, each an ASCII letter, digit or '_'. */
  lemma ValidUsernameIff(s: string)
    ensures IsValidUsername(s) <==> 4 <= |s| <= 25 && forall i :: 0 <= i < |s| ==> IsWordChar(s[i])
  {
    FullMatchRepeatIff(s, 4, 25);
  }

  /** Three or 26 characters, a space, a '-' or a non-ASCII character are all rejected. */
  lemma RejectedUsernames(s: string)
    requires |s| == 3 || |s| == 26 || ' ' in s || '-' in s || exists i :: 0 <= i < |s| && s[i] > '\U{7F}'
    ensures !IsValidUsername(s)
  {
    ValidUsernameIff(s);
  }

  /** `os.getenv('BSKY_USER_NAME')` and `os.getenv('BSKY_PASSWORD')`; None when unset. */
  datatype Env = Env(user: Option<string>, password: Option<string>)

  /** Python truthiness of `os.getenv(...)`: set and non-empty. */
  predicate Truthy(v: Option<string>)
  {
    v.Some? && v.value != ""
  }

  /** `all([user, password])`. */
  predicate AllSet(env: Env)
  {
    Truthy(env.user) && Truthy(env.password)
  }

  /** Python's `~` on a bool: `~True == -2`, `~False == -1`. */
  function BitNot(b: bool): (n: int)
  {
    -(if b then 1 else 0) - 1
  }

  /** Python truthiness of an int. */
  predicate IntTruthy(n: int)
  {
    n != 0
  }

  /** The two ValueErrors the code raises. */
  datatype Error = InvalidUsername | CredentialsNotSet

  datatype Result<T> = Ok(value: T) | Err(error: Error)

  /** The client after `login(*login_info)`. */
  datatype Client = LoggedIn(user: Option<string>, password: Option<string>)

  /** `_prepare_client` as written: the guard is `~all(login_info)`. */
  function PrepareClient(env: Env): (r: Result<Client>)
    ensures r.Ok? ==> r.value == LoggedIn(env.user, env.password)
  {
    if IntTruthy(BitNot(AllSet(env))) then Err(CredentialsNotSet)
    else Ok(LoggedIn(env.user, env.password))
  }

  /** Where `update_live_status` ends: an error, the early `return None`, or reaching the blob upload and status post (neither is modelled). */
  datatype Outcome = Raised(error: Error) | Skipped | ReachesPost(client: Client)

  /** `update_live_status` as written, up to the post (which is left out). */
  function UpdateLiveStatus(username: string, env: Env): (o: Outcome)
    ensures !IsValidUsername(username) ==> o == Raised(InvalidUsername)
    ensures o.ReachesPost? ==> o.client == LoggedIn(env.user, env.password)
  {
    if !IsValidUsername(username) then Raised(InvalidUsername)
    else if IntTruthy(BitNot(AllSet(env))) then Skipped
    else match PrepareClient(env)
      case Err(e) => Raised(e)
      case Ok(c) => ReachesPost(c)
  }

  /** `~b` is -1 or -2 and so truthy, whichever bool `all` returns. */
  lemma BitNotAlwaysTruthy(b: bool)
    ensures BitNot(b) == -1 || BitNot(b) == -2
    ensures IntTruthy(BitNot(b))
  {
  }

  /** As written, `_prepare_client` raises ValueError even when both credentials are set. */
  lemma PrepareClientAlwaysFails(env: Env)
    ensures PrepareClient(env) == Err(CredentialsNotSet)
  {
    BitNotAlwaysTruthy(AllSet(env));
  }

  /** An invalid username raises before any credential is looked at. */
  lemma InvalidUsernameFirst(username: string, env: Env, env': Env)
    requires !IsValidUsername(username)
    ensures UpdateLiveStatus(username, env) == Raised(InvalidUsername)
    ensures UpdateLiveStatusIntended(username, env) == Raised(InvalidUsername)
    ensures UpdateLiveStatus(username, env) == UpdateLiveStatus(username, env')
  {
  }

  /** As written, a valid username always takes the skip branch and nothing is posted. */
  lemma ValidUsernameAlwaysSkips(username: string, env: Env)
    requires IsValidUsername(username)
    ensures UpdateLiveStatus(username, env) == Skipped
  {
    BitNotAlwaysTruthy(AllSet(env));
  }

  /** `_prepare_client` with the guard `not all(login_info)`. */
  function PrepareClientIntended(env: Env): (r: Result<Client>)
    ensures r.Ok? ==> r.value == LoggedIn(env.user, env.password)
  {
    if !AllSet(env) then Err(CredentialsNotSet)
    else Ok(LoggedIn(env.user, env.password))
  }

  /** `update_live_status` with the guard `not all([...])`. */
  function UpdateLiveStatusIntended(username: string, env: Env): (o: Outcome)
    ensures !IsValidUsername(username) ==> o == Raised(InvalidUsername)
    ensures o.ReachesPost? ==> o.client == LoggedIn(env.user, env.password)
  {
    if !IsValidUsername(username) then Raised(InvalidUsername)
    else if !AllSet(env) then Skipped
    else match PrepareClientIntended(env)
      case Err(e) => Raised(e)
      case Ok(c) => ReachesPost(c)
  }

  /**
   * With the intended guard, a valid username reaches the post step with exactly the
   * credentials from the environment when both are set, and skipped otherwise.
   */
  lemma IntendedOutcome(username: string, env: Env)
    requires IsValidUsername(username)
    ensures AllSet(env) ==>
      UpdateLiveStatusIntended(username, env) == ReachesPost(LoggedIn(env.user, env.password))
    ensures !AllSet(env) ==> UpdateLiveStatusIntended(username, env) == Skipped
  {
  }

  /** With the intended guard, `_prepare_client` fails exactly when a credential is unset or empty. */
  lemma IntendedPrepareClient(env: Env)
    ensures PrepareClientIntended(env).Err? <==> !Truthy(env.user) || !Truthy(env.password)
  {
  }
}
