/**
 * The development server's API proxy target: the first configured base URL
 * among three environment variables, else the local backend, with one
 * trailing slash removed.
 */
module ProxyTarget {
  import opened Shared

  /** The local backend, the last candidate. */
  const LocalBackend := "http://localhost:8000"

  /** The environment variables read, in priority order; None is an unset variable. */
  datatype Env = Env(apiProxyTarget: Option<string>, viteApiBaseUrl: Option<string>, vueAppApiBaseUrl: Option<string>)

  /** JavaScript truthiness of an environment value: set and not empty. */
  predicate JsTruthy(v: Option<string>)
  {
    v.Some? && v.value != ""
  }

  function Candidates(env: Env): seq<Option<string>>
  {
    [env.apiProxyTarget, env.viteApiBaseUrl, env.vueAppApiBaseUrl, Some(LocalBackend)]
  }

  /** The first truthy candidate, as the `for ... of` loop finds it. */
  function FirstTruthy(candidates: seq<Option<string>>): (r: Option<string>)
    ensures r.None? <==> forall i :: 0 <= i < |candidates| ==> !JsTruthy(candidates[i])
    ensures r.Some? ==> exists i :: (0 <= i < |candidates| && candidates[i] == r
      && JsTruthy(candidates[i]) && forall j :: 0 <= j < i ==> !JsTruthy(candidates[j]))
  {
    if candidates == [] then None
    else if JsTruthy(candidates[0]) then candidates[0]
    else
      var rest := FirstTruthy(candidates[1..]);
      assert forall i :: 1 <= i < |candidates| ==> candidates[i] == candidates[1..][i - 1];
      assert rest.Some? ==> exists i :: (1 <= i < |candidates| && candidates[i] == rest
        && JsTruthy(candidates[i]) && forall j :: 0 <= j < i ==> !JsTruthy(candidates[j])) by {
        if rest.Some? {
          var i :| 0 <= i < |candidates[1..]| && candidates[1..][i] == rest
            && JsTruthy(candidates[1..][i]) && forall j :: 0 <= j < i ==> !JsTruthy(candidates[1..][j]);
          assert candidates[i + 1] == rest;
          assert forall j :: 1 <= j < i + 1 ==> candidates[j] == candidates[1..][j - 1];
        }
      }
      rest
  }

  /** `replace(/\/$/, '')`: one slash at the very end is removed. */
  function StripTrailingSlash(s: string): (r: string)
    ensures r <= s
    ensures |s| > 0 && s[|s| - 1] == '/' ==> r + "/" == s
    ensures !(|s| > 0 && s[|s| - 1] == '/') ==> r == s
  {
    if |s| > 0 && s[|s| - 1] == '/' then s[..|s| - 1] else s
  }

  /** Only one slash goes: a doubled trailing slash leaves one behind. */
  lemma OnlyOneSlashRemoved(s: string)
    ensures StripTrailingSlash(s + "//") == s + "/"
  {
    assert (s + "//")[..|s| + 1] == s + "/";
  }

  /**
   * `resolveProxyTarget`: the local backend, or one of the three variables
   * with its trailing slash removed, taken only when it is set and non-empty.
   */
  function ResolveProxyTarget(env: Env): (r: string)
    ensures r == LocalBackend || exists i :: (0 <= i < 3 && JsTruthy(Candidates(env)[i])
      && r == StripTrailingSlash(Candidates(env)[i].value))
  {
    assert StripTrailingSlash(LocalBackend) == LocalBackend;
    match FirstTruthy(Candidates(env))
    case Some(c) => StripTrailingSlash(c)
    case None => LocalBackend
  }

  /** The last candidate is a non-empty literal, so the loop always returns and the code after it never runs. */
  lemma FallbackIsUnreachable(env: Env)
    ensures FirstTruthy(Candidates(env)).Some?
  {
    assert JsTruthy(Candidates(env)[3]);
  }

  /** The variables take priority in order; with none of them set to a non-empty value, the local backend is used. */
  lemma ResolutionOrder(env: Env)
    ensures JsTruthy(env.apiProxyTarget) ==>
      ResolveProxyTarget(env) == StripTrailingSlash(env.apiProxyTarget.value)
    ensures !JsTruthy(env.apiProxyTarget) && JsTruthy(env.viteApiBaseUrl) ==>
      ResolveProxyTarget(env) == StripTrailingSlash(env.viteApiBaseUrl.value)
    ensures !JsTruthy(env.apiProxyTarget) && !JsTruthy(env.viteApiBaseUrl) && JsTruthy(env.vueAppApiBaseUrl) ==>
      ResolveProxyTarget(env) == StripTrailingSlash(env.vueAppApiBaseUrl.value)
    ensures !JsTruthy(env.apiProxyTarget) && !JsTruthy(env.viteApiBaseUrl) && !JsTruthy(env.vueAppApiBaseUrl) ==>
      ResolveProxyTarget(env) == LocalBackend
  {
    var cs := Candidates(env);
    assert cs[1..] == [env.viteApiBaseUrl, env.vueAppApiBaseUrl, Some(LocalBackend)];
    assert cs[1..][1..] == [env.vueAppApiBaseUrl, Some(LocalBackend)];
    assert cs[1..][1..][1..] == [Some(LocalBackend)];
    assert FirstTruthy(cs[1..][1..][1..]) == Some(LocalBackend);
    assert FirstTruthy(cs[1..][1..]) == if JsTruthy(env.vueAppApiBaseUrl) then env.vueAppApiBaseUrl else Some(LocalBackend);
    assert FirstTruthy(cs[1..]) == if JsTruthy(env.viteApiBaseUrl) then env.viteApiBaseUrl else FirstTruthy(cs[1..][1..]);
    assert StripTrailingSlash(LocalBackend) == LocalBackend;
  }
}
