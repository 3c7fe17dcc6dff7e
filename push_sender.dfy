/** `HttpPushNotificationSender.SendNotificationAsync`: the HTTP request
    built for a task's push configuration. Whether the URL parses as an
    absolute URI (`Uri.TryCreate`) is an input; sending the request, its
    response and the exceptions around it are outside the model, and the
    sender reports none of them to its caller. */
module PushSender {
  import opened Wrappers
  import opened Models
  import opened Text
  import opened TaskStore

  /** The request the sender hands to `HttpClient.SendAsync`: the verb, the
      target, the `Authorization` header as (scheme, parameter), the
      `X-A2A-Push-Token` header, and the task it carries as JSON. */
  datatype PushRequest = PushRequest(
    httpMethod: string, url: string, authorization: Option<(string, string)>,
    pushToken: Option<string>, content: Task)

  /** `!string.IsNullOrEmpty(s)`. */
  predicate NonEmpty(s: Option<string>) {
    s.Some? && s.value != ""
  }

  /** `Schemes.Contains("bearer", StringComparer.OrdinalIgnoreCase)`. */
  function HasBearer(schemes: seq<string>): (r: bool)
    ensures r <==> exists i | 0 <= i < |schemes| :: EqualsIgnoreCase(schemes[i], "bearer")
  {
    if schemes == [] then false
    else if EqualsIgnoreCase(schemes[0], "bearer") then true
    else
      var tail := schemes[1..];
      assert forall i | 1 <= i < |schemes| :: schemes[i] == tail[i - 1];
      HasBearer(tail)
  }

  /** The `Authorization` header: a bearer token when one of the schemes is
      "bearer" in any letter case and credentials are present and non-empty;
      no header for any other configuration (the source only logs a
      warning then). */
  function AuthorizationHeader(auth: Option<AgentAuthentication>): (r: Option<(string, string)>)
    ensures r.Some? <==> auth.Some? && HasBearer(auth.value.schemes) && NonEmpty(auth.value.credentials)
    ensures r.Some? ==> r.value == ("Bearer", auth.value.credentials.value)
  {
    match auth
    case None => None
    case Some(a) =>
      if HasBearer(a.schemes) && NonEmpty(a.credentials) then Some(("Bearer", a.credentials.value))
      else None
  }

  /** The request for `task` under `config`: none when the URL is not
      absolute; otherwise a POST of the task to the configured URL, with the
      bearer header as above and the push token header exactly when the
      token is non-empty. */
  function BuildPushRequest(config: PushNotificationConfig, task: Task, urlIsAbsolute: bool): (r: Option<PushRequest>)
    ensures r.None? <==> !urlIsAbsolute
    ensures r.Some? ==>
      r.value.httpMethod == "POST" && r.value.url == config.url && r.value.content == task
      && r.value.authorization == AuthorizationHeader(config.authentication)
      && (r.value.pushToken.Some? <==> NonEmpty(config.token))
      && (r.value.pushToken.Some? ==> r.value.pushToken == config.token)
  {
    if !urlIsAbsolute then None
    else
      var token := if NonEmpty(config.token) then config.token else None;
      Some(PushRequest("POST", config.url, AuthorizationHeader(config.authentication), token, task))
  }

  /** The scheme test ignores letter case: writing one scheme in another
      case never changes whether a bearer header is sent. */
  lemma BearerSchemeIgnoresCase(schemes: seq<string>, i: nat, variant: string)
    requires i < |schemes| && EqualsIgnoreCase(schemes[i], variant)
    ensures HasBearer(schemes[i := variant]) == HasBearer(schemes)
  {
    var changed := schemes[i := variant];
    if HasBearer(schemes) {
      var j :| 0 <= j < |schemes| && EqualsIgnoreCase(schemes[j], "bearer");
      if j == i {
        assert EqualsIgnoreCase(changed[i], "bearer");
      } else {
        assert changed[j] == schemes[j];
      }
    }
    if HasBearer(changed) {
      var j :| 0 <= j < |changed| && EqualsIgnoreCase(changed[j], "bearer");
      if j == i {
        assert EqualsIgnoreCase(schemes[i], "bearer");
      } else {
        assert changed[j] == schemes[j];
      }
    }
  }

  /** A scheme list naming "BEARER" among others gets the bearer header. */
  lemma UpperCaseBearerAccepted(url: string, task: Task)
    ensures BuildPushRequest(
      PushNotificationConfig(url, None, Some(AgentAuthentication(["Basic", "BEARER"], Some("abc")))), task, true)
      == Some(PushRequest("POST", url, Some(("Bearer", "abc")), None, task))
  {
    assert EqualsIgnoreCase("BEARER", "bearer");
  }

  /** A status update that triggers a push (`TriggerPushNotificationIfNeeded`)
      for a task whose stored settings name a bearer scheme with
      credentials: the push recorded last builds, for an absolute URL, a POST
      of the updated task carrying `Authorization: Bearer <credentials>`. */
  lemma TriggeredPushCarriesBearer(s: StoreState, taskId: string, newState: TaskState,
                                   statusMessage: Option<Message>, now: Timestamp)
    requires WellFormed(s) && taskId in s.pushConfigs && IsNotifiable(newState)
    requires s.pushConfigs[taskId].authentication.Some?
    requires HasBearer(s.pushConfigs[taskId].authentication.value.schemes)
    requires NonEmpty(s.pushConfigs[taskId].authentication.value.credentials)
    ensures var r := UpdateStatus(s, taskId, newState, statusMessage, now).0;
      |r.pushes| == |s.pushes| + 1
      && var push := r.pushes[|r.pushes| - 1];
      push.config == s.pushConfigs[taskId]
      && BuildPushRequest(push.config, push.task, true)
         == Some(PushRequest("POST", push.config.url,
                             Some(("Bearer", s.pushConfigs[taskId].authentication.value.credentials.value)),
                             if NonEmpty(push.config.token) then push.config.token else None,
                             r.tasks[taskId]))
  {
    var r := UpdateStatus(s, taskId, newState, statusMessage, now).0;
    assert r.pushes == s.pushes + [PushSend(s.pushConfigs[taskId], r.tasks[taskId])];
  }
}
