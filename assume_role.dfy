/**
 * Composing and sending the assume-role request (assumerole/main.py,
 * assume_profile_role). The profile's configuration, the account and host names,
 * the MFA code the user types and the token service's answer are inputs; the
 * cache file is the one piece of state the operation changes.
 */
module AssumeRole {
  import opened Wrappers
  import opened SessionName
  import opened DurationCache
  import opened Envars

  /** Keys of the profile configuration that are read. */
  const RoleArnKey: string := "role_arn"
  const MfaSerialKey: string := "mfa_serial"

  /** Fields of the assume-role request. */
  const RoleArnField: string := "RoleArn"
  const SessionNameField: string := "RoleSessionName"
  const DurationField: string := "DurationSeconds"
  const SerialField: string := "SerialNumber"
  const TokenField: string := "TokenCode"

  /** A request value: text, or a number of seconds. */
  datatype Field = Text(text: string) | Seconds(seconds: int)

  /** The request, as the keyword arguments handed to the token service. */
  type Request = map<string, Field>

  /** A request ready to send, with the role and the effective duration it was built for. */
  datatype Prepared = Prepared(roleArn: string, request: Request, duration: int)

  /** Why an assumption fails: the profile has no role, or the token service refused the request. */
  datatype AssumeError = MissingRoleArn(profile: string) | Denied(request: Request, reason: string)

  /** The token service's answer to the request. */
  datatype TokenResponse = Granted(credentials: Credentials) | Rejected(reason: string)

  /**
   * What the request for a role says: the role and session name always; the
   * duration exactly when it is non-zero (0 lets the service pick its default);
   * the MFA serial and token code exactly when the profile names an MFA device.
   */
  predicate IsRequestFor(rq: Request, roleArn: string, sessionName: string, duration: int,
                         mfaSerial: Option<string>, tokenCode: string)
  {
    && RoleArnField in rq && rq[RoleArnField] == Text(roleArn)
    && SessionNameField in rq && rq[SessionNameField] == Text(sessionName)
    && (DurationField in rq <==> duration != 0)
    && (duration != 0 ==> rq[DurationField] == Seconds(duration))
    && (SerialField in rq <==> mfaSerial.Some?)
    && (TokenField in rq <==> mfaSerial.Some?)
    && (mfaSerial.Some? ==> rq[SerialField] == Text(mfaSerial.value) && rq[TokenField] == Text(tokenCode))
    && rq.Keys <= {RoleArnField, SessionNameField, DurationField, SerialField, TokenField}
  }

  /** The profile's MFA device, if it names one. */
  function MfaSerialOf(config: map<string, string>): Option<string>
  {
    if MfaSerialKey in config then Some(config[MfaSerialKey]) else None
  }

  /** The session name asked for, or `user@host` when none was given. */
  function SessionNameOrDefault(sessionName: string, user: string, hostname: string): string
  {
    if sessionName != [] then sessionName else DefaultSessionName(user, hostname)
  }

  /** The duration asked for, or the cached hint for the role when none (0) was given. */
  function EffectiveDuration(sessionDuration: int, cached: Option<Document>, roleArn: string): int
  {
    if sessionDuration != 0 then sessionDuration else GetMaxDuration(LoadCache(cached), roleArn)
  }

  /**
   * Build the request for a profile, field by field. Fails, before anything else,
   * when the profile has no role ARN; reads the cached hint only when no duration
   * was given.
   */
  method ComposeRequest(profile: string, config: map<string, string>, sessionName: string,
                        sessionDuration: int, cached: Option<Document>,
                        user: string, hostname: string, mfaCode: string)
    returns (r: Result<Prepared, AssumeError>)
    ensures r.Failure? <==> RoleArnKey !in config
    ensures r.Failure? ==> r.error == MissingRoleArn(profile)
    ensures r.Success? ==> r.value.roleArn == config[RoleArnKey]
    ensures r.Success? && sessionDuration != 0 ==> r.value.duration == sessionDuration
    ensures r.Success? && sessionDuration == 0 ==>
      r.value.duration == GetMaxDuration(LoadCache(cached), config[RoleArnKey])
    ensures r.Success? ==>
      IsRequestFor(r.value.request, config[RoleArnKey], SessionNameOrDefault(sessionName, user, hostname),
                   r.value.duration, MfaSerialOf(config), mfaCode)
  {
    if RoleArnKey !in config {
      return Failure(MissingRoleArn(profile));
    }
    var roleArn := config[RoleArnKey];
    var name := if sessionName != [] then sessionName else DefaultSessionName(user, hostname);
    var rq: Request := map[RoleArnField := Text(roleArn), SessionNameField := Text(name)];

    var duration := sessionDuration;
    if duration == 0 {
      duration := GetMaxDuration(LoadCache(cached), roleArn);
    }
    if duration != 0 {
      rq := rq[DurationField := Seconds(duration)];
    }

    if MfaSerialKey in config {
      rq := rq[SerialField := Text(config[MfaSerialKey])];
      rq := rq[TokenField := Text(mfaCode)];
    }
    return Success(Prepared(roleArn, rq, duration));
  }

  /**
   * Assume the profile's role: compose the request, send it, and on success record
   * a non-zero effective duration in the cache. The cache is left alone when the
   * profile has no role or the service refuses.
   */
  method AssumeProfileRole(cache: CacheFile, profile: string, config: map<string, string>,
                           sessionName: string, sessionDuration: int,
                           user: string, hostname: string, mfaCode: string, response: TokenResponse)
    returns (sent: Option<Request>, r: Result<Credentials, AssumeError>)
    modifies cache
    ensures RoleArnKey !in config ==>
      sent == None && r == Failure(MissingRoleArn(profile)) && cache.contents == old(cache.contents)
    ensures RoleArnKey in config ==>
      sent.Some? && IsRequestFor(sent.value, config[RoleArnKey], SessionNameOrDefault(sessionName, user, hostname),
                                 EffectiveDuration(sessionDuration, old(cache.contents), config[RoleArnKey]),
                                 MfaSerialOf(config), mfaCode)
    ensures RoleArnKey in config && response.Rejected? ==>
      r == Failure(Denied(sent.value, response.reason)) && cache.contents == old(cache.contents)
    ensures RoleArnKey in config && response.Granted? ==>
      r == Success(response.credentials) &&
      var duration := EffectiveDuration(sessionDuration, old(cache.contents), config[RoleArnKey]);
      cache.contents == if duration != 0 then Recorded(old(cache.contents), config[RoleArnKey], duration)
                        else old(cache.contents)
  {
    var prepared := ComposeRequest(profile, config, sessionName, sessionDuration, cache.contents,
                                   user, hostname, mfaCode);
    if prepared.Failure? {
      return None, Failure(prepared.error);
    }
    var p := prepared.value;
    sent := Some(p.request);
    if response.Rejected? {
      return sent, Failure(Denied(p.request, response.reason));
    }
    if p.duration != 0 {
      cache.CacheMaxDuration(p.roleArn, p.duration);
    }
    r := Success(response.credentials);
  }

  /** A request is determined by what it is for: two requests for the same things are equal. */
  lemma RequestIsDetermined(rq1: Request, rq2: Request, roleArn: string, sessionName: string,
                            duration: int, mfaSerial: Option<string>, tokenCode: string)
    requires IsRequestFor(rq1, roleArn, sessionName, duration, mfaSerial, tokenCode)
    requires IsRequestFor(rq2, roleArn, sessionName, duration, mfaSerial, tokenCode)
    ensures rq1 == rq2
  {
  }

  /**
   * Profile dev (role arn:aws:iam::123:role/Dev, no MFA) with an empty cache: asking
   * for 3600 seconds records 3600; asking again for 1800 keeps 3600.
   */
  method DevProfileScenario(creds: Credentials)
  {
    var arn := "arn:aws:iam::123:role/Dev";
    var config := map[RoleArnKey := arn];
    var cache := new CacheFile(None);

    var sent, r := AssumeProfileRole(cache, "dev", config, "", 3600, "alice", "box.example.com", "",
                                     Granted(creds));
    assert r == Success(creds);
    assert DurationField in sent.value && sent.value[DurationField] == Seconds(3600);
    assert SerialField !in sent.value && TokenField !in sent.value;
    assert cache.contents == Some(map[MaxKey := Durations(map[arn := 3600])]);

    sent, r := AssumeProfileRole(cache, "dev", config, "", 1800, "alice", "box.example.com", "",
                                 Granted(creds));
    assert cache.contents == Some(map[MaxKey := Durations(map[arn := 3600])]);

    // With no duration given, the learned hint is requested.
    sent, r := AssumeProfileRole(cache, "dev", config, "", 0, "alice", "box.example.com", "",
                                 Granted(creds));
    assert sent.value[DurationField] == Seconds(3600);
  }
}
