// Deploy configuration: the check made before a build and the resolution made
// after the push are two hand-written copies of one rule set; this is exactly
// how they relate.
// Source: internal/core/deploy.go.

module Deploy {
  import opened Text

  datatype Target = Dokploy | Swiftwave
  datatype Method = Api | Webhook

  // The deploy block as written; None is an unset flag.
  datatype Config = Config(
    target: string, via: string, endpoint: string, endpointEnv: string, application: string, tokenEnv: string,
    auto: Option<bool>, updateImage: Option<bool>, timeout: string,
    registryURL: string, registryUsernameEnv: string, registryPasswordEnv: string)

  // What the standard library decides: whether a URL is absolute http(s) with a
  // host, and what a duration means in nanoseconds.
  datatype Library = Library(usable: string -> bool, duration: string -> Option<int>)

  type Env = string -> string

  const DEFAULT_TOKEN_ENV := "POKKUM_DEPLOY_TOKEN"
  const DOKPLOY := "dokploy"
  const SWIFTWAVE := "swiftwave"
  const API := "api"
  const WEBHOOK := "webhook"
  const DEFAULT_TIMEOUT: int := 60_000_000_000

  function LowerTrimmed(s: string): string
  {
    Lower(Trim(s))
  }

  function ParseTarget(s: string): Option<Target>
  {
    var t := LowerTrimmed(s);
    if t == DOKPLOY then Some(Dokploy) else if t == SWIFTWAVE then Some(Swiftwave) else None
  }

  function ParseMethod(s: string): Option<Method>
  {
    var m := LowerTrimmed(s);
    if m == API then Some(Api) else if m == WEBHOOK then Some(Webhook) else None
  }

  function DefaultMethod(t: Target): Method
  {
    if t == Swiftwave then Webhook else Api
  }

  predicate Supported(t: Target, m: Method)
  {
    t == Swiftwave || m == Api
  }

  predicate SupportsImageUpdate(t: Target, m: Method)
  {
    t == Dokploy && m == Api
  }

  // ---- The rules, one by one ------------------------------------------------------------

  datatype Complaint =
    | FieldsWithoutTarget | BadTarget | BadMethod | UnsupportedMethod | NoEndpoint | BadEndpoint
    | NoApplication | NoImageUpdate | HalfPair | BadTimeout | TimeoutNotPositive

  predicate OtherFieldsSet(c: Config)
  {
    c.via != [] || c.endpoint != [] || c.endpointEnv != [] || c.application != [] || c.tokenEnv != []
    || c.auto.Some? || c.updateImage.Some? || c.timeout != [] || c.registryURL != []
    || c.registryUsernameEnv != [] || c.registryPasswordEnv != []
  }

  function MethodOf(c: Config): Option<Method>
  {
    if ParseTarget(c.target).None? then None
    else if Blank(c.via) then Some(DefaultMethod(ParseTarget(c.target).value))
    else ParseMethod(c.via)
  }

  predicate Understood(c: Config)
  {
    ParseTarget(c.target).Some? && MethodOf(c).Some?
  }

  // When a complaint is due.
  predicate Due(c: Config, lib: Library, e: Complaint)
  {
    match e
    case FieldsWithoutTarget => Blank(c.target) && OtherFieldsSet(c)
    case BadTarget => !Blank(c.target) && ParseTarget(c.target).None?
    case BadMethod => !Blank(c.target) && ParseTarget(c.target).Some? && MethodOf(c).None?
    case _ => !Blank(c.target) && Understood(c) && DueOf(c, lib, ParseTarget(c.target).value, MethodOf(c).value, e)
  }

  // The complaints about a configuration whose target and method are known.
  predicate DueOf(c: Config, lib: Library, t: Target, m: Method, e: Complaint)
  {
    match e
    case UnsupportedMethod => !Supported(t, m)
    case NoEndpoint => Blank(c.endpoint) && Blank(c.endpointEnv)
    case BadEndpoint => !Blank(c.endpoint) && !lib.usable(Trim(c.endpoint))
    case NoApplication => m == Api && Blank(c.application)
    case NoImageUpdate => c.updateImage == Some(true) && !SupportsImageUpdate(t, m)
    case HalfPair => Blank(c.registryUsernameEnv) != Blank(c.registryPasswordEnv)
    case BadTimeout => !Blank(c.timeout) && lib.duration(Trim(c.timeout)).None?
    case TimeoutNotPositive => !Blank(c.timeout) && lib.duration(Trim(c.timeout)).Some? && lib.duration(Trim(c.timeout)).value <= 0
    case _ => false
  }

  // What `pokkum config validate` reports: every complaint that is due, and no other.
  method ValidateDeployConfig(c: Config, lib: Library) returns (errs: seq<Complaint>)
    ensures forall e :: e in errs <==> Due(c, lib, e)
  {
    hide Trim, Blank, ParseTarget, ParseMethod, OtherFieldsSet, DueOf;
    errs := [];
    if Blank(c.target) {
      if OtherFieldsSet(c) {
        errs := errs + [FieldsWithoutTarget];
      }
      return;
    }
    var target := ParseTarget(c.target);
    if target.None? {
      return [BadTarget];
    }
    var via := DefaultMethod(target.value);
    if !Blank(c.via) {
      var parsed := ParseMethod(c.via);
      if parsed.None? {
        return [BadMethod];
      }
      via := parsed.value;
    }
    OnlyFieldsDue(c, lib);
    errs := ValidateFields(c, lib, target.value, via);
  }

  lemma OnlyFieldsDue(c: Config, lib: Library)
    requires !Blank(c.target) && Understood(c)
    ensures forall e: Complaint :: Due(c, lib, e) <==> DueOf(c, lib, ParseTarget(c.target).value, MethodOf(c).value, e)
  {
    hide Blank, ParseTarget, MethodOf;
  }

  // Append a complaint when it is due.
  method Report(errs: seq<Complaint>, due: bool, e: Complaint) returns (r: seq<Complaint>)
    ensures forall x :: x in r <==> x in errs || (due && x == e)
  {
    r := if due then errs + [e] else errs;
  }

  // The complaints about where and what to deploy.
  predicate AboutTarget(e: Complaint)
  {
    e.UnsupportedMethod? || e.NoEndpoint? || e.BadEndpoint? || e.NoApplication?
  }

  method ValidateWhere(c: Config, lib: Library, t: Target, m: Method) returns (errs: seq<Complaint>)
    ensures forall e :: e in errs <==> AboutTarget(e) && DueOf(c, lib, t, m, e)
  {
    hide DueOf, Trim, Blank;
    EachDue(c, lib, t, m);
    errs := Report([], !Supported(t, m), UnsupportedMethod);
    errs := Report(errs, Blank(c.endpoint) && Blank(c.endpointEnv), NoEndpoint);
    errs := Report(errs, !Blank(c.endpoint) && !lib.usable(Trim(c.endpoint)), BadEndpoint);
    errs := Report(errs, m == Api && Blank(c.application), NoApplication);
  }

  method ValidateFields(c: Config, lib: Library, t: Target, m: Method) returns (errs: seq<Complaint>)
    ensures forall e :: e in errs <==> DueOf(c, lib, t, m, e)
  {
    hide DueOf, Trim, Blank;
    EachDue(c, lib, t, m);
    errs := ValidateWhere(c, lib, t, m);
    errs := Report(errs, c.updateImage == Some(true) && !SupportsImageUpdate(t, m), NoImageUpdate);
    errs := Report(errs, Blank(c.registryUsernameEnv) != Blank(c.registryPasswordEnv), HalfPair);
    if !Blank(c.timeout) {
      var d := lib.duration(Trim(c.timeout));
      errs := Report(errs, d.None?, BadTimeout);
      errs := Report(errs, d.Some? && d.value <= 0, TimeoutNotPositive);
    }
  }

  lemma EachDue(c: Config, lib: Library, t: Target, m: Method)
    ensures DueOf(c, lib, t, m, UnsupportedMethod) <==> !Supported(t, m)
    ensures DueOf(c, lib, t, m, NoEndpoint) <==> Blank(c.endpoint) && Blank(c.endpointEnv)
    ensures DueOf(c, lib, t, m, BadEndpoint) <==> !Blank(c.endpoint) && !lib.usable(Trim(c.endpoint))
    ensures DueOf(c, lib, t, m, NoApplication) <==> m == Api && Blank(c.application)
    ensures DueOf(c, lib, t, m, NoImageUpdate) <==> Updates(c) && !SupportsImageUpdate(t, m)
    ensures DueOf(c, lib, t, m, HalfPair) <==> Blank(c.registryUsernameEnv) != Blank(c.registryPasswordEnv)
    ensures DueOf(c, lib, t, m, BadTimeout) <==> !Blank(c.timeout) && lib.duration(Trim(c.timeout)).None?
    ensures DueOf(c, lib, t, m, TimeoutNotPositive) <==>
            !Blank(c.timeout) && lib.duration(Trim(c.timeout)).Some? && lib.duration(Trim(c.timeout)).value <= 0
    ensures forall e: Complaint | e.FieldsWithoutTarget? || e.BadTarget? || e.BadMethod? :: !DueOf(c, lib, t, m, e)
  {
    hide Trim, Blank;
  }

  // ---- Resolution -----------------------------------------------------------------------

  datatype Error = NotConfigured | InvalidTarget | InvalidMethod | InvalidRequest | TokenMissing

  datatype Request = Request(
    target: Target, via: Method, endpoint: string, token: string, application: string, imageRef: string, taggedRef: string,
    updateImage: bool, registryURL: string, registryUsername: string, registryPassword: string, timeout: int)

  datatype Resolved = Ok(request: Request) | Err(error: Error)

  // The environment wins over the file, where it has something to say.
  predicate EndpointFromEnv(c: Config, env: Env)
  {
    !Blank(c.endpointEnv) && !Blank(env(Trim(c.endpointEnv)))
  }

  function Endpoint(c: Config, env: Env): string
  {
    if EndpointFromEnv(c, env) then Trim(env(Trim(c.endpointEnv))) else Trim(c.endpoint)
  }

  function TokenName(c: Config): string
  {
    if Blank(c.tokenEnv) then DEFAULT_TOKEN_ENV else Trim(c.tokenEnv)
  }

  function Secret(name: string, env: Env): string
  {
    if Blank(name) then [] else Trim(env(Trim(name)))
  }

  predicate Updates(c: Config)
  {
    c.updateImage == Some(true)
  }

  // Every variable the configuration names holds something, the endpoint that
  // counts is usable, and there is an image to point at when one is wanted.
  predicate Ready(c: Config, lib: Library, m: Method, imageRef: string, env: Env)
  {
    && Endpoint(c, env) != [] && lib.usable(Endpoint(c, env))
    && (m == Api ==> !Blank(env(TokenName(c))))
    && (Updates(c) ==> !Blank(imageRef) && NamedIsSet(c.registryUsernameEnv, env) && NamedIsSet(c.registryPasswordEnv, env))
  }

  predicate NamedIsSet(name: string, env: Env)
  {
    Blank(name) || !Blank(env(Trim(name)))
  }

  // The two complaints resolution does not share: a bad endpoint in the file that
  // the environment's overrides, and half a registry pair that is never used.
  predicate Tolerated(c: Config, env: Env, e: Complaint)
  {
    (e.BadEndpoint? && EndpointFromEnv(c, env)) || (e.HalfPair? && !Updates(c))
  }

  predicate Agrees(c: Config, lib: Library, env: Env)
  {
    forall e: Complaint :: Due(c, lib, e) ==> Tolerated(c, env, e)
  }

  function TimeoutOf(c: Config, lib: Library): int
  {
    if Blank(c.timeout) || lib.duration(Trim(c.timeout)).None? then DEFAULT_TIMEOUT else lib.duration(Trim(c.timeout)).value
  }

  // The request a successful resolution builds.
  function Built(c: Config, lib: Library, t: Target, m: Method, imageRef: string, taggedRef: string, env: Env): Request
  {
    Request(t, m, Endpoint(c, env), if m == Api then Trim(env(TokenName(c))) else [], Trim(c.application),
            Trim(imageRef), Trim(taggedRef), Updates(c),
            if Updates(c) then Trim(c.registryURL) else [],
            if Updates(c) then Secret(c.registryUsernameEnv, env) else [],
            if Updates(c) then Secret(c.registryPasswordEnv, env) else [], TimeoutOf(c, lib))
  }

  // lookupDeploySecret: a variable named but empty is an error, not no secret.
  method LookupDeploySecret(name: string, env: Env) returns (r: Option<string>)
    ensures r.Some? <==> NamedIsSet(name, env)
    ensures r.Some? ==> r.value == Secret(name, env) && (r.value == [] <==> Blank(name))
  {
    if Blank(name) {
      return Some([]);
    }
    var value := Trim(env(Trim(name)));
    r := if value == [] then None else Some(value);
  }

  predicate AgreesOf(c: Config, lib: Library, t: Target, m: Method, env: Env)
  {
    forall e: Complaint :: DueOf(c, lib, t, m, e) ==> Tolerated(c, env, e)
  }

  // With target and method known, the validator's complaints are the field ones.
  lemma FieldComplaints(c: Config, lib: Library, env: Env)
    requires !Blank(c.target) && Understood(c)
    ensures Agrees(c, lib, env) <==> AgreesOf(c, lib, ParseTarget(c.target).value, MethodOf(c).value, env)
  {
    OnlyFieldsDue(c, lib);
    hide Due, DueOf, Tolerated;
  }

  // The rules of DueOf spelled out, as far as resolution shares them.
  predicate FieldsAgree(c: Config, lib: Library, t: Target, m: Method, env: Env)
  {
    && Supported(t, m)
    && !(Blank(c.endpoint) && Blank(c.endpointEnv))
    && (!Blank(c.endpoint) && !lib.usable(Trim(c.endpoint)) ==> EndpointFromEnv(c, env))
    && (m == Api ==> !Blank(c.application))
    && (Updates(c) ==> SupportsImageUpdate(t, m) && Blank(c.registryUsernameEnv) == Blank(c.registryPasswordEnv))
    && (!Blank(c.timeout) ==> lib.duration(Trim(c.timeout)).Some? && lib.duration(Trim(c.timeout)).value > 0)
  }

  lemma AgreesFieldByField(c: Config, lib: Library, t: Target, m: Method, env: Env)
    ensures AgreesOf(c, lib, t, m, env) <==> FieldsAgree(c, lib, t, m, env)
  {
    EachDue(c, lib, t, m);
    hide Trim, Blank, EndpointFromEnv, DueOf;
  }

  predicate BadDuration(c: Config, lib: Library)
  {
    !Blank(c.timeout) && (lib.duration(Trim(c.timeout)).None? || lib.duration(Trim(c.timeout)).value <= 0)
  }

  // What resolution answers once target and method are known: the first of its
  // checks that fails, or the request.
  function FieldsResolution(c: Config, lib: Library, t: Target, m: Method, imageRef: string, taggedRef: string, env: Env): Resolved
  {
    if Endpoint(c, env) == [] || !lib.usable(Endpoint(c, env)) then Err(InvalidRequest)
    else if m == Api && Blank(env(TokenName(c))) then Err(TokenMissing)
    else if m == Api && Blank(c.application) then Err(InvalidRequest)
    else if Updates(c) && (!SupportsImageUpdate(t, m) || Blank(imageRef)) then Err(InvalidRequest)
    else if Updates(c) && !(NamedIsSet(c.registryUsernameEnv, env) && NamedIsSet(c.registryPasswordEnv, env)) then
      Err(TokenMissing)
    else if Updates(c) && Blank(c.registryUsernameEnv) != Blank(c.registryPasswordEnv) then Err(InvalidRequest)
    else if BadDuration(c, lib) then Err(InvalidRequest)
    else Ok(Built(c, lib, t, m, imageRef, taggedRef, env))
  }

  function Resolution(c: Config, lib: Library, imageRef: string, taggedRef: string, env: Env): Resolved
  {
    if Blank(c.target) then Err(NotConfigured)
    else if ParseTarget(c.target).None? then Err(InvalidTarget)
    else if MethodOf(c).None? || !Supported(ParseTarget(c.target).value, MethodOf(c).value) then Err(InvalidMethod)
    else FieldsResolution(c, lib, ParseTarget(c.target).value, MethodOf(c).value, imageRef, taggedRef, env)
  }

  // Resolution past target and method.
  method ResolveFields(c: Config, lib: Library, t: Target, m: Method, imageRef: string, taggedRef: string, env: Env)
    returns (r: Resolved)
    ensures r == FieldsResolution(c, lib, t, m, imageRef, taggedRef, env)
  {
    hide Trim;
    var endpoint := Trim(c.endpoint);
    if !Blank(c.endpointEnv) {
      var fromEnv := Trim(env(Trim(c.endpointEnv)));
      if fromEnv != [] {
        endpoint := fromEnv;
      } else if endpoint == [] {
        return Err(InvalidRequest);
      }
    }
    if endpoint == [] || !lib.usable(endpoint) {
      return Err(InvalidRequest);
    }
    var token := [];
    if m == Api {
      token := Trim(env(TokenName(c)));
      if token == [] {
        return Err(TokenMissing);
      }
    }
    if m == Api && Blank(c.application) {
      return Err(InvalidRequest);
    }
    var updateImage := false;
    if c.updateImage.Some? {
      if c.updateImage.value && !SupportsImageUpdate(t, m) {
        return Err(InvalidRequest);
      }
      updateImage := c.updateImage.value;
    }
    if updateImage && Blank(imageRef) {
      return Err(InvalidRequest);
    }
    var registryURL, user, pass := [], [], [];
    if updateImage {
      registryURL := Trim(c.registryURL);
      var u := LookupDeploySecret(c.registryUsernameEnv, env);
      if u.None? {
        return Err(TokenMissing);
      }
      var p := LookupDeploySecret(c.registryPasswordEnv, env);
      if p.None? {
        return Err(TokenMissing);
      }
      user, pass := u.value, p.value;
      if (user == []) != (pass == []) {
        return Err(InvalidRequest);
      }
    }
    var timeout := DEFAULT_TIMEOUT;
    if !Blank(c.timeout) {
      var d := lib.duration(Trim(c.timeout));
      if d.None? || d.value <= 0 {
        return Err(InvalidRequest);
      }
      timeout := d.value;
    }
    r := Ok(Request(t, m, endpoint, token, Trim(c.application), Trim(imageRef), Trim(taggedRef), updateImage,
                    registryURL, user, pass, timeout));
  }

  // Resolution succeeds exactly when a target is set, every complaint the
  // validator has is one of the two it tolerates, and the environment is ready.
  lemma ResolvesIff(c: Config, lib: Library, imageRef: string, taggedRef: string, env: Env)
    ensures Resolution(c, lib, imageRef, taggedRef, env).Ok? <==>
              !Blank(c.target) && Agrees(c, lib, env) && Understood(c) && Ready(c, lib, MethodOf(c).value, imageRef, env)
  {
    hide FieldsResolution, Trim, Blank, ParseTarget, ParseMethod, Agrees, AgreesOf, Ready, Supported;
    if !Blank(c.target) && Understood(c) {
      var t, m := ParseTarget(c.target).value, MethodOf(c).value;
      FieldComplaints(c, lib, env);
      AgreesFieldByField(c, lib, t, m, env);
      if Supported(t, m) {
        FieldsResolveIff(c, lib, t, m, imageRef, taggedRef, env);
      }
    }
  }

  lemma FieldsResolveIff(c: Config, lib: Library, t: Target, m: Method, imageRef: string, taggedRef: string, env: Env)
    requires Supported(t, m)
    ensures FieldsResolution(c, lib, t, m, imageRef, taggedRef, env).Ok? <==>
              FieldsAgree(c, lib, t, m, env) && Ready(c, lib, m, imageRef, env)
  {
    hide NamedIsSet, TokenName, Trim, Blank, Endpoint, EndpointFromEnv, SupportsImageUpdate, Built;
    if Endpoint(c, env) != [] && lib.usable(Endpoint(c, env)) {
      EndpointHasASource(c, lib, env);
    }
  }

  // A usable endpoint comes from the environment or is usable as written.
  lemma EndpointHasASource(c: Config, lib: Library, env: Env)
    requires Endpoint(c, env) != [] && lib.usable(Endpoint(c, env))
    ensures !(Blank(c.endpoint) && Blank(c.endpointEnv))
    ensures !Blank(c.endpoint) && !lib.usable(Trim(c.endpoint)) ==> EndpointFromEnv(c, env)
  {
    hide Trim;
  }

  // What a request carries, field by field: each from its own place in the
  // configuration, the environment, or the published references.
  predicate Carries(q: Request, c: Config, lib: Library, imageRef: string, taggedRef: string, env: Env)
  {
    && q.imageRef == Trim(imageRef) && q.taggedRef == Trim(taggedRef) && q.application == Trim(c.application)
    && q.endpoint == (if EndpointFromEnv(c, env) then Trim(env(Trim(c.endpointEnv))) else Trim(c.endpoint))
    && (q.via.Api? ==> q.token == Trim(env(if Blank(c.tokenEnv) then DEFAULT_TOKEN_ENV else Trim(c.tokenEnv))))
    && (q.via.Webhook? ==> q.token == [])
    && q.updateImage == Updates(c)
    && (Updates(c) ==> q.registryURL == Trim(c.registryURL)
                       && FromVariable(q.registryUsername, c.registryUsernameEnv, env)
                       && FromVariable(q.registryPassword, c.registryPasswordEnv, env))
    && (!Updates(c) ==> q.registryURL == q.registryUsername == q.registryPassword == [])
    && (Blank(c.timeout) ==> q.timeout == 60_000_000_000)
    && (!Blank(c.timeout) && lib.duration(Trim(c.timeout)).Some? ==> q.timeout == lib.duration(Trim(c.timeout)).value)
    && LowerTrimmed(c.target) == (if q.target.Dokploy? then DOKPLOY else SWIFTWAVE)
    && (!Blank(c.via) ==> LowerTrimmed(c.via) == (if q.via.Api? then API else WEBHOOK))
    && (Blank(c.via) ==> q.via == if q.target.Dokploy? then Api else Webhook)
    && (q.target.Dokploy? ==> q.via.Api?) && (q.updateImage ==> q.target.Dokploy?)
  }

  // The value of the variable a setting names, when it names one.
  predicate FromVariable(value: string, name: string, env: Env)
  {
    value == if Blank(name) then [] else Trim(env(Trim(name)))
  }

  lemma BuiltCarries(c: Config, lib: Library, imageRef: string, taggedRef: string, env: Env)
    ensures Understood(c) && Supported(ParseTarget(c.target).value, MethodOf(c).value)
            && (Updates(c) ==> SupportsImageUpdate(ParseTarget(c.target).value, MethodOf(c).value)) ==>
              Carries(Built(c, lib, ParseTarget(c.target).value, MethodOf(c).value, imageRef, taggedRef, env),
                      c, lib, imageRef, taggedRef, env)
  {
    hide Trim, Blank, Lower;
  }

  // Each refusal has its own cause.
  method ResolveDeployRequest(c: Config, lib: Library, imageRef: string, taggedRef: string, env: Env) returns (r: Resolved)
    ensures r == Resolution(c, lib, imageRef, taggedRef, env)
    ensures r.Ok? <==> !Blank(c.target) && Agrees(c, lib, env)
                       && Understood(c) && Ready(c, lib, MethodOf(c).value, imageRef, env)
    ensures r.Ok? ==> r.request == Built(c, lib, ParseTarget(c.target).value, MethodOf(c).value, imageRef, taggedRef, env)
    ensures r.Ok? ==> Carries(r.request, c, lib, imageRef, taggedRef, env)
    ensures r == Err(NotConfigured) <==> Blank(c.target)
    ensures r == Err(InvalidTarget) <==> Due(c, lib, BadTarget)
    ensures r == Err(InvalidMethod) <==> Due(c, lib, BadMethod) || Due(c, lib, UnsupportedMethod)
  {
    hide Trim, Blank, ParseTarget, Agrees, Ready, FieldsResolution, ParseMethod, Built, Carries;
    BuiltCarries(c, lib, imageRef, taggedRef, env);
    ResolvesIff(c, lib, imageRef, taggedRef, env);
    if Blank(c.target) {
      return Err(NotConfigured);
    }
    var target := ParseTarget(c.target);
    if target.None? {
      assert Due(c, lib, BadTarget);
      return Err(InvalidTarget);
    }
    var via := DefaultMethod(target.value);
    if !Blank(c.via) {
      var parsed := ParseMethod(c.via);
      if parsed.None? {
        assert Due(c, lib, BadMethod);
        return Err(InvalidMethod);
      }
      via := parsed.value;
    }
    if !Supported(target.value, via) {
      assert Due(c, lib, UnsupportedMethod);
      return Err(InvalidMethod);
    }
    r := ResolveFields(c, lib, target.value, via, imageRef, taggedRef, env);
    FieldsErrors(c, lib, target.value, via, imageRef, taggedRef, env);
  }

  lemma FieldsErrors(c: Config, lib: Library, t: Target, m: Method, imageRef: string, taggedRef: string, env: Env)
    ensures var r := FieldsResolution(c, lib, t, m, imageRef, taggedRef, env);
            match r
            case Ok(q) => q == Built(c, lib, t, m, imageRef, taggedRef, env) && (Updates(c) ==> SupportsImageUpdate(t, m))
            case Err(e) => e == InvalidRequest || e == TokenMissing
  {
    hide NamedIsSet, TokenName, Trim, Blank, Endpoint, SupportsImageUpdate, Built, BadDuration;
  }

  // ---- The relation, from the configuration's side ---------------------------------------

  // What the platforms can do: Dokploy is deployed to over its API alone, Swiftwave
  // in both ways; and only Dokploy's API can be told which image to run.
  lemma WhatPlatformsSupport(c: Config, lib: Library)
    requires !Blank(c.target) && Understood(c)
    ensures var t, m := ParseTarget(c.target).value, MethodOf(c).value;
            && (Due(c, lib, UnsupportedMethod) <==> t == Dokploy && m == Webhook)
            && (Due(c, lib, NoImageUpdate) <==> c.updateImage == Some(true) && !(t == Dokploy && m == Api))
  {
    hide Blank, ParseTarget, MethodOf;
  }

  // Nothing is asked of a block left out; any field set without a target is
  // complained of. A target or method is one of two names, in any case and with any
  // space around it.
  lemma NamesUnderstood(c: Config, lib: Library)
    ensures Blank(c.target) ==>
              (Due(c, lib, FieldsWithoutTarget) <==> c != Config(c.target, [], [], [], [], [], None, None, [], [], [], []))
    ensures !Blank(c.target) ==> (Due(c, lib, BadTarget) <==> !Named(c.target, "dokploy", "swiftwave"))
    ensures !Blank(c.target) ==>
              (Due(c, lib, BadMethod) <==> Named(c.target, "dokploy", "swiftwave") && !Blank(c.via) && !Named(c.via, "api", "webhook"))
  {
    hide Trim, Blank, Lower;
  }

  predicate Named(s: string, a: string, b: string)
  {
    Lower(Trim(s)) == a || Lower(Trim(s)) == b
  }

  // A configuration the validator has nothing to say about resolves wherever the
  // environment is ready for it: what passes before the build is not refused
  // after the push.
  lemma CleanConfigResolves(c: Config, lib: Library, imageRef: string, taggedRef: string, env: Env)
    requires !Blank(c.target) && (forall e: Complaint :: !Due(c, lib, e))
    ensures Understood(c)
    ensures Resolution(c, lib, imageRef, taggedRef, env).Ok? <==> Ready(c, lib, MethodOf(c).value, imageRef, env)
  {
    hide Trim, Blank, ParseTarget, MethodOf, DueOf, Ready, Resolution;
    assert !Due(c, lib, BadTarget) && !Due(c, lib, BadMethod);
    ResolvesIff(c, lib, imageRef, taggedRef, env);
  }

  // And one that resolves draws at most two complaints: of a file endpoint the
  // environment's overrides, and of half a registry pair that is never used.
  lemma ResolvedComplaints(c: Config, lib: Library, imageRef: string, taggedRef: string, env: Env, e: Complaint)
    requires Resolution(c, lib, imageRef, taggedRef, env).Ok? && Due(c, lib, e)
    ensures (e == BadEndpoint && EndpointFromEnv(c, env)) || (e == HalfPair && c.updateImage != Some(true))
  {
    hide Due, Resolution, Ready, Understood;
    ResolvesIff(c, lib, imageRef, taggedRef, env);
  }

  // Both are drawn by configurations that resolve: a file endpoint that is no URL
  // under one from the environment, and a user name without a password.
  lemma BothTolerated(c: Config, lib: Library, imageRef: string, taggedRef: string, env: Env)
    requires ParseTarget(c.target) == Some(Swiftwave) && !Blank(c.target) && Blank(c.via) && Blank(c.timeout)
    requires c.updateImage != Some(true)
    requires !Blank(c.endpoint) && !lib.usable(Trim(c.endpoint))
    requires EndpointFromEnv(c, env) && lib.usable(Endpoint(c, env))
    requires !Blank(c.registryUsernameEnv) && Blank(c.registryPasswordEnv)
    ensures Due(c, lib, BadEndpoint) && Due(c, lib, HalfPair)
    ensures Resolution(c, lib, imageRef, taggedRef, env).Ok?
  {
    hide Trim, ParseTarget, Resolution;
    ResolvesIff(c, lib, imageRef, taggedRef, env);
    FieldComplaints(c, lib, env);
    AgreesFieldByField(c, lib, Swiftwave, Webhook, env);
    EachDue(c, lib, Swiftwave, Webhook);
  }
}
