/**
 Properties of the voicemail-to-email dispatcher: how each argument of the
 send request is chosen, when the function fails or raises, and an
 independent declarative description of the whole behaviour that the
 dispatcher is proved to match exactly.
 */
module SesEmailProperties {
  import opened Python
  import opened SesEmail

  /** The single request a call issued, when it issued one. */
  function SentRequest(o: Outcome): Option<SendRequest>
  {
    if o.Returned? && |o.attempts| == 1 then Some(o.attempts[0]) else None
  }

  // ---------------------------------------------------------------------------
  // Sender address
  // ---------------------------------------------------------------------------

  /** A truthy `email_from` attribute is used verbatim as the sender whenever
      the call reaches the service. */
  lemma SenderOverrideUsed(p: Payload, cfg: Config, sendOk: bool)
    requires FromKey in p.attributes && Truthy(p.attributes[FromKey])
    requires TemplateBound(p.attributes)
    ensures SentRequest(Dispatch(p, cfg, sendOk)).Some?
    ensures SentRequest(Dispatch(p, cfg, sendOk)).value.from == p.attributes[FromKey]
  {
  }

  /** Without an `email_from` key the sender is the configured default. */
  lemma SenderDefaultWhenAbsent(p: Payload, cfg: Config, sendOk: bool)
    requires FromKey !in p.attributes
    ensures SentRequest(Dispatch(p, cfg, sendOk)).Some? ==>
      SentRequest(Dispatch(p, cfg, sendOk)).value.from == Str(cfg.defaultFrom)
  {
  }

  /** A falsy `email_from` leaves the sender unbound: reading it inside the
      `try` raises, nothing is sent and the result is `'fail'`, whatever the
      service would have answered. */
  lemma FalsySenderFails(p: Payload, cfg: Config, sendOk: bool)
    requires FromKey in p.attributes && !Truthy(p.attributes[FromKey])
    requires !TemplateRaises(p.attributes)
    ensures Dispatch(p, cfg, sendOk) == Returned(Fail, [])
  {
  }

  // ---------------------------------------------------------------------------
  // Recipient address
  // ---------------------------------------------------------------------------

  /** The recipient is `entity_email` exactly when that is present and contains
      `@`; in every other case it is the default target. */
  lemma RecipientChoice(p: Payload, cfg: Config, sendOk: bool)
    ensures SentRequest(Dispatch(p, cfg, sendOk)).Some? ==>
      var to := SentRequest(Dispatch(p, cfg, sendOk)).value.to;
      if p.entityEmail.Some? && '@' in p.entityEmail.value
      then to == p.entityEmail.value
      else to == cfg.defaultTarget
  {
    if p.entityEmail.Some? {
      InStrSingleChar('@', p.entityEmail.value);
    }
  }

  /** The default target is never `@`-checked: it is used as it is even when it
      contains no `@`. */
  lemma DefaultTargetUnchecked(entityEmail: Option<string>, cfg: Config)
    requires '@' !in cfg.defaultTarget
    requires entityEmail.None? || '@' !in entityEmail.value
    ensures TargetAddress(entityEmail, cfg) == cfg.defaultTarget
    ensures !HasAtSign(TargetAddress(entityEmail, cfg))
  {
    InStrSingleChar('@', cfg.defaultTarget);
    if entityEmail.Some? {
      InStrSingleChar('@', entityEmail.value);
    }
  }

  /** When the configured default contains `@`, every request sent has a
      recipient containing `@`. */
  lemma RecipientAlwaysHasAtSign(p: Payload, cfg: Config, sendOk: bool)
    requires '@' in cfg.defaultTarget
    ensures SentRequest(Dispatch(p, cfg, sendOk)).Some? ==>
      '@' in SentRequest(Dispatch(p, cfg, sendOk)).value.to
  {
    InStrSingleChar('@', cfg.defaultTarget);
    var to := TargetAddress(p.entityEmail, cfg);
    InStrSingleChar('@', to);
  }

  /** `entity_email`, missing or present, never decides whether the call
      raises, whether it sends, or what it returns: a missing field is
      recovered locally. */
  lemma RecipientNeverCausesFailure(p: Payload, e1: Option<string>, e2: Option<string>, cfg: Config, sendOk: bool)
    ensures Dispatch(p.(entityEmail := e1), cfg, sendOk).Raised? == Dispatch(p.(entityEmail := e2), cfg, sendOk).Raised?
    ensures Dispatch(p.(entityEmail := e1), cfg, sendOk).Returned? ==>
      && Dispatch(p.(entityEmail := e1), cfg, sendOk).status == Dispatch(p.(entityEmail := e2), cfg, sendOk).status
      && |Dispatch(p.(entityEmail := e1), cfg, sendOk).attempts| == |Dispatch(p.(entityEmail := e2), cfg, sendOk).attempts|
  {
  }

  // ---------------------------------------------------------------------------
  // Template name
  // ---------------------------------------------------------------------------

  /** Without the `vmx3_email_template` key the template is chosen by entity
      type alone: the agent default for exactly `agent`, the queue default for
      anything else; an `email_template` attribute on its own is ignored. */
  lemma TemplateByEntityType(p: Payload, cfg: Config, sendOk: bool)
    requires OverrideKey !in p.attributes
    ensures !Dispatch(p, cfg, sendOk).Raised?
    ensures SentRequest(Dispatch(p, cfg, sendOk)).Some? ==>
      SentRequest(Dispatch(p, cfg, sendOk)).value.template ==
        Str(if p.entityType == "agent" then cfg.agentTemplate else cfg.queueTemplate)
  {
  }

  /** The same payload with any `email_template` attribute added still uses the
      entity-type default when `vmx3_email_template` is absent. */
  lemma LoneTemplateKeyIgnored(p: Payload, v: Value, cfg: Config, sendOk: bool)
    requires OverrideKey !in p.attributes
    ensures
      var q := p.(attributes := p.attributes[TemplateKey := v]);
      SentRequest(Dispatch(q, cfg, sendOk)).Some? <==> SentRequest(Dispatch(p, cfg, sendOk)).Some?
    ensures
      var q := p.(attributes := p.attributes[TemplateKey := v]);
      SentRequest(Dispatch(q, cfg, sendOk)).Some? ==>
        SentRequest(Dispatch(q, cfg, sendOk)).value.template == SentRequest(Dispatch(p, cfg, sendOk)).value.template
  {
  }

  /** With the `vmx3_email_template` key present, a truthy `email_template`
      value is the template used. */
  lemma TemplateOverrideUsed(p: Payload, cfg: Config, sendOk: bool)
    requires OverrideKey in p.attributes
    requires TemplateKey in p.attributes && Truthy(p.attributes[TemplateKey])
    requires FromBound(p.attributes)
    ensures SentRequest(Dispatch(p, cfg, sendOk)).Some?
    ensures SentRequest(Dispatch(p, cfg, sendOk)).value.template == p.attributes[TemplateKey]
  {
  }

  /** With the `vmx3_email_template` key present and `email_template` absent,
      the read outside the `try` raises a `KeyError` that escapes the function. */
  lemma TemplateKeyErrorEscapes(p: Payload, cfg: Config, sendOk: bool)
    requires OverrideKey in p.attributes && TemplateKey !in p.attributes
    ensures Dispatch(p, cfg, sendOk) == Raised(KeyError("email_template"))
  {
  }

  /** With the `vmx3_email_template` key present and a falsy `email_template`,
      the template is unbound: nothing is sent and the result is `'fail'`. */
  lemma FalsyTemplateFails(p: Payload, cfg: Config, sendOk: bool)
    requires OverrideKey in p.attributes
    requires TemplateKey in p.attributes && !Truthy(p.attributes[TemplateKey])
    ensures Dispatch(p, cfg, sendOk) == Returned(Fail, [])
  {
  }

  // ---------------------------------------------------------------------------
  // The single send and the status
  // ---------------------------------------------------------------------------

  /** `'success'` is returned exactly when no exception escapes, both the sender
      and the template are bound, and the one service call returns. */
  lemma SuccessExactly(p: Payload, cfg: Config, sendOk: bool)
    ensures Dispatch(p, cfg, sendOk).Returned? && Dispatch(p, cfg, sendOk).status == Success
      <==> !TemplateRaises(p.attributes) && FromBound(p.attributes) && TemplateBound(p.attributes) && sendOk
  {
  }

  /** The string returned to the caller is `'success'` exactly when no
      exception escapes, both names are bound and the service call returns;
      every other returning call gives `'fail'`. */
  lemma ReturnedString(p: Payload, cfg: Config, sendOk: bool)
    requires !TemplateRaises(p.attributes)
    ensures StatusString(Dispatch(p, cfg, sendOk).status) == "success"
      <==> FromBound(p.attributes) && TemplateBound(p.attributes) && sendOk
    ensures StatusString(Dispatch(p, cfg, sendOk).status) != "success" ==>
      StatusString(Dispatch(p, cfg, sendOk).status) == "fail"
  {
  }

  /** A call that returns issues at most one request and no retry: with the
      service failing, the same single request is issued and `'fail'` returned;
      with it succeeding, `'success'`. */
  lemma SingleAttemptNoRetry(p: Payload, cfg: Config)
    requires !TemplateRaises(p.attributes)
    ensures Dispatch(p, cfg, false).attempts == Dispatch(p, cfg, true).attempts
    ensures |Dispatch(p, cfg, false).attempts| <= 1
    ensures Dispatch(p, cfg, false).status == Fail
  {
  }

  /** The template data is the attribute map itself, unmodified. */
  lemma TemplateDataIsAttributes(p: Payload, cfg: Config, sendOk: bool)
    ensures SentRequest(Dispatch(p, cfg, sendOk)).Some? ==>
      SentRequest(Dispatch(p, cfg, sendOk)).value.data == p.attributes
  {
  }

  // ---------------------------------------------------------------------------
  // An independent description of the whole behaviour
  // ---------------------------------------------------------------------------

  /** The request the source's branches describe, written with character
      membership for the `@` test. Only meaningful when both names are bound. */
  ghost predicate IntendedRequest(p: Payload, cfg: Config, req: SendRequest)
  {
    var attrs := p.attributes;
    && req.from == (if FromKey in attrs then attrs[FromKey] else Str(cfg.defaultFrom))
    && req.to == (match p.entityEmail
                  case Some(e) => if '@' in e then e else cfg.defaultTarget
                  case None => cfg.defaultTarget)
    && (OverrideKey in attrs ==> TemplateKey in attrs && req.template == attrs[TemplateKey])
    && (OverrideKey !in attrs ==>
          req.template == Str(if p.entityType == "agent" then cfg.agentTemplate else cfg.queueTemplate))
    && req.data == attrs
  }

  /** What a call with the given payload, configuration and service answer may
      end in. */
  ghost predicate Describes(p: Payload, cfg: Config, sendOk: bool, o: Outcome)
  {
    var attrs := p.attributes;
    if OverrideKey in attrs && TemplateKey !in attrs then
      o == Raised(KeyError("email_template"))
    else if (FromKey in attrs && !Truthy(attrs[FromKey]))
         || (OverrideKey in attrs && !Truthy(attrs[TemplateKey])) then
      o == Returned(Fail, [])
    else
      && o.Returned?
      && |o.attempts| == 1
      && IntendedRequest(p, cfg, o.attempts[0])
      && (o.status == Success <==> sendOk)
  }

  /** The dispatcher ends in exactly the outcome the description allows. */
  lemma DispatchMatchesDescription(p: Payload, cfg: Config, sendOk: bool, o: Outcome)
    ensures Describes(p, cfg, sendOk, o) <==> o == Dispatch(p, cfg, sendOk)
  {
    if p.entityEmail.Some? {
      InStrSingleChar('@', p.entityEmail.value);
    }
    var d := Dispatch(p, cfg, sendOk);
    if Describes(p, cfg, sendOk, o) && d.Returned? && |d.attempts| == 1 {
      assert o.Returned? && |o.attempts| == 1;
      assert o.attempts[0] == d.attempts[0];
      assert o.attempts == d.attempts;
    }
  }

  // ---------------------------------------------------------------------------
  // Worked scenarios
  // ---------------------------------------------------------------------------

  /** An agent with a valid address and no attributes: default sender, that
      address, the agent template; `'success'` when the service accepts. */
  lemma ScenarioAgentWithAddress(cfg: Config)
    ensures Dispatch(Payload("agent", Some("a@b.com"), map[]), cfg, true) ==
      Returned(Success, [SendRequest(Str(cfg.defaultFrom), "a@b.com", Str(cfg.agentTemplate), map[])])
  {
  }

  /** A queue without an address: the default target and the queue template. */
  lemma ScenarioQueueWithoutAddress(cfg: Config, sendOk: bool)
    ensures SentRequest(Dispatch(Payload("queue", None, map[]), cfg, sendOk)) ==
      Some(SendRequest(Str(cfg.defaultFrom), cfg.defaultTarget, Str(cfg.queueTemplate), map[]))
  {
  }

  /** An address without `@` falls back to the default target, whatever the
      entity type. */
  lemma ScenarioMalformedAddress(entityType: string, cfg: Config, sendOk: bool)
    ensures SentRequest(Dispatch(Payload(entityType, Some("not-an-email"), map[]), cfg, sendOk)).value.to ==
      cfg.defaultTarget
  {
    InStrSingleChar('@', "not-an-email");
  }

  /** A service error turns into `'fail'`; no exception escapes. */
  lemma ScenarioServiceError(entityType: string, entityEmail: Option<string>, cfg: Config)
    ensures Dispatch(Payload(entityType, entityEmail, map[]), cfg, false).Returned?
    ensures Dispatch(Payload(entityType, entityEmail, map[]), cfg, false).status == Fail
  {
  }
}
