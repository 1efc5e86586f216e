/**
 The voicemail-to-email dispatcher `vmx3_to_ses_email`
 (Code/Core/sub_ses_email.py). One voicemail event payload is turned into at
 most one templated-email send request; the function returns `'success'` or
 `'fail'`, or lets a `KeyError` escape.

 Each local name of the source that a branch may leave unassigned is modelled
 as an `Option`: `None` is a name that was never bound. The email service is an
 oracle: `sendOk` says whether the single `send_email` call returns normally.
 */
module SesEmail {
  import opened Python

  /** Attribute keys the dispatcher inspects. The presence test for the
      template override and the read of its value use different keys. */
  const FromKey: string := "email_from"
  const OverrideKey: string := "vmx3_email_template"
  const TemplateKey: string := "email_template"
  const AgentType: string := "agent"
  const AtSign: string := "@"

  /** The four defaults read from the environment. */
  datatype Config = Config(
    defaultFrom: string,
    defaultTarget: string,
    agentTemplate: string,
    queueTemplate: string)

  /** The event payload: `entity_type`, an optional `entity_email` and the
      `json_attributes` map. */
  datatype Payload = Payload(
    entityType: string,
    entityEmail: Option<string>,
    attributes: Attributes)

  /** The arguments of the `send_email` call. The template data is the whole
      attribute map, standing for its JSON serialisation. */
  datatype SendRequest = SendRequest(
    from: Value,
    to: string,
    template: Value,
    data: Attributes)

  /** The two strings the function returns. */
  datatype Status = Success | Fail

  /** How a call ends: it returns a status after issuing the listed send
      requests, or an exception escapes. */
  datatype Outcome =
    | Returned(status: Status, attempts: seq<SendRequest>)
    | Raised(error: Exception)

  /** The sender address is bound unless `email_from` is present with a falsy
      value, in which case no branch assigns it. */
  predicate FromBound(attrs: Attributes)
  {
    FromKey in attrs ==> Truthy(attrs[FromKey])
  }

  /** The template-override branch raises when the key it tests is present but
      the key it reads is not. */
  predicate TemplateRaises(attrs: Attributes)
  {
    OverrideKey in attrs && TemplateKey !in attrs
  }

  /** The template name is bound unless the override branch is taken and the
      value it reads is falsy. */
  predicate TemplateBound(attrs: Attributes)
  {
    OverrideKey in attrs ==> TemplateKey in attrs && Truthy(attrs[TemplateKey])
  }

  /** The candidate recipient passes the `'@'` test. */
  predicate HasAtSign(address: string)
  {
    InStr(AtSign, address)
  }

  /** The value of the local sender address after the sender-selection branch;
      `None` when it is left unbound. */
  function SenderAddress(attrs: Attributes, cfg: Config): (r: Option<Value>)
    ensures r.Some? <==> FromBound(attrs)
    ensures FromKey in attrs && r.Some? ==> r.value == attrs[FromKey]
    ensures FromKey !in attrs ==> r == Some(Str(cfg.defaultFrom))
  {
    if FromKey in attrs then
      if Truthy(attrs[FromKey]) then Some(attrs[FromKey]) else None
    else
      Some(Str(cfg.defaultFrom))
  }

  /** The recipient: `entity_email` when it is present and contains `@`,
      otherwise the configured default target. A missing `entity_email` is
      caught locally and falls back to the default. */
  function TargetAddress(entityEmail: Option<string>, cfg: Config): (r: string)
    ensures r == cfg.defaultTarget || (entityEmail == Some(r) && HasAtSign(r))
    ensures entityEmail.Some? && HasAtSign(entityEmail.value) ==> r == entityEmail.value
  {
    var candidate := match entityEmail
      case Some(e) => e
      case None => cfg.defaultTarget;
    if HasAtSign(candidate) then candidate else cfg.defaultTarget
  }

  /** The default template chosen by entity type: exact match on `agent`. */
  function DefaultTemplate(entityType: string, cfg: Config): string
  {
    if entityType == AgentType then cfg.agentTemplate else cfg.queueTemplate
  }

  /** The value of the local template name after the template-selection branch:
      a `KeyError` escapes, or the name is bound (`Some`) or left unbound
      (`None`). */
  function TemplateName(attrs: Attributes, entityType: string, cfg: Config): (r: Result<Option<Value>>)
    ensures r.Raise? <==> TemplateRaises(attrs)
    ensures r.Raise? ==> r.error == KeyError(TemplateKey)
    ensures r.Ok? ==> (r.value.Some? <==> TemplateBound(attrs))
    ensures OverrideKey !in attrs ==> r == Ok(Some(Str(DefaultTemplate(entityType, cfg))))
    ensures OverrideKey in attrs && r.Ok? && r.value.Some? ==> r.value.value == attrs[TemplateKey]
  {
    if OverrideKey in attrs then
      match Subscript(attrs, TemplateKey)
      case Raise(e) => Raise(e)
      case Ok(v) => Ok(if Truthy(v) then Some(v) else None)
    else
      Ok(Some(Str(DefaultTemplate(entityType, cfg))))
  }

  /** The whole function. The template branch runs outside the `try`, so its
      `KeyError` escapes. Inside the `try`, reading an unbound sender address or
      template name raises before the service is called; that exception, like
      one raised by the service itself, turns into `Fail`. */
  function Dispatch(p: Payload, cfg: Config, sendOk: bool): (o: Outcome)
    ensures o.Raised? <==> TemplateRaises(p.attributes)
    ensures o.Raised? ==> o.error == KeyError(TemplateKey)
    ensures o.Returned? ==> |o.attempts| <= 1
    ensures o.Returned? ==>
      (|o.attempts| == 1 <==> FromBound(p.attributes) && TemplateBound(p.attributes))
    ensures o.Returned? ==> (o.status == Success <==> |o.attempts| == 1 && sendOk)
    ensures o.Returned? && |o.attempts| == 1 ==>
      var req := o.attempts[0];
      && req.data == p.attributes
      && req.to == TargetAddress(p.entityEmail, cfg)
      && Some(req.from) == SenderAddress(p.attributes, cfg)
      && Ok(Some(req.template)) == TemplateName(p.attributes, p.entityType, cfg)
  {
    var from := SenderAddress(p.attributes, cfg);
    var to := TargetAddress(p.entityEmail, cfg);
    match TemplateName(p.attributes, p.entityType, cfg)
    case Raise(e) => Raised(e)
    case Ok(template) =>
      if from.None? || template.None? then
        Returned(Fail, [])
      else
        var req := SendRequest(from.value, to, template.value, p.attributes);
        Returned(if sendOk then Success else Fail, [req])
  }

  /** The string the caller receives when the function returns. */
  function StatusString(s: Status): string
  {
    match s
    case Success => "success"
    case Fail => "fail"
  }
}
