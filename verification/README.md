# Voicemail-to-email dispatcher, modelled in Dafny

This project models `vmx3_to_ses_email` from Voicemail Express for Amazon
Connect (`Code/Core/sub_ses_email.py`). The function receives one voicemail
event payload (`entity_type`, an optional `entity_email`, and the
`json_attributes` map). It chooses a sender address, a recipient address and an
email template, serialises the attributes as template data, and makes a single
`send_email` call to Amazon SES (the `sesv2` client). It returns `'success'`
when that call returns and `'fail'` when anything inside the `try` raises.

The model is purely functional:

- `python.dfy` (module `Python`) holds the parts of Python the function relies
  on. These are JSON-shaped attribute values, their truthiness, dictionary
  subscripting with its `KeyError`, and the `in` operator on strings. That
  operator is modelled as substring search and proved to match an explicit
  occurrence index.
- `ses_email.dfy` (module `SesEmail`) holds the payload and configuration
  records. It has one function per resolution step and `Dispatch`, which gives
  the whole call's `Outcome`: either `Returned(status, attempts)`, listing the
  send requests issued, or `Raised(error)`.
- `ses_email_properties.dfy` (module `SesEmailProperties`) holds the properties
  of each step. It also has `Describes`, a declarative description of the whole
  behaviour written independently of the resolution functions.
  `DispatchMatchesDescription` proves that `Dispatch` produces exactly the
  outcome `Describes` allows.

Three modelling choices:

- A local name that no branch assigns is an `Option` whose `None` means
  "unbound".
- The four environment defaults form the `Config` record.
- The SES service is the input oracle `sendOk`: it says whether the one
  `send_email` call returns normally.

The model follows the code as written, quirks included:

- The override test checks key `vmx3_email_template` but reads key
  `email_template`. When the first key is present and the second is missing,
  the read raises a `KeyError`. That read is outside any `try`, so the error
  escapes the function.
- A falsy `email_from` leaves the sender unbound. A falsy `email_template`
  under the override key leaves the template unbound. Either name is first
  read inside the `try`, so the call returns `'fail'` without contacting SES.
- A falsy `email_from` does not fall back to the default sender.
- The `KeyError` from line 58 is not caught, so not every failure is turned
  into `'fail'`.

## Model

| member | source | states |
|---|---|---|
| Python.InStr | Code/Core/sub_ses_email.py:49 | Python's `needle in haystack` on strings holds iff the needle occurs at some index of the haystack; the empty needle occurs everywhere |
| Python.InStrSingleChar | Code/Core/sub_ses_email.py:49 | `'@' in s` holds iff some character of `s` is `@` |
| SesEmail.SenderAddress | Code/Core/sub_ses_email.py:35-40 | the sender is bound iff `email_from` is absent or truthy; when bound from the attribute it is that value verbatim; when the key is absent it is the configured default |
| SesEmail.TargetAddress | Code/Core/sub_ses_email.py:42-53 | the recipient is the default target or an `entity_email` that contains `@`; an `entity_email` containing `@` is always used |
| SesEmail.TemplateName | Code/Core/sub_ses_email.py:57-66 | raises `KeyError('email_template')` iff `vmx3_email_template` is present and `email_template` absent; the template is bound iff there is no override or `email_template` is truthy; without the override key it is the entity-type default |
| SesEmail.Dispatch | Code/Core/sub_ses_email.py:30-94 | an exception escapes iff the template read raises; a returning call issues at most one request, exactly one iff both sender and template are bound; `'success'` iff that request was issued and the service returned; the request carries the resolved sender, recipient and template and the unmodified attributes |
| SesEmailProperties.SenderOverrideUsed | Code/Core/sub_ses_email.py:36-74 | a truthy `email_from` is sent verbatim as `FromEmailAddress` whenever the template is bound |
| SesEmailProperties.SenderDefaultWhenAbsent | Code/Core/sub_ses_email.py:39-40 | with no `email_from` key any request sent uses the configured default sender |
| SesEmailProperties.FalsySenderFails | Code/Core/sub_ses_email.py:36-94 | a falsy `email_from` means nothing is sent and `'fail'` is returned, whatever the service would answer, unless the template read raises its `KeyError` first |
| SesEmailProperties.RecipientChoice | Code/Core/sub_ses_email.py:43-53 | the recipient is `entity_email` iff it is present and contains `@`, and the default target otherwise |
| SesEmailProperties.DefaultTargetUnchecked | Code/Core/sub_ses_email.py:46-53 | the default target is used even when it has no `@`; it is never validated |
| SesEmailProperties.RecipientAlwaysHasAtSign | Code/Core/sub_ses_email.py:49-53 | when the default target contains `@`, every request sent has a recipient containing `@` |
| SesEmailProperties.RecipientNeverCausesFailure | Code/Core/sub_ses_email.py:43-47 | whether `entity_email` is missing or present, and whatever its value, it changes neither raising, nor the number of requests, nor the status |
| SesEmailProperties.TemplateByEntityType | Code/Core/sub_ses_email.py:57-66 | without `vmx3_email_template` nothing escapes, and the template is the agent default for `agent` and the queue default otherwise |
| SesEmailProperties.LoneTemplateKeyIgnored | Code/Core/sub_ses_email.py:57-66 | adding any `email_template` attribute without `vmx3_email_template` changes neither whether a request is sent nor its template |
| SesEmailProperties.TemplateOverrideUsed | Code/Core/sub_ses_email.py:57-82 | with the override key present and a truthy `email_template`, that value is the template sent |
| SesEmailProperties.TemplateKeyErrorEscapes | Code/Core/sub_ses_email.py:57-58 | with the override key present and `email_template` absent, `KeyError('email_template')` escapes the function |
| SesEmailProperties.FalsyTemplateFails | Code/Core/sub_ses_email.py:57-94 | with the override key present and a falsy `email_template`, nothing is sent and `'fail'` is returned |
| SesEmailProperties.SuccessExactly | Code/Core/sub_ses_email.py:71-94 | `'success'` is returned iff nothing escapes, sender and template are bound, and the service call returns |
| SesEmailProperties.ReturnedString | Code/Core/sub_ses_email.py:71-94 | when no `KeyError` escapes, the returned string is `'success'` iff sender and template are bound and the service call returns, and `'fail'` otherwise |
| SesEmailProperties.SingleAttemptNoRetry | Code/Core/sub_ses_email.py:71-94 | a failing service sees the same single request as a succeeding one; there is no retry and the result is `'fail'` |
| SesEmailProperties.TemplateDataIsAttributes | Code/Core/sub_ses_email.py:68-83 | the template data of any request sent is the attribute map, unmodified |
| SesEmailProperties.DispatchMatchesDescription | Code/Core/sub_ses_email.py:30-94 | an outcome satisfies the declarative description of the function iff it is the one `Dispatch` produces |
| SesEmailProperties.ScenarioAgentWithAddress | Code/Core/sub_ses_email.py:36-88 | an agent payload with `a@b.com` and no attributes sends from the default to `a@b.com` with the agent template and succeeds |
| SesEmailProperties.ScenarioQueueWithoutAddress | Code/Core/sub_ses_email.py:43-66 | a queue payload without `entity_email` sends to the default target with the queue template |
| SesEmailProperties.ScenarioMalformedAddress | Code/Core/sub_ses_email.py:49-53 | an address without `@` is replaced by the default target for every entity type |
| SesEmailProperties.ScenarioServiceError | Code/Core/sub_ses_email.py:90-94 | a service error yields `'fail'` and no exception escapes |

## Left out

- Client construction, including the unused `connect_client` (lines 27-28): the model has no service clients.
- The real behaviour of SES `send_email`, which cannot be seen here. This includes rejecting a non-string sender or template value. The call is the oracle `sendOk`, so its failures of any kind are covered.
- Logging setup and every log call (lines 25-26, 32-33, 50, 55, 91-92): these are side effects only. The status the function returns is unaffected.
- Reading `os.environ`: the four defaults are the `Config` record. A missing variable is deployment configuration.
- The JSON text produced by `json.dumps` (line 68): the template data is the attribute map itself. Its formatting belongs to the JSON library.
- A payload without `json_attributes`, an `entity_email` that is present but `None`, and attribute values JSON cannot serialise: the input types exclude them. Each raises outside the `try` (lines 36, 49 and 68).
- A payload without `entity_type`: the `Payload` record requires the field, so the model leaves out payloads the source handles. Line 62 reads the field only when `vmx3_email_template` is absent. Only then does a missing field raise a `KeyError` that escapes. With `vmx3_email_template` present, such a payload goes on to the send or to `'fail'` as usual.
- Idempotence: `Dispatch` is a pure function of the payload, the configuration and the service answer. Two calls with equal inputs therefore give equal outcomes, and no lemma states this.
