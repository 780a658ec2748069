# Outreach control panel: send pipeline and message generator

This project models, in Dafny, the two orchestration routines of a small outreach control panel.

- **The outreach panel's send handler.** It picks the edited draft for the chosen channel. It refuses a missing lead or an empty draft. It then runs an awaited chain of gateway calls:
  - Email: `sendEmail → logOutreach → updateLeadStatus(name, 'Contacted') → refreshLeads`.
  - WhatsApp and Instagram DM: the same chain without `sendEmail`.

  The first call that throws ends the chain, because one catch-all handler catches everything. The `sendingChannel` flag is set before the chain starts and cleared in `finally`.
- **The personalized generator's handler.** It checks that business name, niche and pain point are filled in. It then posts those three fields and the tone to the generation endpoint. An ok, non-empty reply body becomes the shown message. A reply that is not ok, an empty body or a failed request leaves the message alone. The `isGenerating` flag is reset in `finally`.

Both handlers are classes whose methods change the component's state fields. Each class also keeps a trace of the external calls it makes: the gateway calls of the send handler, and the posted payloads of the generator. The gateways themselves are foreign code. Whether each gateway operation resolves or throws is an input (`GatewayOutcomes`), and so is the endpoint's reply (`Reply`). A failed call still appears in the trace, because it was attempted. The spreadsheet's lead statuses are a map from business name to status. Only a `updateLeadStatus` call that resolves changes that map.

Each state-changing method is proved against pure specification functions:
- `SendCalls`, `SendOutcome` and `ApplyCalls` for the send handler.
- `Generate` for the generator.

Lemmas then state what the source promises about those functions. The chain's abort rule is specified twice. `Performed` gives it as "the prefix of the plan up to the first failure". `CallsMade` gives it as an independent count. `StartedChainCalls` proves that the two agree.

Files:
- `wrappers.dfy`: the `Option` type.
- `outreach.dfy`: module `Outreach`, from `src/components/OutreachPanel.tsx`.
- `generator.dfy`: module `Generator`, from `src/components/ops/PersonalizedGenerator.tsx`.

Three facts about the code shape the model:
- The send handler has one catch-all handler, so its outcomes are `NoLead`, `NoContent`, `Sent` and `Failed(at)`, where `at` is the call that threw (how far the chain got).
- If `logOutreach` throws after a successful e-mail, the status update and the refresh do not run (src/components/OutreachPanel.tsx:52-61).
- The generation endpoint returns one text body, which becomes the message (src/components/ops/PersonalizedGenerator.tsx:47-54).

## Model

| member | source | states |
|---|---|---|
| `Outreach.Performed` | src/components/OutreachPanel.tsx:39-85 | The calls made when a chain is awaited step by step with one catch-all handler. They form a prefix of the planned chain, non-empty when the plan is non-empty. Every call before the last resolved. If the chain stopped early, its last call threw. |
| `Outreach.StartedChainCalls` | src/components/OutreachPanel.tsx:40-79 | A started chain makes exactly the first `CallsMade(channel, o)` planned calls. That is 1 to 4 for Email and 1 to 3 otherwise, stopping at the first gateway operation that throws. |
| `Outreach.ShownButtonHasContent` | src/components/OutreachPanel.tsx:94-125 | A channel's send button is rendered exactly when that channel's draft, as selected by the handler, is non-empty. |
| `Outreach.RefusedSendMakesNoCalls` | src/components/OutreachPanel.tsx:21-35 | No gateway call is made exactly when there is no selected lead or the channel's draft is empty. The outcome is `NoLead` for a missing lead, and `NoContent` for a present lead with an empty draft. |
| `Outreach.MessageFollowsChannel` | src/components/OutreachPanel.tsx:28-30 | Every message-carrying call sends `email` for Email, `whatsapp` for WhatsApp and `instagram` for Instagram DM. |
| `Outreach.CallsKeyedBySelectedLead` | src/components/OutreachPanel.tsx:44-75 | Every keyed call uses the selected lead's business name. The e-mail goes to the lead's address with subject "Let's talk automation for " + name. The log entry carries the channel used and the given timestamp. The status written is 'Contacted'. |
| `Outreach.ChainOrder` | src/components/OutreachPanel.tsx:40-76 | Calls come in the order dispatch, log, status update, refresh, and each kind occurs at most once. An e-mail is dispatched only on the Email channel, where it is always the first call. |
| `Outreach.EmailFailureAborts` | src/components/OutreachPanel.tsx:40-57 | If the e-mail dispatch throws, the trace is that one call and the outcome is `Failed(dispatch)`. Nothing is logged and the spreadsheet is unchanged. |
| `Outreach.EmailSuccessTrace` | src/components/OutreachPanel.tsx:40-63 | When every Email step resolves, the trace is exactly `[sendEmail, logOutreach('Email'), updateLeadStatus(name, 'Contacted'), refreshLeads]`. The outcome is `Sent`, and the lead's status becomes 'Contacted'. |
| `Outreach.NonEmailChain` | src/components/OutreachPanel.tsx:64-78 | On a non-Email channel the trace is the first 1, 2 or 3 calls of `[logOutreach(channel), updateLeadStatus(name, 'Contacted'), refreshLeads]`, stopping after the first call that throws. |
| `Outreach.StatusChangesOnlyAfterEarlierSteps` | src/components/OutreachPanel.tsx:52-75 | The spreadsheet changes (to name ↦ 'Contacted') if and only if the send was not refused, every earlier step resolved, and the status update resolved. Otherwise it is left as it was. |
| `Outreach.SentIffWholeChainResolved` | src/components/OutreachPanel.tsx:39-82 | The outcome is `Sent` if and only if every call of the chain resolved. A `Failed` outcome names the last call made, which is the one that threw. |
| `Outreach.OutreachPanel.constructor` | src/components/OutreachPanel.tsx:17-19 | The panel starts with no channel sending and no calls made. |
| `Outreach.OutreachPanel.Invoke` | src/components/OutreachPanel.tsx:37-85 | A gateway call can be issued only while `sendingChannel` names the channel being sent. It is appended to the trace. The spreadsheet changes only when a status update resolves. |
| `Outreach.OutreachPanel.HandleSend` | src/components/OutreachPanel.tsx:25-86 | The trace grows by `SendCalls` and the spreadsheet by `ApplyCalls`, and the result is `SendOutcome`. A refused send leaves `sendingChannel` untouched. Every started send ends with it cleared. |
| `Outreach.OutreachPanel.EmailChain` | src/components/OutreachPanel.tsx:40-63 | The Email branch of the try block makes the first `CallsMade` calls of the Email plan. It marks the lead contacted only after the dispatch, the log and the update have all resolved. |
| `Outreach.OutreachPanel.LoggedChain` | src/components/OutreachPanel.tsx:64-79 | The non-Email branch makes the first `CallsMade` calls of the log/update/refresh plan. It marks the lead contacted only after the log and the update have resolved. |
| `Generator.Generate` | src/components/ops/PersonalizedGenerator.tsx:21-62 | No request is made if and only if a required field is empty. The payload is exactly (business name, niche, pain point, tone) from the form. The result is `Incomplete` exactly when no request is made, and `Failed` exactly when a request was sent but its reply is not ok, empty or missing. Only an ok, non-empty reply is accepted, and it becomes the message verbatim. Every other path keeps the message. |
| `Generator.PersonalizedGenerator.constructor` | src/components/ops/PersonalizedGenerator.tsx:13-19 | Empty fields, tone 'Bold', an empty message, not generating, no requests. `Valid()` holds: the tone is one of the selector's options and no request has been posted. |
| `Generator.PersonalizedGenerator.SetBusinessName` | src/components/ops/PersonalizedGenerator.tsx:80 | The business-name field takes the typed value. |
| `Generator.PersonalizedGenerator.SetNiche` | src/components/ops/PersonalizedGenerator.tsx:93 | The niche field takes the typed value. |
| `Generator.PersonalizedGenerator.SetPainPoint` | src/components/ops/PersonalizedGenerator.tsx:106 | The pain-point field takes the typed value. |
| `Generator.PersonalizedGenerator.SetToneStyle` | src/components/ops/PersonalizedGenerator.tsx:115-124 | The tone takes one of the four options (Bold, Chill, Friendly, Consultant), and the invariant `Valid()` is kept. |
| `Generator.PersonalizedGenerator.EditMessage` | src/components/ops/PersonalizedGenerator.tsx:149-153 | The message takes the operator's edit. |
| `Generator.PersonalizedGenerator.Post` | src/components/ops/PersonalizedGenerator.tsx:27-40 | The request can be posted only while `isGenerating` is true. It is appended to the request trace, and every posted tone is one of the selector's options. |
| `Generator.PersonalizedGenerator.HandleGenerate` | src/components/ops/PersonalizedGenerator.tsx:21-62 | The request trace grows by `Generate`'s request, and the message and result are `Generate`'s. An incomplete form leaves `isGenerating` untouched. Every sent request ends with it false. `Valid()` is kept, so every posted tone is one the selector offers. |

## Left out

- Toasts, `console.log`/`console.error` and the clipboard copy: user-interface output with no state of its own.
- The `fetch` transport, the endpoint URL, the headers and JSON serialisation: network I/O. Only the status flag and the body text of the reply are modelled. A request that never gets a response is `Reply.Unreachable`.
- A failure of `response.text()` is not modelled separately. It would go to the same catch-all handler as an unreachable endpoint.
- The bodies of `sendEmail`, `logOutreach`, `updateLeadStatus` and `refreshLeads` are not part of this model: they live in `services/webhooks`, `services/googleSheets` and `context/LeadContext`. Each is a recorded call with an input outcome.
- `refreshLeads` does not change the modelled state. Snapshot replacement and what refresh does to the selected lead belong to the lead store, which is not part of this model.
- `new Date().toISOString()` is clock access. The timestamp is the `now` parameter of `HandleSend`.
- Outreach.OutreachPanel.Invoke: assumes that a status update which throws leaves the spreadsheet unchanged. The real gateway might fail after writing.
- Concurrency: interleavings of several sends, or of a send with a refresh, across the awaits are not modelled; each handler invocation is one sequential run. The send buttons' `disabled` guard is per channel while `sendingChannel` is shared: a send on a second channel overwrites the flag and re-enables the first channel's button while its calls are still in flight, and the first send's `finally` clears the flag while the second is still running. None of this overlap is captured. The generator's button is disabled while `isGenerating` is true, which is likewise not modelled.
- The render guard that returns nothing when there are no drafts or no selected lead (src/components/OutreachPanel.tsx:21-23) is covered only through the handler's own check. The drafts are always present in the model.
