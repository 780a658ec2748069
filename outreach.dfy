/**
 * The send pipeline of the outreach panel.
 *
 * Sending on a channel picks that channel's edited draft, refuses a missing lead
 * or an empty draft, and then runs a chain of gateway calls:
 *   Email:              sendEmail -> logOutreach -> updateLeadStatus -> refreshLeads
 *   WhatsApp/Instagram: logOutreach -> updateLeadStatus -> refreshLeads
 * Every call is awaited in turn and the first one that fails ends the chain
 * (one catch-all handler); the "sending" flag is cleared on every path that set it.
 *
 * The gateways are foreign code: each call is recorded in a trace and its success
 * or failure is an input (GatewayOutcomes). The spreadsheet's lead statuses are a
 * map from business name to status, changed only by a successful updateLeadStatus.
 */
module Outreach {
  import opened Wrappers

  /** The closed set of channels ('Email', 'WhatsApp', 'Instagram DM'). */
  datatype Channel = Email | WhatsApp | InstagramDM

  /** The drafts the panel receives, one per channel. */
  datatype EditedMessages = EditedMessages(email: string, whatsapp: string, instagram: string)

  /** The selected lead as far as the pipeline reads it: its key and its optional address. */
  datatype Lead = Lead(businessName: string, email: Option<string>)

  const Contacted: string := "Contacted"
  const SubjectPrefix: string := "Let's talk automation for "

  /** A gateway call with the arguments it was made with. */
  datatype Call =
    | SendEmail(businessName: string, email: Option<string>, subject: string, message: string)
    | LogOutreach(businessName: string, channel: Channel, message: string, timestamp: string)
    | UpdateLeadStatus(businessName: string, status: string)
    | RefreshLeads

  /** Whether each gateway operation resolves (true) or throws (false) in this invocation. */
  datatype GatewayOutcomes = GatewayOutcomes(emailSent: bool, logged: bool, statusUpdated: bool, refreshed: bool)

  /** How one invocation of the send handler ended. */
  datatype SendResult =
    | NoLead          // no selected lead: silent return
    | NoContent       // the channel's draft is empty: error toast, nothing sent
    | Sent            // every call of the chain resolved
    | Failed(at: Call) // the call that threw; the catch-all handler took over

  predicate Succeeds(c: Call, o: GatewayOutcomes)
  {
    match c
    case SendEmail(_, _, _, _) => o.emailSent
    case LogOutreach(_, _, _, _) => o.logged
    case UpdateLeadStatus(_, _) => o.statusUpdated
    case RefreshLeads => o.refreshed
  }

  /** Position of a call kind in the chain; used to state the ordering. */
  function Rank(c: Call): nat
  {
    match c
    case SendEmail(_, _, _, _) => 0
    case LogOutreach(_, _, _, _) => 1
    case UpdateLeadStatus(_, _) => 2
    case RefreshLeads => 3
  }

  /** The draft sent on a channel: Email and WhatsApp have their own, anything else is Instagram. */
  function SelectMessage(channel: Channel, drafts: EditedMessages): string
  {
    if channel == Email then drafts.email
    else if channel == WhatsApp then drafts.whatsapp
    else drafts.instagram
  }

  /** Whether the panel renders the send button of a channel: only when that channel's draft is non-empty. */
  predicate ButtonShown(channel: Channel, drafts: EditedMessages)
  {
    match channel
    case Email => drafts.email != ""
    case WhatsApp => drafts.whatsapp != ""
    case InstagramDM => drafts.instagram != ""
  }

  /** Every call the chain would make if nothing failed, in order. */
  function Plan(lead: Lead, channel: Channel, message: string, now: string): seq<Call>
  {
    var name := lead.businessName;
    var tail := [LogOutreach(name, channel, message, now), UpdateLeadStatus(name, Contacted), RefreshLeads];
    if channel == Email then [SendEmail(name, lead.email, SubjectPrefix + name, message)] + tail
    else tail
  }

  /**
   * The calls actually made when a plan is awaited call by call and the first
   * failure aborts the rest: the shortest prefix of the plan that either is the
   * whole plan or ends with the failed call.
   */
  function Performed(plan: seq<Call>, o: GatewayOutcomes): (done: seq<Call>)
    ensures |done| <= |plan| && done == plan[..|done|]
    ensures plan != [] ==> done != []
    ensures forall i :: 0 <= i < |done| - 1 ==> Succeeds(done[i], o)
    ensures |done| < |plan| ==> !Succeeds(done[|done| - 1], o)
  {
    if plan == [] then []
    else if Succeeds(plan[0], o) then [plan[0]] + Performed(plan[1..], o)
    else [plan[0]]
  }

  /** The gateway calls one invocation of the send handler makes. */
  function SendCalls(lead: Option<Lead>, drafts: EditedMessages, channel: Channel, now: string,
                     o: GatewayOutcomes): seq<Call>
  {
    var message := SelectMessage(channel, drafts);
    if lead.None? || message == "" then []
    else Performed(Plan(lead.value, channel, message, now), o)
  }

  /** How one invocation of the send handler ends. */
  function SendOutcome(lead: Option<Lead>, drafts: EditedMessages, channel: Channel, now: string,
                       o: GatewayOutcomes): SendResult
  {
    if lead.None? then NoLead
    else if SelectMessage(channel, drafts) == "" then NoContent
    else
      var calls := SendCalls(lead, drafts, channel, now, o);
      var last := calls[|calls| - 1];
      if Succeeds(last, o) then Sent else Failed(last)
  }

  /** The spreadsheet after one call: only a successful status update changes it. */
  function ApplyCall(sheet: map<string, string>, c: Call, o: GatewayOutcomes): map<string, string>
  {
    if c.UpdateLeadStatus? && Succeeds(c, o) then sheet[c.businessName := c.status] else sheet
  }

  function ApplyCalls(sheet: map<string, string>, calls: seq<Call>, o: GatewayOutcomes): map<string, string>
    decreases calls
  {
    if calls == [] then sheet else ApplyCalls(ApplyCall(sheet, calls[0], o), calls[1..], o)
  }

  /**
   * An independent count of the calls one started chain makes: it stops at the
   * first gateway operation that throws.
   */
  function CallsMade(channel: Channel, o: GatewayOutcomes): nat
  {
    if channel == Email && !o.emailSent then 1
    else
      var offset := if channel == Email then 1 else 0;
      if !o.logged then offset + 1
      else if !o.statusUpdated then offset + 2
      else offset + 3
  }

  /** Whether a sequence of calls holds no status update that resolved. */
  predicate NoStatusWritten(calls: seq<Call>, o: GatewayOutcomes)
  {
    forall c | c in calls :: !(c.UpdateLeadStatus? && Succeeds(c, o))
  }

  /** Whether every step before the status update resolved, so that the update is reached. */
  predicate ReachesStatusUpdate(channel: Channel, o: GatewayOutcomes)
  {
    (channel == Email ==> o.emailSent) && o.logged
  }

  // ---------------------------------------------------------------------------
  // Properties of the pipeline
  // ---------------------------------------------------------------------------

  /** Calls without a resolved status update leave the spreadsheet as it was. */
  lemma {:induction false} ApplyWithoutStatusWrite(sheet: map<string, string>, calls: seq<Call>, o: GatewayOutcomes)
    requires NoStatusWritten(calls, o)
    ensures ApplyCalls(sheet, calls, o) == sheet
    decreases calls
  {
    if calls != [] {
      assert calls[0] in calls;
      assert NoStatusWritten(calls[1..], o) by {
        forall c | c in calls[1..] ensures !(c.UpdateLeadStatus? && Succeeds(c, o)) {
          assert c in calls;
        }
      }
      ApplyWithoutStatusWrite(sheet, calls[1..], o);
    }
  }

  /** Applying two runs of calls one after the other is applying their concatenation. */
  lemma {:induction false} ApplyCallsAppend(sheet: map<string, string>, xs: seq<Call>, ys: seq<Call>, o: GatewayOutcomes)
    ensures ApplyCalls(sheet, xs + ys, o) == ApplyCalls(ApplyCalls(sheet, xs, o), ys, o)
    decreases xs
  {
    if xs != [] {
      assert (xs + ys)[1..] == xs[1..] + ys;
      ApplyCallsAppend(ApplyCall(sheet, xs[0], o), xs[1..], ys, o);
    } else {
      assert xs + ys == ys;
    }
  }

  /**
   * A started chain makes exactly the first CallsMade(channel, o) calls of its
   * plan: everything up to and including the first call that throws.
   */
  lemma StartedChainCalls(lead: Lead, channel: Channel, message: string, now: string, o: GatewayOutcomes)
    ensures var plan := Plan(lead, channel, message, now);
      CallsMade(channel, o) <= |plan| && Performed(plan, o) == plan[..CallsMade(channel, o)]
  {
    var plan := Plan(lead, channel, message, now);
    var done := Performed(plan, o);
    var k := if channel == Email then 1 else 0;
    assert channel == Email ==> (Succeeds(plan[0], o) <==> o.emailSent);
    assert Succeeds(plan[k], o) <==> o.logged;
    assert Succeeds(plan[k + 1], o) <==> o.statusUpdated;
    assert Succeeds(plan[k + 2], o) <==> o.refreshed;
    assert |done| == CallsMade(channel, o);
  }

  /** A button the panel renders is one whose send passes the empty-content check. */
  lemma ShownButtonHasContent(channel: Channel, drafts: EditedMessages)
    ensures ButtonShown(channel, drafts) <==> SelectMessage(channel, drafts) != ""
  {
  }

  /** No gateway call is made exactly when the lead is missing or the channel's draft is empty. */
  lemma RefusedSendMakesNoCalls(lead: Option<Lead>, drafts: EditedMessages, channel: Channel, now: string,
                                o: GatewayOutcomes)
    ensures SendCalls(lead, drafts, channel, now, o) == [] <==> lead.None? || SelectMessage(channel, drafts) == ""
    ensures SendOutcome(lead, drafts, channel, now, o) == NoLead <==> lead.None?
    ensures SendOutcome(lead, drafts, channel, now, o) == NoContent <==> lead.Some? && SelectMessage(channel, drafts) == ""
  {
  }

  /** Every message-carrying call sends the draft of the channel being used. */
  lemma MessageFollowsChannel(lead: Option<Lead>, drafts: EditedMessages, channel: Channel, now: string,
                              o: GatewayOutcomes)
    ensures forall c | c in SendCalls(lead, drafts, channel, now, o) && (c.SendEmail? || c.LogOutreach?) ::
      && (channel == Email ==> c.message == drafts.email)
      && (channel == WhatsApp ==> c.message == drafts.whatsapp)
      && (channel == InstagramDM ==> c.message == drafts.instagram)
  {
    var calls := SendCalls(lead, drafts, channel, now, o);
    if calls != [] {
      var plan := Plan(lead.value, channel, SelectMessage(channel, drafts), now);
      assert forall c | c in calls :: c in plan;
    }
  }

  /**
   * Every call of one invocation is keyed by the selected lead's business name,
   * the e-mail subject names the business, the log entry names the channel used
   * and the time given, and the status written is 'Contacted'.
   */
  lemma CallsKeyedBySelectedLead(lead: Option<Lead>, drafts: EditedMessages, channel: Channel, now: string,
                                 o: GatewayOutcomes)
    ensures forall c | c in SendCalls(lead, drafts, channel, now, o) && !c.RefreshLeads? ::
      lead.Some? && c.businessName == lead.value.businessName
    ensures forall c | c in SendCalls(lead, drafts, channel, now, o) && c.SendEmail? ::
      lead.Some? && c.email == lead.value.email && c.subject == SubjectPrefix + lead.value.businessName
    ensures forall c | c in SendCalls(lead, drafts, channel, now, o) && c.LogOutreach? ::
      c.channel == channel && c.timestamp == now
    ensures forall c | c in SendCalls(lead, drafts, channel, now, o) && c.UpdateLeadStatus? ::
      c.status == Contacted
  {
    var calls := SendCalls(lead, drafts, channel, now, o);
    if calls != [] {
      var name := lead.value.businessName;
      var plan := Plan(lead.value, channel, SelectMessage(channel, drafts), now);
      assert calls == plan[..|calls|];
      forall c | c in calls
        ensures !c.RefreshLeads? ==> c.businessName == name
        ensures c.SendEmail? ==> c.email == lead.value.email && c.subject == SubjectPrefix + name
        ensures c.LogOutreach? ==> c.channel == channel && c.timestamp == now
        ensures c.UpdateLeadStatus? ==> c.status == Contacted
      {
        assert c in plan;
      }
    }
  }

  /**
   * The calls come in chain order, each kind at most once: e-mail dispatch, then
   * the log entry, then the status update, then the refresh. E-mail is dispatched
   * only on the Email channel, and there it is always the first call.
   */
  lemma {:induction false} ChainOrder(lead: Option<Lead>, drafts: EditedMessages, channel: Channel, now: string,
                                      o: GatewayOutcomes)
    ensures var calls := SendCalls(lead, drafts, channel, now, o);
      forall i, j :: 0 <= i < j < |calls| ==> Rank(calls[i]) < Rank(calls[j])
    ensures var calls := SendCalls(lead, drafts, channel, now, o);
      forall c | c in calls :: c.SendEmail? ==> channel == Email
    ensures var calls := SendCalls(lead, drafts, channel, now, o);
      channel == Email && calls != [] ==> calls[0].SendEmail?
  {
    var calls := SendCalls(lead, drafts, channel, now, o);
    if calls != [] {
      var plan := Plan(lead.value, channel, SelectMessage(channel, drafts), now);
      assert calls == plan[..|calls|];
      var offset := if channel == Email then 0 else 1;
      assert forall i :: 0 <= i < |plan| ==> Rank(plan[i]) == i + offset;
    }
  }

  /** Scenario: the e-mail dispatch throws; nothing is logged, no status changes. */
  lemma EmailFailureAborts(lead: Lead, drafts: EditedMessages, now: string, o: GatewayOutcomes,
                           sheet: map<string, string>)
    requires drafts.email != "" && !o.emailSent
    ensures var dispatch := SendEmail(lead.businessName, lead.email, SubjectPrefix + lead.businessName, drafts.email);
      && SendCalls(Some(lead), drafts, Email, now, o) == [dispatch]
      && SendOutcome(Some(lead), drafts, Email, now, o) == Failed(dispatch)
    ensures ApplyCalls(sheet, SendCalls(Some(lead), drafts, Email, now, o), o) == sheet
  {
  }

  /** Scenario: every Email step resolves; the trace is the full chain in order. */
  lemma EmailSuccessTrace(lead: Lead, drafts: EditedMessages, now: string, o: GatewayOutcomes,
                          sheet: map<string, string>)
    requires drafts.email != "" && o == GatewayOutcomes(true, true, true, true)
    ensures var name := lead.businessName;
      SendCalls(Some(lead), drafts, Email, now, o) ==
        [SendEmail(name, lead.email, SubjectPrefix + name, drafts.email),
         LogOutreach(name, Email, drafts.email, now),
         UpdateLeadStatus(name, Contacted),
         RefreshLeads]
    ensures SendOutcome(Some(lead), drafts, Email, now, o) == Sent
    ensures ApplyCalls(sheet, SendCalls(Some(lead), drafts, Email, now, o), o)
            == sheet[lead.businessName := Contacted]
  {
    StartedChainCalls(lead, Email, drafts.email, now, o);
    StatusChangesOnlyAfterEarlierSteps(Some(lead), drafts, Email, now, o, sheet);
  }

  /**
   * A non-Email channel never dispatches e-mail: it logs, updates the status and
   * refreshes, stopping after the first of these that fails.
   */
  lemma NonEmailChain(lead: Lead, drafts: EditedMessages, channel: Channel, now: string, o: GatewayOutcomes)
    requires channel != Email && SelectMessage(channel, drafts) != ""
    ensures var name := lead.businessName;
      var chain := [LogOutreach(name, channel, SelectMessage(channel, drafts), now),
                    UpdateLeadStatus(name, Contacted), RefreshLeads];
      var n := if !o.logged then 1 else if !o.statusUpdated then 2 else 3;
      SendCalls(Some(lead), drafts, channel, now, o) == chain[..n]
  {
    StartedChainCalls(lead, channel, SelectMessage(channel, drafts), now, o);
  }

  /**
   * The lead's status becomes 'Contacted' exactly when every earlier step of the
   * chain resolved and the status update itself resolved; otherwise the
   * spreadsheet is untouched.
   */
  lemma StatusChangesOnlyAfterEarlierSteps(lead: Option<Lead>, drafts: EditedMessages, channel: Channel,
                                           now: string, o: GatewayOutcomes, sheet: map<string, string>)
    ensures ApplyCalls(sheet, SendCalls(lead, drafts, channel, now, o), o) ==
      if lead.Some? && SelectMessage(channel, drafts) != "" && ReachesStatusUpdate(channel, o) && o.statusUpdated
      then sheet[lead.value.businessName := Contacted]
      else sheet
  {
    var message := SelectMessage(channel, drafts);
    if lead.Some? && message != "" {
      var plan := Plan(lead.value, channel, message, now);
      StartedChainCalls(lead.value, channel, message, now, o);
      var n := CallsMade(channel, o);
      var k := if channel == Email then 1 else 0;
      var calls := plan[..n];
      assert NoStatusWritten(plan[..k + 1], o);
      if ReachesStatusUpdate(channel, o) && o.statusUpdated {
        assert calls == plan[..k + 1] + [plan[k + 1]] + plan[k + 2..n];
        assert NoStatusWritten(plan[k + 2..n], o);
        ApplyCallsAppend(sheet, plan[..k + 1] + [plan[k + 1]], plan[k + 2..n], o);
        ApplyCallsAppend(sheet, plan[..k + 1], [plan[k + 1]], o);
        ApplyWithoutStatusWrite(sheet, plan[..k + 1], o);
        ApplyWithoutStatusWrite(sheet[lead.value.businessName := Contacted], plan[k + 2..n], o);
      } else {
        assert NoStatusWritten(calls, o);
        ApplyWithoutStatusWrite(sheet, calls, o);
      }
    }
  }

  /** The handler reports success exactly when every call of the chain resolved. */
  lemma SentIffWholeChainResolved(lead: Option<Lead>, drafts: EditedMessages, channel: Channel, now: string,
                                  o: GatewayOutcomes)
    ensures SendOutcome(lead, drafts, channel, now, o) == Sent <==>
      lead.Some? && SelectMessage(channel, drafts) != "" && ReachesStatusUpdate(channel, o)
      && o.statusUpdated && o.refreshed
    ensures SendOutcome(lead, drafts, channel, now, o).Failed? ==>
      var calls := SendCalls(lead, drafts, channel, now, o);
      calls != [] && SendOutcome(lead, drafts, channel, now, o).at == calls[|calls| - 1]
      && !Succeeds(calls[|calls| - 1], o)
  {
    if lead.Some? && SelectMessage(channel, drafts) != "" {
      StartedChainCalls(lead.value, channel, SelectMessage(channel, drafts), now, o);
    }
  }

  /**
   * The component state of the outreach panel: its drafts (a prop), the lead
   * selected in the shared lead store, and the channel currently sending. The
   * spreadsheet's statuses and the trace of gateway calls stand for the outside
   * world the handler acts on.
   */
  class OutreachPanel {
    const drafts: EditedMessages
    var selectedLead: Option<Lead>
    var sendingChannel: Option<Channel>
    var sheet: map<string, string>
    var trace: seq<Call>

    constructor (drafts: EditedMessages, selectedLead: Option<Lead>, sheet: map<string, string>)
      ensures this.drafts == drafts && this.selectedLead == selectedLead && this.sheet == sheet
      ensures sendingChannel == None && trace == []
    {
      this.drafts := drafts;
      this.selectedLead := selectedLead;
      this.sheet := sheet;
      sendingChannel := None;
      trace := [];
    }

    /**
     * One awaited gateway call. It may only be issued while the flag names the
     * channel being sent; it is recorded whether or not it resolves.
     */
    method Invoke(call: Call, o: GatewayOutcomes, ghost channel: Channel) returns (ok: bool)
      requires sendingChannel == Some(channel)
      modifies this`trace, this`sheet
      ensures ok == Succeeds(call, o)
      ensures trace == old(trace) + [call]
      ensures sheet == ApplyCall(old(sheet), call, o)
    {
      trace := trace + [call];
      sheet := ApplyCall(sheet, call, o);
      ok := Succeeds(call, o);
    }

    /** The send handler for one channel; `now` is the clock reading used for the log entry. */
    method HandleSend(channel: Channel, now: string, o: GatewayOutcomes) returns (r: SendResult)
      modifies this`trace, this`sheet, this`sendingChannel
      ensures trace == old(trace) + SendCalls(selectedLead, drafts, channel, now, o)
      ensures sheet == ApplyCalls(old(sheet), SendCalls(selectedLead, drafts, channel, now, o), o)
      ensures r == SendOutcome(selectedLead, drafts, channel, now, o)
      ensures if r.NoLead? || r.NoContent? then sendingChannel == old(sendingChannel) else sendingChannel == None
    {
      if selectedLead.None? {
        return NoLead;
      }
      var lead := selectedLead.value;
      var message := SelectMessage(channel, drafts);
      if message == "" {
        return NoContent;
      }
      sendingChannel := Some(channel);
      if channel == Email {
        r := EmailChain(lead, message, now, o);
      } else {
        r := LoggedChain(lead, channel, message, now, o);
      }
      sendingChannel := None;
      assert SendCalls(selectedLead, drafts, channel, now, o) == Plan(lead, channel, message, now)[..CallsMade(channel, o)] by {
        StartedChainCalls(lead, channel, message, now, o);
      }
      assert sheet == ApplyCalls(old(sheet), SendCalls(selectedLead, drafts, channel, now, o), o) by {
        StatusChangesOnlyAfterEarlierSteps(selectedLead, drafts, channel, now, o, old(sheet));
      }
    }

    /**
     * The Email branch of the handler: dispatch the e-mail, log it, mark the lead
     * contacted and refresh, stopping at the first call that throws.
     */
    method EmailChain(lead: Lead, message: string, now: string, o: GatewayOutcomes) returns (r: SendResult)
      requires sendingChannel == Some(Email)
      modifies this`trace, this`sheet
      ensures var plan := Plan(lead, Email, message, now);
        var n := CallsMade(Email, o);
        && trace == old(trace) + plan[..n]
        && r == (if Succeeds(plan[n - 1], o) then Sent else Failed(plan[n - 1]))
      ensures sheet == if ReachesStatusUpdate(Email, o) && o.statusUpdated
                       then old(sheet)[lead.businessName := Contacted] else old(sheet)
    {
      var name := lead.businessName;
      var c := SendEmail(name, lead.email, SubjectPrefix + name, message);
      var ok := Invoke(c, o, Email);
      if !ok { return Failed(c); }
      c := LogOutreach(name, Email, message, now);
      ok := Invoke(c, o, Email);
      if !ok { return Failed(c); }
      c := UpdateLeadStatus(name, Contacted);
      ok := Invoke(c, o, Email);
      if !ok { return Failed(c); }
      c := RefreshLeads;
      ok := Invoke(c, o, Email);
      if !ok { return Failed(c); }
      r := Sent;
    }

    /**
     * The branch for channels without a send path (WhatsApp, Instagram DM): log
     * the outreach, mark the lead contacted and refresh, stopping at the first
     * call that throws.
     */
    method LoggedChain(lead: Lead, channel: Channel, message: string, now: string, o: GatewayOutcomes)
      returns (r: SendResult)
      requires channel != Email && sendingChannel == Some(channel)
      modifies this`trace, this`sheet
      ensures var plan := Plan(lead, channel, message, now);
        var n := CallsMade(channel, o);
        && trace == old(trace) + plan[..n]
        && r == (if Succeeds(plan[n - 1], o) then Sent else Failed(plan[n - 1]))
      ensures sheet == if ReachesStatusUpdate(channel, o) && o.statusUpdated
                       then old(sheet)[lead.businessName := Contacted] else old(sheet)
    {
      var name := lead.businessName;
      var c := LogOutreach(name, channel, message, now);
      var ok := Invoke(c, o, channel);
      if !ok { return Failed(c); }
      c := UpdateLeadStatus(name, Contacted);
      ok := Invoke(c, o, channel);
      if !ok { return Failed(c); }
      c := RefreshLeads;
      ok := Invoke(c, o, channel);
      if !ok { return Failed(c); }
      r := Sent;
    }
  }
}
