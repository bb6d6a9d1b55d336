/** The `conversation` resource: a channel whose topic, purpose and member
    list the operator declares. Each operation is a short sequence of remote
    calls that stops at the first failure; nothing already done is undone. */
module Conversation {
  import opened Wrappers
  import opened Framework
  import opened Text
  import opened Client
  import opened Reconcile

  datatype ConversationState = ConversationState(
    id: Tf<string>,
    name: Tf<string>,
    topic: Tf<string>,
    purpose: Tf<string>,
    isPrivate: Tf<bool>,
    members: Tf<seq<Elem>>)

  /** Whether the declared member list (if any) converts to strings. */
  predicate MembersDecode(s: ConversationState) {
    AllStrings(Elements(s.members))
  }

  /** The bulk invite argument: every member followed by a comma, then the
      trailing commas trimmed off. */
  function InviteArgument(members: seq<string>): string {
    TrimRight(CommaTerminated(members))
  }

  /** A call made only when the plan asks for it. */
  function Optional(c: Client, wanted: bool, call: Call, summary: string): Steps {
    if wanted then Issue(c, call, summary) else Skip
  }

  lemma OptionalConforms(c: Client, wanted: bool, call: Call, summary: string)
    ensures Conforms(c, Optional(c, wanted, call, summary), if wanted then [call] else [], true)
  {
    if wanted { IssueConforms(c, call, summary); }
  }

  // ---------------------------------------------------------------- Create

  function CreateCall(plan: ConversationState): Call {
    CreateConversation(ValueString(plan.name), ValueBool(plan.isPrivate))
  }

  /** The channel the create reply describes (read only when the call succeeds). */
  function CreatedChannel(plan: ConversationState, c: Client): Channel {
    c.created(ValueString(plan.name), ValueBool(plan.isPrivate))
  }

  /** The invite step of Create: taken whenever a member list is declared,
      even an empty one, with all members in one argument. */
  function InviteDeclared(plan: ConversationState, c: Client, channel: string): Steps {
    if plan.members.Null? then Skip
    else
      match DecodeStrings(plan.members.v, "member")
      case DecodeError(d) => Halt(d)
      case Decoded(ms) => Issue(c, InviteUsers(channel, InviteArgument(ms)), "failed to invite users to conversation")
  }

  function InviteDeclaredSchedule(plan: ConversationState, channel: string): seq<Call> {
    if plan.members.Known? && MembersDecode(plan)
    then [InviteUsers(channel, InviteArgument(DecodeStrings(plan.members.v, "member").values))]
    else []
  }

  /** The calls of Create: create the channel, set the topic if one is
      declared, set the purpose if one is declared, invite the members if a
      member list is declared. */
  function CreateSteps(plan: ConversationState, c: Client): Steps {
    var id := CreatedChannel(plan, c).id;
    Then(Issue(c, CreateCall(plan), "failed to create conversation"),
    Then(Optional(c, plan.topic.Known?, SetTopic(id, ValueString(plan.topic)), "failed to set topic of conversation"),
    Then(Optional(c, plan.purpose.Known?, SetPurpose(id, ValueString(plan.purpose)), "failed to set purpose of conversation"),
         InviteDeclared(plan, c, id))))
  }

  /** Create as the source writes it: every field but the member list comes
      from the create reply, topic and purpose included. */
  function CreateAsWritten(plan: ConversationState, c: Client): (r: Run<ConversationState>)
    ensures r.state.Some? <==> r.diags == []
    ensures r.state.Some? ==>
      var ch := CreatedChannel(plan, c);
      && Succeeds(c, CreateCall(plan))
      && r.state.value.topic == Known(ch.topic) && r.state.value.purpose == Known(ch.purpose)
      && r.state.value.members == plan.members
  {
    var ch := CreatedChannel(plan, c);
    Finish(CreateSteps(plan, c),
           ConversationState(Known(ch.id), Known(ch.name), Known(ch.topic), Known(ch.purpose),
                             Known(ch.isPrivate), plan.members))
  }

  /** Create with the topic and purpose written from the plan, as Update
      writes them; identifier, name and privacy come from the create reply,
      and the member list is the declared one, not fetched again. */
  function Create(plan: ConversationState, c: Client): (r: Run<ConversationState>)
    ensures r.state.Some? <==> r.diags == []
    ensures r.state.Some? ==>
      var ch := CreatedChannel(plan, c);
      && Succeeds(c, CreateCall(plan))
      && r.state.value.id == Known(ch.id) && r.state.value.isPrivate == Known(ch.isPrivate)
    ensures r.state.Some? ==>
      r.state.value.topic == plan.topic && r.state.value.purpose == plan.purpose
      && r.state.value.members == plan.members
  {
    var ch := CreatedChannel(plan, c);
    Finish(CreateSteps(plan, c),
           ConversationState(Known(ch.id), Known(ch.name), plan.topic, plan.purpose,
                             Known(ch.isPrivate), plan.members))
  }

  /** The calls Create means to make when each one succeeds. */
  function CreateSchedule(plan: ConversationState, c: Client): seq<Call> {
    var id := CreatedChannel(plan, c).id;
    [CreateCall(plan)]
    + ((if plan.topic.Known? then [SetTopic(id, plan.topic.v)] else [])
       + ((if plan.purpose.Known? then [SetPurpose(id, plan.purpose.v)] else [])
          + InviteDeclaredSchedule(plan, id)))
  }

  lemma InviteDeclaredConforms(plan: ConversationState, c: Client, channel: string)
    ensures Conforms(c, InviteDeclared(plan, c, channel), InviteDeclaredSchedule(plan, channel), MembersDecode(plan))
  {
    if plan.members.Null? {
      SkipConforms(c);
    } else if MembersDecode(plan) {
      IssueConforms(c, InviteUsers(channel, InviteArgument(DecodeStrings(plan.members.v, "member").values)),
                    "failed to invite users to conversation");
    } else {
      HaltConforms(c, DecodeStrings(plan.members.v, "member").diag);
    }
  }

  lemma CreateStepsConform(plan: ConversationState, c: Client)
    ensures Conforms(c, CreateSteps(plan, c), CreateSchedule(plan, c), MembersDecode(plan))
  {
    var id := CreatedChannel(plan, c).id;
    var t := if plan.topic.Known? then [SetTopic(id, plan.topic.v)] else [];
    var p := if plan.purpose.Known? then [SetPurpose(id, plan.purpose.v)] else [];
    var i := InviteDeclaredSchedule(plan, id);
    var optT := Optional(c, plan.topic.Known?, SetTopic(id, ValueString(plan.topic)), "failed to set topic of conversation");
    var optP := Optional(c, plan.purpose.Known?, SetPurpose(id, ValueString(plan.purpose)), "failed to set purpose of conversation");
    var invite := InviteDeclared(plan, c, id);
    IssueConforms(c, CreateCall(plan), "failed to create conversation");
    OptionalConforms(c, plan.topic.Known?, SetTopic(id, ValueString(plan.topic)), "failed to set topic of conversation");
    OptionalConforms(c, plan.purpose.Known?, SetPurpose(id, ValueString(plan.purpose)), "failed to set purpose of conversation");
    InviteDeclaredConforms(plan, c, id);
    ThenConforms(c, optP, p, true, invite, i, MembersDecode(plan));
    ThenConforms(c, optT, t, true, Then(optP, invite), p + i, MembersDecode(plan));
    ThenConforms(c, Issue(c, CreateCall(plan), "failed to create conversation"), [CreateCall(plan)], true,
                 Then(optT, Then(optP, invite)), t + (p + i), MembersDecode(plan));
  }

  /** Create issues its schedule up to the first failing call, and writes
      state exactly when every scheduled call succeeds and the members
      convert. */
  lemma CreateFollowsSchedule(plan: ConversationState, c: Client)
    ensures Create(plan, c).calls == Execute(c, CreateSchedule(plan, c))
    ensures CreateAsWritten(plan, c).calls == Create(plan, c).calls
    ensures Create(plan, c).state.Some? <==> AllSucceed(c, CreateSchedule(plan, c)) && MembersDecode(plan)
  {
    CreateStepsConform(plan, c);
  }

  /** A declared but empty member list still issues the invite call, with an
      empty argument, once the channel, topic and purpose calls succeeded. */
  lemma CreateInvitesEmptyList(plan: ConversationState, c: Client)
    requires plan.members == Known([])
    requires AllSucceed(c, CreateSchedule(plan, c))
    ensures var calls := Create(plan, c).calls;
            |calls| > 0 && calls[|calls| - 1] == InviteUsers(CreatedChannel(plan, c).id, "")
  {
    CreateFollowsSchedule(plan, c);
    assert DecodeStrings([], "member") == Decoded([]);
    assert InviteArgument([]) == "";
  }

  /** The topic Create writes is the one the create reply reports, so a
      declared topic the reply does not echo is lost; the corrected Create
      keeps the declared topic. */
  lemma CreateAsWrittenLosesTopic(plan: ConversationState, c: Client)
    requires plan.topic.Known?
    requires CreatedChannel(plan, c).topic != plan.topic.v
    requires AllSucceed(c, CreateSchedule(plan, c)) && MembersDecode(plan)
    ensures CreateAsWritten(plan, c).state.Some? && CreateAsWritten(plan, c).state.value.topic != plan.topic
    ensures Create(plan, c).state.Some? && Create(plan, c).state.value.topic == plan.topic
  {
    CreateFollowsSchedule(plan, c);
  }

  /** Creating "eng" with topic "roadmap" and members u1, u2: the create
      call, the topic call with "roadmap", one invite call with "u1,u2", and
      a state that keeps the declared topic and members. */
  lemma CreateScenario(plan: ConversationState, c: Client)
    requires plan.name == Known("eng") && plan.isPrivate == Known(true)
    requires plan.topic == Known("roadmap") && plan.purpose.Null?
    requires plan.members == Known([Str("u1"), Str("u2")])
    requires AllSucceed(c, CreateSchedule(plan, c))
    ensures var id := CreatedChannel(plan, c).id;
            Create(plan, c).calls
            == [CreateConversation("eng", true), SetTopic(id, "roadmap"), InviteUsers(id, "u1,u2")]
    ensures Create(plan, c).state.Some?
    ensures Create(plan, c).state.value.topic == Known("roadmap")
    ensures Create(plan, c).state.value.members == Known([Str("u1"), Str("u2")])
  {
    var id := CreatedChannel(plan, c).id;
    ScenarioInvite(plan);
    assert CreateSchedule(plan, c)
           == [CreateConversation("eng", true)] + ([SetTopic(id, "roadmap")] + ([] + [InviteUsers(id, "u1,u2")]));
    CreateFollowsSchedule(plan, c);
    ExecuteStopsAtFirstFailure(c, CreateSchedule(plan, c));
  }

  /** The members u1, u2 convert and are invited with "u1,u2". */
  lemma ScenarioInvite(plan: ConversationState)
    requires plan.members == Known([Str("u1"), Str("u2")])
    ensures MembersDecode(plan)
    ensures forall id :: InviteDeclaredSchedule(plan, id) == [InviteUsers(id, "u1,u2")]
  {
    assert DecodeStrings(plan.members.v, "member") == Decoded(["u1", "u2"]);
    assert InviteArgument(["u1", "u2"]) == "u1,u2" by {
      TrimmedAccumulationIsJoinForPlainLast(["u1", "u2"]);
      assert Join(["u1", "u2"]) == "u1,u2";
    }
  }

  // ------------------------------------------------------------------ Read

  /** Read hands the stored state back without contacting the remote side. */
  function Read(state: ConversationState): (r: Run<ConversationState>)
    ensures r.calls == [] && r.diags == []
    ensures r.state == Some(state)
  {
    Run([], Some(state), [])
  }

  // ---------------------------------------------------------------- Update

  /** One kick call per user, in the users' order. */
  function KickSchedule(channel: string, users: seq<string>): (r: seq<Call>)
    ensures |r| == |users|
    ensures forall i :: 0 <= i < |users| ==> r[i] == KickUser(channel, users[i])
    decreases |users|
  {
    if |users| == 0 then []
    else
      var rest := KickSchedule(channel, users[1..]);
      assert forall i :: 1 <= i < |users| ==> ([KickUser(channel, users[0])] + rest)[i] == rest[i - 1];
      [KickUser(channel, users[0])] + rest
  }

  /** One kick call per user, in order, stopping at the first that fails. */
  function KickEach(c: Client, channel: string, users: seq<string>): Steps
    decreases |users|
  {
    if |users| == 0 then Skip
    else Then(Issue(c, KickUser(channel, users[0]), "failed to kick user from conversation"),
              KickEach(c, channel, users[1..]))
  }

  lemma {:induction false} KickEachConforms(c: Client, channel: string, users: seq<string>)
    ensures Conforms(c, KickEach(c, channel, users), KickSchedule(channel, users), true)
    decreases |users|
  {
    if |users| == 0 {
      SkipConforms(c);
    } else {
      KickEachConforms(c, channel, users[1..]);
      IssueConforms(c, KickUser(channel, users[0]), "failed to kick user from conversation");
      ThenConforms(c, Issue(c, KickUser(channel, users[0]), "failed to kick user from conversation"),
                   [KickUser(channel, users[0])], true,
                   KickEach(c, channel, users[1..]), KickSchedule(channel, users[1..]), true);
    }
  }

  /** The membership part of Update, once the remote members are known:
      invite the missing members in one call if there are any, then kick the
      unwanted ones one by one. */
  function Reconciliation(plan: ConversationState, c: Client, order: MapOrder, existing: seq<string>): Steps {
    var id := ValueString(plan.id);
    match DecodeStrings(Elements(plan.members), "member")
    case DecodeError(d) => Halt(d)
    case Decoded(ms) =>
      var accumulated := CommaTerminated(Invitees(order, ms, existing));
      Then(if accumulated != "" then Issue(c, InviteUsers(id, TrimRight(accumulated)), "failed to invite users to conversation")
           else Skip,
           KickEach(c, id, Kicked(order, ms, existing)))
  }

  function UpdateSteps(plan: ConversationState, c: Client, order: MapOrder): Steps {
    var id := ValueString(plan.id);
    Then(Issue(c, SetTopic(id, ValueString(plan.topic)), "failed to set topic of conversation"),
    Then(Issue(c, SetPurpose(id, ValueString(plan.purpose)), "failed to set purpose of conversation"),
    Then(Issue(c, GetUsersInConversation(id), "failed to get users in conversation"),
         Reconciliation(plan, c, order, c.members(id)))))
  }

  /** Update re-applies topic and purpose (a null one as ""), fetches the
      remote members and reconciles them; on success it writes the plan
      field for field. */
  function Update(plan: ConversationState, c: Client, order: MapOrder): (r: Run<ConversationState>)
    ensures r.state.Some? <==> r.diags == []
    ensures r.state.Some? ==> r.state.value == plan
  {
    Finish(UpdateSteps(plan, c, order), plan)
  }

  /** The invite step of Update: one call carrying every addition, or none. */
  function InviteSchedule(channel: string, invitees: seq<string>): seq<Call> {
    if |invitees| == 0 then [] else [InviteUsers(channel, InviteArgument(invitees))]
  }

  /** The three calls every Update starts with, in this order. */
  function UpdateHead(plan: ConversationState): seq<Call> {
    var id := ValueString(plan.id);
    [SetTopic(id, ValueString(plan.topic)), SetPurpose(id, ValueString(plan.purpose)), GetUsersInConversation(id)]
  }

  /** The membership calls Update means to make once the remote members are
      known: the invite (if anything is missing), then the kicks. */
  function ReconciliationSchedule(plan: ConversationState, order: MapOrder, existing: seq<string>): seq<Call> {
    var id := ValueString(plan.id);
    match DecodeStrings(Elements(plan.members), "member")
    case Decoded(ms) =>
      InviteSchedule(id, Invitees(order, ms, existing)) + KickSchedule(id, Kicked(order, ms, existing))
    case DecodeError(_) => []
  }

  /** The calls Update means to make when each one succeeds: the three
      calls of `UpdateHead`, then the membership calls. */
  function UpdateSchedule(plan: ConversationState, c: Client, order: MapOrder): seq<Call> {
    UpdateHead(plan) + ReconciliationSchedule(plan, order, c.members(ValueString(plan.id)))
  }

  lemma ReconciliationConforms(plan: ConversationState, c: Client, order: MapOrder, existing: seq<string>)
    ensures Conforms(c, Reconciliation(plan, c, order, existing),
                     ReconciliationSchedule(plan, order, existing), MembersDecode(plan))
  {
    var id := ValueString(plan.id);
    match DecodeStrings(Elements(plan.members), "member")
    case DecodeError(d) =>
      HaltConforms(c, d);
    case Decoded(ms) =>
      var inv := Invitees(order, ms, existing);
      var accumulated := CommaTerminated(inv);
      CommaTerminatedEmpty(inv);
      var step := if accumulated != "" then Issue(c, InviteUsers(id, TrimRight(accumulated)), "failed to invite users to conversation")
                  else Skip;
      if accumulated != "" {
        IssueConforms(c, InviteUsers(id, TrimRight(accumulated)), "failed to invite users to conversation");
      } else {
        SkipConforms(c);
      }
      KickEachConforms(c, id, Kicked(order, ms, existing));
      ThenConforms(c, step, InviteSchedule(id, inv), true,
                   KickEach(c, id, Kicked(order, ms, existing)), KickSchedule(id, Kicked(order, ms, existing)), true);
  }

  lemma UpdateStepsConform(plan: ConversationState, c: Client, order: MapOrder)
    ensures var id := ValueString(plan.id);
            Conforms(c, UpdateSteps(plan, c, order),
                     [SetTopic(id, ValueString(plan.topic))]
                     + ([SetPurpose(id, ValueString(plan.purpose))]
                        + ([GetUsersInConversation(id)] + ReconciliationSchedule(plan, order, c.members(id)))),
                     MembersDecode(plan))
  {
    var id := ValueString(plan.id);
    var a, b, f := SetTopic(id, ValueString(plan.topic)), SetPurpose(id, ValueString(plan.purpose)), GetUsersInConversation(id);
    var rest := Reconciliation(plan, c, order, c.members(id));
    var tail := ReconciliationSchedule(plan, order, c.members(id));
    var fetch := Issue(c, f, "failed to get users in conversation");
    var purpose := Issue(c, b, "failed to set purpose of conversation");
    IssueConforms(c, a, "failed to set topic of conversation");
    IssueConforms(c, b, "failed to set purpose of conversation");
    IssueConforms(c, f, "failed to get users in conversation");
    ReconciliationConforms(plan, c, order, c.members(id));
    ThenConforms(c, fetch, [f], true, rest, tail, MembersDecode(plan));
    ThenConforms(c, purpose, [b], true, Then(fetch, rest), [f] + tail, MembersDecode(plan));
    ThenConforms(c, Issue(c, a, "failed to set topic of conversation"), [a], true,
                 Then(purpose, Then(fetch, rest)), [b] + ([f] + tail), MembersDecode(plan));
  }

  /** Update issues its schedule up to the first failing call, and writes
      state exactly when every scheduled call succeeds and the members
      convert. */
  lemma UpdateFollowsSchedule(plan: ConversationState, c: Client, order: MapOrder)
    ensures Update(plan, c, order).calls == Execute(c, UpdateSchedule(plan, c, order))
    ensures Update(plan, c, order).state.Some? <==> AllSucceed(c, UpdateSchedule(plan, c, order)) && MembersDecode(plan)
  {
    var id := ValueString(plan.id);
    var tail := ReconciliationSchedule(plan, order, c.members(id));
    var steps := UpdateSteps(plan, c, order);
    UpdateStepsConform(plan, c, order);
    PrependThree(SetTopic(id, ValueString(plan.topic)), SetPurpose(id, ValueString(plan.purpose)),
                 GetUsersInConversation(id), tail);
    assert Conforms(c, steps, UpdateSchedule(plan, c, order), MembersDecode(plan));
  }

  lemma PrependThree(a: Call, b: Call, f: Call, tail: seq<Call>)
    ensures [a] + ([b] + ([f] + tail)) == [a, b, f] + tail
  {
  }

  /** The users named by the kick calls of a call record, in order. */
  function KickedUsers(calls: seq<Call>): seq<string>
    decreases |calls|
  {
    if |calls| == 0 then []
    else (if calls[0].KickUser? then [calls[0].user] else []) + KickedUsers(calls[1..])
  }

  /** The invite calls of a call record, in order. */
  function Invites(calls: seq<Call>): seq<Call>
    decreases |calls|
  {
    if |calls| == 0 then []
    else (if calls[0].InviteUsers? then [calls[0]] else []) + Invites(calls[1..])
  }

  lemma {:induction false} NoMembershipCalls(calls: seq<Call>)
    requires forall i :: 0 <= i < |calls| ==> !calls[i].KickUser? && !calls[i].InviteUsers?
    ensures KickedUsers(calls) == [] && Invites(calls) == []
    decreases |calls|
  {
    if |calls| > 0 {
      NoMembershipCalls(calls[1..]);
    }
  }

  lemma {:induction false} KickedUsersOfSchedule(channel: string, users: seq<string>)
    ensures KickedUsers(KickSchedule(channel, users)) == users
    ensures Invites(KickSchedule(channel, users)) == []
    decreases |users|
  {
    if |users| > 0 {
      KickedUsersOfSchedule(channel, users[1..]);
    }
  }

  lemma {:induction false} KickedUsersConcat(a: seq<Call>, b: seq<Call>)
    ensures KickedUsers(a + b) == KickedUsers(a) + KickedUsers(b)
    decreases |a|
  {
    if |a| == 0 {
      assert a + b == b;
    } else {
      assert (a + b)[0] == a[0];
      assert (a + b)[1..] == a[1..] + b;
      KickedUsersConcat(a[1..], b);
      var h := if a[0].KickUser? then [a[0].user] else [];
      calc {
        KickedUsers(a + b);
        h + KickedUsers(a[1..] + b);
        h + (KickedUsers(a[1..]) + KickedUsers(b));
        (h + KickedUsers(a[1..])) + KickedUsers(b);
      }
    }
  }

  lemma {:induction false} InvitesConcat(a: seq<Call>, b: seq<Call>)
    ensures Invites(a + b) == Invites(a) + Invites(b)
    decreases |a|
  {
    if |a| == 0 {
      assert a + b == b;
    } else {
      assert (a + b)[0] == a[0];
      assert (a + b)[1..] == a[1..] + b;
      InvitesConcat(a[1..], b);
      var h := if a[0].InviteUsers? then [a[0]] else [];
      calc {
        Invites(a + b);
        h + Invites(a[1..] + b);
        h + (Invites(a[1..]) + Invites(b));
        (h + Invites(a[1..])) + Invites(b);
      }
    }
  }

  /** In a record made of the Update head, the invite step and the kicks, the
      kick calls name exactly the kicked users and the invite calls are
      exactly the invite step. */
  lemma MembershipRecord(plan: ConversationState, invitees: seq<string>, kicked: seq<string>)
    ensures var id := ValueString(plan.id);
            var calls := UpdateHead(plan) + InviteSchedule(id, invitees) + KickSchedule(id, kicked);
            KickedUsers(calls) == kicked && Invites(calls) == InviteSchedule(id, invitees)
  {
    var id := ValueString(plan.id);
    var head, invite, kicks := UpdateHead(plan), InviteSchedule(id, invitees), KickSchedule(id, kicked);
    KickedUsersConcat(head + invite, kicks);
    KickedUsersConcat(head, invite);
    InvitesConcat(head + invite, kicks);
    InvitesConcat(head, invite);
    KickedUsersOfSchedule(id, kicked);
    NoMembershipCalls(head);
    if |invitees| > 0 {
      assert KickedUsers(invite[1..]) == [];
      assert Invites(invite[1..]) == [];
    }
  }

  /** The calls of an Update that succeeded: the head, the invite (if any),
      then the kicks. */
  lemma UpdateCallsOnSuccess(plan: ConversationState, c: Client, order: MapOrder, ms: seq<string>)
    requires DecodeStrings(Elements(plan.members), "member") == Decoded(ms)
    requires Update(plan, c, order).state.Some?
    ensures var id := ValueString(plan.id);
            var existing := c.members(id);
            Update(plan, c, order).calls
            == UpdateHead(plan) + InviteSchedule(id, Invitees(order, ms, existing))
               + KickSchedule(id, Kicked(order, ms, existing))
  {
    UpdateFollowsSchedule(plan, c, order);
    ExecuteStopsAtFirstFailure(c, UpdateSchedule(plan, c, order));
  }

  /** The record of a successful Update, call by call: the head, the invite
      call right after it when someone is invited, the kicked users and the
      invite calls. */
  lemma UpdateRecord(plan: ConversationState, c: Client, order: MapOrder, ms: seq<string>)
    requires DecodeStrings(Elements(plan.members), "member") == Decoded(ms)
    requires Update(plan, c, order).state.Some?
    ensures var id := ValueString(plan.id);
            var existing := c.members(id);
            var inv := Invitees(order, ms, existing);
            var calls := Update(plan, c, order).calls;
            && |calls| >= 3 && calls[..3] == UpdateHead(plan)
            && KickedUsers(calls) == Kicked(order, ms, existing)
            && Invites(calls) == InviteSchedule(id, inv)
            && (|inv| > 0 ==> calls[3] == InviteUsers(id, InviteArgument(inv)))
  {
    var id := ValueString(plan.id);
    var existing := c.members(id);
    var inv := Invitees(order, ms, existing);
    var out := Kicked(order, ms, existing);
    UpdateCallsOnSuccess(plan, c, order, ms);
    MembershipRecord(plan, inv, out);
  }

  /** A successful Update reconciles the membership: it starts with the
      topic, purpose and member fetch; its single invite call (made exactly
      when some member is missing, and right after the fetch, before any
      kick) carries each missing member once; and it kicks each remote
      member that is no longer declared, once. Duplicate declared members
      collapse, because only their set is compared. */
  lemma UpdateReconciles(plan: ConversationState, c: Client, order: MapOrder, ms: seq<string>)
    requires DecodeStrings(Elements(plan.members), "member") == Decoded(ms)
    requires Update(plan, c, order).state.Some?
    ensures var calls := Update(plan, c, order).calls;
            var existing := c.members(ValueString(plan.id));
            && |calls| >= 3 && calls[..3] == UpdateHead(plan)
            && Distinct(KickedUsers(calls)) && Elems(KickedUsers(calls)) == Removals(ms, existing)
            && |KickedUsers(calls)| == |Removals(ms, existing)|
            && Additions(ms, existing) !! Removals(ms, existing)
            && (Additions(ms, existing) == {} ==> Invites(calls) == [])
            && (Additions(ms, existing) != {} ==>
                  exists inv :: Distinct(inv) && Elems(inv) == Additions(ms, existing)
                                && Invites(calls) == [InviteUsers(ValueString(plan.id), InviteArgument(inv))]
                                && calls[3] == Invites(calls)[0])
  {
    var id := ValueString(plan.id);
    var existing := c.members(id);
    var inv := Invitees(order, ms, existing);
    var calls := Update(plan, c, order).calls;
    UpdateRecord(plan, c, order, ms);
    DistinctCard(Kicked(order, ms, existing));
    DeltaLaws(ms, existing);
    ElemsEmpty(inv);
    if |inv| > 0 {
      assert Invites(calls) == [InviteUsers(id, InviteArgument(inv))];
      assert calls[3] == Invites(calls)[0];
    }
  }

  /** The conversation test's membership: with "test" and "test2" declared
      and "test", "test2", "test3" present remotely, a successful Update
      invites nobody and kicks "test3" alone. */
  lemma UpdateTestMembers(plan: ConversationState, c: Client, order: MapOrder)
    requires DecodeStrings(Elements(plan.members), "member") == Decoded(["test", "test2"])
    requires c.members(ValueString(plan.id)) == ["test", "test2", "test3"]
    requires Update(plan, c, order).state.Some?
    ensures Invites(Update(plan, c, order).calls) == []
    ensures KickedUsers(Update(plan, c, order).calls) == ["test3"]
  {
    var id := ValueString(plan.id);
    var inv := Invitees(order, ["test", "test2"], ["test", "test2", "test3"]);
    var out := Kicked(order, ["test", "test2"], ["test", "test2", "test3"]);
    UpdateCallsOnSuccess(plan, c, order, ["test", "test2"]);
    MembershipRecord(plan, inv, out);
    TestDelta();
    ElemsEmpty(inv);
    DistinctSingleton(out, "test3");
  }

  lemma TestDelta()
    ensures Additions(["test", "test2"], ["test", "test2", "test3"]) == {}
    ensures Removals(["test", "test2"], ["test", "test2", "test3"]) == {"test3"}
  {
    assert Elems(["test", "test2"]) == {"test", "test2"};
    assert Elems(["test", "test2", "test3"]) == {"test", "test2", "test3"};
  }

  lemma ScenarioDelta()
    ensures Additions(["a", "d"], ["a", "b", "c"]) == {"d"}
    ensures Removals(["a", "d"], ["a", "b", "c"]) == {"b", "c"}
  {
    assert Elems(["a", "d"]) == {"a", "d"};
    assert Elems(["a", "b", "c"]) == {"a", "b", "c"};
  }

  /** Observed members a, b, c and declared members a, d: one invite call
      carrying "d", then one kick call for each of b and c. */
  lemma UpdateScenario(plan: ConversationState, c: Client, order: MapOrder)
    requires DecodeStrings(Elements(plan.members), "member") == Decoded(["a", "d"])
    requires c.members(ValueString(plan.id)) == ["a", "b", "c"]
    requires Update(plan, c, order).state.Some?
    ensures Invites(Update(plan, c, order).calls) == [InviteUsers(ValueString(plan.id), "d")]
    ensures |KickedUsers(Update(plan, c, order).calls)| == 2
    ensures Elems(KickedUsers(Update(plan, c, order).calls)) == {"b", "c"}
  {
    var id := ValueString(plan.id);
    var inv := Invitees(order, ["a", "d"], ["a", "b", "c"]);
    var out := Kicked(order, ["a", "d"], ["a", "b", "c"]);
    UpdateCallsOnSuccess(plan, c, order, ["a", "d"]);
    MembershipRecord(plan, inv, out);
    ScenarioDelta();
    DistinctSingleton(inv, "d");
    DistinctCard(out);
    TrimmedSingle("d");
  }

  /** Updating against a remote list that already has exactly the declared
      members issues no invite and no kick: a repeated Update is quiet. */
  lemma UpdateIdempotent(plan: ConversationState, c: Client, order: MapOrder, ms: seq<string>)
    requires DecodeStrings(Elements(plan.members), "member") == Decoded(ms)
    requires Elems(c.members(ValueString(plan.id))) == Elems(ms)
    ensures UpdateSchedule(plan, c, order) == UpdateHead(plan)
    ensures Update(plan, c, order).calls <= UpdateHead(plan)
  {
    var existing := c.members(ValueString(plan.id));
    SameMembersNoDelta(ms, existing);
    ElemsEmpty(Invitees(order, ms, existing));
    ElemsEmpty(Kicked(order, ms, existing));
    assert UpdateHead(plan) + [] == UpdateHead(plan);
    UpdateFollowsSchedule(plan, c, order);
  }

  // ---------------------------------------------------------------- Delete

  /** A direct message or a multi-person direct message is closed; any other
      conversation is archived. */
  predicate IsDirect(ch: Channel) {
    ch.user != "" || ch.isMpIM
  }

  function DeleteSteps(state: ConversationState, c: Client): Steps {
    var id := ValueString(state.id);
    Then(Issue(c, GetConversationInfo(id), "the conversation with the id " + Display(state.id) + " does not exist"),
         if IsDirect(c.info(id)) then Issue(c, CloseConversation(id), "failed to close conversation")
         else Issue(c, ArchiveConversation(id), "failed to archive conversation"))
  }

  /** Delete fetches the conversation to classify it, then closes or archives
      it. A close whose error says the conversation is already closed still
      counts as done. */
  function Delete(state: ConversationState, c: Client): (r: Removal)
    ensures |r.calls| >= 1 && r.calls[0] == GetConversationInfo(ValueString(state.id))
    ensures !Succeeds(c, GetConversationInfo(ValueString(state.id))) ==> |r.calls| == 1 && !r.Removed()
    ensures Succeeds(c, GetConversationInfo(ValueString(state.id))) ==>
      var id := ValueString(state.id);
      && |r.calls| == 2
      && (r.calls[1] == CloseConversation(id) <==> IsDirect(c.info(id)))
      && (r.calls[1] == ArchiveConversation(id) <==> !IsDirect(c.info(id)))
      && (r.Removed() <==> Succeeds(c, r.calls[1]))
  {
    var s := DeleteSteps(state, c);
    Removal(s.calls, Diags(s))
  }

  /** The calls Delete means to make: the fetch, then the close or the
      archive the fetched conversation calls for. */
  function DeleteSchedule(state: ConversationState, c: Client): seq<Call> {
    var id := ValueString(state.id);
    [GetConversationInfo(id)] + [if IsDirect(c.info(id)) then CloseConversation(id) else ArchiveConversation(id)]
  }

  /** Delete issues its schedule up to the first failing call, and removes
      the resource exactly when every scheduled call succeeds. */
  lemma DeleteFollowsSchedule(state: ConversationState, c: Client)
    ensures Delete(state, c).calls == Execute(c, DeleteSchedule(state, c))
    ensures Delete(state, c).Removed() <==> AllSucceed(c, DeleteSchedule(state, c))
  {
    var id := ValueString(state.id);
    var last := if IsDirect(c.info(id)) then CloseConversation(id) else ArchiveConversation(id);
    var summary := if IsDirect(c.info(id)) then "failed to close conversation" else "failed to archive conversation";
    var fetch := Issue(c, GetConversationInfo(id), "the conversation with the id " + Display(state.id) + " does not exist");
    IssueConforms(c, GetConversationInfo(id), "the conversation with the id " + Display(state.id) + " does not exist");
    IssueConforms(c, last, summary);
    assert DeleteSteps(state, c) == Then(fetch, Issue(c, last, summary));
    ThenConforms(c, fetch, [GetConversationInfo(id)], true, Issue(c, last, summary), [last], true);
  }

  /** Closing a conversation that is already closed still deletes it; any
      other close error does not. */
  lemma DeleteCloseOutcome(state: ConversationState, c: Client, detail: string)
    requires Succeeds(c, GetConversationInfo(ValueString(state.id))) && IsDirect(c.info(ValueString(state.id)))
    requires c.failure(CloseConversation(ValueString(state.id))) == Some(detail)
    ensures Delete(state, c).Removed() <==> c.alreadyClosed(ValueString(state.id))
    ensures !Delete(state, c).Removed() ==>
      Delete(state, c).diags == [Diagnostic("failed to close conversation", detail)]
  {
  }

  // ----------------------------------------------------------------- Import

  /** Import rebuilds the whole state from the conversation and its members as
      the remote side reports them. */
  function ImportState(id: string, c: Client): (r: Run<ConversationState>)
    ensures r.state.Some? <==> r.diags == []
    ensures r.state.Some? <==> Succeeds(c, GetConversationInfo(id)) && Succeeds(c, GetUsersInConversation(id))
    ensures r.calls == Execute(c, [GetConversationInfo(id), GetUsersInConversation(id)])
    ensures r.state.Some? ==>
      var ch := c.info(id);
      && r.state.value.id == Known(ch.id) && r.state.value.name == Known(ch.name)
      && r.state.value.topic == Known(ch.topic) && r.state.value.purpose == Known(ch.purpose)
      && r.state.value.isPrivate == Known(ch.isPrivate)
      && DecodeStrings(Elements(r.state.value.members), "member") == Decoded(c.members(id))
  {
    var ch := c.info(id);
    var info := Issue(c, GetConversationInfo(id), "the conversation with the id " + id + " does not exist");
    var users := Issue(c, GetUsersInConversation(id), "failed to get users in conversation with the id " + id);
    DecodeStrList(c.members(id), "member");
    IssueConforms(c, GetConversationInfo(id), "the conversation with the id " + id + " does not exist");
    IssueConforms(c, GetUsersInConversation(id), "failed to get users in conversation with the id " + id);
    ThenConforms(c, info, [GetConversationInfo(id)], true, users, [GetUsersInConversation(id)], true);
    Finish(Then(info, users),
           ConversationState(Known(ch.id), Known(ch.name), Known(ch.topic), Known(ch.purpose),
                             Known(ch.isPrivate), Known(StrList(c.members(id)))))
  }

  /** Import reads nothing but what the remote side reports about the
      requested id. */
  lemma ImportDependsOnRepliesOnly(id: string, c1: Client, c2: Client)
    requires c1.failure(GetConversationInfo(id)) == c2.failure(GetConversationInfo(id))
    requires c1.failure(GetUsersInConversation(id)) == c2.failure(GetUsersInConversation(id))
    requires c1.info(id) == c2.info(id) && c1.members(id) == c2.members(id)
    ensures ImportState(id, c1) == ImportState(id, c2)
  {
  }

  /** An Update right after an Import, with the imported state as the plan and
      the same remote membership, invites and kicks nobody. */
  lemma ImportThenUpdateIsQuiet(id: string, c: Client, order: MapOrder)
    requires ImportState(id, c).state.Some?
    requires c.info(id).id == id
    ensures Update(ImportState(id, c).state.value, c, order).calls <= UpdateHead(ImportState(id, c).state.value)
  {
    var plan := ImportState(id, c).state.value;
    assert ValueString(plan.id) == id;
    UpdateIdempotent(plan, c, order, c.members(id));
  }
}
