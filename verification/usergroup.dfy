/** The `usergroup` resource: a user group with a name, channels, members,
    description, handle, team and an enabled flag. Disabling stands in for
    deletion; a disabled group is neither updated nor has its members set. */
module UserGroupResource {
  import opened Wrappers
  import opened Framework
  import opened Text
  import opened Client
  import opened UserGroupDataSource

  datatype UserGroupState = UserGroupState(
    id: Tf<string>,
    name: Tf<string>,
    channels: Tf<seq<Elem>>,
    users: Tf<seq<Elem>>,
    description: Tf<string>,
    handle: Tf<string>,
    teamId: Tf<string>,
    enabled: Tf<bool>)

  /** The state written from a group the remote side reported, with the
      enabled flag given separately (the remote group does not report it). */
  function GroupState(g: UserGroup, enabled: Tf<bool>): UserGroupState {
    UserGroupState(Known(g.id), Known(g.name), Known(StrList(g.prefs.channels)), Known(StrList(g.users)),
                   Known(g.description), Known(g.handle), Known(g.teamId), enabled)
  }

  /** A written state gives back the group's channels and members. */
  lemma GroupStateDecodes(g: UserGroup, enabled: Tf<bool>)
    ensures DecodeStrings(Elements(GroupState(g, enabled).channels), "channel") == Decoded(g.prefs.channels)
    ensures DecodeStrings(Elements(GroupState(g, enabled).users), "user") == Decoded(g.users)
  {
    DecodeStrList(g.prefs.channels, "channel");
    DecodeStrList(g.users, "user");
  }

  function ChannelsOf(plan: UserGroupState): Decoded {
    DecodeStrings(Elements(plan.channels), "channel")
  }

  function UsersOf(plan: UserGroupState): Decoded {
    DecodeStrings(Elements(plan.users), "user")
  }

  /** The member list argument: the members joined by commas. */
  function MembersArgument(plan: UserGroupState): string {
    Join(Values(UsersOf(plan)))
  }

  // ---------------------------------------------------------------- Create

  /** The group the create call asks for: Go's zero group with the declared
      name, channels, description, handle and team. */
  function CreateSpec(plan: UserGroupState, channels: seq<string>): UserGroup {
    ZeroGroup.(name := ValueString(plan.name), prefs := UserGroupPrefs(channels, []),
               description := ValueString(plan.description), handle := ValueString(plan.handle),
               teamId := ValueString(plan.teamId))
  }

  function CreateCall(plan: UserGroupState): Call {
    CreateUserGroup(CreateSpec(plan, Values(ChannelsOf(plan))))
  }

  /** The group the create reply describes (read only when the call succeeds). */
  function CreatedGroup(plan: UserGroupState, c: Client): UserGroup {
    c.createdGroup(CreateSpec(plan, Values(ChannelsOf(plan))))
  }

  function SetMembersCall(plan: UserGroupState, c: Client): Call {
    UpdateUserGroupMembers(CreatedGroup(plan, c).id, MembersArgument(plan))
  }

  /** The calls of Create after the channels converted: create the group;
      then either disable it, or convert the members and set them. */
  function CreateSteps(plan: UserGroupState, c: Client): Steps {
    var create := Issue(c, CreateCall(plan), "failed to create user group");
    Then(Conversion(ChannelsOf(plan)),
         if !ValueBool(plan.enabled) then
           Then(create, Issue(c, DisableUserGroup(CreatedGroup(plan, c).id), "failed to disable user group"))
         else
           Then(create, Then(Conversion(UsersOf(plan)),
                             Issue(c, SetMembersCall(plan, c), "failed to update user group members"))))
  }

  /** Create converts the channels before any call. A group declared
      disabled is created and disabled, and no state is written even when
      both calls succeed. An enabled group gets its members set (all of them
      in one comma-joined argument, even an empty one), and the state comes
      from the set-members reply with the declared enabled flag. */
  function Create(plan: UserGroupState, c: Client): (r: Run<UserGroupState>)
    ensures r.state.Some? ==> r.diags == [] && ValueBool(plan.enabled)
    ensures r.state.Some? ==>
      r.state.value == GroupState(c.updatedMembers(CreatedGroup(plan, c).id, MembersArgument(plan)), plan.enabled)
    ensures !ValueBool(plan.enabled) ==> r.state.None?
    ensures ChannelsOf(plan).DecodeError? ==> r.calls == [] && r.diags == [ChannelsOf(plan).diag]
  {
    var s := CreateSteps(plan, c);
    if ValueBool(plan.enabled) then
      Finish(s, GroupState(c.updatedMembers(CreatedGroup(plan, c).id, MembersArgument(plan)), plan.enabled))
    else Stopped(s)
  }

  /** The calls Create means to make when each one succeeds. */
  function CreateSchedule(plan: UserGroupState, c: Client): seq<Call> {
    if ChannelsOf(plan).DecodeError? then []
    else if !ValueBool(plan.enabled) then [CreateCall(plan), DisableUserGroup(CreatedGroup(plan, c).id)]
    else if UsersOf(plan).DecodeError? then [CreateCall(plan)]
    else [CreateCall(plan), SetMembersCall(plan, c)]
  }

  /** After the channels converted, a disabled group: create, then disable. */
  lemma DisabledTailConforms(plan: UserGroupState, c: Client)
    ensures var disable := DisableUserGroup(CreatedGroup(plan, c).id);
            Conforms(c, Then(Issue(c, CreateCall(plan), "failed to create user group"),
                             Issue(c, disable, "failed to disable user group")),
                     [CreateCall(plan)] + [disable], true)
  {
    var disable := DisableUserGroup(CreatedGroup(plan, c).id);
    IssueConforms(c, CreateCall(plan), "failed to create user group");
    IssueConforms(c, disable, "failed to disable user group");
    ThenConforms(c, Issue(c, CreateCall(plan), "failed to create user group"), [CreateCall(plan)], true,
                 Issue(c, disable, "failed to disable user group"), [disable], true);
  }

  /** After the channels converted, an enabled group: create, convert the
      members, then set them. */
  lemma EnabledTailConforms(plan: UserGroupState, c: Client)
    ensures Conforms(c, Then(Issue(c, CreateCall(plan), "failed to create user group"),
                             Then(Conversion(UsersOf(plan)),
                                  Issue(c, SetMembersCall(plan, c), "failed to update user group members"))),
                     [CreateCall(plan)] + (if UsersOf(plan).Decoded? then [SetMembersCall(plan, c)] else []),
                     UsersOf(plan).Decoded?)
  {
    var setMembers := Issue(c, SetMembersCall(plan, c), "failed to update user group members");
    var sched := if UsersOf(plan).Decoded? then [SetMembersCall(plan, c)] else [];
    IssueConforms(c, CreateCall(plan), "failed to create user group");
    ConversionConforms(c, UsersOf(plan));
    IssueConforms(c, SetMembersCall(plan, c), "failed to update user group members");
    ThenConforms(c, Conversion(UsersOf(plan)), [], UsersOf(plan).Decoded?, setMembers, [SetMembersCall(plan, c)], true);
    ThenConforms(c, Issue(c, CreateCall(plan), "failed to create user group"), [CreateCall(plan)], true,
                 Then(Conversion(UsersOf(plan)), setMembers), sched, UsersOf(plan).Decoded?);
  }

  lemma CreateStepsConform(plan: UserGroupState, c: Client)
    ensures Conforms(c, CreateSteps(plan, c), CreateSchedule(plan, c),
                     ChannelsOf(plan).Decoded? && (ValueBool(plan.enabled) ==> UsersOf(plan).Decoded?))
  {
    if ChannelsOf(plan).DecodeError? {
      assert CreateSteps(plan, c) == Halt(ChannelsOf(plan).diag);
    } else if !ValueBool(plan.enabled) {
      var disable := DisableUserGroup(CreatedGroup(plan, c).id);
      var tail := Then(Issue(c, CreateCall(plan), "failed to create user group"),
                       Issue(c, disable, "failed to disable user group"));
      DisabledTailConforms(plan, c);
      ThenSkip(tail);
      assert CreateSteps(plan, c) == tail;
      assert CreateSchedule(plan, c) == [CreateCall(plan)] + [disable];
    } else {
      var tail := Then(Issue(c, CreateCall(plan), "failed to create user group"),
                       Then(Conversion(UsersOf(plan)),
                            Issue(c, SetMembersCall(plan, c), "failed to update user group members")));
      EnabledTailConforms(plan, c);
      ThenSkip(tail);
      assert CreateSteps(plan, c) == tail;
      assert CreateSchedule(plan, c) ==
        [CreateCall(plan)] + (if UsersOf(plan).Decoded? then [SetMembersCall(plan, c)] else []);
    }
  }

  /** Create issues its schedule up to the first failing call; an enabled
      group's state is written exactly when every scheduled call succeeds and
      both lists convert. A disabled group's Create reports success (no
      diagnostic) exactly when the create and disable calls succeed. */
  lemma CreateFollowsSchedule(plan: UserGroupState, c: Client)
    ensures Create(plan, c).calls == Execute(c, CreateSchedule(plan, c))
    ensures ValueBool(plan.enabled) ==>
      (Create(plan, c).state.Some? <==>
         AllSucceed(c, CreateSchedule(plan, c)) && ChannelsOf(plan).Decoded? && UsersOf(plan).Decoded?)
    ensures !ValueBool(plan.enabled) ==>
      (Create(plan, c).diags == [] <==> AllSucceed(c, CreateSchedule(plan, c)) && ChannelsOf(plan).Decoded?)
  {
    CreateStepsConform(plan, c);
  }

  /** A disabled group never has its members set. */
  lemma CreateDisabledSkipsMembers(plan: UserGroupState, c: Client)
    requires !ValueBool(plan.enabled)
    ensures forall i :: 0 <= i < |Create(plan, c).calls| ==> !Create(plan, c).calls[i].UpdateUserGroupMembers?
    ensures Create(plan, c).calls <= [CreateCall(plan), DisableUserGroup(CreatedGroup(plan, c).id)]
  {
    var calls := Create(plan, c).calls;
    var sched := [CreateCall(plan), DisableUserGroup(CreatedGroup(plan, c).id)];
    CreateFollowsSchedule(plan, c);
    ExecuteStopsAtFirstFailure(c, CreateSchedule(plan, c));
    if ChannelsOf(plan).DecodeError? {
      assert calls == [];
    } else {
      assert CreateSchedule(plan, c) == sched;
      assert forall i :: 0 <= i < |calls| ==> calls[i] == sched[i];
    }
  }

  /** An enabled group whose create call succeeds gets exactly one
      set-members call, carrying the comma-joined members; an empty member
      list is still sent, as "". */
  lemma CreateEnabledSetsMembers(plan: UserGroupState, c: Client, users: seq<string>)
    requires ValueBool(plan.enabled) && ChannelsOf(plan).Decoded?
    requires UsersOf(plan) == Decoded(users)
    requires Succeeds(c, CreateCall(plan))
    ensures Create(plan, c).calls == [CreateCall(plan), UpdateUserGroupMembers(CreatedGroup(plan, c).id, Join(users))]
    ensures users == [] ==> Create(plan, c).calls[1].members == ""
  {
    CreateFollowsSchedule(plan, c);
    assert AllSucceed(c, [CreateCall(plan)]);
    ExecuteAppend(c, [CreateCall(plan)], [SetMembersCall(plan, c)]);
  }

  /** The acceptance test's Create: the declared member "test" is sent as the
      member argument "test" to the group "test" the create reply names, and
      the state is the set-members reply's group. */
  lemma CreateTestGroup(plan: UserGroupState, c: Client)
    requires plan.channels == Known([Str("test")]) && plan.users == Known([Str("test")])
    requires plan.enabled == Known(true)
    requires CreatedGroup(plan, c) == TestUserGroup
    requires forall call :: Succeeds(c, call)
    ensures Create(plan, c).calls[1] == UpdateUserGroupMembers("test", "test")
    ensures Create(plan, c).state == Some(GroupState(c.updatedMembers("test", "test"), Known(true)))
  {
    assert UsersOf(plan) == Decoded(["test"]);
    assert Join(["test"]) == "test";
    CreateEnabledSetsMembers(plan, c, ["test"]);
  }

  // ------------------------------------------------------------------ Read

  /** Read hands the stored state back without contacting the remote side. */
  function Read(state: UserGroupState): (r: Run<UserGroupState>)
    ensures r.calls == [] && r.diags == []
    ensures r.state == Some(state)
  {
    Run([], Some(state), [])
  }

  // ---------------------------------------------------------------- Update

  function UpdateCall(plan: UserGroupState): Call {
    UpdateUserGroup(ValueString(plan.id), ValueString(plan.name), ValueString(plan.handle),
                    Values(ChannelsOf(plan)), ValueStringPointer(plan.description))
  }

  function UpdateMembersCall(plan: UserGroupState): Call {
    UpdateUserGroupMembers(ValueString(plan.id), MembersArgument(plan))
  }

  /** The calls of Update for a group declared enabled: enable it, convert
      the channels, update name, handle, channels and description, convert
      the members, and replace the member list. */
  function EnabledSteps(plan: UserGroupState, c: Client): Steps {
    Then(Issue(c, EnableUserGroup(ValueString(plan.id)), "failed to enable user group"),
    Then(Conversion(ChannelsOf(plan)),
    Then(Issue(c, UpdateCall(plan), "failed to update user group"),
    Then(Conversion(UsersOf(plan)),
         Issue(c, UpdateMembersCall(plan), "failed to update user group members")))))
  }

  /** Update of an enabled group re-applies every attribute and replaces the
      member list, writing state from the set-members reply; a disabled group
      is only disabled, and no state is written. */
  function Update(plan: UserGroupState, c: Client): (r: Run<UserGroupState>)
    ensures r.state.Some? ==> r.diags == [] && ValueBool(plan.enabled)
    ensures r.state.Some? ==>
      r.state.value == GroupState(c.updatedMembers(ValueString(plan.id), MembersArgument(plan)), plan.enabled)
    ensures !ValueBool(plan.enabled) ==>
      && r.calls == [DisableUserGroup(ValueString(plan.id))] && r.state.None?
      && (r.diags == [] <==> Succeeds(c, DisableUserGroup(ValueString(plan.id))))
  {
    if ValueBool(plan.enabled) then
      Finish(EnabledSteps(plan, c),
             GroupState(c.updatedMembers(ValueString(plan.id), MembersArgument(plan)), plan.enabled))
    else Stopped(Issue(c, DisableUserGroup(ValueString(plan.id)), "failed to disable user group"))
  }

  /** The calls an enabled Update means to make when each one succeeds. */
  function EnabledSchedule(plan: UserGroupState): seq<Call> {
    [EnableUserGroup(ValueString(plan.id))]
    + (if ChannelsOf(plan).DecodeError? then []
       else [UpdateCall(plan)] + (if UsersOf(plan).DecodeError? then [] else [UpdateMembersCall(plan)]))
  }

  /** The last stretch of an enabled Update: convert the members, then
      replace the member list. */
  lemma MembersStepConforms(plan: UserGroupState, c: Client)
    ensures Conforms(c, Then(Conversion(UsersOf(plan)), Issue(c, UpdateMembersCall(plan), "failed to update user group members")),
                     if UsersOf(plan).Decoded? then [UpdateMembersCall(plan)] else [], UsersOf(plan).Decoded?)
  {
    ConversionConforms(c, UsersOf(plan));
    IssueConforms(c, UpdateMembersCall(plan), "failed to update user group members");
    ThenConforms(c, Conversion(UsersOf(plan)), [], UsersOf(plan).Decoded?,
                 Issue(c, UpdateMembersCall(plan), "failed to update user group members"), [UpdateMembersCall(plan)], true);
  }

  lemma EnabledStepsConform(plan: UserGroupState, c: Client)
    ensures Conforms(c, EnabledSteps(plan, c), EnabledSchedule(plan),
                     ChannelsOf(plan).Decoded? && UsersOf(plan).Decoded?)
  {
    var enable, update := EnableUserGroup(ValueString(plan.id)), UpdateCall(plan);
    var members := Then(Conversion(UsersOf(plan)), Issue(c, UpdateMembersCall(plan), "failed to update user group members"));
    var updStep := Issue(c, update, "failed to update user group");
    var chOk, usOk := ChannelsOf(plan).Decoded?, UsersOf(plan).Decoded?;
    var tailUsers := if usOk then [UpdateMembersCall(plan)] else [];
    IssueConforms(c, enable, "failed to enable user group");
    IssueConforms(c, update, "failed to update user group");
    ConversionConforms(c, ChannelsOf(plan));
    MembersStepConforms(plan, c);
    ThenConforms(c, updStep, [update], true, members, tailUsers, usOk);
    ThenConforms(c, Conversion(ChannelsOf(plan)), [], chOk, Then(updStep, members), [update] + tailUsers, usOk);
    ThenConforms(c, Issue(c, enable, "failed to enable user group"), [enable], true,
                 Then(Conversion(ChannelsOf(plan)), Then(updStep, members)),
                 if chOk then [update] + tailUsers else [], chOk && usOk);
  }

  /** An enabled Update issues its schedule up to the first failing call and
      writes state exactly when every call succeeds and both lists convert. */
  lemma UpdateFollowsSchedule(plan: UserGroupState, c: Client)
    requires ValueBool(plan.enabled)
    ensures Update(plan, c).calls == Execute(c, EnabledSchedule(plan))
    ensures Update(plan, c).state.Some? <==>
            AllSucceed(c, EnabledSchedule(plan)) && ChannelsOf(plan).Decoded? && UsersOf(plan).Decoded?
  {
    EnabledStepsConform(plan, c);
  }

  /** A successful Update of an enabled group made exactly three calls: the
      enable, the attribute update with the declared values, and the full
      replacement of the member list by the declared members. */
  lemma UpdateReplacesMembers(plan: UserGroupState, c: Client, channels: seq<string>, users: seq<string>)
    requires ChannelsOf(plan) == Decoded(channels) && UsersOf(plan) == Decoded(users)
    requires Update(plan, c).state.Some?
    ensures Update(plan, c).calls ==
      [EnableUserGroup(ValueString(plan.id)),
       UpdateUserGroup(ValueString(plan.id), ValueString(plan.name), ValueString(plan.handle), channels,
                       ValueStringPointer(plan.description)),
       UpdateUserGroupMembers(ValueString(plan.id), Join(users))]
  {
    UpdateFollowsSchedule(plan, c);
  }

  // ---------------------------------------------------------------- Delete

  /** Delete disables the group; it leaves the state exactly when the
      disable call succeeds. */
  function Delete(state: UserGroupState, c: Client): (r: Removal)
    ensures r.calls == [DisableUserGroup(ValueString(state.id))]
    ensures r.Removed() <==> Succeeds(c, DisableUserGroup(ValueString(state.id)))
    ensures !r.Removed() ==>
      r.diags == [Diagnostic("failed to delete user group", FailureText(c, DisableUserGroup(ValueString(state.id))))]
  {
    var s := Issue(c, DisableUserGroup(ValueString(state.id)), "failed to delete user group");
    Removal(s.calls, Diags(s))
  }

  /** Delete is the executor run on the single disable call. */
  lemma DeleteFollowsSchedule(state: UserGroupState, c: Client)
    ensures Delete(state, c).calls == Execute(c, [DisableUserGroup(ValueString(state.id))])
    ensures Delete(state, c).Removed() <==> AllSucceed(c, [DisableUserGroup(ValueString(state.id))])
  {
    IssueConforms(c, DisableUserGroup(ValueString(state.id)), "failed to delete user group");
  }

  /** Deleting and disabling through Update make the same single call. */
  lemma DeleteIsDisable(state: UserGroupState, c: Client)
    requires !ValueBool(state.enabled)
    ensures Delete(state, c).calls == Update(state, c).calls
    ensures Delete(state, c).Removed() <==> Update(state, c).diags == []
  {
  }

  // ----------------------------------------------------------------- Import

  /** The state an import writes for a group: the enabled flag is not set. */
  function ImportedState(g: UserGroup): UserGroupState {
    GroupState(g, Null)
  }

  /** The lookup loop of Import as written: it tests the accumulator's
      identifier (still the zero group's "") against the requested one, not
      the current group's, and takes the current group when they are equal. */
  function ScanAsWritten(groups: seq<UserGroup>, id: string, acc: UserGroup): (found: UserGroup)
    ensures acc.id != id ==> found == acc
    ensures acc.id == id ==> found == if |groups| > 0 then groups[0] else acc
    decreases |groups|
  {
    if |groups| == 0 then acc
    else if acc.id == id then groups[0]
    else ScanAsWritten(groups[1..], id, acc)
  }

  /** Import as written: a failed listing adds a diagnostic and goes on with
      no groups; a scan that ends on the zero group adds "does not exist";
      otherwise the state comes from the group the scan picked. */
  function ImportStateAsWritten(id: string, c: Client): (r: Run<UserGroupState>)
    ensures r.calls == [GetUserGroups]
    ensures r.state.Some? <==> r.diags == []
    ensures id != "" ==> r.state.None? && r.diags[|r.diags| - 1] == Missing(id, "")
    ensures id == "" ==>
      (r.state.Some? <==> Succeeds(c, GetUserGroups) && |c.listing| > 0 && c.listing[0].id != "")
    ensures r.state.Some? ==> r.state.value == ImportedState(c.listing[0])
  {
    var listingDiags := if Succeeds(c, GetUserGroups) then [] else [Missing(id, FailureText(c, GetUserGroups))];
    var found := ScanAsWritten(Groups(c), id, ZeroGroup);
    if found.id == "" then Run([GetUserGroups], None, listingDiags + [Missing(id, "")])
    else Run([GetUserGroups], Some(ImportedState(found)), listingDiags)
  }

  /** Import with the lookup the data source uses: the first group whose own
      identifier is the requested one. */
  function ImportState(id: string, c: Client): (r: Run<UserGroupState>)
    ensures r.calls == [GetUserGroups]
    ensures r.state.Some? <==> r.diags == []
    ensures r.state.Some? <==> Succeeds(c, GetUserGroups) && Listed(c.listing, id)
    ensures r.state.Some? ==>
      exists i :: && 0 <= i < |c.listing| && c.listing[i].id == id
                  && (forall j :: 0 <= j < i ==> c.listing[j].id != id)
                  && r.state.value == ImportedState(c.listing[i])
    ensures !Succeeds(c, GetUserGroups) ==>
      r.diags == [Missing(id, FailureText(c, GetUserGroups)), Missing(id, "")]
    ensures Succeeds(c, GetUserGroups) && !Listed(c.listing, id) ==> r.diags == [Missing(id, "")]
  {
    var listingDiags := if Succeeds(c, GetUserGroups) then [] else [Missing(id, FailureText(c, GetUserGroups))];
    var found := Found(Groups(c), id);
    FoundIffListed(Groups(c), id);
    if found.id == "" then Run([GetUserGroups], None, listingDiags + [Missing(id, "")])
    else Run([GetUserGroups], Some(ImportedState(found)), listingDiags)
  }

  /** The imported state names the requested group and gives back its
      channels and members. */
  lemma ImportStateRoundTrip(id: string, c: Client)
    requires ImportState(id, c).state.Some?
    ensures var s := ImportState(id, c).state.value;
            var g := Found(c.listing, id);
            && s.id == Known(id)
            && DecodeStrings(Elements(s.channels), "channel") == Decoded(g.prefs.channels)
            && DecodeStrings(Elements(s.users), "user") == Decoded(g.users)
  {
    FoundIffListed(c.listing, id);
    GroupStateDecodes(Found(c.listing, id), Null);
  }

  /** The group of the resource's acceptance test. */
  const TestUserGroup: UserGroup :=
    ZeroGroup.(id := "test", name := "test", prefs := UserGroupPrefs(["test"], []), users := ["test"],
               description := "test", handle := "test", teamId := "test")

  /** Importing an existing group by its identifier: the lookup as written
      reports that it does not exist, the corrected lookup imports it. */
  lemma ImportScanMissesExistingGroup(c: Client)
    requires Succeeds(c, GetUserGroups) && c.listing == [TestUserGroup]
    ensures ImportStateAsWritten("test", c).state.None?
    ensures ImportStateAsWritten("test", c).diags == [Missing("test", "")]
    ensures ImportState("test", c).state == Some(ImportedState(TestUserGroup))
  {
    assert c.listing[0].id == "test";
  }

  /** A failed listing yields two diagnostics, the second saying the group
      does not exist. */
  lemma ImportListingFailure(id: string, c: Client)
    requires !Succeeds(c, GetUserGroups)
    ensures |ImportStateAsWritten(id, c).diags| == 2
    ensures ImportStateAsWritten(id, c).diags[1] == Missing(id, "")
  {
  }
}
