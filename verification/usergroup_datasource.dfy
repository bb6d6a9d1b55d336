/** The `usergroup` data source: list every user group of the workspace and
    describe the first one whose identifier is the configured one. The
    first-match lookup is shared with the user group resource's import. */
module UserGroupDataSource {
  import opened Wrappers
  import opened Framework
  import opened Client

  /** The position of the first group with identifier `id`, if any. */
  function FirstMatch(groups: seq<UserGroup>, id: string): (r: Option<nat>)
    ensures r.Some? ==> r.value < |groups| && groups[r.value].id == id
    ensures r.Some? ==> forall j :: 0 <= j < r.value ==> groups[j].id != id
    ensures r.None? <==> forall j :: 0 <= j < |groups| ==> groups[j].id != id
    decreases |groups|
  {
    if |groups| == 0 then None
    else if groups[0].id == id then Some(0)
    else
      match FirstMatch(groups[1..], id)
      case None =>
        assert forall j :: 1 <= j < |groups| ==> groups[j] == groups[1..][j - 1];
        None
      case Some(i) => Some(i + 1)
  }

  /** What the lookup loop leaves in its accumulator: the first group with
      identifier `id`, or Go's zero group when there is none. */
  function Found(groups: seq<UserGroup>, id: string): UserGroup {
    match FirstMatch(groups, id)
    case Some(i) => groups[i]
    case None => ZeroGroup
  }

  /** Whether a lookup of `id` ends with a group: the accumulator's identifier
      is compared with "" afterwards, so a group listed with an empty
      identifier counts as not found. */
  predicate Listed(groups: seq<UserGroup>, id: string) {
    id != "" && exists i :: 0 <= i < |groups| && groups[i].id == id
  }

  lemma FoundIffListed(groups: seq<UserGroup>, id: string)
    ensures Found(groups, id).id != "" <==> Listed(groups, id)
    ensures Found(groups, id).id != "" ==> Found(groups, id).id == id
  {
  }

  /** The listing of user groups, as the caller sees it: nil when the call
      failed. */
  function Groups(c: Client): seq<UserGroup> {
    if Succeeds(c, GetUserGroups) then c.listing else []
  }

  /** The diagnostic both lookups add when the listing fails or the group is
      missing; `shown` is the identifier as printed. */
  function Missing(shown: string, detail: string): Diagnostic {
    Diagnostic("the usergroup that has the id " + shown + " does not exist", detail)
  }

  datatype PrefsData = PrefsData(channels: Tf<seq<Elem>>, groups: Tf<seq<Elem>>)

  /** The attributes of the data source. The member count is left out. */
  datatype UserGroupData = UserGroupData(
    id: Tf<string>,
    teamId: Tf<string>,
    isUserGroup: Tf<bool>,
    name: Tf<string>,
    description: Tf<string>,
    handle: Tf<string>,
    isExternal: Tf<bool>,
    autoType: Tf<string>,
    createdBy: Tf<string>,
    updatedBy: Tf<string>,
    deletedBy: Tf<string>,
    prefs: Option<PrefsData>,
    users: Tf<seq<Elem>>)

  /** The attributes written for a group found by the lookup. */
  function Describe(g: UserGroup): UserGroupData {
    UserGroupData(Known(g.id), Known(g.teamId), Known(g.isUserGroup), Known(g.name),
                  Known(g.description), Known(g.handle), Known(g.isExternal), Known(g.autoType),
                  Known(g.createdBy), Known(g.updatedBy), Known(g.deletedBy),
                  Some(PrefsData(Known(StrList(g.prefs.channels)), Known(StrList(g.prefs.groups)))),
                  Known(StrList(g.users)))
  }

  /** Reading a group back from its attributes. */
  function Recover(d: UserGroupData): UserGroup {
    var prefs := if d.prefs.Some? then d.prefs.value else PrefsData(Null, Null);
    UserGroup(ValueString(d.id), ValueString(d.teamId), ValueBool(d.isUserGroup), ValueString(d.name),
              ValueString(d.description), ValueString(d.handle), ValueBool(d.isExternal),
              ValueString(d.autoType), ValueString(d.createdBy), ValueString(d.updatedBy),
              ValueString(d.deletedBy),
              UserGroupPrefs(Values(DecodeStrings(Elements(prefs.channels), "channel")),
                             Values(DecodeStrings(Elements(prefs.groups), "group"))),
              0, Values(DecodeStrings(Elements(d.users), "user")))
  }

  /** The attributes keep everything about a group but its member count. */
  lemma DescribeRecover(g: UserGroup)
    ensures Recover(Describe(g)) == g.(userCount := 0)
  {
    DecodeStrList(g.prefs.channels, "channel");
    DecodeStrList(g.prefs.groups, "group");
    DecodeStrList(g.users, "user");
  }

  /** Read lists the groups and describes the first one with the configured
      identifier. A failed listing and a missing group each add a
      diagnostic, and nothing is written once either was added. */
  function Read(config: UserGroupData, c: Client): (r: Run<UserGroupData>)
    ensures r.calls == [GetUserGroups]
    ensures r.state.Some? <==> r.diags == []
    ensures r.state.Some? <==> Succeeds(c, GetUserGroups) && Listed(c.listing, ValueString(config.id))
    ensures r.state.Some? ==>
      exists i :: && 0 <= i < |c.listing| && c.listing[i].id == ValueString(config.id)
                  && (forall j :: 0 <= j < i ==> c.listing[j].id != ValueString(config.id))
                  && r.state.value == Describe(c.listing[i])
    ensures !Succeeds(c, GetUserGroups) ==>
      r.diags == [Missing(Display(config.teamId), FailureText(c, GetUserGroups)), Missing(Display(config.id), "")]
    ensures Succeeds(c, GetUserGroups) && !Listed(c.listing, ValueString(config.id)) ==>
      r.diags == [Missing(Display(config.id), "")]
  {
    var id := ValueString(config.id);
    var listingDiags := if Succeeds(c, GetUserGroups) then [] else [Missing(Display(config.teamId), FailureText(c, GetUserGroups))];
    var found := Found(Groups(c), id);
    var missingDiags := if found.id == "" then [Missing(Display(config.id), "")] else [];
    var diags := listingDiags + missingDiags;
    FoundIffListed(Groups(c), id);
    Run([GetUserGroups], if diags == [] then Some(Describe(found)) else None, diags)
  }

  /** The group of the data source's acceptance test. */
  const TestGroup: UserGroup :=
    UserGroup("test", "test", true, "test", "test", "admins", true, "test", "test", "test", "test",
              UserGroupPrefs(["test"], ["test"]), 1, ["test"])

  /** Looking up "test" in a listing holding only the test group writes that
      group's attributes. */
  lemma ReadTestGroup(config: UserGroupData, c: Client)
    requires config.id == Known("test")
    requires Succeeds(c, GetUserGroups) && c.listing == [TestGroup]
    ensures Read(config, c).state.Some?
    ensures var d := Read(config, c).state.value;
            && d.id == Known("test") && d.handle == Known("admins")
            && d.isUserGroup == Known(true) && d.isExternal == Known(true)
            && d.users == Known([Str("test")])
            && d.prefs == Some(PrefsData(Known([Str("test")]), Known([Str("test")])))
  {
    assert c.listing[0].id == "test";
    assert StrList(["test"]) == [Str("test")];
  }
}
