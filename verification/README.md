# Slack provider resource lifecycles, modelled in Dafny

This project models the lifecycle logic of a Terraform provider for Slack:

- the `slack_conversation` resource: Create, Read, Update, Delete and Import;
- the `slack_usergroup` resource: Create, Read, Update, Delete and Import;
- the `slack_usergroup` data source: Read.

Each operation is a short sequence of remote calls. Go's
`if err != nil { AddError; return }` stops it at the first failure, and
nothing that already happened is undone.

The remote workspace client is an oracle (`Client.Client`):
- `failure` tells, for each call with its arguments, whether it fails and with what error text;
- the other fields give the reply values the operations read.

An operation returns a `Run`: the calls it issued, the state it wrote (if any)
and the diagnostics it added. A Delete returns a `Removal`.

The operations that chain several calls have an independent reference:
- `Client.Execute` issues a schedule of calls up to and including the first one that fails.
- The `…FollowsSchedule` lemmas prove that an operation is that executor run on the operation's own schedule. They cover Create and Delete of both resources, conversation Update, and user group Update for an enabled plan.
- The other operations state their calls directly in their contracts: a disabled user group Update, both Imports and the data source Read.
- Further lemmas state what the schedules contain: membership reconciliation, disable short-circuits, close versus archive.
- Some lemmas replay the values of the repository's acceptance tests: `Text.TestMembersArgument`, `Conversation.UpdateTestMembers`, `UserGroupResource.CreateTestGroup`, `UserGroupDataSource.ReadTestGroup` and `UserGroupResource.ImportScanMissesExistingGroup`.
- `Conversation.CreateScenario` and `Conversation.UpdateScenario` use small values of their own, not taken from any test.

Modules, one per file:

| file | module | what it holds |
|---|---|---|
| wrappers.dfy | Wrappers | `Option` |
| text.dfy | Text | Go's `strings.Join`, `strings.TrimRight(s, ",")` and `strings.Split`, and the `acc += m + ","` loop |
| framework.dfy | Framework | nullable attribute values, conversion of list elements to strings, diagnostics |
| client.dfy | Client | the client oracle, the call record, the reference executor, the step combinators |
| reconcile.dfy | Reconcile | Go map iteration and the membership difference of conversation Update |
| conversation.dfy | Conversation | the conversation resource |
| usergroup_datasource.dfy | UserGroupDataSource | the first-match lookup and the data source |
| usergroup.dfy | UserGroupResource | the user group resource |

Go's map iteration order is chosen by the runtime, so it is an input of the model (`Reconcile.MapOrder`).
- `Reconcile.MapIteration` turns such an order into the keys actually visited.
- `Reconcile.MapIterationFollowsHint` shows that every visiting order can be reached.

Two behaviours of the code worth stating:
- Conversation Create issues the invite call whenever a member list is declared, even an empty one (`if !plan.Members.IsNull()`). It sends the argument "".
- Conversation Update writes the declared member list back unchanged; it does not write the membership it observed.

## Model

| member | source | states |
|---|---|---|
| Text.TrimRight | internal/resource_conversation.go:170 | the result is a prefix of the input with no trailing comma, and only commas were cut |
| Text.CommaTerminatedEmpty | internal/resource_conversation.go:245-259 | the accumulated invite argument is empty exactly when nobody is to be invited, so the `!= ""` test skips the invite exactly then |
| Text.TrimmedAccumulationIsJoin | internal/resource_conversation.go:156-170 | trimming the comma-terminated accumulation equals the comma join exactly when that join does not end in a comma |
| Text.TrimmedAccumulationIsJoinForPlainLast | internal/resource_conversation.go:156-170 | when the last member is non-empty and does not end in a comma, the trimmed accumulation is the comma join |
| Text.TrimmedSingle | internal/resource_conversation.go:246-260 | a single member that does not end in a comma is sent as itself |
| Text.SplitJoin | internal/resource_usergroup.go:210 | splitting the comma join of comma-free members at commas gives the members back |
| Text.TestMembersArgument | internal/resource_conversation_test.go:39 | members test and test2 give the invite argument "test,test2" |
| Framework.DecodeStrings | internal/resource_usergroup.go:157-169 | an element list converts exactly when every element is a string; the values are the strings in order; otherwise the diagnostic is the first failing element's, naming the failing step |
| Framework.DecodeStrList | internal/resource_conversation.go:95-99 | the list of string values Import builds from the member identifiers converts back to exactly those identifiers |
| Client.ExecuteStopsAtFirstFailure | internal/resource_conversation.go:207-223 | the reference executor issues a prefix of the schedule; every issued call but the last succeeds; the whole schedule is issued when every call succeeds, otherwise it stops on a failing call |
| Client.ExecuteAppend | internal/resource_conversation.go:207-223 | executing two schedules back to back runs the second only when every call of the first succeeds |
| Client.AllSucceedConcat | internal/resource_conversation.go:207-223 | a concatenated schedule succeeds exactly when both parts succeed |
| Client.IssueConforms | internal/resource_conversation.go:208-211 | one call followed by `if err != nil { AddError; return }` is the executor run on that call alone, and ends the operation exactly when the call fails |
| Client.ThenConforms | internal/resource_conversation.go:207-223 | an early-return sequence of two stretches behaves like the executor on their schedules concatenated |
| Reconcile.MapIteration | internal/resource_conversation.go:246 | ranging over a Go map visits every key once |
| Reconcile.MapIterationFollowsHint | internal/resource_conversation.go:246-257 | any order listing each key once is a possible visiting order |
| Reconcile.Outside | internal/resource_conversation.go:246-257 | filtering out a set keeps the other elements, without repeats |
| Reconcile.DeltaLaws | internal/resource_conversation.go:245-257 | removing the members to kick from the remote ones and adding the members to invite gives the declared set; nobody invited is present, nobody kicked is declared, and nobody is both |
| Reconcile.Invitees | internal/resource_conversation.go:245-250 | the members invited are each declared-but-absent member, once |
| Reconcile.Kicked | internal/resource_conversation.go:252-257 | the members kicked are each present-but-undeclared member, once |
| Conversation.CreateAsWritten | internal/resource_conversation.go:176-183 | Create as written takes the topic and purpose from the create reply |
| Conversation.Create | internal/resource_conversation.go:124-187 | state only after the create call succeeded, with identifier and privacy from the reply, and topic, purpose and members as declared |
| Conversation.CreateStepsConform | internal/resource_conversation.go:131-173 | Create's calls are the executor run on create, optional topic, optional purpose and optional invite |
| Conversation.CreateFollowsSchedule | internal/resource_conversation.go:131-186 | Create issues its schedule up to the first failure and writes state exactly when all calls succeed and the members convert |
| Conversation.CreateInvitesEmptyList | internal/resource_conversation.go:155-173 | a declared empty member list still issues the invite call, with argument "" |
| Conversation.CreateAsWrittenLosesTopic | internal/resource_conversation.go:176-183 | for every declared topic the create reply does not echo, the topic is lost as written and kept after correction |
| Conversation.CreateScenario | internal/resource_conversation.go:124-187 | creating "eng" with topic "roadmap" and members u1, u2 issues create, set-topic and one invite with "u1,u2", and keeps the declared topic |
| Conversation.Read | internal/resource_conversation.go:189-198 | Read makes no call and writes the state it was given |
| Conversation.KickEachConforms | internal/resource_conversation.go:266-271 | the kick loop is the executor run on one kick per user, in order |
| Conversation.ReconciliationConforms | internal/resource_conversation.go:230-271 | the membership part of Update is the executor run on the optional invite and then the kicks |
| Conversation.UpdateStepsConform | internal/resource_conversation.go:207-271 | Update's calls are the executor run on topic, purpose, fetch and the membership calls |
| Conversation.UpdateFollowsSchedule | internal/resource_conversation.go:200-284 | Update issues its schedule up to the first failure and writes state exactly when all calls succeed and the members convert |
| Conversation.Update | internal/resource_conversation.go:273-283 | Update writes the plan unchanged, exactly when no diagnostic was added |
| Conversation.UpdateCallsOnSuccess | internal/resource_conversation.go:207-271 | a successful Update made the head calls, the invite (if any) and the kicks, in that order |
| Conversation.MembershipRecord | internal/resource_conversation.go:259-271 | in such a record the kicks name exactly the kicked users and the invites are exactly the invite step |
| Conversation.UpdateRecord | internal/resource_conversation.go:207-271 | a successful Update starts with topic, purpose and fetch, puts its invite call (if any) right after them, and its kicks name exactly the users to kick |
| Conversation.UpdateReconciles | internal/resource_conversation.go:225-271 | the members to invite and to kick are disjoint; a successful Update kicks once each member present in the member listing's first page but not declared (as many kicks as such members), and makes one invite carrying once each declared member missing from that first page, right after the fetch, or no invite when nobody is missing |
| Conversation.UpdateTestMembers | internal/resource_conversation_test.go:40-41 | with test and test2 declared and test, test2, test3 present, nobody is invited and test3 alone is kicked |
| Conversation.UpdateScenario | internal/resource_conversation.go:245-271 | with a, b, c present and a, d declared, one invite carries "d" and b and c are each kicked once |
| Conversation.UpdateIdempotent | internal/resource_conversation.go:225-271 | with the member set of the listing's first page equal to the declared one, Update makes only topic, purpose and fetch |
| Conversation.Delete | internal/resource_conversation.go:286-319 | Delete fetches the conversation, then closes a direct message or archives anything else; it removes the resource exactly when that call succeeds |
| Conversation.DeleteFollowsSchedule | internal/resource_conversation.go:286-319 | Delete is the executor run on the fetch and then the close or archive the fetched conversation calls for; it removes the resource exactly when both calls succeed |
| Conversation.DeleteCloseOutcome | internal/resource_conversation.go:305-312 | a failing close still removes the resource exactly when the reply says it was already closed |
| Conversation.ImportState | internal/resource_conversation.go:71-115 | Import is the executor run on the info call and then the members call; it writes state exactly when both succeed, with every field from the replies and a member list that converts back to the members |
| Conversation.ImportDependsOnRepliesOnly | internal/resource_conversation.go:71-115 | Import depends only on the remote side's answers about the requested identifier |
| Conversation.ImportThenUpdateIsQuiet | internal/resource_conversation.go:71-115 | an Update right after an Import, against the same first page of members, invites and kicks nobody |
| UserGroupDataSource.FirstMatch | internal/datasource_usergroup.go:139-145 | the lookup finds the first group with the identifier, or reports that none has it |
| UserGroupDataSource.DescribeRecover | internal/datasource_usergroup.go:154-201 | the written attributes give back every field of the group but its member count |
| UserGroupDataSource.Read | internal/datasource_usergroup.go:121-205 | the data source writes state exactly when the listing succeeds and some group has the non-empty configured identifier, and then describes the first such group; a failed listing yields both diagnostics; a listing that succeeds without a match adds only the not-found diagnostic |
| UserGroupDataSource.ReadTestGroup | internal/datasource_usergroup_test.go:15-56 | the test's listing yields the test group's attributes |
| UserGroupResource.GroupStateDecodes | internal/resource_usergroup.go:217-246 | the written state gives back the group's channels and members |
| UserGroupResource.Create | internal/resource_usergroup.go:149-250 | state only for an enabled group, from the set-members reply with the declared enabled flag; no call when a channel does not convert |
| UserGroupResource.CreateStepsConform | internal/resource_usergroup.go:157-214 | Create's calls are the executor run on create then disable, or on create then set-members |
| UserGroupResource.CreateFollowsSchedule | internal/resource_usergroup.go:149-250 | Create issues its schedule up to the first failure; for an enabled group state is written exactly when all calls succeed and both lists convert |
| UserGroupResource.CreateDisabledSkipsMembers | internal/resource_usergroup.go:186-193 | a group declared disabled is created and disabled, and never has its members set |
| UserGroupResource.CreateEnabledSetsMembers | internal/resource_usergroup.go:195-215 | an enabled group gets exactly one set-members call with the comma join of the members, "" for none |
| UserGroupResource.CreateTestGroup | internal/resource_usergroup_test.go:32-35 | the test's plan sends member argument "test" to group "test" |
| UserGroupResource.Read | internal/resource_usergroup.go:252-261 | Read makes no call and writes the state it was given |
| UserGroupResource.Update | internal/resource_usergroup.go:263-364 | a disabled group is only disabled and no state is written; an enabled group's state comes from the set-members reply |
| UserGroupResource.MembersStepConforms | internal/resource_usergroup.go:309-330 | converting the members then setting them is the executor run on the set-members call |
| UserGroupResource.EnabledStepsConform | internal/resource_usergroup.go:271-330 | an enabled Update's calls are the executor run on enable, update and set-members |
| UserGroupResource.UpdateFollowsSchedule | internal/resource_usergroup.go:271-330 | an enabled Update writes state exactly when all calls succeed and both lists convert |
| UserGroupResource.UpdateReplacesMembers | internal/resource_usergroup.go:271-330 | a successful enabled Update made enable, the attribute update with the declared values, and one set-members call with the joined declared members |
| UserGroupResource.Delete | internal/resource_usergroup.go:366-378 | Delete is one disable call and removes the resource exactly when it succeeds |
| UserGroupResource.DeleteFollowsSchedule | internal/resource_usergroup.go:366-378 | Delete is the executor run on the single disable call and removes the resource exactly when it succeeds |
| UserGroupResource.DeleteIsDisable | internal/resource_usergroup.go:276-282 | deleting makes the same call as a disabling Update and succeeds exactly when it does |
| UserGroupResource.ScanAsWritten | internal/resource_usergroup.go:93-99 | the scan as written keeps the zero group unless the requested identifier equals the zero group's, and then takes the first group |
| UserGroupResource.ImportStateAsWritten | internal/resource_usergroup.go:80-140 | Import as written finds nothing for any non-empty identifier, and for "" imports the first listed group when that group's identifier is non-empty |
| UserGroupResource.ImportState | internal/resource_usergroup.go:80-140 | corrected Import writes state exactly when the listing succeeds and some group has the non-empty identifier, from the first such group; a listing that succeeds without a match adds only the not-found diagnostic |
| UserGroupResource.ImportStateRoundTrip | internal/resource_usergroup.go:108-138 | the imported state names the requested group and gives back its channels and members |
| UserGroupResource.ImportScanMissesExistingGroup | internal/resource_usergroup.go:93-106 | with group "test" listed, Import of "test" as written reports that it does not exist; the corrected one imports it |
| UserGroupResource.ImportListingFailure | internal/resource_usergroup.go:81-106 | a failed listing yields two diagnostics, the second saying the group does not exist |

## Left out

- Reading the plan, configuration or state (`req.Plan.Get`, `req.State.Get`) and writing it (`res.State.Set`): assumed to succeed, because they belong to the plugin framework.
- The request context, `Metadata`, `Schema`, `Configure`, the provider (internal/provider.go), main.go and the generated mock: wiring, not lifecycle logic.
- The conversation and user data sources (internal/datasource_conversation.go, internal/datasource_user.go) are not part of this model.
- Unknown attribute values: a value is null or known. Whether the framework leaves the identifier unknown during Update is not modelled.
- `types.ListValue` over plain strings never reports a diagnostic, so those checks are not modelled.
- `UserGroupDataSource.Groups` treats a failed listing as returning no groups. The slack-go client does return none then, but the client interface (internal/provider.go:23) does not promise it.
- The `user_count` attribute of the data source: it is a floating-point number.
- Reply values the operations ignore (the channel returned by the topic, purpose and invite calls, and the group returned by enable, disable and update) are not represented.
- Conversation.ImportState and Conversation.Update: read only the first page of members (resource_conversation.go:84, :218). The source ignores the pagination cursor, and so does the model (`Client.Client.members` is that first page). With more members than one page holds, Update never kicks undeclared members on later pages, and invites again declared members already there.
- Framework.Display: adds quotes around the value without Go's `%q` escaping.
- UserGroupResource.Create: a group created disabled writes no state and adds no diagnostic. What the framework then does with the missing state is not modelled.
- The listing and membership calls' option arguments (include users, include count, include disabled) are not represented.

## Findings

| source | as written | input that shows it | evidently intended | confidence | as-written member | corrected member |
|---|---|---|---|---|---|---|
| internal/resource_usergroup.go:95 | the lookup tests the accumulator `userGroup.ID == req.ID`, which is still the zero group's "" | Import of "test" with group "test" listed reports "does not exist"; Import of "" takes the first listed group | `ug.ID == req.ID`, the lookup the data source makes at internal/datasource_usergroup.go:141 | high; not executed | UserGroupResource.ImportStateAsWritten | UserGroupResource.ImportState |
| internal/resource_conversation.go:176-183 | the topic and purpose written after Create come from the create reply, before the topic and purpose calls | topic "roadmap" declared and a create reply whose topic is "": the state says "" | the declared topic and purpose, as Update writes them | medium; not executed | Conversation.CreateAsWritten | Conversation.Create |

`UserGroupResource.ImportScanMissesExistingGroup` shows the first row on the acceptance test's group. `Conversation.CreateAsWrittenLosesTopic` shows the second.
