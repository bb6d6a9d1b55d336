/** The remote workspace client the resources drive, abstracted as an oracle
    that answers each call, together with the record of calls an operation
    issues and a reference executor for "stop at the first failing call". */
module Client {
  import opened Wrappers
  import opened Framework

  /** The fields of a conversation reply the resources read. */
  datatype Channel = Channel(
    id: string,
    name: string,
    topic: string,
    purpose: string,
    isPrivate: bool,
    user: string,    // set for a direct message
    isMpIM: bool)    // a multi-person direct message

  datatype UserGroupPrefs = UserGroupPrefs(channels: seq<string>, groups: seq<string>)

  /** A user group as the remote side describes it. */
  datatype UserGroup = UserGroup(
    id: string,
    teamId: string,
    isUserGroup: bool,
    name: string,
    description: string,
    handle: string,
    isExternal: bool,
    autoType: string,
    createdBy: string,
    updatedBy: string,
    deletedBy: string,
    prefs: UserGroupPrefs,
    userCount: int,
    users: seq<string>)

  /** Go's zero value of a user group: what a scan that finds nothing leaves. */
  const ZeroGroup: UserGroup :=
    UserGroup("", "", false, "", "", "", false, "", "", "", "", UserGroupPrefs([], []), 0, [])

  /** One remote call with the arguments it was issued with. */
  datatype Call =
    | CreateConversation(name: string, isPrivate: bool)
    | SetTopic(channel: string, topic: string)
    | SetPurpose(channel: string, purpose: string)
    | InviteUsers(channel: string, users: string)
    | GetUsersInConversation(channel: string)
    | KickUser(channel: string, user: string)
    | GetConversationInfo(channel: string)
    | CloseConversation(channel: string)
    | ArchiveConversation(channel: string)
    | CreateUserGroup(spec: UserGroup)
    | GetUserGroups
    | UpdateUserGroup(group: string, name: string, handle: string, channels: seq<string>, description: Option<string>)
    | UpdateUserGroupMembers(group: string, members: string)
    | EnableUserGroup(group: string)
    | DisableUserGroup(group: string)

  /** The remote side, as an oracle. `failure` gives the error each call
      would report (None when it succeeds); the other fields give the reply
      values the resources read from calls that succeed. Replies the
      resources ignore are not represented. */
  datatype Client = Client(
    failure: Call -> Option<string>,
    alreadyClosed: string -> bool,          // the flag a failing close reports
    created: (string, bool) -> Channel,     // create conversation
    info: string -> Channel,                // conversation info
    members: string -> seq<string>,         // users in a conversation (first page)
    createdGroup: UserGroup -> UserGroup,   // create user group
    listing: seq<UserGroup>,                // list user groups
    updatedMembers: (string, string) -> UserGroup)  // set user group members

  /** Whether the operations treat the client's reply to `call` as success:
      no error, or, for a close, an error saying the conversation was already
      closed. */
  predicate Succeeds(c: Client, call: Call) {
    c.failure(call).None? || (call.CloseConversation? && c.alreadyClosed(call.channel))
  }

  predicate AllSucceed(c: Client, calls: seq<Call>) {
    forall i :: 0 <= i < |calls| ==> Succeeds(c, calls[i])
  }

  /** A schedule all succeeds when its first call and the rest do. */
  lemma AllSucceedCons(c: Client, a: seq<Call>)
    requires |a| > 0
    ensures AllSucceed(c, a) <==> Succeeds(c, a[0]) && AllSucceed(c, a[1..])
  {
    assert forall i :: 1 <= i < |a| ==> a[i] == a[1..][i - 1];
  }

  /** Reference semantics of an abort-on-first-error operation: the calls of
      `schedule` are issued in order up to and including the first one that
      fails, and none after it (ExecuteStopsAtFirstFailure). */
  function Execute(c: Client, schedule: seq<Call>): (issued: seq<Call>)
    ensures |issued| <= |schedule|
    decreases |schedule|
  {
    if |schedule| == 0 then []
    else if Succeeds(c, schedule[0]) then [schedule[0]] + Execute(c, schedule[1..])
    else [schedule[0]]
  }

  /** The executor issues a prefix of the schedule: all of it when every call
      succeeds, and otherwise up to and including the first failing call. */
  lemma {:induction false} ExecuteStopsAtFirstFailure(c: Client, schedule: seq<Call>)
    ensures Execute(c, schedule) <= schedule
    ensures forall i :: 0 <= i < |Execute(c, schedule)| - 1 ==> Succeeds(c, Execute(c, schedule)[i])
    ensures AllSucceed(c, schedule) ==> Execute(c, schedule) == schedule
    ensures !AllSucceed(c, schedule) ==>
      |Execute(c, schedule)| > 0 && !Succeeds(c, Execute(c, schedule)[|Execute(c, schedule)| - 1])
    decreases |schedule|
  {
    if |schedule| > 0 {
      AllSucceedCons(c, schedule);
      if Succeeds(c, schedule[0]) {
        var rest := Execute(c, schedule[1..]);
        ExecuteStopsAtFirstFailure(c, schedule[1..]);
        assert Execute(c, schedule) == [schedule[0]] + rest;
        assert forall i :: 1 <= i < |rest| + 1 ==> ([schedule[0]] + rest)[i] == rest[i - 1];
        assert schedule == [schedule[0]] + schedule[1..];
      }
    }
  }

  /** Running two schedules back to back. */
  lemma {:induction false} ExecuteAppend(c: Client, a: seq<Call>, b: seq<Call>)
    ensures Execute(c, a + b) == if AllSucceed(c, a) then a + Execute(c, b) else Execute(c, a)
    decreases |a|
  {
    if |a| == 0 {
      assert a + b == b;
    } else {
      assert (a + b)[0] == a[0];
      assert (a + b)[1..] == a[1..] + b;
      AllSucceedCons(c, a);
      if Succeeds(c, a[0]) {
        ExecuteAppend(c, a[1..], b);
        if AllSucceed(c, a[1..]) {
          calc {
            Execute(c, a + b);
            [a[0]] + Execute(c, a[1..] + b);
            [a[0]] + (a[1..] + Execute(c, b));
            { assert a == [a[0]] + a[1..]; }
            a + Execute(c, b);
          }
        }
      }
    }
  }

  lemma AllSucceedConcat(c: Client, a: seq<Call>, b: seq<Call>)
    ensures AllSucceed(c, a + b) <==> AllSucceed(c, a) && AllSucceed(c, b)
  {
    if AllSucceed(c, a) && AllSucceed(c, b) {
      forall i | 0 <= i < |a + b| ensures Succeeds(c, (a + b)[i]) {
        if i >= |a| { assert (a + b)[i] == b[i - |a|]; }
      }
    }
    if AllSucceed(c, a + b) {
      forall i | 0 <= i < |a| ensures Succeeds(c, a[i]) {
        assert (a + b)[i] == a[i];
      }
      forall i | 0 <= i < |b| ensures Succeeds(c, b[i]) {
        assert (a + b)[|a| + i] == b[i];
      }
    }
  }

  /** The error text of the client's reply to `call`. */
  function FailureText(c: Client, call: Call): string {
    if c.failure(call).Some? then c.failure(call).value else ""
  }

  /** A stretch of an operation: the calls it issued and the diagnostic that
      ended the operation, if one did. */
  datatype Steps = Steps(calls: seq<Call>, failure: Option<Diagnostic>)

  /** Issue one call; a failing reply adds the error diagnostic `summary` with
      the client's error text as detail, and ends the operation. */
  function Issue(c: Client, call: Call, summary: string): (s: Steps)
    ensures s.calls == [call]
    ensures s.failure.None? <==> Succeeds(c, call)
    ensures s.failure.Some? ==> s.failure.value.summary == summary
  {
    if Succeeds(c, call) then Steps([call], None)
    else Steps([call], Some(Diagnostic(summary, FailureText(c, call))))
  }

  /** A stretch that does nothing. */
  const Skip: Steps := Steps([], None)

  /** A stretch that ends the operation without a call (a value that does not
      convert). */
  function Halt(d: Diagnostic): Steps {
    Steps([], Some(d))
  }

  /** Converting a declared list before the calls that use it: a value that
      does not convert ends the operation with its diagnostic. */
  function Conversion(r: Decoded): Steps {
    if r.DecodeError? then Halt(r.diag) else Skip
  }

  /** The values of a conversion, or none when it failed (they are not read
      then, because the operation has ended). */
  function Values(r: Decoded): seq<string> {
    if r.Decoded? then r.values else []
  }

  /** Go's `if err != nil { …; return }`: `b` runs only when `a` did not end
      the operation. */
  function Then(a: Steps, b: Steps): (r: Steps) {
    if a.failure.Some? then a else Steps(a.calls + b.calls, b.failure)
  }

  function Diags(s: Steps): seq<Diagnostic> {
    if s.failure.Some? then [s.failure.value] else []
  }

  /** `s` behaves like the reference executor on `schedule`; `ok` is false
      when the stretch ends on a value that does not convert, after the
      schedule's calls. */
  predicate Conforms(c: Client, s: Steps, schedule: seq<Call>, ok: bool) {
    && s.calls == Execute(c, schedule)
    && (s.failure.None? <==> ok && AllSucceed(c, schedule))
  }

  lemma IssueConforms(c: Client, call: Call, summary: string)
    ensures Conforms(c, Issue(c, call, summary), [call], true)
  {
    assert Execute(c, [call])[..1] == [call];
  }

  lemma SkipConforms(c: Client)
    ensures Conforms(c, Skip, [], true)
  {
  }

  /** A stretch that does nothing can be dropped in front of another. */
  lemma ThenSkip(b: Steps)
    ensures Then(Skip, b) == b
  {
    assert [] + b.calls == b.calls;
  }

  lemma HaltConforms(c: Client, d: Diagnostic)
    ensures Conforms(c, Halt(d), [], false)
  {
  }

  lemma ConversionConforms(c: Client, r: Decoded)
    ensures Conforms(c, Conversion(r), [], r.Decoded?)
  {
  }

  /** Sequencing two stretches is executing their schedules back to back;
      a stretch that ended on an unconvertible value cuts the schedule there. */
  lemma ThenConforms(c: Client, a: Steps, sa: seq<Call>, oka: bool, b: Steps, sb: seq<Call>, okb: bool)
    requires Conforms(c, a, sa, oka) && Conforms(c, b, sb, okb)
    ensures Conforms(c, Then(a, b), if oka then sa + sb else sa, oka && okb)
  {
    if oka {
      ExecuteStopsAtFirstFailure(c, sa);
      ExecuteAppend(c, sa, sb);
      AllSucceedConcat(c, sa, sb);
    }
  }

  /** The outcome of a Create, Read, Update or Import: the calls issued, the
      state written (if any) and the diagnostics added. */
  datatype Run<+S> = Run(calls: seq<Call>, state: Option<S>, diags: seq<Diagnostic>)

  /** The outcome of a stretch that writes `state` when it completes. */
  function Finish<S>(s: Steps, state: S): (r: Run<S>)
    ensures r.calls == s.calls
    ensures r.state.Some? <==> s.failure.None?
    ensures r.state.Some? ==> r.state.value == state
    ensures r.diags == [] <==> s.failure.None?
  {
    Run(s.calls, if s.failure.None? then Some(state) else None, Diags(s))
  }

  /** The outcome of a stretch that writes no state. */
  function Stopped<S>(s: Steps): (r: Run<S>)
    ensures r.calls == s.calls && r.state.None?
    ensures r.diags == [] <==> s.failure.None?
  {
    Run(s.calls, None, Diags(s))
  }

  /** The outcome of a Delete: the resource leaves the state exactly when no
      diagnostic was added. */
  datatype Removal = Removal(calls: seq<Call>, diags: seq<Diagnostic>) {
    predicate Removed() {
      diags == []
    }
  }
}
