/** The string plumbing the resources use to build the comma-separated member
    arguments of bulk remote calls: Go's `strings.Join`, `strings.TrimRight`
    with a one-character cut set, and the "append a comma after every member"
    accumulation of the conversation resource. */
module Text {

  const Comma: char := ','

  /** Go `strings.Join(parts, ",")`. */
  function Join(parts: seq<string>): string
    decreases |parts|
  {
    if |parts| == 0 then ""
    else if |parts| == 1 then parts[0]
    else parts[0] + [Comma] + Join(parts[1..])
  }

  /** The loop `acc += member + ","` over `parts`. */
  function CommaTerminated(parts: seq<string>): string
    decreases |parts|
  {
    if |parts| == 0 then "" else parts[0] + [Comma] + CommaTerminated(parts[1..])
  }

  /** The accumulation is empty exactly when there is no member, which is
      what Update's `commaSeparatedMembers != ""` test relies on. */
  lemma CommaTerminatedEmpty(parts: seq<string>)
    ensures CommaTerminated(parts) == "" <==> |parts| == 0
  {
  }

  /** Go `strings.TrimRight(s, ",")`: drops every trailing comma. */
  function TrimRight(s: string): (r: string)
    ensures |r| <= |s| && r == s[..|r|]
    ensures |r| == 0 || r[|r| - 1] != Comma
    ensures forall i :: |r| <= i < |s| ==> s[i] == Comma
    decreases |s|
  {
    if |s| > 0 && s[|s| - 1] == Comma then TrimRight(s[..|s| - 1]) else s
  }

  predicate EndsWithComma(s: string) {
    |s| > 0 && s[|s| - 1] == Comma
  }

  /** Go `strings.Split(s, ",")`: the pieces between commas, so "" gives [""]. */
  function Split(s: string): (r: seq<string>)
    ensures |r| >= 1
    decreases |s|
  {
    if |s| == 0 then [""]
    else if s[0] == Comma then [""] + Split(s[1..])
    else
      var rest := Split(s[1..]);
      [[s[0]] + rest[0]] + rest[1..]
  }

  predicate NoComma(s: string) {
    forall i :: 0 <= i < |s| ==> s[i] != Comma
  }

  /** TrimRight removes nothing from a string that does not end in a comma. */
  lemma TrimRightKeeps(s: string)
    requires !EndsWithComma(s)
    ensures TrimRight(s) == s
  {
  }

  /** Cutting a trailing comma before trimming changes nothing. */
  lemma TrimRightAfterComma(s: string)
    ensures TrimRight(s + [Comma]) == TrimRight(s)
  {
    assert (s + [Comma])[..|s|] == s;
  }

  /** The comma-terminated accumulation is the join with one more comma. */
  lemma {:induction false} CommaTerminatedIsJoinPlusComma(parts: seq<string>)
    requires |parts| > 0
    ensures CommaTerminated(parts) == Join(parts) + [Comma]
    decreases |parts|
  {
    if |parts| == 1 {
      assert CommaTerminated(parts[1..]) == "";
    } else {
      CommaTerminatedIsJoinPlusComma(parts[1..]);
      assert CommaTerminated(parts) == parts[0] + [Comma] + (Join(parts[1..]) + [Comma]);
    }
  }

  /** The conversation resource's `TrimRight(acc, ",")` agrees with `Join`
      exactly when the join does not itself end in a comma, that is, unless
      the last member ends in a comma or is empty behind other members. */
  lemma TrimmedAccumulationIsJoin(parts: seq<string>)
    ensures TrimRight(CommaTerminated(parts)) == Join(parts) <==> !EndsWithComma(Join(parts))
  {
    if |parts| > 0 {
      CommaTerminatedIsJoinPlusComma(parts);
      TrimRightAfterComma(Join(parts));
      if !EndsWithComma(Join(parts)) {
        TrimRightKeeps(Join(parts));
      }
    }
  }

  /** The same agreement under the plain condition the member lists meet in
      practice: the last member is a non-empty string with no trailing comma. */
  lemma TrimmedAccumulationIsJoinForPlainLast(parts: seq<string>)
    requires |parts| > 0 ==> |parts[|parts| - 1]| > 0 && !EndsWithComma(parts[|parts| - 1])
    ensures TrimRight(CommaTerminated(parts)) == Join(parts)
  {
    if |parts| > 0 {
      JoinEndsWithLast(parts);
    }
    TrimmedAccumulationIsJoin(parts);
  }

  lemma {:induction false} JoinEndsWithLast(parts: seq<string>)
    requires |parts| > 0 && |parts[|parts| - 1]| > 0
    ensures |Join(parts)| > 0
    ensures Join(parts)[|Join(parts)| - 1] == parts[|parts| - 1][|parts[|parts| - 1]| - 1]
    decreases |parts|
  {
    if |parts| > 1 {
      JoinEndsWithLast(parts[1..]);
    }
  }

  /** Splitting a join of comma-free members gives the members back, so the
      remote side can recover the exact list from the bulk argument. */
  lemma {:induction false} SplitJoin(parts: seq<string>)
    requires |parts| > 0
    requires forall i :: 0 <= i < |parts| ==> NoComma(parts[i])
    ensures Split(Join(parts)) == parts
    decreases |parts|
  {
    if |parts| == 1 {
      SplitNoComma(parts[0]);
    } else {
      SplitJoin(parts[1..]);
      SplitPrefix(parts[0], Join(parts[1..]));
    }
  }

  lemma {:induction false} SplitNoComma(s: string)
    requires NoComma(s)
    ensures Split(s) == [s]
    decreases |s|
  {
    if |s| > 0 {
      SplitNoComma(s[1..]);
      assert [s[0]] + s[1..] == s;
    }
  }

  lemma {:induction false} SplitPrefix(a: string, b: string)
    requires NoComma(a)
    ensures Split(a + [Comma] + b) == [a] + Split(b)
    decreases |a|
  {
    if |a| == 0 {
      assert a + [Comma] + b == [Comma] + b;
      assert ([Comma] + b)[1..] == b;
    } else {
      SplitPrefix(a[1..], b);
      assert (a + [Comma] + b)[1..] == a[1..] + [Comma] + b;
      assert [a[0]] + a[1..] == a;
    }
  }

  /** A single member is sent as itself. */
  lemma TrimmedSingle(m: string)
    requires !EndsWithComma(m)
    ensures TrimRight(CommaTerminated([m])) == m
  {
    assert CommaTerminated([m]) == m + [Comma];
    TrimRightAfterComma(m);
    TrimRightKeeps(m);
  }

  /** The call the conversation test expects for members ["test", "test2"]. */
  lemma TestMembersArgument()
    ensures TrimRight(CommaTerminated(["test", "test2"])) == "test,test2"
  {
    TrimmedAccumulationIsJoinForPlainLast(["test", "test2"]);
    assert Join(["test", "test2"]) == "test,test2";
  }
}
