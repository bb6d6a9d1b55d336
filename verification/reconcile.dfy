/** Membership differencing for the conversation resource's Update: the
    desired members and the remote members are both put into Go maps (so
    duplicates collapse), and each map is ranged over to find the members to
    invite and the members to kick. */
module Reconcile {

  function Elems(s: seq<string>): set<string> {
    set x | x in s
  }

  predicate Distinct(s: seq<string>) {
    forall i, j :: 0 <= i < j < |s| ==> s[i] != s[j]
  }

  lemma ElemsSplit(s: seq<string>)
    requires |s| > 0
    ensures Elems(s) == {s[0]} + Elems(s[1..])
  {
    assert s == [s[0]] + s[1..];
  }

  lemma ElemsConcat(a: seq<string>, b: seq<string>)
    ensures Elems(a + b) == Elems(a) + Elems(b)
  {
  }

  lemma ElemsEmpty(s: seq<string>)
    ensures Elems(s) == {} <==> |s| == 0
  {
    if |s| > 0 {
      assert s[0] in Elems(s);
    }
  }

  /** A list without repeats that holds exactly one member is that member. */
  lemma DistinctSingleton(s: seq<string>, x: string)
    requires Distinct(s) && Elems(s) == {x}
    ensures s == [x]
  {
    ElemsEmpty(s);
    ElemsSplit(s);
    DistinctTail(s);
    assert Elems(s[1..]) == {};
    ElemsEmpty(s[1..]);
    assert s == [s[0]] + s[1..];
  }

  /** A list without repeats has as many elements as members. */
  lemma {:induction false} DistinctCard(s: seq<string>)
    requires Distinct(s)
    ensures |Elems(s)| == |s|
    decreases |s|
  {
    if |s| == 0 {
      ElemsEmpty(s);
    } else {
      DistinctTail(s);
      ElemsSplit(s);
      DistinctCard(s[1..]);
    }
  }

  lemma DistinctCons(x: string, r: seq<string>)
    requires Distinct(r) && x !in Elems(r)
    ensures Distinct([x] + r)
  {
    forall i, j | 0 <= i < j < |[x] + r|
      ensures ([x] + r)[i] != ([x] + r)[j]
    {
      if i > 0 {
        assert ([x] + r)[i] == r[i - 1] && ([x] + r)[j] == r[j - 1];
      } else {
        assert ([x] + r)[j] == r[j - 1];
        assert r[j - 1] in Elems(r);
      }
    }
  }

  lemma DistinctTail(s: seq<string>)
    requires |s| > 0 && Distinct(s)
    ensures Distinct(s[1..]) && s[0] !in Elems(s[1..])
  {
    forall j | 0 <= j < |s[1..]|
      ensures s[1..][j] != s[0]
    {
      assert s[1..][j] == s[j + 1];
    }
  }

  /** The first occurrence in `s` of every element of `keep`, in `s`'s order. */
  function Enumerate(s: seq<string>, keep: set<string>): (r: seq<string>)
    ensures Distinct(r)
    ensures Elems(r) == keep * Elems(s)
    decreases |s|
  {
    if |s| == 0 then []
    else if s[0] in keep then
      var rest := Enumerate(s[1..], keep - {s[0]});
      ElemsSplit(s);
      DistinctCons(s[0], rest);
      ElemsConcat([s[0]], rest);
      [s[0]] + rest
    else
      ElemsSplit(s);
      Enumerate(s[1..], keep)
  }

  /** The order in which Go happens to range over the two maps of one Update:
      the desired members and the remote members. The runtime picks these
      orders; they are inputs of the model. */
  datatype MapOrder = MapOrder(members: seq<string>, existing: seq<string>)

  /** Ranging over a Go map whose keys were inserted from `keys`: every key
      once, in the order `hint` gives (keys `hint` misses follow in `keys`'
      order, and entries of `hint` that are not keys are ignored). */
  function MapIteration(hint: seq<string>, keys: seq<string>): (r: seq<string>)
    ensures Distinct(r)
    ensures Elems(r) == Elems(keys)
  {
    Enumerate(hint + keys, Elems(keys))
  }

  /** Every order the runtime may pick is reachable: a hint that already lists
      each key once is followed exactly. */
  lemma MapIterationFollowsHint(hint: seq<string>, keys: seq<string>)
    requires Distinct(hint) && Elems(hint) == Elems(keys)
    ensures MapIteration(hint, keys) == hint
  {
    EnumerateDistinctPrefix(hint, keys, Elems(keys));
  }

  lemma {:induction false} EnumerateDistinctPrefix(h: seq<string>, t: seq<string>, keep: set<string>)
    requires Distinct(h) && Elems(h) == keep
    ensures Enumerate(h + t, keep) == h
    decreases |h|
  {
    if |h| == 0 {
      assert keep == {};
      assert h + t == t;
      EnumerateNothing(t);
    } else {
      assert (h + t)[0] == h[0];
      assert (h + t)[1..] == h[1..] + t;
      DistinctTail(h);
      ElemsSplit(h);
      EnumerateDistinctPrefix(h[1..], t, keep - {h[0]});
    }
  }

  lemma {:induction false} EnumerateNothing(s: seq<string>)
    ensures Enumerate(s, {}) == []
    decreases |s|
  {
    if |s| > 0 {
      EnumerateNothing(s[1..]);
    }
  }

  /** The elements of `s` not in `exclude`, in order. */
  function Outside(s: seq<string>, exclude: set<string>): (r: seq<string>)
    ensures Elems(r) == Elems(s) - exclude
    ensures Distinct(s) ==> Distinct(r)
    decreases |s|
  {
    if |s| == 0 then []
    else if s[0] in exclude then
      ElemsSplit(s);
      if Distinct(s) then DistinctTail(s); Outside(s[1..], exclude)
      else Outside(s[1..], exclude)
    else
      var rest := Outside(s[1..], exclude);
      ElemsSplit(s);
      ElemsConcat([s[0]], rest);
      if Distinct(s) then
        DistinctTail(s);
        DistinctCons(s[0], rest);
        [s[0]] + rest
      else [s[0]] + rest
  }

  /** The members to add: desired but not present remotely. */
  function Additions(desired: seq<string>, observed: seq<string>): set<string> {
    Elems(desired) - Elems(observed)
  }

  /** The members to remove: present remotely but no longer desired. */
  function Removals(desired: seq<string>, observed: seq<string>): set<string> {
    Elems(observed) - Elems(desired)
  }

  /** The laws of a membership delta: applying it to the remote set yields the
      desired set, additions are new, removals are unwanted, and no member is
      both added and removed. */
  lemma DeltaLaws(desired: seq<string>, observed: seq<string>)
    ensures Elems(desired) == (Elems(observed) - Removals(desired, observed)) + Additions(desired, observed)
    ensures Additions(desired, observed) !! Elems(observed)
    ensures Removals(desired, observed) !! Elems(desired)
    ensures Additions(desired, observed) !! Removals(desired, observed)
  {
  }

  /** Reconciling against a remote list with the same members changes nothing. */
  lemma SameMembersNoDelta(desired: seq<string>, observed: seq<string>)
    requires Elems(desired) == Elems(observed)
    ensures Additions(desired, observed) == {} && Removals(desired, observed) == {}
  {
  }

  /** The members Update invites, in the order it appends them to the bulk
      argument: it ranges over the desired-members map and keeps those the
      remote map lacks. */
  function Invitees(order: MapOrder, desired: seq<string>, observed: seq<string>): (inv: seq<string>)
    ensures Distinct(inv)
    ensures Elems(inv) == Additions(desired, observed)
  {
    Outside(MapIteration(order.members, desired), Elems(observed))
  }

  /** The members Update kicks, in order: it ranges over the remote-members map
      and keeps those the desired map lacks. */
  function Kicked(order: MapOrder, desired: seq<string>, observed: seq<string>): (out: seq<string>)
    ensures Distinct(out)
    ensures Elems(out) == Removals(desired, observed)
  {
    Outside(MapIteration(order.existing, observed), Elems(desired))
  }
}
