/** The order of `sorted_members` (src/handlers/chat/mod.rs:716-724): by user id, then user name. */
module Members {
  import opened Lists
  import opened Sums

  datatype Summary = Summary(userId: string, userName: string)

  // ----- String order -----

  /** Lexicographic order by code point, which for valid UTF-8 is the byte order of `str::cmp`. */
  predicate StrLeq(a: string, b: string)
  {
    a == "" || (b != "" && (a[0] < b[0] || (a[0] == b[0] && StrLeq(a[1..], b[1..]))))
  }

  lemma {:induction false} StrTotal(a: string, b: string)
    ensures StrLeq(a, b) || StrLeq(b, a)
    ensures StrLeq(a, b) && StrLeq(b, a) ==> a == b
  {
    if a != "" && b != "" && a[0] == b[0] {
      StrTotal(a[1..], b[1..]);
    }
  }

  lemma {:induction false} StrTransitive(a: string, b: string, c: string)
    requires StrLeq(a, b) && StrLeq(b, c)
    ensures StrLeq(a, c)
  {
    if a != "" && a[0] == b[0] == c[0] {
      StrTransitive(a[1..], b[1..], c[1..]);
    }
  }

  predicate Leq(a: Summary, b: Summary)
  {
    if a.userId == b.userId then StrLeq(a.userName, b.userName) else StrLeq(a.userId, b.userId)
  }

  lemma LeqTotal(a: Summary, b: Summary)
    ensures Leq(a, b) || Leq(b, a)
    ensures Leq(a, b) && Leq(b, a) ==> a == b
  {
    StrTotal(a.userId, b.userId);
    StrTotal(a.userName, b.userName);
  }

  lemma LeqTransitive(a: Summary, b: Summary, c: Summary)
    requires Leq(a, b) && Leq(b, c)
    ensures Leq(a, c)
  {
    StrTotal(a.userId, b.userId);
    StrTotal(b.userId, c.userId);
    if a.userId == b.userId == c.userId {
      StrTransitive(a.userName, b.userName, c.userName);
    } else {
      if a.userId != b.userId && b.userId != c.userId {
        StrTransitive(a.userId, b.userId, c.userId);
      }
      StrTotal(a.userId, c.userId);
    }
  }

  /** Strictly before: a proper beginning of the other, or smaller at the first character that differs. */
  ghost predicate StrBefore(a: string, b: string)
  {
    || (|a| < |b| && a == b[..|a|])
    || exists i :: DiffersAt(a, b, i)
  }

  ghost predicate DiffersAt(a: string, b: string, i: nat)
  {
    i < |a| && i < |b| && a[..i] == b[..i] && a[i] < b[i]
  }

  lemma {:induction false} StrLeqMeans(a: string, b: string)
    ensures StrLeq(a, b) <==> a == b || StrBefore(a, b)
  {
    if a != "" && b != "" {
      var a', b' := a[1..], b[1..];
      StrLeqMeans(a', b');
      assert a == [a[0]] + a' && b == [b[0]] + b';
      if a[0] < b[0] {
        assert DiffersAt(a, b, 0);
      } else if a[0] == b[0] {
        SameFirstBefore(a, b);
      }
    }
  }

  lemma SameFirstBefore(a: string, b: string)
    requires a != "" && b != "" && a[0] == b[0]
    ensures StrBefore(a, b) <==> StrBefore(a[1..], b[1..])
  {
    var a', b' := a[1..], b[1..];
    assert |a| <= |b| ==> (a == b[..|a|] <==> a' == b'[..|a'|]) by {
      if |a| <= |b| {
        assert a == [a[0]] + a' && b[..|a|] == [b[0]] + b'[..|a'|];
      }
    }
    if i: nat :| DiffersAt(a, b, i) {
      assert a'[..i - 1] == a[..i][1..] && b'[..i - 1] == b[..i][1..];
      assert DiffersAt(a', b', i - 1);
    }
    if i: nat :| DiffersAt(a', b', i) {
      assert a[..i + 1] == [a[0]] + a'[..i] && b[..i + 1] == [b[0]] + b'[..i];
      assert DiffersAt(a, b, i + 1);
    }
  }

  /** User ids come first, then names, each by the first differing character, ascending. */
  lemma LeqMeans(a: Summary, b: Summary)
    ensures Leq(a, b) <==>
            StrBefore(a.userId, b.userId)
            || (a.userId == b.userId && (a.userName == b.userName || StrBefore(a.userName, b.userName)))
  {
    StrLeqMeans(a.userId, b.userId);
    StrLeqMeans(a.userName, b.userName);
    NotBeforeItself(a.userId);
  }

  lemma NotBeforeItself(a: string)
    ensures !StrBefore(a, a)
  {
  }

  // ----- Sorted sequences -----

  predicate Sorted(s: seq<Summary>)
  {
    |s| <= 1 || (Leq(s[0], s[1]) && Sorted(s[1..]))
  }

  lemma {:induction false} FirstIsLeast(s: seq<Summary>, x: Summary)
    requires Sorted(s) && x in s
    ensures Leq(s[0], x)
  {
    if x == s[0] {
      LeqTotal(x, x);
    } else {
      FirstIsLeast(s[1..], x);
      LeqTransitive(s[0], s[1], x);
    }
  }

  /** Sorted: every member is at most every later one. */
  lemma SortedPairs(s: seq<Summary>, i: nat, j: nat)
    requires Sorted(s) && i <= j < |s|
    ensures Leq(s[i], s[j])
  {
    SortedRest(s, i);
    FirstIsLeast(s[i..], s[j]);
  }

  lemma {:induction false} SortedRest(s: seq<Summary>, i: nat)
    requires Sorted(s) && i <= |s|
    ensures Sorted(s[i..])
  {
    if i > 0 && s != [] {
      SortedRest(s[1..], i - 1);
      assert s[1..][i - 1..] == s[i..];
    }
  }

  /** There is only one way to sort a multiset. */
  lemma {:induction false} SortedIsUnique(a: seq<Summary>, b: seq<Summary>)
    requires Sorted(a) && Sorted(b) && multiset(a) == multiset(b)
    ensures a == b
  {
    if a != [] {
      FirstIsIn(a, b);
      FirstIsIn(b, a);
      FirstIsLeast(a, b[0]);
      FirstIsLeast(b, a[0]);
      LeqTotal(a[0], b[0]);
      RestsAgree(a, b);
      SortedIsUnique(a[1..], b[1..]);
      assert a == [a[0]] + a[1..] && b == [b[0]] + b[1..];
    } else if b != [] {
      FirstIsIn(b, a);
    }
  }

  /** Put one member into a sorted list, as a client does on `joined_members`. */
  function Insert(x: Summary, s: seq<Summary>): (r: seq<Summary>)
    ensures multiset(r) == multiset(s) + multiset{x}
    ensures r != [] && (r[0] == x || (s != [] && r[0] == s[0]))
  {
    if s == [] || Leq(x, s[0]) then [x] + s
    else
      assert s == [s[0]] + s[1..];
      [s[0]] + Insert(x, s[1..])
  }

  lemma {:induction false} InsertSorted(x: Summary, s: seq<Summary>)
    requires Sorted(s)
    ensures Sorted(Insert(x, s))
  {
    if s != [] && !Leq(x, s[0]) {
      InsertSorted(x, s[1..]);
      LeqTotal(x, s[0]);
    }
  }

  /** Take one occurrence of a member out of a list, as a client does on `left_members`. */
  function Delete(x: Summary, s: seq<Summary>): (r: seq<Summary>)
    ensures multiset(r) == multiset(s) - multiset{x}
  {
    if s == [] then []
    else
      assert s == [s[0]] + s[1..];
      if s[0] == x then s[1..] else [s[0]] + Delete(x, s[1..])
  }

  lemma {:induction false} DeleteSorted(x: Summary, s: seq<Summary>)
    requires Sorted(s)
    ensures Sorted(Delete(x, s))
  {
    if s != [] && s[0] != x {
      DeleteSorted(x, s[1..]);
      var rest := Delete(x, s[1..]);
      if rest != [] {
        assert rest[0] in multiset(s[1..]);
        FirstIsLeast(s, rest[0]);
      }
    }
  }

  // ----- The members of a room -----

  /** The member summaries of a room, with repetitions. */
  ghost function Bag(members: map<string, Summary>): multiset<Summary>
    decreases |members|
  {
    if members == map[] then multiset{}
    else
      var k := Pick(members.Keys);
      assert |members - {k}| < |members| by { RemoveShrinks(members, k); }
      Bag(members - {k}) + multiset{members[k]}
  }

  /** One entry for each connection, whichever is counted first. */
  lemma {:induction false} BagWithout(members: map<string, Summary>, k: string)
    requires k in members
    ensures Bag(members) == Bag(members - {k}) + multiset{members[k]}
    decreases |members|
  {
    var first := Pick(members.Keys);
    if first != k {
      RemoveShrinks(members, first);
      RemoveShrinks(members, k);
      BagWithout(members - {first}, k);
      BagWithout(members - {k}, first);
      assert members - {first} - {k} == members - {k} - {first};
      var inner := Bag(members - {first} - {k});
      AddEitherFirst(inner, members[k], members[first]);
      assert Bag(members) == inner + multiset{members[k]} + multiset{members[first]};
      assert Bag(members - {k}) == inner + multiset{members[first]};
    }
  }

  lemma AddEitherFirst(bag: multiset<Summary>, a: Summary, b: Summary)
    ensures bag + multiset{a} + multiset{b} == bag + multiset{b} + multiset{a}
  {
  }

  /** The member list of a room: its bag of summaries, sorted. */
  ghost function SortedMembers(members: map<string, Summary>): (r: seq<Summary>)
    ensures multiset(r) == Bag(members)
    decreases |members|
  {
    if members == map[] then []
    else
      var k := Pick(members.Keys);
      assert |members - {k}| < |members| by { RemoveShrinks(members, k); }
      Insert(members[k], SortedMembers(members - {k}))
  }

  lemma {:induction false} MembersAreSorted(members: map<string, Summary>)
    ensures Sorted(SortedMembers(members))
    decreases |members|
  {
    if members != map[] {
      var k := Pick(members.Keys);
      RemoveShrinks(members, k);
      MembersAreSorted(members - {k});
      InsertSorted(members[k], SortedMembers(members - {k}));
    }
  }

  /** Inserting the joiner into the sorted list gives the new sorted list. */
  lemma JoinInserts(members: map<string, Summary>, k: string, x: Summary)
    requires k !in members
    ensures SortedMembers(members[k := x]) == Insert(x, SortedMembers(members))
  {
    assert members[k := x] - {k} == members;
    BagWithout(members[k := x], k);
    MembersAreSorted(members[k := x]);
    MembersAreSorted(members);
    InsertSorted(x, SortedMembers(members));
    SortedIsUnique(SortedMembers(members[k := x]), Insert(x, SortedMembers(members)));
  }

  /** Deleting the leaver from the sorted list gives the new sorted list. */
  lemma LeaveDeletes(members: map<string, Summary>, k: string)
    requires k in members
    ensures SortedMembers(members - {k}) == Delete(members[k], SortedMembers(members))
  {
    BagWithout(members, k);
    MembersAreSorted(members);
    MembersAreSorted(members - {k});
    DeleteSorted(members[k], SortedMembers(members));
    SortedIsUnique(SortedMembers(members - {k}), Delete(members[k], SortedMembers(members)));
  }
}
