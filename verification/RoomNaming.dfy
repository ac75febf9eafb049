/** Python's `sorted` with a string key: lexicographic by code point, stable. */
module Sorting {
  import opened Sequences

  predicate LessEq(a: string, b: string) {
    a == [] || (b != [] && (a[0] < b[0] || (a[0] == b[0] && LessEq(a[1..], b[1..]))))
  }

  lemma {:induction false} LessEqTotal(a: string, b: string)
    ensures LessEq(a, b) || LessEq(b, a)
  {
    if a == [] || b == [] || a[0] != b[0] {
    } else {
      LessEqTotal(a[1..], b[1..]);
    }
  }

  lemma {:induction false} LessEqTransitive(a: string, b: string, c: string)
    requires LessEq(a, b) && LessEq(b, c)
    ensures LessEq(a, c)
  {
    if a == [] || a[0] != b[0] || b[0] != c[0] {
    } else {
      LessEqTransitive(a[1..], b[1..], c[1..]);
    }
  }

  ghost predicate SortedBy<T>(key: T -> string, s: seq<T>) {
    forall i, j :: 0 <= i < j < |s| ==> LessEq(key(s[i]), key(s[j]))
  }

  function Insert<T>(key: T -> string, x: T, s: seq<T>): seq<T> {
    if s == [] || LessEq(key(x), key(s[0])) then [x] + s
    else [s[0]] + Insert(key, x, s[1..])
  }

  function SortBy<T>(key: T -> string, s: seq<T>): seq<T> {
    if s == [] then [] else Insert(key, s[0], SortBy(key, s[1..]))
  }

  lemma {:induction false} InsertSorts<T>(key: T -> string, x: T, s: seq<T>)
    requires SortedBy(key, s)
    ensures SortedBy(key, Insert(key, x, s))
    ensures multiset(Insert(key, x, s)) == multiset(s) + multiset{x}
  {
    if s == [] {
    } else if LessEq(key(x), key(s[0])) {
      forall j | 0 <= j < |s| ensures LessEq(key(x), key(s[j])) {
        if j > 0 {
          LessEqTransitive(key(x), key(s[0]), key(s[j]));
        }
      }
    } else {
      LessEqTotal(key(x), key(s[0]));
      var rest := Insert(key, x, s[1..]);
      InsertSorts(key, x, s[1..]);
      assert s == [s[0]] + s[1..];
      forall j | 0 <= j < |rest| ensures LessEq(key(s[0]), key(rest[j])) {
        assert rest[j] in multiset(rest);
        if rest[j] != x {
          assert rest[j] in multiset(s[1..]);
          var i :| 0 <= i < |s[1..]| && s[1..][i] == rest[j];
          assert s[i + 1] == rest[j];
        }
      }
    }
  }

  lemma {:induction false} SortBySorts<T>(key: T -> string, s: seq<T>)
    ensures SortedBy(key, SortBy(key, s))
    ensures multiset(SortBy(key, s)) == multiset(s)
  {
    if s == [] {
    } else {
      SortBySorts(key, s[1..]);
      InsertSorts(key, s[0], SortBy(key, s[1..]));
      assert s == [s[0]] + s[1..];
    }
  }

  /** Having no duplicates is a property of the multiset. */
  lemma {:induction false} DistinctMultiset<T>(s: seq<T>)
    ensures Distinct(s) <==> forall x :: x in s ==> multiset(s)[x] == 1
  {
    if s == [] {
    } else {
      DistinctMultiset(s[1..]);
      assert s == [s[0]] + s[1..];
      if Distinct(s) {
        assert multiset(s[1..])[s[0]] == 0;
      } else if s[0] in s[1..] {
        assert multiset(s)[s[0]] == multiset(s[1..])[s[0]] + 1 > 1;
      } else {
        var x :| x in s[1..] && multiset(s[1..])[x] != 1;
        assert x in s && multiset(s)[x] == multiset(s[1..])[x];
      }
    }
  }

  lemma SortByDistinct<T>(key: T -> string, s: seq<T>)
    requires Distinct(s)
    ensures Distinct(SortBy(key, s)) && Elems(SortBy(key, s)) == Elems(s)
  {
    SortBySorts(key, s);
    DistinctMultiset(s);
    DistinctMultiset(SortBy(key, s));
    forall x ensures x in SortBy(key, s) <==> x in s {
      assert x in SortBy(key, s) <==> x in multiset(SortBy(key, s));
    }
  }
}

/** What a room calls its members and itself, and how it counts them. */
module RoomNaming {
  import opened Wrappers
  import opened Sequences
  import opened Sorting
  import opened Rooms

  function DisambiguatedName(m: Member): string {
    if m.displayName != "" then m.displayName + " (" + m.userId + ")" else m.userId
  }

  /** `user_name`: the display name, disambiguated when the index lists several users under it. */
  function UserName(users: Members, names: map<string, seq<UserId>>, u: UserId): Option<string> {
    if u !in users then None
    else if |Lookup(names, users[u].Name())| > 1 then Some(DisambiguatedName(users[u]))
    else Some(users[u].Name())
  }

  /** Two members that share a display name are always told apart. */
  lemma SameNameDistinctUserNames(users: Members, names: map<string, seq<UserId>>, u: UserId, v: UserId)
    requires UserIdsAgree(users) && IndexAgrees(names, users)
    requires u in users && v in users && u != v && users[u].Name() == users[v].Name()
    ensures UserName(users, names, u) != UserName(users, names, v)
  {
    var n := users[u].Name();
    var listed := Lookup(names, n);
    assert EntryAgrees(listed, n, users);
    assert u in listed && v in listed;
    assert |listed| > 1;
    var a, b := DisambiguatedName(users[u]), DisambiguatedName(users[v]);
    if users[u].displayName != "" && users[v].displayName != "" {
      assert a[|n| + 2..][..|u|] == u;
      assert b[|n| + 2..][..|v|] == v;
    } else if users[u].displayName != "" {
      assert b == v == n && |a| > |n|;
    } else if users[v].displayName != "" {
      assert a == u == n && |b| > |n|;
    }
  }

  /** The user id is appended exactly when somebody else goes by the same name. */
  lemma DisambiguatedIffShared(users: Members, names: map<string, seq<UserId>>, u: UserId)
    requires UserIdsAgree(users) && IndexAgrees(names, users) && u in users && users[u].displayName != ""
    ensures UserName(users, names, u) == Some(DisambiguatedName(users[u]))
      <==> exists v :: v in users && v != u && users[v].Name() == users[u].Name()
  {
    var n := users[u].Name();
    var listed := Lookup(names, n);
    assert EntryAgrees(listed, n, users);
    assert u in listed;
    assert |DisambiguatedName(users[u])| > |n|;
    if |listed| > 1 {
      DistinctIndices(listed);
      assert listed[0] in listed && listed[1] in listed && listed[0] != listed[1];
      var v := if listed[0] == u then listed[1] else listed[0];
      assert v in users && v != u && users[v].Name() == n;
    }
  }

  /** The member is shown with the user id, because somebody else goes by the same name. */
  ghost predicate Suffixed(users: Members, u: UserId)
    requires u in users
  {
    users[u].displayName != "" && exists v :: v in users && v != u && users[v].Name() == users[u].Name()
  }

  /** What a member with a display name is called when the user id is appended. */
  function WithId(name: string, u: UserId): string {
    name + " (" + u + ")"
  }

  /** What `u` is shown as, id and all, is what `v` has as a name, or reads as the name and id of `v`. */
  ghost predicate Mimicked(users: Members, u: UserId, v: UserId)
    requires u in users && v in users
  {
    && Suffixed(users, u)
    && if Suffixed(users, v) then
         exists t :: v == t + " (" + u && users[u].displayName == users[v].displayName + " (" + t
       else users[v].Name() == WithId(users[u].displayName, u)
  }

  lemma UserNameIs(users: Members, names: map<string, seq<UserId>>, u: UserId)
    requires UserIdsAgree(users) && IndexAgrees(names, users) && u in users
    ensures UserName(users, names, u)
        == Some(if Suffixed(users, u) then WithId(users[u].displayName, u) else users[u].Name())
    ensures users[u].Name() == if users[u].displayName == "" then u else users[u].displayName
  {
    if users[u].displayName != "" {
      DisambiguatedIffShared(users, names, u);
      hide IndexAgrees, Lookup;
      assert |WithId(users[u].displayName, u)| > |users[u].Name()|;
    }
  }

  /** Two names with an id behind each, of which the second id is longer. */
  lemma WithIdsEqualIff(n: string, u: UserId, m: string, v: UserId)
    requires |u| < |v|
    ensures WithId(n, u) == WithId(m, v) <==> exists t :: v == t + " (" + u && n == m + " (" + t
  {
    var a, b, k := WithId(n, u), WithId(m, v), |v| - |u| - 2;
    if a == b {
      assert a[|n|] == ' ' && b[|m| + 1] == '(';
      assert |n| == |m| + 2 + k && k >= 0;
      assert v == b[|m| + 2..][..|v|] && n == b[..|n|];
      assert v[k..] == a[|n|..][..2 + |u|] == " (" + u;
      assert v == v[..k] + " (" + u && n == m + " (" + v[..k];
    }
    if t :| v == t + " (" + u && n == m + " (" + t {
      assert n + " (" + u + ")" == m + " (" + (t + " (" + u) + ")";
    }
  }

  lemma WithIdsDiffer(n: string, u: UserId, m: string, v: UserId)
    requires u != v && |u| == |v|
    ensures WithId(n, u) != WithId(m, v)
  {
    assert WithId(n, u)[|n| + 2..][..|u|] == u;
    assert WithId(m, v)[|m| + 2..][..|v|] == v;
  }

  /** Exactly when two members are shown under the same user name. */
  lemma UserNamesClashIff(users: Members, names: map<string, seq<UserId>>, u: UserId, v: UserId)
    requires UserIdsAgree(users) && IndexAgrees(names, users) && u in users && v in users && u != v
    ensures UserName(users, names, u) == UserName(users, names, v) <==> Mimicked(users, u, v) || Mimicked(users, v, u)
  {
    UserNameIs(users, names, u);
    UserNameIs(users, names, v);
    var n, m := users[u].displayName, users[v].displayName;
    assert !Suffixed(users, u) && !Suffixed(users, v) ==> users[u].Name() != users[v].Name();
    hide UserName, IndexAgrees, WithId;
    if Suffixed(users, u) && Suffixed(users, v) {
      hide Suffixed;
      if |u| < |v| {
        WithIdsEqualIff(n, u, m, v);
      } else if |v| < |u| {
        WithIdsEqualIff(m, v, n, u);
      } else {
        WithIdsDiffer(n, u, m, v);
      }
    }
  }

  /** Ids without spaces: only a member whose whole display name is the other one's name and id clashes. */
  lemma ClashOfSpacelessIds(users: Members, u: UserId, v: UserId)
    requires UserIdsAgree(users) && u in users && v in users && ' ' !in u && ' ' !in v
    ensures Mimicked(users, u, v) <==>
            Suffixed(users, u) && !Suffixed(users, v) && users[v].displayName == WithId(users[u].displayName, u)
  {
    assert |WithId(users[u].displayName, u)| > 0;
    assert WithId(users[u].displayName, u)[|users[u].displayName|] == ' ';
    forall t ensures ' ' in t + " (" + u {
      assert (t + " (" + u)[|t|] == ' ';
    }
    hide Suffixed;
  }

  /** Two members called Al, and one who is called what the first of them is shown as. */
  function ThreeMembers(): Members {
    map["@a:x" := Member("@a:x", "Al", "", false), "@b:x" := Member("@b:x", "Al", "", false),
        "@c:x" := Member("@c:x", "Al (@a:x)", "", false)]
  }

  function TheirNames(): map<string, seq<UserId>> {
    map["Al" := ["@a:x", "@b:x"], "Al (@a:x)" := ["@c:x"]]
  }

  lemma UserNamesCanClash()
    ensures UserIdsAgree(ThreeMembers()) && IndexAgrees(TheirNames(), ThreeMembers())
    ensures UserName(ThreeMembers(), TheirNames(), "@a:x") == UserName(ThreeMembers(), TheirNames(), "@c:x")
        == Some("Al (@a:x)")
  {
    forall n ensures EntryAgrees(Lookup(TheirNames(), n), n, ThreeMembers()) {
      ListedAs(n);
    }
    assert "Al" + " (" + "@a:x" + ")" == "Al (@a:x)";
  }

  lemma ListedAs(n: string)
    ensures EntryAgrees(Lookup(TheirNames(), n), n, ThreeMembers())
  {
    assert "Al"[0] == "Al (@a:x)"[0] && |"Al"| != |"Al (@a:x)"|;
    assert Distinct(["@a:x", "@b:x"]) by {
      assert ["@a:x", "@b:x"][1..] == ["@b:x"] && "@a:x"[1] != "@b:x"[1];
    }
    assert Distinct(["@c:x"]);
    assert "@a:x"[1] != "@b:x"[1] && "@a:x"[1] != "@c:x"[1] && "@b:x"[1] != "@c:x"[1];
    hide Distinct;
  }

  datatype Summary = Summary(heroes: seq<UserId>, joined: Option<nat>, invited: Option<nat>)

  predicate Usable(s: Option<Summary>) {
    s.Some? && s.value.joined.Some? && s.value.invited.Some?
  }

  function JoinedCount(users: Members, order: seq<UserId>, s: Option<Summary>): nat {
    if Usable(s) then s.value.joined.value
    else |Filter(u => u in users && !users[u].invited, order)|
  }

  function InvitedCount(users: Members, order: seq<UserId>, s: Option<Summary>): nat {
    if Usable(s) then s.value.invited.value
    else |Filter(u => u in users && users[u].invited, order)|
  }

  function MemberCount(users: Members, s: Option<Summary>): nat {
    if Usable(s) then s.value.joined.value + s.value.invited.value else |users|
  }

  lemma {:induction false} FilterSplits<T(!new)>(p: T -> bool, q: T -> bool, s: seq<T>)
    requires forall x :: x in s ==> (p(x) <==> !q(x))
    ensures |Filter(p, s)| + |Filter(q, s)| == |s|
  {
    if s == [] {
    } else {
      assert s == [s[0]] + s[1..];
      FilterSplits(p, q, s[1..]);
    }
  }

  lemma CountsAddUp(users: Members, order: seq<UserId>, s: Option<Summary>)
    requires OrderAgrees(order, users)
    ensures JoinedCount(users, order, s) + InvitedCount(users, order, s) == MemberCount(users, s)
  {
    if !Usable(s) {
      FilterSplits((u: UserId) => u in users && !users[u].invited,
                   (u: UserId) => u in users && users[u].invited, order) by {
        assert forall u :: u in order ==> u in Elems(order);
      }
      DistinctCard(order);
    }
  }

  /** Without a usable summary exactly the members without a pending invitation count as joined. */
  lemma CountsAre(users: Members, order: seq<UserId>, s: Option<Summary>)
    requires OrderAgrees(order, users)
    ensures !Usable(s) ==>
              && JoinedCount(users, order, s) == |set u | u in users && !users[u].invited|
              && InvitedCount(users, order, s) == |set u | u in users && users[u].invited|
    ensures Usable(s) <==> s.Some? && s.value.joined.Some? && s.value.invited.Some?
    ensures Usable(s) ==>
              && JoinedCount(users, order, s) == s.value.joined.value
              && InvitedCount(users, order, s) == s.value.invited.value
  {
    assert forall u :: u in order <==> u in Elems(order);
    CountOf((u: UserId) => u in users && !users[u].invited, order, set u | u in users && !users[u].invited);
    CountOf((u: UserId) => u in users && users[u].invited, order, set u | u in users && users[u].invited);
  }

  lemma CountOf(p: UserId -> bool, order: seq<UserId>, those: set<UserId>)
    requires Distinct(order) && forall u :: u in those <==> u in order && p(u)
    ensures |Filter(p, order)| == |those|
  {
    FilterDistinct(p, order);
    DistinctCard(Filter(p, order));
    assert Elems(Filter(p, order)) == those;
  }

  /** The members other than ourselves, sorted by user name. */
  function Others(users: Members, names: map<string, seq<UserId>>, order: seq<UserId>, own: UserId): seq<UserId> {
    Filter(u => u != own, SortBy(SortKey(users, names), order))
  }

  function SortKey(users: Members, names: map<string, seq<UserId>>): UserId -> string {
    u => var n := UserName(users, names, u); if n.Some? then n.value else ""
  }

  /** Whether the room is empty, the users it is named after, and how many more there are. */
  function GroupNameStructure(
    users: Members, names: map<string, seq<UserId>>, order: seq<UserId>, own: UserId, s: Option<Summary>)
    : (bool, seq<UserId>, int)
  {
    if !Usable(s) then
      var others := Others(users, names, order, own);
      if |others| <= 5 then (others == [], others, 0) else (false, others[..5], |others| - 5)
    else
      var count := MemberCount(users, s);
      if |s.value.heroes| >= count - 1 then (count <= 1, s.value.heroes, 0)
      else (count <= 1, s.value.heroes, count - 1 - |s.value.heroes|)
  }

  lemma {:induction false} FilterSorted<T(!new)>(key: T -> string, p: T -> bool, s: seq<T>)
    requires SortedBy(key, s)
    ensures SortedBy(key, Filter(p, s))
  {
    if s == [] {
    } else {
      FilterSorted(key, p, s[1..]);
      forall x | x in s[1..] ensures LessEq(key(s[0]), key(x)) {
        var i :| 0 <= i < |s[1..]| && s[1..][i] == x;
        assert s[i + 1] == x;
      }
    }
  }

  lemma OthersSorted(users: Members, names: map<string, seq<UserId>>, order: seq<UserId>, own: UserId)
    requires OrderAgrees(order, users)
    ensures SortedBy(SortKey(users, names), Others(users, names, order, own))
    ensures Distinct(Others(users, names, order, own))
    ensures Elems(Others(users, names, order, own)) == users.Keys - {own}
    ensures |Others(users, names, order, own)| == |users.Keys - {own}|
  {
    var key := SortKey(users, names);
    var sorted := SortBy(key, order);
    SortBySorts(key, order);
    SortByDistinct(key, order);
    FilterDistinct((u: UserId) => u != own, sorted);
    FilterSorted(key, (u: UserId) => u != own, sorted);
    DistinctCard(Others(users, names, order, own));
    forall u ensures u in Others(users, names, order, own) <==> u in users && u != own {
      assert u in sorted <==> u in Elems(sorted);
    }
  }

  /** In a sorted sequence, what a prefix leaves out is not smaller than what it holds. */
  lemma PrefixBelowRest<T>(key: T -> string, s: seq<T>, cut: nat)
    requires SortedBy(key, s) && cut <= |s|
    ensures SortedBy(key, s[..cut])
    ensures forall x, y :: x in s[..cut] && y in s[cut..] ==> LessEq(key(x), key(y))
  {
    forall x, y | x in s[..cut] && y in s[cut..] ensures LessEq(key(x), key(y)) {
      var i :| 0 <= i < cut && s[i] == x;
      var j :| cut <= j < |s| && s[j] == y;
    }
  }

  /** Without a usable summary the room is named after at most five of the other members, and the rest is counted. */
  lemma GroupNameCounts(users: Members, names: map<string, seq<UserId>>, order: seq<UserId>, own: UserId,
                        s: Option<Summary>)
    requires OrderAgrees(order, users) && !Usable(s)
    ensures
      var (empty, listed, more) := GroupNameStructure(users, names, order, own, s);
      && (empty <==> users.Keys <= {own})
      && |listed| + more == |users.Keys - {own}|
      && |listed| <= 5 && more >= 0 && (more > 0 ==> |listed| == 5)
  {
    OthersSorted(users, names, order, own);
    hide Others, Distinct, SortedBy;
    var others := Others(users, names, order, own);
    assert others == [] <==> users.Keys - {own} == {};
  }

  /** The users it is named after are different, in order, and no other member sorts before one of them. */
  lemma GroupNameListsSmallest(users: Members, names: map<string, seq<UserId>>, order: seq<UserId>, own: UserId,
                               s: Option<Summary>)
    requires OrderAgrees(order, users) && !Usable(s)
    ensures
      var listed := GroupNameStructure(users, names, order, own, s).1;
      && Distinct(listed) && Elems(listed) <= users.Keys - {own}
      && SortedBy(SortKey(users, names), listed)
      && (forall u, v :: u in listed && v in users.Keys - {own} - Elems(listed) ==>
            LessEq(SortKey(users, names)(u), SortKey(users, names)(v)))
  {
    var others := Others(users, names, order, own);
    var listed := GroupNameStructure(users, names, order, own, s).1;
    var cut := |listed|;
    assert others == others[..cut] + others[cut..] && listed == others[..cut];
    OthersSorted(users, names, order, own);
    hide Others, SortKey, Distinct, SortedBy, LessEq, GroupNameStructure;
    DistinctConcat(listed, others[cut..]);
    PrefixBelowRest(SortKey(users, names), others, cut);
    forall u, v | u in listed && v in users.Keys - {own} - Elems(listed)
      ensures LessEq(SortKey(users, names)(u), SortKey(users, names)(v))
    {
      assert v in Elems(others) && v in others && v !in listed;
      assert v in others[cut..];
    }
  }

  /** With a usable summary, the heroes and the rest together are all other members the server counts. */
  lemma GroupNameWithSummary(users: Members, names: map<string, seq<UserId>>, order: seq<UserId>, own: UserId,
                             s: Option<Summary>)
    requires Usable(s)
    ensures
      var (empty, listed, more) := GroupNameStructure(users, names, order, own, s);
      var count := JoinedCount(users, order, s) + InvitedCount(users, order, s);
      && listed == s.value.heroes && more >= 0 && (empty <==> count <= 1)
      && (more > 0 ==> |listed| + more + 1 == count)
      && (more == 0 <==> |listed| + 1 >= count)
  {
  }
}
