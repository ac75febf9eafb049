/**
 * Room membership: `MatrixRoom` keeps three views of the members (the users
 * themselves, an index from display names to users, and the invited users) that have
 * to agree after every event.
 */
module Rooms {
  import opened Wrappers
  import opened Sequences

  type UserId = string

  datatype Membership = Invite | Join | Leave | Ban | OtherMembership

  /**
   * A member event. `displayName` and `avatarUrl` are None when the content lacks the
   * key; a null value is the empty string, which the source treats alike.
   */
  datatype MemberEvent = MemberEvent(
    target: UserId, membership: Membership, displayName: Option<string>, avatarUrl: Option<string>)

  function OrEmpty(s: Option<string>): string {
    if s.Some? then s.value else ""
  }

  /** What a room remembers about one member, as a value. */
  datatype Member = Member(userId: UserId, displayName: string, avatarUrl: string, invited: bool) {
    function Name(): string {
      if displayName != "" then displayName else userId
    }
  }

  type Members = map<UserId, Member>

  /** The members after an event, and whether the event added or removed one. */
  function ApplyMembership(m: Members, e: MemberEvent): (Members, bool) {
    match e.membership
    case Invite | Join =>
      var invited := e.membership.Invite?;
      if e.target !in m then
        (m[e.target := Member(e.target, OrEmpty(e.displayName), OrEmpty(e.avatarUrl), invited)], true)
      else
        var known := m[e.target];
        if invited && !known.invited then (m, false)
        else
          (m[e.target := Member(e.target,
                                if e.displayName.Some? then e.displayName.value else known.displayName,
                                if e.avatarUrl.Some? then e.avatarUrl.value else known.avatarUrl,
                                invited)], false)
    case Leave | Ban => (m - {e.target}, e.target in m)
    case OtherMembership => (m, false)
  }

  /** The iteration order of the users dictionary after an event. */
  function ApplyOrder(order: seq<UserId>, m: Members, e: MemberEvent): seq<UserId> {
    match e.membership
    case Invite | Join => if e.target in m then order else order + [e.target]
    case Leave | Ban => Remove(order, e.target)
    case OtherMembership => order
  }

  ghost predicate UserIdsAgree(m: Members) {
    forall u :: u in m ==> m[u].userId == u
  }

  ghost predicate OrderAgrees(order: seq<UserId>, m: Members) {
    Distinct(order) && Elems(order) == m.Keys
  }

  lemma OrderAfterMembership(order: seq<UserId>, m: Members, e: MemberEvent)
    requires OrderAgrees(order, m)
    ensures OrderAgrees(ApplyOrder(order, m, e), ApplyMembership(m, e).0)
  {
    DistinctAppend(order, e.target);
    RemoveDistinct(order, e.target);
  }

  /** Nobody but the target moves, and a newcomer comes last. */
  lemma OrderKept(order: seq<UserId>, m: Members, e: MemberEvent)
    requires OrderAgrees(order, m)
    ensures
      var order' := ApplyOrder(order, m, e);
      && Filter((u: UserId) => u != e.target, order') == Filter((u: UserId) => u != e.target, order)
      && (e.target in order ==> order' == order || e.target !in order')
      && (e.target !in order ==> order' == order || order' == order + [e.target])
  {
    hide Filter, Remove, Distinct;
    FilterAppend((u: UserId) => u != e.target, order, e.target);
    FilterRemove(order, e.target);
    RemoveDistinct(order, e.target);
    assert e.target in order <==> e.target in Elems(order);
  }

  lemma {:induction false} FilterRemove(s: seq<UserId>, x: UserId)
    ensures Filter((u: UserId) => u != x, Remove(s, x)) == Filter((u: UserId) => u != x, s)
  {
    if s == [] {
    } else {
      FilterRemove(s[1..], x);
    }
  }

  /** The flag that decides about throwing away room keys: set exactly when the member set changed. */
  lemma MembershipFlagIsKeySetChange(m: Members, e: MemberEvent)
    ensures ApplyMembership(m, e).1 <==> ApplyMembership(m, e).0.Keys != m.Keys
    ensures ApplyMembership(m, e).0.Keys - {e.target} == m.Keys - {e.target}
  {
    var r := ApplyMembership(m, e).0;
    if e.membership.Leave? || e.membership.Ban? {
      assert e.target in m ==> e.target !in r.Keys;
    }
    if e.target in m && !e.membership.Leave? && !e.membership.Ban? {
      assert r.Keys == m.Keys;
    }
  }

  /** A value that an event may give anew. */
  function Given(content: Option<string>, before: string): string {
    if content.Some? then content.value else before
  }

  /** Who is a member after an event, and what is known about the one it names; nobody else changes. */
  ghost predicate FollowsEvent(m: Members, e: MemberEvent, m': Members) {
    var u, kind := e.target, e.membership;
    && m' - {u} == m - {u}
    && (u in m' <==> kind.Invite? || kind.Join? || (u in m && !kind.Leave? && !kind.Ban?))
    && (kind.Join? ==> !m'[u].invited)
    && (kind.Invite? && u !in m ==> m'[u].invited)
    && (kind.OtherMembership? || (kind.Invite? && u in m && !m[u].invited) ==> m' == m)
    && (u in m && (kind.Join? || (kind.Invite? && m[u].invited)) ==>
          && m'[u].displayName == Given(e.displayName, m[u].displayName)
          && m'[u].avatarUrl == Given(e.avatarUrl, m[u].avatarUrl)
          && (m'[u].invited <==> kind.Invite?))
    && (u !in m && u in m' ==>
          m'[u].displayName == Given(e.displayName, "") && m'[u].avatarUrl == Given(e.avatarUrl, ""))
    && (u in m' && m' != m ==> m'[u].userId == u)
  }

  lemma MembershipMeans(m: Members, e: MemberEvent)
    ensures FollowsEvent(m, e, ApplyMembership(m, e).0)
  {
  }

  /** The meaning of an event leaves no choice. */
  lemma FollowsEventOnce(m: Members, e: MemberEvent, a: Members, b: Members)
    requires UserIdsAgree(m) && FollowsEvent(m, e, a) && FollowsEvent(m, e, b)
    ensures a == b
  {
    var u := e.target;
    forall v | v != u ensures (v in a <==> v in b) && (v in a ==> a[v] == b[v]) {
      assert v in a <==> v in a - {u};
      assert v in b <==> v in b - {u};
      assert v in a ==> a[v] == (a - {u})[v] == (b - {u})[v] == b[v];
    }
    assert u in a ==> a[u].userId == u == b[u].userId;
  }

  /** The members of a room after some events. */
  function MembersAfter(events: seq<MemberEvent>): Members {
    if events == [] then map[] else ApplyMembership(MembersAfter(events[..|events| - 1]), events[|events| - 1]).0
  }

  predicate Leaves(e: MemberEvent, u: UserId) {
    e.target == u && (e.membership.Leave? || e.membership.Ban?)
  }

  predicate Joins(e: MemberEvent, u: UserId) {
    e.target == u && e.membership.Join?
  }

  predicate Invites(e: MemberEvent, u: UserId) {
    e.target == u && e.membership.Invite?
  }

  /** The event at `i` was not followed by one with which the user left. */
  ghost predicate StandsAt(events: seq<MemberEvent>, u: UserId, i: nat) {
    i < |events| && forall j :: i < j < |events| ==> !Leaves(events[j], u)
  }

  ghost predicate JoinStands(events: seq<MemberEvent>, u: UserId) {
    exists i :: 0 <= i < |events| && Joins(events[i], u) && StandsAt(events, u, i)
  }

  ghost predicate InvitationStands(events: seq<MemberEvent>, u: UserId) {
    exists i :: 0 <= i < |events| && Invites(events[i], u) && StandsAt(events, u, i)
  }

  lemma StandsNext(events: seq<MemberEvent>, u: UserId)
    requires events != []
    ensures
      var before, e := events[..|events| - 1], events[|events| - 1];
      && (JoinStands(events, u) <==> Joins(e, u) || (JoinStands(before, u) && !Leaves(e, u)))
      && (InvitationStands(events, u) <==> Invites(e, u) || (InvitationStands(before, u) && !Leaves(e, u)))
  {
    var n := |events| - 1;
    var before := events[..n];
    assert StandsAt(events, u, n);
    forall i: nat | i < n ensures StandsAt(events, u, i) <==> StandsAt(before, u, i) && !Leaves(events[n], u) {
      if StandsAt(before, u, i) && !Leaves(events[n], u) {
        assert forall j :: i < j < n ==> before[j] == events[j];
      }
      if StandsAt(events, u, i) {
        assert forall j :: i < j < n ==> before[j] == events[j];
      }
    }
    forall i | 0 <= i < n ensures before[i] == events[i] {
    }
  }

  /**
   * Over any events from an empty room: a user is a member exactly if some join or invitation was
   * not followed by leaving, and an invited one exactly if no join was.
   */
  lemma {:induction false} MembersFollowEvents(events: seq<MemberEvent>, u: UserId)
    ensures u in MembersAfter(events) <==> JoinStands(events, u) || InvitationStands(events, u)
    ensures u in MembersAfter(events) ==> (MembersAfter(events)[u].invited <==> !JoinStands(events, u))
  {
    if events == [] {
    } else {
      var before, e := events[..|events| - 1], events[|events| - 1];
      MembersFollowEvents(before, u);
      StandsNext(events, u);
      MembershipMeans(MembersAfter(before), e);
      var m, m' := MembersAfter(before), MembersAfter(events);
      if u != e.target {
        assert (u in m' <==> u in m' - {e.target}) && (u in m <==> u in m - {e.target});
        assert u in m ==> m'[u] == (m' - {e.target})[u] == m[u];
      }
      hide ApplyMembership, JoinStands, InvitationStands;
    }
  }

  function Lookup(names: map<string, seq<UserId>>, name: string): seq<UserId> {
    if name in names then names[name] else []
  }

  /** One entry of the index: exactly the users called `name`, each once. */
  ghost predicate EntryAgrees(listed: seq<UserId>, name: string, m: Members) {
    && Distinct(listed)
    && (forall u :: u in listed <==> u in m && m[u].Name() == name)
  }

  ghost predicate IndexAgrees(names: map<string, seq<UserId>>, m: Members) {
    forall n :: EntryAgrees(Lookup(names, n), n, m)
  }

  lemma IndexAfterAdd(names: map<string, seq<UserId>>, m: Members, u: UserId, member: Member)
    requires IndexAgrees(names, m) && u !in m
    ensures IndexAgrees(names[member.Name() := Lookup(names, member.Name()) + [u]], m[u := member])
  {
    var names' := names[member.Name() := Lookup(names, member.Name()) + [u]];
    forall n ensures EntryAgrees(Lookup(names', n), n, m[u := member]) {
      assert EntryAgrees(Lookup(names, n), n, m);
      DistinctAppend(Lookup(names, n), u);
    }
  }

  lemma IndexAfterRemove(names: map<string, seq<UserId>>, m: Members, u: UserId)
    requires IndexAgrees(names, m) && u in m
    ensures IndexAgrees(names[m[u].Name() := Remove(Lookup(names, m[u].Name()), u)], m - {u})
    ensures u in Lookup(names, m[u].Name())
  {
    var names' := names[m[u].Name() := Remove(Lookup(names, m[u].Name()), u)];
    forall n ensures EntryAgrees(Lookup(names', n), n, m - {u}) {
      assert EntryAgrees(Lookup(names, n), n, m);
      RemoveDistinct(Lookup(names, n), u);
    }
    assert EntryAgrees(Lookup(names, m[u].Name()), m[u].Name(), m);
  }

  lemma IndexAfterChange(names: map<string, seq<UserId>>, m: Members, u: UserId, member: Member)
    requires IndexAgrees(names, m) && u in m && member.Name() == m[u].Name()
    ensures IndexAgrees(names, m[u := member])
  {
    forall n ensures EntryAgrees(Lookup(names, n), n, m[u := member]) {
      assert EntryAgrees(Lookup(names, n), n, m);
    }
  }

  lemma IndexAfterRename(names: map<string, seq<UserId>>, m: Members, u: UserId, member: Member)
    requires IndexAgrees(names, m) && u in m
    ensures
      var removed := names[m[u].Name() := Remove(Lookup(names, m[u].Name()), u)];
      IndexAgrees(removed[member.Name() := Lookup(removed, member.Name()) + [u]], m[u := member])
  {
    var removed := names[m[u].Name() := Remove(Lookup(names, m[u].Name()), u)];
    IndexAfterRemove(names, m, u);
    IndexAfterAdd(removed, m - {u}, u, member);
    assert (m - {u})[u := member] == m[u := member];
  }

  lemma IndexLacksOthers(names: map<string, seq<UserId>>, m: Members, u: UserId, name: string)
    requires IndexAgrees(names, m) && u !in m
    ensures u !in Lookup(names, name)
  {
    assert EntryAgrees(Lookup(names, name), name, m);
  }

  /**
   * The source's dictionary of invited users holds the same objects as `users`; here it
   * is the set of its keys.
   */
  class MatrixRoom {
    const roomId: string
    const ownUserId: UserId
    var users: Members
    var order: seq<UserId>               // the iteration order of `users`
    var invitedUsers: set<UserId>
    var names: map<string, seq<UserId>>  // a defaultdict: read through Lookup

    constructor (roomId: string, ownUserId: UserId)
      ensures Valid() && users == map[]
    {
      this.roomId := roomId;
      this.ownUserId := ownUserId;
      users, order, invitedUsers, names := map[], [], {}, map[];
    }

    ghost predicate InvitedAgree()
      reads this
    {
      forall u :: u in invitedUsers <==> u in users && users[u].invited
    }

    ghost predicate Valid()
      reads this
    {
      UserIdsAgree(users) && InvitedAgree() && OrderAgrees(order, users) && IndexAgrees(names, users)
    }

    method AddMember(userId: UserId, displayName: string, avatarUrl: string, invited: bool) returns (added: bool)
      requires Valid()
      modifies this
      ensures Valid()
      ensures added <==> userId !in old(users)
      ensures users == if added then old(users)[userId := Member(userId, displayName, avatarUrl, invited)]
                       else old(users)
      ensures order == if added then old(order) + [userId] else old(order)
    {
      if userId in users {
        return false;
      }
      var user := Member(userId, displayName, avatarUrl, invited);
      IndexAfterAdd(names, users, userId, user);
      DistinctAppend(order, userId);
      users, order := users[userId := user], order + [userId];
      if invited {
        invitedUsers := invitedUsers + {userId};
      }
      var name := if displayName != "" then displayName else userId;
      names := names[name := Lookup(names, name) + [userId]];
      return true;
    }

    /** `self.names[name].remove(userId)`, which raises a ValueError unless the user is listed. */
    method RemoveFromIndex(name: string, userId: UserId)
      requires userId in Lookup(names, name)
      modifies this`names
      ensures names == old(names)[name := Remove(Lookup(old(names), name), userId)]
    {
      names := names[name := Remove(names[name], userId)];
    }

    method RemoveMember(userId: UserId) returns (removed: bool)
      requires Valid()
      modifies this
      ensures Valid()
      ensures removed <==> userId in old(users)
      ensures users == old(users) - {userId} && order == Remove(old(order), userId)
      // The first removal from the index finds the user; afterwards a second one would not.
      ensures removed ==> userId in Lookup(old(names), old(users)[userId].Name())
      ensures forall name :: userId !in Lookup(names, name)
    {
      RemoveDistinct(order, userId);
      var user := if userId in users then Some(users[userId]) else None;
      ghost var before := users;
      users, order := users - {userId}, Remove(order, userId);
      if user.Some? {
        IndexAfterRemove(names, before, userId);
        RemoveFromIndex(user.value.Name(), user.value.userId);
      }
      var wasInvited := userId in invitedUsers;
      invitedUsers := invitedUsers - {userId};
      if wasInvited {
        // The source removes the user from the index once more and swallows the ValueError;
        // that error is raised every time.
        IndexLacksOthers(names, users, userId, user.value.Name());
        assert user.value.userId !in Lookup(names, user.value.Name());
      }
      forall name ensures userId !in Lookup(names, name) {
        IndexLacksOthers(names, users, userId, name);
      }
      return user.Some? || wasInvited;
    }

    /** The invited flag of a known user, and with it the dictionary of invited users. */
    method SetInvited(userId: UserId, invited: bool)
      requires Valid() && userId in users && (invited ==> userId in invitedUsers)
      modifies this`users, this`invitedUsers
      ensures Valid()
      ensures users == old(users)[userId := old(users)[userId].(invited := invited)]
    {
      IndexAfterChange(names, users, userId, users[userId].(invited := invited));
      users := users[userId := users[userId].(invited := invited)];
      if !invited && userId in invitedUsers {
        invitedUsers := invitedUsers - {userId};
      }
    }

    method Rename(userId: UserId, displayName: string)
      requires Valid() && userId in users
      modifies this`users, this`names
      ensures Valid()
      ensures users == old(users)[userId := old(users)[userId].(displayName := displayName)]
    {
      var user := users[userId];
      var renamed := user.(displayName := displayName);
      IndexAfterRemove(names, users, userId);
      IndexAfterRename(names, users, userId, renamed);
      RemoveFromIndex(user.Name(), user.userId);
      users := users[userId := renamed];
      names := names[renamed.Name() := Lookup(names, renamed.Name()) + [renamed.userId]];
    }

    method SetAvatar(userId: UserId, avatarUrl: string)
      requires Valid() && userId in users
      modifies this`users
      ensures Valid()
      ensures users == old(users)[userId := old(users)[userId].(avatarUrl := avatarUrl)]
    {
      IndexAfterChange(names, users, userId, users[userId].(avatarUrl := avatarUrl));
      users := users[userId := users[userId].(avatarUrl := avatarUrl)];
    }

    method HandleMembership(e: MemberEvent) returns (changed: bool)
      requires Valid()
      modifies this
      ensures Valid()
      ensures (users, changed) == ApplyMembership(old(users), e) && FollowsEvent(old(users), e, users)
      ensures order == ApplyOrder(old(order), old(users), e)
    {
      hide IndexAgrees, OrderAgrees, FollowsEvent;
      MembershipMeans(users, e);
      var invited := e.membership.Invite?;
      if e.membership.Invite? || e.membership.Join? {
        if e.target !in users || (invited && e.target !in invitedUsers) {
          changed := AddMember(e.target, OrEmpty(e.displayName), OrEmpty(e.avatarUrl), invited);
          return;
        }
        SetInvited(e.target, invited);
        if e.displayName.Some? {
          Rename(e.target, e.displayName.value);
        }
        if e.avatarUrl.Some? {
          SetAvatar(e.target, e.avatarUrl.value);
        }
        assert users == old(users)[e.target := users[e.target]];
        return false;
      } else if e.membership.Leave? || e.membership.Ban? {
        changed := RemoveMember(e.target);
        return;
      }
      return false;
    }
  }
}
