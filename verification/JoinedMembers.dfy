/** A `/joined_members` response: the list of everyone who has joined a room. */
module JoinedMembers {
  import opened Sequences
  import Rooms

  type UserId = string

  /** The users of a room and their iteration order. */
  datatype Roster = Roster(members: Rooms.Members, order: seq<UserId>) {
    ghost predicate Valid() {
      Rooms.OrderAgrees(order, members)
    }
  }

  function Ids(ms: seq<Rooms.Member>): (r: set<UserId>)
    ensures forall u :: u in r <==> exists m :: m in ms && m.userId == u
  {
    set m | m in ms :: m.userId
  }

  /** The first loop: members that joined are removed unless the response lists them. */
  function Keep(m: Rooms.Members, ids: set<UserId>): Rooms.Members {
    map u | u in m && (m[u].invited || u in ids) :: m[u]
  }

  /** One round of the second loop: `add_member`, which leaves known members alone. */
  function AddOne(r: Roster, m: Rooms.Member): Roster {
    if m.userId in r.members then r
    else Roster(r.members[m.userId := m.(invited := false)], r.order + [m.userId])
  }

  function AddAll(r: Roster, ms: seq<Rooms.Member>): Roster
    decreases |ms|
  {
    if ms == [] then r else AddAll(AddOne(r, ms[0]), ms[1..])
  }

  /** `_handle_joined_members` for the users of one room. */
  function Refresh(r: Roster, ms: seq<Rooms.Member>): Roster {
    var kept := Keep(r.members, Ids(ms));
    AddAll(Roster(kept, Filter((u: UserId) => u in kept, r.order)), ms)
  }

  lemma AddOneAdds(r: Roster, m: Rooms.Member)
    requires r.Valid()
    ensures AddOne(r, m).Valid() && AddOne(r, m).members.Keys == r.members.Keys + {m.userId}
  {
    DistinctAppend(r.order, m.userId);
  }

  lemma {:induction false} AddAllAdds(r: Roster, ms: seq<Rooms.Member>)
    requires r.Valid()
    decreases |ms|
    ensures AddAll(r, ms).Valid() && AddAll(r, ms).members.Keys == r.members.Keys + Ids(ms)
  {
    if ms == [] {
    } else {
      assert ms == [ms[0]] + ms[1..];
      assert Ids(ms) == {ms[0].userId} + Ids(ms[1..]);
      AddOneAdds(r, ms[0]);
      hide AddOne, Ids;
      AddAllAdds(AddOne(r, ms[0]), ms[1..]);
    }
  }

  /** A newcomer's record is one from the list, without an invitation. */
  ghost predicate FromList(member: Rooms.Member, u: UserId, ms: seq<Rooms.Member>) {
    exists m :: m in ms && m.userId == u && member == m.(invited := false)
  }

  lemma {:induction false} AddAllRecords(r: Roster, ms: seq<Rooms.Member>)
    decreases |ms|
    ensures
      var m := AddAll(r, ms).members;
      && (forall u :: u in r.members ==> u in m && m[u] == r.members[u])
      && (forall u :: u in m && u !in r.members ==> FromList(m[u], u, ms))
      && (exists added :: AddAll(r, ms).order == r.order + added)
  {
    if ms == [] {
      assert r.order == r.order + [];
    } else {
      var r1 := AddOne(r, ms[0]);
      AddAllRecords(r1, ms[1..]);
      var added :| AddAll(r1, ms[1..]).order == r1.order + added;
      assert r1.order == r.order || r1.order + added == r.order + ([ms[0].userId] + added);
      assert ms[0].userId in r1.members;
      hide FromList;
      forall u | u in AddAll(r, ms).members && u !in r.members ensures FromList(AddAll(r, ms).members[u], u, ms) {
        if u in r1.members {
          FirstOfList(ms);
        } else {
          FromListLater(AddAll(r, ms).members[u], u, ms);
        }
      }
    }
  }

  lemma FirstOfList(ms: seq<Rooms.Member>)
    requires ms != []
    ensures FromList(ms[0].(invited := false), ms[0].userId, ms)
  {
    assert ms[0] in ms;
  }

  lemma FromListLater(member: Rooms.Member, u: UserId, ms: seq<Rooms.Member>)
    requires ms != [] && FromList(member, u, ms[1..])
    ensures FromList(member, u, ms)
  {
    assert forall m :: m in ms[1..] ==> m in ms;
  }

  /** Those who stay keep their records and their order; a newcomer is listed, comes behind them, and is not invited. */
  lemma RefreshedRecords(r: Roster, ms: seq<Rooms.Member>)
    ensures
      var r' := Refresh(r, ms);
      var stays := (u: UserId) => u in r.members && (r.members[u].invited || u in Ids(ms));
      && (forall u :: u in r.members && stays(u) ==> u in r'.members && r'.members[u] == r.members[u])
      && (forall u :: u in r'.members && !stays(u) ==> FromList(r'.members[u], u, ms))
      && Filter(stays, r.order) <= r'.order
  {
    var kept := Keep(r.members, Ids(ms));
    var stays := (u: UserId) => u in r.members && (r.members[u].invited || u in Ids(ms));
    FilterSame((u: UserId) => u in kept, stays, r.order);
    AddAllRecords(Roster(kept, Filter((u: UserId) => u in kept, r.order)), ms);
  }

  /** Afterwards the members are those listed and those with an invitation. */
  lemma RefreshedMembers(r: Roster, ms: seq<Rooms.Member>)
    requires r.Valid()
    ensures Refresh(r, ms).Valid()
    ensures forall u ::
              u in Refresh(r, ms).members <==> u in Ids(ms) || (u in r.members && r.members[u].invited)
  {
    var kept := Keep(r.members, Ids(ms));
    var order := Filter((u: UserId) => u in kept, r.order);
    FilterDistinct((u: UserId) => u in kept, r.order);
    forall u ensures u in order <==> u in kept {
      assert u in r.order <==> u in Elems(r.order);
    }
    assert Rooms.OrderAgrees(order, kept);
    AddAllAdds(Roster(kept, order), ms);
    hide Rooms.OrderAgrees, AddAll, Ids;
    forall u ensures u in Refresh(r, ms).members <==> u in Ids(ms) || (u in r.members && r.members[u].invited) {
      assert u in Refresh(r, ms).members.Keys <==> u in kept.Keys + Ids(ms);
    }
  }
}
