/**
 * Project-member reconciliation on the board-creation page.
 *
 * The page keeps three lists: the universe of users (`allUsers`), the members
 * chosen so far (`currentMembers`) and the users that can still be added
 * (`availableUsers`). The last is never patched: after every change it is
 * recomputed from the other two by `Derive`, so it always lists the universe
 * minus the members, in universe order.
 */
module Membership {
  import opened Wrappers
  import opened Seqs
  import opened Text

  /** A user that can be put on a project; `userId` is its identity key. */
  datatype User = User(userId: string, userName: string, email: string)

  /** `members.some(m => m.userId === id)` */
  predicate HasUserId(members: seq<User>, id: string) {
    exists i :: 0 <= i < |members| && members[i].userId == id
  }

  /** No two members share a `userId`. */
  predicate NoDuplicateIds(members: seq<User>) {
    forall i, j :: 0 <= i < j < |members| ==> members[i].userId != members[j].userId
  }

  /**
   * The available users: the users of `all` whose `userId` no member has,
   * kept in the order `all` lists them.
   */
  function Derive(members: seq<User>, all: seq<User>): (r: seq<User>)
    ensures IsSubsequence(r, all)
    ensures forall u :: u in r <==> u in all && !HasUserId(members, u.userId)
  {
    if all == [] then []
    else if HasUserId(members, all[0].userId) then Derive(members, all[1..])
    else [all[0]] + Derive(members, all[1..])
  }

  /**
   * The derived list keeps every universe entry of a non-member exactly as
   * often as the universe lists it, and none of a member: with the order
   * given by `IsSubsequence`, it is exactly the filtered universe.
   */
  lemma {:induction false} DeriveCounts(members: seq<User>, all: seq<User>, u: User)
    ensures multiset(Derive(members, all))[u] == if HasUserId(members, u.userId) then 0 else multiset(all)[u]
  {
    if all != [] {
      DeriveCounts(members, all[1..], u);
      assert all == [all[0]] + all[1..];
    }
  }

  /** The members whose `userId` differs from `id`, in their original order. */
  function RemoveId(members: seq<User>, id: string): (r: seq<User>)
    ensures IsSubsequence(r, members)
    ensures forall u :: u in r <==> u in members && u.userId != id
  {
    if members == [] then []
    else if members[0].userId == id then RemoveId(members[1..], id)
    else [members[0]] + RemoveId(members[1..], id)
  }

  /** Removing by `userId` keeps each other member exactly as often as before and drops every entry with that `userId`. */
  lemma {:induction false} RemoveIdCounts(members: seq<User>, id: string, u: User)
    ensures multiset(RemoveId(members, id))[u] == if u.userId == id then 0 else multiset(members)[u]
  {
    if members != [] {
      RemoveIdCounts(members[1..], id, u);
      assert members == [members[0]] + members[1..];
    }
  }

  lemma HasUserIdAppend(members: seq<User>, u: User, id: string)
    ensures HasUserId(members + [u], id) <==> HasUserId(members, id) || u.userId == id
  {
    if HasUserId(members, id) {
      var i :| 0 <= i < |members| && members[i].userId == id;
      assert (members + [u])[i] == members[i];
    }
    if u.userId == id {
      assert (members + [u])[|members|] == u;
    }
  }

  /** With no members, every user of the universe is available. */
  lemma {:induction false} DeriveWithoutMembers(all: seq<User>)
    ensures Derive([], all) == all
  {
    if all != [] {
      DeriveWithoutMembers(all[1..]);
    }
  }

  /**
   * Re-deriving after an append gives what dropping the new member's
   * `userId` from the old available list would: the full re-derivation
   * and an incremental patch agree.
   */
  lemma {:induction false} DeriveAfterAppend(members: seq<User>, all: seq<User>, u: User)
    ensures Derive(members + [u], all) == RemoveId(Derive(members, all), u.userId)
  {
    if all != [] {
      HasUserIdAppend(members, u, all[0].userId);
      DeriveAfterAppend(members, all[1..], u);
    }
  }

  /** Appending a user whose `userId` is new and then removing that `userId` gives the members back. */
  lemma {:induction false} RemoveAfterAppend(members: seq<User>, u: User)
    requires !HasUserId(members, u.userId)
    ensures RemoveId(members + [u], u.userId) == members
  {
    if members == [] {
      assert [] + [u] == [u];
    } else {
      assert (members + [u])[1..] == members[1..] + [u];
      assert members[0] == members[..][0];
      assert !HasUserId(members[1..], u.userId) by {
        forall i | 0 <= i < |members[1..]| ensures members[1..][i].userId != u.userId {
          assert members[1..][i] == members[i + 1];
        }
      }
      RemoveAfterAppend(members[1..], u);
      assert members == [members[0]] + members[1..];
    }
  }

  /** Adding a user and removing it again restores both the members and the available users. */
  lemma AddThenRemoveRestores(members: seq<User>, all: seq<User>, u: User)
    requires !HasUserId(members, u.userId)
    ensures RemoveId(members + [u], u.userId) == members
    ensures Derive(RemoveId(members + [u], u.userId), all) == Derive(members, all)
  {
    RemoveAfterAppend(members, u);
  }

  lemma AppendKeepsNoDuplicates(members: seq<User>, u: User)
    requires NoDuplicateIds(members) && !HasUserId(members, u.userId)
    ensures NoDuplicateIds(members + [u])
  {
    var m := members + [u];
    forall i, j | 0 <= i < j < |m| ensures m[i].userId != m[j].userId {
      if j == |members| {
        assert m[i] == members[i];
      } else {
        assert m[i] == members[i] && m[j] == members[j];
      }
    }
  }

  lemma {:induction false} RemoveKeepsNoDuplicates(members: seq<User>, id: string)
    requires NoDuplicateIds(members)
    ensures NoDuplicateIds(RemoveId(members, id))
  {
    if members != [] {
      var rest := members[1..];
      assert NoDuplicateIds(rest) by {
        forall i, j | 0 <= i < j < |rest| ensures rest[i].userId != rest[j].userId {
          assert rest[i] == members[i + 1] && rest[j] == members[j + 1];
        }
      }
      RemoveKeepsNoDuplicates(rest, id);
      if members[0].userId != id {
        var r := RemoveId(members, id);
        var tail := RemoveId(rest, id);
        assert r == [members[0]] + tail;
        forall i, j | 0 <= i < j < |r| ensures r[i].userId != r[j].userId {
          if i == 0 {
            assert r[j] == tail[j - 1];
            assert tail[j - 1] in rest;
            var k :| 0 <= k < |rest| && rest[k] == tail[j - 1];
            assert rest[k] == members[k + 1];
          } else {
            assert r[i] == tail[i - 1] && r[j] == tail[j - 1];
          }
        }
      }
    }
  }

  /** What `save` sends: the form's fields and the members, verbatim. */
  datatype BoardPayload = BoardPayload(name: string, content: string, startDate: string,
                                       endDate: string, memberList: seq<User>)

  /** `save` either stops on a blank name without sending, or sends a payload. */
  datatype BoardSave = BlankName | Send(payload: BoardPayload)

  /** The state of the board-creation page. */
  class BoardForm {
    var name: string
    var content: string
    var startDate: string
    var endDate: string
    var currentMembers: seq<User>
    var allUsers: seq<User>
    var availableUsers: seq<User>

    /**
     * The available list is the derived one, the members are a set keyed by
     * `userId`, and every member is a user of the universe: members and
     * available users partition the universe by `userId`.
     */
    ghost predicate Valid()
      reads this
    {
      availableUsers == Derive(currentMembers, allUsers) && NoDuplicateIds(currentMembers) &&
      forall m :: m in currentMembers ==> m in allUsers
    }

    /** The page as it mounts: every field empty. */
    constructor ()
      ensures Valid()
      ensures name == "" && content == "" && startDate == "" && endDate == ""
      ensures currentMembers == [] && allUsers == [] && availableUsers == []
    {
      name, content, startDate, endDate := "", "", "", "";
      currentMembers, allUsers, availableUsers := [], [], [];
    }

    /**
     * `loadAllUsers`, run once on mount: the fetched list (or `[]` when the
     * response has no `userAllList`) becomes both the universe and the
     * available list; a failed request changes nothing. It runs before any
     * member can be added, since the add buttons are rendered from the
     * available list, which is empty until this load completes.
     */
    method LoadAllUsers(response: Fetch<Option<seq<User>>>)
      requires Valid() && currentMembers == []
      modifies this`allUsers, this`availableUsers
      ensures Valid()
      ensures response.Failed? ==> allUsers == old(allUsers) && availableUsers == old(availableUsers)
      ensures response.Received? ==> allUsers == response.body.GetOr([]) && availableUsers == allUsers
      ensures currentMembers == []
    {
      if response.Received? {
        var list := response.body.GetOr([]);
        allUsers := list;
        availableUsers := list;
        DeriveWithoutMembers(list);
      }
    }

    /** `refreshAvailableUsers(members, all)`: overwrite the available list with the derived one. */
    method RefreshAvailableUsers(members: seq<User>, all: seq<User>)
      modifies this`availableUsers
      ensures availableUsers == Derive(members, all)
    {
      availableUsers := Derive(members, all);
    }

    /**
     * `addMember(user)`: append the user, then re-derive the available list.
     * The user comes from an add button, and add buttons are rendered only
     * for available users, so its `userId` is not yet a member's.
     */
    method AddMember(user: User)
      requires Valid() && user in availableUsers
      modifies this`currentMembers, this`availableUsers
      ensures Valid()
      ensures currentMembers == old(currentMembers) + [user]
      ensures availableUsers == RemoveId(old(availableUsers), user.userId)
      ensures allUsers == old(allUsers)
    {
      var newMembers := currentMembers + [user];
      currentMembers := newMembers;
      RefreshAvailableUsers(newMembers, allUsers);
      DeriveAfterAppend(old(currentMembers), allUsers, user);
      AppendKeepsNoDuplicates(old(currentMembers), user);
    }

    /**
     * `removeMember(user)`: drop every member with the user's `userId`, then
     * re-derive the available list, so the user reappears at its universe
     * position.
     */
    method RemoveMember(user: User)
      requires Valid()
      modifies this`currentMembers, this`availableUsers
      ensures Valid()
      ensures currentMembers == RemoveId(old(currentMembers), user.userId)
      ensures availableUsers == Derive(currentMembers, allUsers)
      ensures allUsers == old(allUsers)
    {
      var newMembers := RemoveId(currentMembers, user.userId);
      currentMembers := newMembers;
      RefreshAvailableUsers(newMembers, allUsers);
      RemoveKeepsNoDuplicates(old(currentMembers), user.userId);
    }

    /** `save`'s validation and request body: a blank name sends nothing; otherwise the members go out verbatim. */
    method Save() returns (r: BoardSave)
      ensures r.BlankName? <==> IsBlank(name)
      ensures r.Send? ==> r.payload == BoardPayload(name, content, startDate, endDate, currentMembers)
    {
      if Trim(name) == "" {
        return BlankName;
      }
      r := Send(BoardPayload(name, content, startDate, endDate, currentMembers));
    }
  }

  /**
   * The page's creation flow on a three-user universe: add B, add A, remove
   * B. After the removal B is available again ahead of C, at its universe
   * position, not at the end of the list.
   */
  lemma CreationFlow(a: User, b: User, c: User)
    requires a.userId != b.userId && b.userId != c.userId && a.userId != c.userId
    ensures Derive([], [a, b, c]) == [a, b, c]
    ensures Derive([b], [a, b, c]) == [a, c]
    ensures Derive([b, a], [a, b, c]) == [c]
    ensures RemoveId([b, a], b.userId) == [a]
    ensures Derive([a], [a, b, c]) == [b, c]
  {
    DeriveWithoutMembers([a, b, c]);
    assert [a, b, c][1..] == [b, c] && [b, c][1..] == [c] && [c][1..] == [];
    assert HasUserId([b], b.userId) && !HasUserId([b], a.userId) && !HasUserId([b], c.userId);
    assert Derive([b], [c]) == [c];
    assert Derive([b], [b, c]) == [c];
    assert [b, a][0] == b && [b, a][1] == a;
    assert HasUserId([b, a], a.userId) && HasUserId([b, a], b.userId);
    assert !HasUserId([b, a], c.userId);
    assert Derive([b, a], [c]) == [c];
    assert Derive([b, a], [b, c]) == [c];
    assert [b, a][1..] == [a];
    assert RemoveId([a], b.userId) == [a];
    assert HasUserId([a], a.userId) && !HasUserId([a], b.userId) && !HasUserId([a], c.userId);
    assert Derive([a], [c]) == [c];
    assert Derive([a], [b, c]) == [b, c];
  }
}
