/**
 * Family membership (the Family entity): the family's list of members and
 * each member's back-link to its family, kept in step by `addUser` and
 * `removeUser`.
 */
module Families {

  /** The first position of `x` in `s`. */
  function IndexOf<T(==)>(s: seq<T>, x: T): (i: nat)
    requires x in s
    ensures i < |s| && s[i] == x && x !in s[..i]
    decreases |s|
  {
    if s[0] == x then 0 else 1 + IndexOf(s[1..], x)
  }

  /** `List.remove(Object)`: the list without the first occurrence of `x`, if any. */
  function RemoveFirst<T(==)>(s: seq<T>, x: T): (r: seq<T>)
    ensures x !in s ==> r == s
    ensures x in s ==> |r| == |s| - 1
    decreases |s|
  {
    if s == [] then []
    else if s[0] == x then s[1..]
    else [s[0]] + RemoveFirst(s[1..], x)
  }

  /** Exactly one copy of `x` goes, when there is one, and nothing else. */
  lemma {:induction false} RemoveFirstMultiset<T>(s: seq<T>, x: T)
    ensures multiset(RemoveFirst(s, x)) == multiset(s) - multiset{x}
    decreases |s|
  {
    if s != [] {
      assert s == [s[0]] + s[1..];
      if s[0] != x {
        RemoveFirstMultiset(s[1..], x);
      }
    }
  }

  /**
   * Only the first occurrence goes: everything before it and everything
   * after it stays, in the same order.
   */
  lemma {:induction false} RemoveFirstSplit<T>(s: seq<T>, x: T)
    requires x in s
    ensures var i := IndexOf(s, x); RemoveFirst(s, x) == s[..i] + s[i + 1..]
    decreases |s|
  {
    if s[0] != x {
      RemoveFirstSplit(s[1..], x);
      var i := IndexOf(s[1..], x);
      assert s[1..][..i] == s[1..i + 1];
      assert s[1..][i + 1..] == s[i + 2..];
      assert [s[0]] + s[1..i + 1] == s[..i + 1];
    }
  }

  /** Removing a member that was added once to a list without it gives back the list. */
  lemma {:induction false} RemoveAfterAdd<T>(s: seq<T>, x: T)
    requires x !in s
    ensures RemoveFirst(s + [x], x) == s
    decreases |s|
  {
    if s != [] {
      assert (s + [x])[1..] == s[1..] + [x];
      RemoveAfterAdd(s[1..], x);
    }
  }

  /** Adding the same member twice and removing it once leaves it in the list. */
  lemma DuplicateSurvivesRemove<T>(s: seq<T>, x: T)
    ensures x in RemoveFirst(s + [x, x], x)
  {
    var r := RemoveFirst(s + [x, x], x);
    RemoveFirstMultiset(s + [x, x], x);
    assert multiset(s + [x, x]) == multiset(s) + multiset{x, x};
    assert multiset(r)[x] >= 1;
  }

  /** A user of the system; `family` is the owning side of the membership. */
  class Member {
    var family: Family?

    constructor ()
      ensures family == null
    {
      family := null;
    }
  }

  class Family {
    const id: nat
    var familyName: string
    var users: seq<Member>
    /** Invitations are identified by their ids; their contents are not modelled. */
    var invitations: seq<nat>

    constructor (id: nat, familyName: string)
      ensures this.id == id && this.familyName == familyName
      ensures users == [] && invitations == []
    {
      this.id := id;
      this.familyName := familyName;
      users := [];
      invitations := [];
    }

    /** Every listed member points back to this family. */
    ghost predicate Linked()
      reads this, users
    {
      forall i :: 0 <= i < |users| ==> users[i].family == this
    }

    /** `addUser`: append the user, duplicates included, and point it at this family. */
    method AddUser(user: Member)
      modifies this`users, user`family
      ensures users == old(users) + [user]
      ensures user.family == this
      ensures old(Linked()) ==> Linked()
    {
      users := users + [user];
      user.family := this;
    }

    /**
     * `removeUser`: drop the first occurrence of the user, if any, and clear
     * its family whether or not it was listed.
     */
    method RemoveUser(user: Member)
      modifies this`users, user`family
      ensures users == RemoveFirst(old(users), user)
      ensures user.family == null
      ensures user in users ==> !Linked()
      ensures old(Linked()) && user !in users ==> Linked()
    {
      var i := 0;
      while i < |users| && users[i] != user
        invariant 0 <= i <= |users|
        invariant user !in users[..i]
      {
        i := i + 1;
      }
      if i < |users| {
        assert IndexOf(users, user) == i;
        RemoveFirstSplit(users, user);
        users := users[..i] + users[i + 1..];
      } else {
        assert users[..i] == users;
      }
      user.family := null;
    }

    /** `updateFamilyName`: only the name changes. */
    method UpdateFamilyName(familyName: string)
      modifies this`familyName
      ensures this.familyName == familyName
    {
      this.familyName := familyName;
    }
  }
}
