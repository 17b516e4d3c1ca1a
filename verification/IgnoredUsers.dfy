/**
  The users that an account ignores, one by one. The program merges the content
  of the event that holds them, whose keys are not users.
 */
module IgnoredUsers {
  import opened Wrappers
  import opened Ordering
  import opened JsonMerge
  import opened Homeserver
  import opened Planning
  import opened Trace
  import opened LeaveSafety
  import opened Permissions
  import opened Replanning
  import opened CleanRuns

  /** The key of `m.ignored_user_list` that holds the users, each with an object. */
  const IGNORED_USERS := "ignored_users"

  /** The ignored users of an account, with their values. */
  function UsersIgnored(data: AccountData): JsonMap {
    var entries := IgnoredIn(data);
    if IGNORED_USERS in entries && entries[IGNORED_USERS].Object? then entries[IGNORED_USERS].fields else map[]
  }

  /** Both lists can be read, and the new user has none. */
  predicate NewUserHasNoList(m: Migration) {
    && m.GetIgnored(OldUser).Success? && m.GetIgnored(NewUser).Success?
    && IGNORED_USERS !in IgnoredIn(m.world.Global(m.newUser))
  }

  ghost predicate KeepsIgnoring(m: Migration, w: World) {
    Submap(UsersIgnored(m.world.Global(m.oldUser)), UsersIgnored(w.Global(m.newUser)))
  }

  lemma IgnoredAfter(m: Migration, w: World)
    requires w.Global(m.newUser) == m.world.Global(m.newUser) + m.GlobalData()
    ensures IgnoredIn(w.Global(m.newUser)) ==
            if m.IgnoredToSet().Some? then m.IgnoredToSet().value else IgnoredIn(m.world.Global(m.newUser))
  {
    hide Migration.IgnoredToSet, Migration.DirectToSet;
    GlobalDataEntries(m, m.world.Global(m.newUser));
  }

  /** Writing the merge changes the ignored users only from none to all of the old user's. */
  lemma UsersAfterWrite(m: Migration, w: World)
    requires w.Global(m.newUser) == m.world.Global(m.newUser) + m.GlobalData()
    ensures UsersIgnored(w.Global(m.newUser)) ==
            UsersIgnored(m.world.Global(if NewUserHasNoList(m) then m.oldUser else m.newUser))
  {
    IgnoredAfter(m, w);
    hide Migration.GlobalData, Migration.DirectToSet, World.Global;
    var from, into := IgnoredIn(m.world.Global(m.oldUser)), IgnoredIn(m.world.Global(m.newUser));
    if m.IgnoredToSet().Some? {
      assert m.GetIgnored(OldUser).Success? && m.GetIgnored(NewUser).Success?;
      assert m.IgnoredToSet().value == from + into;
    } else if m.GetIgnored(OldUser).Success? && m.GetIgnored(NewUser).Success? {
      assert from.Keys <= into.Keys;
    }
  }

  /**
    After a clean run the new user ignores everybody that the old user ignored,
    with equal values, if and only if both lists could be read and the new user
    had none, or every entry was in the new user's list already.
   */
  lemma IgnoredUsersKeptExactly(m: Migration, run: Run)
    requires CleanRun(m, run)
    ensures KeepsIgnoring(m, WorldAfter(m, run)) <==> NewUserHasNoList(m) || KeepsIgnoring(m, m.world)
  {
    hide CleanRun, WorldAfter, NewUserHasNoList, UsersIgnored, Migration.GlobalData, World.Global;
    CleanGlobals(m, run);
    UsersAfterWrite(m, WorldAfter(m, run));
  }

  // An example

  function IgnoringAccount(user: UserId): Account {
    Account(map[IGNORED_USER_LIST := JsonContent(map[IGNORED_USERS := Object(map[user := Object(map[])])])], map[])
  }

  function TwoLists(): Migration {
    Migration(World(map[], map["@old" := IgnoringAccount("@x"), "@new" := IgnoringAccount("@y")]), {}, "@old", "@new", {}, {}, true)
  }

  lemma TwoListsRead()
    ensures var m := TwoLists();
            && IgnoredIn(m.world.Global(m.oldUser)) == map[IGNORED_USERS := Object(map["@x" := Object(map[])])]
            && IgnoredIn(m.world.Global(m.newUser)) == map[IGNORED_USERS := Object(map["@y" := Object(map[])])]
            && m.GetIgnored(OldUser) == Success(Some(IgnoredIn(m.world.Global(m.oldUser))))
            && m.GetIgnored(NewUser) == Success(Some(IgnoredIn(m.world.Global(m.newUser))))
  {
    assert "@old"[1] != "@new"[1];
  }

  /**
    Each of two users ignores somebody else: nothing is written, one conflict is
    reported, and the user ignored by the old account alone stays unignored.
   */
  lemma TwoListsAreNotMerged() returns (m: Migration, run: Run)
    ensures m == TwoLists() && m.ListsJoinedRooms() && CleanRun(m, run)
    ensures m.IgnoredToSet() == None && |m.IgnoredErrors()| == 1 && m.IgnoredErrors()[0].IgnoredUserMerge?
    ensures "@x" in UsersIgnored(m.world.Global(m.oldUser)) && "@x" !in UsersIgnored(WorldAfter(m, run).Global(m.newUser))
  {
    m := TwoLists();
    TwoListsRead();
    var from, into := IgnoredIn(m.world.Global(m.oldUser)), IgnoredIn(m.world.Global(m.newUser));
    assert "@x"[1] != "@y"[1];
    assert Object(map["@x" := Object(map[])]) != Object(map["@y" := Object(map[])]) by {
      assert "@x" in map["@x" := Object(map[])];
    }
    assert m.ListsJoinedRooms();
    run := EveryPlanHasCleanRun(m);
    hide TwoLists, FetchIgnored, IgnoredIn, Migration.GetIgnored, CleanRun, WorldAfter, World.Global, Conflicts;
    CleanGlobals(m, run);
    UsersAfterWrite(m, WorldAfter(m, run));
    OneConflict(from, into);
    assert m.IgnoredErrors() == Migration.AsIgnoredErrors(Conflicts(from, into));
  }

  lemma CleanGlobals(m: Migration, run: Run)
    requires CleanRun(m, run)
    ensures WorldAfter(m, run).Global(m.newUser) == m.world.Global(m.newUser) + m.GlobalData()
  {
    CleanParts(m, run);
    hide Migration.FinalPlan, RunOf, Undisturbed, AfterLeaves, Migration.GlobalData;
    GlobalsDuringLeaves(m.world, m.FinalPlan(), run, |run.leaves|);
    PlanUsers(m);
    PlanGlobals(m);
  }

  /** Two maps with one and the same key. */
  lemma OneConflict(from: JsonMap, into: JsonMap)
    requires from.Keys == into.Keys == {IGNORED_USERS} && from[IGNORED_USERS] != into[IGNORED_USERS]
    ensures |Conflicts(from, into)| == 1
  {
    hide Conflicts, Below;
    var es := Conflicts(from, into);
    MergeReportsExactConflicts(from, into);
    assert exists e :: e in es && e.key == IGNORED_USERS;
    if |es| > 1 {
      assert es[0] in es && es[1] in es;
      BelowAsymmetric(es[0].key, es[1].key);
    }
  }
}
