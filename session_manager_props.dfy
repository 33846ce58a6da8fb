/** What the session listing promises: the sort is a stable permutation into
    timestamp order, the limit keeps a prefix, every listed session is one a
    directory entry names, and the most recent session is the first newest
    one in directory order. */
module SessionManagerProps {
  import opened Wrappers
  import opened SessionParser
  import opened SessionManager

  // ---------------------------------------------------------------------
  // The sort

  lemma {:induction false} InsertPermutes(x: SessionInfo, ss: seq<SessionInfo>, field: SortKey, order: SortOrder)
    ensures multiset(Insert(x, ss, field, order)) == multiset(ss) + multiset{x}
  {
    if ss != [] && !Before(x, ss[0], field, order) {
      InsertPermutes(x, ss[1..], field, order);
      assert ss == [ss[0]] + ss[1..];
    }
  }

  /** The sort is a permutation of its input. */
  lemma {:induction false} SortPermutes(ss: seq<SessionInfo>, field: SortKey, order: SortOrder)
    ensures multiset(SortSessions(ss, field, order)) == multiset(ss)
  {
    if ss != [] {
      var pre := ss[..|ss| - 1];
      SortPermutes(pre, field, order);
      InsertPermutes(ss[|ss| - 1], SortSessions(pre, field, order), field, order);
      assert ss == pre + [ss[|ss| - 1]];
    }
  }

  lemma {:induction false} InsertSorted(x: SessionInfo, ss: seq<SessionInfo>, field: SortKey, order: SortOrder)
    requires Sorted(ss, field, order)
    ensures Sorted(Insert(x, ss, field, order), field, order)
  {
    if ss != [] && !Before(x, ss[0], field, order) {
      var rest := Insert(x, ss[1..], field, order);
      InsertSorted(x, ss[1..], field, order);
      InsertPermutes(x, ss[1..], field, order);
      forall j | 0 <= j < |rest|
        ensures InOrder(ss[0], rest[j], field, order)
      {
        assert rest[j] in multiset(rest);
        if rest[j] != x {
          assert rest[j] in ss[1..];
        }
      }
    }
  }

  /** The sort puts the sessions in timestamp order. */
  lemma {:induction false} SortSorted(ss: seq<SessionInfo>, field: SortKey, order: SortOrder)
    ensures Sorted(SortSessions(ss, field, order), field, order)
  {
    if ss != [] {
      SortSorted(ss[..|ss| - 1], field, order);
      InsertSorted(ss[|ss| - 1], SortSessions(ss[..|ss| - 1], field, order), field, order);
    }
  }

  lemma {:induction false} WithKeyAppend(a: seq<SessionInfo>, b: seq<SessionInfo>, field: SortKey, k: int)
    ensures WithKey(a + b, field, k) == WithKey(a, field, k) + WithKey(b, field, k)
  {
    if a != [] {
      WithKeyAppend(a[1..], b, field, k);
      assert (a + b)[0] == a[0] && (a + b)[1..] == a[1..] + b;
      if Key(a[0], field) == k {
        assert [a[0]] + (WithKey(a[1..], field, k) + WithKey(b, field, k))
            == ([a[0]] + WithKey(a[1..], field, k)) + WithKey(b, field, k);
      }
    } else {
      assert a + b == b;
    }
  }

  lemma {:induction false} WithKeyAbsent(ss: seq<SessionInfo>, field: SortKey, k: int)
    requires forall j :: 0 <= j < |ss| ==> Key(ss[j], field) != k
    ensures WithKey(ss, field, k) == []
  {
    if ss != [] {
      WithKeyAbsent(ss[1..], field, k);
    }
  }

  /** A session placed in front of a sorted list shares its timestamp with
      none of the list. */
  lemma InsertInFront(x: SessionInfo, ss: seq<SessionInfo>, field: SortKey, order: SortOrder, k: int)
    requires Sorted(ss, field, order) && ss != [] && Before(x, ss[0], field, order)
    ensures WithKey([x] + ss, field, k) == WithKey(ss, field, k) + (if Key(x, field) == k then [x] else [])
  {
    assert ([x] + ss)[1..] == ss;
    if Key(x, field) == k {
      WithKeyAbsent(ss, field, k);
    }
  }

  lemma {:induction false} InsertWithKey(x: SessionInfo, ss: seq<SessionInfo>, field: SortKey, order: SortOrder, k: int)
    requires Sorted(ss, field, order)
    ensures WithKey(Insert(x, ss, field, order), field, k)
            == WithKey(ss, field, k) + (if Key(x, field) == k then [x] else [])
  {
    if ss == [] {
    } else if Before(x, ss[0], field, order) {
      InsertInFront(x, ss, field, order, k);
    } else {
      InsertWithKey(x, ss[1..], field, order, k);
      var head := if Key(ss[0], field) == k then [ss[0]] else [];
      var tail := if Key(x, field) == k then [x] else [];
      assert ([ss[0]] + Insert(x, ss[1..], field, order))[1..] == Insert(x, ss[1..], field, order);
      assert head + (WithKey(ss[1..], field, k) + tail) == (head + WithKey(ss[1..], field, k)) + tail;
    }
  }

  /** The sort is stable: the sessions sharing a timestamp keep their
      relative order. */
  lemma {:induction false} SortStable(ss: seq<SessionInfo>, field: SortKey, order: SortOrder, k: int)
    ensures WithKey(SortSessions(ss, field, order), field, k) == WithKey(ss, field, k)
  {
    if ss != [] {
      var pre, x := ss[..|ss| - 1], ss[|ss| - 1];
      SortStable(pre, field, order, k);
      SortSorted(pre, field, order);
      InsertWithKey(x, SortSessions(pre, field, order), field, order, k);
      assert ss == pre + [x];
      WithKeyAppend(pre, [x], field, k);
    }
  }

  /** `ss[i]` has the latest timestamp of `ss`, and every session before it
      an earlier one. */
  predicate IsFirstNewest(ss: seq<SessionInfo>, i: int, field: SortKey) {
    && 0 <= i < |ss|
    && (forall j :: 0 <= j < |ss| ==> Key(ss[j], field) <= Key(ss[i], field))
    && (forall j :: 0 <= j < i ==> Key(ss[j], field) < Key(ss[i], field))
  }

  lemma SortLength(ss: seq<SessionInfo>, field: SortKey, order: SortOrder)
    ensures |SortSessions(ss, field, order)| == |ss|
  {
    SortPermutes(ss, field, order);
    assert |multiset(SortSessions(ss, field, order))| == |multiset(ss)|;
  }

  lemma InsertHead(x: SessionInfo, ss: seq<SessionInfo>, field: SortKey)
    requires ss != []
    ensures Insert(x, ss, field, Desc)[0] == if Key(x, field) > Key(ss[0], field) then x else ss[0]
  {
  }

  /** Adding a session at the end: it becomes the first newest when it is
      strictly newer, else the first newest stays. */
  lemma NewestExtend(ss: seq<SessionInfo>, i: int, field: SortKey)
    requires |ss| >= 2 && IsFirstNewest(ss[..|ss| - 1], i, field)
    ensures Key(ss[|ss| - 1], field) > Key(ss[i], field) ==> IsFirstNewest(ss, |ss| - 1, field)
    ensures Key(ss[|ss| - 1], field) <= Key(ss[i], field) ==> IsFirstNewest(ss, i, field)
  {
    var pre := ss[..|ss| - 1];
    assert ss[i] == pre[i];
    if Key(ss[|ss| - 1], field) > Key(ss[i], field) {
      forall j | 0 <= j < |ss| - 1
        ensures Key(ss[j], field) < Key(ss[|ss| - 1], field)
      {
        assert ss[j] == pre[j];
      }
    } else {
      forall j | 0 <= j < |ss|
        ensures Key(ss[j], field) <= Key(ss[i], field)
      {
        if j < |pre| {
          assert ss[j] == pre[j];
          assert Key(pre[j], field) <= Key(pre[i], field);
        } else {
          assert j == |ss| - 1;
        }
      }
      forall j | 0 <= j < i
        ensures Key(ss[j], field) < Key(ss[i], field)
      {
        assert ss[j] == pre[j];
      }
    }
  }

  /** Newest first, the first session is the earliest in the input among
      those with the latest timestamp. */
  lemma {:induction false} SortHead(ss: seq<SessionInfo>, field: SortKey)
    requires |ss| > 0
    ensures exists i :: IsFirstNewest(ss, i, field) && SortSessions(ss, field, Desc)[0] == ss[i]
  {
    SortLength(ss, field, Desc);
    var pre, x := ss[..|ss| - 1], ss[|ss| - 1];
    if pre == [] {
      assert IsFirstNewest(ss, 0, field);
    } else {
      SortHead(pre, field);
      SortLength(pre, field, Desc);
      var i :| IsFirstNewest(pre, i, field) && SortSessions(pre, field, Desc)[0] == pre[i];
      InsertHead(x, SortSessions(pre, field, Desc), field);
      NewestExtend(ss, i, field);
      assert ss[i] == pre[i];
      if Key(x, field) > Key(pre[i], field) {
        assert SortSessions(ss, field, Desc)[0] == ss[|ss| - 1];
      } else {
        assert SortSessions(ss, field, Desc)[0] == ss[i];
      }
    }
  }

  // ---------------------------------------------------------------------
  // Loading and listing

  /** A session is loaded exactly when some directory entry's workspace file
      parses to it. */
  lemma {:induction false} LoadedMembers(store: SessionStore, es: seq<DirEntry>, s: SessionInfo)
    ensures s in Loaded(store, es) <==>
      exists i :: 0 <= i < |es| && es[i].isDirectory && Workspace(store, es[i].name) == Success(s)
  {
    if es != [] {
      var pre := es[..|es| - 1];
      LoadedMembers(store, pre, s);
      if s in Loaded(store, es) {
        if s in Loaded(store, pre) {
          var i :| 0 <= i < |pre| && pre[i].isDirectory && Workspace(store, pre[i].name) == Success(s);
          assert es[i] == pre[i];
        } else {
          assert s in LoadEntry(store, es[|es| - 1]);
        }
      }
      if exists i :: 0 <= i < |es| && es[i].isDirectory && Workspace(store, es[i].name) == Success(s) {
        var i :| 0 <= i < |es| && es[i].isDirectory && Workspace(store, es[i].name) == Success(s);
        if i < |pre| {
          assert pre[i] == es[i];
        }
      }
    }
  }

  /** Without a session directory there is nothing to list. */
  lemma ListingOfMissingDirectory(store: SessionStore, options: ListOptions)
    requires !store.present
    ensures Listing(store, options) == []
  {
  }

  /** The listing is in the requested timestamp order. */
  lemma ListingIsSorted(store: SessionStore, options: ListOptions)
    ensures Sorted(Listing(store, options), SortKeyOf(options), SortOrderOf(options))
  {
    if store.present {
      SortSorted(Loaded(store, store.entries), SortKeyOf(options), SortOrderOf(options));
    }
  }

  /** Without a positive limit the listing is a stable permutation of the
      loaded sessions. */
  lemma ListingUnlimited(store: SessionStore, options: ListOptions, k: int)
    requires store.present && (options.limit.None? || options.limit.value <= 0)
    ensures multiset(Listing(store, options)) == multiset(Loaded(store, store.entries))
    ensures WithKey(Listing(store, options), SortKeyOf(options), k)
            == WithKey(Loaded(store, store.entries), SortKeyOf(options), k)
  {
    SortPermutes(Loaded(store, store.entries), SortKeyOf(options), SortOrderOf(options));
    SortStable(Loaded(store, store.entries), SortKeyOf(options), SortOrderOf(options), k);
  }

  /** A positive limit keeps the first `min(limit, n)` sorted sessions. */
  lemma ListingLimited(store: SessionStore, options: ListOptions)
    requires store.present && options.limit.Some? && options.limit.value > 0
    ensures var all := SortSessions(Loaded(store, store.entries), SortKeyOf(options), SortOrderOf(options));
            && |Listing(store, options)| == (if options.limit.value < |all| then options.limit.value else |all|)
            && Listing(store, options) == all[..|Listing(store, options)|]
  {
  }

  /** Every listed session is what `getSession` finds for some directory
      entry. */
  lemma ListedSessionsAreFound(store: SessionStore, options: ListOptions, s: SessionInfo)
    requires s in Listing(store, options)
    ensures exists e :: e in store.entries && e.isDirectory && GetSession(store, e.name) == Success(s)
  {
    var loaded := Loaded(store, store.entries);
    var sorted := SortSessions(loaded, SortKeyOf(options), SortOrderOf(options));
    SortPermutes(loaded, SortKeyOf(options), SortOrderOf(options));
    assert s in sorted;
    assert s in multiset(sorted);
    LoadedMembers(store, store.entries, s);
    var i :| 0 <= i < |store.entries| && store.entries[i].isDirectory && Workspace(store, store.entries[i].name) == Success(s);
    assert store.entries[i] in store.entries;
  }

  /** The most recent session exists exactly when some session loads, and is
      then the first loaded session, in directory order, among those updated
      last. */
  lemma MostRecentIsNewest(store: SessionStore)
    ensures Listing(store, MostRecentOptions) == [] <==> !store.present || Loaded(store, store.entries) == []
    ensures Listing(store, MostRecentOptions) != [] ==>
      exists i :: (&& IsFirstNewest(Loaded(store, store.entries), i, UpdatedAt)
                   && Listing(store, MostRecentOptions)[0] == Loaded(store, store.entries)[i])
  {
    var loaded := Loaded(store, store.entries);
    if store.present {
      SortLength(loaded, UpdatedAt, Desc);
      if loaded != [] {
        SortHead(loaded, UpdatedAt);
      }
    }
  }

  /** Whether a session exists depends on its directory alone, not on its
      workspace file. */
  lemma ExistenceIgnoresWorkspace(store: SessionStore, read: string -> Result<string, string>,
                                  yaml: string -> Result<WorkspaceYaml, string>, sessionId: string)
    ensures SessionExists(store.(read := read, yaml := yaml), sessionId) == SessionExists(store, sessionId)
  {
  }
}
