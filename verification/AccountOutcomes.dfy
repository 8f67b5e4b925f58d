// What each operation on the account store leaves behind, field by field and
// said of the accounts that a later load shows.
module AccountOutcomes {
  import opened Outcomes
  import opened Accounts
  import opened AccountHistory

  // An account of our own, as a sign-in reports it.
  ghost predicate OwnFrom(a: Account, t: Tokens) {
    && a.id == t.id && a.title == t.title && a.accountId == t.accountId && a.access == t.access
    && a.refresh == t.refresh && a.expires == t.expires && a.source == "~/.threadlane/credentials.json"
  }

  // The first account that is the signed-in one, by id or upstream account.
  ghost predicate FirstMatch(accounts: seq<Account>, t: Tokens, i: int) {
    && 0 <= i < |accounts|
    && (accounts[i].id == t.id || (accounts[i].accountId.Some? && accounts[i].accountId == t.accountId))
    && forall k | 0 <= k < i ::
         accounts[k].id != t.id && (accounts[k].accountId.Some? ==> accounts[k].accountId != t.accountId)
  }

  // A sign-in renews its first match in place and nothing else, or adds one
  // account at the end; the mark is set only if there was none.
  lemma SignInStores(d: Disk, t: Tokens, migrated: bool)
    requires DiskOk(d)
    ensures var was, now := Loaded(d), Loaded(SignIn(d, t, migrated, true).0);
            && SignIn(d, t, migrated, true).1.Ok? && OwnFrom(SignIn(d, t, migrated, true).1.value, t)
            && now.active == (if was.active.Some? then was.active else Some(t.id))
            && (forall i | FirstMatch(was.accounts, t, i) ::
                  && |now.accounts| == |was.accounts| && RenewedBy(was.accounts[i], now.accounts[i], t)
                  && forall k | 0 <= k < |was.accounts| && k != i :: now.accounts[k] == was.accounts[k])
            && ((forall i :: !FirstMatch(was.accounts, t, i)) ==>
                  && |now.accounts| == |was.accounts| + 1 && was.accounts <= now.accounts
                  && OwnFrom(now.accounts[|was.accounts|], t))
  {
    SignInLoads(d, t, migrated, true);
    match First(Loaded(d).accounts, Signs(t)) {
      case Some(k) => assert FirstMatch(Loaded(d).accounts, t, k);
      case None =>
    }
  }

  // A removal takes out every account of that id and keeps the others in order;
  // a mark on it moves to the first that is left, and an emptied store is no file.
  lemma RemoveStores(d: Disk, id: string, migrated: bool)
    requires DiskOk(d)
    ensures Remove(d, id, migrated, true).1.Ok? <==> Names(Loaded(d).accounts, id)
    ensures forall k | 0 <= k < |Loaded(d).accounts| && Loaded(d).accounts[k].id == id ::
              var was, left := Loaded(d), Loaded(d).accounts[..k] + Loaded(d).accounts[k + 1..];
              var after := Remove(d, id, migrated, true).0;
              && after.cli == d.cli
              && (left == [] ==> after.file == Missing)
              && (left != [] ==> after.file == Current(Store(if was.active == Some(id) then Some(left[0].id) else was.active, left)))
  {
    LoadedOk(d);
    WithoutOk(Loaded(d), id);
    AfterLoadOk(d, migrated);
    forall k | 0 <= k < |Loaded(d).accounts| && Loaded(d).accounts[k].id == id
      ensures Filter(Loaded(d).accounts, Except(id)) == Loaded(d).accounts[..k] + Loaded(d).accounts[k + 1..]
    {
      ExceptOne(Loaded(d).accounts, k);
    }
  }

  // Choosing moves the mark and touches no account; it is refused exactly for an
  // id that is not shown.
  lemma ChoiceMovesTheMark(d: Disk, id: string, migrated: bool)
    requires DiskOk(d)
    ensures var was, (after, r) := Loaded(d), SetActive(d, id, migrated, true);
            && (r.Ok? <==> Names(Listed(was), id))
            && (r.Ok? ==> Loaded(after) == was.(active := Some(id)))
            && (r.Err? ==> r == Err(NotFound) && Loaded(after) == was)
  {
    LoadedOk(d);
    AfterLoadOk(d, migrated);
    FilterIs(Loaded(d).accounts, IsOwn);
    ShownIsSelectable(Loaded(d), id);
  }

  lemma ShownIsSelectable(s: Store, id: string)
    ensures First(s.accounts, Selectable(id, HasOwn(s))).Some? <==> Names(Listed(s), id)
  {
    FilterIs(s.accounts, IsOwn);
    forall k | 0 <= k < |s.accounts|
      ensures Selectable(id, HasOwn(s)).Holds(s.accounts[k]) <==> s.accounts[k].id == id && s.accounts[k] in Listed(s)
    {
      assert s.accounts[k] in s.accounts;
    }
    assert forall a | a in Listed(s) :: a in s.accounts;
  }

  ghost predicate Marks(s: Store, j: int) {
    0 <= j < |s.accounts| && s.active == Some(s.accounts[j].id)
  }

  ghost predicate IsOurs(s: Store, j: int) {
    0 <= j < |s.accounts| && s.accounts[j].source == "~/.threadlane/credentials.json"
  }

  lemma FirstIs(accounts: seq<Account>, q: Query, k: nat)
    requires k < |accounts| && q.Holds(accounts[k]) && forall j | 0 <= j < k :: !q.Holds(accounts[j])
    ensures First(accounts, q) == Some(k)
  {
  }

  lemma FirstIsNone(accounts: seq<Account>, q: Query)
    requires forall j | 0 <= j < |accounts| :: !q.Holds(accounts[j])
    ensures First(accounts, q) == None
  {
  }

  // Which account is used: of our own the marked one, or without one the first;
  lemma OurMarkedOneIsUsed(s: Store, k: nat)
    requires Marks(s, k) && IsOurs(s, k) && forall j | 0 <= j < k :: !(Marks(s, j) && IsOurs(s, j))
    ensures Active(s) == Some(s.accounts[k])
  {
    forall j | 0 <= j < k ensures !IsOwnActive(s.active).Holds(s.accounts[j]) {
      assert !(Marks(s, j) && IsOurs(s, j));
    }
    FirstIs(s.accounts, IsOwnActive(s.active), k);
  }

  lemma OurFirstOneIsUsed(s: Store, k: nat)
    requires IsOurs(s, k) && (forall j | 0 <= j < k :: !IsOurs(s, j)) && forall j | IsOurs(s, j) :: !Marks(s, j)
    ensures Active(s) == Some(s.accounts[k])
  {
    forall j | 0 <= j < |s.accounts| ensures !IsOwnActive(s.active).Holds(s.accounts[j]) {
      assert IsOurs(s, j) ==> !Marks(s, j);
    }
    forall j | 0 <= j < k ensures !IsOwn.Holds(s.accounts[j]) {
      assert !IsOurs(s, j);
    }
    FirstIsNone(s.accounts, IsOwnActive(s.active));
    FirstIs(s.accounts, IsOwn, k);
  }

  // with none of our own, the marked one, or without a mark the first.
  lemma MarkedOneIsUsed(s: Store, k: nat)
    requires k < |s.accounts| && forall j :: !IsOurs(s, j)
    requires if exists j :: Marks(s, j) then Marks(s, k) && (forall j | 0 <= j < k :: !Marks(s, j)) else k == 0
    ensures Active(s) == Some(s.accounts[k])
  {
    forall j | 0 <= j < |s.accounts| ensures !Own(s.accounts[j]) {
      assert !IsOurs(s, j);
    }
    FirstIsNone(s.accounts, IsOwnActive(s.active));
    FirstIsNone(s.accounts, IsOwn);
    if exists j :: Marks(s, j) {
      forall j | 0 <= j < k ensures !IsActive(s.active).Holds(s.accounts[j]) {
        assert !Marks(s, j);
      }
      FirstIs(s.accounts, IsActive(s.active), k);
    } else {
      forall j | 0 <= j < |s.accounts| ensures !IsActive(s.active).Holds(s.accounts[j]) {
        assert !Marks(s, j);
      }
      FirstIsNone(s.accounts, IsActive(s.active));
    }
  }

  // ----------------------------------------------------------------- Refreshes

  // New credentials on an account that stays itself.
  ghost predicate RefreshedTo(was: Account, now: Account, access: string, refresh: Option<string>, expires: Option<nat>) {
    && now.access == access && now.refresh == refresh && now.expires == expires
    && now.id == was.id && now.title == was.title && now.accountId == was.accountId && now.source == was.source
  }

  // A refresh that took off with an account's credentials and finds them still
  // there puts the new ones on that account and touches nothing else. If others
  // are there, it answers those and writes nothing; if none is, it says so.
  lemma RefreshStores(d: Disk, o: Account, r: Account, migrated: bool, k: nat)
    requires DiskOk(d) && k < |Loaded(d).accounts|
    requires Loaded(d).accounts[k].id == o.id && Loaded(d).accounts[k].source == "~/.threadlane/credentials.json"
    ensures var was, (after, result) := Loaded(d), Commit(d, o, r, migrated, true);
            var now := Loaded(after);
            result.Ok? &&
            if was.accounts[k].access == o.access && was.accounts[k].refresh == o.refresh
            then && now.active == was.active && |now.accounts| == |was.accounts|
                 && RefreshedTo(was.accounts[k], now.accounts[k], r.access, r.refresh, r.expires)
                 && result == Ok(now.accounts[k])
                 && forall j | 0 <= j < |was.accounts| && j != k :: now.accounts[j] == was.accounts[j]
            else now == was && result == Ok(was.accounts[k])
  {
    LoadedOk(d);
    CommitLoads(d, o, r, migrated, true);
    assert First(Loaded(d).accounts, IsOwnNamed(o.id)) == Some(k);
  }

  lemma RefreshFindsNone(d: Disk, o: Account, r: Account, migrated: bool, saved: bool)
    requires DiskOk(d)
    requires forall k | 0 <= k < |Loaded(d).accounts| ::
               Loaded(d).accounts[k].id != o.id || Loaded(d).accounts[k].source != "~/.threadlane/credentials.json"
    ensures Commit(d, o, r, migrated, saved).1 == Err(Disconnected)
    ensures Loaded(Commit(d, o, r, migrated, saved).0) == Loaded(d)
  {
    CommitLoads(d, o, r, migrated, saved);
  }

  // ------------------------------------------------------------------- Loading

  // What is shown: our own file if it holds accounts, else the one account of an
  // older file, else the other program's login, marked as active.
  lemma LoadingPrefersOurOwn(d: Disk)
    ensures d.file.Current? && d.file.store.accounts != [] ==> Loaded(d) == d.file.store
    ensures d.file.Old? && d.file.legacy.access != "" ==>
              var l, s := d.file.legacy, Loaded(d);
              && |s.accounts| == 1 && s.active == Some(s.accounts[0].id)
              && s.accounts[0].access == l.access && s.accounts[0].refresh == l.refresh
              && s.accounts[0].source == l.source && s.accounts[0].accountId == l.accountId
              && s.accounts[0].id == (if l.accountId.Some? then l.accountId.value else "account_1")
    ensures d.file.Missing? || d.file.Unreadable? || (d.file.Current? && d.file.store.accounts == [])
            || (d.file.Old? && d.file.legacy.access == "") ==>
              if d.cli.Some? then Loaded(d).accounts == [d.cli.value] && Loaded(d).active == Some(d.cli.value.id)
              else Loaded(d).accounts == [] && Loaded(d).active.None?
  {
  }

  // Loading an older file rewrites it, if it can, to a file that shows the same;
  // it touches no other.
  lemma LoadingMigrates(d: Disk, migrated: bool)
    requires DiskOk(d)
    ensures AfterLoad(d, migrated) == d.(file := AfterLoad(d, migrated).file) && Loaded(AfterLoad(d, migrated)) == Loaded(d)
    ensures d.file.Old? && d.file.legacy.access != "" && migrated ==>
              AfterLoad(d, migrated).file.Current? && AfterLoad(d, migrated).file.store == Loaded(d)
    ensures !migrated || !d.file.Old? || d.file.legacy.access == "" ==> AfterLoad(d, migrated) == d
  {
  }

  // Every operation that cannot write leaves what is shown as it was.
  lemma UnsavedChangesNothing(d: Disk, t: Tokens, o: Account, r: Account, id: string, migrated: bool)
    requires DiskOk(d)
    ensures Loaded(SignIn(d, t, migrated, false).0) == Loaded(d) && SignIn(d, t, migrated, false).1 == Err(NotSaved)
    ensures Loaded(Remove(d, id, migrated, false).0) == Loaded(d) || d.file.Missing?
    ensures Loaded(SetActive(d, id, migrated, false).0) == Loaded(d)
    ensures Loaded(Commit(d, o, r, migrated, false).0) == Loaded(d)
  {
    SignInLoads(d, t, migrated, false);
    SetActiveLoads(d, id, migrated, false);
    CommitLoads(d, o, r, migrated, false);
    AfterLoadOk(d, migrated);
  }
}
