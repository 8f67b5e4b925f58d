// What sign-ins, removals and refreshes in flight keep true of the account
// store, in whatever order they land.
module AccountHistory {
  import opened Outcomes
  import opened Accounts

  ghost predicate Distinct(accounts: seq<Account>) {
    forall i, j | 0 <= i < j < |accounts| :: accounts[i].id != accounts[j].id
  }

  predicate Names(accounts: seq<Account>, id: string) {
    exists a | a in accounts :: a.id == id
  }

  predicate HasOwnNamed(accounts: seq<Account>, id: string) {
    First(accounts, IsOwnNamed(id)).Some?
  }

  // Account ids are unique and the active mark names one of them.
  ghost predicate StoreOk(s: Store) {
    Distinct(s.accounts)
    && if s.accounts == [] then s.active.None? else s.active.Some? && Names(s.accounts, s.active.value)
  }

  ghost predicate DiskOk(d: Disk) {
    && (d.file.Current? ==> d.file.store.accounts != [] && StoreOk(d.file.store))
    && (d.cli.Some? ==> d.cli.value.source == CLI_SOURCE)
  }

  lemma LoadedOk(d: Disk)
    requires DiskOk(d)
    ensures StoreOk(Loaded(d))
  {
  }

  lemma AfterLoadOk(d: Disk, migrated: bool)
    requires DiskOk(d)
    ensures DiskOk(AfterLoad(d, migrated)) && Loaded(AfterLoad(d, migrated)) == Loaded(d)
  {
  }

  lemma {:induction false} FilterIs(accounts: seq<Account>, q: Query)
    ensures forall a :: a in Filter(accounts, q) <==> a in accounts && q.Holds(a)
    ensures |Filter(accounts, q)| <= |accounts|
    ensures |Filter(accounts, q)| == |accounts| <==> forall a | a in accounts :: q.Holds(a)
  {
    if accounts != [] {
      FilterIs(accounts[1..], q);
      assert accounts == [accounts[0]] + accounts[1..];
    }
  }

  lemma {:induction false} FilterIsDistinct(accounts: seq<Account>, q: Query)
    requires Distinct(accounts)
    ensures Distinct(Filter(accounts, q))
  {
    if accounts != [] {
      var rest := accounts[1..];
      FilterIs(rest, q);
      FilterIsDistinct(rest, q);
      forall a | a in Filter(rest, q) ensures a.id != accounts[0].id {
        assert a in rest;
      }
    }
  }

  // ---------------------------------------------------------------- Writing

  lemma SignedOk(s: Store, t: Tokens)
    requires StoreOk(s)
    ensures StoreOk(Signed(s, t)) && Signed(s, t).accounts != []
  {
  }

  lemma WithoutOk(s: Store, id: string)
    requires StoreOk(s)
    ensures StoreOk(Without(s, id)) && !Names(Without(s, id).accounts, id)
    ensures |Without(s, id).accounts| == |s.accounts| <==> !Names(s.accounts, id)
  {
    FilterIs(s.accounts, Except(id));
    FilterIsDistinct(s.accounts, Except(id));
    var rest := Without(s, id).accounts;
    if rest != [] {
      assert rest[0] in rest;
      if s.active != Some(id) {
        var marked :| marked in s.accounts && Some(marked.id) == s.active;
        assert marked in rest;
      }
    }
  }

  lemma ReplacedOk(s: Store, i: nat, a: Account)
    requires StoreOk(s) && i < |s.accounts| && a.id == s.accounts[i].id
    ensures StoreOk(s.(accounts := s.accounts[i := a]))
  {
    var after := s.accounts[i := a];
    var marked :| marked in s.accounts && Some(marked.id) == s.active;
    var k :| 0 <= k < |s.accounts| && s.accounts[k] == marked;
    assert after[k] in after && after[k].id == marked.id;
  }

  lemma MarkedOk(s: Store, id: string)
    requires StoreOk(s) && First(s.accounts, Selectable(id, HasOwn(s))).Some?
    ensures StoreOk(s.(active := Some(id)))
  {
  }

  // ---------------------------------------------------------------- Reading

  lemma ActiveIsListed(s: Store)
    requires StoreOk(s) && s.accounts != []
    ensures Active(s).Some? && Active(s).value in Listed(s)
    ensures HasOwn(s) ==> Own(Active(s).value)
  {
    FilterIs(s.accounts, IsOwn);
    if HasOwn(s) {
      var a :| a in s.accounts && Own(a);
      assert First(s.accounts, IsOwn).Some?;
    } else {
      assert forall i | 0 <= i < |s.accounts| :: s.accounts[i] in s.accounts;
    }
  }

  lemma {:induction false} BackupsOfListed(accounts: seq<Account>, active: Option<Account>, hasOwn: bool)
    ensures active.Some? ==>
              Filter(accounts, Backup(active, hasOwn))
              == Filter(if hasOwn then Filter(accounts, IsOwn) else accounts, Except(active.value.id))
  {
    if accounts != [] {
      BackupsOfListed(accounts[1..], active, hasOwn);
    }
  }

  lemma {:induction false} ExceptOne(accounts: seq<Account>, k: nat)
    requires Distinct(accounts) && k < |accounts|
    ensures Filter(accounts, Except(accounts[k].id)) == accounts[..k] + accounts[k + 1..]
  {
    if k == 0 {
      FilterIs(accounts[1..], Except(accounts[0].id));
      assert forall a | a in accounts[1..] :: a.id != accounts[0].id;
      WholeFilter(accounts[1..], Except(accounts[0].id));
    } else {
      ExceptOne(accounts[1..], k - 1);
      assert accounts[..k] == [accounts[0]] + accounts[1..][..k - 1] && accounts[k + 1..] == accounts[1..][k..];
    }
  }

  lemma {:induction false} WholeFilter(accounts: seq<Account>, q: Query)
    requires forall a | a in accounts :: q.Holds(a)
    ensures Filter(accounts, q) == accounts
  {
    if accounts != [] {
      WholeFilter(accounts[1..], q);
    }
  }

  // The accounts shown are the active one and the backups, each exactly once
  // and in order: no account is both, and none is lost.
  lemma ActiveAndBackupsPartition(s: Store) returns (k: nat)
    requires StoreOk(s) && s.accounts != []
    ensures k < |Listed(s)| && Active(s) == Some(Listed(s)[k])
    ensures Backups(s) == Listed(s)[..k] + Listed(s)[k + 1..]
  {
    ActiveIsListed(s);
    FilterIsDistinct(s.accounts, IsOwn);
    BackupsOfListed(s.accounts, Active(s), HasOwn(s));
    k :| 0 <= k < |Listed(s)| && Listed(s)[k] == Active(s).value;
    ExceptOne(Listed(s), k);
  }

  lemma OwnMarkIsFollowed(s: Store)
    requires StoreOk(s) && HasOwn(s)
    ensures Active(s).Some?
    ensures Active(s).value.id == s.active.value <==> HasOwnNamed(s.accounts, s.active.value)
  {
  }

  lemma AnyMarkIsFollowed(s: Store)
    requires StoreOk(s) && s.accounts != [] && !HasOwn(s)
    ensures Active(s).Some? && Active(s).value.id == s.active.value
  {
  }

  // The active mark is followed exactly when it does not choose another
  // program's login over one of our own.
  lemma ActiveFollowsTheMark(s: Store)
    requires StoreOk(s) && s.accounts != []
    ensures Active(s).Some?
    ensures Active(s).value.id == s.active.value
            <==> (HasOwnNamed(s.accounts, s.active.value) || !HasOwn(s))
  {
    if HasOwn(s) {
      OwnMarkIsFollowed(s);
    } else {
      AnyMarkIsFollowed(s);
    }
  }

  // So choosing an account that is shown makes it the active one.
  lemma ChosenIsActive(d: Disk, id: string, migrated: bool)
    requires DiskOk(d) && SetActive(d, id, migrated, true).1.Ok?
    ensures Active(Loaded(SetActive(d, id, migrated, true).0)).Some?
    ensures Active(Loaded(SetActive(d, id, migrated, true).0)).value.id == id
  {
    LoadedOk(d);
    var s := Loaded(d);
    var i := First(s.accounts, Selectable(id, HasOwn(s))).value;
    MarkedOk(s, id);
    var after := s.(active := Some(id));
    assert Own(s.accounts[i]) ==> IsOwnNamed(id).Holds(s.accounts[i]);
    ActiveFollowsTheMark(after);
  }

  // ------------------------------------------------- What a sign-in reaches

  // A renewed account stays itself; what the tokens do not say, it keeps.
  ghost predicate RenewedBy(was: Account, now: Account, t: Tokens) {
    && now.id == was.id && now.title == was.title && now.source == was.source && now.access == t.access
    && now.refresh == (if t.refresh.None? then was.refresh else t.refresh)
    && now.expires == (if t.expires.None? then was.expires else t.expires)
    && now.accountId == (if t.accountId.None? then was.accountId else t.accountId)
  }

  // A sign-in renews the first account it matches and no other, or adds one.
  lemma SignInTouchesOneAccount(d: Disk, t: Tokens, migrated: bool, i: nat)
    requires DiskOk(d) && i < |Loaded(d).accounts|
    ensures var was, now := Loaded(d).accounts, Loaded(SignIn(d, t, migrated, true).0).accounts;
            && |was| <= |now| <= |was| + 1
            && (|now| == |was| <==> exists k | 0 <= k < |was| :: Matches(was[k], t))
            && (if Matches(was[i], t) && forall k | 0 <= k < i :: !Matches(was[k], t)
                then RenewedBy(was[i], now[i], t) else now[i] == was[i])
            && (|now| > |was| ==> RenewedBy(Fresh(t), now[|was|], t) && Own(now[|was|]))
  {
    SignInLoads(d, t, migrated, true);
  }

  predicate UsableOne(a: Account, id: string, access: string) {
    a.id == id && Own(a) && a.access == access
  }

  predicate Usable(s: Store, id: string, access: string) {
    exists a | a in s.accounts :: UsableOne(a, id, access)
  }

  lemma RenewedUsable(accounts: seq<Account>, after: seq<Account>, i: nat, t: Tokens)
    requires i < |accounts| && after == accounts[i := Renewed(accounts[i], t)]
    ensures (exists a | a in after :: UsableOne(a, t.id, t.access))
            <==> (accounts[i].id == t.id && Own(accounts[i])) || exists a | a in accounts :: UsableOne(a, t.id, t.access)
  {
    assert after[i] in after && after[i].access == t.access;
    if a :| a in accounts && UsableOne(a, t.id, t.access) {
      var k :| 0 <= k < |accounts| && accounts[k] == a;
      assert after[k] in after;
    }
    if a :| a in after && UsableOne(a, t.id, t.access) {
      var k :| 0 <= k < |after| && after[k] == a;
      assert k != i ==> accounts[k] in accounts;
    }
  }

  lemma SignedUsable(s: Store, t: Tokens)
    ensures Usable(Signed(s, t), t.id, t.access)
            <==> (match First(s.accounts, Signs(t))
                  case Some(i) => s.accounts[i].id == t.id && Own(s.accounts[i])
                  case None => true)
                 || Usable(s, t.id, t.access)
  {
    var after := Signed(s, t).accounts;
    match First(s.accounts, Signs(t)) {
      case None => assert after[|s.accounts|] in after;
      case Some(i) => RenewedUsable(s.accounts, after, i, t);
    }
  }

  // A sign-in's token is there to use, under the id it reports, exactly when the
  // first account it matches is none or is our own under that id: a match by
  // upstream account keeps its old id, and another program's login stays its.
  lemma SignInIsUsableExactly(d: Disk, t: Tokens, migrated: bool)
    requires DiskOk(d)
    ensures Usable(Loaded(SignIn(d, t, migrated, true).0), t.id, t.access)
            <==> (match First(Loaded(d).accounts, Signs(t))
                  case Some(i) => Loaded(d).accounts[i].id == t.id && Own(Loaded(d).accounts[i])
                  case None => true)
                 || Usable(Loaded(d), t.id, t.access)
  {
    SignedUsable(Loaded(d), t);
  }

  // The other program's login for an account: its id is the account's own.
  function Borrowed(accountId: string): Account {
    Account(accountId, "", Some(accountId), "borrowed", None, None, CLI_SOURCE)
  }

  // Signing in under an e-mail address while the other program is logged in to
  // the same account succeeds, reports the address, and leaves nothing under it.
  lemma BorrowedSignInIsNotUsable()
    ensures var t := Tokens("me@example.com", "", Some("acct"), "new", None, None);
            var (d, r) := SignIn(Disk(Missing, Some(Borrowed("acct"))), t, false, true);
            && r.Ok? && r.value.id == t.id && !Names(Loaded(d).accounts, t.id)
            && !Usable(Loaded(d), t.id, t.access) && !HasOwn(Loaded(d))
  {
  }

  // A removal takes our own account away for good; its id is still shown exactly
  // when nothing else was stored and the other program's login bears it.
  lemma RemovalFallsBack(d: Disk, id: string, migrated: bool, saved: bool)
    requires DiskOk(d) && Remove(d, id, migrated, saved).1.Ok?
    ensures var after := Loaded(Remove(d, id, migrated, saved).0);
            && !HasOwnNamed(after.accounts, id)
            && (Names(after.accounts, id)
                <==> Without(Loaded(d), id).accounts == [] && d.cli.Some? && d.cli.value.id == id)
  {
    LoadedOk(d);
    WithoutOk(Loaded(d), id);
    var after := Loaded(Remove(d, id, migrated, saved).0);
    if Without(Loaded(d), id).accounts == [] {
      if d.cli.Some? {
        assert after.accounts == [d.cli.value];
      }
    } else {
      assert after == Without(Loaded(d), id);
      assert forall i | 0 <= i < |after.accounts| :: after.accounts[i] in after.accounts;
    }
  }

  // Signed in first, and the other program logged in to the same account later:
  // the removal succeeds and its id is still shown.
  lemma RemovedIdIsStillShown()
    ensures var t := Tokens("acct", "", Some("acct"), "own", None, None);
            var signedIn := SignIn(Disk(Missing, None), t, false, true).0;
            var (d, r) := Remove(signedIn.(cli := Some(Borrowed("acct"))), "acct", false, true);
            r.Ok? && Names(Loaded(d).accounts, "acct")
  {
    var own := Fresh(Tokens("acct", "", Some("acct"), "own", None, None));
    assert Filter([own], Except("acct")) == Filter([], Except("acct")) == [];
  }

  // ------------------------------------------------------ Refreshes in flight

  // A refresh remembers the account it started from. Every write of an own
  // account's credentials opens a new epoch for that account.
  datatype Flight = Flight(original: Account, epoch: nat)

  // Where a token was stored: for which account, in which of its epochs, with
  // which refresh token.
  datatype Mint = Mint(id: string, epoch: nat, refresh: Option<string>)

  datatype World = World(
    disk: Disk, epochs: map<string, nat>, minted: map<string, Mint>, flights: map<nat, Flight>)

  datatype Action =
    | Enter(tokens: Tokens, migrated: bool, saved: bool)
    | Leave(id: string, migrated: bool, saved: bool)
    | LeaveAll(saved: bool)
    | Choose(id: string, migrated: bool, saved: bool)
    | TakeOff(flight: nat, account: Account, migrated: bool)
    | Land(flight: nat, access: string, refresh: Option<string>, expires: Option<nat>, migrated: bool, saved: bool)
    | OtherLogin(cli: Option<Account>)

  // The issuer never issues a token twice.
  predicate Enabled(w: World, a: Action) {
    match a
    case Enter(t, _, _) => t.access !in w.minted
    case TakeOff(f, account, _) => f !in w.flights && account in Listed(Loaded(w.disk)) && Own(account)
    case Land(f, access, _, _, _, _) => f in w.flights && access !in w.minted
    case OtherLogin(cli) => cli.Some? ==> cli.value.source == CLI_SOURCE
    case _ => true
  }

  function Epoch(w: World, id: string): nat {
    if id in w.epochs then w.epochs[id] else 0
  }

  function Written(w: World, disk: Disk, id: string, access: string, refresh: Option<string>): World {
    w.(disk := disk, epochs := w.epochs[id := Epoch(w, id) + 1],
       minted := w.minted[access := Mint(id, Epoch(w, id) + 1, refresh)])
  }

  function Landed(original: Account, access: string, refresh: Option<string>, expires: Option<nat>): Account {
    original.(access := access, refresh := refresh, expires := expires)
  }

  // The stored account a write went to, by the id it is stored under.
  function Act(w: World, a: Action): World
    requires Enabled(w, a)
  {
    match a
    case Enter(t, migrated, saved) =>
      var disk := SignIn(w.disk, t, migrated, saved).0;
      if !saved then w.(disk := disk)
      else
        (match First(Loaded(w.disk).accounts, Signs(t))
         case Some(i) =>
           var stored := Renewed(Loaded(w.disk).accounts[i], t);
           Written(w, disk, stored.id, t.access, stored.refresh)
         case None => Written(w, disk, t.id, t.access, t.refresh))
    case Leave(id, migrated, saved) => w.(disk := Remove(w.disk, id, migrated, saved).0)
    case LeaveAll(saved) => w.(disk := SignOut(w.disk, saved).0)
    case Choose(id, migrated, saved) => w.(disk := SetActive(w.disk, id, migrated, saved).0)
    case TakeOff(f, account, migrated) =>
      w.(disk := AfterLoad(w.disk, migrated), flights := w.flights[f := Flight(account, Epoch(w, account.id))])
    case Land(f, access, refresh, expires, migrated, saved) =>
      var original := w.flights[f].original;
      var (disk, r) := Commit(w.disk, original, Landed(original, access, refresh, expires), migrated, saved);
      if r.Ok? && Loaded(disk) != Loaded(w.disk) then Written(w, disk, original.id, access, refresh)
      else w.(disk := disk)
    case OtherLogin(cli) => w.(disk := w.disk.(cli := cli))
  }

  ghost predicate Allowed(w: World, actions: seq<Action>)
    decreases |actions|, 0
  {
    actions == [] || (Allowed(w, actions[..|actions| - 1])
                      && Enabled(After(w, actions[..|actions| - 1]), actions[|actions| - 1]))
  }

  ghost function After(w: World, actions: seq<Action>): World
    requires Allowed(w, actions)
    decreases |actions|, 1
  {
    if actions == [] then w else Act(After(w, actions[..|actions| - 1]), actions[|actions| - 1])
  }

  predicate MintedAs(w: World, a: Account) {
    a.access in w.minted && w.minted[a.access] == Mint(a.id, Epoch(w, a.id), a.refresh)
  }

  // Each epoch of an account was opened by one token.
  ghost predicate MintsOk(w: World) {
    && (forall x | x in w.minted :: w.minted[x].epoch <= Epoch(w, w.minted[x].id))
    && (forall x, y | x in w.minted && y in w.minted && x != y ::
          w.minted[x].id != w.minted[y].id || w.minted[x].epoch != w.minted[y].epoch)
  }

  predicate FlightOk(w: World, f: Flight) {
    && Own(f.original) && f.original.access in w.minted
    && w.minted[f.original.access] == Mint(f.original.id, f.epoch, f.original.refresh)
  }

  // Stored credentials are those of their account's latest epoch, and a flight's
  // are those of the epoch it took off in.
  ghost predicate WorldInv(w: World) {
    && DiskOk(w.disk) && MintsOk(w)
    && (forall a | a in Loaded(w.disk).accounts && Own(a) :: MintedAs(w, a))
    && (forall f | f in w.flights :: FlightOk(w, w.flights[f]))
  }

  // A fresh installation: no file of our own yet, and no refresh under way.
  lemma InstalledIsOk(cli: Option<Account>)
    requires cli.Some? ==> cli.value.source == CLI_SOURCE
    ensures WorldInv(World(Disk(Missing, cli), map[], map[], map[]))
  {
  }

  lemma SignInLoads(d: Disk, t: Tokens, migrated: bool, saved: bool)
    requires DiskOk(d)
    ensures DiskOk(SignIn(d, t, migrated, saved).0)
    ensures Loaded(SignIn(d, t, migrated, saved).0) == if saved then Signed(Loaded(d), t) else Loaded(d)
  {
    LoadedOk(d);
    AfterLoadOk(d, migrated);
    SignedOk(Loaded(d), t);
  }

  lemma RemoveLoads(d: Disk, id: string, migrated: bool, saved: bool)
    requires DiskOk(d)
    ensures DiskOk(Remove(d, id, migrated, saved).0)
    ensures forall a | a in Loaded(Remove(d, id, migrated, saved).0).accounts && Own(a) :: a in Loaded(d).accounts
  {
    LoadedOk(d);
    AfterLoadOk(d, migrated);
    WithoutOk(Loaded(d), id);
    FilterIs(Loaded(d).accounts, Except(id));
  }

  lemma SetActiveLoads(d: Disk, id: string, migrated: bool, saved: bool)
    requires DiskOk(d)
    ensures DiskOk(SetActive(d, id, migrated, saved).0)
    ensures Loaded(SetActive(d, id, migrated, saved).0).accounts == Loaded(d).accounts
  {
  }

  // A commit replaces the credentials of one account that still has those it
  // started from, or changes nothing.
  lemma CommitLoads(d: Disk, o: Account, r: Account, migrated: bool, saved: bool)
    requires DiskOk(d)
    ensures DiskOk(Commit(d, o, r, migrated, saved).0)
    ensures var s, k := Loaded(d), First(Loaded(d).accounts, IsOwnNamed(o.id));
            var (after, result) := Commit(d, o, r, migrated, saved);
            if k.Some? && SameCredentials(s.accounts[k.value], o) && saved
            then result == Ok(Refreshed(s.accounts[k.value], r))
                 && Loaded(after) == s.(accounts := s.accounts[k.value := Refreshed(s.accounts[k.value], r)])
            else Loaded(after) == s && (k.Some? && !SameCredentials(s.accounts[k.value], o) ==>
                                          result == Ok(s.accounts[k.value]))
                 && (k.None? ==> result == Err(Disconnected))
  {
    LoadedOk(d);
    AfterLoadOk(d, migrated);
    match First(Loaded(d).accounts, IsOwnNamed(o.id)) {
      case Some(i) => ReplacedOk(Loaded(d), i, Refreshed(Loaded(d).accounts[i], r));
      case None =>
    }
  }

  // Writing one account's credentials under an unused token.
  lemma WrittenKeeps(w: World, disk: Disk, i: nat, a: Account)
    requires WorldInv(w) && DiskOk(disk) && a.access !in w.minted
    requires var was, now := Loaded(w.disk).accounts, Loaded(disk).accounts;
             || (i < |was| && was[i].id == a.id && now == was[i := a])
             || (i == |was| && now == was + [a])
    ensures WorldInv(Written(w, disk, a.id, a.access, a.refresh))
  {
    var next := Written(w, disk, a.id, a.access, a.refresh);
    WrittenIsMinted(w, disk, i, a);
    forall f | f in next.flights ensures FlightOk(next, next.flights[f]) {
      assert FlightOk(w, w.flights[f]);
    }
  }

  lemma WrittenIsMinted(w: World, disk: Disk, i: nat, a: Account)
    requires WorldInv(w) && DiskOk(disk) && a.access !in w.minted
    requires var was, now := Loaded(w.disk).accounts, Loaded(disk).accounts;
             || (i < |was| && was[i].id == a.id && now == was[i := a])
             || (i == |was| && now == was + [a])
    ensures forall x | x in Loaded(disk).accounts && Own(x) ::
              MintedAs(Written(w, disk, a.id, a.access, a.refresh), x)
  {
    var now := Loaded(disk).accounts;
    LoadedOk(disk);
    forall x | x in now && Own(x) ensures MintedAs(Written(w, disk, a.id, a.access, a.refresh), x) {
      var k :| 0 <= k < |now| && now[k] == x;
      if k != i {
        assert x in Loaded(w.disk).accounts && now[k].id != now[i].id;
        OthersStayMinted(w, disk, a, x);
      }
    }
  }

  // Other accounts keep the credentials, and the epoch, they had.
  lemma OthersStayMinted(w: World, disk: Disk, a: Account, x: Account)
    requires WorldInv(w) && x in Loaded(w.disk).accounts && Own(x) && x.id != a.id && a.access !in w.minted
    ensures MintedAs(Written(w, disk, a.id, a.access, a.refresh), x)
  {
    assert MintedAs(w, x);
  }

  lemma QuietKeeps(w: World, disk: Disk)
    requires WorldInv(w) && DiskOk(disk)
    requires forall a | a in Loaded(disk).accounts && Own(a) :: a in Loaded(w.disk).accounts
    ensures WorldInv(w.(disk := disk))
  {
  }

  lemma EnterKeeps(w: World, t: Tokens, migrated: bool, saved: bool)
    requires WorldInv(w) && Enabled(w, Enter(t, migrated, saved))
    ensures WorldInv(Act(w, Enter(t, migrated, saved)))
  {
    var disk := SignIn(w.disk, t, migrated, saved).0;
    SignInLoads(w.disk, t, migrated, saved);
    if !saved {
      QuietKeeps(w, disk);
    } else {
      match First(Loaded(w.disk).accounts, Signs(t)) {
        case Some(i) => WrittenKeeps(w, disk, i, Renewed(Loaded(w.disk).accounts[i], t));
        case None => WrittenKeeps(w, disk, |Loaded(w.disk).accounts|, Fresh(t));
      }
    }
  }

  lemma TakeOffKeeps(w: World, f: nat, account: Account, migrated: bool)
    requires WorldInv(w) && Enabled(w, TakeOff(f, account, migrated))
    ensures WorldInv(Act(w, TakeOff(f, account, migrated)))
  {
    AfterLoadOk(w.disk, migrated);
    QuietKeeps(w, AfterLoad(w.disk, migrated));
    FilterIs(Loaded(w.disk).accounts, IsOwn);
    assert MintedAs(w, account);
    FlightKeeps(w.(disk := AfterLoad(w.disk, migrated)), f, account);
  }

  lemma FlightKeeps(w: World, f: nat, account: Account)
    requires WorldInv(w) && Own(account) && MintedAs(w, account)
    ensures WorldInv(w.(flights := w.flights[f := Flight(account, Epoch(w, account.id))]))
  {
  }

  lemma LandKeeps(w: World, a: Action)
    requires WorldInv(w) && a.Land? && Enabled(w, a)
    ensures WorldInv(Act(w, a))
  {
    var o := w.flights[a.flight].original;
    var r := Landed(o, a.access, a.refresh, a.expires);
    CommitLoads(w.disk, o, r, a.migrated, a.saved);
    var disk := Commit(w.disk, o, r, a.migrated, a.saved).0;
    if Loaded(disk) == Loaded(w.disk) {
      QuietKeeps(w, disk);
    } else {
      CommitKeeps(w, disk, o, r);
    }
  }

  lemma CommitKeeps(w: World, disk: Disk, o: Account, r: Account)
    requires WorldInv(w) && DiskOk(disk) && r.access !in w.minted
    requires var s, k := Loaded(w.disk), First(Loaded(w.disk).accounts, IsOwnNamed(o.id));
             k.Some? && Loaded(disk) == s.(accounts := s.accounts[k.value := Refreshed(s.accounts[k.value], r)])
    ensures WorldInv(Written(w, disk, o.id, r.access, r.refresh))
  {
    var k := First(Loaded(w.disk).accounts, IsOwnNamed(o.id)).value;
    WrittenKeeps(w, disk, k, Refreshed(Loaded(w.disk).accounts[k], r));
  }

  lemma ActKeeps(w: World, a: Action)
    requires WorldInv(w) && Enabled(w, a)
    ensures WorldInv(Act(w, a))
  {
    match a {
      case Enter(t, migrated, saved) => EnterKeeps(w, t, migrated, saved);
      case Leave(id, migrated, saved) =>
        RemoveLoads(w.disk, id, migrated, saved);
        QuietKeeps(w, Remove(w.disk, id, migrated, saved).0);
      case LeaveAll(saved) =>
        QuietKeeps(w, SignOut(w.disk, saved).0);
      case Choose(id, migrated, saved) =>
        SetActiveLoads(w.disk, id, migrated, saved);
        QuietKeeps(w, SetActive(w.disk, id, migrated, saved).0);
      case TakeOff(f, account, migrated) => TakeOffKeeps(w, f, account, migrated);
      case Land(_, _, _, _, _, _) => LandKeeps(w, a);
      case OtherLogin(cli) => QuietKeeps(w, w.disk.(cli := cli));
    }
  }

  // Whatever lands in whatever order, ids stay unique and the active mark names
  // a stored account.
  lemma {:induction false} StoresStayOk(w: World, actions: seq<Action>)
    requires WorldInv(w) && Allowed(w, actions)
    ensures WorldInv(After(w, actions)) && StoreOk(Loaded(After(w, actions).disk))
  {
    if actions != [] {
      StoresStayOk(w, actions[..|actions| - 1]);
      ActKeeps(After(w, actions[..|actions| - 1]), actions[|actions| - 1]);
    }
    LoadedOk(After(w, actions).disk);
  }

  // A refresh lands exactly when its account is still our own and nothing has
  // written that account's credentials since it took off. Otherwise a newer
  // sign-in or refresh is returned untouched, or the account is gone.
  lemma RefreshLandsExactlyWhenCurrent(w: World, actions: seq<Action>, a: Action)
    requires WorldInv(w) && Allowed(w, actions) && a.Land? && a.saved && Enabled(After(w, actions), a)
    ensures var v := After(w, actions);
            var o, s := v.flights[a.flight].original, Loaded(v.disk);
            var r := Landed(o, a.access, a.refresh, a.expires);
            var (disk, result) := Commit(v.disk, o, r, a.migrated, true);
            match First(s.accounts, IsOwnNamed(o.id))
            case None => Loaded(disk) == s && result == Err(Disconnected)
            case Some(k) =>
              if Epoch(v, o.id) == v.flights[a.flight].epoch
              then SameCredentials(s.accounts[k], o)
                   && Loaded(disk) == s.(accounts := s.accounts[k := Refreshed(s.accounts[k], r)])
              else Loaded(disk) == s && result == Ok(s.accounts[k])
  {
    var v := After(w, actions);
    StoresStayOk(w, actions);
    var f := v.flights[a.flight];
    var r := Landed(f.original, a.access, a.refresh, a.expires);
    assert FlightOk(v, f);
    CommitLoads(v.disk, f.original, r, a.migrated, true);
    match First(Loaded(v.disk).accounts, IsOwnNamed(f.original.id)) {
      case Some(k) =>
        assert Loaded(v.disk).accounts[k] in Loaded(v.disk).accounts;
        assert MintedAs(v, Loaded(v.disk).accounts[k]);
      case None =>
    }
  }

  // ------------------------------------------------------------ No restoring

  lemma EnterRestoresNothing(d: Disk, t: Tokens, migrated: bool, saved: bool, id: string)
    requires DiskOk(d) && t.id != id && !HasOwnNamed(Loaded(d).accounts, id)
    ensures !HasOwnNamed(Loaded(SignIn(d, t, migrated, saved).0).accounts, id)
  {
  }

  lemma LandRestoresNothing(d: Disk, o: Account, r: Account, migrated: bool, saved: bool, id: string)
    requires DiskOk(d) && !HasOwnNamed(Loaded(d).accounts, id)
    ensures !HasOwnNamed(Loaded(Commit(d, o, r, migrated, saved).0).accounts, id)
  {
  }

  lemma FewerNames(was: seq<Account>, now: seq<Account>, id: string)
    requires !HasOwnNamed(was, id) && forall a | a in now && Own(a) :: a in was
    ensures !HasOwnNamed(now, id)
  {
  }

  lemma ActRestoresNothing(w: World, a: Action, id: string)
    requires WorldInv(w) && Enabled(w, a) && !(a.Enter? && a.tokens.id == id)
    requires !HasOwnNamed(Loaded(w.disk).accounts, id)
    ensures !HasOwnNamed(Loaded(Act(w, a).disk).accounts, id)
  {
    match a {
      case Enter(t, migrated, saved) => EnterRestoresNothing(w.disk, t, migrated, saved, id);
      case Land(f, access, refresh, expires, migrated, saved) =>
        var o := w.flights[f].original;
        LandRestoresNothing(w.disk, o, Landed(o, access, refresh, expires), migrated, saved, id);
      case Leave(x, migrated, saved) =>
        RemoveLoads(w.disk, x, migrated, saved);
        FewerNames(Loaded(w.disk).accounts, Loaded(Act(w, a).disk).accounts, id);
      case Choose(x, migrated, saved) => SetActiveLoads(w.disk, x, migrated, saved);
      case TakeOff(_, _, migrated) => AfterLoadOk(w.disk, migrated);
      case _ => FewerNames(Loaded(w.disk).accounts, Loaded(Act(w, a).disk).accounts, id);
    }
  }

  // An account of our own that is gone stays gone, whatever refreshes land,
  // until someone signs in under its id.
  lemma {:induction false} GoneStaysGone(w: World, actions: seq<Action>, id: string)
    requires WorldInv(w) && Allowed(w, actions) && !HasOwnNamed(Loaded(w.disk).accounts, id)
    requires forall a | a in actions :: !(a.Enter? && a.tokens.id == id)
    ensures !HasOwnNamed(Loaded(After(w, actions).disk).accounts, id)
  {
    if actions != [] {
      var before, last := actions[..|actions| - 1], actions[|actions| - 1];
      GoneStaysGone(w, before, id);
      StoresStayOk(w, before);
      ActRestoresNothing(After(w, before), last, id);
    }
  }
}
