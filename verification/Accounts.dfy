// The ChatGPT account store: a credentials file, another program's login as a
// fallback, and refreshes that commit by compare-and-swap.
module Accounts {
  import opened Outcomes

  const OWN_SOURCE: string := "~/.threadlane/credentials.json"
  const CLI_SOURCE: string := "~/.codex/auth.json"

  datatype Account = Account(
    id: string, title: string, accountId: Option<string>,
    access: string, refresh: Option<string>, expires: Option<nat>, source: string)

  datatype Store = Store(active: Option<string>, accounts: seq<Account>)

  // The single-account format of earlier versions.
  datatype Legacy = Legacy(access: string, refresh: Option<string>, accountId: Option<string>, source: string)

  datatype File = Missing | Unreadable | Old(legacy: Legacy) | Current(store: Store)

  // `cli` is the account that the other program's login stands for.
  datatype Disk = Disk(file: File, cli: Option<Account>)

  datatype Error = NotFound | Disconnected | NotSaved

  // What a sign-in yields: its identity and tokens.
  datatype Tokens = Tokens(
    id: string, title: string, accountId: Option<string>,
    access: string, refresh: Option<string>, expires: Option<nat>)

  predicate Own(a: Account) {
    a.source == OWN_SOURCE
  }

  predicate Matches(a: Account, t: Tokens) {
    a.id == t.id || (a.accountId.Some? && a.accountId == t.accountId)
  }

  // The conditions accounts are searched and filtered by.
  datatype Query =
    | IsOwn
    | IsActive(active: Option<string>)
    | IsOwnActive(active: Option<string>)
    | Signs(tokens: Tokens)
    | IsOwnNamed(id: string)
    | Selectable(id: string, hasOwn: bool)
    | Except(id: string)
    | Backup(shown: Option<Account>, hasOwn: bool)
  {
    predicate Holds(a: Account) {
      match this
      case IsOwn => Own(a)
      case IsActive(active) => active == Some(a.id)
      case IsOwnActive(active) => active == Some(a.id) && Own(a)
      case Signs(t) => Matches(a, t)
      case IsOwnNamed(id) => a.id == id && Own(a)
      case Selectable(id, hasOwn) => a.id == id && (Own(a) || !hasOwn)
      case Except(id) => a.id != id
      case Backup(shown, hasOwn) => !(shown.Some? && shown.value.id == a.id) && (!hasOwn || Own(a))
    }
  }

  function First(accounts: seq<Account>, q: Query): (r: Option<nat>)
    ensures r.Some? ==> r.value < |accounts| && q.Holds(accounts[r.value])
    ensures r.Some? ==> forall i | 0 <= i < r.value :: !q.Holds(accounts[i])
    ensures r.None? ==> forall i | 0 <= i < |accounts| :: !q.Holds(accounts[i])
  {
    if accounts == [] then None
    else if q.Holds(accounts[0]) then Some(0)
    else match First(accounts[1..], q) case Some(i) => Some(i + 1) case None => None
  }

  function Filter(accounts: seq<Account>, q: Query): seq<Account> {
    if accounts == [] then []
    else if q.Holds(accounts[0]) then [accounts[0]] + Filter(accounts[1..], q)
    else Filter(accounts[1..], q)
  }

  // ----------------------------------------------------------------- Loading

  function Fallback(cli: Option<Account>): Store {
    match cli case Some(a) => Store(Some(a.id), [a]) case None => Store(None, [])
  }

  function Migrated(l: Legacy): Store {
    var id := match l.accountId case Some(x) => x case None => "account_1";
    var title := match l.accountId case Some(x) => "Account (" + x + ")" case None => "Account 1";
    Store(Some(id), [Account(id, title, l.accountId, l.access, l.refresh, None, l.source)])
  }

  predicate Migrates(d: Disk) {
    d.file.Old? && d.file.legacy.access != ""
  }

  function Loaded(d: Disk): Store {
    if d.file.Current? && d.file.store.accounts != [] then d.file.store
    else if Migrates(d) then Migrated(d.file.legacy)
    else Fallback(d.cli)
  }

  // Loading rewrites a legacy file, if that write succeeds.
  function AfterLoad(d: Disk, migrated: bool): Disk {
    if Migrates(d) && migrated then d.(file := Current(Migrated(d.file.legacy))) else d
  }

  // ----------------------------------------------------------------- Reading

  function Active(s: Store): Option<Account> {
    match First(s.accounts, IsOwnActive(s.active))
    case Some(i) => Some(s.accounts[i])
    case None =>
      match First(s.accounts, IsOwn)
      case Some(i) => Some(s.accounts[i])
      case None =>
        match First(s.accounts, IsActive(s.active))
        case Some(i) => Some(s.accounts[i])
        case None => if s.accounts == [] then None else Some(s.accounts[0])
  }

  predicate HasOwn(s: Store) {
    exists a | a in s.accounts :: Own(a)
  }

  function Listed(s: Store): seq<Account> {
    if HasOwn(s) then Filter(s.accounts, IsOwn) else s.accounts
  }

  function Backups(s: Store): seq<Account> {
    Filter(s.accounts, Backup(Active(s), HasOwn(s)))
  }

  // ----------------------------------------------------------------- Writing

  function Fresh(t: Tokens): Account {
    Account(t.id, t.title, t.accountId, t.access, t.refresh, t.expires, OWN_SOURCE)
  }

  function Renewed(a: Account, t: Tokens): Account {
    a.(access := t.access,
       refresh := if t.refresh.Some? then t.refresh else a.refresh,
       expires := if t.expires.Some? then t.expires else a.expires,
       accountId := if t.accountId.Some? then t.accountId else a.accountId)
  }

  function Signed(s: Store, t: Tokens): Store {
    Store(if s.active.Some? then s.active else Some(t.id),
          match First(s.accounts, Signs(t))
          case Some(i) => s.accounts[i := Renewed(s.accounts[i], t)]
          case None => s.accounts + [Fresh(t)])
  }

  function Save(d: Disk, s: Store, saved: bool): Disk {
    if saved then d.(file := Current(s)) else d
  }

  function SignIn(d: Disk, t: Tokens, migrated: bool, saved: bool): (Disk, Result<Account, Error>) {
    (Save(AfterLoad(d, migrated), Signed(Loaded(d), t), saved), if saved then Ok(Fresh(t)) else Err(NotSaved))
  }

  function Without(s: Store, id: string): Store {
    var rest := Filter(s.accounts, Except(id));
    Store(if s.active == Some(id) then (if rest == [] then None else Some(rest[0].id)) else s.active, rest)
  }

  function Remove(d: Disk, id: string, migrated: bool, saved: bool): (Disk, Result<(), Error>) {
    var left, s := AfterLoad(d, migrated), Without(Loaded(d), id);
    if |s.accounts| == |Loaded(d).accounts| then (left, Err(NotFound))
    else if s.accounts != [] then (Save(left, s, saved), if saved then Ok(()) else Err(NotSaved))
    else SignOut(left, saved)
  }

  function SignOut(d: Disk, saved: bool): (Disk, Result<(), Error>) {
    if d.file.Missing? then (d, Ok(())) else if saved then (d.(file := Missing), Ok(())) else (d, Err(NotSaved))
  }

  function SetActive(d: Disk, id: string, migrated: bool, saved: bool): (Disk, Result<(), Error>) {
    var left, s := AfterLoad(d, migrated), Loaded(d);
    if First(s.accounts, Selectable(id, HasOwn(s))).None? then (left, Err(NotFound))
    else (Save(left, s.(active := Some(id)), saved), if saved then Ok(()) else Err(NotSaved))
  }

  function Refreshed(a: Account, r: Account): Account {
    a.(access := r.access, refresh := r.refresh, expires := r.expires)
  }

  predicate SameCredentials(a: Account, b: Account) {
    a.access == b.access && a.refresh == b.refresh
  }

  function Commit(d: Disk, original: Account, r: Account, migrated: bool, saved: bool): (Disk, Result<Account, Error>) {
    var left, s := AfterLoad(d, migrated), Loaded(d);
    match First(s.accounts, IsOwnNamed(original.id))
    case None => (left, Err(Disconnected))
    case Some(i) =>
      var a := s.accounts[i];
      if !SameCredentials(a, original) then (left, Ok(a))
      else
        (Save(left, s.(accounts := s.accounts[i := Refreshed(a, r)]), saved),
         if saved then Ok(Refreshed(a, r)) else Err(NotSaved))
  }

  // ------------------------------------------------- The store under the gate

  class Credentials {
    var file: File
    var cli: Option<Account>

    ghost function Contents(): Disk
      reads this
    {
      Disk(file, cli)
    }

    constructor (file: File, cli: Option<Account>)
      ensures Contents() == Disk(file, cli)
    {
      this.file, this.cli := file, cli;
    }

    method Load(migrated: bool) returns (s: Store)
      modifies this`file
      ensures s == Loaded(old(Contents())) && Contents() == AfterLoad(old(Contents()), migrated)
    {
      match file {
        case Current(store) =>
          if store.accounts != [] {
            return store;
          }
        case Old(l) =>
          if l.access != "" {
            var id, title := "account_1", "Account 1";
            if l.accountId.Some? {
              id := l.accountId.value;
              title := "Account (" + id + ")";
            }
            s := Store(Some(id), [Account(id, title, l.accountId, l.access, l.refresh, None, l.source)]);
            if migrated {
              file := Current(s);
            }
            return;
          }
        case _ =>
      }
      s := Store(None, []);
      if cli.Some? {
        s := Store(Some(cli.value.id), [cli.value]);
      }
    }

    method Write(s: Store, saved: bool) returns (r: Result<(), Error>)
      modifies this`file
      ensures Contents() == Save(old(Contents()), s, saved) && r == if saved then Ok(()) else Err(NotSaved)
    {
      if !saved {
        return Err(NotSaved);
      }
      file := Current(s);
      r := Ok(());
    }

    method Add(t: Tokens, migrated: bool, saved: bool) returns (r: Result<Account, Error>)
      modifies this`file
      ensures (Contents(), r) == SignIn(old(Contents()), t, migrated, saved)
    {
      var s := Load(migrated);
      var account := Account(t.id, t.title, t.accountId, t.access, t.refresh, t.expires, OWN_SOURCE);
      var i := FindMatch(s.accounts, t);
      if i < |s.accounts| {
        var existing := s.accounts[i];
        existing := existing.(access := account.access);
        if account.refresh.Some? { existing := existing.(refresh := account.refresh); }
        if account.expires.Some? { existing := existing.(expires := account.expires); }
        if account.accountId.Some? { existing := existing.(accountId := account.accountId); }
        s := s.(accounts := s.accounts[i := existing]);
      } else {
        s := s.(accounts := s.accounts + [account]);
      }
      if s.active.None? {
        s := s.(active := Some(t.id));
      }
      var _ :- Write(s, saved);
      r := Ok(account);
    }

    method Delete(id: string, migrated: bool, saved: bool) returns (r: Result<(), Error>)
      modifies this`file
      ensures (Contents(), r) == Remove(old(Contents()), id, migrated, saved)
    {
      var s := Load(migrated);
      var rest := Retain(s.accounts, id);
      if |rest| == |s.accounts| {
        return Err(NotFound);
      }
      var active := s.active;
      if active == Some(id) {
        active := if rest == [] then None else Some(rest[0].id);
      }
      if rest != [] {
        r := Write(Store(active, rest), saved);
      } else {
        r := Clear(saved);
      }
    }

    method Clear(saved: bool) returns (r: Result<(), Error>)
      modifies this`file
      ensures (Contents(), r) == SignOut(old(Contents()), saved)
    {
      if file != Missing {
        if !saved {
          return Err(NotSaved);
        }
        file := Missing;
      }
      r := Ok(());
    }

    method Select(id: string, migrated: bool, saved: bool) returns (r: Result<(), Error>)
      modifies this`file
      ensures (Contents(), r) == SetActive(old(Contents()), id, migrated, saved)
    {
      var s := Load(migrated);
      var own, known := false, false;
      for i := 0 to |s.accounts|
        invariant own <==> exists k | 0 <= k < i :: Own(s.accounts[k])
      {
        own := own || s.accounts[i].source == OWN_SOURCE;
      }
      assert own <==> HasOwn(s);
      for i := 0 to |s.accounts|
        invariant known <==> exists k | 0 <= k < i :: s.accounts[k].id == id && (Own(s.accounts[k]) || !own)
      {
        known := known || (s.accounts[i].id == id && (s.accounts[i].source == OWN_SOURCE || !own));
      }
      if !known {
        return Err(NotFound);
      }
      r := Write(s.(active := Some(id)), saved);
    }

    method CommitRefresh(original: Account, refreshed: Account, migrated: bool, saved: bool)
      returns (r: Result<Account, Error>)
      modifies this`file
      ensures (Contents(), r) == Commit(old(Contents()), original, refreshed, migrated, saved)
    {
      var s := Load(migrated);
      var i := FindOwn(s.accounts, original.id);
      if i == |s.accounts| {
        return Err(Disconnected);
      }
      var existing := s.accounts[i];
      if existing.access != original.access || existing.refresh != original.refresh {
        return Ok(existing);
      }
      existing := existing.(access := refreshed.access, refresh := refreshed.refresh, expires := refreshed.expires);
      var _ :- Write(s.(accounts := s.accounts[i := existing]), saved);
      r := Ok(existing);
    }
  }

  method FindMatch(accounts: seq<Account>, t: Tokens) returns (i: nat)
    ensures First(accounts, Signs(t)) == if i < |accounts| then Some(i) else None
    ensures i <= |accounts|
  {
    i := 0;
    while i < |accounts|
      invariant i <= |accounts| && forall k | 0 <= k < i :: !Matches(accounts[k], t)
    {
      var a := accounts[i];
      if a.id == t.id || (a.accountId.Some? && a.accountId == t.accountId) {
        return;
      }
      i := i + 1;
    }
  }

  method FindOwn(accounts: seq<Account>, id: string) returns (i: nat)
    ensures First(accounts, IsOwnNamed(id)) == if i < |accounts| then Some(i) else None
    ensures i <= |accounts|
  {
    i := 0;
    while i < |accounts|
      invariant i <= |accounts| && forall k | 0 <= k < i :: !(accounts[k].id == id && Own(accounts[k]))
    {
      if accounts[i].id == id && accounts[i].source == OWN_SOURCE {
        return;
      }
      i := i + 1;
    }
  }

  method Retain(accounts: seq<Account>, id: string) returns (rest: seq<Account>)
    ensures rest == Filter(accounts, Except(id))
  {
    rest := [];
    for i := 0 to |accounts|
      invariant rest + Filter(accounts[i..], Except(id)) == Filter(accounts, Except(id))
    {
      assert accounts[i..][1..] == accounts[i + 1..];
      if accounts[i].id != id {
        rest := rest + [accounts[i]];
      }
    }
  }
}
