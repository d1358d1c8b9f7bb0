/** What the credential vault means: a plain store of items behind a lock. VaultEngine.dfy
    proves that the encrypted implementation behaves like it. */
module Accounts {
  import opened Json

  type Secrets = map<string, Value>
  type Meta = map<string, Value>

  /** Keys derived from a master password and a salt; nothing is assumed about it. */
  type Derive = (string, nat) -> string

  datatype Item = Item(meta: Meta, secrets: Secrets)

  /** `master` is the salt and the key that made the verifier. */
  datatype Store = Store(master: Option<(nat, string)>, unlocked: bool, items: map<int, Item>, nextId: int)

  /** `secrets=...` leaves the secrets alone, None or an empty dict clears them. */
  datatype Patch = Untouched | SetTo(secrets: Secrets)

  datatype Change = Keep | Put(value: Value)

  datatype Op =
    | Initialize(password: string, salt: nat)
    | Unlock(password: string)
    | Lock
    | Add(meta: Meta, secrets: Secrets)
    | Update(id: int, fields: Meta, patch: Patch)
    | UpdateAccount(id: int, fields: Meta, passwordTo: Change, totpTo: Change)
    | Get(id: int)
    | Delete(id: int)

  datatype Reply =
    | Done
    | NewId(id: int)
    | Changed(yes: bool)
    | Found(item: Option<Item>)
    | WeakPassword | AlreadyInitialized | NotInitialized | InvalidPassword | VaultLocked

  /** Fields that are None or empty are not stored. */
  function Clean(secrets: Secrets): Secrets {
    map k | k in secrets && secrets[k] != Null && secrets[k] != Text("") :: secrets[k]
  }

  function Patched(secrets: Secrets, key: string, change: Change): Secrets {
    if change.Put? then secrets[key := change.value] else secrets
  }

  predicate AnyTruthy(secrets: Secrets) {
    exists k :: k in secrets && Truthy(secrets[k])
  }

  /** The secrets `update_account` saves: everything, unless no value is truthy. */
  function AccountSecrets(current: Secrets, passwordTo: Change, totpTo: Change): Secrets {
    var s := Patched(Patched(current, "password", passwordTo), "totp_secret", totpTo);
    if AnyTruthy(s) then s else map[]
  }

  /** `update_item` on the plain store. */
  function UpdateItem(s: Store, id: int, fields: Meta, patch: Patch): (Store, Reply) {
    if patch.SetTo? && Clean(patch.secrets) != map[] && !s.unlocked then (s, VaultLocked)
    else if fields == map[] && patch.Untouched? then (s, Changed(false))
    else if id !in s.items then (s, Changed(false))
    else
      var item := s.items[id];
      var secrets := if patch.SetTo? then Clean(patch.secrets) else item.secrets;
      (s.(items := s.items[id := Item(item.meta + fields, secrets)]), Changed(true))
  }

  function Step(derive: Derive, s: Store, op: Op): (Store, Reply) {
    match op
    case Initialize(password, salt) =>
      if |password| < 4 then (s, WeakPassword)
      else if s.master.Some? then (s, AlreadyInitialized)
      else (s.(master := Some((salt, derive(password, salt))), unlocked := true), Done)
    case Unlock(password) =>
      if s.master.None? then (s, NotInitialized)
      else if derive(password, s.master.value.0) != s.master.value.1 then (s, InvalidPassword)
      else (s.(unlocked := true), Done)
    case Lock => (s.(unlocked := false), Done)
    case Add(meta, secrets) =>
      if Clean(secrets) != map[] && !s.unlocked then (s, VaultLocked)
      else (s.(items := s.items[s.nextId := Item(meta, Clean(secrets))], nextId := s.nextId + 1), NewId(s.nextId))
    case Update(id, fields, patch) => UpdateItem(s, id, fields, patch)
    case UpdateAccount(id, fields, passwordTo, totpTo) =>
      var current := if id in s.items then s.items[id].secrets else map[];
      if current != map[] && !s.unlocked then (s, VaultLocked)
      else UpdateItem(s, id, fields, SetTo(AccountSecrets(current, passwordTo, totpTo)))
    case Get(id) =>
      if id !in s.items then (s, Found(None))
      else if s.items[id].secrets != map[] && !s.unlocked then (s, VaultLocked)
      else (s, Found(Some(s.items[id])))
    case Delete(id) =>
      (s.(items := s.items - {id}), Changed(id in s.items))
  }

  /** A history of calls: the store it ends in and the replies it gave. */
  function Run(derive: Derive, s: Store, ops: seq<Op>): (Store, seq<Reply>)
    decreases ops
  {
    if ops == [] then (s, [])
    else
      var (s1, reply) := Step(derive, s, ops[0]);
      var (s2, replies) := Run(derive, s1, ops[1..]);
      (s2, [reply] + replies)
  }

  // ── what the plain store promises ─────────────────────────────

  /** Every stored field says something. */
  predicate Tidy(s: Store) {
    forall id :: id in s.items ==> Clean(s.items[id].secrets) == s.items[id].secrets
  }

  lemma CleanIsIdempotent(secrets: Secrets)
    ensures Clean(Clean(secrets)) == Clean(secrets)
  {
  }

  lemma StepKeepsTidy(derive: Derive, s: Store, op: Op)
    requires Tidy(s)
    ensures Tidy(Step(derive, s, op).0)
  {
    match op
    case Add(_, secrets) => CleanIsIdempotent(secrets);
    case Update(_, _, SetTo(secrets)) => CleanIsIdempotent(secrets);
    case UpdateAccount(id, _, p, t) =>
      CleanIsIdempotent(AccountSecrets(if id in s.items then s.items[id].secrets else map[], p, t));
    case _ =>
  }

  /** A locked vault refuses exactly the calls that would have to read or write a
      non-empty secret, and a refused call changes nothing. */
  lemma LockedRefusesIff(derive: Derive, s: Store, op: Op)
    requires !s.unlocked
    ensures var (s', reply) := Step(derive, s, op);
            && (reply.VaultLocked? ==> s' == s)
            && (reply.VaultLocked? <==>
                  match op
                  case Add(_, secrets) => Clean(secrets) != map[]
                  case Update(_, _, SetTo(secrets)) => Clean(secrets) != map[]
                  case UpdateAccount(id, _, p, t) =>
                    var current := if id in s.items then s.items[id].secrets else map[];
                    current != map[] || Clean(AccountSecrets(current, p, t)) != map[]
                  case Get(id) => id in s.items && s.items[id].secrets != map[]
                  case _ => false)
  {
  }

  /** Without an unlock no history reveals or replaces a non-empty secret: an item keeps
      its secrets, loses them to an explicit clearing, or is deleted. */
  lemma {:induction false} LockedHistoryKeepsSecrets(derive: Derive, s: Store, ops: seq<Op>, id: int)
    requires !s.unlocked && id in s.items && id < s.nextId
    requires forall op :: op in ops ==> !op.Unlock? && !op.Initialize?
    ensures var s' := Run(derive, s, ops).0;
            id in s'.items ==> s'.items[id].secrets == s.items[id].secrets || s'.items[id].secrets == map[]
    decreases ops
  {
    if ops != [] {
      assert ops[0] in ops && forall op :: op in ops[1..] ==> op in ops;
      var s1 := Step(derive, s, ops[0]).0;
      if id in s1.items {
        LockedHistoryKeepsSecrets(derive, s1, ops[1..], id);
      } else {
        GoneStaysGone(derive, s1, ops[1..], id);
      }
    }
  }

  lemma {:induction false} GoneStaysGone(derive: Derive, s: Store, ops: seq<Op>, id: int)
    requires id !in s.items && id < s.nextId
    ensures id !in Run(derive, s, ops).0.items
    decreases ops
  {
    if ops != [] {
      GoneStaysGone(derive, Step(derive, s, ops[0]).0, ops[1..], id);
    }
  }

  /** What a key reads in a dict. */
  function Entry(m: map<string, Value>, key: string): Option<Value> {
    if key in m then Some(m[key]) else None
  }

  /** What a saved value reads back as: None and the empty text are not kept. */
  function Saved(v: Value): Option<Value> {
    if v == Null || v == Text("") then None else Some(v)
  }

  /** Every key of the saved secrets reads back as what was saved under it, and nothing else
      does. */
  ghost predicate ReadsBack(stored: Secrets, given: Secrets) {
    forall key :: Entry(stored, key) == if key in given then Saved(given[key]) else None
  }

  /** What was saved is what is read back, without its empty fields. */
  lemma UpdateThenGet(derive: Derive, s: Store, id: int, fields: Meta, secrets: Secrets)
    requires s.unlocked && id in s.items
    ensures var (s', reply) := Step(derive, s, Update(id, fields, SetTo(secrets)));
            && reply == Changed(true)
            && Step(derive, s', Get(id)).1 == Found(Some(Item(s.items[id].meta + fields, Clean(secrets))))
            && ReadsBack(Clean(secrets), secrets)
  {
  }

  /** A new item gets the next id, and reads back in the same way. */
  lemma AddThenGet(derive: Derive, s: Store, meta: Meta, secrets: Secrets)
    requires s.unlocked
    ensures var (s', reply) := Step(derive, s, Add(meta, secrets));
            && reply == NewId(s.nextId) && s'.nextId > s.nextId
            && Step(derive, s', Get(s.nextId)).1 == Found(Some(Item(meta, Clean(secrets))))
            && ReadsBack(Clean(secrets), secrets)
  {
  }

  /** Patching fields only keeps the secrets, also while locked; without anything to patch
      nothing changes. */
  lemma UntouchedSecretsStay(derive: Derive, s: Store, id: int, fields: Meta)
    requires id in s.items
    ensures var (s', reply) := Step(derive, s, Update(id, fields, Untouched));
            && reply == Changed(fields != map[]) && id in s'.items
            && s'.items[id] == Item(s.items[id].meta + fields, s.items[id].secrets)
  {
    if fields == map[] {
      assert s.items[id].meta + fields == s.items[id].meta;
    }
  }

  /** What a change makes of the value that was stored under its key. */
  function Becomes(before: Option<Value>, change: Change): Option<Value> {
    match change
    case Keep => before
    case Put(v) => Saved(v)
  }

  /** Some value is truthy once the two changes are made. */
  predicate LeavesTruthy(before: Secrets, p: Change, t: Change) {
    || (p.Put? && Truthy(p.value))
    || (t.Put? && Truthy(t.value))
    || exists key :: key in before && Truthy(before[key]) && (key == "password" ==> p.Keep?) && (key == "totp_secret" ==> t.Keep?)
  }

  /** `update_account` on an open vault: as long as some value is truthy afterwards, the new
      password and seed are what is read back, with a None or empty one removed, every other
      secret is kept, and the fields are patched. Otherwise all secrets are gone. */
  lemma UpdateAccountThenGet(derive: Derive, s: Store, id: int, fields: Meta, p: Change, t: Change) returns (after: Secrets)
    requires Tidy(s) && s.unlocked && id in s.items
    ensures var (s', reply) := Step(derive, s, UpdateAccount(id, fields, p, t));
            reply == Changed(true) && Step(derive, s', Get(id)).1 == Found(Some(Item(s.items[id].meta + fields, after)))
    ensures var before := s.items[id].secrets;
            if LeavesTruthy(before, p, t) then
              && Entry(after, "password") == Becomes(Entry(before, "password"), p)
              && Entry(after, "totp_secret") == Becomes(Entry(before, "totp_secret"), t)
              && forall key :: key != "password" && key != "totp_secret" ==> Entry(after, key) == Entry(before, key)
            else after == map[]
  {
    var before := s.items[id].secrets;
    PatchReadsBack(before, p, t);
    PatchLeavesTruthy(before, p, t);
    after := Step(derive, s, UpdateAccount(id, fields, p, t)).0.items[id].secrets;
  }

  lemma PatchReadsBack(before: Secrets, p: Change, t: Change)
    requires Clean(before) == before
    ensures var after := Clean(Patched(Patched(before, "password", p), "totp_secret", t));
            forall key :: Entry(after, key)
                          == if key == "password" then Becomes(Entry(before, key), p)
                             else if key == "totp_secret" then Becomes(Entry(before, key), t) else Entry(before, key)
  {
    assert forall key :: key in before ==> key in Clean(before);
  }

  lemma PatchLeavesTruthy(before: Secrets, p: Change, t: Change)
    ensures AnyTruthy(Patched(Patched(before, "password", p), "totp_secret", t)) <==> LeavesTruthy(before, p, t)
  {
    var patched := Patched(Patched(before, "password", p), "totp_secret", t);
    if t.Put? && Truthy(t.value) {
      assert "totp_secret" in patched;
    }
    if p.Put? && Truthy(p.value) {
      assert "password" in patched;
    }
    if key :| key in before && Truthy(before[key]) && (key == "password" ==> p.Keep?) && (key == "totp_secret" ==> t.Keep?) {
      assert key in patched;
    }
  }

  /** A deleted item is gone, and calls for an id that is not there change nothing. */
  lemma DeletedIsGone(derive: Derive, s: Store, id: int)
    ensures var (s', reply) := Step(derive, s, Delete(id));
            && reply == Changed(id in s.items) && Step(derive, s', Get(id)).1 == Found(None)
            && forall other :: other != id ==> Step(derive, s', Get(other)).1 == Step(derive, s, Get(other)).1
  {
    var s' := Step(derive, s, Delete(id)).0;
    forall other | other != id ensures Step(derive, s', Get(other)).1 == Step(derive, s, Get(other)).1 {
      assert other in s'.items <==> other in s.items;
    }
  }

  /** Calls for an item or a vault that is not there. */
  lemma NothingToWorkOn(derive: Derive, s: Store, id: int, fields: Meta, p: Change, t: Change, password: string)
    ensures id !in s.items ==>
              && Step(derive, s, Get(id)) == (s, Found(None))
              && Step(derive, s, Update(id, fields, Untouched)) == (s, Changed(false))
              && (s.unlocked ==> Step(derive, s, UpdateAccount(id, fields, p, t)) == (s, Changed(false)))
    ensures s.master.None? ==> Step(derive, s, Unlock(password)) == (s, NotInitialized)
    ensures s.master.Some? && |password| >= 4 ==> Step(derive, s, Initialize(password, 0)) == (s, AlreadyInitialized)
  {
  }

  /** A call that touches other items only leaves this one as it was. */
  lemma OthersAreUntouched(derive: Derive, s: Store, op: Op, id: int)
    requires id in s.items && id != s.nextId && !Touches(op, id)
    ensures var s' := Step(derive, s, op).0; id in s'.items && s'.items[id] == s.items[id]
  {
  }

  /** A vault opens again after a lock exactly with a password that derives its key, such as
      the one it was made with; short passwords make none. */
  lemma OpensWithItsPassword(derive: Derive, s: Store, password: string, salt: nat, other: string)
    requires s.master.None?
    ensures var (s1, reply) := Step(derive, s, Initialize(password, salt));
            if |password| < 4 then s1 == s && reply == WeakPassword
            else
              var s2 := Step(derive, s1, Lock).0;
              var (s3, reply') := Step(derive, s2, Unlock(other));
              && reply == Done && s1.unlocked && !s2.unlocked && s2.items == s3.items == s.items
              && (s3.unlocked <==> derive(other, salt) == derive(password, salt))
              && reply' == if s3.unlocked then Done else InvalidPassword
  {
  }

  /** `update_account` keeps every other secret of the item exactly when some value is
      truthy after the patch, or there is nothing else to keep. */
  lemma UpdateAccountFramesIff(derive: Derive, s: Store, id: int, fields: Meta, p: Change, t: Change)
    requires Tidy(s) && s.unlocked && id in s.items
    ensures var before := s.items[id].secrets;
            var after := Step(derive, s, UpdateAccount(id, fields, p, t)).0.items[id].secrets;
            var patched := Patched(Patched(before, "password", p), "totp_secret", t);
            (forall k :: k in before && k != "password" && k != "totp_secret" ==> k in after && after[k] == before[k])
            <==> AnyTruthy(patched) || before.Keys <= {"password", "totp_secret"}
  {
    var before := s.items[id].secrets;
    assert forall k :: k in before ==> k in Clean(before);
  }

  const EMPTY: Store := Store(None, false, map[], 1)

  /** How secrets of which none is truthy get lost, from the empty store on: they are saved
      and read back, and after an update of the account that patches nothing they are
      gone. */
  lemma FalsySecretIsLost(derive: Derive, password: string, salt: nat, meta: Meta, secrets: Secrets)
    requires |password| >= 4 && !AnyTruthy(secrets) && Clean(secrets) != map[]
    ensures Run(derive, EMPTY,
                [Initialize(password, salt), Add(meta, secrets), Get(1), UpdateAccount(1, map[], Keep, Keep), Get(1)]).1
            == [Done, NewId(1), Found(Some(Item(meta, Clean(secrets)))), Changed(true), Found(Some(Item(meta, map[])))]
  {
    var item := Item(meta, Clean(secrets));
    var s1 := Store(Some((salt, derive(password, salt))), true, map[], 1);
    var s2 := s1.(items := map[1 := item], nextId := 2);
    var s3 := s1.(items := map[1 := Item(meta, map[])], nextId := 2);
    assert !AnyTruthy(Clean(secrets)) && Clean(map[]) == map[] && meta + map[] == meta;
    assert s1.items[1 := item] == map[1 := item];
    assert s2.items[1 := Item(meta, map[])] == map[1 := Item(meta, map[])];
    var u := UpdateAccount(1, map[], Keep, Keep);
    assert Step(derive, s2, u) == (s3, Changed(true));
    OneMore(derive, s3, Get(1), []);
    OneMore(derive, s2, u, [Get(1)]);
    OneMore(derive, s2, Get(1), [u, Get(1)]);
    OneMore(derive, s1, Add(meta, secrets), [Get(1), u, Get(1)]);
    OneMore(derive, EMPTY, Initialize(password, salt), [Add(meta, secrets), Get(1), u, Get(1)]);
  }

  lemma OneMore(derive: Derive, s: Store, op: Op, rest: seq<Op>)
    ensures var (s1, reply) := Step(derive, s, op);
            Run(derive, s, [op] + rest) == (Run(derive, s1, rest).0, [reply] + Run(derive, s1, rest).1)
  {
    assert ([op] + rest)[1..] == rest;
  }

  // ── what was saved comes back ─────────────────────────────────

  /** The call may replace or remove the item. */
  predicate Touches(op: Op, id: int) {
    match op
    case Update(i, _, _) => i == id
    case UpdateAccount(i, _, _, _) => i == id
    case Delete(i) => i == id
    case _ => false
  }

  /** Whether an initialised vault is open after these calls. */
  function Opened(derive: Derive, master: (nat, string), open: bool, ops: seq<Op>): bool
    decreases ops
  {
    if ops == [] then open
    else
      var now := match ops[0]
        case Lock => false
        case Unlock(password) => open || derive(password, master.0) == master.1
        case _ => open;
      Opened(derive, master, now, ops[1..])
  }

  /** What was stored under an id comes back unchanged after any calls that leave the item
      alone, through any locks and unlocks, exactly when the vault is open again under its
      one master or there was nothing secret; otherwise it is refused. */
  lemma {:induction false} SavedReadsBackIff(derive: Derive, s: Store, ops: seq<Op>, id: int)
    requires s.master.Some? && id in s.items && id < s.nextId
    requires forall op :: op in ops ==> !Touches(op, id)
    ensures var s' := Run(derive, s, ops).0;
            var open := Opened(derive, s.master.value, s.unlocked, ops);
            && s'.unlocked == open
            && Step(derive, s', Get(id)).1
               == if open || s.items[id].secrets == map[] then Found(Some(s.items[id])) else VaultLocked
    decreases ops
  {
    if ops != [] {
      assert ops[0] in ops && forall op :: op in ops[1..] ==> op in ops;
      var s1 := Step(derive, s, ops[0]).0;
      assert id in s1.items && s1.items[id] == s.items[id] && id < s1.nextId && s1.master == s.master;
      SavedReadsBackIff(derive, s1, ops[1..], id);
    }
  }

  /** Once initialised, the salt and the key never change, and an unlock succeeds exactly
      for the passwords that derive that key. */
  lemma {:induction false} MasterIsFixed(derive: Derive, s: Store, ops: seq<Op>, password: string)
    requires s.master.Some?
    ensures var s' := Run(derive, s, ops).0;
            && s'.master == s.master
            && (Step(derive, s', Unlock(password)).1.Done?
                <==> derive(password, s.master.value.0) == s.master.value.1)
    decreases ops
  {
    if ops != [] {
      MasterIsFixed(derive, Step(derive, s, ops[0]).0, ops[1..], password);
    }
  }
}
