/** vault.py and manager.py as written: a key in memory, a verifier in the database, and
    one ciphertext per row. Every call refines the plain store of Accounts.dfy. */
module VaultEngine {
  import opened Json
  import opened Accounts

  /** What a ciphertext can decrypt to: the verifier text, a JSON document, or an older
      bare text. */
  datatype Plain = KnownPlaintext | Document(value: Value) | Bare(text: string)

  /** Ideal authenticated encryption: a token opens under the key that made it only. */
  datatype Token = Token(key: string, plain: Plain)

  function Open(key: string, token: Token): Option<Plain> {
    if key == token.key then Some(token.plain) else None
  }

  datatype Row = Row(meta: Meta, secretsEnc: Option<Token>)

  /** config_kv and vault_items. */
  class Database {
    var salt: Option<nat>
    var verifier: Option<Token>
    var rows: map<int, Row>
    var nextId: int

    constructor ()
      ensures salt.None? && verifier.None? && rows == map[] && nextId == 1
    {
      salt, verifier, rows, nextId := None, None, map[], 1;
    }
  }

  datatype Outcome<T> = Ok(value: T) | Locked | Invalid

  class Vault {
    var fernet: Option<string>

    constructor ()
      ensures fernet.None?
    {
      fernet := None;
    }

    /** The token opens to the text under the key in memory, and under no other. */
    method Encrypt(plain: Plain) returns (r: Outcome<Token>)
      ensures r.Ok? <==> fernet.Some?
      ensures r.Ok? ==> forall key :: Open(key, r.value) == if key == fernet.value then Some(plain) else None
      ensures !r.Ok? ==> r == Locked
    {
      if fernet.None? {
        return Locked;
      }
      return Ok(Token(fernet.value, plain));
    }

    method Decrypt(token: Token) returns (r: Outcome<Plain>)
      ensures r == if fernet.None? then Locked
                   else if Open(fernet.value, token).None? then Invalid
                   else Ok(Open(fernet.value, token).value)
    {
      if fernet.None? {
        return Locked;
      }
      var plain := Open(fernet.value, token);
      if plain.None? {
        return Invalid;
      }
      return Ok(plain.value);
    }
  }

  /** `_decrypt_secrets` once the text is open. */
  function SecretsOf(plain: Plain): Secrets {
    match plain
    case Document(v) => if v.Dict? then v.m else map[]
    case Bare(text) => map["value" := Text(text)]
    case KnownPlaintext => map["value" := Text("ghost_shell_vault_v1_ok")]
  }

  /** A decrypted dict is the secrets; another document holds none; and an older text that is
      no document is the single secret `value`. */
  lemma OpenedTexts(v: Value, text: string)
    ensures v.Dict? ==> SecretsOf(Document(v)) == v.m
    ensures !v.Dict? ==> SecretsOf(Document(v)) == map[]
    ensures SecretsOf(Bare(text)).Keys == {"value"} && SecretsOf(Bare(text))["value"] == Text(text)
    ensures SecretsOf(KnownPlaintext) == SecretsOf(Bare("ghost_shell_vault_v1_ok"))
  {
  }

  class Manager {
    const derive: Derive
    const db: Database
    const vault: Vault

    constructor (derive: Derive)
      ensures fresh(db) && fresh(vault) && this.derive == derive
      ensures Valid() && Plainly() == Store(None, false, map[], 1)
    {
      this.derive := derive;
      db := new Database();
      vault := new Vault();
      new;
      assert RowsOf(db.rows) == map[];
    }

    /** The key in memory is the key that made the verifier, and every ciphertext is a
        non-empty document under that key. */
    ghost predicate Valid()
      reads db, vault
    {
      && (db.salt.Some? <==> db.verifier.Some?)
      && (db.verifier.Some? ==> db.verifier.value.plain == KnownPlaintext)
      && (vault.fernet.Some? ==> db.verifier.Some? && vault.fernet.value == db.verifier.value.key)
      && (forall id :: id in db.rows && db.rows[id].secretsEnc.Some? ==>
            db.verifier.Some? && Sealed(db.rows[id].secretsEnc.value, db.verifier.value.key))
    }

    /** The store this is an encryption of. */
    function Plainly(): Store
      reads db, vault
    {
      Store(if db.salt.Some? && db.verifier.Some? then Some((db.salt.value, db.verifier.value.key)) else None,
            vault.fernet.Some?, RowsOf(db.rows), db.nextId)
    }

    // ── vault.py ────────────────────────────────────────────────

    method Initialize(password: string, salt: nat) returns (reply: Reply)
      requires Valid()
      modifies db, vault
      ensures Valid() && (Plainly(), reply) == Step(derive, old(Plainly()), Op.Initialize(password, salt))
    {
      if |password| < 4 {
        return WeakPassword;
      }
      if db.salt.Some? && db.verifier.Some? {
        return AlreadyInitialized;
      }
      var key := derive(password, salt);
      db.salt := Some(salt);
      db.verifier := Some(Token(key, KnownPlaintext));
      vault.fernet := Some(key);
      return Done;
    }

    method Unlock(password: string) returns (reply: Reply)
      requires Valid()
      modifies vault
      ensures Valid() && (Plainly(), reply) == Step(derive, old(Plainly()), Op.Unlock(password))
    {
      if db.salt.None? || db.verifier.None? {
        return NotInitialized;
      }
      var key := derive(password, db.salt.value);
      var plain := Open(key, db.verifier.value);
      if plain.None? {
        return InvalidPassword;
      }
      if plain.value != KnownPlaintext {
        return InvalidPassword;
      }
      vault.fernet := Some(key);
      return Done;
    }

    method Lock() returns (reply: Reply)
      requires Valid()
      modifies vault
      ensures Valid() && (Plainly(), reply) == Step(derive, old(Plainly()), Op.Lock)
    {
      vault.fernet := None;
      return Done;
    }

    // ── manager.py ──────────────────────────────────────────────

    /** `_encrypt_secrets` */
    method EncryptSecrets(secrets: Secrets) returns (r: Outcome<Option<Token>>)
      ensures r == if Clean(secrets) == map[] then Ok(None)
                   else if vault.fernet.None? then Locked
                   else Ok(Some(Token(vault.fernet.value, Document(Dict(Clean(secrets))))))
    {
      var clean := Clean(secrets);
      if clean == map[] {
        return Ok(None);
      }
      var token := vault.Encrypt(Document(Dict(clean)));
      match token
      case Ok(t) =>
        assert Open(t.key, t).Some?;
        return Ok(Some(t));
      case Locked => return Locked;
      case Invalid => return Invalid;
    }

    /** `_decrypt_secrets` */
    method DecryptSecrets(ciphertext: Option<Token>) returns (r: Outcome<Secrets>)
      ensures r == if ciphertext.None? then Ok(map[])
                   else if vault.fernet.None? then Locked
                   else if ciphertext.value.key != vault.fernet.value then Invalid
                   else Ok(SecretsOf(ciphertext.value.plain))
    {
      if ciphertext.None? {
        return Ok(map[]);
      }
      var plain := vault.Decrypt(ciphertext.value);
      match plain
      case Ok(p) => return Ok(SecretsOf(p));
      case Locked => return Locked;
      case Invalid => return Invalid;
    }

    method AddItem(meta: Meta, secrets: Secrets) returns (reply: Reply)
      requires Valid()
      modifies db
      ensures Valid() && (Plainly(), reply) == Step(derive, old(Plainly()), Op.Add(meta, secrets))
    {
      var enc := EncryptSecrets(secrets);
      if !enc.Ok? {
        return VaultLocked;
      }
      var id := db.nextId;
      RowsUpdate(db.rows, id, Row(meta, enc.value));
      db.rows := db.rows[id := Row(meta, enc.value)];
      db.nextId := id + 1;
      return NewId(id);
    }

    method Update(id: int, fields: Meta, patch: Patch) returns (reply: Reply)
      requires Valid()
      modifies db
      ensures Valid() && (Plainly(), reply) == Accounts.UpdateItem(old(Plainly()), id, fields, patch)
    {
      var secretsEnc: Option<Token> := None;
      if patch.SetTo? {
        var enc := EncryptSecrets(patch.secrets);
        if !enc.Ok? {
          return VaultLocked;
        }
        secretsEnc := enc.value;
      }
      if fields == map[] && patch.Untouched? {
        return Changed(false);
      }
      if id !in db.rows {
        return Changed(false);
      }
      var row := db.rows[id];
      var row' := Row(row.meta + fields, if patch.SetTo? then secretsEnc else row.secretsEnc);
      RowsUpdate(db.rows, id, row');
      db.rows := db.rows[id := row'];
      return Changed(true);
    }

    method UpdateAccount(id: int, fields: Meta, passwordTo: Change, totpTo: Change) returns (reply: Reply)
      requires Valid()
      modifies db
      ensures Valid()
      ensures (Plainly(), reply) == Step(derive, old(Plainly()), Op.UpdateAccount(id, fields, passwordTo, totpTo))
    {
      var current: Secrets := map[];
      ghost var held := CurrentSecrets(Plainly(), id);
      if id in db.rows && db.rows[id].secretsEnc.Some? {
        var decrypted := DecryptSecrets(db.rows[id].secretsEnc);
        if !decrypted.Ok? {
          return VaultLocked;
        }
        current := decrypted.value;
      }
      assert current == held;
      if passwordTo.Put? {
        current := current["password" := passwordTo.value];
      }
      if totpTo.Put? {
        current := current["totp_secret" := totpTo.value];
      }
      var secrets := if AnyTruthy(current) then current else map[];
      reply := Update(id, fields, SetTo(secrets));
      AccountStep(derive, old(Plainly()), id, fields, passwordTo, totpTo, secrets);
    }

    method GetItemCleartext(id: int) returns (reply: Reply)
      requires Valid()
      ensures (Plainly(), reply) == Step(derive, Plainly(), Op.Get(id))
    {
      if id !in db.rows {
        return Found(None);
      }
      var row := db.rows[id];
      var secrets := DecryptSecrets(row.secretsEnc);
      if !secrets.Ok? {
        return VaultLocked;
      }
      return Found(Some(Item(row.meta, secrets.value)));
    }

    method DeleteItem(id: int) returns (reply: Reply)
      requires Valid()
      modifies db
      ensures Valid() && (Plainly(), reply) == Step(derive, old(Plainly()), Op.Delete(id))
    {
      reply := Changed(id in db.rows);
      RowsDelete(db.rows, id);
      db.rows := db.rows - {id};
    }

    // ── histories ───────────────────────────────────────────────

    method Perform(op: Op) returns (reply: Reply)
      requires Valid()
      modifies db, vault
      ensures Valid() && (Plainly(), reply) == Step(derive, old(Plainly()), op)
    {
      match op
      case Initialize(password, salt) => reply := Initialize(password, salt);
      case Unlock(password) => reply := Unlock(password);
      case Lock => reply := Lock();
      case Add(meta, secrets) => reply := AddItem(meta, secrets);
      case Update(id, fields, patch) => reply := Update(id, fields, patch);
      case UpdateAccount(id, fields, p, t) => reply := UpdateAccount(id, fields, p, t);
      case Get(id) => reply := GetItemCleartext(id);
      case Delete(id) => reply := DeleteItem(id);
    }

    /** Over every history of calls the encrypted store replies like the plain one and
        stays an encryption of it. */
    method PerformAll(ops: seq<Op>) returns (replies: seq<Reply>)
      requires Valid()
      modifies db, vault
      ensures Valid() && (Plainly(), replies) == Run(derive, old(Plainly()), ops)
      decreases ops
    {
      if ops == [] {
        return [];
      }
      var reply := Perform(ops[0]);
      var rest := PerformAll(ops[1..]);
      replies := [reply] + rest;
    }
  }

  /** A token that holds a non-empty, tidy document under `key`. */
  predicate Sealed(token: Token, key: string) {
    && token.key == key && token.plain.Document? && token.plain.value.Dict?
    && token.plain.value.m != map[] && Clean(token.plain.value.m) == token.plain.value.m
  }

  function CurrentSecrets(s: Store, id: int): Secrets {
    if id in s.items then s.items[id].secrets else map[]
  }

  lemma AccountStep(derive: Derive, s: Store, id: int, fields: Meta, p: Change, t: Change, secrets: Secrets)
    requires secrets == AccountSecrets(CurrentSecrets(s, id), p, t)
    requires CurrentSecrets(s, id) == map[] || s.unlocked
    ensures Step(derive, s, Op.UpdateAccount(id, fields, p, t)) == Accounts.UpdateItem(s, id, fields, SetTo(secrets))
  {
  }

  function ItemOf(row: Row): Item {
    Item(row.meta, if row.secretsEnc.Some? then SecretsOf(row.secretsEnc.value.plain) else map[])
  }

  function RowsOf(rows: map<int, Row>): map<int, Item> {
    map id | id in rows :: ItemOf(rows[id])
  }

  lemma RowsUpdate(rows: map<int, Row>, id: int, row: Row)
    ensures RowsOf(rows[id := row]) == RowsOf(rows)[id := ItemOf(row)]
  {
  }

  lemma RowsDelete(rows: map<int, Row>, id: int)
    ensures RowsOf(rows - {id}) == RowsOf(rows) - {id}
  {
  }
}
