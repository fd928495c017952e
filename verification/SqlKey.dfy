/** The life cycle of the database key, over restarts, crashes and changing encryption. */
module SqlKey {
  import opened Options

  type Key = string

  /** What encryption makes of a key: only the key inside matters here. */
  datatype Cipher = Cipher(plain: Key)

  /** The fields of the user configuration that the key lives in. */
  datatype Config = Config(
    key: Option<Key>, encryptedKey: Option<Cipher>,
    safeStorageBackend: Option<string>, safeStorageDecryptionError: bool)

  const EMPTY := Config(None, None, None, false)

  /** One `userConfig.set`. */
  datatype Write =
    | SetKey(key: Option<Key>)
    | SetEncryptedKey(encryptedKey: Cipher)
    | SetBackend(backend: Option<string>)
    | SetDecryptionError

  function Put(c: Config, w: Write): Config {
    match w
    case SetKey(key) => c.(key := key)
    case SetEncryptedKey(cipher) => c.(encryptedKey := Some(cipher))
    case SetBackend(backend) => c.(safeStorageBackend := backend)
    case SetDecryptionError => c.(safeStorageDecryptionError := true)
  }

  function PutAll(c: Config, ws: seq<Write>): Config
    decreases |ws|
  {
    if ws == [] then c else PutAll(Put(c, ws[0]), ws[1..])
  }

  // ---------- the configuration file ----------

  datatype Unlink = Deleted | Failed

  /** A configuration with its file; `set` and `remove` report an exception as false. */
  class ConfigFile {
    const throwOnFilesystemErrors: bool
    var cachedValue: Config
    ghost var file: Option<Config>

    ghost function Contents(): Config
      reads this
    {
      if file.None? then EMPTY else file.value
    }

    /** What is in memory is what is on disk, as long as file errors are not swallowed. */
    ghost predicate Valid()
      reads this
    {
      throwOnFilesystemErrors ==> cachedValue == Contents()
    }

    constructor (throwOnErrors: bool, onDisk: Option<Config>)
      ensures throwOnFilesystemErrors == throwOnErrors && file == onDisk && Valid() && cachedValue == Contents()
    {
      throwOnFilesystemErrors, file := throwOnErrors, onDisk;
      cachedValue := if onDisk.None? then EMPTY else onDisk.value;
    }

    /** `accepted` says whether the file system takes the write. */
    method Set(w: Write, accepted: bool) returns (ok: bool)
      requires Valid()
      modifies this
      ensures Valid() && ok == (accepted || !throwOnFilesystemErrors)
      ensures cachedValue == if ok then Put(old(cachedValue), w) else old(cachedValue)
      ensures file == if accepted then Some(Put(old(cachedValue), w)) else old(file)
    {
      var newCachedValue := Put(cachedValue, w);
      if !throwOnFilesystemErrors {
        cachedValue := newCachedValue;
      }
      if accepted {
        file := Some(newCachedValue);
        cachedValue := newCachedValue;
      } else if throwOnFilesystemErrors {
        return false;
      }
      return true;
    }

    /** Deleting a file that is not there counts as done. */
    method Remove(result: Unlink, existed: bool) returns (ok: bool)
      requires Valid() && existed == file.Some?
      modifies this
      ensures Valid() && ok == (result == Deleted || !existed || !throwOnFilesystemErrors)
      ensures cachedValue == if ok then EMPTY else old(cachedValue)
      ensures file == if result == Deleted then None else old(file)
    {
      if existed && result == Deleted {
        file := None;
      } else if existed && throwOnFilesystemErrors {
        return false;
      }
      cachedValue := EMPTY;
      return true;
    }
  }

  // ---------- getSQLKey ----------

  /** What a start finds around it. `decrypted` is what decryption makes of the stored key, None when
      it throws; `continues` is the answer to the dialog; `generated` the key that would be made. */
  datatype Env = Env(
    isLinux: bool, isFlatpak: bool, isUsable: bool, backend: Option<string>,
    decrypted: Option<Key>, continues: bool, generated: Key)
  {
    predicate CanEncrypt() { isUsable && (!isLinux || backend != Some("basic_text")) }

    predicate BackendChanged(c: Config) {
      isLinux && c.safeStorageBackend.Some? && c.safeStorageBackend != backend
    }
  }

  datatype Outcome =
    | Returned(key: Key)
    | BackendChangeError
    | CannotDecrypt
    | DecryptionFailed
    | Quit
    | WriteFailed

  /** The writes a start would make one after the other, and its outcome when all succeed. */
  function Plan(c: Config, env: Env): (seq<Write>, Outcome) {
    if env.BackendChanged(c) then ([], BackendChangeError)
    else if c.encryptedKey.Some? then
      if !env.CanEncrypt() then ([], CannotDecrypt)
      else if env.decrypted.None? then ([], DecryptionFailed)
      else Decrypted(c, env, env.decrypted.value)
    else if c.key.Some? then
      (if env.CanEncrypt() then Stored(env, c.key.value) else [], Returned(c.key.value))
    else
      (if env.CanEncrypt() then Stored(env, env.generated) else [SetKey(Some(env.generated))], Returned(env.generated))
  }

  function Decrypted(c: Config, env: Env, key: Key): (seq<Write>, Outcome) {
    var backend := if env.isLinux && c.safeStorageBackend.None? then [SetBackend(env.backend)] else [];
    if c.key.None? then (backend, Returned(key))
    else if c.key.value == key then ([SetKey(None)] + backend, Returned(key))
    else if c.safeStorageDecryptionError then (backend, Returned(c.key.value))
    else if !env.continues then ([], Quit)
    else ([SetDecryptionError] + backend, Returned(c.key.value))
  }

  function Stored(env: Env, key: Key): seq<Write> {
    [SetEncryptedKey(Cipher(key)), SetKey(if env.isFlatpak then Some(key) else None)]
    + if env.isLinux && env.backend.Some? then [SetBackend(env.backend)] else []
  }

  /** One start, of which the first `accepted` writes reach the disk: the next one fails, or the
      program dies before it. */
  function Start(c: Config, env: Env, accepted: nat): (Config, Outcome) {
    var plan := Plan(c, env);
    if |plan.0| <= accepted then (PutAll(c, plan.0), plan.1) else (PutAll(c, plan.0[..accepted]), WriteFailed)
  }

  lemma PutAllPrefixes(c: Config, ws: seq<Write>)
    requires |ws| <= 3
    ensures ws[..0] == [] && PutAll(c, []) == c
    ensures |ws| >= 1 ==> PutAll(c, ws[..1]) == Put(c, ws[0])
    ensures |ws| >= 2 ==> PutAll(c, ws[..2]) == Put(Put(c, ws[0]), ws[1])
    ensures |ws| >= 3 ==> PutAll(c, ws[..3]) == Put(Put(Put(c, ws[0]), ws[1]), ws[2])
    ensures ws[..|ws|] == ws
  {
    if |ws| >= 1 { PutOne(c, ws[..1]); }
    if |ws| >= 2 { PutTwo(c, ws[..2]); }
    if |ws| >= 3 { PutOne(c, ws[..3]); PutTwo(Put(c, ws[0]), ws[..3][1..]); }
  }

  lemma PutOne(c: Config, ws: seq<Write>)
    requires |ws| >= 1
    ensures PutAll(c, ws) == PutAll(Put(c, ws[0]), ws[1..]) && PutAll(c, []) == c
    ensures |ws| == 1 ==> PutAll(c, ws) == Put(c, ws[0])
  {
    assert |ws| == 1 ==> ws[1..] == [];
  }

  lemma PutTwo(c: Config, ws: seq<Write>)
    requires |ws| == 2
    ensures PutAll(c, ws) == Put(Put(c, ws[0]), ws[1])
  {
    PutOne(c, ws);
    PutOne(Put(c, ws[0]), ws[1..]);
  }

  /** `handleSafeStorageDecryptionError`; None is a failed write. */
  method HandleDecryptionError(config: ConfigFile, env: Env, accepted: bool) returns (next: Option<bool>)
    requires config.throwOnFilesystemErrors && config.Valid()
    modifies config
    ensures config.Valid()
    ensures next == if old(config.cachedValue).safeStorageDecryptionError then Some(true)
                    else if !env.continues then Some(false)
                    else if accepted then Some(true) else None
    ensures config.cachedValue == if !old(config.cachedValue).safeStorageDecryptionError && env.continues && accepted
                                  then Put(old(config.cachedValue), SetDecryptionError) else old(config.cachedValue)
  {
    if config.cachedValue.safeStorageDecryptionError {
      return Some(true);
    }
    if !env.continues {
      return Some(false);
    }
    var ok := config.Set(SetDecryptionError, accepted);
    return if ok then Some(true) else None;
  }

  method GetSqlKey(config: ConfigFile, env: Env, accepted: nat) returns (outcome: Outcome)
    requires config.throwOnFilesystemErrors && config.Valid()
    modifies config
    ensures config.Valid()
    ensures (config.Contents(), outcome) == Start(old(config.Contents()), env, accepted)
  {
    var start := config.cachedValue;
    PutAllPrefixes(start, Plan(start, env).0);
    var legacyKeyValue := start.key;
    var modernKeyValue := start.encryptedKey;
    var previousBackend := if env.isLinux then start.safeStorageBackend else None;
    var isEncryptionAvailable := env.CanEncrypt();
    var ok, writes := true, 0;

    if env.isLinux && previousBackend.Some? && previousBackend != env.backend {
      return BackendChangeError;
    }

    var key: Key;
    var update := false;
    if modernKeyValue.Some? {
      if !isEncryptionAvailable {
        return CannotDecrypt;
      }
      if env.decrypted.None? {
        return DecryptionFailed;
      }
      key := env.decrypted.value;
      if legacyKeyValue.Some? {
        if key == legacyKeyValue.value {
          ok := config.Set(SetKey(None), writes < accepted);
          if !ok {
            return WriteFailed;
          }
          writes := writes + 1;
        } else {
          var asked := !config.cachedValue.safeStorageDecryptionError;
          var nextStep := HandleDecryptionError(config, env, writes < accepted);
          if nextStep.None? {
            return WriteFailed;
          }
          if !nextStep.value {
            return Quit;
          }
          writes := if asked then writes + 1 else writes;
          key := legacyKeyValue.value;
        }
      }
      if env.isLinux && previousBackend.None? {
        ok := config.Set(SetBackend(env.backend), writes < accepted);
        if !ok {
          return WriteFailed;
        }
      }
    } else if legacyKeyValue.Some? {
      key := legacyKeyValue.value;
      update := isEncryptionAvailable;
    } else {
      key := env.generated;
      update := true;
    }

    if !update {
      return Returned(key);
    }

    if isEncryptionAvailable {
      ok := StoreEncrypted(config, env, key, accepted);
    } else {
      ok := config.Set(SetKey(Some(key)), 0 < accepted);
    }
    return if ok then Returned(key) else WriteFailed;
  }

  /** The last part of `getSQLKey`: the encrypted key, the plaintext one, the backend. */
  method StoreEncrypted(config: ConfigFile, env: Env, key: Key, accepted: nat) returns (ok: bool)
    requires config.throwOnFilesystemErrors && config.Valid()
    modifies config
    ensures config.Valid()
    ensures ok == (|Stored(env, key)| <= accepted)
    ensures config.cachedValue == PutAll(old(config.cachedValue), if ok then Stored(env, key) else Stored(env, key)[..accepted])
  {
    PutAllPrefixes(config.cachedValue, Stored(env, key));
    ok := config.Set(SetEncryptedKey(Cipher(key)), 0 < accepted);
    if !ok {
      return;
    }
    if env.isFlatpak {
      ok := config.Set(SetKey(Some(key)), 1 < accepted);
    } else {
      ok := config.Set(SetKey(None), 1 < accepted);
    }
    if !ok {
      return;
    }
    if env.isLinux && env.backend.Some? {
      ok := config.Set(SetBackend(env.backend), 2 < accepted);
    }
  }

  // ---------- the key is kept ----------

  /** `k` is what the configuration stands for: stored encrypted, or plain, or both. */
  predicate Holds(c: Config, k: Key) {
    if c.encryptedKey.None? then c.key == Some(k)
    else c.encryptedKey.value.plain == k && (c.key.None? || c.key.value == k)
  }

  /** Without a plaintext copy to compare with, decryption has to be right or to throw. */
  predicate Trusted(c: Config, env: Env) {
    c.encryptedKey.Some? && c.key.None? ==> env.decrypted.None? || env.decrypted.value == c.encryptedKey.value.plain
  }

  predicate Generates(c: Config, env: Env) {
    !env.BackendChanged(c) && c.encryptedKey.None? && c.key.None?
  }

  lemma StartKeepsKey(c: Config, env: Env, accepted: nat, k: Key)
    requires Holds(c, k)
    ensures Holds(Start(c, env, accepted).0, k) && !Generates(c, env)
  {
    PutAllPrefixes(c, Plan(c, env).0);
  }

  /** Exactly when a start hands out another key than the stored one: it has nothing to compare the
      decrypted value with, and that value is wrong. */
  lemma WrongKeyExactly(c: Config, env: Env, accepted: nat, k: Key, wrong: Key)
    requires Holds(c, k) && wrong != k
    ensures Start(c, env, accepted).1 == Returned(wrong) <==>
              && c.encryptedKey.Some? && c.key.None? && env.CanEncrypt() && !env.BackendChanged(c)
              && env.decrypted == Some(wrong)
              && (env.isLinux && c.safeStorageBackend.None? ==> accepted >= 1)
  {
  }

  /** A start that returns a key leaves it stored, also when it found nothing before. */
  lemma ReturnedIsStored(c: Config, env: Env, accepted: nat)
    requires (c.encryptedKey.None? && c.key.None?) || exists k :: Holds(c, k)
    requires Trusted(c, env) && Start(c, env, accepted).1.Returned?
    ensures Holds(Start(c, env, accepted).0, Start(c, env, accepted).1.key)
  {
    PutAllPrefixes(c, Plan(c, env).0);
  }

  // ---------- runs ----------

  datatype Attempt = Attempt(env: Env, accepted: nat)

  /** The configuration after all of the starts. */
  function Restarted(c: Config, starts: seq<Attempt>): Config
    decreases |starts|
  {
    if starts == [] then c else Restarted(Start(c, starts[0].env, starts[0].accepted).0, starts[1..])
  }

  predicate AllTrusted(c: Config, starts: seq<Attempt>)
    decreases |starts|
  {
    starts == [] || (Trusted(c, starts[0].env) && AllTrusted(Start(c, starts[0].env, starts[0].accepted).0, starts[1..]))
  }

  function OutcomeOf(c: Config, starts: seq<Attempt>, i: nat): Outcome
    requires i < |starts|
  {
    Start(Restarted(c, starts[..i]), starts[i].env, starts[i].accepted).1
  }

  /** While a key is stored, every start returns it or throws, and none makes a new one. */
  lemma {:induction false} KeyIsKept(c: Config, starts: seq<Attempt>, k: Key, i: nat)
    requires Holds(c, k) && AllTrusted(c, starts) && i < |starts|
    ensures OutcomeOf(c, starts, i).Returned? ==> OutcomeOf(c, starts, i).key == k
    ensures Holds(Restarted(c, starts[..i]), k) && !Generates(Restarted(c, starts[..i]), starts[i].env)
    decreases |starts|
  {
    var first := starts[0];
    var next := Start(c, first.env, first.accepted).0;
    StartKeepsKey(c, first.env, first.accepted, k);
    if i == 0 {
      if Start(c, first.env, first.accepted).1.Returned? {
        var got := Start(c, first.env, first.accepted).1.key;
        if got != k { WrongKeyExactly(c, first.env, first.accepted, k, got); }
      }
    } else {
      KeyIsKept(next, starts[1..], k, i - 1);
      assert starts[1..][..i - 1] == starts[..i][1..];
    }
  }

  /** Wherever the program is stopped, the configuration is empty or stands for one key. */
  lemma {:induction false} AlwaysEmptyOrHeld(c: Config, starts: seq<Attempt>)
    requires (c.encryptedKey.None? && c.key.None?) || exists k :: Holds(c, k)
    ensures var d := Restarted(c, starts); (d.encryptedKey.None? && d.key.None?) || exists k :: Holds(d, k)
    decreases |starts|
  {
    if starts != [] {
      var env, accepted := starts[0].env, starts[0].accepted;
      var d := Start(c, env, accepted).0;
      if k :| Holds(c, k) {
        StartKeepsKey(c, env, accepted, k);
        assert Holds(d, k);
      } else {
        PutAllPrefixes(c, Plan(c, env).0);
        assert (d.encryptedKey.None? && d.key.None?) || Holds(d, env.generated);
      }
      AlwaysEmptyOrHeld(d, starts[1..]);
    }
  }

  lemma {:induction false} TrustedAt(c: Config, starts: seq<Attempt>, i: nat)
    requires AllTrusted(c, starts) && i < |starts|
    ensures Trusted(Restarted(c, starts[..i]), starts[i].env)
    ensures AllTrusted(Restarted(c, starts[..i + 1]), starts[i + 1..])
    ensures Restarted(c, starts[..i + 1]) == Start(Restarted(c, starts[..i]), starts[i].env, starts[i].accepted).0
    decreases i
  {
    var next := Start(c, starts[0].env, starts[0].accepted).0;
    if i == 0 {
      assert starts[..1][1..] == [];
    } else {
      TrustedAt(next, starts[1..], i - 1);
      assert starts[1..][..i - 1] == starts[..i][1..];
      assert starts[1..][..i] == starts[..i + 1][1..];
      assert starts[1..][i..] == starts[i + 1..];
    }
  }

  lemma {:induction false} RestartedTwice(c: Config, a: seq<Attempt>, b: seq<Attempt>)
    ensures Restarted(c, a + b) == Restarted(Restarted(c, a), b)
    decreases |a|
  {
    if a == [] {
      assert a + b == b;
    } else {
      assert (a + b)[1..] == a[1..] + b;
      RestartedTwice(Start(c, a[0].env, a[0].accepted).0, a[1..], b);
    }
  }

  /** From a fresh installation: once a start has returned a key, every later start returns the same
      key or throws, and none generates one. */
  lemma {:induction false} OnceReturnedAlwaysReturned(starts: seq<Attempt>, i: nat, j: nat)
    requires AllTrusted(EMPTY, starts) && i < j < |starts| && OutcomeOf(EMPTY, starts, i).Returned?
    ensures OutcomeOf(EMPTY, starts, j).Returned? ==> OutcomeOf(EMPTY, starts, j).key == OutcomeOf(EMPTY, starts, i).key
    ensures !Generates(Restarted(EMPTY, starts[..j]), starts[j].env)
  {
    var before, after := Restarted(EMPTY, starts[..i]), Restarted(EMPTY, starts[..i + 1]);
    AlwaysEmptyOrHeld(EMPTY, starts[..i]);
    TrustedAt(EMPTY, starts, i);
    ReturnedIsStored(before, starts[i].env, starts[i].accepted);
    KeyIsKept(after, starts[i + 1..], OutcomeOf(EMPTY, starts, i).key, j - i - 1);
    RestartedTwice(EMPTY, starts[..i + 1], starts[i + 1..][..j - i - 1]);
    assert starts[..i + 1] + starts[i + 1..][..j - i - 1] == starts[..j];
  }

  /** Wrong decryption does no harm while the plaintext copy is there: after the user has chosen to
      continue, starts return the key without asking again. */
  lemma ContinueSticks(c: Config, env: Env, accepted: nat, k: Key)
    requires Holds(c, k) && c.encryptedKey.Some? && c.key.Some? && env.CanEncrypt() && !env.BackendChanged(c)
    requires env.decrypted.Some? && env.decrypted.value != k && accepted >= 2
    ensures c.safeStorageDecryptionError || env.continues ==>
              && Start(c, env, accepted).1 == Returned(k)
              && Start(c, env, accepted).0.safeStorageDecryptionError && Start(c, env, accepted).0.key == Some(k)
    ensures !c.safeStorageDecryptionError && !env.continues ==> Start(c, env, accepted) == (c, Quit)
  {
    PutAllPrefixes(c, Plan(c, env).0);
  }

  /** The plaintext copy goes only when decryption was seen to give it back, or, outside Flatpak,
      when the encrypted key was just written. */
  lemma PlaintextLeavesSafely(c: Config, env: Env, accepted: nat)
    requires c.key.Some? && Start(c, env, accepted).0.key.None?
    ensures Start(c, env, accepted).0.encryptedKey == Some(Cipher(c.key.value)) || env.decrypted == c.key
    ensures env.isFlatpak ==> c.encryptedKey.Some? && env.decrypted == c.key
  {
    PutAllPrefixes(c, Plan(c, env).0);
  }
}
