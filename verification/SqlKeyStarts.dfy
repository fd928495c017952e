/** What one start comes to, field by field, and what the stored backend does over several starts. */
module SqlKeyStarts {
  import opened Options
  import opened SqlKey

  // ---------- starts that throw ----------

  /** The backend goes first: with another one than the stored one nothing is decrypted and nothing is
      written, whatever else there is, and no other start ends in this way. */
  lemma BackendChangeExactly(c: Config, env: Env, accepted: nat)
    ensures Start(c, env, accepted).1 == BackendChangeError <==>
              env.isLinux && c.safeStorageBackend.Some? && c.safeStorageBackend != env.backend
    ensures Start(c, env, accepted).1 == BackendChangeError ==> Start(c, env, accepted).0 == c
  {
  }

  /** The other errors that come before any write, and when they come. */
  lemma RefusedExactly(c: Config, env: Env, accepted: nat)
    ensures var (d, outcome) := Start(c, env, accepted);
            var otherBackend := env.isLinux && c.safeStorageBackend.Some? && c.safeStorageBackend != env.backend;
            var usable := env.isUsable && !(env.isLinux && env.backend == Some("basic_text"));
            && (outcome == CannotDecrypt <==> !otherBackend && c.encryptedKey.Some? && !usable)
            && (outcome == DecryptionFailed <==> !otherBackend && c.encryptedKey.Some? && usable && env.decrypted.None?)
            && (outcome == Quit <==>
                  && !otherBackend && c.encryptedKey.Some? && usable && env.decrypted.Some?
                  && c.key.Some? && c.key != env.decrypted && !c.safeStorageDecryptionError && !env.continues)
            && (outcome == CannotDecrypt || outcome == DecryptionFailed || outcome == Quit ==> d == c)
  {
  }

  // ---------- starts that return ----------

  /** From an encrypted key: the decrypted value, or the plaintext copy when that differs. A copy that is
      confirmed goes, and one that differs stays for good. */
  lemma FromEncrypted(c: Config, env: Env, accepted: nat)
    requires c.encryptedKey.Some? && Start(c, env, accepted).1.Returned?
    ensures env.decrypted.Some?
    ensures var (d, outcome) := Start(c, env, accepted);
            var differs := c.key.Some? && c.key != env.decrypted;
            && outcome.key == (if differs then c.key.value else env.decrypted.value)
            && d == Config(if differs then c.key else None, c.encryptedKey,
                           if env.isLinux && c.safeStorageBackend.None? then env.backend else c.safeStorageBackend,
                           c.safeStorageDecryptionError || differs)
  {
    PutAllPrefixes(c, Plan(c, env).0);
  }

  /** From a plaintext key, or from nothing: the same key, or the new one, encrypted when that can be done;
      in Flatpak the plaintext stays beside it. */
  lemma FromPlaintext(c: Config, env: Env, accepted: nat)
    requires c.encryptedKey.None? && Start(c, env, accepted).1.Returned?
    ensures var (d, outcome) := Start(c, env, accepted);
            && outcome.key == (if c.key.Some? then c.key.value else env.generated)
            && d == if env.isUsable && !(env.isLinux && env.backend == Some("basic_text"))
                    then Config(if env.isFlatpak then Some(outcome.key) else None, Some(Cipher(outcome.key)),
                                if env.isLinux && env.backend.Some? then env.backend else c.safeStorageBackend,
                                c.safeStorageDecryptionError)
                    else c.(key := Some(outcome.key))
  {
    PutAllPrefixes(c, Plan(c, env).0);
  }

  /** How many writes have to reach the disk: a start that none of the errors ends returns if and only if
      that many do. */
  lemma WritesNeeded(c: Config, env: Env, accepted: nat)
    requires Start(c, env, accepted).1 == WriteFailed || Start(c, env, accepted).1.Returned?
    ensures var usable := env.isUsable && !(env.isLinux && env.backend == Some("basic_text"));
            var confirms := c.key.Some? && c.key == env.decrypted;
            var asks := c.key.Some? && c.key != env.decrypted && !c.safeStorageDecryptionError;
            var needed := if c.encryptedKey.Some? then
                            (if confirms || asks then 1 else 0) + (if env.isLinux && c.safeStorageBackend.None? then 1 else 0)
                          else if usable then 2 + (if env.isLinux && env.backend.Some? then 1 else 0)
                          else if c.key.Some? then 0 else 1;
            Start(c, env, accepted).1 == WriteFailed <==> accepted < needed
  {
  }

  /** Stopped by a write: the encrypted key is written before the plaintext goes, the backend last. */
  lemma StoppedInOrder(c: Config, env: Env, accepted: nat)
    requires Start(c, env, accepted).1 == WriteFailed
    ensures var d := Start(c, env, accepted).0;
            && d.safeStorageBackend == c.safeStorageBackend
            && (c.encryptedKey.None? && d.encryptedKey.None? ==> d == c)
            && (accepted == 0 ==> d == c)
  {
    PutAllPrefixes(c, Plan(c, env).0);
  }

  // ---------- the backend over several starts ----------

  /** Whenever a start on Linux returns with an encrypted key in the configuration, the backend in use is
      the stored one. */
  lemma BackendIsStored(c: Config, env: Env, accepted: nat)
    requires env.isLinux && Start(c, env, accepted).1.Returned? && Start(c, env, accepted).0.encryptedKey.Some?
    ensures Start(c, env, accepted).0.safeStorageBackend == env.backend
  {
    PutAllPrefixes(c, Plan(c, env).0);
  }

  /** A stored backend changes only together with a first encrypted key. */
  lemma BackendStays(c: Config, env: Env, accepted: nat)
    requires env.isLinux && c.safeStorageBackend.Some?
    ensures Start(c, env, accepted).0.safeStorageBackend == c.safeStorageBackend
  {
    PutAllPrefixes(c, Plan(c, env).0);
  }

  lemma {:induction false} BackendStaysOverRuns(c: Config, starts: seq<Attempt>)
    requires c.safeStorageBackend.Some? && forall a | a in starts :: a.env.isLinux
    ensures Restarted(c, starts).safeStorageBackend == c.safeStorageBackend
    decreases |starts|
  {
    hide Start;
    if starts != [] {
      assert starts[0] in starts;
      BackendStays(c, starts[0].env, starts[0].accepted);
      BackendStaysOverRuns(Start(c, starts[0].env, starts[0].accepted).0, starts[1..]);
    }
  }

  /** Over every sequence of starts on Linux: once one of them has returned with an encrypted key under some
      backend, each later one throws if and only if it runs under another backend, and leaves everything as
      it was then. */
  lemma EncryptedUnderOneBackend(c: Config, first: Attempt, starts: seq<Attempt>, later: Attempt)
    requires first.env.isLinux && later.env.isLinux && first.env.backend.Some? && forall a | a in starts :: a.env.isLinux
    requires Start(c, first.env, first.accepted).1.Returned? && Start(c, first.env, first.accepted).0.encryptedKey.Some?
    ensures var d := Restarted(Start(c, first.env, first.accepted).0, starts);
            && (Start(d, later.env, later.accepted).1 == BackendChangeError <==> later.env.backend != first.env.backend)
            && (later.env.backend != first.env.backend ==> Start(d, later.env, later.accepted).0 == d)
  {
    hide Start;
    BackendIsStored(c, first.env, first.accepted);
    BackendStaysOverRuns(Start(c, first.env, first.accepted).0, starts);
    BackendChangeExactly(Restarted(Start(c, first.env, first.accepted).0, starts), later.env, later.accepted);
  }
}
