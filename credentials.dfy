/**
 * The credential manager of src/shared/helpers.ts: the module-level
 * `credentials` object, the credentials file under the cache directory, and
 * the interactive device login (an external flow, reduced here to "a new
 * token bundle scoped to the requested domain").
 */
module Credentials {
  import opened Wrappers

  /** A token bundle: the tenant domain it was issued for and which interactive login produced it. */
  datatype Credential = Credential(domain: Option<string>, session: nat)

  /** The in-memory credential, the persisted one, and how many interactive logins have run. */
  datatype CredState = CredState(current: Option<Credential>, file: Option<Credential>, logins: nat)

  /** Whether `login(ignoreCache, _)` has to run the interactive flow from this state. */
  predicate NeedsInteractive(s: CredState, ignoreCache: bool) {
    ignoreCache || (s.current.None? && s.file.None?)
  }

  /**
   * `login(ignoreCache, tenantId)`: reuse the in-memory credential, else load
   * the file, else (or when forced) log in interactively and persist the result.
   */
  function Login(s: CredState, ignoreCache: bool, tenantId: Option<string>): (r: CredState)
    ensures r.current.Some?
    ensures !ignoreCache && s.current.Some? ==> r == s
    ensures !ignoreCache && s.current.None? && s.file.Some? ==> r == s.(current := s.file)
    ensures NeedsInteractive(s, ignoreCache) <==> r.logins == s.logins + 1
    ensures !NeedsInteractive(s, ignoreCache) ==> r.logins == s.logins && r.file == s.file
    ensures NeedsInteractive(s, ignoreCache) ==>
              r.current == Some(Credential(tenantId, s.logins)) && r.file == r.current
  {
    if !ignoreCache && s.current.Some? then s
    else if !ignoreCache && s.file.Some? then s.(current := s.file)
    else
      var c := Credential(tenantId, s.logins);
      CredState(Some(c), Some(c), s.logins + 1)
  }

  /** Once any login has run, an unforced login changes nothing and never prompts. */
  lemma UnforcedLoginIsStable(s: CredState, ignoreCache: bool, t: Option<string>, t': Option<string>)
    ensures Login(Login(s, ignoreCache, t), false, t') == Login(s, ignoreCache, t)
  {
  }
}

/** The credential cache as an object whose `Login` updates it in place. */
module CredentialStore {
  import opened Wrappers
  import Credentials

  class Store {
    var current: Option<Credentials.Credential>
    var file: Option<Credentials.Credential>
    var logins: nat

    function State(): Credentials.CredState
      reads this
    {
      Credentials.CredState(current, file, logins)
    }

    constructor (persisted: Option<Credentials.Credential>)
      ensures State() == Credentials.CredState(None, persisted, 0)
    {
      current, file, logins := None, persisted, 0;
    }

    method Login(ignoreCache: bool, tenantId: Option<string>) returns (c: Credentials.Credential)
      modifies this
      ensures State() == Credentials.Login(old(State()), ignoreCache, tenantId)
      ensures current == Some(c)
      ensures !ignoreCache && old(current).Some? ==> c == old(current).value
    {
      if !ignoreCache && current.Some? {
        c := current.value;
        return;
      }
      if !ignoreCache && file.Some? {
        current := file;
        c := current.value;
        return;
      }
      c := Credentials.Credential(tenantId, logins);
      current := Some(c);
      file := current;
      logins := logins + 1;
    }
  }
}
