/** `AuthProvider` of `lib/authContext.tsx`: the signed-in `user` and the `isLoading` flag, updated
    by the initial session check, the periodic session validation and sign-out. The stored tokens
    live in a `Common.Storage` (the browser's `localStorage`); the decoded ID-token claims, the clock
    and the user pool's answer are inputs. */
module AuthContext {
  import opened Common
  import opened Cognito

  const OutsideProviderText: string := "useAuth must be used within an AuthProvider"

  /** What the user pool lookup of `getCurrentUser` settles to: a user or `null`, or a rejection. */
  type PoolAnswer = Result<Option<AuthUser>>

  /** The value the context hands to its consumers. */
  datatype ContextValue = ContextValue(user: Option<AuthUser>, isLoading: bool, isAuthenticated: bool)

  /** What the stored tokens say, read from a storage's current items. */
  function CheckItems(items: map<string, string>, decoded: DecodeResult, nowMs: nat): StoredCheck
  {
    CheckStoredTokens(if IdTokenKey in items then Some(items[IdTokenKey]) else None,
                      if AccessTokenKey in items then Some(items[AccessTokenKey]) else None,
                      if RefreshTokenKey in items then Some(items[RefreshTokenKey]) else None,
                      decoded, nowMs)
  }

  /** Once the token keys are gone, the stored tokens never yield a session. */
  lemma NoTokensNoSession(items: map<string, string>, decoded: DecodeResult, nowMs: nat)
    requires IdTokenKey !in items
    ensures CheckItems(items, decoded, nowMs) == NoSession
  {
  }

  class AuthProvider {
    var user: Option<AuthUser>
    var isLoading: bool
    const local: Storage

    /** The provider mounts with no user and `isLoading` set. */
    constructor (local: Storage)
      ensures this.local == local && user == None && isLoading
    {
      this.local := local;
      user := None;
      isLoading := true;
    }

    /** `isAuthenticated`: `user !== null`. */
    function IsAuthenticated(): (b: bool)
      reads this
      ensures b <==> user.Some?
    {
      user != None
    }

    function Value(): (v: ContextValue)
      reads this
      ensures v.user == user && v.isLoading == isLoading
      ensures v.isAuthenticated <==> v.user.Some?
    {
      ContextValue(user, isLoading, IsAuthenticated())
    }

    /** `setUser` as the context exposes it. */
    method SetUser(u: Option<AuthUser>)
      modifies this
      ensures user == u && isLoading == old(isLoading)
    {
      user := u;
    }

    /** `checkAuth`: the stored-token user if there is one, else whatever `getCurrentUser` settles
        to (which reads the stored tokens again, then asks the pool), `null` on a rejection; and
        `isLoading` ends false on every path. */
    method CheckAuth(decoded: DecodeResult, nowMs: nat, pool: PoolAnswer)
      modifies this, local
      ensures !isLoading
      ensures var check := CheckItems(old(local.items), decoded, nowMs);
              && user == (if check.Session? then Some(check.user) else if pool.Ok? then pool.value else None)
              && local.items == (if check.Corrupt? then old(local.items) - TokenKeys else old(local.items))
    {
      var stored := GetUserFromStoredTokens(local, decoded, nowMs);
      if stored.Some? {
        user := stored;
      } else {
        match pool {
          case Ok(poolUser) =>
            NoTokensNoSession(local.items - TokenKeys, decoded, nowMs);
            var current := GetCurrentUser(local, decoded, nowMs, poolUser);
            user := current;
          case Failed(_) =>
            user := None;
        }
      }
      isLoading := false;
    }

    /** `validateSession`: nothing while loading; otherwise a user whose stored tokens no longer
        give a session is signed out. Reading the tokens may itself clear undecodable ones. */
    method ValidateSession(decoded: DecodeResult, nowMs: nat)
      modifies this, local
      ensures isLoading == old(isLoading)
      ensures old(isLoading) ==> user == old(user) && local.items == old(local.items)
      ensures !old(isLoading) ==>
                var check := CheckItems(old(local.items), decoded, nowMs);
                && user == (if !check.Session? && old(user).Some? then None else old(user))
                && local.items == (if check.Corrupt? || (!check.Session? && old(user).Some?)
                                   then old(local.items) - TokenKeys else old(local.items))
      ensures !old(isLoading) && user.Some? ==> CheckItems(old(local.items), decoded, nowMs).Session?
    {
      if isLoading {
        return;
      }
      var stored := GetUserFromStoredTokens(local, decoded, nowMs);
      if stored.None? && user.Some? {
        SignOut(local);
        user := None;
      }
    }

    /** `handleSignOut`: the three token keys are removed and the user is cleared. */
    method HandleSignOut()
      modifies this, local
      ensures user == None && isLoading == old(isLoading)
      ensures local.items == old(local.items) - TokenKeys
    {
      SignOut(local);
      user := None;
    }
  }

  /** `useAuth`: the context value, or the error thrown outside a provider. */
  function UseAuth(context: Option<ContextValue>): (r: Result<ContextValue>)
    ensures context.None? <==> r == Failed(Error(OutsideProviderText))
    ensures context.Some? ==> r == Ok(context.value)
  {
    if context.None? then Failed(Error(OutsideProviderText)) else Ok(context.value)
  }
}
