/** The authentication-status store of app/stores/discord.ts. The embedded SDK
    instance is an opaque handle. */
module Discord {
  import opened Base

  datatype AuthStatus = Idle | Initializing | Authenticating | Authenticated | Error

  /** Stands for the SDK instance (real or mock); the store only keeps it. */
  datatype SdkHandle = SdkHandle(instance: nat)

  datatype DiscordUser = DiscordUser(
    id: string,
    username: string,
    discriminator: string,
    globalName: Option<string>,
    avatar: Option<string>)

  /** The token response kept after authentication. */
  datatype DiscordAuth = DiscordAuth(
    accessToken: string,
    refreshToken: string,
    expiresIn: int,
    user: DiscordUser)

  class DiscordStore {
    var sdk: Option<SdkHandle>
    var auth: Option<DiscordAuth>
    var status: AuthStatus
    var error: Option<string>

    /** The `state` function. */
    constructor ()
      ensures sdk == None && auth == None && error == None && status == Idle
    {
      sdk := None;
      auth := None;
      error := None;
      status := Idle;
    }

    /** The `user` getter. */
    function User(): (u: Option<DiscordUser>)
      reads this
      ensures auth.None? ==> u == None
      ensures auth.Some? ==> u == Some(auth.value.user)
    {
      if auth.Some? then Some(auth.value.user) else None
    }

    /** The `isAuthenticated` getter: a user is present, or the status says so. */
    function IsAuthenticated(): (b: bool)
      reads this
      ensures b <==> User().Some? || status == Authenticated
      ensures b <==> auth.Some? || status == Authenticated
    {
      auth.Some? || status == Authenticated
    }

    method SetSdk(handle: SdkHandle)
      modifies this`sdk, this`status
      ensures sdk == Some(handle) && status == Initializing
    {
      sdk := Some(handle);
      status := Initializing;
    }

    method SetError(message: string)
      modifies this`status, this`error
      ensures status == Error && error == Some(message)
    {
      status := Error;
      error := Some(message);
    }

    /** Clears the message only: the status stays what it was. */
    method ClearError()
      modifies this`error
      ensures error == None
    {
      error := None;
    }

    method SetStatus(s: AuthStatus)
      modifies this`status
      ensures status == s
    {
      status := s;
    }

    method SetAuth(a: DiscordAuth)
      modifies this`status, this`auth
      ensures status == Authenticated && auth == Some(a)
      ensures IsAuthenticated() && User() == Some(a.user)
    {
      status := Authenticated;
      auth := Some(a);
    }
  }

  /** Once authentication data is stored, the store stays authenticated
      through a later error and its clearing, although the status says `Error`. */
  method AuthenticatedSurvivesError(a: DiscordAuth, message: string) returns (authenticated: bool, status: AuthStatus)
    ensures authenticated && status == Error
  {
    var store := new DiscordStore();
    store.SetSdk(SdkHandle(0));
    store.SetStatus(Authenticating);
    store.SetAuth(a);
    store.SetError(message);
    store.ClearError();
    authenticated := store.IsAuthenticated();
    status := store.status;
  }

  /** A fresh store is not authenticated and has no user. */
  method FreshStoreUnauthenticated() returns (authenticated: bool, user: Option<DiscordUser>)
    ensures !authenticated && user == None
  {
    var store := new DiscordStore();
    authenticated := store.IsAuthenticated();
    user := store.User();
  }
}
