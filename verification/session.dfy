/** The session and API layer of the vendor app: a persistent key/value store
    holding `token`, `refreshToken` and `vendorId`, and the calls that read it,
    send one request (or, for the profile, a bounded refresh-and-retry
    sequence) and decode the reply.

    Every call is described by the effects it has, in order: the requests it
    sends and the store writes it makes. The store after a call is the store
    before it with the writes replayed. Server replies are inputs. */
module Session {
  import opened Common
  import opened Records

  // Keys of the persistent store.
  const TokenKey: string := "token"
  const RefreshTokenKey: string := "refreshToken"
  const VendorIdKey: string := "vendorId"

  // Messages of the errors the calls throw themselves.
  const AuthenticationFailed: string := "Authentication failed. Please sign in again."
  const SignUpFailed: string := "Sign-up failed."
  const SignInFailed: string := "Sign-in failed."
  const VendorIdMissingSignIn: string := "Vendor ID is missing. Please sign in again."
  const VendorIdMissing: string := "Vendor ID is missing."
  const AddItemFailed: string := "Failed to add item."
  const ProfileUpdateFailed: string := "Profile update failed."
  const NoTokenFound: string := "No token found."
  const RefreshTokenMissing: string := "Refresh token missing."
  const TokenRefreshFailed: string := "Token refresh failed."
  const ProfileFetchFailed: string := "Failed to fetch profile."
  const UploadFailed: string := "Upload failed."
  const BookingsFetchFailed: string := "Failed to fetch bookings."
  const ItemsFetchFailed: string := "Failed to fetch items."
  const BookingConfirmFailed: string := "Failed to confirm booking"

  // The image host's upload parameters and the two MIME types the app chooses from.
  const UploadPreset: string := "utsavia"
  const UploadFolder: string := "your_folder_name"
  const PngType: string := "image/png"
  const JpegType: string := "image/jpeg"
  const UploadPrefix: string := "upload."

  /** The authentication scheme prefix of an Authorization header value
      (section 2.1 of RFC 6750). */
  const BearerPrefix: string := "Bearer "

  /** The status of a reply that makes the profile call refresh its token:
      "401 Unauthorized" (section 15.5.2 of RFC 9110). */
  const Unauthorized: int := 401

  // ---------------------------------------------------------------------------
  // The persistent store

  type Store = map<string, string>

  /** `getItem(key)`: `null` when the key was never written. */
  function Lookup(store: Store, key: string): Option<string> {
    if key in store then Some(store[key]) else None
  }

  /** Writes the pairs in order, a later pair winning over an earlier one. */
  function Assign(store: Store, pairs: seq<(string, string)>): Store
    decreases |pairs|
  {
    if pairs == [] then store else Assign(store[pairs[0].0 := pairs[0].1], pairs[1..])
  }

  /** The device's persistent key/value storage. */
  class Storage {
    var items: Store

    constructor (initial: Store)
      ensures items == initial
    {
      items := initial;
    }

    function GetItem(key: string): Option<string>
      reads this
    {
      Lookup(items, key)
    }

    method SetItem(key: string, value: string)
      modifies this
      ensures items == old(items)[key := value]
    {
      items := items[key := value];
    }

    method MultiSet(pairs: seq<(string, string)>)
      modifies this
      ensures items == Assign(old(items), pairs)
    {
      items := Assign(items, pairs);
    }
  }

  // ---------------------------------------------------------------------------
  // Requests, effects and replies

  datatype AuthKind = SignUpKind | SignInKind

  /** The multipart form of an image upload. */
  datatype Upload = Upload(uri: string, mimeType: string, fileName: string, preset: string, folder: string)

  /** The body of a profile update: the profile's fields with `vendorId` added. */
  datatype UpdateBody = UpdateBody(profile: ProfilePayload, vendorId: string)

  /** One HTTP request, by endpoint, with what the app puts in it. */
  datatype Request =
    | AuthRequest(kind: AuthKind, form: map<string, string>)         // POST /auth/signup or /auth/signin
    | AddItemRequest(item: FormattedItem)                             // POST /items/add
    | UpdateProfileRequest(authorization: string, body: UpdateBody)   // POST /auth/profile/update
    | ProfileRequest(authorization: string)                           // GET /auth/profile
    | RefreshRequest(refreshToken: string)                            // POST /auth/refresh-token
    | UploadRequest(upload: Upload)                                   // POST to the image host
    | FetchBookingsRequest(authorization: string)                     // GET /bookings
    | FetchItemsRequest(vendorId: string)                             // GET /items/fetch, `vendorid` header
    | ConfirmBookingRequest(authorization: string, bookingId: string) // PUT /bookings/:id/confirm

  /** The Authorization header a request carries, if any. */
  function Authorization(r: Request): Option<string> {
    match r
    case UpdateProfileRequest(a, _) => Some(a)
    case ProfileRequest(a) => Some(a)
    case FetchBookingsRequest(a) => Some(a)
    case ConfirmBookingRequest(a, _) => Some(a)
    case _ => None
  }

  /** What a call does to the outside world, in order. */
  datatype Effect = Send(request: Request) | Write(pairs: seq<(string, string)>)

  /** A call's outcome and the effects it had. */
  datatype Call<T> = Call(result: Result<T, Failure>, effects: seq<Effect>)

  /** The store after the effects' writes. */
  function Replay(store: Store, effects: seq<Effect>): Store
    decreases |effects|
  {
    if effects == [] then store
    else match effects[0]
      case Send(_) => Replay(store, effects[1..])
      case Write(pairs) => Replay(Assign(store, pairs), effects[1..])
  }

  /** Replaying effects one after another is replaying each part in turn. */
  lemma {:induction false} ReplayAppend(store: Store, a: seq<Effect>, b: seq<Effect>)
    ensures Replay(store, a + b) == Replay(Replay(store, a), b)
    decreases |a|
  {
    if a == [] {
      assert a + b == b;
    } else {
      assert (a + b)[0] == a[0] && (a + b)[1..] == a[1..] + b;
      match a[0]
      case Send(_) => ReplayAppend(store, a[1..], b);
      case Write(pairs) => ReplayAppend(Assign(store, pairs), a[1..], b);
    }
  }

  /** Effects that only send leave the store as it was. */
  lemma {:induction false} ReplayReadOnly(store: Store, effects: seq<Effect>)
    requires ReadOnly(effects)
    ensures Replay(store, effects) == store
  {
    if effects != [] {
      assert effects[0].Send?;
      ReplayReadOnly(store, effects[1..]);
    }
  }

  /** A single write of one pair sets that key. */
  lemma ReplayOneWrite(store: Store, key: string, value: string)
    ensures Replay(store, [Write([(key, value)])]) == store[key := value]
  {
    var pairs := [(key, value)];
    assert pairs[1..] == [];
    assert Assign(store, pairs) == Assign(store[key := value], []);
    assert [Write(pairs)][1..] == [];
    assert Replay(store, [Write(pairs)]) == Replay(Assign(store, pairs), []);
  }

  /** The requests among the effects, in order. */
  function Sent(effects: seq<Effect>): seq<Request>
    decreases |effects|
  {
    if effects == [] then []
    else (if effects[0].Send? then [effects[0].request] else []) + Sent(effects[1..])
  }

  /** No effect writes the store. */
  predicate ReadOnly(effects: seq<Effect>) {
    forall i :: 0 <= i < |effects| ==> effects[i].Send?
  }

  /** Every request that carries an Authorization header carries the bearer form
      of the token the store holds at the moment the request is sent. */
  predicate BearerMatchesStore(store: Store, effects: seq<Effect>)
    decreases |effects|
  {
    effects == [] ||
    match effects[0]
    case Write(pairs) => BearerMatchesStore(Assign(store, pairs), effects[1..])
    case Send(r) =>
      && (Authorization(r).Some? ==>
            TokenKey in store && Authorization(r).value == AuthHeader(store[TokenKey]))
      && BearerMatchesStore(store, effects[1..])
  }

  /** `response.ok`. */
  predicate Ok(status: int) {
    200 <= status <= 299
  }

  /** A decoded JSON body: its `message` member (when it has a usable one) and the rest. */
  datatype Body<B> = Body(message: Option<string>, data: B)

  /** What `fetch` yields: no reply at all (the promise rejects), or a status,
      the body as text and the body decoded (`None` when it is not JSON). */
  datatype Reply<B> = NoReply | Reply(status: int, text: string, body: Option<Body<B>>)

  datatype AuthBody = AuthBody(token: Option<string>, vendorId: Option<string>)

  datatype RefreshBody = RefreshBody(accessToken: string)

  datatype UploadBody = UploadBody(secureUrl: string)

  /** The common shape of a JSON call: decode the body first, then reject with
      the body's `message`, or the fallback, when the status is not ok. */
  function Decode<B>(reply: Reply<B>, fallback: string): (r: Result<Body<B>, Failure>)
    ensures r.Success? <==> reply.Reply? && Ok(reply.status) && reply.body.Some?
    ensures r.Success? ==> r.value == reply.body.value
    ensures reply.Reply? && reply.body.Some? && !Ok(reply.status) ==>
              r == Failure(Thrown(OrElse(reply.body.value.message, fallback)))
    ensures reply.NoReply? ==> r == Failure(NetworkError)
    ensures reply.Reply? && reply.body.None? ==> r == Failure(ParseError)
  {
    match reply
    case NoReply => Failure(NetworkError)
    case Reply(status, _, body) =>
      if body.None? then Failure(ParseError)
      else if !Ok(status) then Failure(Thrown(OrElse(body.value.message, fallback)))
      else Success(body.value)
  }

  // ---------------------------------------------------------------------------
  // The Authorization header

  /** The header value for a token: the `Bearer` scheme, one space, the token. */
  function AuthHeader(token: string): (h: string)
    ensures BearerToken(h) == Some(token)
  {
    BearerPrefix + token
  }

  /** The token of a header value in the `Bearer` scheme, `None` for any other value. */
  function BearerToken(h: string): Option<string> {
    if |h| >= |BearerPrefix| && h[..|BearerPrefix|] == BearerPrefix then Some(h[|BearerPrefix|..]) else None
  }

  /** `getAuthHeader`: fails when no token is stored, otherwise the bearer header of
      the stored token. */
  function GetAuthHeader(store: Store): (r: Result<string, Failure>)
    ensures r.Success? <==> Usable(Lookup(store, TokenKey))
    ensures r.Success? ==> BearerToken(r.value) == Some(store[TokenKey])
    ensures r.Failure? ==> r.error == Thrown(AuthenticationFailed)
  {
    var token := Lookup(store, TokenKey);
    if !Usable(token) then Failure(Thrown(AuthenticationFailed)) else Success(AuthHeader(token.value))
  }

  // ---------------------------------------------------------------------------
  // Sign-up and sign-in

  /** `signUp`/`signIn`: post the form, decode the reply, reject on a non-ok
      status, and persist `token` and `vendorId` only when both are usable. */
  function AuthExchange(store: Store, kind: AuthKind, form: map<string, string>, reply: Reply<AuthBody>)
    : (c: Call<Body<AuthBody>>)
    ensures |c.effects| >= 1 && c.effects[0] == Send(AuthRequest(kind, form))
    ensures c.result == Decode(reply, if kind == SignUpKind then SignUpFailed else SignInFailed)
  {
    var sent := [Send(AuthRequest(kind, form))];
    var decoded := Decode(reply, if kind == SignUpKind then SignUpFailed else SignInFailed);
    if decoded.Failure? then Call(decoded, sent)
    else
      var data := decoded.value.data;
      if Usable(data.token) && Usable(data.vendorId) then
        Call(decoded, sent + [Write([(TokenKey, data.token.value), (VendorIdKey, data.vendorId.value)])])
      else
        Call(decoded, sent)
  }

  /** The steps `signUp` and `signIn` share, on the device's storage. */
  method Authenticate(storage: Storage, kind: AuthKind, form: map<string, string>, reply: Reply<AuthBody>)
    returns (result: Result<Body<AuthBody>, Failure>, effects: seq<Effect>)
    modifies storage
    ensures Call(result, effects) == AuthExchange(old(storage.items), kind, form, reply)
    ensures storage.items == Replay(old(storage.items), effects)
  {
    effects := [Send(AuthRequest(kind, form))];
    result := Decode(reply, if kind == SignUpKind then SignUpFailed else SignInFailed);
    if result.Failure? {
      ReplayReadOnly(old(storage.items), effects);
      return;
    }
    var data := result.value.data;
    if Usable(data.token) && Usable(data.vendorId) {
      var pairs := [(TokenKey, data.token.value), (VendorIdKey, data.vendorId.value)];
      storage.MultiSet(pairs);
      ReplayReadOnly(old(storage.items), effects);
      ReplayAppend(old(storage.items), effects, [Write(pairs)]);
      assert [Write(pairs)][1..] == [];
      effects := effects + [Write(pairs)];
    } else {
      ReplayReadOnly(old(storage.items), effects);
    }
  }

  method SignUp(storage: Storage, form: map<string, string>, reply: Reply<AuthBody>)
    returns (result: Result<Body<AuthBody>, Failure>, effects: seq<Effect>)
    modifies storage
    ensures Call(result, effects) == AuthExchange(old(storage.items), SignUpKind, form, reply)
    ensures storage.items == Replay(old(storage.items), effects)
  {
    result, effects := Authenticate(storage, SignUpKind, form, reply);
  }

  method SignIn(storage: Storage, form: map<string, string>, reply: Reply<AuthBody>)
    returns (result: Result<Body<AuthBody>, Failure>, effects: seq<Effect>)
    modifies storage
    ensures Call(result, effects) == AuthExchange(old(storage.items), SignInKind, form, reply)
    ensures storage.items == Replay(old(storage.items), effects)
  {
    result, effects := Authenticate(storage, SignInKind, form, reply);
  }

  // ---------------------------------------------------------------------------
  // Items

  /** The record `addItem` posts: the form's values with a one-entry price list
      for the chosen city and the stored vendor id. */
  function FormatItem(item: ItemData, vendorId: string): (f: FormattedItem)
    ensures Unformat(f) == Some((item, vendorId))
  {
    FormattedItem(item.name, item.description, [CityPrice(item.city, item.price)],
                  item.category, item.imageUrl, vendorId)
  }

  /** Reads the form values and the vendor back from a posted record; `None`
      unless its price list has exactly one entry. */
  function Unformat(f: FormattedItem): Option<(ItemData, string)> {
    if |f.prices| != 1 then None
    else Some((ItemData(f.category, f.prices[0].city, f.name, f.image, f.description, f.prices[0].price), f.vendor))
  }

  /** `addItem`: fails before any request without a usable stored vendor id; on a
      non-ok reply rejects with the reply's text or a default. */
  function AddItem(store: Store, item: ItemData, reply: Reply<Item>): (c: Call<Body<Item>>)
    ensures !Usable(Lookup(store, VendorIdKey)) ==> c == Call(Failure(Thrown(VendorIdMissingSignIn)), [])
    ensures Usable(Lookup(store, VendorIdKey)) ==>
              c.effects == [Send(AddItemRequest(FormatItem(item, store[VendorIdKey])))]
    ensures c.result.Success? <==>
              Usable(Lookup(store, VendorIdKey)) && reply.Reply? && Ok(reply.status) && reply.body.Some?
    ensures Usable(Lookup(store, VendorIdKey)) && reply.Reply? && !Ok(reply.status) ==>
              c.result == Failure(Thrown(if reply.text != "" then reply.text else AddItemFailed))
    ensures ReadOnly(c.effects)
  {
    var vendorId := Lookup(store, VendorIdKey);
    if !Usable(vendorId) then Call(Failure(Thrown(VendorIdMissingSignIn)), [])
    else
      var sent := [Send(AddItemRequest(FormatItem(item, vendorId.value)))];
      match reply
      case NoReply => Call(Failure(NetworkError), sent)
      case Reply(status, text, body) =>
        if !Ok(status) then Call(Failure(Thrown(if text != "" then text else AddItemFailed)), sent)
        else if body.None? then Call(Failure(ParseError), sent)
        else Call(Success(body.value), sent)
  }

  /** `fetchItems`: fails before any request without a usable stored vendor id. */
  function FetchItems(store: Store, reply: Reply<seq<Item>>): (c: Call<Body<seq<Item>>>)
    ensures !Usable(Lookup(store, VendorIdKey)) ==> c == Call(Failure(Thrown(VendorIdMissing)), [])
    ensures Usable(Lookup(store, VendorIdKey)) ==>
              c == Call(Decode(reply, ItemsFetchFailed), [Send(FetchItemsRequest(store[VendorIdKey]))])
    ensures ReadOnly(c.effects)
  {
    var vendorId := Lookup(store, VendorIdKey);
    if !Usable(vendorId) then Call(Failure(Thrown(VendorIdMissing)), [])
    else Call(Decode(reply, ItemsFetchFailed), [Send(FetchItemsRequest(vendorId.value))])
  }

  // ---------------------------------------------------------------------------
  // Profile

  /** `updateProfile`: fails before any request unless both a token and a vendor
      id are stored; the body is the profile with `vendorId` added. */
  function UpdateProfile(store: Store, profile: ProfilePayload, reply: Reply<()>): (c: Call<Body<()>>)
    ensures !(Usable(Lookup(store, TokenKey)) && Usable(Lookup(store, VendorIdKey))) ==>
              c == Call(Failure(Thrown(AuthenticationFailed)), [])
    ensures Usable(Lookup(store, TokenKey)) && Usable(Lookup(store, VendorIdKey)) ==>
              && |c.effects| == 1
              && c.effects[0].Send?
              && c.effects[0].request.UpdateProfileRequest?
              && c.effects[0].request.body == UpdateBody(profile, store[VendorIdKey])
              && BearerToken(c.effects[0].request.authorization) == Some(store[TokenKey])
              && c.result == Decode(reply, ProfileUpdateFailed)
    ensures BearerMatchesStore(store, c.effects) && ReadOnly(c.effects)
  {
    var token := Lookup(store, TokenKey);
    var vendorId := Lookup(store, VendorIdKey);
    if !Usable(token) || !Usable(vendorId) then Call(Failure(Thrown(AuthenticationFailed)), [])
    else
      Call(Decode(reply, ProfileUpdateFailed),
           [Send(UpdateProfileRequest(AuthHeader(token.value), UpdateBody(profile, vendorId.value)))])
  }

  /** The end of `getProfile`: reject a non-ok reply, otherwise decode it. */
  function ProfileReceived<B>(response: Reply<B>): (r: Result<Body<B>, Failure>)
    ensures r.Success? <==> response.Reply? && Ok(response.status) && response.body.Some?
    ensures r.Success? ==> r.value == response.body.value
    ensures response.Reply? && !Ok(response.status) ==> r == Failure(Thrown(ProfileFetchFailed))
    ensures response.Reply? && Ok(response.status) && response.body.None? ==> r == Failure(ParseError)
  {
    match response
    case NoReply => Failure(NetworkError)
    case Reply(status, _, body) =>
      if !Ok(status) then Failure(Thrown(ProfileFetchFailed))
      else if body.None? then Failure(ParseError)
      else Success(body.value)
  }

  /** `getProfile`'s steps as one function of the store and the three replies it
      may receive: the first profile request, the refresh request, the retry. */
  function ProfileFlow<B>(store: Store, first: Reply<B>, refresh: Reply<RefreshBody>, retry: Reply<B>)
    : (c: Call<Body<B>>)
    ensures !Usable(Lookup(store, TokenKey)) ==> c == Call(Failure(Thrown(NoTokenFound)), [])
    ensures Usable(Lookup(store, TokenKey)) ==>
              && (|c.effects| == 1 || |c.effects| == 2 || |c.effects| == 4)
              && c.effects[0] == Send(ProfileRequest(AuthHeader(store[TokenKey])))
    ensures |c.effects| > 1 ==> first.Reply? && first.status == Unauthorized
    ensures c.result.Success? ==> Usable(Lookup(store, TokenKey))
  {
    var token := Lookup(store, TokenKey);
    if !Usable(token) then Call(Failure(Thrown(NoTokenFound)), [])
    else
      var asked := [Send(ProfileRequest(AuthHeader(token.value)))];
      if !(first.Reply? && first.status == Unauthorized) then Call(ProfileReceived(first), asked)
      else
        var refreshToken := Lookup(store, RefreshTokenKey);
        if !Usable(refreshToken) then Call(Failure(Thrown(RefreshTokenMissing)), asked)
        else
          var refreshed := asked + [Send(RefreshRequest(refreshToken.value))];
          if refresh.NoReply? then Call(Failure(NetworkError), refreshed)
          else if !Ok(refresh.status) then Call(Failure(Thrown(TokenRefreshFailed)), refreshed)
          else if refresh.body.None? then Call(Failure(ParseError), refreshed)
          else
            var accessToken := refresh.body.value.data.accessToken;
            Call(ProfileReceived(retry),
                 refreshed + [Write([(TokenKey, accessToken)]), Send(ProfileRequest(AuthHeader(accessToken)))])
  }

  /** `getProfile`: never rejects; every failure resolves to `null` (`None`). */
  method GetProfile<B>(storage: Storage, first: Reply<B>, refresh: Reply<RefreshBody>, retry: Reply<B>)
    returns (profile: Option<Body<B>>, effects: seq<Effect>)
    modifies storage
    ensures var c := ProfileFlow(old(storage.items), first, refresh, retry);
            effects == c.effects && profile == (if c.result.Success? then Some(c.result.value) else None)
    ensures storage.items == Replay(old(storage.items), effects)
  {
    effects := [];
    var token := storage.GetItem(TokenKey);
    if !Usable(token) {
      return None, effects;
    }
    var response := first;
    effects := effects + [Send(ProfileRequest(AuthHeader(token.value)))];
    if response.Reply? && response.status == Unauthorized {
      var refreshToken := storage.GetItem(RefreshTokenKey);
      if !Usable(refreshToken) {
        ReplayReadOnly(old(storage.items), effects);
        return None, effects;
      }
      effects := effects + [Send(RefreshRequest(refreshToken.value))];
      if refresh.NoReply? || !Ok(refresh.status) || refresh.body.None? {
        ReplayReadOnly(old(storage.items), effects);
        return None, effects;
      }
      var accessToken := refresh.body.value.data.accessToken;
      storage.SetItem(TokenKey, accessToken);
      effects := effects + [Write([(TokenKey, accessToken)])];
      response := retry;
      effects := effects + [Send(ProfileRequest(AuthHeader(accessToken)))];
      ReplayTokenRefresh(old(storage.items), effects, accessToken);
    } else {
      ReplayReadOnly(old(storage.items), effects);
    }
    if response.NoReply? || !Ok(response.status) || response.body.None? {
      return None, effects;
    }
    profile := Some(response.body.value);
  }

  /** The store after the refresh path's four effects: only the token changed. */
  lemma ReplayTokenRefresh(store: Store, effects: seq<Effect>, accessToken: string)
    requires |effects| == 4 && effects[0].Send? && effects[1].Send? && effects[3].Send?
    requires effects[2] == Write([(TokenKey, accessToken)])
    ensures Replay(store, effects) == store[TokenKey := accessToken]
  {
    assert effects == effects[..2] + [effects[2]] + effects[3..];
    ReplayAppend(store, effects[..2] + [effects[2]], effects[3..]);
    ReplayAppend(store, effects[..2], [effects[2]]);
    ReplayReadOnly(store, effects[..2]);
    ReplayOneWrite(store, TokenKey, accessToken);
    ReplayReadOnly(store[TokenKey := accessToken], effects[3..]);
  }

  // ---------------------------------------------------------------------------
  // Image upload

  predicate EndsWith(s: string, suffix: string) {
    |s| >= |suffix| && s[|s| - |suffix|..] == suffix
  }

  /** The MIME type `uploadToCloudinary` declares: PNG exactly for a `.png` URI. */
  function MimeType(uri: string): (m: string)
    ensures m == PngType <==> EndsWith(uri, ".png")
    ensures m == PngType || m == JpegType
  {
    if EndsWith(uri, ".png") then PngType else JpegType
  }

  /** `s.split(sep)`. */
  function Split(s: string, sep: char): (parts: seq<string>)
    ensures |parts| >= 1
    ensures |parts| >= 2 <==> sep in s
    decreases |s|
  {
    if s == [] then [""]
    else
      var rest := Split(s[1..], sep);
      if s[0] == sep then [""] + rest else [[s[0]] + rest[0]] + rest[1..]
  }

  /** The upload's file name, `upload.` followed by the MIME subtype, or `None`
      where JavaScript would produce `upload.undefined`. */
  function UploadFileName(mimeType: string): (name: Option<string>)
    ensures name.Some? <==> '/' in mimeType
    ensures name.Some? ==> |name.value| >= |UploadPrefix| && name.value[..|UploadPrefix|] == UploadPrefix
  {
    var parts := Split(mimeType, '/');
    if |parts| < 2 then None else Some(UploadPrefix + parts[1])
  }

  lemma {:induction false} SplitWithoutSeparator(s: string, sep: char)
    requires sep !in s
    ensures Split(s, sep) == [s]
  {
    if s != [] {
      SplitWithoutSeparator(s[1..], sep);
      assert [s[0]] + s[1..] == s;
    }
  }

  lemma {:induction false} SplitAtFirstSeparator(a: string, sep: char, b: string)
    requires sep !in a
    ensures Split(a + [sep] + b, sep) == [a] + Split(b, sep)
  {
    var s := a + [sep] + b;
    if a == [] {
      assert s == [sep] + b && s[1..] == b;
    } else {
      assert s[0] == a[0] && s[1..] == a[1..] + [sep] + b;
      SplitAtFirstSeparator(a[1..], sep, b);
      assert [a[0]] + a[1..] == a;
    }
  }

  /** The file name of a `type/subtype` MIME type is `upload.` and the subtype. */
  lemma FileNameOfType(main: string, sub: string)
    requires '/' !in main && '/' !in sub
    ensures UploadFileName(main + "/" + sub) == Some("upload." + sub)
  {
    SplitAtFirstSeparator(main, '/', sub);
    SplitWithoutSeparator(sub, '/');
  }

  /** The two MIME types split at their `/`, and the file names they give. */
  lemma ImageTypeSpellings()
    ensures PngType == "image" + "/" + "png" && JpegType == "image" + "/" + "jpeg"
    ensures '/' !in "image" && '/' !in "png" && '/' !in "jpeg"
    ensures "upload." + "png" == "upload.png" && "upload." + "jpeg" == "upload.jpeg"
  {
  }

  /** The subtypes of the two MIME types the app uses are `png` and `jpeg`. */
  lemma PngName()
    ensures UploadFileName(PngType) == Some("upload.png")
  {
    ImageTypeSpellings();
    FileNameOfType("image", "png");
  }

  lemma JpegName()
    ensures UploadFileName(JpegType) == Some("upload.jpeg")
  {
    ImageTypeSpellings();
    FileNameOfType("image", "jpeg");
  }

  /** The file name for either of the two types the app chooses from. */
  lemma ImageFileName(mimeType: string)
    requires mimeType == PngType || mimeType == JpegType
    ensures UploadFileName(mimeType) == Some(if mimeType == PngType then "upload.png" else "upload.jpeg")
  {
    if mimeType == PngType { PngName(); } else { JpegName(); }
  }

  /** The name the uploaded file gets: its extension always names the declared type. */
  function UploadName(uri: string): (name: string)
    ensures name == if EndsWith(uri, ".png") then "upload.png" else "upload.jpeg"
  {
    ImageFileName(MimeType(uri));
    match UploadFileName(MimeType(uri))
    case Some(n) => n
    case None => "upload.undefined"
  }

  /** `uploadToCloudinary`: one multipart request; resolves with the hosted URL. */
  function UploadToCloudinary(uri: string, reply: Reply<UploadBody>): (c: Call<string>)
    ensures c.effects == [Send(UploadRequest(Upload(uri, MimeType(uri), UploadName(uri), UploadPreset, UploadFolder)))]
    ensures c.result.Success? <==> reply.Reply? && Ok(reply.status) && reply.body.Some?
    ensures c.result.Success? ==> c.result.value == reply.body.value.data.secureUrl
  {
    var sent := [Send(UploadRequest(Upload(uri, MimeType(uri), UploadName(uri), UploadPreset, UploadFolder)))];
    var decoded := Decode(reply, UploadFailed);
    if decoded.Failure? then Call(Failure(decoded.error), sent)
    else Call(Success(decoded.value.data.secureUrl), sent)
  }

  // ---------------------------------------------------------------------------
  // Bookings

  /** `fetchBookings`: fails before any request when no token is stored. */
  function FetchBookings(store: Store, reply: Reply<BookingsBody>): (c: Call<Body<BookingsBody>>)
    ensures !Usable(Lookup(store, TokenKey)) ==> c == Call(Failure(Thrown(AuthenticationFailed)), [])
    ensures Usable(Lookup(store, TokenKey)) ==>
              && c.result == Decode(reply, BookingsFetchFailed)
              && |c.effects| == 1 && c.effects[0].Send? && c.effects[0].request.FetchBookingsRequest?
    ensures BearerMatchesStore(store, c.effects) && ReadOnly(c.effects)
  {
    match GetAuthHeader(store)
    case Failure(e) => Call(Failure(e), [])
    case Success(header) => Call(Decode(reply, BookingsFetchFailed), [Send(FetchBookingsRequest(header))])
  }

  /** `confirmBooking`: fails before any request when no token is stored. */
  function ConfirmBooking(store: Store, bookingId: string, reply: Reply<Booking>): (c: Call<Body<Booking>>)
    ensures !Usable(Lookup(store, TokenKey)) ==> c == Call(Failure(Thrown(AuthenticationFailed)), [])
    ensures Usable(Lookup(store, TokenKey)) ==>
              && c.result == Decode(reply, BookingConfirmFailed)
              && |c.effects| == 1 && c.effects[0].Send?
              && c.effects[0].request.ConfirmBookingRequest? && c.effects[0].request.bookingId == bookingId
    ensures BearerMatchesStore(store, c.effects) && ReadOnly(c.effects)
  {
    match GetAuthHeader(store)
    case Failure(e) => Call(Failure(e), [])
    case Success(header) => Call(Decode(reply, BookingConfirmFailed), [Send(ConfirmBookingRequest(header, bookingId))])
  }
}
