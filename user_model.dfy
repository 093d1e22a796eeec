/** The user document (models/User.js): its shape, the schema's validators
    and defaults, the pre-save hook and the reset-token method, and the
    collection that holds the documents. */
module UserModel {
  import opened Common

  /** The `role` enum: "admin" or "user". */
  datatype Role = Admin | Regular

  function RoleName(r: Role): string {
    match r
    case Admin => "admin"
    case Regular => "user"
  }

  /** `subscription: { id: String, status: String }`, both optional. */
  datatype Subscription = Subscription(id: Option<string>, status: Option<string>)

  const NoSubscription := Subscription(None, None)

  /** The status the verification step writes and the middleware looks for. */
  const Active := "active"

  /** A playlist entry: the course's id and its poster url. */
  datatype PlaylistItem = PlaylistItem(course: CourseId, poster: string)

  datatype User = User(
    id: UserId,
    name: string,
    email: string,
    password: string,
    role: Role,
    subscription: Subscription,
    avatar: Media,
    playlist: seq<PlaylistItem>,
    createdAt: int,
    resetToken: Option<string>,
    resetExpire: Option<int>)

  const MinPasswordLength := 6

  /** How long a reset token stays valid: fifteen minutes, in milliseconds. */
  const ResetWindow := 15 * 60 * 1000

  /** The password rule: required, and `minlength` six. It applies to the
      password as supplied, before the pre-save hook hashes it, and counts
      UTF-16 code units. The length bound alone decides it: no string of
      six code units is empty. */
  function PasswordValid(p: string): (ok: bool)
    ensures ok <==> JsLength(p) >= MinPasswordLength
    ensures |p| >= MinPasswordLength ==> ok
  {
    p != "" && JsLength(p) >= MinPasswordLength
  }

  /** Three characters outside the Basic Multilingual Plane already make
      a valid password. */
  lemma ThreeAstralCharactersMakeAPassword()
    ensures PasswordValid("\U{1F511}\U{1F511}\U{1F511}")
  {
  }

  /** The schema's validators. A required string field refuses the empty
      string; `role` is an enum the datatype already enforces, and the
      subscription, playlist and reset fields carry no validator. */
  function UserValid(u: User): (ok: bool)
    ensures ok ==> JsLength(u.password) >= MinPasswordLength && u.name != "" && u.email != ""
    ensures ok ==> u.avatar.publicId != "" && u.avatar.url != ""
  {
    && u.name != ""
    && u.email != ""
    && PasswordValid(u.password)
    && u.avatar.publicId != "" && u.avatar.url != ""
  }

  /** The fields the handlers edit after creation (role, subscription,
      playlist and the reset pair) never make a document fail or pass the
      validators, so saving after such an edit cannot be refused. */
  lemma ValidityIgnoresEditedFields(u: User, role: Role, s: Subscription, playlist: seq<PlaylistItem>,
                                    token: Option<string>, expire: Option<int>)
    ensures UserValid(u.(role := role, subscription := s, playlist := playlist,
                         resetToken := token, resetExpire := expire)) == UserValid(u)
  {
  }

  /** A document as `User.create` builds it: what the caller supplies plus
      the schema defaults for everything else. */
  function NewUser(id: UserId, name: string, email: string, password: string, avatar: Media, now: int): (u: User)
    ensures u.role == Regular
    ensures u.subscription == NoSubscription && u.playlist == []
    ensures u.resetToken == None && u.resetExpire == None
  {
    User(id, name, email, password, Regular, NoSubscription, avatar, [], now, None, None)
  }

  /** The pre-save hook: the password is replaced by its bcrypt digest when,
      and only when, it was modified since the document was loaded. */
  function PreSave(u: User, passwordModified: bool, bcrypt: string -> string): (r: User)
    ensures passwordModified ==> r.password == bcrypt(u.password)
    ensures !passwordModified ==> r == u
    ensures r.(password := u.password) == u
  {
    if passwordModified then u.(password := bcrypt(u.password)) else u
  }

  /** `getResetToken`: stores the SHA-256 of the raw token and an expiry
      fifteen minutes from now, and hands back the raw token. `raw` is what
      `randomBytes(20)` produced, as hex. */
  function GetResetToken(u: User, raw: string, sha256: string -> string, now: int): (r: (User, string))
    ensures r.1 == raw
    ensures r.0.resetToken == Some(sha256(raw))
    ensures r.0.resetExpire == Some(now + ResetWindow)
    ensures r.0.(resetToken := u.resetToken, resetExpire := u.resetExpire) == u
  {
    (u.(resetToken := Some(sha256(raw)), resetExpire := Some(now + ResetWindow)), raw)
  }

  /** The query `resetPassword` runs: the stored digest matches and the
      expiry is strictly later than now. */
  function ResetRequestMatches(u: User, digest: string, now: int): (m: bool)
    ensures m ==> u.resetToken == Some(digest)
    ensures m <==> u.resetToken == Some(digest) && match u.resetExpire
                                                  case None => false
                                                  case Some(t) => now < t
  {
    u.resetToken == Some(digest) && u.resetExpire.Some? && u.resetExpire.value > now
  }

  /** A token issued at time `issued` is accepted by the reset query exactly
      while less than fifteen minutes have passed. */
  lemma ResetTokenLifetime(u: User, raw: string, sha256: string -> string, issued: int, now: int)
    ensures ResetRequestMatches(GetResetToken(u, raw, sha256, issued).0, sha256(raw), now)
            <==> now < issued + ResetWindow
  {
  }

  function WithId(id: UserId): User -> bool {
    (u: User) => u.id == id
  }

  function WithEmail(email: string): User -> bool {
    (u: User) => u.email == email
  }

  predicate ActiveSubscriber(u: User) {
    u.subscription.status == Some(Active)
  }

  /** No two documents share an email (the schema's `unique: true`). */
  predicate EmailsUnique(docs: seq<User>) {
    forall j, k :: 0 <= j < k < |docs| ==> docs[j].email != docs[k].email
  }

  /** The users collection. */
  class UserCollection {
    var docs: seq<User>

    constructor ()
      ensures docs == []
    {
      docs := [];
    }
  }
}
