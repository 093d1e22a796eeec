/** The user handlers of controllers/userController.js that check input or
    edit a user document: registration, login, the password-reset pair, the
    playlist, the role toggle, and the recomputation of the latest Stats row
    whenever the users collection changes. */
module UserController {
  import opened Common
  import opened Seqs
  import opened UserModel
  import opened CourseModel
  import opened Stats

  const FillAllFields := "Please fill all the fields"
  const UserExists := "User already exists"
  const IncorrectCredentials := "Incorrect Email or Password"
  const UnknownEmail := "User not found with this email"
  const InvalidResetToken := "Invalid Reset Password Token or token is expired "
  const UnknownCourse := "Invalid Course Id || Course not found"
  const AlreadyInPlaylist := "Course already in playlist"
  const NotInPlaylist := "Course not in playlist"
  const UnknownUser := "User not found"

  /** `register`. Every field and the avatar file are required; an email
      already taken is refused with 409; then the avatar is uploaded and the
      document created, its password hashed by the pre-save hook. */
  method Register(users: UserCollection, name: string, email: string, password: string, hasFile: bool,
                  upload: Option<Media>, newId: UserId, bcrypt: string -> string, now: int)
    returns (r: Result<UserId>)
    modifies users
    ensures name == "" || email == "" || password == "" || !hasFile ==>
              r == Err(HttpError(400, FillAllFields)) && users.docs == old(users.docs)
    ensures name != "" && email != "" && password != "" && hasFile
            && First(old(users.docs), WithEmail(email)).Some? ==>
              r == Err(HttpError(409, UserExists)) && users.docs == old(users.docs)
    ensures name != "" && email != "" && password != "" && hasFile
            && First(old(users.docs), WithEmail(email)).None? ==>
              match upload
              case None => r == Err(ServiceFailed) && users.docs == old(users.docs)
              case Some(avatar) =>
                var u := NewUser(newId, name, email, password, avatar, now);
                if UserValid(u) then
                  r == Ok(newId) && users.docs == old(users.docs) + [PreSave(u, true, bcrypt)]
                else
                  r == Err(ValidationFailed) && users.docs == old(users.docs)
    ensures EmailsUnique(old(users.docs)) ==> EmailsUnique(users.docs)
  {
    if name == "" || email == "" || password == "" || !hasFile {
      return Err(HttpError(400, FillAllFields));
    }
    var existing := First(users.docs, WithEmail(email));
    if existing.Some? {
      return Err(HttpError(409, UserExists));
    }
    if upload.None? {
      return Err(ServiceFailed);
    }
    var user := NewUser(newId, name, email, password, upload.value, now);
    if !UserValid(user) {
      return Err(ValidationFailed);
    }
    users.docs := users.docs + [PreSave(user, true, bcrypt)];
    r := Ok(newId);
  }

  /** `login`. Both fields are required. An unknown email and a wrong
      password get the same 401 answer; `compare` is bcrypt's comparison of
      a plain password with a stored digest. */
  function Login(docs: seq<User>, email: string, password: string, compare: (string, string) -> bool)
    : (r: Result<User>)
    ensures email == "" || password == "" ==> r == Err(HttpError(400, FillAllFields))
    ensures email != "" && password != "" ==>
              (r.Err? <==> (First(docs, WithEmail(email)).None?
                           || !compare(password, docs[First(docs, WithEmail(email)).value].password)))
    ensures email != "" && password != "" && r.Err? ==> r.failure == HttpError(401, IncorrectCredentials)
    ensures r.Ok? ==> r.value in docs && r.value.email == email && compare(password, r.value.password)
  {
    if email == "" || password == "" then Err(HttpError(400, FillAllFields))
    else match First(docs, WithEmail(email))
      case None => Err(HttpError(401, IncorrectCredentials))
      case Some(i) =>
        if !compare(password, docs[i].password) then Err(HttpError(401, IncorrectCredentials))
        else Ok(docs[i])
  }

  const ResetSubject := "Learnify Reset Password "
  const ResetIntro := "Click on the link below to reset your password "
  const ResetOutro := ". If you have not requested this email, then ignore it."

  /** The link the reset email carries: the frontend's reset page for the
      raw token. */
  function ResetLink(frontendUrl: string, raw: string): string {
    frontendUrl + "/resetpassword/" + raw
  }

  /** The reset email: to the user's address, with the fixed subject, and
      a text that carries the reset link right after the fixed opening
      sentence. */
  function ResetMail(to: string, frontendUrl: string, raw: string): (m: Email)
    ensures m.to == to && m.subject == ResetSubject
    ensures |m.text| == |ResetIntro| + |ResetLink(frontendUrl, raw)| + |ResetOutro|
    ensures m.text[..|ResetIntro|] == ResetIntro
    ensures m.text[|ResetIntro|..|ResetIntro| + |ResetLink(frontendUrl, raw)|] == ResetLink(frontendUrl, raw)
    ensures m.text[|ResetIntro| + |ResetLink(frontendUrl, raw)|..] == ResetOutro
  {
    var link := ResetLink(frontendUrl, raw);
    var text := ResetIntro + link + ResetOutro;
    assert text[..|ResetIntro|] == ResetIntro;
    assert text[|ResetIntro|..|ResetIntro| + |link|] == link;
    assert text[|ResetIntro| + |link|..] == ResetOutro;
    Email(to, ResetSubject, text)
  }

  /** `forgetPassword`. An unknown email is refused with 400. Otherwise a
      reset token is issued and saved, and then the email carrying the raw
      token's link goes to the user's address. The token is saved before
      the email is sent, so when sending fails it stays stored. */
  method ForgetPassword(users: UserCollection, email: string, raw: string, sha256: string -> string,
                        frontendUrl: string, mailSent: bool, now: int)
    returns (r: Result<Email>)
    modifies users
    ensures First(old(users.docs), WithEmail(email)).None? ==>
              r == Err(HttpError(400, UnknownEmail)) && users.docs == old(users.docs)
    ensures var i := First(old(users.docs), WithEmail(email));
            i.Some? ==>
              && users.docs == old(users.docs)[i.value := GetResetToken(old(users.docs)[i.value], raw, sha256, now).0]
              && (mailSent ==> r == Ok(ResetMail(old(users.docs)[i.value].email, frontendUrl, raw)))
              && (!mailSent ==> r == Err(ServiceFailed))
  {
    var found := First(users.docs, WithEmail(email));
    if found.None? {
      return Err(HttpError(400, UnknownEmail));
    }
    var i := found.value;
    var (user, resetToken) := GetResetToken(users.docs[i], raw, sha256, now);
    users.docs := users.docs[i := user];  // user.save(); PreSave leaves the unmodified password
    if !mailSent {
      return Err(ServiceFailed);
    }
    r := Ok(ResetMail(user.email, frontendUrl, resetToken));
  }

  function ResetMatch(digest: string, now: int): User -> bool {
    (u: User) => ResetRequestMatches(u, digest, now)
  }

  /** The document after a successful reset, before the pre-save hook: the
      new password, and both token fields cleared. */
  function AfterReset(u: User, password: string): (v: User)
    ensures v.password == password && v.resetToken == None && v.resetExpire == None
    ensures v.(password := u.password, resetToken := u.resetToken, resetExpire := u.resetExpire) == u
  {
    u.(password := password, resetToken := None, resetExpire := None)
  }

  /** `resetPassword`. The user is the first whose stored digest is the
      SHA-256 of the token in the link and whose expiry is later than now;
      there being none is a 400. The new password must pass the password
      rule; it is hashed on save and both token fields are cleared. */
  method ResetPassword(users: UserCollection, token: string, password: string,
                       sha256: string -> string, bcrypt: string -> string, now: int)
    returns (r: Result<string>)
    modifies users
    ensures First(old(users.docs), ResetMatch(sha256(token), now)).None? ==>
              r == Err(HttpError(400, InvalidResetToken)) && users.docs == old(users.docs)
    ensures First(old(users.docs), ResetMatch(sha256(token), now)).Some? && !PasswordValid(password) ==>
              r == Err(ValidationFailed) && users.docs == old(users.docs)
    ensures var i := First(old(users.docs), ResetMatch(sha256(token), now));
            i.Some? && PasswordValid(password) ==>
              && r == Ok(token)
              && users.docs == old(users.docs)[i.value := PreSave(AfterReset(old(users.docs)[i.value], password), true, bcrypt)]
  {
    var resetPasswordToken := sha256(token);
    var found := First(users.docs, ResetMatch(resetPasswordToken, now));
    if found.None? {
      return Err(HttpError(400, InvalidResetToken));
    }
    var i := found.value;
    var user := AfterReset(users.docs[i], password);
    if !PasswordValid(user.password) {
      return Err(ValidationFailed);
    }
    users.docs := users.docs[i := PreSave(user, true, bcrypt)];
    r := Ok(token);
  }

  /** A reset link works once: after a successful reset the same token
      matches no document any more, whoever it matched before. */
  lemma {:induction false} ResetTokenIsSingleUse(docs: seq<User>, i: nat, digest: string, password: string,
                                                 bcrypt: string -> string, now: int)
    requires First(docs, ResetMatch(digest, now)) == Some(i)
    requires forall j :: 0 <= j < |docs| && j != i ==> docs[j].resetToken != Some(digest)
    ensures First(docs[i := PreSave(AfterReset(docs[i], password), true, bcrypt)], ResetMatch(digest, now)).None?
  {
    var after := docs[i := PreSave(AfterReset(docs[i], password), true, bcrypt)];
    forall k | 0 <= k < |after|
      ensures !ResetMatch(digest, now)(after[k])
    {
      if k == i {
        assert after[k].resetToken == None;
      } else {
        assert after[k] == docs[k];
      }
    }
  }

  function OnCourse(cid: CourseId): PlaylistItem -> bool {
    (p: PlaylistItem) => p.course == cid
  }

  function OffCourse(cid: CourseId): PlaylistItem -> bool {
    (p: PlaylistItem) => p.course != cid
  }

  /** No course appears twice in the playlist. */
  predicate CoursesDistinct(playlist: seq<PlaylistItem>) {
    forall j, k :: 0 <= j < k < |playlist| ==> playlist[j].course != playlist[k].course
  }

  /** `addToPlaylist`. A malformed course id makes the lookup throw, an
      unknown course is a 404 and a course already in the playlist a 409,
      all leaving the user as it was; otherwise one entry with the course
      id and its poster url goes at the end. */
  method AddToPlaylist(users: UserCollection, courses: CourseCollection, uid: UserId, cid: CourseId,
                       isObjectId: string -> bool)
    returns (r: Result<()>)
    requires First(users.docs, WithId(uid)).Some?
    modifies users
    ensures CastFails(cid, isObjectId) ==> r == Err(Thrown(CastToObjectId)) && users.docs == old(users.docs)
    ensures !CastFails(cid, isObjectId) && First(courses.docs, WithCourseId(cid)).None? ==>
              r == Err(HttpError(404, UnknownCourse)) && users.docs == old(users.docs)
    ensures var i := First(old(users.docs), WithId(uid)).value;
            !CastFails(cid, isObjectId) && First(courses.docs, WithCourseId(cid)).Some?
            && First(old(users.docs)[i].playlist, OnCourse(cid)).Some? ==>
              r == Err(HttpError(409, AlreadyInPlaylist)) && users.docs == old(users.docs)
    ensures var i := First(old(users.docs), WithId(uid)).value;
            var u := old(users.docs)[i];
            var c := First(courses.docs, WithCourseId(cid));
            !CastFails(cid, isObjectId) && c.Some? && First(u.playlist, OnCourse(cid)).None? ==>
              && r == Ok(())
              && users.docs == old(users.docs)[i := u.(playlist := u.playlist + [PlaylistItem(cid, courses.docs[c.value].poster.url)])]
  {
    var i := First(users.docs, WithId(uid)).value;
    var user := users.docs[i];
    if CastFails(cid, isObjectId) {
      return Err(Thrown(CastToObjectId));
    }
    var found := First(courses.docs, WithCourseId(cid));
    if found.None? {
      return Err(HttpError(404, UnknownCourse));
    }
    var course := courses.docs[found.value];
    var itemExist := First(user.playlist, OnCourse(course.id));
    if itemExist.Some? {
      return Err(HttpError(409, AlreadyInPlaylist));
    }
    user := user.(playlist := user.playlist + [PlaylistItem(course.id, course.poster.url)]);
    users.docs := users.docs[i := user];  // user.save()
    r := Ok(());
  }

  /** `removeFromPlaylist`. A malformed course id makes the lookup throw;
      an unknown course and a course not in the playlist are both 404s. All
      three leave the user as it was; otherwise every entry for the course
      is dropped and the others keep their order. */
  method RemoveFromPlaylist(users: UserCollection, courses: CourseCollection, uid: UserId, cid: CourseId,
                            isObjectId: string -> bool)
    returns (r: Result<()>)
    requires First(users.docs, WithId(uid)).Some?
    modifies users
    ensures CastFails(cid, isObjectId) ==> r == Err(Thrown(CastToObjectId)) && users.docs == old(users.docs)
    ensures !CastFails(cid, isObjectId) && First(courses.docs, WithCourseId(cid)).None? ==>
              r == Err(HttpError(404, UnknownCourse)) && users.docs == old(users.docs)
    ensures var i := First(old(users.docs), WithId(uid)).value;
            !CastFails(cid, isObjectId) && First(courses.docs, WithCourseId(cid)).Some?
            && First(old(users.docs)[i].playlist, OnCourse(cid)).None? ==>
              r == Err(HttpError(404, NotInPlaylist)) && users.docs == old(users.docs)
    ensures var i := First(old(users.docs), WithId(uid)).value;
            var u := old(users.docs)[i];
            !CastFails(cid, isObjectId) && First(courses.docs, WithCourseId(cid)).Some?
            && First(u.playlist, OnCourse(cid)).Some? ==>
              && r == Ok(())
              && users.docs == old(users.docs)[i := u.(playlist := Filter(u.playlist, OffCourse(cid)))]
  {
    var i := First(users.docs, WithId(uid)).value;
    var user := users.docs[i];
    if CastFails(cid, isObjectId) {
      return Err(Thrown(CastToObjectId));
    }
    var found := First(courses.docs, WithCourseId(cid));
    if found.None? {
      return Err(HttpError(404, UnknownCourse));
    }
    var course := courses.docs[found.value];
    var itemExist := First(user.playlist, OnCourse(course.id));
    if itemExist.None? {
      return Err(HttpError(404, NotInPlaylist));
    }
    var newPlaylist := Filter(user.playlist, OffCourse(course.id));
    user := user.(playlist := newPlaylist);
    users.docs := users.docs[i := user];  // user.save()
    r := Ok(());
  }

  /** Adding a course that is not in the playlist and then removing it
      gives back the original playlist. */
  lemma AddThenRemoveRestores(playlist: seq<PlaylistItem>, cid: CourseId, poster: string)
    requires First(playlist, OnCourse(cid)).None?
    ensures Filter(playlist + [PlaylistItem(cid, poster)], OffCourse(cid)) == playlist
  {
    FilterAppend(playlist, [PlaylistItem(cid, poster)], OffCourse(cid));
    FilterKeepsAll(playlist, OffCourse(cid));
  }

  /** The add handler's duplicate check keeps a playlist free of repeated
      courses. */
  lemma AddKeepsCoursesDistinct(playlist: seq<PlaylistItem>, cid: CourseId, poster: string)
    requires CoursesDistinct(playlist)
    requires First(playlist, OnCourse(cid)).None?
    ensures CoursesDistinct(playlist + [PlaylistItem(cid, poster)])
  {
    var after := playlist + [PlaylistItem(cid, poster)];
    forall j, k | 0 <= j < k < |after|
      ensures after[j].course != after[k].course
    {
      if k == |playlist| {
        assert !OnCourse(cid)(playlist[j]);
      }
    }
  }

  /** After removal no entry for the course is left, and every entry for
      another course is still there. */
  lemma RemoveDropsExactlyThatCourse(playlist: seq<PlaylistItem>, cid: CourseId)
    ensures First(Filter(playlist, OffCourse(cid)), OnCourse(cid)).None?
    ensures forall k :: 0 <= k < |playlist| && playlist[k].course != cid ==>
              playlist[k] in Filter(playlist, OffCourse(cid))
  {
    var kept := Filter(playlist, OffCourse(cid));
    forall k | 0 <= k < |kept|
      ensures !OnCourse(cid)(kept[k])
    {
      assert OffCourse(cid)(kept[k]);
    }
    forall k | 0 <= k < |playlist| && playlist[k].course != cid
      ensures playlist[k] in kept
    {
      assert OffCourse(cid)(playlist[k]);
    }
  }

  /** The role toggle of `updateUserRole`: "user" becomes "admin" and
      anything else becomes "user". */
  function ToggledRole(role: Role): (t: Role)
    ensures t != role
  {
    if role == Regular then Admin else Regular
  }

  /** Toggling twice gives back the role. */
  lemma ToggleTwiceRestores(role: Role)
    ensures ToggledRole(ToggledRole(role)) == role
  {
  }

  /** `updateUserRole`. A malformed id makes the lookup throw and an
      unknown one is a 404; otherwise the role flips. */
  method UpdateUserRole(users: UserCollection, id: UserId, isObjectId: string -> bool) returns (r: Result<()>)
    modifies users
    ensures CastFails(id, isObjectId) ==> r == Err(Thrown(CastToObjectId)) && users.docs == old(users.docs)
    ensures !CastFails(id, isObjectId) && First(old(users.docs), WithId(id)).None? ==>
              r == Err(HttpError(404, UnknownUser)) && users.docs == old(users.docs)
    ensures var i := First(old(users.docs), WithId(id));
            !CastFails(id, isObjectId) && i.Some? ==>
              && r == Ok(())
              && users.docs == old(users.docs)[i.value := old(users.docs)[i.value].(role := ToggledRole(old(users.docs)[i.value].role))]
  {
    if CastFails(id, isObjectId) {
      return Err(Thrown(CastToObjectId));
    }
    var found := First(users.docs, WithId(id));
    if found.None? {
      return Err(HttpError(404, UnknownUser));
    }
    var user := users.docs[found.value];
    if user.role == Regular {
      user := user.(role := Admin);
    } else {
      user := user.(role := Regular);
    }
    users.docs := users.docs[found.value := user];  // user.save()
    r := Ok(());
  }

  /** How many users hold an active subscription. */
  function ActiveCount(docs: seq<User>): (n: nat)
    ensures n <= |docs|
  {
    |Filter(docs, ActiveSubscriber)|
  }

  /** Activating one inactive subscriber raises the active count by one. */
  lemma {:induction false} ActivationAddsOne(docs: seq<User>, i: nat, v: User)
    requires i < |docs| && !ActiveSubscriber(docs[i]) && ActiveSubscriber(v)
    ensures ActiveCount(docs[i := v]) == ActiveCount(docs) + 1
  {
    if i > 0 {
      ActivationAddsOne(docs[1..], i - 1, v);
      assert docs[i := v][1..] == docs[1..][i - 1 := v];
    } else {
      assert docs[i := v][1..] == docs[1..];
    }
  }

  /** Clearing one active subscription lowers the active count by one. */
  lemma {:induction false} CancellationRemovesOne(docs: seq<User>, i: nat, v: User)
    requires i < |docs| && ActiveSubscriber(docs[i]) && !ActiveSubscriber(v)
    ensures ActiveCount(docs[i := v]) + 1 == ActiveCount(docs)
  {
    if i > 0 {
      CancellationRemovesOne(docs[1..], i - 1, v);
      assert docs[i := v][1..] == docs[1..][i - 1 := v];
    } else {
      assert docs[i := v][1..] == docs[1..];
    }
  }

  /** The `User.watch` change handler: the latest Stats row takes the user
      count and the number of active subscribers, stamped now. Without any
      Stats row the handler throws and nothing changes. */
  method OnUserChange(stats: StatsCollection, users: UserCollection, now: int) returns (r: Result<()>)
    modifies stats
    ensures |old(stats.rows)| == 0 ==> r.Err? && r.failure.Thrown? && stats.rows == old(stats.rows)
    ensures |old(stats.rows)| > 0 ==>
              && r == Ok(())
              && stats.rows == WithUserCounts(old(stats.rows), |users.docs|, ActiveCount(users.docs), now)
  {
    if |stats.rows| == 0 {
      return Err(Thrown("Cannot set properties of undefined (setting 'users')"));
    }
    var subscription := Filter(users.docs, ActiveSubscriber);
    var latest := |stats.rows| - 1;
    var row := stats.rows[latest];
    row := row.(users := |users.docs|);
    row := row.(subscription := |subscription|);
    row := row.(createdAt := Some(now));
    stats.rows := stats.rows[latest := row];  // stats[0].save()
    r := Ok(());
  }
}
