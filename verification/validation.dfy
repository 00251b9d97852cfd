/**
 * back/src/utils/validation.ts: public sign-up checks, the simple-id pattern and the value/type tag check.
 * Strings are sequences of code points; JavaScript measures UTF-16 code units.
 */
module Validation {
  import opened Wrappers
  import opened JsonValue

  // ---- String.prototype.trim ----

  /** The characters `trim` removes: ECMAScript white space and line terminators. */
  predicate IsJsSpace(c: char) {
    c == '\t' || c == '\n' || c == '\U{000B}' || c == '\U{000C}' || c == '\r' || c == ' ' ||
    c == '\U{00A0}' || c == '\U{1680}' || ('\U{2000}' <= c <= '\U{200A}') ||
    c == '\U{2028}' || c == '\U{2029}' || c == '\U{202F}' || c == '\U{205F}' || c == '\U{3000}' || c == '\U{FEFF}'
  }

  /** Drops leading white space: the result is a suffix whose first character (if any) is not white space. */
  function TrimStart(s: string): (r: string)
    ensures |r| <= |s| && r == s[|s| - |r|..]
    ensures forall k :: 0 <= k < |s| - |r| ==> IsJsSpace(s[k])
    ensures r == [] || !IsJsSpace(r[0])
  {
    if s != [] && IsJsSpace(s[0]) then
      var r := TrimStart(s[1..]);
      assert forall k :: 1 <= k < |s| - |r| ==> s[k] == s[1..][k - 1];
      r
    else s
  }

  /** Drops trailing white space: the result is a prefix whose last character (if any) is not white space. */
  function TrimEnd(s: string): (r: string)
    ensures |r| <= |s| && r == s[..|r|]
    ensures forall k :: |r| <= k < |s| ==> IsJsSpace(s[k])
    ensures r == [] || !IsJsSpace(r[|r| - 1])
  {
    if s != [] && IsJsSpace(s[|s| - 1]) then
      var r := TrimEnd(s[..|s| - 1]);
      assert forall k :: |r| <= k < |s| - 1 ==> s[k] == s[..|s| - 1][k];
      r
    else s
  }

  /**
   * `s.trim()`: leading white space dropped (the result of `TrimStart` is a suffix of `s` after white space
   * only), then trailing white space (the result of `TrimEnd` is a prefix before white space only).
   */
  function Trim(s: string): (r: string)
    ensures |r| <= |s|
    ensures r == [] || (!IsJsSpace(r[0]) && !IsJsSpace(r[|r| - 1]))
  {
    var t := TrimStart(s);
    var r := TrimEnd(t);
    assert r != [] ==> r[0] == t[0];
    r
  }

  /** White space removed, nothing more to remove: trimming is idempotent. */
  lemma TrimIdempotent(s: string)
    ensures Trim(Trim(s)) == Trim(s)
  {
    var r := Trim(s);
    if r != [] {
      assert TrimStart(r) == r;
      assert TrimEnd(r) == r;
    }
  }

  // ---- validatePublicSignup ----

  /** `Partial<ConfigFile['user']>`: the bounds a caller may pass. */
  datatype UserOptions = UserOptions(
    minUsernameLength: Option<int>,
    maxUsernameLength: Option<int>,
    minPassLength: Option<int>,
    maxPassLength: Option<int>)

  /** The numbers `getConfig` finds under `user` in the configuration file, `None` where it finds none. */
  type UserConfig = UserOptions

  datatype SignupError =
    | UsernameTaken(username: string)
    | UsernameTooShort(min: int)
    | UsernameTooLong(max: int)
    | PassTooShort(min: int)
    | PassTooLong(max: int)

  /** `options?.x || getConfig('user.x', default)`: a missing or zero option falls back to the configured value, then the default. */
  function Bound(option: Option<int>, configured: Option<int>, default: int): (r: int)
    ensures option.Some? && option.value != 0 ==> r == option.value
    ensures (option.None? || option.value == 0) && configured.Some? ==> r == configured.value
    ensures (option.None? || option.value == 0) && configured.None? ==> r == default
  {
    if option.Some? && option.value != 0 then option.value else configured.GetOr(default)
  }

  function NoOptions(): UserOptions {
    UserOptions(None, None, None, None)
  }

  function MinUser(options: Option<UserOptions>, cfg: UserConfig): int {
    Bound(options.GetOr(NoOptions()).minUsernameLength, cfg.minUsernameLength, 2)
  }
  function MaxUser(options: Option<UserOptions>, cfg: UserConfig): int {
    Bound(options.GetOr(NoOptions()).maxUsernameLength, cfg.maxUsernameLength, 32)
  }
  function MinPass(options: Option<UserOptions>, cfg: UserConfig): int {
    Bound(options.GetOr(NoOptions()).minPassLength, cfg.minPassLength, 8)
  }
  function MaxPass(options: Option<UserOptions>, cfg: UserConfig): int {
    Bound(options.GetOr(NoOptions()).maxPassLength, cfg.maxPassLength, 128)
  }

  /** `validatePublicSignup(body, foundUser, options)`; `None` is the source's `null` (valid). */
  function ValidatePublicSignup(username: string, pass: string, userFound: bool, options: Option<UserOptions>, cfg: UserConfig): Option<SignupError> {
    CheckTrimmed(Trim(username), Trim(pass), userFound, options, cfg)
  }

  /**
   * The verdict on the trimmed username `u` and password `p`: valid exactly when the name is free and both
   * trimmed lengths lie within their bounds; a taken name is reported first, with the trimmed name.
   */
  lemma SignupVerdict(username: string, pass: string, userFound: bool, options: Option<UserOptions>, cfg: UserConfig, u: string, p: string)
    requires u == Trim(username) && p == Trim(pass)
    ensures ValidatePublicSignup(username, pass, userFound, options, cfg).None? <==>
      && !userFound
      && MinUser(options, cfg) <= |u| <= MaxUser(options, cfg)
      && MinPass(options, cfg) <= |p| <= MaxPass(options, cfg)
    ensures userFound ==> ValidatePublicSignup(username, pass, userFound, options, cfg) == Some(UsernameTaken(u))
  {
    var r := ValidatePublicSignup(username, pass, userFound, options, cfg);
    assert r == CheckTrimmed(u, p, userFound, options, cfg);
    CheckTrimmedVerdict(u, p, userFound, options, cfg, r);
  }

  /** The verdict of the ordered checks, stated for a result `r` known to be theirs. */
  lemma CheckTrimmedVerdict(u: string, p: string, userFound: bool, options: Option<UserOptions>, cfg: UserConfig, r: Option<SignupError>)
    requires r == CheckTrimmed(u, p, userFound, options, cfg)
    ensures r.None? <==>
      && !userFound
      && MinUser(options, cfg) <= |u| <= MaxUser(options, cfg)
      && MinPass(options, cfg) <= |p| <= MaxPass(options, cfg)
    ensures userFound ==> r == Some(UsernameTaken(u))
  {
  }

  /**
   * The ordered checks on the trimmed username `u` and password `p`: each error, carrying its bound, is
   * reported exactly when every earlier check passed and its own bound is broken.
   */
  function CheckTrimmed(u: string, p: string, userFound: bool, options: Option<UserOptions>, cfg: UserConfig): (r: Option<SignupError>)
    ensures r.None? <==> !userFound && MinUser(options, cfg) <= |u| <= MaxUser(options, cfg) && MinPass(options, cfg) <= |p| <= MaxPass(options, cfg)
    ensures r == Some(UsernameTaken(u)) <==> userFound
    ensures r == Some(UsernameTooShort(MinUser(options, cfg))) <==> !userFound && |u| < MinUser(options, cfg)
    ensures r == Some(UsernameTooLong(MaxUser(options, cfg))) <==>
      !userFound && MinUser(options, cfg) <= |u| && |u| > MaxUser(options, cfg)
    ensures r == Some(PassTooShort(MinPass(options, cfg))) <==>
      !userFound && MinUser(options, cfg) <= |u| <= MaxUser(options, cfg) && |p| < MinPass(options, cfg)
    ensures r == Some(PassTooLong(MaxPass(options, cfg))) <==>
      !userFound && MinUser(options, cfg) <= |u| <= MaxUser(options, cfg) && MinPass(options, cfg) <= |p| && |p| > MaxPass(options, cfg)
  {
    if userFound then Some(UsernameTaken(u))
    else if |u| < MinUser(options, cfg) then Some(UsernameTooShort(MinUser(options, cfg)))
    else if |u| > MaxUser(options, cfg) then Some(UsernameTooLong(MaxUser(options, cfg)))
    else if |p| < MinPass(options, cfg) then Some(PassTooShort(MinPass(options, cfg)))
    else if |p| > MaxPass(options, cfg) then Some(PassTooLong(MaxPass(options, cfg)))
    else None
  }

  /** A password error is only reported for a free username of acceptable length. */
  lemma PasswordCheckedAfterUsername(username: string, pass: string, userFound: bool, options: Option<UserOptions>, cfg: UserConfig)
    requires var e := ValidatePublicSignup(username, pass, userFound, options, cfg); e.Some? && (e.value.PassTooShort? || e.value.PassTooLong?)
    ensures !userFound && MinUser(options, cfg) <= |Trim(username)| <= MaxUser(options, cfg)
    ensures ValidatePublicSignup(username, pass, userFound, options, cfg).value.PassTooLong? ==> MinPass(options, cfg) <= |Trim(pass)|
  {
  }

  /** Only trimmed lengths matter: surrounding white space never changes the verdict. */
  lemma SignupIgnoresSurroundingSpace(username: string, pass: string, userFound: bool, options: Option<UserOptions>, cfg: UserConfig)
    ensures ValidatePublicSignup(Trim(username), Trim(pass), userFound, options, cfg) == ValidatePublicSignup(username, pass, userFound, options, cfg)
  {
    TrimIdempotent(username);
    TrimIdempotent(pass);
  }

  /** With no options and nothing configured the bounds are 2 / 32 / 8 / 128. */
  lemma DefaultBounds(options: Option<UserOptions>)
    requires options.None? || options == Some(UserOptions(Some(0), Some(0), Some(0), Some(0)))
    ensures MinUser(options, NoOptions()) == 2 && MaxUser(options, NoOptions()) == 32
    ensures MinPass(options, NoOptions()) == 8 && MaxPass(options, NoOptions()) == 128
  {
  }

  // ---- validateSimpleId ----

  /** The regex line terminators (`^` and `$` match next to them under the `m` flag). */
  predicate IsLineTerminator(c: char) {
    c == '\n' || c == '\r' || c == '\U{2028}' || c == '\U{2029}'
  }

  /** `[a-zA-Z0-9-_]` */
  predicate IsSimpleIdChar(c: char) {
    ('a' <= c <= 'z') || ('A' <= c <= 'Z') || ('0' <= c <= '9') || c == '-' || c == '_'
  }

  /** `s[i..j]` is a whole line made only of simple-id characters. */
  predicate LineMatch(s: string, i: int, j: int) {
    && 0 <= i < j <= |s|
    && (i == 0 || IsLineTerminator(s[i - 1]))
    && (j == |s| || IsLineTerminator(s[j]))
    && forall k :: i <= k < j ==> IsSimpleIdChar(s[k])
  }

  /** `/^[a-zA-Z0-9-_]+$/gm.test(s)`: some non-empty line consists only of simple-id characters. */
  function ValidateSimpleId(s: string): (r: bool)
    ensures s == [] ==> !r
  {
    exists i, j | 0 <= i < j <= |s| :: LineMatch(s, i, j)
  }

  /** For a single-line input the test is: non-empty and every character allowed. */
  lemma SimpleIdSingleLine(s: string)
    requires forall k :: 0 <= k < |s| ==> !IsLineTerminator(s[k])
    ensures ValidateSimpleId(s) <==> s != [] && forall k :: 0 <= k < |s| ==> IsSimpleIdChar(s[k])
  {
    if s != [] && forall k :: 0 <= k < |s| ==> IsSimpleIdChar(s[k]) {
      assert LineMatch(s, 0, |s|);
    }
    if ValidateSimpleId(s) {
      var i, j :| 0 <= i < j <= |s| && LineMatch(s, i, j);
      assert i == 0 && j == |s|;
    }
  }

  /** A match in `a + [t] + b` around line terminator `t` is a match in `a` or in `b`. */
  lemma SimpleIdLinesSplit(a: string, t: char, b: string)
    requires IsLineTerminator(t)
    requires ValidateSimpleId(a + [t] + b)
    ensures ValidateSimpleId(a) || ValidateSimpleId(b)
  {
    var s := a + [t] + b;
    var n := |a|;
    var i, j :| 0 <= i < j <= |s| && LineMatch(s, i, j);
    if j <= n {
      assert forall k :: 0 <= k < n ==> a[k] == s[k];
      assert LineMatch(a, i, j);
    } else {
      assert s[n] == t;
      assert !IsSimpleIdChar(s[n]);
      assert i > n;
      assert forall k :: 0 <= k < |b| ==> b[k] == s[k + n + 1];
      assert LineMatch(b, i - n - 1, j - n - 1);
    }
  }

  /** A match in the line before `t` is a match in `a + [t] + b`. */
  lemma SimpleIdLinesBefore(a: string, t: char, b: string)
    requires IsLineTerminator(t)
    requires ValidateSimpleId(a)
    ensures ValidateSimpleId(a + [t] + b)
  {
    var s := a + [t] + b;
    var i, j :| 0 <= i < j <= |a| && LineMatch(a, i, j);
    assert forall k :: 0 <= k < |a| ==> a[k] == s[k];
    assert s[|a|] == t;
    assert LineMatch(s, i, j);
  }

  /** A match in the line after `t` is a match in `a + [t] + b`. */
  lemma SimpleIdLinesAfter(a: string, t: char, b: string)
    requires IsLineTerminator(t)
    requires ValidateSimpleId(b)
    ensures ValidateSimpleId(a + [t] + b)
  {
    var s := a + [t] + b;
    var n := |a|;
    var i, j :| 0 <= i < j <= |b| && LineMatch(b, i, j);
    assert forall k :: 0 <= k < |b| ==> b[k] == s[k + n + 1];
    assert s[n] == t;
    assert LineMatch(s, i + n + 1, j + n + 1);
  }

  /** Around a line terminator the test holds exactly when it holds for the text before it or the text after it. */
  lemma SimpleIdLines(a: string, t: char, b: string)
    requires IsLineTerminator(t)
    ensures ValidateSimpleId(a + [t] + b) <==> ValidateSimpleId(a) || ValidateSimpleId(b)
  {
    if ValidateSimpleId(a + [t] + b) {
      SimpleIdLinesSplit(a, t, b);
    }
    if ValidateSimpleId(a) {
      SimpleIdLinesBefore(a, t, b);
    }
    if ValidateSimpleId(b) {
      SimpleIdLinesAfter(a, t, b);
    }
  }

  // ---- isValueAndTypeValid ----

  /** `isValueAndTypeValid(valueType, value)` for every tag but `'date'`. */
  function IsValueAndTypeValid(valueType: string, value: Json): (r: bool)
    requires valueType != "date"
    ensures valueType == "unknown" || valueType == "none" ==> r
    ensures valueType == "string" ==> (r <==> value.JStr?)
    ensures valueType == "number" ==> (r <==> value.JNum?)
    ensures r ==> valueType in ["string", "number", "unknown", "none"]
  {
    match valueType
    case "string" => value.JStr?
    case "number" => value.JNum?
    case "unknown" => true
    case "none" => true
    case _ => false
  }
}
