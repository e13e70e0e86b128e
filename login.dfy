/** The login page (static/js/login.js): the two field validators, the gate in front of the
    request, and what the page does with the answer. Strings are sequences of Unicode scalar
    values; where JavaScript counts UTF-16 code units (`length`), the model counts them too. */
module Login {
  import opened Common
  import opened Store
  import opened TokenStore
  import opened UserController

  /** The characters `String.prototype.trim` removes: JavaScript's white space and line
      terminators. */
  predicate IsJsSpace(c: char)
  {
    c == ' ' || '\U{0009}' <= c <= '\U{000D}' || c == '\U{00A0}' || c == '\U{1680}'
    || '\U{2000}' <= c <= '\U{200A}' || c == '\U{2028}' || c == '\U{2029}' || c == '\U{202F}'
    || c == '\U{205F}' || c == '\U{3000}' || c == '\U{FEFF}'
  }

  /** The first position at or after `from` that is not white space. */
  function FirstNonSpace(s: string, from: nat): (r: nat)
    requires from <= |s|
    ensures from <= r <= |s|
    ensures forall k :: from <= k < r ==> IsJsSpace(s[k])
    ensures r < |s| ==> !IsJsSpace(s[r])
    decreases |s| - from
  {
    if from == |s| || !IsJsSpace(s[from]) then from else FirstNonSpace(s, from + 1)
  }

  /** The end of `s[lo..n]` once its trailing white space is cut. */
  function EndOfText(s: string, lo: nat, n: nat): (r: nat)
    requires lo <= n <= |s|
    ensures lo <= r <= n
    ensures forall k :: r <= k < n ==> IsJsSpace(s[k])
    ensures r > lo ==> !IsJsSpace(s[r - 1])
    decreases n
  {
    if n == lo || !IsJsSpace(s[n - 1]) then n else EndOfText(s, lo, n - 1)
  }

  /** `r` sits in `s` at `i` with only white space before and after it. */
  predicate PaddedAt(s: string, r: string, i: nat)
  {
    && i + |r| <= |s| && s[i..i + |r|] == r
    && (forall k :: 0 <= k < i ==> IsJsSpace(s[k]))
    && (forall k :: i + |r| <= k < |s| ==> IsJsSpace(s[k]))
  }

  /** `s.trim()`: the text between the leading and the trailing white space. */
  function Trim(s: string): (r: string)
    ensures |r| <= |s|
    ensures r == "" <==> forall k :: 0 <= k < |s| ==> IsJsSpace(s[k])
    ensures r != "" ==> !IsJsSpace(r[0]) && !IsJsSpace(r[|r| - 1])
    ensures exists i: nat :: PaddedAt(s, r, i)
  {
    var i := FirstNonSpace(s, 0);
    var j := EndOfText(s, i, |s|);
    assert PaddedAt(s, s[i..j], i);
    s[i..j]
  }

  /** Trimming twice is trimming once. */
  lemma TrimIdempotent(s: string)
    ensures Trim(Trim(s)) == Trim(s)
  {
    var r := Trim(s);
    if r != "" {
      assert FirstNonSpace(r, 0) == 0;
      assert EndOfText(r, 0, |r|) == |r|;
      assert r[0..|r|] == r;
    }
  }

  predicate Letter(c: char) { 'a' <= c <= 'z' || 'A' <= c <= 'Z' }
  predicate Digit(c: char) { '0' <= c <= '9' }

  /** `[a-zA-Z0-9._%+-]`. */
  predicate LocalChar(c: char) { Letter(c) || Digit(c) || c in "._%+-" }

  /** `[a-zA-Z0-9.-]`. */
  predicate DomainChar(c: char) { Letter(c) || Digit(c) || c == '.' || c == '-' }

  /** `s` is `local@domain.tld` with the '@' at `at` and the last '.' at `dot`: one or more
      local characters, one or more domain characters, and two or more letters. */
  predicate EmailSplit(s: string, at: nat, dot: nat)
  {
    && 1 <= at && at + 2 <= dot && dot + 3 <= |s|
    && s[at] == '@' && s[dot] == '.'
    && (forall i :: 0 <= i < at ==> LocalChar(s[i]))
    && (forall i :: at < i < dot ==> DomainChar(s[i]))
    && (forall i :: dot < i < |s| ==> Letter(s[i]))
  }

  /** The language of `/^[a-zA-Z0-9._%+-]+@[a-zA-Z0-9.-]+\.[a-zA-Z]{2,}$/`. */
  ghost predicate EmailPattern(s: string)
  {
    exists at: nat, dot: nat :: EmailSplit(s, at, dot)
  }

  /** The test of the pattern: split at the first '@' and the last '.'. */
  function IsEmail(s: string): (r: bool)
    ensures r ==> EmailPattern(s)
  {
    var at := IndexOf(s, '@', 0);
    var dot := LastIndexOf(s, '.', |s|);
    at.Some? && dot.Some? && EmailSplit(s, at.value, dot.value)
  }

  /** A match splits only one way: no local or domain character is '@', and no letter of
      the top-level domain is '.'. */
  lemma EmailSplitIsUnique(s: string, at: nat, dot: nat)
    requires EmailSplit(s, at, dot)
    ensures IndexOf(s, '@', 0) == Some(at)
    ensures LastIndexOf(s, '.', |s|) == Some(dot)
  {
    var x := IndexOf(s, '@', 0);
    var y := LastIndexOf(s, '.', |s|);
    assert x.Some? && x.value <= at;
    assert !LocalChar('@');
    assert y.Some? && y.value >= dot;
    assert !Letter('.');
  }

  /** The executable test accepts exactly the pattern's language. */
  lemma IsEmailMatchesPattern(s: string)
    ensures IsEmail(s) <==> EmailPattern(s)
  {
    if EmailPattern(s) {
      var at: nat, dot: nat :| EmailSplit(s, at, dot);
      EmailSplitIsUnique(s, at, dot);
    }
  }

  /** An address the pattern accepts holds exactly one '@'. */
  lemma ValidEmailHasOneAt(s: string)
    requires EmailPattern(s)
    ensures exists a :: 0 <= a < |s| && s[a] == '@' && forall i :: 0 <= i < |s| && s[i] == '@' ==> i == a
  {
    var at: nat, dot: nat :| EmailSplit(s, at, dot);
    assert !LocalChar('@') && !DomainChar('@') && !Letter('@');
    assert forall i :: 0 <= i < |s| && s[i] == '@' ==> i == at;
  }

  /** A validator's verdict: valid, or the message shown under the field. */
  datatype Check = Valid | Invalid(message: string)

  const EmailRequired := "Email is required"
  const EmailMalformed := "Please enter a valid email address"
  const PasswordRequired := "Password is required"
  const PasswordShort := "Password must be at least 6 characters"

  /** `validateEmail` on the field's value. */
  function ValidateEmail(value: string): (r: Check)
    ensures r == Invalid(EmailRequired) <==> Trim(value) == ""
    ensures r == Valid <==> Trim(value) != "" && EmailPattern(Trim(value))
    ensures r == Invalid(EmailMalformed) <==> Trim(value) != "" && !EmailPattern(Trim(value))
  {
    IsEmailMatchesPattern(Trim(value));
    var email := Trim(value);
    if email == "" then Invalid(EmailRequired)
    else if !IsEmail(email) then Invalid(EmailMalformed)
    else Valid
  }

  /** JavaScript's `length`: one unit per character of the basic plane, two per character
      above it. */
  function Utf16Length(s: string): (n: nat)
    ensures |s| <= n <= 2 * |s|
  {
    if s == [] then 0 else (if s[0] as int > 0xFFFF then 2 else 1) + Utf16Length(s[1..])
  }

  /** `validatePassword` on the field's value (not trimmed). */
  function ValidatePassword(password: string): (r: Check)
    ensures r == Invalid(PasswordRequired) <==> password == ""
    ensures r == Invalid(PasswordShort) <==> password != "" && Utf16Length(password) < 6
    ensures r == Valid <==> Utf16Length(password) >= 6
    ensures |password| >= 6 ==> r == Valid
  {
    if password == "" then Invalid(PasswordRequired)
    else if Utf16Length(password) < 6 then Invalid(PasswordShort)
    else Valid
  }

  /** Three characters beyond the basic plane are six UTF-16 units, enough to pass. */
  lemma ThreeAstralCharactersPass()
    ensures ValidatePassword("\U{1F600}\U{1F600}\U{1F600}") == Valid
  {
    var p := "\U{1F600}\U{1F600}\U{1F600}";
    assert p[1..] == "\U{1F600}\U{1F600}";
    assert p[1..][1..] == "\U{1F600}";
    assert p[1..][1..][1..] == "";
  }

  /** What the login request carries: the trimmed email and the password as typed. */
  datatype Credentials = Credentials(email: string, password: string)

  /** The submit handler's gate: both validators run (both fields show their verdict), and
      the request is sent only when both pass. */
  datatype Submission = Submission(emailCheck: Check, passwordCheck: Check, request: Option<Credentials>)

  function Submit(emailValue: string, password: string): (r: Submission)
    ensures r.emailCheck == ValidateEmail(emailValue) && r.passwordCheck == ValidatePassword(password)
    ensures r.request.Some? <==> r.emailCheck == Valid && r.passwordCheck == Valid
    ensures r.request.Some? ==> r.request.value == Credentials(Trim(emailValue), password)
                                && EmailPattern(r.request.value.email) && Utf16Length(password) >= 6
  {
    var e := ValidateEmail(emailValue);
    var p := ValidatePassword(password);
    Submission(e, p, if e == Valid && p == Valid then Some(Credentials(Trim(emailValue), password)) else None)
  }

  /** The server receives `{email, password}` with no name, so `login` looks the user up by
      that email and does not answer with its missing-fields error. */
  lemma SubmittedLoginIsByEmail(db: Db, emailValue: string, password: string)
    requires db.Valid()
    requires Submit(emailValue, password).request.Some?
    ensures var c := Submit(emailValue, password).request.value;
      && LoginLookup(LoginBody(None, Some(c.email), Some(c.password))) == ByEmail(c.email)
      && UserController.Login(db, LoginBody(None, Some(c.email), Some(c.password))) != Failure(MissingFields)
  {
  }

  /** The JSON of the login answer as the page reads it: the two tokens, the role of
      `data.user` (None when `user` is absent) and `message`. */
  datatype LoginData = LoginData(accessToken: Option<string>, refreshToken: Option<string>,
                                 userRole: Option<string>, message: Option<string>)

  /** The answer: the request or `response.json()` threw, or a status and its JSON. */
  datatype LoginAnswer = Thrown | Answer(status: int, data: LoginData)

  /** Where the page ends up. */
  datatype Landing = Redirect(page: string) | Stay | ShowError(message: string)

  const GenericError := "An error occurred. Please try again."

  /** `localStorage.setItem` turns a missing value into the text "undefined". */
  function StoredText(v: Option<string>): string
  {
    if v.Some? then v.value else "undefined"
  }

  /** What the page does with the answer: the stored items afterwards and the landing. */
  function AfterLogin(items: map<string, string>, answer: LoginAnswer): (r: (map<string, string>, Landing))
    ensures answer.Thrown? ==> r == (items, ShowError(GenericError))
    ensures answer.Answer? && !Ok(answer.status) ==>
      r == (items, ShowError(if Truthy(answer.data.message) then answer.data.message.value else "Invalid credentials"))
    ensures answer.Answer? && Ok(answer.status) ==>
      var d := answer.data;
      && r.0 == items[TokenKey := StoredText(d.accessToken)][RefreshKey := StoredText(d.refreshToken)]
      && (d.userRole.None? ==> r.1 == ShowError(GenericError))
      && (d.userRole == Some("admin") ==> r.1 == Redirect("admin-dashboard.html"))
      && (d.userRole == Some("supplier") ==> r.1 == Redirect("supplier-dashboard.html"))
      && (d.userRole.Some? && d.userRole.value != "admin" && d.userRole.value != "supplier" ==> r.1 == Stay)
  {
    match answer
    case Thrown => (items, ShowError(GenericError))
    case Answer(status, d) =>
      if !Ok(status) then
        (items, ShowError(if Truthy(d.message) then d.message.value else "Invalid credentials"))
      else
        var stored := items[TokenKey := StoredText(d.accessToken)][RefreshKey := StoredText(d.refreshToken)];
        if d.userRole.None? then (stored, ShowError(GenericError))
        else if d.userRole.value == "admin" then (stored, Redirect("admin-dashboard.html"))
        else if d.userRole.value == "supplier" then (stored, Redirect("supplier-dashboard.html"))
        else (stored, Stay)
  }

  /** The submit handler once the answer is in. */
  method OnLoginAnswer(storage: LocalStorage, answer: LoginAnswer) returns (landing: Landing)
    modifies storage
    ensures (storage.items, landing) == AfterLogin(old(storage.items), answer)
  {
    match answer
    case Thrown =>
      return ShowError(GenericError);
    case Answer(status, d) =>
      if !Ok(status) {
        return ShowError(if Truthy(d.message) then d.message.value else "Invalid credentials");
      }
      storage.SetItem(TokenKey, StoredText(d.accessToken));
      storage.SetItem(RefreshKey, StoredText(d.refreshToken));
      if d.userRole.None? {
        return ShowError(GenericError);
      } else if d.userRole.value == "admin" {
        return Redirect("admin-dashboard.html");
      } else if d.userRole.value == "supplier" {
        return Redirect("supplier-dashboard.html");
      }
      return Stay;
  }

  /** The server's refusals carry their text under `error`, never `message`, so every refused
      login (unknown user, wrong password, blocked account) shows 'Invalid credentials' and
      stores nothing. */
  lemma RefusedLoginShowsInvalidCredentials(db: Db, c: Credentials, items: map<string, string>)
    requires db.Valid()
    requires UserController.Login(db, LoginBody(None, Some(c.email), Some(c.password))).Failure?
    ensures var reply := UserController.Login(db, LoginBody(None, Some(c.email), Some(c.password))).error;
      AfterLogin(items, Answer(reply.status, LoginData(None, None, None, None))) == (items, ShowError("Invalid credentials"))
  {
  }

  /** A granted login stores both tokens and always redirects: the server's roles are the
      two the page knows. */
  lemma GrantedLoginRedirects(db: Db, c: Credentials, items: map<string, string>, access: string, refresh: string)
    requires db.Valid()
    requires UserController.Login(db, LoginBody(None, Some(c.email), Some(c.password))).Success?
    ensures var id := UserController.Login(db, LoginBody(None, Some(c.email), Some(c.password))).value;
      var role := db.users[id].role;
      var r := AfterLogin(items, Answer(200, LoginData(Some(access), Some(refresh), Some(RoleValue(role)), None)));
      && r.0 == items[TokenKey := access][RefreshKey := refresh]
      && r.1 == Redirect(if role == Admin then "admin-dashboard.html" else "supplier-dashboard.html")
  {
  }
}
