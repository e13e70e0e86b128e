/** Vocabulary shared by the server-side controllers and the browser-side modules:
    optional values, results, roles, HTTP replies and the few string helpers the
    source relies on (Python's `str.lower` on ASCII text, JavaScript's `includes`). */
module Common {

  datatype Option<+T> = None | Some(value: T)

  datatype Result<+T, +E> = Success(value: T) | Failure(error: E)

  /** `UserRole` of app/models/user.py. */
  datatype Role = Admin | Supplier

  /** The authenticated user a controller runs for: the decorators `auth_required` and
      `admin_required` look the user up from the JWT identity and hand it over. */
  datatype Caller = Caller(id: nat, role: Role)

  /** The ownership check the order and quotation endpoints share: an admin may act on any
      row, a supplier only on rows whose supplier is itself. */
  predicate MayAccess(caller: Caller, supplier: int): (r: bool)
    ensures caller.role == Admin ==> r
    ensures caller.role == Supplier ==> (r <==> supplier == caller.id)
  {
    caller.role == Admin || supplier == caller.id
  }

  /** What a Flask handler returns: an HTTP status and the text of the JSON body's
      `message` (on success) or `error` (on failure). */
  datatype Reply = Reply(status: int, message: string)

  predicate IsUpper(c: char) { 'A' <= c <= 'Z' }

  function LowerChar(c: char): (r: char)
    ensures IsUpper(c) ==> r as int == c as int + 32
    ensures !IsUpper(c) ==> r == c
  {
    if IsUpper(c) then (c as int + 32) as char else c
  }

  /** `str.lower()` restricted to ASCII letters. */
  function Lower(s: string): (r: string)
    ensures |r| == |s|
    ensures forall i :: 0 <= i < |s| ==> r[i] == LowerChar(s[i])
  {
    if s == [] then [] else [LowerChar(s[0])] + Lower(s[1..])
  }

  /** Text that contains no upper-case ASCII letter is left alone by `Lower`. */
  lemma {:induction false} LowerOfLowerCase(s: string)
    requires forall i :: 0 <= i < |s| ==> !IsUpper(s[i])
    ensures Lower(s) == s
  {
    if s != [] {
      LowerOfLowerCase(s[1..]);
    }
  }

  /** The decimal digits of `n`, most significant first. */
  function Digits(n: nat): (r: string)
    ensures |r| >= 1
    ensures forall i :: 0 <= i < |r| ==> '0' <= r[i] <= '9'
    decreases n
  {
    var last := ['0' + ((n % 10) as char)];
    if n < 10 then last else Digits(n / 10) + last
  }

  /** Python's `str(n)` for an integer, as the f-string error messages print it. */
  function IntText(n: int): string
  {
    if n < 0 then "-" + Digits(-n) else Digits(n)
  }

  /** The number a string of decimal digits denotes, most significant first. */
  function DigitsValue(s: string): int
    decreases |s|
  {
    if s == [] then 0 else DigitsValue(s[..|s| - 1]) * 10 + (s[|s| - 1] as int - '0' as int)
  }

  /** The number `int()` reads back from an optional '-' and digits. */
  function TextValue(s: string): int
  {
    if s != [] && s[0] == '-' then -DigitsValue(s[1..]) else DigitsValue(s)
  }

  /** The digits denote `n`, with no leading zero. */
  lemma {:induction false} DigitsDenote(n: nat)
    ensures DigitsValue(Digits(n)) == n
    ensures |Digits(n)| > 1 ==> Digits(n)[0] != '0'
    decreases n
  {
    var last := ['0' + ((n % 10) as char)];
    assert last[0] as int - '0' as int == n % 10;
    if n >= 10 {
      var m := n / 10;
      DigitsDenote(m);
      var d := Digits(m) + last;
      assert Digits(n) == d;
      assert d[..|d| - 1] == Digits(m);
      assert DigitsValue(d) == DigitsValue(Digits(m)) * 10 + n % 10;
      assert d[0] == Digits(m)[0];
      if |Digits(m)| == 1 {
        assert m < 10 && m >= 1;
      }
    }
  }

  /** `int(str(n)) == n`: the text of an integer in a message names that integer. */
  lemma IntTextRoundTrip(n: int)
    ensures TextValue(IntText(n)) == n
  {
    if n < 0 {
      DigitsDenote(-n);
      assert IntText(n)[1..] == Digits(-n);
    } else {
      DigitsDenote(n);
    }
  }

  /** The position of the last `c` in `s[..n]`. */
  function LastIndexOf(s: string, c: char, n: nat): (r: Option<nat>)
    requires n <= |s|
    ensures r.Some? ==> r.value < n && s[r.value] == c && forall j :: r.value < j < n ==> s[j] != c
    ensures r.None? ==> forall j :: 0 <= j < n ==> s[j] != c
    decreases n
  {
    if n == 0 then None
    else if s[n - 1] == c then Some(n - 1)
    else LastIndexOf(s, c, n - 1)
  }

  /** The position of the first `c` in `s[from..]`. */
  function IndexOf(s: string, c: char, from: nat): (r: Option<nat>)
    requires from <= |s|
    ensures r.Some? ==> from <= r.value < |s| && s[r.value] == c && forall j :: from <= j < r.value ==> s[j] != c
    ensures r.None? ==> forall j :: from <= j < |s| ==> s[j] != c
    decreases |s| - from
  {
    if from == |s| then None
    else if s[from] == c then Some(from)
    else IndexOf(s, c, from + 1)
  }

  predicate OccursAt(s: string, t: string, i: nat)
  {
    i + |t| <= |s| && s[i..i + |t|] == t
  }

  /** JavaScript's `s.includes(t)`: some position of `s` starts a copy of `t`. */
  function Includes(s: string, t: string): (r: bool)
    ensures r <==> exists i: nat :: OccursAt(s, t, i)
  {
    IncludesFrom(s, t, 0)
  }

  function IncludesFrom(s: string, t: string, from: nat): (r: bool)
    requires from <= |s|
    ensures r <==> exists i: nat :: from <= i && OccursAt(s, t, i)
    decreases |s| - from
  {
    if OccursAt(s, t, from) then true
    else if from == |s| then false
    else IncludesFrom(s, t, from + 1)
  }

  /** A text in which the first character of `t` never occurs does not include `t`. */
  lemma IncludesNeedsFirstChar(s: string, t: string)
    requires |t| > 0 && forall i :: 0 <= i < |s| ==> s[i] != t[0]
    ensures !Includes(s, t)
  {
    forall i: nat | i + |t| <= |s|
      ensures !OccursAt(s, t, i)
    {
      assert s[i..i + |t|][0] == s[i];
    }
  }
}
