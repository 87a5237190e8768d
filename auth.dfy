/** The local account store: registered users with hashed passwords, and the signed-in user. */
module Auth {
  import opened Wrappers
  import opened Seqs
  import opened Text

  const TwoTo31: int := 0x8000_0000
  const TwoTo32: int := 0x1_0000_0000

  /** ECMAScript ToInt32: the 32-bit two's-complement value congruent to x. */
  function ToInt32(x: int): (r: int)
    ensures -TwoTo31 <= r < TwoTo31
    ensures (x - r) % TwoTo32 == 0
  {
    var m := x % TwoTo32;
    if m >= TwoTo31 then m - TwoTo32 else m
  }

  lemma ToInt32OfCongruent(x: int, y: int)
    requires (x - y) % TwoTo32 == 0
    ensures ToInt32(x) == ToInt32(y)
  {
    var q := (x - y) / TwoTo32;
    assert x == y + q * TwoTo32;
    ModShift(y, q);
  }

  lemma ModShift(y: int, q: int)
    ensures (y + q * TwoTo32) % TwoTo32 == y % TwoTo32
  {
  }

  /** str.charCodeAt(i) for every i: the UTF-16 code units, a character above U+FFFF giving a surrogate pair. */
  function CodeUnits(s: string): (r: seq<int>)
    ensures forall i :: 0 <= i < |r| ==> 0 <= r[i] < 0x1_0000
    ensures |r| >= |s|
  {
    if s == [] then []
    else
      var c := s[0] as int;
      var head := if c < 0x1_0000 then [c] else [0xD800 + (c - 0x1_0000) / 0x400, 0xDC00 + (c - 0x1_0000) % 0x400];
      head + CodeUnits(s[1..])
  }

  /** One round of the loop: ((hash << 5) - hash) + char, then hash & hash. */
  function Step(hash: int, unit: int): (h: int)
    ensures -TwoTo31 <= h < TwoTo31
  {
    ToInt32(31 * hash + unit)
  }

  /** The loop's body as written, with `<<` and `&` truncating to 32 bits, computes Step. */
  lemma StepAsWritten(hash: int, unit: int)
    ensures ToInt32(ToInt32(hash * 32) - hash + unit) == Step(hash, unit)
  {
    ToInt32OfCongruent(ToInt32(hash * 32) - hash + unit, 31 * hash + unit);
  }

  /** The hash after folding h over the given code units. */
  function Fold(h: int, units: seq<int>): (r: int)
    ensures -TwoTo31 <= h < TwoTo31 ==> -TwoTo31 <= r < TwoTo31
    decreases |units|
  {
    if units == [] then h else Fold(Step(h, units[0]), units[1..])
  }

  lemma {:induction false} FoldAppend(h: int, units: seq<int>, u: int)
    ensures Fold(h, units + [u]) == Step(Fold(h, units), u)
    decreases |units|
  {
    if units != [] {
      assert (units + [u])[1..] == units[1..] + [u];
      FoldAppend(Step(h, units[0]), units[1..], u);
    }
  }

  function HashValue(s: string): (h: int)
    ensures -TwoTo31 <= h < TwoTo31
  {
    Fold(0, CodeUnits(s))
  }

  function Base36Digit(d: nat): (c: char)
    requires d < 36
  {
    "0123456789abcdefghijklmnopqrstuvwxyz"[d]
  }

  function DigitValue(c: char): nat
  {
    if '0' <= c <= '9' then c as nat - '0' as nat
    else if 'a' <= c <= 'z' then c as nat - 'a' as nat + 10
    else 0
  }

  function Base36Nat(n: nat): (r: string)
    ensures |r| >= 1 && r[0] != '-'
    decreases n
  {
    if n < 36 then [Base36Digit(n)] else Base36Nat(n / 36) + [Base36Digit(n % 36)]
  }

  /** Number.prototype.toString(36) on an integer. */
  function Base36(n: int): (r: string)
    ensures |r| >= 1
    ensures r[0] == '-' <==> n < 0
  {
    if n < 0 then "-" + Base36Nat(-n) else Base36Nat(n)
  }

  function ParseBase36Nat(s: string): int
  {
    if s == [] then 0 else 36 * ParseBase36Nat(s[..|s| - 1]) + DigitValue(s[|s| - 1])
  }

  function ParseBase36(s: string): int
  {
    if s != [] && s[0] == '-' then -ParseBase36Nat(s[1..]) else ParseBase36Nat(s)
  }

  lemma {:induction false} Base36NatRoundTrip(n: nat)
    ensures ParseBase36Nat(Base36Nat(n)) == n
    decreases n
  {
    var r := Base36Nat(n);
    if n >= 36 {
      Base36NatRoundTrip(n / 36);
      assert r[..|r| - 1] == Base36Nat(n / 36);
      DigitRoundTrip(n % 36);
    } else {
      DigitRoundTrip(n);
    }
  }

  lemma DigitRoundTrip(d: nat)
    requires d < 36
    ensures DigitValue(Base36Digit(d)) == d
  {
  }

  /** Reading the base-36 text back gives the number, so distinct hashes render differently. */
  lemma Base36RoundTrip(n: int)
    ensures ParseBase36(Base36(n)) == n
  {
    var m: nat := if n < 0 then -n else n;
    var t := Base36Nat(m);
    Base36NatRoundTrip(m);
    if n < 0 {
      assert Base36(n) == "-" + t;
      ParseSigned(t);
    } else {
      assert Base36(n) == t;
      ParseUnsigned(t);
    }
  }

  lemma ParseSigned(s: string)
    ensures ParseBase36("-" + s) == -ParseBase36Nat(s)
  {
    assert ("-" + s)[1..] == s;
  }

  lemma ParseUnsigned(s: string)
    requires s != [] && s[0] != '-'
    ensures ParseBase36(s) == ParseBase36Nat(s)
  {
  }

  /** simpleHash */
  function HashString(s: string): (r: string)
    ensures ParseBase36(r) == HashValue(s)
  {
    Base36RoundTrip(HashValue(s));
    Base36(HashValue(s))
  }

  /** simpleHash's loop over the code units. */
  method SimpleHash(s: string) returns (r: string)
    ensures r == HashString(s)
  {
    var units := CodeUnits(s);
    var hash := 0;
    var i := 0;
    while i < |units|
      invariant 0 <= i <= |units|
      invariant hash == Fold(0, units[..i])
    {
      FoldAppend(0, units[..i], units[i]);
      assert units[..i + 1] == units[..i] + [units[i]];
      hash := Step(hash, units[i]);
      i := i + 1;
    }
    assert units[..i] == units;
    r := Base36(hash);
  }

  datatype StoredUser = StoredUser(email: string, passwordHash: string)

  datatype Outcome = Ok | Refused(error: string)

  datatype ResetOutcome = Reset(newPassword: string) | ResetFailed(error: string)

  /** email.trim().toLowerCase() */
  function Normalize(email: string): (r: string)
    ensures r == [] <==> IsBlank(email)
    ensures |r| == |Trim(email)| && forall i :: 0 <= i < |r| ==> !('A' <= r[i] <= 'Z')
    ensures r != [] ==> !IsJsWhitespace(r[0]) && !IsJsWhitespace(r[|r| - 1])
  {
    var t := Trim(email);
    LowerEnds(t);
    Lower(t)
  }

  lemma LowerEnds(t: string)
    ensures t != [] ==> && (IsJsWhitespace(Lower(t)[0]) <==> IsJsWhitespace(t[0]))
                        && (IsJsWhitespace(Lower(t)[|t| - 1]) <==> IsJsWhitespace(t[|t| - 1]))
  {
    if t != [] {
      LowerKeepsWhitespace(t[0]);
      LowerKeepsWhitespace(t[|t| - 1]);
    }
  }

  lemma LowerKeepsWhitespace(c: char)
    ensures IsJsWhitespace(LowerChar(c)) <==> IsJsWhitespace(c)
  {
  }

  /** Normalising an already normalised email changes nothing, so a stored email matches itself. */
  lemma {:induction false} NormalizeIdempotent(email: string)
    ensures Normalize(Normalize(email)) == Normalize(email)
  {
    NormalizedIsFixed(Normalize(email));
  }

  /** A string with no whitespace at either end and no capital letter is its own normal form. */
  lemma {:induction false} NormalizedIsFixed(n: string)
    requires n != [] ==> !IsJsWhitespace(n[0]) && !IsJsWhitespace(n[|n| - 1])
    requires forall i :: 0 <= i < |n| ==> !('A' <= n[i] <= 'Z')
    ensures Normalize(n) == n
  {
    calc {
      Normalize(n);
      Lower(Trim(n));
      { TrimOfTrimmed(n); }
      Lower(n);
      { LowerOfLower(n); }
      n;
    }
  }

  lemma {:induction false} LowerOfLower(s: string)
    requires forall i :: 0 <= i < |s| ==> !('A' <= s[i] <= 'Z')
    ensures Lower(s) == s
  {
  }

  /** A string with no whitespace at either end is its own trim. */
  lemma {:induction false} TrimOfTrimmed(s: string)
    requires s != [] ==> !IsJsWhitespace(s[0]) && !IsJsWhitespace(s[|s| - 1])
    ensures Trim(s) == s
  {
    if s != [] {
      assert TrimStart(s) == s;
      assert TrimEnd(s) == s;
    }
  }

  predicate UniqueEmails(users: seq<StoredUser>)
  {
    forall i, j :: 0 <= i < j < |users| ==> users[i].email != users[j].email
  }

  function HasEmail(e: string): StoredUser -> bool
  {
    (u: StoredUser) => u.email == e
  }

  /** What login answers for the stored users. */
  function LoginOutcome(users: seq<StoredUser>, email: string, password: string): (o: Outcome)
    ensures o == Refused("Usuário não encontrado") <==> forall u :: u in users ==> u.email != Normalize(email)
    ensures o == Ok ==> exists u :: u in users && u.email == Normalize(email) && u.passwordHash == HashString(password)
    ensures o.Refused? ==> o.error in {"Usuário não encontrado", "Senha incorreta"}
    ensures forall k :: 0 <= k < |users| && users[k].email == Normalize(email)
                        && (forall j :: 0 <= j < k ==> users[j].email != Normalize(email)) ==>
              (o == Ok <==> users[k].passwordHash == HashString(password))
    ensures UniqueEmails(users) ==> forall u :: u in users && u.email == Normalize(email) ==>
              (o == Ok <==> u.passwordHash == HashString(password))
  {
    FoundIsFirstMatch(users, Normalize(email));
    match Find(users, HasEmail(Normalize(email)))
    case None => Refused("Usuário não encontrado")
    case Some(u) => if u.passwordHash != HashString(password) then Refused("Senha incorreta") else Ok
  }

  lemma AppendKeepsUnique(users: seq<StoredUser>, u: StoredUser)
    requires UniqueEmails(users) && Find(users, HasEmail(u.email)).None?
    ensures UniqueEmails(users + [u])
  {
    var all := users + [u];
    forall i, j | 0 <= i < j < |all| ensures all[i].email != all[j].email {
      if j == |users| {
        assert !HasEmail(u.email)(users[i]);
      }
    }
  }

  /** A registration register accepts keeps the stored emails distinct. */
  lemma {:induction false} AcceptedKeepsUnique(users: seq<StoredUser>, email: string, password: string)
    requires UniqueEmails(users) && RegisterError(users, email, password).None?
    ensures UniqueEmails(users + [StoredUser(Normalize(email), HashString(password))])
  {
    AppendKeepsUnique(users, StoredUser(Normalize(email), HashString(password)));
  }

  /** find returns the first user with the email, which with unique emails is the only one. */
  lemma FoundIsFirstMatch(users: seq<StoredUser>, e: string)
    ensures forall k :: 0 <= k < |users| && users[k].email == e && (forall j :: 0 <= j < k ==> users[j].email != e) ==>
              Find(users, HasEmail(e)) == Some(users[k])
    ensures UniqueEmails(users) ==> forall u :: u in users && u.email == e ==> Find(users, HasEmail(e)) == Some(u)
  {
    forall k | 0 <= k < |users| && users[k].email == e && (forall j :: 0 <= j < k ==> users[j].email != e)
      ensures Find(users, HasEmail(e)) == Some(users[k])
    {
      FindFirstAt(users, HasEmail(e), k);
    }
    if UniqueEmails(users) {
      forall u | u in users && u.email == e ensures Find(users, HasEmail(e)) == Some(u) {
        var k :| 0 <= k < |users| && users[k] == u;
        forall j | 0 <= j < k ensures users[j].email != e {
          assert users[j].email != users[k].email;
        }
        FindFirstAt(users, HasEmail(e), k);
      }
    }
  }

  /** The rejection register gives, if any, checked in the page's order. */
  function RegisterError(users: seq<StoredUser>, email: string, password: string): (e: Option<string>)
    ensures e.None? <==> Normalize(email) != "" && |CodeUnits(password)| >= 6
                         && forall u :: u in users ==> u.email != Normalize(email)
    ensures Normalize(email) == "" || password == "" ==> e == Some("Preencha todos os campos")
    ensures Normalize(email) != "" && password != "" && |CodeUnits(password)| < 6 ==>
              e == Some("A senha deve ter pelo menos 6 caracteres")
    ensures Normalize(email) != "" && |CodeUnits(password)| >= 6 && (exists u :: u in users && u.email == Normalize(email)) ==>
              e == Some("Este email já está cadastrado")
  {
    var normalized := Normalize(email);
    if normalized == "" || password == "" then Some("Preencha todos os campos")
    else if |CodeUnits(password)| < 6 then Some("A senha deve ter pelo menos 6 caracteres")
    else if Find(users, HasEmail(normalized)).Some? then Some("Este email já está cadastrado")
    else None
  }

  /** A user appended by a successful register can then log in with the password given. */
  lemma RegisteredCanLogIn(users: seq<StoredUser>, email: string, password: string)
    requires RegisterError(users, email, password).None?
    ensures LoginOutcome(users + [StoredUser(Normalize(email), HashString(password))], email, password) == Ok
  {
    var all := users + [StoredUser(Normalize(email), HashString(password))];
    FindFirstAt(all, HasEmail(Normalize(email)), |users|);
  }

  /** After a reset, logging in needs the new password: the old one fails unless both hash alike. */
  lemma ResetThenLogIn(users: seq<StoredUser>, k: nat, email: string, newPassword: string, password: string)
    requires UniqueEmails(users) && k < |users| && users[k].email == Normalize(email)
    ensures var updated := users[k := users[k].(passwordHash := HashString(newPassword))];
            LoginOutcome(updated, email, password) == if HashString(password) == HashString(newPassword) then Ok
                                                      else Refused("Senha incorreta")
  {
    var updated := users[k := users[k].(passwordHash := HashString(newPassword))];
    forall j | 0 <= j < k ensures !HasEmail(Normalize(email))(updated[j]) {
      assert users[j].email != users[k].email;
    }
    FindFirstAt(updated, HasEmail(Normalize(email)), k);
  }

  class AuthStore {
    var users: seq<StoredUser>
    /** The signed-in user's email, as the session and the user state hold it. */
    var session: Option<string>
    var user: Option<string>

    ghost predicate Valid()
      reads this
    {
      UniqueEmails(users) && session == user
    }

    /** `stored` and `storedSession` stand for what the browser storage holds at start-up. */
    constructor (stored: seq<StoredUser>, storedSession: Option<string>)
      requires UniqueEmails(stored)
      ensures Valid() && users == stored && session == storedSession
    {
      users := stored;
      session := storedSession;
      user := storedSession;
    }

    method Login(email: string, password: string) returns (o: Outcome)
      requires Valid()
      modifies this
      ensures Valid()
      ensures o == LoginOutcome(old(users), email, password)
      ensures users == old(users)
      ensures o.Refused? ==> session == old(session)
      ensures o.Ok? ==> session == Some(Normalize(email))
    {
      var normalized := Normalize(email);
      var found := Find(users, HasEmail(normalized));
      if found.None? {
        return Refused("Usuário não encontrado");
      }
      var h := SimpleHash(password);
      if found.value.passwordHash != h {
        return Refused("Senha incorreta");
      }
      session := Some(normalized);
      user := Some(normalized);
      return Ok;
    }

    method Register(email: string, password: string) returns (o: Outcome)
      requires Valid()
      modifies this
      ensures Valid()
      ensures RegisterError(old(users), email, password).Some? ==>
                o == Refused(RegisterError(old(users), email, password).value) && users == old(users) && session == old(session)
      ensures RegisterError(old(users), email, password).None? ==>
                && o == Ok
                && users == old(users) + [StoredUser(Normalize(email), HashString(password))]
                && session == Some(Normalize(email))
    {
      var error := RegisterError(users, email, password);
      if error.Some? {
        return Refused(error.value);
      }
      var normalized := Normalize(email);
      var h := SimpleHash(password);
      AcceptedKeepsUnique(users, email, password);
      users := users + [StoredUser(normalized, h)];
      session := Some(normalized);
      user := Some(normalized);
      return Ok;
    }

    method Logout()
      requires Valid()
      modifies this
      ensures Valid() && users == old(users) && session == None && user == None
    {
      session := None;
      user := None;
    }

    /** `newPassword` stands for the random temporary password. */
    method ResetPassword(email: string, newPassword: string) returns (o: ResetOutcome)
      requires Valid()
      modifies this
      ensures Valid()
      ensures session == old(session)
      ensures FindFirst(old(users), HasEmail(Normalize(email))).None? ==>
                o == ResetFailed("Email não encontrado") && users == old(users)
      ensures FindFirst(old(users), HasEmail(Normalize(email))).Some? ==>
                var k := FindFirst(old(users), HasEmail(Normalize(email))).value;
                && o == Reset(newPassword)
                && users == old(users)[k := old(users)[k].(passwordHash := HashString(newPassword))]
    {
      var userIndex := FindFirst(users, HasEmail(Normalize(email)));
      if userIndex.None? {
        return ResetFailed("Email não encontrado");
      }
      var k := userIndex.value;
      var h := SimpleHash(newPassword);
      var updated := users;
      updated := updated[k := updated[k].(passwordHash := h)];
      assert forall i :: 0 <= i < |updated| ==> updated[i].email == users[i].email;
      users := updated;
      return Reset(newPassword);
    }
  }
}
