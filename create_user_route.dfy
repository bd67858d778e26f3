/**
 * POST of `src/app/api/admin/create-user/route.ts`: an administrator creates
 * an account in the identity provider. The handler checks the caller's role
 * and the body, looks for the e-mail address among the existing accounts,
 * creates the account under a derived username, then tries to assign the
 * role and to mirror the account into the `users` table, ignoring failures
 * of those last two steps. Errors thrown by the provider map to 422, 400 or
 * 500.
 */
module CreateUserRoute {
  import opened Common

  /** An identity-provider account; `role` is the `publicMetadata.role` entry. */
  datatype Account = Account(
    id: string,
    firstName: string,
    lastName: string,
    emails: seq<string>,
    username: string,
    role: Option<string>,
    createdAt: nat)

  /** A row written by the mirror into the database, and the activity logged after it. */
  datatype MirrorRow = MirrorRow(clerkId: string, email: string, role: string)
  datatype AdminActivity = AdminActivity(userId: string, action: string, createdBy: string, role: string)

  /** The identity provider's accounts and what the mirror has written. */
  datatype Registry = Registry(accounts: seq<Account>, mirror: seq<MirrorRow>, activity: seq<AdminActivity>)

  class IdentityDirectory {
    var accounts: seq<Account>
    var mirror: seq<MirrorRow>
    var activity: seq<AdminActivity>

    function State(): Registry
      reads this
    {
      Registry(accounts, mirror, activity)
    }

    constructor (initial: Registry)
      ensures State() == initial
    {
      accounts := initial.accounts;
      mirror := initial.mirror;
      activity := initial.activity;
    }
  }

  /** The JSON body; a field is `None` when it is absent or `null`. */
  datatype NewUserBody = NewUserBody(
    firstName: Option<string>,
    lastName: Option<string>,
    email: Option<string>,
    role: Option<string>,
    password: Option<string>)

  /** One entry of the `errors` array of a provider error. */
  datatype ProviderIssue = ProviderIssue(code: Option<string>, message: Option<string>)

  /**
   * A thrown provider error: `status` is `None` when the object has no
   * `status` property, `issues` is `None` when it has no `errors` array.
   */
  datatype ProviderError = ProviderError(status: Option<int>, issues: Option<seq<ProviderIssue>>)

  /** What the account creation answered: the new account's id and creation time, or a thrown error. */
  datatype CreateOutcome = Made(id: string, createdAt: nat) | Threw(error: ProviderError)

  /** The backend's answers and the clock, for one request. */
  datatype CreateUserEnv = CreateUserEnv(
    exactSearch: Reply,    // the lookup by e-mail address
    broadSearch: Reply,    // the listing of up to 500 accounts
    now: nat,              // Date.now() when the username is derived
    create: CreateOutcome,
    roleUpdate: Reply,
    sync: Reply,
    activityLog: Reply)

  /** The `user` object of a 201 answer. */
  datatype CreatedUser = CreatedUser(
    id: string, firstName: string, lastName: string, email: string, username: string, role: string, createdAt: nat)

  datatype UserResponse =
    | UserCreated(user: CreatedUser)           // 201
    | UserRefused(status: int, error: string)

  const MissingFields := "Todos los campos son requeridos"
  const InvalidRole := "Rol inválido"
  const AlreadyRegistered := "Ya existe un usuario registrado con este email"
  const RegisteredInSystem := "Este email ya está registrado en el sistema"
  const RegisteredInProvider := "Este email ya está registrado en Clerk. Por favor usa un email diferente."
  const InUseOrInvalid := "El email ya está en uso o los datos son inválidos"
  const InvalidUserData := "Datos de usuario inválidos"
  const InternalError := "Error interno del servidor"

  /** The roles an account may be given. */
  const Roles: seq<string> := ["admin", "empleado"]

  // ------------------------------------------------------------------
  // The pure steps

  /** The first account with that id, as `getUser` finds it; `None` when it throws for a missing one. */
  function FindAccount(accounts: seq<Account>, id: string): (r: Option<Account>)
    ensures r.Some? ==> r.value in accounts && r.value.id == id
    ensures r.None? ==> forall a | a in accounts :: a.id != id
  {
    if accounts == [] then None
    else if accounts[0].id == id then Some(accounts[0])
    else FindAccount(accounts[1..], id)
  }

  predicate HasAllFields(b: NewUserBody)
  {
    Truthy(b.firstName) && Truthy(b.lastName) && Truthy(b.email) && Truthy(b.role) && Truthy(b.password)
  }

  /** The body checks in order: every field truthy, then a known role; `None` when the body passes. */
  function BodyRejection(b: NewUserBody): Option<string>
  {
    if !HasAllFields(b) then Some(MissingFields)
    else if b.role.value !in Roles then Some(InvalidRole)
    else None
  }

  /** `email.trim().toLowerCase()`. */
  function NormalizeEmail(email: string): string
  {
    Lower(Trim(email))
  }

  /** `.replace(/[^a-zA-Z0-9]/g, '_')`. */
  function Underscored(s: string): (r: string)
    ensures |r| == |s|
    ensures forall i | 0 <= i < |s| :: if IsAsciiAlnum(s[i]) then r[i] == s[i] else r[i] == '_'
  {
    seq(|s|, i requires 0 <= i < |s| => if IsAsciiAlnum(s[i]) then s[i] else '_')
  }

  /** The part of the address before the first `@` (all of it when there is none). */
  function EmailPrefix(email: string): string
  {
    Split(email, '@')[0]
  }

  /**
   * The username: the prefix of the address as sent, with every character
   * other than an ASCII letter or digit replaced by `_`, then `_`, then the
   * last six digits of the clock.
   */
  function Username(email: string, now: nat): string
  {
    Underscored(EmailPrefix(email)) + "_" + TakeLast(NatToString(now), 6)
  }

  /**
   * The duplicate checks: an account listing the normalised address, then
   * one among the first 500 with that address in any letter case. A failed
   * search skips the rest of the checks.
   */
  function DuplicateRejection(accounts: seq<Account>, norm: string, env: CreateUserEnv): Option<string>
  {
    if env.exactSearch.Failed? then None
    else if exists a | a in accounts :: norm in a.emails then Some(AlreadyRegistered)
    else if env.broadSearch.Failed? then None
    else if exists a | a in Take(accounts, 500) :: exists e | e in a.emails :: Lower(e) == norm then Some(RegisteredInSystem)
    else None
  }

  /** An issue that names an e-mail conflict. */
  predicate IsEmailIssue(i: ProviderIssue)
  {
    i.code == Some("form_identifier_exists")
    || (i.message.Some? && Contains(i.message.value, "email"))
    || (i.message.Some? && Contains(i.message.value, "already exists"))
  }

  /**
   * The answer to a thrown creation error: the inner handler answers 422 for
   * an e-mail issue of an error carrying `status`; otherwise the error reaches
   * the outer handler, which keeps 422 and 400 and answers 500 for the rest.
   */
  function ThrownResponse(e: ProviderError): UserResponse
  {
    if e.status.Some? && e.issues.Some? && exists k | 0 <= k < |e.issues.value| :: IsEmailIssue(e.issues.value[k])
    then UserRefused(422, RegisteredInProvider)
    else if e.status == Some(422) then UserRefused(422, InUseOrInvalid)
    else if e.status == Some(400) then UserRefused(400, InvalidUserData)
    else UserRefused(500, InternalError)
  }

  /** The account as created: trimmed names, the normalised address, the derived username and no role yet. */
  function NewAccount(id: string, b: NewUserBody, username: string, createdAt: nat): Account
    requires HasAllFields(b)
  {
    Account(id, Trim(b.firstName.value), Trim(b.lastName.value), [NormalizeEmail(b.email.value)], username, None, createdAt)
  }

  /** The whole request over the registry before it; `body` is `Err` when the request is not JSON. */
  function CreateUserState(s: Registry, caller: Option<string>, body: Result<NewUserBody>, env: CreateUserEnv)
    : (Registry, UserResponse)
  {
    if !Truthy(caller) then (s, UserRefused(401, "No autorizado"))
    else
      var me := FindAccount(s.accounts, caller.value);
      if me.None? then (s, UserRefused(500, InternalError))
      else if me.value.role != Some("admin") then (s, UserRefused(403, "Sin permisos suficientes"))
      else if body.Err? then (s, UserRefused(500, InternalError))
      else if BodyRejection(body.value).Some? then (s, UserRefused(400, BodyRejection(body.value).value))
      else
        var b := body.value;
        var norm := NormalizeEmail(b.email.value);
        var dup := DuplicateRejection(s.accounts, norm, env);
        if dup.Some? then (s, UserRefused(409, dup.value))
        else if env.create.Threw? then (s, ThrownResponse(env.create.error))
        else StoreCreated(s, caller.value, b, env)
  }

  /**
   * The steps after the identity provider created the account: the stored
   * account (with the role when its update succeeded), the mirror row and
   * activity entry, and the 201 answer.
   */
  function StoreCreated(s: Registry, callerId: string, b: NewUserBody, env: CreateUserEnv): (Registry, UserResponse)
    requires HasAllFields(b) && env.create.Made?
  {
    var norm := NormalizeEmail(b.email.value);
    var acc := NewAccount(env.create.id, b, Username(b.email.value, env.now), env.create.createdAt);
    var stored := if env.roleUpdate.Done? then acc.(role := Some(b.role.value)) else acc;
    var s1 := s.(accounts := s.accounts + [stored]);
    var s2 :=
      if env.sync.Failed? then s1
      else s1.(mirror := s1.mirror + [MirrorRow(acc.id, norm, b.role.value)],
               activity := s1.activity + if env.activityLog.Done?
                                         then [AdminActivity(acc.id, "user_created_by_admin", callerId, b.role.value)]
                                         else []);
    (s2, UserCreated(CreatedUser(acc.id, acc.firstName, acc.lastName, norm, acc.username, b.role.value, acc.createdAt)))
  }

  // ------------------------------------------------------------------
  // The handler, one backend call at a time

  method PostCreateUser(dir: IdentityDirectory, caller: Option<string>, body: Result<NewUserBody>, env: CreateUserEnv)
    returns (res: UserResponse)
    modifies dir
    ensures (dir.State(), res) == CreateUserState(old(dir.State()), caller, body, env)
  {
    if !Truthy(caller) {
      return UserRefused(401, "No autorizado");
    }
    var me := FindAccount(dir.accounts, caller.value);
    if me.None? {
      return UserRefused(500, InternalError);
    }
    if me.value.role != Some("admin") {
      return UserRefused(403, "Sin permisos suficientes");
    }
    if body.Err? {
      return UserRefused(500, InternalError);
    }
    var b := body.value;
    var rejection := BodyRejection(b);
    if rejection.Some? {
      return UserRefused(400, rejection.value);
    }
    var norm := NormalizeEmail(b.email.value);
    var dup := DuplicateRejection(dir.accounts, norm, env);
    if dup.Some? {
      return UserRefused(409, dup.value);
    }
    if env.create.Threw? {
      return ThrownResponse(env.create.error);
    }
    res := StoreCreatedAccount(dir, caller.value, b, env);
  }

  /** The steps after the identity provider created the account, one backend write at a time. */
  method StoreCreatedAccount(dir: IdentityDirectory, callerId: string, b: NewUserBody, env: CreateUserEnv)
    returns (res: UserResponse)
    requires HasAllFields(b) && env.create.Made?
    modifies dir
    ensures (dir.State(), res) == StoreCreated(old(dir.State()), callerId, b, env)
  {
    var norm := NormalizeEmail(b.email.value);
    var acc := NewAccount(env.create.id, b, Username(b.email.value, env.now), env.create.createdAt);
    dir.accounts := dir.accounts + [acc];
    if env.roleUpdate.Done? {
      dir.accounts := dir.accounts[|dir.accounts| - 1 := acc.(role := Some(b.role.value))];
      assert dir.accounts == old(dir.accounts) + [acc.(role := Some(b.role.value))];
    }
    if env.sync.Done? {
      dir.mirror := dir.mirror + [MirrorRow(acc.id, norm, b.role.value)];
      if env.activityLog.Done? {
        dir.activity := dir.activity + [AdminActivity(acc.id, "user_created_by_admin", callerId, b.role.value)];
      } else {
        assert dir.activity == old(dir.activity) + [];
      }
    }
    res := UserCreated(CreatedUser(acc.id, acc.firstName, acc.lastName, norm, acc.username, b.role.value, acc.createdAt));
  }

  // ------------------------------------------------------------------
  // Properties

  /**
   * Without an identity the answer is 401; a caller whose account does not
   * carry the role `admin` gets 403. Neither changes anything.
   */
  lemma CreateUserNeedsAdmin(s: Registry, caller: Option<string>, body: Result<NewUserBody>, env: CreateUserEnv)
    ensures !Truthy(caller) ==> CreateUserState(s, caller, body, env) == (s, UserRefused(401, "No autorizado"))
    ensures Truthy(caller) && FindAccount(s.accounts, caller.value).Some?
            && FindAccount(s.accounts, caller.value).value.role != Some("admin")
            ==> CreateUserState(s, caller, body, env) == (s, UserRefused(403, "Sin permisos suficientes"))
  {
  }

  /**
   * The body checks: a falsy field answers "all fields required", then a role
   * other than `admin` or `empleado` answers "invalid role"; a body passing
   * both goes on.
   */
  lemma BodyChecks(b: NewUserBody)
    ensures BodyRejection(b) == Some(MissingFields) <==> !HasAllFields(b)
    ensures BodyRejection(b) == Some(InvalidRole)
            <==> HasAllFields(b) && b.role.value != "admin" && b.role.value != "empleado"
    ensures BodyRejection(b).None?
            <==> HasAllFields(b) && (b.role.value == "admin" || b.role.value == "empleado")
  {
  }

  /** An administrator's request with a rejected body answers 400 and changes nothing. */
  lemma RejectedBodyAnswers400(s: Registry, caller: Option<string>, b: NewUserBody, env: CreateUserEnv)
    requires Truthy(caller) && FindAccount(s.accounts, caller.value).Some?
    requires FindAccount(s.accounts, caller.value).value.role == Some("admin")
    requires BodyRejection(b).Some?
    ensures CreateUserState(s, caller, Ok(b), env) == (s, UserRefused(400, BodyRejection(b).value))
  {
  }

  /** `toLowerCase` leaves white space alone and maps nothing else onto it. */
  lemma LowerCharWhite(c: char)
    ensures IsWhite(LowerChar(c)) <==> IsWhite(c)
  {
  }

  /** Normalising an address twice gives the same address as normalising it once. */
  lemma {:induction false} NormalizeEmailIdempotent(email: string)
    ensures NormalizeEmail(NormalizeEmail(email)) == NormalizeEmail(email)
  {
    var n := NormalizeEmail(email);
    var t := Trim(email);
    if n != [] {
      LowerCharWhite(t[0]);
      LowerCharWhite(t[|t| - 1]);
    }
    TrimOfTrimmed(n);
    assert Lower(n) == n by {
      forall i | 0 <= i < |n| ensures Lower(n)[i] == n[i] {
        assert n[i] == LowerChar(t[i]);
      }
    }
  }

  /**
   * When the searches answer, an address already listed by some account
   * answers 409 before any account is created; so does one matching an
   * address of the first 500 accounts in another letter case.
   */
  lemma DuplicateAnswers409(s: Registry, caller: Option<string>, b: NewUserBody, env: CreateUserEnv, a: Account)
    requires Truthy(caller) && FindAccount(s.accounts, caller.value).Some?
    requires FindAccount(s.accounts, caller.value).value.role == Some("admin")
    requires BodyRejection(b).None?
    requires env.exactSearch.Done? && env.broadSearch.Done?
    requires a in Take(s.accounts, 500)
    requires exists e | e in a.emails :: Lower(e) == NormalizeEmail(b.email.value)
    ensures CreateUserState(s, caller, Ok(b), env).0 == s
    ensures CreateUserState(s, caller, Ok(b), env).1.UserRefused?
    ensures CreateUserState(s, caller, Ok(b), env).1.status == 409
  {
    assert a in s.accounts;
  }

  /** A failed search does not refuse anything: it only skips the checks it would have made. */
  lemma FailedSearchSkipsCheck(accounts: seq<Account>, norm: string, env: CreateUserEnv)
    ensures env.exactSearch.Failed? ==> DuplicateRejection(accounts, norm, env).None?
    ensures env.exactSearch.Done? && env.broadSearch.Failed?
            ==> (DuplicateRejection(accounts, norm, env).Some? <==> exists a | a in accounts :: norm in a.emails)
  {
  }

  /** The username uses only ASCII letters, digits and `_`. */
  lemma UsernameAlphabet(email: string, now: nat)
    ensures forall i | 0 <= i < |Username(email, now)| :: IsAsciiAlnum(Username(email, now)[i]) || Username(email, now)[i] == '_'
  {
    var p := Underscored(EmailPrefix(email));
    var d := TakeLast(NatToString(now), 6);
    assert Username(email, now) == p + "_" + d;
    forall i | 0 <= i < |d| ensures IsAsciiAlnum(d[i]) {
      assert d[i] == NatToString(now)[|NatToString(now)| - |d| + i];
    }
  }

  function Pow10(k: nat): (r: nat)
    ensures r >= 1
  {
    if k == 0 then 1 else 10 * Pow10(k - 1)
  }

  /** The last `k` characters of a digit string are digits. */
  lemma LastDigitsAreDigits(s: string, k: nat)
    requires AllDigits(s)
    ensures AllDigits(TakeLast(s, k))
  {
    var t := TakeLast(s, k);
    forall i | 0 <= i < |t| ensures IsDigit(t[i]) {
      assert t[i] == s[|s| - |t| + i];
    }
  }

  /** Taking the last `k` characters of `q + [c]` takes the last `k - 1` of `q`, then `c`. */
  lemma TakeLastSnoc(q: string, c: char, k: nat)
    requires k >= 1
    ensures TakeLast(q + [c], k) == TakeLast(q, k - 1) + [c]
  {
  }

  lemma DigitsValueSnoc(u: string, c: char)
    requires AllDigits(u) && IsDigit(c)
    ensures AllDigits(u + [c])
    ensures DigitsValue(u + [c]) == DigitsValue(u) * 10 + (c as int - '0' as int)
  {
    assert (u + [c])[..|u + [c]| - 1] == u;
  }

  /** `n.toString().slice(-k)` is the value `n % 10^k` written out. */
  lemma LastDigitsValue(n: nat, k: nat)
    ensures AllDigits(TakeLast(NatToString(n), k))
    ensures DigitsValue(TakeLast(NatToString(n), k)) == n % Pow10(k)
  {
    NatToStringValue(n);
    TakeLastValue(NatToString(n), k);
  }

  /** The last `k` characters of a digit string are worth its value modulo `10^k`. */
  lemma {:induction false} TakeLastValue(s: string, k: nat)
    requires AllDigits(s)
    ensures AllDigits(TakeLast(s, k))
    ensures DigitsValue(TakeLast(s, k)) == DigitsValue(s) % Pow10(k)
    decreases |s|
  {
    LastDigitsAreDigits(s, k);
    if k == 0 || s == [] {
      assert TakeLast(s, k) == [];
      ModUnique(DigitsValue(s), Pow10(k), DigitsValue(s) / Pow10(k), DigitsValue(s) % Pow10(k));
    } else {
      var u := s[..|s| - 1];
      assert s == u + [s[|s| - 1]];
      TakeLastValue(u, k - 1);
      TakeLastValueStep(u, s[|s| - 1], k);
    }
  }

  /** The inductive step of `TakeLastValue`: one more digit on the right. */
  lemma TakeLastValueStep(u: string, c: char, k: nat)
    requires AllDigits(u) && IsDigit(c) && k >= 1
    requires AllDigits(TakeLast(u, k - 1))
    requires DigitsValue(TakeLast(u, k - 1)) == DigitsValue(u) % Pow10(k - 1)
    ensures AllDigits(u + [c]) && AllDigits(TakeLast(u + [c], k))
    ensures DigitsValue(TakeLast(u + [c], k)) == DigitsValue(u + [c]) % Pow10(k)
  {
    TakeLastSnocValue(u, c, k);
    DigitsValueSnoc(u, c);
    AppendDigitMod(DigitsValue(u + [c]), DigitsValue(u), c as int - '0' as int, Pow10(k - 1));
  }

  /** The value of the last `k` characters of `u + [c]`: those of the last `k - 1` of `u`, then `c`. */
  lemma TakeLastSnocValue(u: string, c: char, k: nat)
    requires AllDigits(u) && IsDigit(c) && k >= 1
    ensures AllDigits(TakeLast(u, k - 1)) && AllDigits(TakeLast(u + [c], k))
    ensures DigitsValue(TakeLast(u + [c], k)) == DigitsValue(TakeLast(u, k - 1)) * 10 + (c as int - '0' as int)
  {
    LastDigitsAreDigits(u, k - 1);
    TakeLastSnoc(u, c, k);
    DigitsValueSnoc(TakeLast(u, k - 1), c);
  }

  /** Appending digit `d` to a number appends `d` to its remainder modulo `m`, scaled to `10 * m`. */
  lemma AppendDigitMod(x: nat, q: nat, d: int, m: nat)
    requires x == q * 10 + d && 0 <= d < 10 && m >= 1
    ensures (q % m) * 10 + d == x % (10 * m)
  {
    ModUnique(x, 10, q, d);
    ModStep(x, m);
  }

  /** Division with remainder has one answer. */
  lemma ModUnique(n: int, d: int, a: int, y: int)
    requires d > 0 && n == d * a + y && 0 <= y < d
    ensures n % d == y && n / d == a
  {
    var k := n / d - a;
    assert d * (n / d) + n % d == n;
    assert d * k == d * (n / d) - d * a;
    MulSmall(d, k);
  }

  /** A multiple of `d` strictly between `-d` and `d` is zero. */
  lemma MulSmall(d: int, k: int)
    requires d > 0
    ensures -d < d * k < d ==> k == 0
  {
    if k >= 1 {
      MulNonNegative(d, k - 1);
      assert d * k == d * (k - 1) + d;
    } else if k <= -1 {
      MulNonNegative(d, -k - 1);
      assert d * k == -(d * (-k - 1)) - d;
    }
  }

  lemma MulNonNegative(a: int, b: int)
    requires a >= 0 && b >= 0
    ensures a * b >= 0
  {
  }

  /** `((n / 10) % m) * 10 + n % 10 == n % (10 * m)`. */
  lemma ModStep(n: nat, m: nat)
    requires m >= 1
    ensures ((n / 10) % m) * 10 + n % 10 == n % (10 * m)
  {
    var q := n / 10;
    var a := q / m;
    var b := q % m;
    assert n == 10 * q + n % 10;
    assert q == m * a + b;
    assert n == (10 * m) * a + (10 * b + n % 10);
    ModUnique(n, 10 * m, a, 10 * b + n % 10);
  }

  /**
   * The username is the underscored prefix, `_` and the clock's last six
   * digits: once the clock has six digits the suffix is exactly six digits
   * long and worth `now % 1000000`.
   */
  lemma UsernameShape(email: string, now: nat)
    ensures var d := TakeLast(NatToString(now), 6);
            && Username(email, now) == Underscored(EmailPrefix(email)) + "_" + d
            && AllDigits(d) && DigitsValue(d) == now % 1000000
            && (now >= 100000 ==> |d| == 6)
  {
    LastDigitsValue(now, 6);
    assert Pow10(6) == 1000000;
    if now >= 100000 {
      NatToStringLength(now, 5);
    }
  }

  /** A number of at least `10^k` is written with more than `k` digits. */
  lemma {:induction false} NatToStringLength(n: nat, k: nat)
    requires n >= Pow10(k)
    ensures |NatToString(n)| > k
  {
    if k > 0 {
      assert n >= 10;
      assert n / 10 >= Pow10(k - 1);
      NatToStringLength(n / 10, k - 1);
    }
  }

  /**
   * A successful creation appends exactly one account, carrying the
   * normalised address, the trimmed names and the derived username, and
   * answers 201 with the same values and the requested role.
   */
  lemma CreatedAccount(s: Registry, caller: Option<string>, b: NewUserBody, env: CreateUserEnv)
    ensures var (t, res) := CreateUserState(s, caller, Ok(b), env);
            res.UserCreated? ==>
              && |t.accounts| == |s.accounts| + 1
              && t.accounts[..|s.accounts|] == s.accounts
              && var a := t.accounts[|s.accounts|];
                 && a.emails == [NormalizeEmail(b.email.value)] && res.user.email == NormalizeEmail(b.email.value)
                 && a.firstName == Trim(b.firstName.value) == res.user.firstName
                 && a.lastName == Trim(b.lastName.value) == res.user.lastName
                 && a.username == Username(b.email.value, env.now) == res.user.username
                 && res.user.role == b.role.value && (res.user.role == "admin" || res.user.role == "empleado")
                 && (a.role == Some(b.role.value) <==> env.roleUpdate.Done?)
  {
    var (t, res) := CreateUserState(s, caller, Ok(b), env);
    if res.UserCreated? {
      assert BodyRejection(b).None? && env.create.Made?;
      assert (t, res) == StoreCreated(s, caller.value, b, env);
      var acc := NewAccount(env.create.id, b, Username(b.email.value, env.now), env.create.createdAt);
      assert t.accounts == s.accounts + [if env.roleUpdate.Done? then acc.(role := Some(b.role.value)) else acc];
      assert t.accounts[..|s.accounts|] == s.accounts;
    }
  }

  /**
   * A failed role assignment, mirror or activity log never fails the
   * request: the answer is the same whatever they answer.
   */
  lemma SideStepsIgnored(s: Registry, caller: Option<string>, body: Result<NewUserBody>, env: CreateUserEnv,
                         roleUpdate: Reply, sync: Reply, activityLog: Reply)
    ensures CreateUserState(s, caller, body, env).1
         == CreateUserState(s, caller, body, env.(roleUpdate := roleUpdate, sync := sync, activityLog := activityLog)).1
  {
    var env2 := env.(roleUpdate := roleUpdate, sync := sync, activityLog := activityLog);
    if Truthy(caller) && body.Ok? && HasAllFields(body.value) {
      var norm := NormalizeEmail(body.value.email.value);
      assert DuplicateRejection(s.accounts, norm, env) == DuplicateRejection(s.accounts, norm, env2);
    }
  }

  /**
   * The status of a thrown creation error: an e-mail issue of an error with
   * a status gives 422; otherwise a status of 422 or 400 is kept and
   * anything else gives 500.
   */
  lemma ThrownStatus(e: ProviderError)
    ensures var r := ThrownResponse(e);
            && r.UserRefused?
            && (r.status == 422 || r.status == 400 || r.status == 500)
            && (e.status != Some(422) && e.status != Some(400) && r.status != 500 ==> r.error == RegisteredInProvider)
            && (e.status.None? ==> r == UserRefused(500, InternalError))
            && (e.status == Some(400) && e.issues.None? ==> r == UserRefused(400, InvalidUserData))
            && (e.status == Some(422) ==> r.status == 422)
  {
  }

  /** A creation error leaves the registry as it was. */
  lemma ThrownChangesNothing(s: Registry, caller: Option<string>, body: Result<NewUserBody>, env: CreateUserEnv)
    requires env.create.Threw?
    ensures CreateUserState(s, caller, body, env).0 == s
    ensures CreateUserState(s, caller, body, env).1.UserRefused?
  {
  }
}
