/** RegistrationController.register: the form checks, in order, and the
    arguments handed to the registration service. */
module RegistrationController {
  import opened Wrappers
  import opened Transactions
  import opened Accounts
  import opened Store
  import BankAccountService

  /** Java's `trim` removes every leading and trailing character whose code
      is at most U+0020. */
  predicate IsSpace(c: char)
  {
    c <= ' '
  }

  function TrimStart(s: string): string
  {
    if s != [] && IsSpace(s[0]) then TrimStart(s[1..]) else s
  }

  function TrimEnd(s: string): string
  {
    if s != [] && IsSpace(s[|s| - 1]) then TrimEnd(s[..|s| - 1]) else s
  }

  function Trim(s: string): string
  {
    TrimEnd(TrimStart(s))
  }

  lemma {:induction false} TrimStartFacts(s: string)
    ensures TrimStart(s) == [] <==> forall i | 0 <= i < |s| :: IsSpace(s[i])
    ensures TrimStart(s) != [] ==> !IsSpace(TrimStart(s)[0])
    ensures forall c | !IsSpace(c) :: c in s <==> c in TrimStart(s)
  {
    if s != [] && IsSpace(s[0]) {
      TrimStartFacts(s[1..]);
      assert s == [s[0]] + s[1..];
      assert forall i | 1 <= i < |s| :: s[i] == s[1..][i - 1];
    }
  }

  lemma {:induction false} TrimEndFacts(s: string)
    ensures TrimEnd(s) == [] <==> forall i | 0 <= i < |s| :: IsSpace(s[i])
    ensures s != [] && !IsSpace(s[0]) ==> TrimEnd(s) != [] && TrimEnd(s)[0] == s[0]
    ensures TrimEnd(s) != [] ==> !IsSpace(TrimEnd(s)[|TrimEnd(s)| - 1])
    ensures forall c | !IsSpace(c) :: c in s <==> c in TrimEnd(s)
  {
    if s != [] && IsSpace(s[|s| - 1]) {
      var init := s[..|s| - 1];
      TrimEndFacts(init);
      assert s == init + [s[|s| - 1]];
      assert forall i | 0 <= i < |init| :: s[i] == init[i];
    }
  }

  /** The trimmed string is empty exactly when the string is all white
      space; otherwise it starts and ends with a visible character. Every
      visible character survives trimming. */
  lemma TrimSpec(s: string)
    ensures Trim(s) == [] <==> forall i | 0 <= i < |s| :: IsSpace(s[i])
    ensures Trim(s) != [] ==> !IsSpace(Trim(s)[0]) && !IsSpace(Trim(s)[|Trim(s)| - 1])
    ensures forall c | !IsSpace(c) :: c in s <==> c in Trim(s)
  {
    TrimStartFacts(s);
    TrimEndFacts(TrimStart(s));
  }

  /** Java's `String.length()`: the number of UTF-16 code units, two for a
      character beyond U+FFFF (a surrogate pair) and one for any other. */
  function Utf16Length(s: string): (n: nat)
    ensures |s| <= n <= 2 * |s|
    ensures (forall i | 0 <= i < |s| :: s[i] <= '\U{FFFF}') ==> n == |s|
  {
    if s == [] then 0
    else Utf16Length(s[..|s| - 1]) + (if s[|s| - 1] > '\U{FFFF}' then 2 else 1)
  }

  /** `x == null || x.trim().isEmpty()`. */
  predicate Blank(s: Option<string>)
  {
    s.None? || Trim(s.value) == []
  }

  datatype FormError = NameRequired | InvalidEmail | PasswordTooShort | PasswordMismatch

  datatype FormCheck =
    | Rejected(error: FormError)
    | Accepted(accountHolder: string, email: string, password: string)

  /** The four checks, in order; a form that passes them all is handed on
      with the name and the email trimmed and the password as typed. */
  function CheckForm(accountHolder: Option<string>, email: Option<string>, password: Option<string>,
                     confirmPassword: Option<string>): (r: FormCheck)
    ensures r == Rejected(NameRequired) <==> Blank(accountHolder)
    ensures r == Rejected(InvalidEmail) <==>
              !Blank(accountHolder) && (Blank(email) || '@' !in email.value)
    ensures r == Rejected(PasswordTooShort) <==>
              && !Blank(accountHolder) && !Blank(email) && '@' in email.value
              && (Blank(password) || Utf16Length(password.value) < 6)
    ensures r == Rejected(PasswordMismatch) <==>
              && !Blank(accountHolder) && !Blank(email) && '@' in email.value
              && !Blank(password) && Utf16Length(password.value) >= 6 && confirmPassword != password
    ensures r.Accepted? ==>
              && r.accountHolder == Trim(accountHolder.value)
              && r.email == Trim(email.value)
              && Some(r.password) == password == confirmPassword
    ensures r.Accepted? ==>
              && r.accountHolder != [] && !IsSpace(r.accountHolder[0])
              && '@' in r.email
              && Utf16Length(r.password) >= 6
  {
    if Blank(accountHolder) then Rejected(NameRequired)
    else if Blank(email) || '@' !in email.value then Rejected(InvalidEmail)
    else if Blank(password) || Utf16Length(password.value) < 6 then Rejected(PasswordTooShort)
    else if confirmPassword != password then Rejected(PasswordMismatch)
    else
      TrimSpec(accountHolder.value);
      TrimSpec(email.value);
      assert !IsSpace('@');
      Accepted(Trim(accountHolder.value), Trim(email.value), password.value)
  }

  /** Five characters, one of them beyond U+FFFF, make a six-unit password
      that the length check lets through. */
  lemma SurrogatePairCountsTwice()
    ensures Utf16Length("abcd\U{1F600}") == 6
    ensures CheckForm(Some("Ann"), Some("ann@bank"), Some("abcd\U{1F600}"), Some("abcd\U{1F600}"))
         == Accepted("Ann", "ann@bank", "abcd\U{1F600}")
  {
    var p := "abcd\U{1F600}";
    assert p[..|p| - 1] == "abcd";
    assert "abcd"[..3] == "abc" && "abc"[..2] == "ab" && "ab"[..1] == "a";
  }

  datatype RegisterOutcome =
    | FormRejected(error: FormError)
    | ServiceRejected(failure: Failure)
    | Registered(account: Account)

  /** `register`: a rejected form changes nothing; an accepted one calls the
      registration service with the trimmed name and email and the untrimmed
      password. */
  method Register(db: Ledger, accountHolder: Option<string>, email: Option<string>, password: Option<string>,
                  confirmPassword: Option<string>, draws: seq<real>, stamp: string, now: DateTime)
    returns (outcome: RegisterOutcome)
    requires db.Valid()
    requires forall i | 0 <= i < |draws| :: 0.0 <= draws[i] < 1.0
    modifies db
    ensures db.Valid()
    ensures var check := CheckForm(accountHolder, email, password, confirmPassword);
            && (check.Rejected? ==> outcome == FormRejected(check.error))
            && (check.Accepted? && EmailExists(old(db.accounts), check.email) ==> outcome == ServiceRejected(EmailTaken))
            && (outcome.Registered? ==>
                  && check.Accepted?
                  && outcome.account.accountHolder == check.accountHolder
                  && outcome.account.email == check.email
                  && outcome.account.password == check.password
                  && outcome.account.balance == 0.0
                  && outcome.account.createdAt == now
                  && 100000 <= outcome.account.accountNumber <= 999999
                  && outcome.account.accountNumber !in old(db.accounts)
                  && db.accounts == old(db.accounts)[outcome.account.accountNumber := outcome.account])
    ensures var check := CheckForm(accountHolder, email, password, confirmPassword);
            check.Accepted? ==>
              (outcome.Registered? <==>
                 && !EmailExists(old(db.accounts), check.email)
                 && (exists i | 0 <= i < |draws| :: BankAccountService.NumberFromDraw(draws[i]) !in old(db.accounts))
                 && !IdTaken(old(db.records), "TXN" + stamp))
    ensures outcome.Registered? ==>
              && |db.records| == |old(db.records)| + 1
              && db.records[..|old(db.records)|] == old(db.records)
              && var t := db.records[|old(db.records)|];
                 && t.accountNumber == outcome.account.accountNumber && t.transactionType == INITIAL_DEPOSIT
                 && t.amount == 0.0 && t.toAccount == None && t.description == Some("Account opening")
                 && t.fee == Some(0.0) && t.transactionId == "TXN" + stamp
    ensures !outcome.Registered? ==> db.accounts == old(db.accounts) && db.records == old(db.records)
  {
    var check := CheckForm(accountHolder, email, password, confirmPassword);
    if check.Rejected? {
      return FormRejected(check.error);
    }
    var registered := BankAccountService.RegisterAccount(db, check.accountHolder, check.email, check.password,
                                                         draws, stamp, now);
    if registered.Err? {
      return ServiceRejected(registered.error);
    }
    outcome := Registered(registered.value);
  }
}
