/** `app/utils/security_config.py`: the security constants, password
    strength validation, input sanitising and the key generator. */
module SecurityConfig {
  import opened Wrappers
  import opened Text

  // ---- `class SecurityConfig` ----

  const MinPasswordLength: nat := 8
  const RequireUppercase := true
  const RequireLowercase := true
  const RequireNumbers := true
  const RequireSpecialChars := false

  /** Requests per minute, in general and for login attempts. */
  const DefaultRateLimit: nat := 100
  const AuthRateLimit: nat := 10

  const SecurityHeaders: seq<(string, string)> := [
    ("X-Content-Type-Options", "nosniff"),
    ("X-Frame-Options", "DENY"),
    ("X-XSS-Protection", "1; mode=block"),
    ("Strict-Transport-Security", "max-age=31536000; includeSubDomains"),
    ("Referrer-Policy", "strict-origin-when-cross-origin")
  ]

  /** The characters the (disabled) special-character rule would look for. */
  const SpecialChars := "!@#$%^&*()_+-=[]{}|;:,.<>?"

  // ---- validate_password ----

  /** One entry of the error list, in the order the checks run. */
  datatype PasswordError = Empty | TooShort | NoUppercase | NoLowercase | NoDigit | NoSpecial

  function PasswordMessage(e: PasswordError): string
  {
    match e
    case Empty => "Senha não pode estar vazia"
    case TooShort => "Senha deve ter pelo menos 8 caracteres"
    case NoUppercase => "Senha deve conter pelo menos uma letra maiúscula"
    case NoLowercase => "Senha deve conter pelo menos uma letra minúscula"
    case NoDigit => "Senha deve conter pelo menos um número"
    case NoSpecial => "Senha deve conter pelo menos um caractere especial"
  }

  /** Position of each check in the function. */
  function Rank(e: PasswordError): nat
  {
    match e
    case Empty => 0
    case TooShort => 1
    case NoUppercase => 2
    case NoLowercase => 3
    case NoDigit => 4
    case NoSpecial => 5
  }

  predicate HasUpper(p: string) { exists i | 0 <= i < |p| :: IsUpper(p[i]) }
  predicate HasLower(p: string) { exists i | 0 <= i < |p| :: IsLower(p[i]) }
  predicate HasDigit(p: string) { exists i | 0 <= i < |p| :: IsDigit(p[i]) }
  predicate HasSpecial(p: string) { exists i | 0 <= i < |p| :: p[i] in SpecialChars }

  /** The error list `validate_password` builds. */
  function PasswordErrors(p: string): seq<PasswordError>
  {
    if p == [] then [Empty]
    else
      (if |p| < MinPasswordLength then [TooShort] else [])
      + (if RequireUppercase && !HasUpper(p) then [NoUppercase] else [])
      + (if RequireLowercase && !HasLower(p) then [NoLowercase] else [])
      + (if RequireNumbers && !HasDigit(p) then [NoDigit] else [])
      + (if RequireSpecialChars && !HasSpecial(p) then [NoSpecial] else [])
  }

  /** What the configured policy asks of a password, independently of the error list. */
  predicate Strong(p: string)
  {
    |p| >= MinPasswordLength && HasUpper(p) && HasLower(p) && HasDigit(p)
  }

  /** `validate_password(password)`: the verdict and the error list. */
  method ValidatePassword(password: string) returns (ok: bool, errors: seq<PasswordError>)
    ensures errors == PasswordErrors(password)
    ensures ok <==> errors == []
  {
    errors := [];
    if |password| == 0 {
      errors := errors + [Empty];
      return false, errors;
    }
    if |password| < MinPasswordLength {
      errors := errors + [TooShort];
    }
    if RequireUppercase && !HasUpper(password) {
      errors := errors + [NoUppercase];
    }
    if RequireLowercase && !HasLower(password) {
      errors := errors + [NoLowercase];
    }
    if RequireNumbers && !HasDigit(password) {
      errors := errors + [NoDigit];
    }
    if RequireSpecialChars && !HasSpecial(password) {
      errors := errors + [NoSpecial];
    }
    ok := |errors| == 0;
  }

  /** The empty password gets exactly the one "vazia" error. */
  lemma EmptyPasswordErrors()
    ensures PasswordErrors("") == [Empty]
    ensures PasswordMessage(PasswordErrors("")[0]) == "Senha não pode estar vazia"
  {}

  /** For a non-empty password each error is listed iff its check fails; the special-character rule never fires. */
  lemma PasswordErrorsIff(p: string)
    requires p != []
    ensures Empty !in PasswordErrors(p) && NoSpecial !in PasswordErrors(p)
    ensures TooShort in PasswordErrors(p) <==> |p| < 8
    ensures NoUppercase in PasswordErrors(p) <==> !HasUpper(p)
    ensures NoLowercase in PasswordErrors(p) <==> !HasLower(p)
    ensures NoDigit in PasswordErrors(p) <==> !HasDigit(p)
  {
    var short := if |p| < MinPasswordLength then [TooShort] else [];
    var upper := if !HasUpper(p) then [NoUppercase] else [];
    var lower := if !HasLower(p) then [NoLowercase] else [];
    var digit := if !HasDigit(p) then [NoDigit] else [];
    assert PasswordErrors(p) == short + upper + lower + digit + [];
    assert forall e :: e in PasswordErrors(p) <==> e in short || e in upper || e in lower || e in digit;
  }

  /** The errors come in the order the checks run, each at most once. */
  lemma PasswordErrorsOrdered(p: string)
    ensures forall i, j :: 0 <= i < j < |PasswordErrors(p)| ==> Rank(PasswordErrors(p)[i]) < Rank(PasswordErrors(p)[j])
  {}

  /** The verdict is true exactly for the strong passwords. */
  lemma PasswordAcceptedIffStrong(p: string)
    ensures PasswordErrors(p) == [] <==> Strong(p)
  {
    if p != [] {
      PasswordErrorsIff(p);
    }
  }

  // ---- sanitize_input ----

  /** `dangerous_chars`, in the order they are removed. */
  const DangerousChars: seq<char> := ['<', '>', '&', '"', '\'', '/', '\\']

  /** `s.replace(c, "")`. */
  function RemoveChar(s: string, c: char): (r: string)
    ensures forall x :: x in r <==> x in s && x != c
  {
    if s == [] then []
    else RemoveChar(s[..|s| - 1], c) + (if s[|s| - 1] == c then [] else [s[|s| - 1]])
  }

  /** Removing each character of `cs` in turn. */
  function RemoveAll(s: string, cs: seq<char>): (r: string)
    ensures forall x :: x in r <==> x in s && x !in cs
  {
    if cs == [] then s else RemoveChar(RemoveAll(s, cs[..|cs| - 1]), cs[|cs| - 1])
  }

  /** What `sanitize_input` returns. */
  function Sanitized(text: string): string
  {
    if text == [] then "" else Strip(RemoveAll(text, DangerousChars))
  }

  /** `sanitize_input(text)`. */
  method SanitizeInput(text: string) returns (r: string)
    ensures r == Sanitized(text)
  {
    if |text| == 0 {
      return "";
    }
    var sanitized := text;
    for i := 0 to |DangerousChars|
      invariant sanitized == RemoveAll(text, DangerousChars[..i])
    {
      assert DangerousChars[..i + 1][..i] == DangerousChars[..i];
      sanitized := RemoveChar(sanitized, DangerousChars[i]);
    }
    assert DangerousChars[..|DangerousChars|] == DangerousChars;
    r := Strip(sanitized);
  }

  /** Removing a character that does not occur changes nothing. */
  lemma {:induction false} RemoveCharAbsent(s: string, c: char)
    requires c !in s
    ensures RemoveChar(s, c) == s
  {
    if s != [] {
      RemoveCharAbsent(s[..|s| - 1], c);
      assert s == s[..|s| - 1] + [s[|s| - 1]];
    }
  }

  lemma {:induction false} RemoveAllAbsent(s: string, cs: seq<char>)
    requires forall c :: c in cs ==> c !in s
    ensures RemoveAll(s, cs) == s
  {
    if cs != [] {
      RemoveAllAbsent(s, cs[..|cs| - 1]);
      RemoveCharAbsent(s, cs[|cs| - 1]);
    }
  }

  /**
   * The output has no dangerous character and no whitespace at either end,
   * every character of it comes from the input, and every safe
   * non-whitespace character of the input survives.
   */
  lemma SanitizedProperties(text: string)
    ensures forall c :: c in Sanitized(text) ==> c in text && c !in DangerousChars
    ensures Trimmed(Sanitized(text))
    ensures forall c :: c in text && c !in DangerousChars && !IsSpace(c) ==> c in Sanitized(text)
  {
    if text != [] {
      StripKeepsCharacters(RemoveAll(text, DangerousChars));
      StripKeepsSolid(RemoveAll(text, DangerousChars));
    }
  }

  /** Sanitising twice is sanitising once. */
  lemma SanitizedIdempotent(text: string)
    ensures Sanitized(Sanitized(text)) == Sanitized(text)
  {
    var once := Sanitized(text);
    SanitizedProperties(text);
    if once != [] {
      RemoveAllAbsent(once, DangerousChars);
      StripTrimmed(once);
    }
  }

  // ---- generate_secure_key ----

  /** `n` consecutive characters from `first` on. */
  function CharRange(first: char, n: nat): (r: string)
    requires first as int + n <= 0xD800
    ensures |r| == n
    ensures forall i :: 0 <= i < n ==> r[i] as int == first as int + i
  {
    seq(n, i requires 0 <= i < n => (first as int + i) as char)
  }

  /** `string.ascii_letters + string.digits`: a-z, A-Z, 0-9. */
  const Alphabet: string := CharRange('a', 26) + CharRange('A', 26) + CharRange('0', 10)

  const MinKeyLength := 16
  /** The default `length` of `generate_secure_key`. */
  const DefaultKeyLength := 32

  /** The re-raised `ValueError`'s message: the catch-all prefixes the original one. */
  const ShortKeyMessage := "Erro ao gerar chave: Comprimento mínimo da chave é 16 caracteres"

  /**
   * `generate_secure_key(length)`: `pick(i)` stands for the index
   * `secrets.choice` draws for the i-th character.
   */
  function GenerateSecureKey(length: int, pick: nat -> nat): (r: Result<string, string>)
    requires forall i: nat :: pick(i) < |Alphabet|
    ensures r.Err? <==> length < MinKeyLength
    ensures r.Err? ==> r.error == ShortKeyMessage
    ensures r.Ok? ==> |r.value| == length && forall i :: 0 <= i < |r.value| ==> r.value[i] == Alphabet[pick(i)]
  {
    if length < MinKeyLength then Err(ShortKeyMessage)
    else Ok(seq(length, i requires 0 <= i => Alphabet[pick(i)]))
  }

  /** Every character of the alphabet is an ASCII letter or digit. */
  lemma AlphabetAlphanumeric()
    ensures |Alphabet| == 62
    ensures forall c :: c in Alphabet ==> IsUpper(c) || IsLower(c) || IsDigit(c)
  {}

  /** A generated key is `length` ASCII letters and digits. */
  lemma SecureKeyAlphanumeric(length: int, pick: nat -> nat)
    requires forall i: nat :: pick(i) < |Alphabet|
    requires length >= MinKeyLength
    ensures var r := GenerateSecureKey(length, pick);
      r.Ok? && |r.value| == length &&
      forall i :: 0 <= i < |r.value| ==> IsUpper(r.value[i]) || IsLower(r.value[i]) || IsDigit(r.value[i])
  {
    AlphabetAlphanumeric();
    var r := GenerateSecureKey(length, pick);
    forall i | 0 <= i < |r.value|
      ensures IsUpper(r.value[i]) || IsLower(r.value[i]) || IsDigit(r.value[i])
    {
      assert r.value[i] in Alphabet;
    }
  }
}
