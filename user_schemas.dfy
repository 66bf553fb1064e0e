/** `app/schemas/user_schemas.py`: the validators of the user name and of a
    new account's password. */
module UserSchemas {
  import opened Wrappers
  import opened Text
  import SecurityConfig

  const EmptyNameMessage := "Nome não pode estar vazio"
  const MissingPasswordMessage := "Senha é obrigatória"
  const ShortPasswordMessage := "Senha deve ter pelo menos 6 caracteres"

  /** The shortest password an account may be created with. */
  const MinLength := 6

  /** `UserBase.nome_must_not_be_empty`: the stripped name, or the refusal. */
  function ValidateNome(v: string): (r: Result<string, string>)
    ensures r.Err? ==> r.error == EmptyNameMessage
  {
    if v == [] || Strip(v) == [] then Err(EmptyNameMessage) else Ok(Strip(v))
  }

  /**
   * A name is refused exactly when it is empty or only whitespace; an
   * accepted name is stored stripped, non-empty, with every non-whitespace
   * character of the input.
   */
  lemma ValidateNomeMeaning(v: string)
    ensures ValidateNome(v).Err? <==> AllSpace(v)
    ensures ValidateNome(v).Ok? ==>
      ValidateNome(v).value != [] && Trimmed(ValidateNome(v).value) &&
      (forall c :: c in v && !IsSpace(c) ==> c in ValidateNome(v).value)
  {
    StripEmptyIffAllSpace(v);
    StripKeepsSolid(v);
  }

  /** Validating a stored name again leaves it as it is. */
  lemma ValidateNomeIdempotent(v: string)
    requires ValidateNome(v).Ok?
    ensures ValidateNome(ValidateNome(v).value) == ValidateNome(v)
  {
    StripIdempotent(v);
  }

  /** `UserCreate.password_must_be_strong`: the password unchanged, or the refusal. */
  function ValidatePassword(v: string): (r: Result<string, string>)
    ensures r.Ok? <==> |v| >= MinLength
    ensures r.Ok? ==> r.value == v
    ensures r.Err? ==> r.error == (if v == [] then MissingPasswordMessage else ShortPasswordMessage)
  {
    if v == [] then Err(MissingPasswordMessage)
    else if |v| < 6 then Err(ShortPasswordMessage)
    else Ok(v)
  }

  /** A three-digit password is refused (the request fails validation). */
  lemma ShortPasswordRefused()
    ensures ValidatePassword("123") == Err(ShortPasswordMessage)
    ensures ValidatePassword("") == Err(MissingPasswordMessage)
  {}

  /**
   * The account schema is weaker than the password policy of the security
   * settings: every password that policy accepts is accepted here, but not
   * the other way round.
   */
  lemma SchemaWeakerThanPolicy(p: string)
    ensures SecurityConfig.PasswordErrors(p) == [] ==> ValidatePassword(p).Ok?
    ensures ValidatePassword("abcdef").Ok? && SecurityConfig.PasswordErrors("abcdef") != []
  {
    SecurityConfig.PasswordAcceptedIffStrong(p);
    SecurityConfig.PasswordErrorsIff("abcdef");
    assert |"abcdef"| == 6;
  }
}
