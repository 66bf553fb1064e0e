/** `app/schemas/production_schemas.py`: the request bodies for creating and
    updating a production record, and their quantity validators. */
module ProductionSchemas {
  import opened Wrappers

  const NegativeMessage := "Quantidade não pode ser negativa"
  const TooHighMessage := "Quantidade muito alta (máximo 100L)"

  /** The largest quantity, in litres, a milking may record. */
  const MaxQuantity: real := 100.0

  /** `ProducaoBase.validate_quantities`: the value itself, or the reason it is refused. */
  function ValidateQuantity(v: real): (r: Result<real, string>)
    ensures r.Ok? <==> 0.0 <= v <= MaxQuantity
    ensures r.Ok? ==> r.value == v
    ensures r.Err? ==> r.error == (if v < 0.0 then NegativeMessage else TooHighMessage)
  {
    if v < 0.0 then Err(NegativeMessage)
    else if v > 100.0 then Err(TooHighMessage)
    else Ok(v)
  }

  /** `ProducaoUpdate.validate_quantities`: a null passes through, anything else as above. */
  function ValidateOptionalQuantity(v: Option<real>): (r: Result<Option<real>, string>)
    ensures v.None? ==> r == Ok(None)
    ensures v.Some? ==> (r.Ok? <==> ValidateQuantity(v.value).Ok?)
    ensures v.Some? && r.Ok? ==> r.value == v
    ensures v.Some? && r.Err? ==> r.error == ValidateQuantity(v.value).error
  {
    if v.Some? then
      if v.value < 0.0 then Err(NegativeMessage)
      else if v.value > 100.0 then Err(TooHighMessage)
      else Ok(v)
    else Ok(v)
  }

  /** The messages of a failed validation, one per failing field (none when it passes). */
  function Messages<T>(r: Result<T, string>): (ms: seq<string>)
    ensures |ms| <= 1 && (ms == [] <==> r.Ok?)
  {
    if r.Err? then [r.error] else []
  }

  /** A validated `ProducaoCreate` body. */
  datatype ProducaoCreate = ProducaoCreate(vacaId: int, data: int, manha: real, tarde: real, observacoes: Option<string>)

  /**
   * Building a `ProducaoCreate` from a request: a quantity left out takes
   * its default of 0 (defaults are not validated); the errors of both
   * quantities are reported together, morning first.
   */
  function ParseProducaoCreate(vacaId: int, data: int, manha: Option<real>, tarde: Option<real>,
                               observacoes: Option<string>): (r: Result<ProducaoCreate, seq<string>>)
    ensures r.Ok? <==> (manha.None? || 0.0 <= manha.value <= MaxQuantity) && (tarde.None? || 0.0 <= tarde.value <= MaxQuantity)
    ensures r.Ok? ==> r.value.vacaId == vacaId && r.value.data == data && r.value.observacoes == observacoes
    ensures r.Ok? ==> r.value.manha == (if manha.Some? then manha.value else 0.0)
    ensures r.Ok? ==> r.value.tarde == (if tarde.Some? then tarde.value else 0.0)
    ensures r.Err? ==> 1 <= |r.error| <= 2
  {
    var m := if manha.Some? then ValidateQuantity(manha.value) else Ok(0.0);
    var t := if tarde.Some? then ValidateQuantity(tarde.value) else Ok(0.0);
    if m.Ok? && t.Ok? then Ok(ProducaoCreate(vacaId, data, m.value, t.value, observacoes))
    else Err(Messages(m) + Messages(t))
  }

  /** A field of an update body: left out (`exclude_unset` drops it), or set to a value. */
  datatype Field<T> = Unset | Set(value: T)

  /**
   * A validated `ProducaoUpdate` body. Its only fields are the two
   * quantities (which may be set to null) and the observations: the cow and
   * the date cannot be updated.
   */
  datatype ProducaoUpdate = ProducaoUpdate(manha: Field<Option<real>>, tarde: Field<Option<real>>, observacoes: Field<Option<string>>)

  function ValidateField(f: Field<Option<real>>): (r: Result<Field<Option<real>>, string>)
    ensures r.Ok? ==> r.value == f
    ensures r.Ok? <==> f.Unset? || ValidateOptionalQuantity(f.value).Ok?
  {
    if f.Unset? then Ok(f)
    else
      var v := ValidateOptionalQuantity(f.value);
      if v.Ok? then Ok(f) else Err(v.error)
  }

  function ParseProducaoUpdate(manha: Field<Option<real>>, tarde: Field<Option<real>>,
                               observacoes: Field<Option<string>>): (r: Result<ProducaoUpdate, seq<string>>)
    ensures r.Ok? <==> ValidateField(manha).Ok? && ValidateField(tarde).Ok?
    ensures r.Ok? ==> r.value == ProducaoUpdate(manha, tarde, observacoes)
    ensures r.Err? ==> 1 <= |r.error| <= 2
  {
    var m := ValidateField(manha);
    var t := ValidateField(tarde);
    if m.Ok? && t.Ok? then Ok(ProducaoUpdate(manha, tarde, observacoes))
    else Err(Messages(m) + Messages(t))
  }

  /** The boundaries are accepted and the values around them refused, with the matching message. */
  lemma QuantityBoundaries()
    ensures ValidateQuantity(0.0) == Ok(0.0) && ValidateQuantity(100.0) == Ok(100.0)
    ensures ValidateQuantity(-0.5) == Err(NegativeMessage) && ValidateQuantity(100.5) == Err(TooHighMessage)
  {}

  /** Validation never changes an accepted value: validating again gives the same result. */
  lemma ValidateQuantityIdempotent(v: real)
    requires ValidateQuantity(v).Ok?
    ensures ValidateQuantity(ValidateQuantity(v).value) == ValidateQuantity(v)
  {}

  /** Both quantities are reported when both are out of range. */
  lemma BothQuantitiesReported(manha: real, tarde: real, vacaId: int, data: int)
    requires manha < 0.0 && tarde > MaxQuantity
    ensures ParseProducaoCreate(vacaId, data, Some(manha), Some(tarde), None) == Err([NegativeMessage, TooHighMessage])
  {
    assert Messages(ValidateQuantity(manha)) == [NegativeMessage];
    assert Messages(ValidateQuantity(tarde)) == [TooHighMessage];
    assert [NegativeMessage] + [TooHighMessage] == [NegativeMessage, TooHighMessage];
  }

  /** An empty body creates a record of zero litres in both milkings. */
  lemma CreateDefaults(vacaId: int, data: int)
    ensures ParseProducaoCreate(vacaId, data, None, None, None) == Ok(ProducaoCreate(vacaId, data, 0.0, 0.0, None))
  {}
}
