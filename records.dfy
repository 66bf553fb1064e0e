/**
 * The two database rows the analytics read: a daily milk production record
 * and a cow. Dates are day ordinals (the count of days since 0001-01-01, as
 * Python's date.toordinal gives them), so "days between two dates" is a
 * subtraction.
 */
module Records {
  import opened Wrappers

  /** A row of the producoes table. */
  datatype Producao = Producao(
    id: int,
    userId: int,
    vacaId: int,
    data: int,
    manha: real,
    tarde: real,
    total: real,
    observacoes: Option<string>)

  /** A row of the vacas table; status defaults to "ativa". */
  datatype Vaca = Vaca(id: int, userId: int, nome: string, status: string)

  /** The order `order_by(Producao.data.desc())` gives a query result. */
  predicate NewestFirst(ps: seq<Producao>)
  {
    forall i, j :: 0 <= i < j < |ps| ==> ps[i].data >= ps[j].data
  }

  /** Every record carries the same date. */
  predicate AllSameDate(ps: seq<Producao>)
  {
    forall i :: 0 <= i < |ps| ==> ps[i].data == ps[0].data
  }

  /** The quantidade_total column, in record order. */
  function Totals(ps: seq<Producao>): (ys: seq<real>)
    ensures |ys| == |ps|
    ensures forall i :: 0 <= i < |ps| ==> ys[i] == ps[i].total
  {
    seq(|ps|, i requires 0 <= i < |ps| => ps[i].total)
  }

  /** Days from `base` to each record's date, in record order. */
  function Offsets(ps: seq<Producao>, base: int): (xs: seq<int>)
    ensures |xs| == |ps|
    ensures forall i :: 0 <= i < |ps| ==> xs[i] == ps[i].data - base
  {
    seq(|ps|, i requires 0 <= i < |ps| => ps[i].data - base)
  }

  /** The records of one cow, in table order (`filter(Producao.vaca_id == id)`). */
  function OfCow(table: seq<Producao>, vacaId: int): (ps: seq<Producao>)
    ensures |ps| <= |table|
    ensures forall p :: p in ps <==> p in table && p.vacaId == vacaId
  {
    if table == [] then []
    else if table[|table| - 1].vacaId == vacaId then OfCow(table[..|table| - 1], vacaId) + [table[|table| - 1]]
    else OfCow(table[..|table| - 1], vacaId)
  }

  /** `date.weekday()` of a day ordinal: 0 is Monday, as ordinal 1 (0001-01-01) is a Monday. */
  function Weekday(d: int): (w: int)
    ensures 0 <= w < 7
  {
    (d + 6) % 7
  }

  /** The next day is the next weekday, Sunday wrapping round to Monday. */
  lemma WeekdayNext(d: int)
    ensures Weekday(d + 1) == (Weekday(d) + 1) % 7
  {}
}
