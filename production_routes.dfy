/** `app/routers/production_routes.py`: creating, listing and updating
    production records, on an in-memory producoes table. */
module ProductionRoutes {
  import opened Wrappers
  import opened Records
  import opened ProductionSchemas
  import Reports

  /** An `HTTPException`: its status code and detail. */
  datatype HttpError = HttpError(status: int, detail: string)

  const CowNotFound := HttpError(404, "Vaca não encontrada")
  const Duplicate := HttpError(409, "Produção já registrada para esta data")
  const RecordNotFound := HttpError(404, "Produção não encontrada")

  /** Python's name for the type of an optional quantity. */
  function TypeName(q: Option<real>): string
  {
    if q.None? then "NoneType" else "float"
  }

  /** The 400 raised when a quantity was set to null: the total's `+` fails and the update is rolled back. */
  function AddError(manha: Option<real>, tarde: Option<real>): (e: HttpError)
    ensures e.status == 400
  {
    HttpError(400, "Erro ao atualizar produção: unsupported operand type(s) for +: '"
      + TypeName(manha) + "' and '" + TypeName(tarde) + "'")
  }

  // ---- create_producao ----

  /** The cow exists and belongs to the user. */
  predicate OwnsCow(vacas: seq<Vaca>, userId: int, vacaId: int)
  {
    exists v :: v in vacas && v.id == vacaId && v.userId == userId
  }

  /** Some record of that cow is already dated that day. */
  predicate Taken(rows: seq<Producao>, vacaId: int, data: int)
  {
    exists i :: 0 <= i < |rows| && rows[i].vacaId == vacaId && rows[i].data == data
  }

  /** The row `create_producao` adds: the body's fields, the user, and the total of both milkings. */
  function NewRecord(id: int, userId: int, req: ProducaoCreate): (p: Producao)
    ensures p.total == p.manha + p.tarde
    ensures p.manha == req.manha && p.tarde == req.tarde && p.observacoes == req.observacoes
    ensures p.id == id && p.userId == userId && p.vacaId == req.vacaId && p.data == req.data
  {
    Producao(id, userId, req.vacaId, req.data, req.manha, req.tarde, req.manha + req.tarde, req.observacoes)
  }

  // ---- update_producao ----

  /** The index of the record with that id if it belongs to the user. */
  function FindOwned(rows: seq<Producao>, id: int, userId: int): (r: Option<nat>)
    ensures r.Some? ==> r.value < |rows| && rows[r.value].id == id && rows[r.value].userId == userId
    ensures r.None? ==> forall i :: 0 <= i < |rows| ==> !(rows[i].id == id && rows[i].userId == userId)
  {
    if rows == [] then None
    else if rows[0].id == id && rows[0].userId == userId then Some(0)
    else
      var rest := FindOwned(rows[1..], id, userId);
      if rest.Some? then Some(rest.value + 1) else None
  }

  /** The value a field ends with: the one set, or the one it had. */
  function Updated<T>(f: Field<T>, current: T): T
  {
    if f.Set? then f.value else current
  }

  /** A record after the update: the fields that were set, then the total recomputed. */
  function Applied(p: Producao, upd: ProducaoUpdate): (r: Result<Producao, HttpError>)
    ensures r.Err? <==> Updated(upd.manha, Some(p.manha)).None? || Updated(upd.tarde, Some(p.tarde)).None?
    ensures r.Ok? ==>
      r.value.id == p.id && r.value.userId == p.userId && r.value.vacaId == p.vacaId && r.value.data == p.data
    ensures r.Ok? ==> r.value.total == r.value.manha + r.value.tarde
    ensures r.Ok? ==> (upd.manha.Unset? ==> r.value.manha == p.manha) && (upd.tarde.Unset? ==> r.value.tarde == p.tarde)
    ensures r.Ok? ==> (upd.manha.Set? ==> upd.manha.value == Some(r.value.manha)) && (upd.tarde.Set? ==> upd.tarde.value == Some(r.value.tarde))
    ensures r.Ok? ==> r.value.observacoes == Updated(upd.observacoes, p.observacoes)
  {
    var manha := Updated(upd.manha, Some(p.manha));
    var tarde := Updated(upd.tarde, Some(p.tarde));
    if manha.None? || tarde.None? then Err(AddError(manha, tarde))
    else Ok(p.(manha := manha.value, tarde := tarde.value, total := manha.value + tarde.value,
               observacoes := Updated(upd.observacoes, p.observacoes)))
  }

  /** An update that sets nothing only recomputes the total, which a consistent record already has. */
  lemma EmptyUpdateKeeps(p: Producao)
    requires p.total == p.manha + p.tarde
    ensures Applied(p, ProducaoUpdate(Unset, Unset, Unset)) == Ok(p)
  {}

  // ---- get_producoes ----

  /** The filters of the listing: the user, the cow unless the id is absent or 0, and the inclusive dates. */
  predicate Matches(p: Producao, userId: int, vacaId: Option<int>, inicio: Option<int>, fim: Option<int>)
  {
    p.userId == userId && (vacaId.None? || vacaId.value == 0 || p.vacaId == vacaId.value)
    && Reports.InPeriod(p.data, inicio, fim)
  }

  function Listing(rows: seq<Producao>, userId: int, vacaId: Option<int>, inicio: Option<int>, fim: Option<int>): (ps: seq<Producao>)
    ensures forall p :: p in ps <==> p in rows && Matches(p, userId, vacaId, inicio, fim)
  {
    if rows == [] then []
    else
      var p := rows[|rows| - 1];
      Listing(rows[..|rows| - 1], userId, vacaId, inicio, fim) + (if Matches(p, userId, vacaId, inicio, fim) then [p] else [])
  }

  /** `offset(skip).limit(limit)`. */
  function Page(ps: seq<Producao>, skip: nat, limit: nat): (page: seq<Producao>)
    ensures |page| <= limit
    ensures skip >= |ps| ==> page == []
    ensures skip < |ps| ==> page == ps[skip..if skip + limit <= |ps| then skip + limit else |ps|]
  {
    var from := if skip <= |ps| then skip else |ps|;
    var to := if skip + limit <= |ps| then skip + limit else |ps|;
    ps[from..to]
  }

  /** A page holds only matching records, at most `limit` of them; the first page is all of them when they fit. */
  lemma ListingPage(rows: seq<Producao>, userId: int, vacaId: Option<int>, inicio: Option<int>, fim: Option<int>, skip: nat, limit: nat)
    ensures var page := Page(Listing(rows, userId, vacaId, inicio, fim), skip, limit);
      |page| <= limit && forall p :: p in page ==> p in rows && Matches(p, userId, vacaId, inicio, fim)
    ensures |Listing(rows, userId, vacaId, inicio, fim)| <= limit ==>
      Page(Listing(rows, userId, vacaId, inicio, fim), 0, limit) == Listing(rows, userId, vacaId, inicio, fim)
  {
    var ls := Listing(rows, userId, vacaId, inicio, fim);
    var page := Page(ls, skip, limit);
    forall p | p in page ensures p in ls {
      var k :| 0 <= k < |page| && page[k] == p;
      assert page[k] == ls[skip + k];
    }
    if |ls| <= limit {
      assert ls[0..|ls|] == ls;
    }
  }

  /** Pages of the same listing do not overlap: consecutive pages are consecutive slices. */
  lemma PagesConsecutive(ps: seq<Producao>, skip: nat, limit: nat)
    requires skip + limit <= |ps|
    ensures Page(ps, skip, limit) + Page(ps, skip + limit, limit) == Page(ps, skip, 2 * limit)
  {
    if skip + limit == |ps| {
      assert ps[skip..|ps|] + [] == ps[skip..|ps|];
    } else {
      var mid := skip + limit;
      var end := if mid + limit <= |ps| then mid + limit else |ps|;
      assert ps[skip..mid] + ps[mid..end] == ps[skip..end];
    }
  }

  // ---- the table ----

  /**
   * What the producoes table keeps true and the analytics rely on: each
   * total is the sum of its two milkings, a cow has at most one record a
   * day, and ids are unique and below the next one to be given out.
   */
  ghost predicate TableInvariant(rows: seq<Producao>, nextId: int)
  {
    (forall i :: 0 <= i < |rows| ==> rows[i].total == rows[i].manha + rows[i].tarde && rows[i].id < nextId)
    && (forall i, j :: 0 <= i < j < |rows| ==>
          rows[i].id != rows[j].id && !(rows[i].vacaId == rows[j].vacaId && rows[i].data == rows[j].data))
  }

  /** Replacing a record by one with the same id, cow and day and a consistent total keeps the invariant. */
  lemma ReplaceKeepsInvariant(rows: seq<Producao>, nextId: int, i: int, q: Producao)
    requires TableInvariant(rows, nextId) && 0 <= i < |rows|
    requires q.id == rows[i].id && q.vacaId == rows[i].vacaId && q.data == rows[i].data
    requires q.total == q.manha + q.tarde
    ensures TableInvariant(rows[i := q], nextId)
  {
    var after := rows[i := q];
    forall j, k | 0 <= j < k < |after|
      ensures after[j].id != after[k].id && !(after[j].vacaId == after[k].vacaId && after[j].data == after[k].data)
    {
      assert after[j].id == rows[j].id && after[j].vacaId == rows[j].vacaId && after[j].data == rows[j].data;
      assert after[k].id == rows[k].id && after[k].vacaId == rows[k].vacaId && after[k].data == rows[k].data;
    }
  }

  /**
   * The producoes table, in insertion order, and the id the next record
   * will get; every operation keeps `TableInvariant`.
   */
  class ProductionTable {
    var rows: seq<Producao>
    var nextId: int

    ghost predicate Valid()
      reads this
    {
      TableInvariant(rows, nextId)
    }

    constructor()
      ensures rows == [] && nextId == 1 && Valid()
    {
      rows := [];
      nextId := 1;
    }

    /** `create_producao(producao)` for the user, with `vacas` the cows table. */
    method CreateProducao(userId: int, vacas: seq<Vaca>, req: ProducaoCreate) returns (r: Result<Producao, HttpError>)
      requires Valid()
      modifies this
      ensures Valid()
      ensures !OwnsCow(vacas, userId, req.vacaId) ==> r == Err(CowNotFound)
      ensures OwnsCow(vacas, userId, req.vacaId) && Taken(old(rows), req.vacaId, req.data) ==> r == Err(Duplicate)
      ensures r.Err? ==> rows == old(rows) && nextId == old(nextId)
      ensures OwnsCow(vacas, userId, req.vacaId) && !Taken(old(rows), req.vacaId, req.data) ==>
        r == Ok(NewRecord(old(nextId), userId, req)) && rows == old(rows) + [r.value] && nextId == old(nextId) + 1
    {
      if !(exists v :: v in vacas && v.id == req.vacaId && v.userId == userId) {
        return Err(CowNotFound);
      }
      if exists i :: 0 <= i < |rows| && rows[i].vacaId == req.vacaId && rows[i].data == req.data {
        return Err(Duplicate);
      }
      var total := req.manha + req.tarde;
      var record := Producao(nextId, userId, req.vacaId, req.data, req.manha, req.tarde, total, req.observacoes);
      rows := rows + [record];
      nextId := nextId + 1;
      return Ok(record);
    }

    /** `get_producoes(vaca_id, data_inicio, data_fim, skip, limit)` for the user. */
    function GetProducoes(userId: int, vacaId: Option<int>, inicio: Option<int>, fim: Option<int>,
                          skip: int, limit: int): (page: seq<Producao>)
      reads this
      requires skip >= 0 && 1 <= limit <= 100
      ensures |page| <= limit
      ensures forall p :: p in page ==> p in rows && Matches(p, userId, vacaId, inicio, fim)
    {
      ListingPage(rows, userId, vacaId, inicio, fim, skip, limit);
      Page(Listing(rows, userId, vacaId, inicio, fim), skip, limit)
    }

    /** `update_producao(producao_id, producao_update)` for the user. */
    method UpdateProducao(userId: int, producaoId: int, upd: ProducaoUpdate) returns (r: Result<Producao, HttpError>)
      requires Valid()
      modifies this
      ensures Valid() && nextId == old(nextId)
      ensures FindOwned(old(rows), producaoId, userId).None? ==> r == Err(RecordNotFound) && rows == old(rows)
      ensures FindOwned(old(rows), producaoId, userId).Some? ==>
        var i := FindOwned(old(rows), producaoId, userId).value;
        r == Applied(old(rows)[i], upd) && rows == (if r.Ok? then old(rows)[i := r.value] else old(rows))
    {
      var found := FindOwned(rows, producaoId, userId);
      if found.None? {
        return Err(RecordNotFound);
      }
      var i := found.value;
      var producao := rows[i];
      var manha, tarde, observacoes := SetFields(producao, upd);
      if manha.None? || tarde.None? {
        return Err(AddError(manha, tarde));
      }
      producao := producao.(manha := manha.value, tarde := tarde.value, observacoes := observacoes);
      producao := producao.(total := producao.manha + producao.tarde);
      assert Applied(rows[i], upd) == Ok(producao);
      ReplaceKeepsInvariant(rows, nextId, i, producao);
      rows := rows[i := producao];
      return Ok(producao);
    }
  }

  /** The `setattr` loop over the fields of the update that were set: each one set replaces the record's. */
  method SetFields(producao: Producao, upd: ProducaoUpdate) returns (manha: Option<real>, tarde: Option<real>, observacoes: Option<string>)
    ensures manha == Updated(upd.manha, Some(producao.manha)) && tarde == Updated(upd.tarde, Some(producao.tarde))
    ensures observacoes == Updated(upd.observacoes, producao.observacoes)
  {
    manha, tarde, observacoes := Some(producao.manha), Some(producao.tarde), producao.observacoes;
    if upd.manha.Set? {
      manha := upd.manha.value;
    }
    if upd.tarde.Set? {
      tarde := upd.tarde.value;
    }
    if upd.observacoes.Set? {
      observacoes := upd.observacoes.value;
    }
  }

  /** Once a record is created, a second one for the same cow and day is refused. */
  lemma CreatedIsTaken(rows: seq<Producao>, id: int, userId: int, req: ProducaoCreate)
    ensures Taken(rows + [NewRecord(id, userId, req)], req.vacaId, req.data)
  {
    var all := rows + [NewRecord(id, userId, req)];
    assert all[|rows|].vacaId == req.vacaId && all[|rows|].data == req.data;
  }

  /** An update never changes which cow and day a record is for, so it cannot break their uniqueness. */
  lemma UpdateKeepsTaken(rows: seq<Producao>, i: int, upd: ProducaoUpdate, vacaId: int, data: int)
    requires 0 <= i < |rows| && Applied(rows[i], upd).Ok?
    ensures Taken(rows[i := Applied(rows[i], upd).value], vacaId, data) <==> Taken(rows, vacaId, data)
  {
    var after := rows[i := Applied(rows[i], upd).value];
    if Taken(rows, vacaId, data) {
      var k :| 0 <= k < |rows| && rows[k].vacaId == vacaId && rows[k].data == data;
      assert after[k].vacaId == vacaId && after[k].data == data;
    }
    if Taken(after, vacaId, data) {
      var k :| 0 <= k < |after| && after[k].vacaId == vacaId && after[k].data == data;
      assert rows[k].vacaId == vacaId && rows[k].data == data;
    }
  }
}
