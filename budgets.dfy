/** The budget list page: the rows of `GET /orcamentos` are filtered, on the
    client, to those of the logged-in user, and rendered with their text
    cells escaped. */
module Budgets {
  import opened Wrappers
  import opened JsText
  import opened HtmlEscape
  import opened Preferences

  /** A budget row as the list endpoint returns it. `usuarioId` is `None`
      for an SQL NULL. The two amount columns are not modelled. */
  datatype BudgetRow = BudgetRow(id: int, titulo: JsValue, ano: JsValue, descricao: JsValue, usuarioId: Option<int>)

  /** `Number(o.usuario_id)`: a NULL owner arrives as `null`, which is 0. */
  function OwnerNumber(usuarioId: Option<int>): int {
    usuarioId.GetOr(0)
  }

  /** The test inside the filter: `Number(o.usuario_id) === Number(usuario.id)`. */
  predicate OwnedBy(o: BudgetRow, session: Session) {
    OwnerNumber(o.usuarioId) == session.id
  }

  /** `dados.filter(o => Number(o.usuario_id) === Number(usuario.id))`: the
      rows owned by the session user, and only those. */
  function OwnRows(rows: seq<BudgetRow>, session: Session): (mine: seq<BudgetRow>)
    ensures |mine| <= |rows|
    ensures forall o | o in mine :: o in rows && OwnedBy(o, session)
    ensures forall o | o in rows && OwnedBy(o, session) :: o in mine
  {
    if rows == [] then []
    else (if OwnedBy(rows[0], session) then [rows[0]] else []) + OwnRows(rows[1..], session)
  }

  /** Filtering a concatenation filters each part: kept rows keep their
      relative order. */
  lemma {:induction false} OwnRowsAppend(a: seq<BudgetRow>, b: seq<BudgetRow>, session: Session)
    ensures OwnRows(a + b, session) == OwnRows(a, session) + OwnRows(b, session)
  {
    if a == [] {
      assert a + b == b;
    } else {
      assert (a + b)[1..] == a[1..] + b;
      OwnRowsAppend(a[1..], b, session);
    }
  }

  /** Every position moved one to the right. */
  function Shift(idx: seq<nat>): (s: seq<nat>)
    ensures |s| == |idx|
    ensures forall k | 0 <= k < |idx| :: s[k] == idx[k] + 1
  {
    seq(|idx|, k requires 0 <= k < |idx| => idx[k] + 1)
  }

  /** The positions in `rows` of the rows the filter keeps. */
  function KeptPositions(rows: seq<BudgetRow>, session: Session): seq<nat> {
    if rows == [] then []
    else
      var tail := Shift(KeptPositions(rows[1..], session));
      if OwnedBy(rows[0], session) then [0] + tail else tail
  }

  lemma {:induction false} KeptPositionsMatch(rows: seq<BudgetRow>, session: Session)
    ensures var idx, mine := KeptPositions(rows, session), OwnRows(rows, session);
      && |idx| == |mine|
      && forall k | 0 <= k < |idx| :: idx[k] < |rows| && rows[idx[k]] == mine[k]
  {
    if rows != [] {
      var rest := rows[1..];
      KeptPositionsMatch(rest, session);
      var t := KeptPositions(rest, session);
      var tail := Shift(t);
      forall k | 0 <= k < |tail|
        ensures tail[k] < |rows| && rows[tail[k]] == OwnRows(rest, session)[k]
      {
        assert rows[tail[k]] == rest[t[k]];
      }
    }
  }

  predicate Increasing(idx: seq<nat>) {
    forall k, l | 0 <= k < l < |idx| :: idx[k] < idx[l]
  }

  lemma {:induction false} KeptPositionsIncrease(rows: seq<BudgetRow>, session: Session)
    ensures Increasing(KeptPositions(rows, session))
  {
    if rows != [] {
      KeptPositionsIncrease(rows[1..], session);
      var t := KeptPositions(rows[1..], session);
      var tail := Shift(t);
      assert Increasing(tail) by {
        forall k, l | 0 <= k < l < |tail| ensures tail[k] < tail[l] {
          assert t[k] < t[l];
        }
      }
      assert forall k | 0 <= k < |tail| :: tail[k] > 0;
    }
  }

  lemma {:induction false} KeptPositionsExact(rows: seq<BudgetRow>, session: Session)
    ensures var idx := KeptPositions(rows, session);
      forall j | 0 <= j < |rows| :: OwnedBy(rows[j], session) <==> j in idx
  {
    if rows != [] {
      var rest := rows[1..];
      KeptPositionsExact(rest, session);
      var t := KeptPositions(rest, session);
      var tail := Shift(t);
      var idx := KeptPositions(rows, session);
      assert 0 !in tail;
      forall j | 1 <= j < |rows|
        ensures OwnedBy(rows[j], session) <==> j in idx
      {
        assert rows[j] == rest[j - 1];
        if j - 1 in t {
          var k :| 0 <= k < |t| && t[k] == j - 1;
          assert tail[k] == j;
        }
      }
    }
  }

  /** The filter's output is the subsequence of its input at increasing
      positions, and those positions are exactly those of the owned rows. */
  lemma OwnRowsIsSubsequence(rows: seq<BudgetRow>, session: Session)
    ensures var idx, mine := KeptPositions(rows, session), OwnRows(rows, session);
      && |idx| == |mine|
      && (forall k | 0 <= k < |idx| :: idx[k] < |rows| && rows[idx[k]] == mine[k])
      && Increasing(idx)
      && (forall j | 0 <= j < |rows| :: OwnedBy(rows[j], session) <==> j in idx)
  {
    KeptPositionsMatch(rows, session);
    KeptPositionsIncrease(rows, session);
    KeptPositionsExact(rows, session);
  }

  /** The text cells of a rendered row: title, year and description, each
      through `escapeHTML`; the description as `o.descricao || ""`. */
  datatype RenderedRow = RenderedRow(titulo: string, ano: string, descricao: string)

  /** A row's cells carry no markup characters and decode to the values the
      server sent; a falsy description (including 0) shows as empty. */
  function RenderRow(o: BudgetRow): (r: RenderedRow)
    ensures MarkupFree(r.titulo) && MarkupFree(r.ano) && MarkupFree(r.descricao)
    ensures Truthy(o.titulo) ==> Unescape(r.titulo) == ToJsString(o.titulo)
    ensures o.ano.Num? ==> r.ano == IntToString(o.ano.n)
    ensures Unescape(r.descricao) == if Truthy(o.descricao) then ToJsString(o.descricao) else ""
  {
    RenderedRow(EscapeHtml(o.titulo), EscapeHtml(o.ano), EscapeHtml(Or(o.descricao, Str(""))))
  }

  /** The outcome of the `fetch` of the list: a non-OK status, a body (whose
      `null` is `None`), or a rejected request or unreadable body. */
  datatype Response = NotOk | Body(dados: Option<seq<BudgetRow>>) | Failed

  /** What the table body ends up showing. */
  datatype Listing =
    | LoadError          // "Erro ao carregar orçamentos"
    | GoToLogin          // no session: back to index.html
    | NoBudgets          // "Nenhum orçamento cadastrado."
    | Table(rows: seq<RenderedRow>)
    | ConnectionError    // "Erro ao conectar com o servidor."

  /** `listarOrcamentos` once the request has settled. */
  function ListBudgets(response: Response, session: Option<Session>): (v: Listing)
    ensures v.LoadError? <==> response.NotOk?
    ensures v.ConnectionError? <==> response.Failed?
    ensures v.GoToLogin? <==> response.Body? && session.None?
    ensures v.NoBudgets? <==> response.Body? && session.Some? && OwnRows(response.dados.GetOr([]), session.value) == []
    ensures v.Table? ==>
      var mine := OwnRows(response.dados.GetOr([]), session.value);
      && |v.rows| == |mine| > 0
      && forall i | 0 <= i < |mine| :: v.rows[i] == RenderRow(mine[i])
  {
    match response
    case NotOk => LoadError
    case Failed => ConnectionError
    case Body(dados) =>
      match session
      case None => GoToLogin
      case Some(usuario) =>
        var mine := OwnRows(dados.GetOr([]), usuario);
        if |mine| == 0 then NoBudgets
        else Table(seq(|mine|, i requires 0 <= i < |mine| => RenderRow(mine[i])))
  }
}
