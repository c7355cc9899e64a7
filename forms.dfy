/** The input guards of the three forms, applied to the values after
    `trim()` (and, for the year, after `parseInt`), and what the budget form
    posts when they pass. */
module Forms {
  import opened Wrappers
  import opened JsText
  import opened HtmlEscape
  import opened Preferences
  import opened Budgets

  /** `registrar`: the request is sent only when no trimmed field is empty;
      otherwise the user is asked to fill in name, e-mail and password. */
  datatype Registration = FillInAllFields | Register(nome: string, email: string, senha: string)

  function RegistrationRequest(nome: string, email: string, senha: string): (r: Registration)
    ensures r.Register? <==> nome != "" && email != "" && senha != ""
    ensures r.Register? ==> r.nome == nome && r.email == email && r.senha == senha
  {
    if nome == "" || email == "" || senha == "" then FillInAllFields else Register(nome, email, senha)
  }

  /** `login`: the request is sent only when e-mail and password are both
      non-empty. */
  datatype LoginAttempt = FillInCredentials | LogIn(email: string, senha: string)

  function LoginRequest(email: string, senha: string): (r: LoginAttempt)
    ensures r.LogIn? <==> email != "" && senha != ""
    ensures r.LogIn? ==> r.email == email && r.senha == senha
  {
    if email == "" || senha == "" then FillInCredentials else LogIn(email, senha)
  }

  /** The fields of `POST /orcamentos` that the model keeps (the amounts are
      not modelled). */
  datatype NewBudget = NewBudget(titulo: string, ano: int, descricao: string, usuarioId: int)

  datatype Submission = NotLoggedIn | FillInTitleAndYear | Submit(entry: NewBudget)

  /** `cadastrarOrcamento` up to the request: no session sends the user to
      the login page; an empty title or a year that is NaN or 0 is refused;
      otherwise the entry is posted under the session user's id. */
  function BudgetSubmission(session: Option<Session>, titulo: string, ano: Option<int>, descricao: string): (r: Submission)
    ensures r.NotLoggedIn? <==> session.None?
    ensures r.Submit? <==> session.Some? && titulo != "" && ano.Some? && ano.value != 0
    ensures r.Submit? ==> r.entry == NewBudget(titulo, ano.value, descricao, session.value.id)
  {
    match session
    case None => NotLoggedIn
    case Some(usuario) =>
      if titulo == "" || ano.None? || ano.value == 0 then FillInTitleAndYear
      else Submit(NewBudget(titulo, ano.value, descricao, usuario.id))
  }

  /** The row the list endpoint returns for a posted entry once the store has
      given it the id `id`. */
  function StoredRow(entry: NewBudget, id: int): BudgetRow {
    BudgetRow(id, Str(entry.titulo), Num(entry.ano), Str(entry.descricao), Some(entry.usuarioId))
  }

  /** An accepted submission shows up, last, in its author's list with its
      title and year as typed, and in no one else's list. */
  lemma SubmittedBudgetIsListed(
    usuario: Session, titulo: string, ano: Option<int>, descricao: string,
    rows: seq<BudgetRow>, id: int)
    requires BudgetSubmission(Some(usuario), titulo, ano, descricao).Submit?
    ensures var o := StoredRow(BudgetSubmission(Some(usuario), titulo, ano, descricao).entry, id);
      && OwnRows(rows + [o], usuario) == OwnRows(rows, usuario) + [o]
      && (forall other: Session | other.id != usuario.id :: OwnRows(rows + [o], other) == OwnRows(rows, other))
    ensures var o := StoredRow(BudgetSubmission(Some(usuario), titulo, ano, descricao).entry, id);
      var v := ListBudgets(Body(Some(rows + [o])), Some(usuario));
      && v.Table?
      && v.rows[|v.rows| - 1] == RenderRow(o)
      && Unescape(v.rows[|v.rows| - 1].titulo) == titulo
      && v.rows[|v.rows| - 1].ano == IntToString(ano.value)
  {
    var o := StoredRow(BudgetSubmission(Some(usuario), titulo, ano, descricao).entry, id);
    OwnRowsAppend(rows, [o], usuario);
    assert OwnRows([o], usuario) == [o];
    forall other: Session | other.id != usuario.id
      ensures OwnRows(rows + [o], other) == OwnRows(rows, other)
    {
      OwnRowsAppend(rows, [o], other);
      assert OwnRows([o], other) == [];
    }
  }
}
