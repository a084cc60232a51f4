/**
 * The Freelancer record and the validation rules of shared/schema.ts.
 *
 * The validation library reports every failing field, in the order the
 * fields are declared, each with the message the schema attaches to it; a
 * parse succeeds exactly when that list of issues is empty.
 */
module Schema {
  import opened Wrappers
  import Decimal

  /** A record as the storage layer hands it out: every field present. */
  datatype Freelancer = Freelancer(
    id: string,
    nome: string,
    servico: string,
    email: string,
    precoHora: real,
    localizacao: string)

  /** A request body: each key absent, or holding a value of its declared JSON type. */
  datatype Body = Body(
    id: Option<string>,
    nome: Option<string>,
    servico: Option<string>,
    email: Option<string>,
    precoHora: Option<real>,
    localizacao: Option<string>)

  /** What the insert schema (the record schema without `id`) yields. */
  datatype InsertFreelancer = InsertFreelancer(
    nome: string,
    servico: string,
    email: Option<string>,
    precoHora: Option<real>,
    localizacao: Option<string>)

  /** What the partial insert schema yields: every field may be absent. */
  datatype PartialFreelancer = PartialFreelancer(
    nome: Option<string>,
    servico: Option<string>,
    email: Option<string>,
    precoHora: Option<real>,
    localizacao: Option<string>)

  // Issue messages. `Required` is the validation library's own message for a
  // missing required key; the other four are attached by the schema.
  const Required := "Required"
  const NomeRequired := "Nome é obrigatório"
  const ServicoRequired := "Serviço é obrigatório"
  const InvalidEmail := "E-mail inválido"
  const NegativePrice := "Preço deve ser positivo"

  // ---------------------------------------------------------------------
  // JavaScript `x || d` on an optional string or number: the default
  // replaces an absent value and also the falsy values "" and 0.

  function StrOr(x: Option<string>, d: string): (r: string)
    ensures r == d || (x.Some? && r == x.value)
    ensures d == "" ==> r == x.GetOr("")
  {
    if x.Some? && x.value != "" then x.value else d
  }

  function NumOr(x: Option<real>, d: real): (r: real)
    ensures r == d || (x.Some? && r == x.value)
    ensures d == 0.0 ==> r == x.GetOr(0.0)
  {
    if x.Some? && x.value != 0.0 then x.value else d
  }

  // ---------------------------------------------------------------------
  // E-mail syntax: local part of [A-Za-z0-9_'+-.] ending in [A-Za-z0-9_+-],
  // an `@`, one or more labels [A-Za-z0-9][A-Za-z0-9-]* each followed by a
  // dot, and a top-level domain of at least two letters; the address may not
  // start with a dot nor contain two dots in a row.

  predicate IsLetter(c: char) {
    'A' <= c <= 'Z' || 'a' <= c <= 'z'
  }

  predicate IsAlnum(c: char) {
    IsLetter(c) || Decimal.IsDigit(c)
  }

  predicate IsLocalChar(c: char) {
    IsAlnum(c) || c == '_' || c == '\'' || c == '+' || c == '-' || c == '.'
  }

  predicate IsLocalLast(c: char) {
    IsAlnum(c) || c == '_' || c == '+' || c == '-'
  }

  predicate IsLocalPart(l: string) {
    |l| >= 1 && (forall i :: 0 <= i < |l| ==> IsLocalChar(l[i])) && IsLocalLast(l[|l| - 1])
  }

  predicate IsLabel(d: string) {
    |d| >= 1 && IsAlnum(d[0]) && forall i :: 1 <= i < |d| ==> IsAlnum(d[i]) || d[i] == '-'
  }

  predicate IsTopLevel(t: string) {
    |t| >= 2 && forall i :: 0 <= i < |t| ==> IsLetter(t[i])
  }

  /** Position of the first `c` in `s`, or `|s|` when there is none. */
  function IndexOf(s: string, c: char): (i: nat)
    ensures i <= |s|
    ensures i < |s| ==> s[i] == c
    ensures forall j :: 0 <= j < i ==> s[j] != c
  {
    if s == [] then 0
    else if s[0] == c then 0
    else 1 + IndexOf(s[1..], c)
  }

  /** One or more labels, each followed by a dot, then a top-level domain. */
  predicate IsDomain(d: string)
    decreases |d|
  {
    var j := IndexOf(d, '.');
    j < |d| && IsLabel(d[..j]) && (IsTopLevel(d[j + 1..]) || IsDomain(d[j + 1..]))
  }

  predicate NoDoubleDot(s: string) {
    forall i :: 0 <= i < |s| - 1 ==> !(s[i] == '.' && s[i + 1] == '.')
  }

  predicate IsEmail(s: string) {
    var at := IndexOf(s, '@');
    at < |s| && s[0] != '.' && NoDoubleDot(s) && IsLocalPart(s[..at]) && IsDomain(s[at + 1..])
  }

  // ---------------------------------------------------------------------
  // Field rules, stated once as predicates and once as the issue list the
  // validation library produces.

  /**
   * The rules of the insert schema; with `partial` every key may be absent,
   * but a key that is present must still meet its rule.
   */
  predicate FieldsValid(b: Body, partial: bool) {
    && (b.nome.Some? ==> |b.nome.value| >= 1)
    && (b.servico.Some? ==> |b.servico.value| >= 1)
    && (!partial ==> b.nome.Some? && b.servico.Some?)
    && (b.email.Some? ==> b.email.value == "" || IsEmail(b.email.value))
    && (b.precoHora.Some? ==> b.precoHora.value >= 0.0)
  }

  function TextIssues(v: Option<string>, required: bool, message: string): seq<string> {
    match v
    case None => if required then [Required] else []
    case Some(s) => if |s| >= 1 then [] else [message]
  }

  function EmailIssues(v: Option<string>): seq<string> {
    if v.Some? && v.value != "" && !IsEmail(v.value) then [InvalidEmail] else []
  }

  function PriceIssues(v: Option<real>): seq<string> {
    if v.Some? && v.value < 0.0 then [NegativePrice] else []
  }

  /** Every issue of the insert schema (or its partial variant), in field order. */
  function FieldIssues(b: Body, partial: bool): (issues: seq<string>)
    ensures issues == [] <==> FieldsValid(b, partial)
    ensures NomeRequired in issues <==> b.nome == Some("")
    ensures ServicoRequired in issues <==> b.servico == Some("")
    ensures InvalidEmail in issues <==> b.email.Some? && b.email.value != "" && !IsEmail(b.email.value)
    ensures NegativePrice in issues <==> b.precoHora.Some? && b.precoHora.value < 0.0
    ensures Required in issues <==> !partial && (b.nome.None? || b.servico.None?)
  {
    TextIssues(b.nome, !partial, NomeRequired)
      + TextIssues(b.servico, !partial, ServicoRequired)
      + EmailIssues(b.email)
      + PriceIssues(b.precoHora)
  }

  /** Every issue of the full record schema: `id` is a required string, the rest as for insert. */
  function RecordIssues(b: Body): (issues: seq<string>)
    ensures issues == [] <==> b.id.Some? && FieldsValid(b, false)
    ensures b.id.None? ==> issues[0] == Required
  {
    (if b.id.None? then [Required] else []) + FieldIssues(b, false)
  }

  /** The body a stored record would serialise to. */
  function AsBody(f: Freelancer): Body {
    Body(Some(f.id), Some(f.nome), Some(f.servico), Some(f.email), Some(f.precoHora), Some(f.localizacao))
  }

  /** A stored record passes the full record schema. */
  predicate ValidRecord(f: Freelancer) {
    RecordIssues(AsBody(f)) == []
  }

  /** `insertFreelancerSchema.parse`: unknown keys and `id` are dropped. */
  function ParseInsert(b: Body): (r: Result<InsertFreelancer, seq<string>>)
    ensures r.Success? <==> FieldsValid(b, false)
    ensures r.Success? ==> r.value.nome == b.nome.value && r.value.servico == b.servico.value
    ensures r.Success? ==> r.value.email == b.email && r.value.precoHora == b.precoHora
    ensures r.Success? ==> r.value.localizacao == b.localizacao
    ensures r.Failure? ==> r.error != [] && r.error == FieldIssues(b, false)
  {
    var issues := FieldIssues(b, false);
    if issues == [] then
      Success(InsertFreelancer(b.nome.value, b.servico.value, b.email, b.precoHora, b.localizacao))
    else
      Failure(issues)
  }

  /** `insertFreelancerSchema.partial().parse`. */
  function ParsePartial(b: Body): (r: Result<PartialFreelancer, seq<string>>)
    ensures r.Success? <==> FieldsValid(b, true)
    ensures r.Success? ==> r.value.nome == b.nome && r.value.servico == b.servico
    ensures r.Success? ==> r.value.email == b.email && r.value.precoHora == b.precoHora
    ensures r.Success? ==> r.value.localizacao == b.localizacao
    ensures r.Success? ==> (r.value.nome.Some? ==> r.value.nome.value != "")
    ensures r.Success? ==> (r.value.servico.Some? ==> r.value.servico.value != "")
    ensures r.Failure? ==> r.error != [] && r.error == FieldIssues(b, true)
  {
    var issues := FieldIssues(b, true);
    if issues == [] then
      Success(PartialFreelancer(b.nome, b.servico, b.email, b.precoHora, b.localizacao))
    else
      Failure(issues)
  }

  /** A body the insert schema accepts, given any `id`, is accepted by the record schema. */
  lemma InsertWithIdIsRecord(b: Body, id: string)
    requires ParseInsert(b).Success?
    ensures RecordIssues(b.(id := Some(id))) == []
  {
    assert FieldsValid(b.(id := Some(id)), false);
  }

  /** Everything the insert schema accepts is accepted by its partial variant. */
  lemma InsertAcceptedIsPartialAccepted(b: Body)
    requires ParseInsert(b).Success?
    ensures ParsePartial(b).Success?
  {
  }

  /** An address without `@` is not an e-mail address. */
  lemma {:induction false} NoAtIsNotEmail(s: string)
    requires forall i :: 0 <= i < |s| ==> s[i] != '@'
    ensures !IsEmail(s)
  {
    assert IndexOf(s, '@') == |s|;
  }

  lemma ExampleEmptyName()
    ensures FieldIssues(Body(None, Some(""), Some("Design"), None, None, None), false) == [NomeRequired]
  {
  }

  lemma ExampleBadEmail()
    ensures FieldIssues(Body(None, Some("Ana"), Some("Design"), Some("not-an-email"), None, None), false) == [InvalidEmail]
  {
    NoAtIsNotEmail("not-an-email");
  }

  lemma ExampleMinimal()
    ensures ParseInsert(Body(None, Some("Ana"), Some("Design"), None, None, None))
         == Success(InsertFreelancer("Ana", "Design", None, None, None))
  {
  }
}
