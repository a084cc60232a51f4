/**
 * The request handlers of server/routes.ts: configuration, the choice of
 * backend, normalisation of remote records, the payloads sent to the remote
 * table, and the mapping of outcomes to status codes and messages.
 *
 * The remote table service is an oracle: a function from the request the
 * handler sends to the answer it gets back, either a decoded body or a
 * non-success HTTP status with the response text.
 */
module Routes {
  import opened Wrappers
  import opened Schema
  import opened Storage
  import Decimal
  import opened Strings

  // ---------------------------------------------------------------------
  // Configuration

  /** The process environment: each variable unset, or a string. */
  datatype Env = Env(
    airtableToken: Option<string>,
    airtableApiKey: Option<string>,
    airtableBaseId: Option<string>,
    airtableTable: Option<string>)

  /** The configuration resolved once when the module loads. */
  datatype Settings = Settings(token: string, baseId: string, table: string)

  const DefaultTable := "Freelancers"

  predicate IsSet(v: Option<string>) {
    v.Some? && v.value != ""
  }

  /** Token from the first non-empty of the two token variables; table defaults to "Freelancers". */
  function Resolve(env: Env): (c: Settings)
    ensures IsSet(env.airtableToken) ==> c.token == env.airtableToken.value
    ensures !IsSet(env.airtableToken) ==> c.token == env.airtableApiKey.GetOr("")
    ensures c.baseId == env.airtableBaseId.GetOr("")
    ensures c.table != ""
    ensures !IsSet(env.airtableTable) ==> c.table == DefaultTable
    ensures IsSet(env.airtableTable) ==> c.table == env.airtableTable.value
  {
    Settings(
      StrOr(env.airtableToken, StrOr(env.airtableApiKey, "")),
      StrOr(env.airtableBaseId, ""),
      StrOr(env.airtableTable, DefaultTable))
  }

  /** JavaScript `a && b` on strings: `a` when it is falsy (""), otherwise `b`. */
  function StrAnd(a: string, b: string): string {
    if a == "" then a else b
  }

  /** The test every handler makes before choosing a backend: `AIRTABLE_TOKEN && AIRTABLE_BASE_ID` is truthy. */
  predicate UseRemote(c: Settings): (r: bool)
    ensures r <==> c.token != "" && c.baseId != ""
  {
    StrAnd(c.token, c.baseId) != ""
  }

  /** The remote table is used exactly when some token and the base id are configured. */
  lemma RemoteSelection(env: Env)
    ensures UseRemote(Resolve(env)) <==>
              (IsSet(env.airtableToken) || IsSet(env.airtableApiKey)) && IsSet(env.airtableBaseId)
  {
  }

  // ---------------------------------------------------------------------
  // Remote records

  /** The field bag of a remote record: any field may be missing. */
  datatype RemoteFields = RemoteFields(
    nome: Option<string>,
    servico: Option<string>,
    email: Option<string>,
    precoHora: Option<real>,
    localizacao: Option<string>)

  datatype RemoteRecord = RemoteRecord(id: string, fields: RemoteFields)

  /** One page of a list answer and the continuation token, if any. */
  datatype RemotePage = RemotePage(records: seq<RemoteRecord>, offset: Option<string>)

  /** What the remote service answers: a decoded body, or a non-success status and its text. */
  datatype Remote<T> = Answered(value: T) | HttpError(status: nat, text: string)

  /** A call to the remote table: HTTP verb, the path after the table, and the `fields` sent. */
  datatype RemoteRequest = RemoteRequest(verb: string, endpoint: string, fields: Option<RemoteFields>)

  /** `normalizeRecord`: a missing or falsy field becomes "" or 0. */
  function Normalize(r: RemoteRecord): (f: Freelancer)
    ensures f.id == r.id
    ensures f.nome == r.fields.nome.GetOr("")
    ensures f.servico == r.fields.servico.GetOr("")
    ensures f.email == r.fields.email.GetOr("")
    ensures f.precoHora == r.fields.precoHora.GetOr(0.0)
    ensures f.localizacao == r.fields.localizacao.GetOr("")
  {
    Freelancer(
      r.id,
      StrOr(r.fields.nome, ""),
      StrOr(r.fields.servico, ""),
      StrOr(r.fields.email, ""),
      NumOr(r.fields.precoHora, 0.0),
      StrOr(r.fields.localizacao, ""))
  }

  /** `records.map(normalizeRecord)`. */
  function NormalizeAll(rs: seq<RemoteRecord>): (fs: seq<Freelancer>)
    ensures |fs| == |rs|
    ensures forall i :: 0 <= i < |rs| ==> fs[i] == Normalize(rs[i])
    decreases |rs|
  {
    if rs == [] then [] else [Normalize(rs[0])] + NormalizeAll(rs[1..])
  }

  /** A stored record written out as a field bag with every field present. */
  function AsRemote(f: Freelancer): RemoteRecord {
    RemoteRecord(f.id, RemoteFields(Some(f.nome), Some(f.servico), Some(f.email), Some(f.precoHora), Some(f.localizacao)))
  }

  /** Normalisation gives back any record written out in full. */
  lemma NormalizeAsRemote(f: Freelancer)
    ensures Normalize(AsRemote(f)) == f
  {
  }

  /** Normalising twice changes nothing. */
  lemma NormalizeIdempotent(r: RemoteRecord)
    ensures Normalize(AsRemote(Normalize(r))) == Normalize(r)
  {
    NormalizeAsRemote(Normalize(r));
  }

  /** The `fields` sent on create: all five, with "" or 0 for the missing optional ones. */
  function CreateFields(v: InsertFreelancer): (f: RemoteFields)
    ensures f.nome == Some(v.nome) && f.servico == Some(v.servico)
    ensures f.email == Some(v.email.GetOr(""))
    ensures f.precoHora == Some(v.precoHora.GetOr(0.0))
    ensures f.localizacao == Some(v.localizacao.GetOr(""))
  {
    RemoteFields(
      Some(v.nome),
      Some(v.servico),
      Some(StrOr(v.email, "")),
      Some(NumOr(v.precoHora, 0.0)),
      Some(StrOr(v.localizacao, "")))
  }

  /**
   * Both backends give a created record the same shape: a remote record
   * holding the create fields normalises to what the in-memory store stores.
   */
  lemma CreateShapesAgree(id: string, v: InsertFreelancer)
    ensures Normalize(RemoteRecord(id, CreateFields(v))) == WithDefaults(id, v)
  {
  }

  /** The `fields` sent on update, built one defined field at a time. */
  method BuildUpdateFields(p: PartialFreelancer) returns (f: RemoteFields)
    ensures f.nome == p.nome && f.servico == p.servico && f.email == p.email
    ensures f.precoHora == p.precoHora && f.localizacao == p.localizacao
  {
    f := RemoteFields(None, None, None, None, None);
    if p.nome.Some? {
      f := f.(nome := p.nome);
    }
    if p.servico.Some? {
      f := f.(servico := p.servico);
    }
    if p.email.Some? {
      f := f.(email := p.email);
    }
    if p.precoHora.Some? {
      f := f.(precoHora := p.precoHora);
    }
    if p.localizacao.Some? {
      f := f.(localizacao := p.localizacao);
    }
  }

  /** A remote update that overwrites exactly the fields sent and keeps the others. */
  function Patch(stored: RemoteFields, sent: RemoteFields): RemoteFields {
    RemoteFields(
      if sent.nome.Some? then sent.nome else stored.nome,
      if sent.servico.Some? then sent.servico else stored.servico,
      if sent.email.Some? then sent.email else stored.email,
      if sent.precoHora.Some? then sent.precoHora else stored.precoHora,
      if sent.localizacao.Some? then sent.localizacao else stored.localizacao)
  }

  /**
   * If the remote table applies the update fields that way, the normalised
   * result is the in-memory merge of the same partial.
   */
  lemma UpdateShapesAgree(r: RemoteRecord, p: PartialFreelancer)
    ensures Normalize(RemoteRecord(r.id, Patch(r.fields,
              RemoteFields(p.nome, p.servico, p.email, p.precoHora, p.localizacao))))
         == Merge(Normalize(r), p)
  {
  }

  const ListRequest := RemoteRequest("GET", "?pageSize=50", None)

  function CreateRequest(v: InsertFreelancer): RemoteRequest {
    RemoteRequest("POST", "", Some(CreateFields(v)))
  }

  function PatchRequest(id: string, f: RemoteFields): RemoteRequest {
    RemoteRequest("PATCH", "/" + id, Some(f))
  }

  function DeleteRequest(id: string): RemoteRequest {
    RemoteRequest("DELETE", "/" + id, None)
  }

  // ---------------------------------------------------------------------
  // Responses

  datatype Payload =
    | Listed(list: seq<Freelancer>, offset: Option<string>)
    | Item(item: Freelancer)
    | Deleted(id: string)
    | Error(error: string)

  /** Status code and JSON body; `ok` is true exactly for the non-error payloads. */
  datatype Response = Response(status: nat, payload: Payload)

  /** Array `join`: the first element leads, the last one closes. */
  function Join(xs: seq<string>, sep: string): (r: string)
    ensures xs == [] ==> r == ""
    ensures xs != [] ==> |xs[0]| <= |r| && r[..|xs[0]|] == xs[0]
    ensures xs != [] ==> |xs[|xs| - 1]| <= |r| && r[|r| - |xs[|xs| - 1]|..] == xs[|xs| - 1]
    decreases |xs|
  {
    if xs == [] then ""
    else if |xs| == 1 then xs[0]
    else xs[0] + sep + Join(xs[1..], sep)
  }

  /** One step of the join: the head, the separator, then the join of the rest. */
  lemma JoinCons(xs: seq<string>, sep: string)
    requires |xs| > 1
    ensures Join(xs, sep) == xs[0] + sep + Join(xs[1..], sep)
  {
  }

  /** Two elements joined: the first, the separator, the second. */
  lemma JoinPair(a: string, b: string, sep: string)
    ensures Join([a, b], sep) == a + sep + b
  {
    assert [a, b][1..] == [b];
  }

  /** Concatenation regrouped around two separators. */
  lemma Regroup(a: string, sep: string, b: string, x: string)
    ensures a + sep + (b + sep + x) == a + sep + b + sep + x
  {
  }

  /** Join read left to right: appending an element appends the separator and that element. */
  lemma {:induction false} JoinSnoc(xs: seq<string>, x: string, sep: string)
    requires xs != []
    ensures Join(xs + [x], sep) == Join(xs, sep) + sep + x
    decreases |xs|
  {
    var ys := xs + [x];
    if |xs| > 1 {
      var rest, restX := Join(xs[1..], sep), Join(ys[1..], sep);
      assert restX == rest + sep + x by {
        assert ys[1..] == xs[1..] + [x];
        JoinSnoc(xs[1..], x, sep);
      }
      assert Join(ys, sep) == xs[0] + sep + restX by {
        assert ys[0] == xs[0];
        JoinCons(ys, sep);
      }
      assert Join(xs, sep) == xs[0] + sep + rest by {
        JoinCons(xs, sep);
      }
      Regroup(xs[0], sep, rest, x);
    } else {
      assert ys == [xs[0], x];
      JoinPair(xs[0], x, sep);
    }
  }

  /** Every element appears in the join. */
  lemma {:induction false} JoinContains(xs: seq<string>, sep: string, i: nat)
    requires i < |xs|
    ensures Includes(Join(xs, sep), xs[i])
    decreases |xs|
  {
    var r := Join(xs, sep);
    if i == 0 {
      assert OccursAt(r, xs[0], 0);
    } else {
      JoinContains(xs[1..], sep, i - 1);
      IncludesInSuffix(xs[0] + sep, Join(xs[1..], sep), xs[i]);
    }
  }

  const InvalidDataPrefix := "Dados inválidos: "

  /** The 400 answer to a body the schema rejects. */
  function InvalidData(issues: seq<string>): (r: Response)
    ensures r.status == 400 && r.payload.Error? && |r.payload.error| >= |InvalidDataPrefix|
    ensures r.payload.error[..|InvalidDataPrefix|] == InvalidDataPrefix
    ensures |issues| == 1 ==> r.payload.error == InvalidDataPrefix + issues[0]
    ensures forall i :: 0 <= i < |issues| ==> Includes(r.payload.error[|InvalidDataPrefix|..], issues[i])
  {
    var joined := Join(issues, ", ");
    assert forall i :: 0 <= i < |issues| ==> Includes(joined, issues[i]) by {
      forall i | 0 <= i < |issues| {
        JoinContains(issues, ", ", i);
      }
    }
    assert (InvalidDataPrefix + joined)[|InvalidDataPrefix|..] == joined;
    Response(400, Error(InvalidDataPrefix + joined))
  }

  /** The message the remote request helper throws on a non-success status. */
  function RemoteErrorMessage(status: nat, text: string): (m: string)
    ensures |m| > 20 + |text| && m[..20] == "Airtable API error: "
    ensures m[20..|m| - |text| - 1] == Decimal.NatToString(status)
    ensures m[|m| - |text| - 1..] == " " + text
  {
    "Airtable API error: " + Decimal.NatToString(status) + " " + text
  }

  /** The 500 answer to a failed remote call. */
  function RemoteFailure<T>(reply: Remote<T>): Response
    requires reply.HttpError?
  {
    Response(500, Error(RemoteErrorMessage(reply.status, reply.text)))
  }

  // ---------------------------------------------------------------------
  // Handlers

  /** GET /api/freelancers */
  method HandleList(c: Settings, store: MemStorage, remote: RemoteRequest -> Remote<RemotePage>)
    returns (resp: Response)
    requires store.Valid()
    ensures UseRemote(c) && remote(ListRequest).Answered? ==>
              var page := remote(ListRequest).value;
              resp == Response(200, Listed(NormalizeAll(page.records), page.offset))
    ensures UseRemote(c) && remote(ListRequest).HttpError? ==> resp == RemoteFailure(remote(ListRequest))
    ensures !UseRemote(c) ==>
              && resp.status == 200 && resp.payload.Listed? && resp.payload.offset.None?
              && |resp.payload.list| == |store.freelancers|
              && (forall f :: f in resp.payload.list <==> f in store.freelancers.Values)
  {
    if UseRemote(c) {
      var reply := remote(ListRequest);
      match reply
      case Answered(page) =>
        resp := Response(200, Listed(NormalizeAll(page.records), page.offset));
      case HttpError(_, _) =>
        resp := RemoteFailure(reply);
    } else {
      var list := store.GetFreelancers();
      resp := Response(200, Listed(list, None));
    }
  }

  /** POST /api/freelancers */
  method HandleCreate(c: Settings, body: Body, store: MemStorage, remote: RemoteRequest -> Remote<RemoteRecord>)
    returns (resp: Response)
    requires store.Valid()
    modifies store
    ensures store.Valid()
    ensures ParseInsert(body).Failure? ==>
              resp == InvalidData(ParseInsert(body).error) && store.State() == old(store.State())
    ensures ParseInsert(body).Success? && UseRemote(c) ==>
              var reply := remote(CreateRequest(ParseInsert(body).value));
              && store.State() == old(store.State())
              && (reply.Answered? ==> resp == Response(201, Item(Normalize(reply.value))))
              && (reply.HttpError? ==> resp == RemoteFailure(reply))
    ensures ParseInsert(body).Success? && !UseRemote(c) ==>
              var (s', f) := Create(old(store.State()), ParseInsert(body).value);
              store.State() == s' && resp == Response(201, Item(f))
  {
    var parsed := ParseInsert(body);
    if parsed.Failure? {
      resp := InvalidData(parsed.error);
      return;
    }
    if UseRemote(c) {
      var reply := remote(CreateRequest(parsed.value));
      match reply
      case Answered(r) =>
        resp := Response(201, Item(Normalize(r)));
      case HttpError(_, _) =>
        resp := RemoteFailure(reply);
    } else {
      var f := store.CreateFreelancer(parsed.value);
      resp := Response(201, Item(f));
    }
  }

  /** PATCH /api/freelancers/:id */
  method HandleUpdate(c: Settings, id: string, body: Body, store: MemStorage,
                      remote: RemoteRequest -> Remote<RemoteRecord>)
    returns (resp: Response)
    requires store.Valid()
    modifies store
    ensures store.Valid()
    ensures ParsePartial(body).Failure? ==>
              resp == InvalidData(ParsePartial(body).error) && store.State() == old(store.State())
    ensures ParsePartial(body).Success? && UseRemote(c) ==>
              var p := ParsePartial(body).value;
              var reply := remote(PatchRequest(id, RemoteFields(p.nome, p.servico, p.email, p.precoHora, p.localizacao)));
              && store.State() == old(store.State())
              && (reply.Answered? ==> resp == Response(200, Item(Normalize(reply.value))))
              && (reply.HttpError? ==> resp == RemoteFailure(reply))
    ensures ParsePartial(body).Success? && !UseRemote(c) ==>
              var (s', r) := Update(old(store.State()), id, ParsePartial(body).value);
              && store.State() == s'
              && (r.Success? ==> resp == Response(200, Item(r.value)))
              && (r.Failure? ==> resp == Response(500, Error(r.error)))
    ensures ParsePartial(body).Success? && !UseRemote(c) && id !in old(store.freelancers) ==>
              resp == Response(500, Error(NotFound))
  {
    var parsed := ParsePartial(body);
    if parsed.Failure? {
      resp := InvalidData(parsed.error);
      return;
    }
    if UseRemote(c) {
      var fields := BuildUpdateFields(parsed.value);
      var reply := remote(PatchRequest(id, fields));
      match reply
      case Answered(r) =>
        resp := Response(200, Item(Normalize(r)));
      case HttpError(_, _) =>
        resp := RemoteFailure(reply);
    } else {
      var r := store.UpdateFreelancer(id, parsed.value);
      match r
      case Success(f) =>
        resp := Response(200, Item(f));
      case Failure(message) =>
        resp := Response(500, Error(message));
    }
  }

  /** DELETE /api/freelancers/:id */
  method HandleDelete(c: Settings, id: string, store: MemStorage, remote: RemoteRequest -> Remote<()>)
    returns (resp: Response)
    requires store.Valid()
    modifies store
    ensures store.Valid()
    ensures UseRemote(c) ==>
              && store.State() == old(store.State())
              && (remote(DeleteRequest(id)).Answered? ==> resp == Response(200, Deleted(id)))
              && (remote(DeleteRequest(id)).HttpError? ==> resp == RemoteFailure(remote(DeleteRequest(id))))
    ensures !UseRemote(c) ==>
              && store.State() == Delete(old(store.State()), id).0
              && (id in old(store.freelancers) ==> resp == Response(200, Deleted(id)))
              && (id !in old(store.freelancers) ==> resp == Response(404, Error(NotFound)))
  {
    if UseRemote(c) {
      var reply := remote(DeleteRequest(id));
      match reply
      case Answered(_) =>
        resp := Response(200, Deleted(id));
      case HttpError(_, _) =>
        resp := RemoteFailure(reply);
    } else {
      var deleted := store.DeleteFreelancer(id);
      if !deleted {
        resp := Response(404, Error(NotFound));
        return;
      }
      resp := Response(200, Deleted(id));
    }
  }
}
