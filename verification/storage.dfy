/**
 * The in-memory store of server/storage.ts: a table from id to record and a
 * counter that supplies the next id.
 *
 * `Store` and the functions over it are the specification; `MemStorage` is
 * the object the request handlers mutate, and each of its methods is proved
 * to move its state exactly as the matching function says.
 */
module Storage {
  import opened Wrappers
  import opened Schema
  import Decimal

  /** The message of the error an update of an unknown id fails with. */
  const NotFound := "Freelancer não encontrado"

  /** The state of the store: records keyed by id, and the next id to hand out. */
  datatype Store = Store(freelancers: map<string, Freelancer>, nextId: nat)

  /** `k` is the decimal rendering of an id handed out before `bound`. */
  ghost predicate IssuedBelow(k: string, bound: nat) {
    exists n: nat :: 1 <= n < bound && k == Decimal.NatToString(n)
  }

  /**
   * The invariant every operation keeps: the counter starts at 1, every key
   * is an id already handed out, and every record carries its own key.
   */
  ghost predicate Inv(s: Store) {
    && s.nextId >= 1
    && (forall k :: k in s.freelancers ==> IssuedBelow(k, s.nextId))
    && (forall k :: k in s.freelancers ==> s.freelancers[k].id == k)
  }

  /** A new store: no records, counter 1. */
  function Empty(): (s: Store)
    ensures Inv(s)
  {
    Store(map[], 1)
  }

  /** The id the next create hands out. */
  function NewId(s: Store): string {
    Decimal.NatToString(s.nextId)
  }

  /** The record create stores: absent or falsy optional fields become "" or 0. */
  function WithDefaults(id: string, v: InsertFreelancer): (f: Freelancer)
    ensures f.id == id && f.nome == v.nome && f.servico == v.servico
    ensures f.email == v.email.GetOr("")
    ensures f.precoHora == v.precoHora.GetOr(0.0)
    ensures f.localizacao == v.localizacao.GetOr("")
  {
    Freelancer(id, v.nome, v.servico, StrOr(v.email, ""), NumOr(v.precoHora, 0.0), StrOr(v.localizacao, ""))
  }

  /** The shallow merge `{...existing, ...data}`: present fields overwrite, absent ones keep. */
  function Merge(existing: Freelancer, p: PartialFreelancer): (f: Freelancer)
    ensures f.id == existing.id
    ensures p.nome.Some? ==> f.nome == p.nome.value
    ensures p.nome.None? ==> f.nome == existing.nome
    ensures p.servico.Some? ==> f.servico == p.servico.value
    ensures p.servico.None? ==> f.servico == existing.servico
    ensures p.email.Some? ==> f.email == p.email.value
    ensures p.email.None? ==> f.email == existing.email
    ensures p.precoHora.Some? ==> f.precoHora == p.precoHora.value
    ensures p.precoHora.None? ==> f.precoHora == existing.precoHora
    ensures p.localizacao.Some? ==> f.localizacao == p.localizacao.value
    ensures p.localizacao.None? ==> f.localizacao == existing.localizacao
  {
    existing.(
      nome := p.nome.GetOr(existing.nome),
      servico := p.servico.GetOr(existing.servico),
      email := p.email.GetOr(existing.email),
      precoHora := p.precoHora.GetOr(existing.precoHora),
      localizacao := p.localizacao.GetOr(existing.localizacao))
  }

  /** The partial that changes nothing. */
  const NoChange := PartialFreelancer(None, None, None, None, None)

  /** `getFreelancer`: the record under `id`, absent not being an error. */
  function Get(s: Store, id: string): (r: Option<Freelancer>)
    ensures r.Some? <==> id in s.freelancers
    ensures Inv(s) && r.Some? ==> r.value.id == id
  {
    if id in s.freelancers then Some(s.freelancers[id]) else None
  }

  /** `createFreelancer`: the new state and the stored record. */
  function Create(s: Store, v: InsertFreelancer): (r: (Store, Freelancer))
    ensures r.1.id == NewId(s) && r.1 == WithDefaults(NewId(s), v)
    ensures r.0.freelancers.Keys == s.freelancers.Keys + {NewId(s)}
    ensures r.0.nextId == s.nextId + 1
  {
    var f := WithDefaults(NewId(s), v);
    (Store(s.freelancers[f.id := f], s.nextId + 1), f)
  }

  /** `updateFreelancer`: the new state and the merged record, or the not-found error. */
  function Update(s: Store, id: string, p: PartialFreelancer): (r: (Store, Result<Freelancer, string>))
    ensures r.1.Failure? <==> id !in s.freelancers
    ensures r.1.Failure? ==> r.1.error == NotFound
    ensures r.0.freelancers.Keys == s.freelancers.Keys && r.0.nextId == s.nextId
  {
    if id !in s.freelancers then
      (s, Failure(NotFound))
    else
      var f := Merge(s.freelancers[id], p);
      (s.(freelancers := s.freelancers[id := f]), Success(f))
  }

  /** `deleteFreelancer`: the new state and whether a record was removed. */
  function Delete(s: Store, id: string): (r: (Store, bool))
    ensures r.1 <==> id in s.freelancers
    ensures r.0.freelancers.Keys == s.freelancers.Keys - {id} && r.0.nextId == s.nextId
  {
    (s.(freelancers := s.freelancers - {id}), id in s.freelancers)
  }

  // ---------------------------------------------------------------------
  // Properties of the operations

  /** The id a create hands out differs from every id handed out before, deleted or not. */
  lemma CreateIdIsFresh(s: Store)
    requires Inv(s)
    ensures forall n: nat :: 1 <= n < s.nextId ==> NewId(s) != Decimal.NatToString(n)
    ensures NewId(s) !in s.freelancers
  {
    forall n: nat | 1 <= n < s.nextId
      ensures NewId(s) != Decimal.NatToString(n)
    {
      Decimal.NatToStringInjective(n, s.nextId);
    }
  }

  /**
   * Create adds exactly one record, under a fresh key, holding the input
   * with defaults; a following get returns it, and nothing else changes.
   */
  lemma CreateSpec(s: Store, v: InsertFreelancer)
    requires Inv(s)
    ensures var (s', f) := Create(s, v);
      && Inv(s')
      && f.id == NewId(s) && f.id !in s.freelancers
      && f == WithDefaults(f.id, v)
      && s'.nextId == s.nextId + 1
      && Get(s', f.id) == Some(f)
      && (forall k :: k != f.id ==> Get(s', k) == Get(s, k))
      && |s'.freelancers| == |s.freelancers| + 1
  {
    CreateIdIsFresh(s);
    var (s', f) := Create(s, v);
    forall k | k in s'.freelancers
      ensures IssuedBelow(k, s'.nextId)
    {
      if k == f.id {
        assert k == Decimal.NatToString(s.nextId);
      }
    }
  }

  /**
   * Update of an unknown id fails with the not-found message and changes
   * nothing; of a known id it stores the merge under the same key and
   * changes nothing else.
   */
  lemma UpdateSpec(s: Store, id: string, p: PartialFreelancer)
    requires Inv(s)
    ensures var (s', r) := Update(s, id, p);
      && Inv(s')
      && s'.nextId == s.nextId
      && s'.freelancers.Keys == s.freelancers.Keys
      && (id !in s.freelancers ==> s' == s && r == Failure(NotFound))
      && (id in s.freelancers ==>
            && r == Success(Merge(s.freelancers[id], p))
            && r.value.id == id
            && Get(s', id) == Some(r.value))
      && (forall k :: k != id ==> Get(s', k) == Get(s, k))
  {
  }

  /** Updating with the empty partial returns and keeps the record unchanged. */
  lemma UpdateWithNothingIsIdentity(s: Store, id: string)
    requires id in s.freelancers
    ensures Update(s, id, NoChange) == (s, Success(s.freelancers[id]))
  {
    assert s.freelancers[id := s.freelancers[id]] == s.freelancers;
  }

  /** A validated partial keeps a valid record valid: `nome` and `servico` never become empty. */
  lemma MergeKeepsValid(f: Freelancer, b: Body)
    requires ValidRecord(f)
    requires ParsePartial(b).Success?
    ensures ValidRecord(Merge(f, ParsePartial(b).value))
  {
    var g := Merge(f, ParsePartial(b).value);
    assert FieldsValid(AsBody(g), false);
  }

  /** A record created from a validated insert is valid under the record schema. */
  lemma CreatedIsValid(s: Store, b: Body)
    requires ParseInsert(b).Success?
    ensures ValidRecord(Create(s, ParseInsert(b).value).1)
  {
    var f := Create(s, ParseInsert(b).value).1;
    assert FieldsValid(AsBody(f), false);
  }

  /**
   * Delete reports whether the id was a key, removes it, and leaves every
   * other entry and the counter alone; deleting again reports false.
   */
  lemma DeleteSpec(s: Store, id: string)
    requires Inv(s)
    ensures var (s', deleted) := Delete(s, id);
      && Inv(s')
      && deleted == (id in s.freelancers)
      && Get(s', id) == None
      && s'.nextId == s.nextId
      && (forall k :: k != id ==> Get(s', k) == Get(s, k))
      && Delete(s', id) == (s', false)
  {
    var s' := Delete(s, id).0;
    assert s'.freelancers - {id} == s'.freelancers;
  }

  // ---------------------------------------------------------------------
  // Ids over any sequence of operations

  datatype Op = CreateOp(v: InsertFreelancer) | UpdateOp(id: string, p: PartialFreelancer) | DeleteOp(id: string)

  function Apply(s: Store, op: Op): Store {
    match op
    case CreateOp(v) => Create(s, v).0
    case UpdateOp(id, p) => Update(s, id, p).0
    case DeleteOp(id) => Delete(s, id).0
  }

  function Run(s: Store, ops: seq<Op>): Store
    decreases |ops|
  {
    if ops == [] then s else Run(Apply(s, ops[0]), ops[1..])
  }

  /** The ids the creates among `ops` hand out, in order. */
  function CreatedIds(s: Store, ops: seq<Op>): seq<string>
    decreases |ops|
  {
    if ops == [] then []
    else (if ops[0].CreateOp? then [NewId(s)] else []) + CreatedIds(Apply(s, ops[0]), ops[1..])
  }

  /** One operation advances the counter exactly when it creates. */
  lemma ApplyCounter(s: Store, op: Op)
    ensures Apply(s, op).nextId == s.nextId + (if op.CreateOp? then 1 else 0)
  {
  }

  /** One operation keeps the invariant. */
  lemma ApplyKeepsInv(s: Store, op: Op)
    requires Inv(s)
    ensures Inv(Apply(s, op))
  {
    match op
    case CreateOp(v) => CreateSpec(s, v);
    case UpdateOp(id, p) => UpdateSpec(s, id, p);
    case DeleteOp(id) => DeleteSpec(s, id);
  }

  /** The invariant holds after any run. */
  lemma {:induction false} RunKeepsInv(s: Store, ops: seq<Op>)
    requires Inv(s)
    ensures Inv(Run(s, ops))
    decreases |ops|
  {
    if ops != [] {
      ApplyKeepsInv(s, ops[0]);
      RunKeepsInv(Apply(s, ops[0]), ops[1..]);
    }
  }

  /** The creates of a run hand out consecutive counter values, and the counter ends past the last. */
  lemma {:induction false} RunCounter(s: Store, ops: seq<Op>)
    ensures Run(s, ops).nextId == s.nextId + |CreatedIds(s, ops)|
    ensures forall i :: 0 <= i < |CreatedIds(s, ops)| ==>
              CreatedIds(s, ops)[i] == Decimal.NatToString(s.nextId + i)
    decreases |ops|
  {
    if ops != [] {
      var t := Apply(s, ops[0]);
      ApplyCounter(s, ops[0]);
      RunCounter(t, ops[1..]);
      var head := if ops[0].CreateOp? then [NewId(s)] else [];
      var ids, tail := CreatedIds(s, ops), CreatedIds(t, ops[1..]);
      assert ids == head + tail;
      forall i | 0 <= i < |ids|
        ensures ids[i] == Decimal.NatToString(s.nextId + i)
      {
        if i >= |head| {
          assert ids[i] == tail[i - |head|];
        }
      }
    }
  }

  /**
   * Over any run the invariant holds throughout and the creates hand out
   * consecutive counter values, whatever updates and deletes come between.
   */
  lemma RunIds(s: Store, ops: seq<Op>)
    requires Inv(s)
    ensures Inv(Run(s, ops))
    ensures Run(s, ops).nextId == s.nextId + |CreatedIds(s, ops)|
    ensures forall i :: 0 <= i < |CreatedIds(s, ops)| ==>
              CreatedIds(s, ops)[i] == Decimal.NatToString(s.nextId + i)
  {
    RunKeepsInv(s, ops);
    RunCounter(s, ops);
  }

  /** Ids are never reused: every id a run hands out is new, and no two are equal. */
  lemma IdsNeverReused(s: Store, ops: seq<Op>)
    requires Inv(s)
    ensures forall i :: 0 <= i < |CreatedIds(s, ops)| ==> CreatedIds(s, ops)[i] !in s.freelancers
    ensures forall i, j :: 0 <= i < j < |CreatedIds(s, ops)| ==> CreatedIds(s, ops)[i] != CreatedIds(s, ops)[j]
  {
    RunCounter(s, ops);
    var ids := CreatedIds(s, ops);
    forall i | 0 <= i < |ids|
      ensures ids[i] !in s.freelancers
    {
      if ids[i] in s.freelancers {
        assert IssuedBelow(ids[i], s.nextId);
        var n: nat :| 1 <= n < s.nextId && ids[i] == Decimal.NatToString(n);
        Decimal.NatToStringInjective(n, s.nextId + i);
      }
    }
    forall i, j | 0 <= i < j < |ids|
      ensures ids[i] != ids[j]
    {
      Decimal.NatToStringInjective(s.nextId + i, s.nextId + j);
    }
  }

  // ---------------------------------------------------------------------
  // The store object

  class MemStorage {
    var freelancers: map<string, Freelancer>
    var nextId: nat

    function State(): Store
      reads this
    {
      Store(freelancers, nextId)
    }

    ghost predicate Valid()
      reads this
    {
      Inv(State())
    }

    constructor ()
      ensures Valid() && State() == Empty()
      ensures freelancers == map[] && nextId == 1
    {
      freelancers := map[];
      nextId := 1;
    }

    /** Every stored record exactly once, in no promised order. */
    method GetFreelancers() returns (list: seq<Freelancer>)
      requires Valid()
      ensures |list| == |freelancers|
      ensures forall f :: f in list <==> f in freelancers.Values
      ensures forall i, j :: 0 <= i < j < |list| ==> list[i] != list[j]
    {
      list := [];
      var rest := freelancers.Keys;
      while rest != {}
        invariant rest <= freelancers.Keys
        invariant |list| + |rest| == |freelancers.Keys|
        invariant forall i :: 0 <= i < |list| ==>
                    list[i].id in freelancers && list[i].id !in rest && freelancers[list[i].id] == list[i]
        invariant forall k :: k in freelancers && k !in rest ==> freelancers[k] in list
        invariant forall i, j :: 0 <= i < j < |list| ==> list[i].id != list[j].id
        decreases rest
      {
        var k :| k in rest;
        list := list + [freelancers[k]];
        rest := rest - {k};
      }
    }

    method GetFreelancer(id: string) returns (r: Option<Freelancer>)
      requires Valid()
      ensures r == Get(State(), id)
      ensures r.Some? <==> id in freelancers
      ensures r.Some? ==> r.value.id == id
    {
      if id in freelancers {
        r := Some(freelancers[id]);
      } else {
        r := None;
      }
    }

    method CreateFreelancer(v: InsertFreelancer) returns (f: Freelancer)
      requires Valid()
      modifies this
      ensures Valid()
      ensures (State(), f) == Create(old(State()), v)
      ensures f.id == Decimal.NatToString(old(nextId)) && f.id !in old(freelancers)
      ensures nextId == old(nextId) + 1
      ensures freelancers == old(freelancers)[f.id := f]
    {
      CreateSpec(State(), v);
      var id := Decimal.NatToString(nextId);
      nextId := nextId + 1;
      f := WithDefaults(id, v);
      freelancers := freelancers[id := f];
    }

    method UpdateFreelancer(id: string, p: PartialFreelancer) returns (r: Result<Freelancer, string>)
      requires Valid()
      modifies this
      ensures Valid()
      ensures (State(), r) == Update(old(State()), id, p)
      ensures id !in old(freelancers) ==> r == Failure(NotFound) && unchanged(this)
      ensures id in old(freelancers) ==>
                r == Success(Merge(old(freelancers)[id], p)) && freelancers == old(freelancers)[id := r.value]
      ensures nextId == old(nextId)
    {
      UpdateSpec(State(), id, p);
      if id !in freelancers {
        r := Failure(NotFound);
        return;
      }
      var updated := Merge(freelancers[id], p);
      freelancers := freelancers[id := updated];
      r := Success(updated);
    }

    method DeleteFreelancer(id: string) returns (deleted: bool)
      requires Valid()
      modifies this
      ensures Valid()
      ensures (State(), deleted) == Delete(old(State()), id)
      ensures deleted == (id in old(freelancers))
      ensures freelancers == old(freelancers) - {id} && nextId == old(nextId)
    {
      DeleteSpec(State(), id);
      deleted := id in freelancers;
      freelancers := freelancers - {id};
    }
  }
}
