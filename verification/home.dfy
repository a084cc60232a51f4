/**
 * The search filter and the count label of the home page
 * (client/src/pages/home.tsx): a record is shown when the lower-cased query
 * occurs in its lower-cased name or service.
 */
module Home {
  import opened Wrappers
  import opened Schema
  import Decimal
  import opened Strings

  /** The body of the list answer as the page receives it. */
  datatype ListResponse = ListResponse(ok: bool, list: Option<seq<Freelancer>>, offset: Option<string>)

  /** `response?.list || []`: no answer yet, or an answer without a list, shows nothing. */
  function Loaded(response: Option<ListResponse>): (r: seq<Freelancer>)
    ensures response.Some? && response.value.list.Some? ==> r == response.value.list.value
    ensures response.None? || response.value.list.None? ==> r == []
  {
    if response.Some? && response.value.list.Some? then response.value.list.value else []
  }

  /** Lower-casing, on the ASCII letters only. */
  function LowerChar(c: char): char {
    if 'A' <= c <= 'Z' then (c as int + 32) as char else c
  }

  function Lower(s: string): string {
    seq(|s|, i requires 0 <= i < |s| => LowerChar(s[i]))
  }

  /** The test `filter` applies: the query, lower-cased, occurs in the lower-cased name or service. */
  predicate Matches(f: Freelancer, query: string): (r: bool)
    ensures query == "" ==> r
  {
    var q := Lower(query);
    assert query == "" ==> OccursAt(Lower(f.nome), q, 0);
    Includes(Lower(f.nome), q) || Includes(Lower(f.servico), q)
  }

  /** `freelancers.filter(...)`: the matching records, in their order. */
  function Filter(list: seq<Freelancer>, query: string): (r: seq<Freelancer>)
    ensures |r| <= |list|
    ensures forall f :: f in r <==> f in list && Matches(f, query)
    ensures forall f :: multiset(r)[f] == if Matches(f, query) then multiset(list)[f] else 0
    decreases |list|
  {
    if list == [] then []
    else
      assert list == [list[0]] + list[1..];
      (if Matches(list[0], query) then [list[0]] else []) + Filter(list[1..], query)
  }

  /** `a` is `b` with some elements left out, the rest in the same order. */
  predicate IsSubsequence<T(==)>(a: seq<T>, b: seq<T>)
    decreases |b|
  {
    if a == [] then true
    else if b == [] then false
    else if a[0] == b[0] then IsSubsequence(a[1..], b[1..])
    else IsSubsequence(a, b[1..])
  }

  /** The filter only drops records: it neither adds nor reorders. */
  lemma {:induction false} FilterIsSubsequence(list: seq<Freelancer>, query: string)
    ensures IsSubsequence(Filter(list, query), list)
    decreases |list|
  {
    if list != [] {
      FilterIsSubsequence(list[1..], query);
      var rest := Filter(list[1..], query);
      if Matches(list[0], query) {
        assert Filter(list, query) == [list[0]] + rest;
        assert ([list[0]] + rest)[1..] == rest;
      } else {
        assert Filter(list, query) == rest;
        SubsequenceOfTail(rest, list);
      }
    }
  }

  /** A subsequence of the tail is a subsequence of the whole. */
  lemma {:induction false} SubsequenceOfTail<T>(a: seq<T>, b: seq<T>)
    requires b != [] && IsSubsequence(a, b[1..])
    ensures IsSubsequence(a, b)
    decreases |b|, 0
  {
    if a != [] && a[0] == b[0] {
      SubsequenceDropHead(a, b[1..]);
    }
  }

  /** Leaving out the first element keeps a subsequence a subsequence. */
  lemma {:induction false} SubsequenceDropHead<T>(a: seq<T>, c: seq<T>)
    requires a != [] && IsSubsequence(a, c)
    ensures IsSubsequence(a[1..], c)
    decreases |c|, 1
  {
    if a[0] == c[0] {
      SubsequenceOfTail(a[1..], c);
    } else {
      SubsequenceDropHead(a, c[1..]);
      SubsequenceOfTail(a[1..], c);
    }
  }

  /** A list whose records all match is kept whole. */
  lemma {:induction false} FilterKeepsMatching(list: seq<Freelancer>, query: string)
    requires forall f :: f in list ==> Matches(f, query)
    ensures Filter(list, query) == list
    decreases |list|
  {
    if list != [] {
      assert list[0] in list;
      var rest := list[1..];
      forall f | f in rest
        ensures Matches(f, query)
      {
        assert f in list;
      }
      FilterKeepsMatching(rest, query);
      calc {
        Filter(list, query);
        [list[0]] + Filter(rest, query);
        [list[0]] + rest;
        list;
      }
    }
  }

  /** Filtering twice with the same query gives what filtering once gave. */
  lemma FilterIdempotent(list: seq<Freelancer>, query: string)
    ensures Filter(Filter(list, query), query) == Filter(list, query)
  {
    FilterKeepsMatching(Filter(list, query), query);
  }

  /** The empty query keeps every record. */
  lemma EmptyQueryKeepsAll(list: seq<Freelancer>)
    ensures Filter(list, "") == list
  {
    forall f | f in list
      ensures Matches(f, "")
    {
      assert OccursAt(Lower(f.nome), Lower(""), 0);
    }
    FilterKeepsMatching(list, "");
  }

  /** The query matches regardless of letter case. */
  lemma MatchIgnoresCase(f: Freelancer, query: string)
    ensures Matches(f, query) <==> Matches(f, Lower(query))
  {
    assert Lower(Lower(query)) == Lower(query);
  }

  /** "<n> freelancer", with an "s" unless there is exactly one. */
  function CountLabel(n: nat): (s: string)
    ensures |s| > |Decimal.NatToString(n)|
    ensures s[..|Decimal.NatToString(n)|] == Decimal.NatToString(n)
    ensures s[|s| - 1] == 's' <==> n != 1
  {
    Decimal.NatToString(n) + " freelancer" + (if n != 1 then "s" else "")
  }
}
