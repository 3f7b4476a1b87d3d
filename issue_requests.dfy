/**
 The issue-request store (src/issuerequest.rs) over the tables that
 src/postgresini.rs creates: `issue_request` (a SERIAL id, a creation
 timestamp, a JSON payload) and the three link tables
 `issue_request_articulos`, `issue_request_clientes` and
 `issue_request_pedidos`, each keyed by its (issue request, target) pair and
 with foreign keys to the issue request and to the target's table.

 The tables are fields of a class; the SQL statements are its methods. The
 target tables (articles, customers, orders) belong to other parts of the
 system and are given as sets of existing ids.
 */
module IssueRequests {
  import opened Basics

  /** A row of `issue_request`; `fechaCreacion` is the timestamp as a number on the database clock. */
  datatype IssueRequest = IssueRequest(id: i32, fechaCreacion: int, data: Json)

  /** Which link table, and so which target table, a link belongs to. */
  datatype TargetKind = Articulo | Cliente | Pedido

  /** A row of a link table: `(issue_request_id, <target>_id)`. */
  datatype Link = Link(issueRequestId: i32, targetId: i32)

  /** The statement failures the model covers: the constraints of the schema and the end of the SERIAL sequence. */
  datatype DbError = UniqueViolation | ForeignKeyViolation | SequenceExhausted

  /** The largest value of a SERIAL (int4) column. */
  const MaxSerial: int := 0x7FFF_FFFF

  /** The ids present in `issue_request`. */
  function Ids(requests: seq<IssueRequest>): set<i32> {
    set i | 0 <= i < |requests| :: requests[i].id
  }

  lemma IdsSnoc(s: seq<IssueRequest>, x: IssueRequest)
    ensures Ids(s + [x]) == Ids(s) + {x.id}
  {
    forall id | id in Ids(s)
      ensures id in Ids(s + [x])
    {
      var i :| 0 <= i < |s| && s[i].id == id;
      assert (s + [x])[i].id == id;
    }
    assert (s + [x])[|s|].id == x.id;
  }

  /** The rows of `issue_request` linked to `targetId` through `links`, in table order. */
  function Linked(requests: seq<IssueRequest>, links: set<Link>, targetId: i32): seq<IssueRequest>
    decreases |requests|
  {
    if requests == [] then []
    else
      var x := requests[|requests| - 1];
      var before := Linked(requests[..|requests| - 1], links, targetId);
      if Link(x.id, targetId) in links then before + [x] else before
  }

  /** `ORDER BY fecha_creacion DESC`. */
  ghost predicate NewestFirstOrder(s: seq<IssueRequest>) {
    forall i, j :: 0 <= i < j < |s| ==> s[j].fechaCreacion <= s[i].fechaCreacion
  }

  /** No row appears twice: all ids differ. */
  ghost predicate DistinctIds(s: seq<IssueRequest>) {
    forall i, j :: 0 <= i < j < |s| ==> s[i].id != s[j].id
  }

  /** Puts `x` in front of the first row strictly older than it. */
  function Insert(s: seq<IssueRequest>, x: IssueRequest): seq<IssueRequest>
    decreases |s|
  {
    if s == [] then [x]
    else if s[0].fechaCreacion < x.fechaCreacion then [x] + s
    else [s[0]] + Insert(s[1..], x)
  }

  /** The rows of `s` newest first, equal timestamps kept in table order. */
  function NewestFirst(s: seq<IssueRequest>): seq<IssueRequest>
    decreases |s|
  {
    if s == [] then [] else Insert(NewestFirst(s[..|s| - 1]), s[|s| - 1])
  }

  // ---------------------------------------------------------------------------
  // Lemmas about the query specification
  // ---------------------------------------------------------------------------

  lemma {:induction false} InsertPermutes(s: seq<IssueRequest>, x: IssueRequest)
    ensures multiset(Insert(s, x)) == multiset(s) + multiset{x}
    decreases |s|
  {
    if s != [] && s[0].fechaCreacion >= x.fechaCreacion {
      InsertPermutes(s[1..], x);
      assert s == [s[0]] + s[1..];
    }
  }

  lemma {:induction false} InsertKeepsOrder(s: seq<IssueRequest>, x: IssueRequest)
    requires NewestFirstOrder(s)
    ensures NewestFirstOrder(Insert(s, x))
    decreases |s|
  {
    if s != [] && s[0].fechaCreacion >= x.fechaCreacion {
      var tail := Insert(s[1..], x);
      InsertKeepsOrder(s[1..], x);
      InsertPermutes(s[1..], x);
      forall k | 0 <= k < |tail|
        ensures tail[k].fechaCreacion <= s[0].fechaCreacion
      {
        assert tail[k] in multiset(tail);
        assert tail[k] in s[1..] || tail[k] == x;
      }
    }
  }

  /** Where the inserted row lands: after every row at least as new, before the first older one. */
  lemma {:induction false} InsertAt(s: seq<IssueRequest>, x: IssueRequest, j: nat)
    requires j <= |s|
    requires forall k :: 0 <= k < j ==> s[k].fechaCreacion >= x.fechaCreacion
    requires j == |s| || s[j].fechaCreacion < x.fechaCreacion
    ensures Insert(s, x) == s[..j] + [x] + s[j..]
    decreases j
  {
    if j > 0 {
      InsertAt(s[1..], x, j - 1);
      assert s[..j] == [s[0]] + s[1..][..j - 1];
      assert s[j..] == s[1..][j - 1..];
    }
  }

  /** The query result is a permutation of the linked rows. */
  lemma {:induction false} NewestFirstPermutes(s: seq<IssueRequest>)
    ensures multiset(NewestFirst(s)) == multiset(s)
    decreases |s|
  {
    if s != [] {
      var init := s[..|s| - 1];
      NewestFirstPermutes(init);
      InsertPermutes(NewestFirst(init), s[|s| - 1]);
      assert s == init + [s[|s| - 1]];
    }
  }

  /** The query result is ordered newest first. */
  lemma {:induction false} NewestFirstIsOrdered(s: seq<IssueRequest>)
    ensures NewestFirstOrder(NewestFirst(s))
    decreases |s|
  {
    if s != [] {
      NewestFirstIsOrdered(s[..|s| - 1]);
      InsertKeepsOrder(NewestFirst(s[..|s| - 1]), s[|s| - 1]);
    }
  }

  /** The linked rows are exactly the table rows whose id is linked to the target. */
  lemma {:induction false} LinkedMembers(requests: seq<IssueRequest>, links: set<Link>, targetId: i32, x: IssueRequest)
    ensures x in Linked(requests, links, targetId) <==> x in requests && Link(x.id, targetId) in links
    decreases |requests|
  {
    if requests != [] {
      var init := requests[..|requests| - 1];
      LinkedMembers(init, links, targetId, x);
      assert requests == init + [requests[|requests| - 1]];
    }
  }

  /** Ids strictly increase along the table, as SERIAL hands them out. */
  ghost predicate IdsIncreasing(s: seq<IssueRequest>) {
    forall i, j :: 0 <= i < j < |s| ==> s[i].id < s[j].id
  }

  /** Keeping some rows of an id-ordered table, in order, keeps the ids ordered. */
  lemma {:induction false} LinkedIdsIncreasing(requests: seq<IssueRequest>, links: set<Link>, targetId: i32)
    requires IdsIncreasing(requests)
    ensures IdsIncreasing(Linked(requests, links, targetId))
    decreases |requests|
  {
    if requests != [] {
      var init := requests[..|requests| - 1];
      var x := requests[|requests| - 1];
      LinkedIdsIncreasing(init, links, targetId);
      var before := Linked(init, links, targetId);
      forall k | 0 <= k < |before|
        ensures before[k].id < x.id
      {
        LinkedMembers(init, links, targetId, before[k]);
      }
    }
  }

  lemma {:induction false} InsertKeepsDistinct(s: seq<IssueRequest>, x: IssueRequest)
    requires DistinctIds(s)
    requires forall k :: 0 <= k < |s| ==> s[k].id != x.id
    ensures DistinctIds(Insert(s, x))
    decreases |s|
  {
    if s != [] && s[0].fechaCreacion >= x.fechaCreacion {
      var tail := Insert(s[1..], x);
      InsertKeepsDistinct(s[1..], x);
      InsertPermutes(s[1..], x);
      forall k | 0 <= k < |tail|
        ensures tail[k].id != s[0].id
      {
        assert tail[k] in multiset(tail);
        assert tail[k] in s[1..] || tail[k] == x;
      }
    }
  }

  /** Sorting rows with distinct ids keeps them distinct. */
  lemma {:induction false} NewestFirstDistinct(s: seq<IssueRequest>)
    requires DistinctIds(s)
    ensures DistinctIds(NewestFirst(s))
    decreases |s|
  {
    if s != [] {
      var init := s[..|s| - 1];
      var x := s[|s| - 1];
      NewestFirstDistinct(init);
      NewestFirstPermutes(init);
      var sorted := NewestFirst(init);
      forall k | 0 <= k < |sorted|
        ensures sorted[k].id != x.id
      {
        assert sorted[k] in multiset(sorted);
      }
      InsertKeepsDistinct(sorted, x);
    }
  }

  /**
   What a query by target returns: every table row linked to the target and
   nothing else, each once, newest first.
   */
  lemma QueryProperties(requests: seq<IssueRequest>, links: set<Link>, targetId: i32)
    requires IdsIncreasing(requests)
    ensures var r := NewestFirst(Linked(requests, links, targetId));
      NewestFirstOrder(r) && DistinctIds(r) &&
      multiset(r) == multiset(Linked(requests, links, targetId)) &&
      forall x :: x in r <==> x in requests && Link(x.id, targetId) in links
  {
    var linked := Linked(requests, links, targetId);
    NewestFirstIsOrdered(linked);
    NewestFirstPermutes(linked);
    LinkedIdsIncreasing(requests, links, targetId);
    NewestFirstDistinct(linked);
    forall x
      ensures x in NewestFirst(linked) <==> x in requests && Link(x.id, targetId) in links
    {
      assert x in NewestFirst(linked) <==> x in multiset(linked);
      LinkedMembers(requests, links, targetId, x);
    }
  }

  /** A new row with a fresh id is linked to nothing, so no query result changes. */
  lemma CreateKeepsQueries(requests: seq<IssueRequest>, links: set<Link>, x: IssueRequest, targetId: i32)
    requires x.id !in Ids(requests)
    requires forall l :: l in links ==> l.issueRequestId in Ids(requests)
    ensures Linked(requests + [x], links, targetId) == Linked(requests, links, targetId)
  {
    assert (requests + [x])[..|requests|] == requests;
  }

  /** A link for one target leaves every other target's query as it was. */
  lemma {:induction false} LinkKeepsOtherTargets(requests: seq<IssueRequest>, links: set<Link>, l: Link, targetId: i32)
    requires l.targetId != targetId
    ensures Linked(requests, links + {l}, targetId) == Linked(requests, links, targetId)
    decreases |requests|
  {
    if requests != [] {
      LinkKeepsOtherTargets(requests[..|requests| - 1], links, l, targetId);
    }
  }

  /** After linking an existing row to a target, the target's query returns that row. */
  lemma LinkShowsInQuery(requests: seq<IssueRequest>, links: set<Link>, i: nat, targetId: i32)
    requires i < |requests|
    ensures requests[i] in NewestFirst(Linked(requests, links + {Link(requests[i].id, targetId)}, targetId))
  {
    var linked := Linked(requests, links + {Link(requests[i].id, targetId)}, targetId);
    LinkedMembers(requests, links + {Link(requests[i].id, targetId)}, targetId, requests[i]);
    NewestFirstPermutes(linked);
    assert requests[i] in multiset(linked);
  }

  // ---------------------------------------------------------------------------
  // The tables
  // ---------------------------------------------------------------------------

  class IssueRequestStore {
    /** `issue_request`, in insertion order. */
    var requests: seq<IssueRequest>
    /** The next value of the id's SERIAL sequence. */
    var nextId: int
    var articuloLinks: set<Link>
    var clienteLinks: set<Link>
    var pedidoLinks: set<Link>
    /** The ids of the target tables `articulos`, `clientes` and `pedidos`. */
    const articulos: set<i32>
    const clientes: set<i32>
    const pedidos: set<i32>

    function LinksOf(kind: TargetKind): set<Link>
      reads this
    {
      match kind
      case Articulo => articuloLinks
      case Cliente => clienteLinks
      case Pedido => pedidoLinks
    }

    function TargetsOf(kind: TargetKind): set<i32> {
      match kind
      case Articulo => articulos
      case Cliente => clientes
      case Pedido => pedidos
    }

    /** Every link row satisfies both of its foreign keys. */
    ghost predicate LinksResolve(kind: TargetKind)
      reads this
    {
      forall l :: l in LinksOf(kind) ==> l.issueRequestId in Ids(requests) && l.targetId in TargetsOf(kind)
    }

    /**
     The schema's guarantees: ids come from the sequence, so they are
     positive, increase along the table and are below its next value; every
     link row points at an existing issue request and an existing target.
     */
    ghost predicate Valid()
      reads this
    {
      && 1 <= nextId <= MaxSerial + 1
      && IdsIncreasing(requests)
      && (forall i :: 0 <= i < |requests| ==> 1 <= requests[i].id < nextId)
      && LinksResolve(Articulo) && LinksResolve(Cliente) && LinksResolve(Pedido)
    }

    constructor (articulos: set<i32>, clientes: set<i32>, pedidos: set<i32>)
      ensures Valid()
      ensures requests == [] && nextId == 1
      ensures articuloLinks == {} && clienteLinks == {} && pedidoLinks == {}
      ensures this.articulos == articulos && this.clientes == clientes && this.pedidos == pedidos
    {
      requests := [];
      nextId := 1;
      articuloLinks, clienteLinks, pedidoLinks := {}, {}, {};
      this.articulos, this.clientes, this.pedidos := articulos, clientes, pedidos;
    }

    /**
     `postgres_create_issue_request`: `INSERT INTO issue_request (data)`.
     Only the payload is taken from the input; the id comes from the
     sequence and the timestamp from the database clock `now`.
     */
    method Create(input: IssueRequest, now: int) returns (r: Result<IssueRequest, DbError>)
      requires Valid()
      modifies this
      ensures Valid()
      ensures r.Ok? <==> old(nextId) <= MaxSerial
      ensures r.Ok? ==> r.value == IssueRequest(old(nextId), now, input.data)
      ensures r.Ok? ==> r.value.id != 0 && r.value.id !in Ids(old(requests))
      ensures r.Ok? ==> requests == old(requests) + [r.value] && nextId == old(nextId) + 1
      ensures r.Err? ==> r.error == SequenceExhausted && requests == old(requests) && nextId == old(nextId)
      ensures articuloLinks == old(articuloLinks) && clienteLinks == old(clienteLinks) && pedidoLinks == old(pedidoLinks)
    {
      if nextId > MaxSerial {
        return Err(SequenceExhausted);
      }
      var row := IssueRequest(nextId, now, input.data);
      requests := requests + [row];
      nextId := nextId + 1;
      IdsSnoc(old(requests), row);
      r := Ok(row);
    }

    /**
     `postgres_create_issue_request_{articulo,cliente,pedido}`: insert one
     row into the link table of `kind`. A pair already present violates the
     composite primary key; an issue request or a target that does not exist
     violates a foreign key. Nothing else changes.
     */
    method AddLink(kind: TargetKind, issueRequestId: i32, targetId: i32) returns (r: Result<(), DbError>)
      requires Valid()
      modifies this
      ensures Valid()
      ensures r == Err(UniqueViolation) <==> Link(issueRequestId, targetId) in old(LinksOf(kind))
      ensures r.Ok? <==> (Link(issueRequestId, targetId) !in old(LinksOf(kind)) &&
                          issueRequestId in Ids(requests) && targetId in TargetsOf(kind))
      ensures r.Err? && r.error != UniqueViolation ==> r.error == ForeignKeyViolation
      ensures LinksOf(kind) == if r.Ok? then old(LinksOf(kind)) + {Link(issueRequestId, targetId)} else old(LinksOf(kind))
      ensures forall k :: k != kind ==> LinksOf(k) == old(LinksOf(k))
      ensures requests == old(requests) && nextId == old(nextId)
    {
      var link := Link(issueRequestId, targetId);
      if link in LinksOf(kind) {
        return Err(UniqueViolation);
      }
      if issueRequestId !in Ids(requests) || targetId !in TargetsOf(kind) {
        return Err(ForeignKeyViolation);
      }
      match kind {
        case Articulo => articuloLinks := articuloLinks + {link};
        case Cliente => clienteLinks := clienteLinks + {link};
        case Pedido => pedidoLinks := pedidoLinks + {link};
      }
      r := Ok(());
    }

    /**
     The shared shape of the two queries: scan `issue_request`, keep the rows
     whose id is linked to `targetId`, and place each before the first kept
     row that is strictly older. Rows with equal timestamps therefore keep
     their table order; SQL leaves that order unspecified, so this tie order
     is a choice of the model.
     */
    method Query(links: set<Link>, targetId: i32) returns (r: seq<IssueRequest>)
      ensures r == NewestFirst(Linked(requests, links, targetId))
    {
      r := [];
      var i := 0;
      while i < |requests|
        invariant 0 <= i <= |requests|
        invariant r == NewestFirst(Linked(requests[..i], links, targetId))
      {
        var x := requests[i];
        assert requests[..i + 1][..i] == requests[..i];
        if Link(x.id, targetId) in links {
          var j := 0;
          while j < |r| && r[j].fechaCreacion >= x.fechaCreacion
            invariant 0 <= j <= |r|
            invariant forall k :: 0 <= k < j ==> r[k].fechaCreacion >= x.fechaCreacion
          {
            j := j + 1;
          }
          InsertAt(r, x, j);
          r := r[..j] + [x] + r[j..];
          assert Linked(requests[..i + 1], links, targetId) == Linked(requests[..i], links, targetId) + [x];
        }
        i := i + 1;
      }
      assert requests[..i] == requests;
    }

    /**
     `postgres_get_issue_requests_by_articulo`: the rows linked to the
     article, newest first (ties in `Query`'s table order).
     */
    method ByArticulo(articuloId: i32) returns (r: seq<IssueRequest>)
      ensures r == NewestFirst(Linked(requests, articuloLinks, articuloId))
      ensures NewestFirstOrder(r)
      ensures multiset(r) == multiset(Linked(requests, articuloLinks, articuloId))
      ensures forall x :: x in r <==> x in requests && Link(x.id, articuloId) in articuloLinks
      ensures Valid() ==> DistinctIds(r)
    {
      r := Query(articuloLinks, articuloId);
      QueryFacts(articuloLinks, articuloId);
    }

    /**
     `postgres_get_issue_requests_by_cliente`: the rows linked to the
     customer, newest first (ties in `Query`'s table order).
     */
    method ByCliente(clienteId: i32) returns (r: seq<IssueRequest>)
      ensures r == NewestFirst(Linked(requests, clienteLinks, clienteId))
      ensures NewestFirstOrder(r)
      ensures multiset(r) == multiset(Linked(requests, clienteLinks, clienteId))
      ensures forall x :: x in r <==> x in requests && Link(x.id, clienteId) in clienteLinks
      ensures Valid() ==> DistinctIds(r)
    {
      r := Query(clienteLinks, clienteId);
      QueryFacts(clienteLinks, clienteId);
    }

    lemma QueryFacts(links: set<Link>, targetId: i32)
      ensures var r := NewestFirst(Linked(requests, links, targetId));
        NewestFirstOrder(r) &&
        multiset(r) == multiset(Linked(requests, links, targetId)) &&
        (forall x :: x in r <==> x in requests && Link(x.id, targetId) in links) &&
        (Valid() ==> DistinctIds(r))
    {
      var linked := Linked(requests, links, targetId);
      NewestFirstIsOrdered(linked);
      NewestFirstPermutes(linked);
      forall x
        ensures x in NewestFirst(linked) <==> x in requests && Link(x.id, targetId) in links
      {
        assert x in NewestFirst(linked) <==> x in multiset(linked);
        LinkedMembers(requests, links, targetId, x);
      }
      if Valid() {
        QueryProperties(requests, links, targetId);
      }
    }
  }
}
