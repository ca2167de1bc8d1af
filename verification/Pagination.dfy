/** The ListTunnels loop of internal/nubulus/tunnel.go: it advances by what came back, ends at an empty page,
    and asks for at most a thousand pages. */
module Pagination {

  const LIST_PAGE_LIMIT: nat := 1000

  /** A server that honours the offset. How many rows the n-th request gets is up to it, as long as it is at least
      one while rows remain; and any request may fail. */
  datatype Server<T> = Server(rows: seq<T>, size: (nat, nat) -> nat, fails: nat -> bool) {

    function PageLength(n: nat, offset: nat): (r: nat)
      ensures offset + r <= |rows| || r == 0
      ensures r == 0 <==> offset >= |rows|
    {
      if offset >= |rows| then 0
      else if size(n, offset) == 0 then 1
      else if offset + size(n, offset) > |rows| then |rows| - offset
      else size(n, offset)
    }

    function Page(n: nat, offset: nat): seq<T> {
      if offset >= |rows| then [] else rows[offset..offset + PageLength(n, offset)]
    }

    /** The offset after `n` pages. */
    function Offset(n: nat): (r: nat)
      ensures r <= |rows|
    {
      if n == 0 then 0 else Offset(n - 1) + PageLength(n - 1, Offset(n - 1))
    }

    /** The first `n` requests are answered, with rows. */
    ghost predicate Passes(n: nat) {
      forall k: nat :: k < n ==> !fails(k) && Offset(k) < |rows|
    }
  }

  datatype Listing<T> = Listed(all: seq<T>) | Failed

  /** The rows listed are a prefix, as far as a thousand pages reach; an error comes out exactly when one of the
      requests made fails. */
  method ListTunnels<T>(server: Server<T>) returns (r: Listing<T>)
    ensures r.Failed? <==> exists n: nat :: n < LIST_PAGE_LIMIT && server.Passes(n) && server.fails(n)
    ensures r.Listed? ==> r.all == server.rows[..server.Offset(LIST_PAGE_LIMIT)]
  {
    var all: seq<T> := [];
    var offset: nat := 0;
    for n := 0 to LIST_PAGE_LIMIT
      invariant offset == server.Offset(n) && all == server.rows[..offset]
      invariant server.Passes(n)
    {
      if server.fails(n) {
        return Failed;
      }
      var data := server.Page(n, offset);
      if |data| == 0 {
        EndStays(server, n, LIST_PAGE_LIMIT);
        return Listed(all);
      }
      assert all + data == server.rows[..offset + |data|];
      all := all + data;
      offset := offset + |data|;
    }
    r := Listed(all);
  }

  /** Past the end nothing moves. */
  lemma {:induction false} EndStays<T>(server: Server<T>, n: nat, m: nat)
    requires n <= m && server.Offset(n) == |server.rows|
    ensures server.Offset(m) == |server.rows|
    decreases m
  {
    if n < m {
      EndStays(server, n, m - 1);
    }
  }

  /** Every page brings at least one row until the end. */
  lemma {:induction false} OneRowAPage<T>(server: Server<T>, n: nat)
    ensures server.Offset(n) >= n || server.Offset(n) == |server.rows|
  {
    if n > 0 {
      OneRowAPage(server, n - 1);
    }
  }

  /** Some number of pages, at most a thousand, reaches the end. */
  ghost predicate Reachable<T>(server: Server<T>) {
    exists n: nat :: n <= LIST_PAGE_LIMIT && server.Offset(n) == |server.rows|
  }

  /** A listing is complete exactly when a thousand pages are enough, as they always are for a thousand rows. */
  lemma CompleteExactlyWhen<T>(server: Server<T>)
    ensures server.rows[..server.Offset(LIST_PAGE_LIMIT)] == server.rows <==> Reachable(server)
    ensures |server.rows| <= LIST_PAGE_LIMIT ==> Reachable(server)
  {
    OneRowAPage(server, LIST_PAGE_LIMIT);
    if Reachable(server) {
      var n: nat :| n <= LIST_PAGE_LIMIT && server.Offset(n) == |server.rows|;
      EndStays(server, n, LIST_PAGE_LIMIT);
    }
    if server.rows[..server.Offset(LIST_PAGE_LIMIT)] == server.rows {
      assert |server.rows[..server.Offset(LIST_PAGE_LIMIT)]| == |server.rows|;
    }
  }

  function Min(a: nat, b: nat): nat {
    if a < b then a else b
  }

  /** With pages of `c` rows each, `n` pages hold the first n * c rows. */
  lemma {:induction false} UniformPages<T>(server: Server<T>, c: nat, n: nat)
    requires c > 0 && forall k, offset :: server.size(k, offset) == c
    ensures server.Offset(n) == Min(|server.rows|, n * c)
  {
    if n > 0 {
      UniformPages(server, c, n - 1);
      assert n * c == (n - 1) * c + c;
    }
  }

  /** So a listing then holds exactly min(N, 1000 * c) rows: beyond that it is silently cut short. */
  lemma UniformLength<T>(server: Server<T>, c: nat)
    requires c > 0 && forall k, offset :: server.size(k, offset) == c
    ensures |server.rows[..server.Offset(LIST_PAGE_LIMIT)]| == Min(|server.rows|, LIST_PAGE_LIMIT * c)
    ensures Reachable(server) <==> |server.rows| <= LIST_PAGE_LIMIT * c
  {
    UniformPages(server, c, LIST_PAGE_LIMIT);
    CompleteExactlyWhen(server);
  }
}
