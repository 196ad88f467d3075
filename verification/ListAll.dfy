/**
Following a paginated list method to its end (pg/pg_mcp/src/client.rs,
`list_all`), against a server that may answer anything at any time.
*/
module ListAll {
  import opened Options

  const MAX_LIST_PAGES: nat := 1000

  datatype Reply = Page(items: seq<string>, next: Option<string>) | Refused(error: string)

  /** The answer to request number `n`, made with the given cursor. */
  type Server = (nat, Option<string>) -> Reply

  datatype Listing = Whole(items: seq<string>) | Raised(error: string) | Repeated | TooManyPages

  /** The cursor of request number `i`, when each follows the one before it. */
  function CursorAt(server: Server, i: nat): Option<string> {
    if i == 0 then None
    else
      match server(i - 1, CursorAt(server, i - 1))
      case Page(_, next) => next
      case Refused(_) => None
  }

  function ReplyAt(server: Server, i: nat): Reply { server(i, CursorAt(server, i)) }

  /** The items of the first `n` pages, in order. */
  function Pages(server: Server, n: nat): seq<string> {
    if n == 0 then []
    else Pages(server, n - 1) + match ReplyAt(server, n - 1) case Page(items, _) => items case Refused(_) => []
  }

  /** The first `n` requests are answered by pages that name further, distinct
      cursors. */
  ghost predicate Chain(server: Server, n: nat) {
    && (forall i | 0 <= i < n :: ReplyAt(server, i).Page? && ReplyAt(server, i).next.Some?)
    && (forall i, j | 0 < i < j <= n :: CursorAt(server, i) != CursorAt(server, j))
  }

  /** Request number `n` ends a chain. */
  ghost predicate Complete(server: Server, n: nat) {
    Chain(server, n) && ReplyAt(server, n).Page? && ReplyAt(server, n).next.None?
  }

  /** Request number `n` names a cursor that was followed already. */
  ghost predicate Cycles(server: Server, n: nat) {
    && Chain(server, n) && ReplyAt(server, n).Page? && ReplyAt(server, n).next.Some?
    && exists i | 0 < i <= n :: CursorAt(server, i) == ReplyAt(server, n).next
  }

  /** How a listing ended, with its last request. */
  ghost predicate Ended(server: Server, out: Listing, requests: nat) {
    match out
    case Whole(items) => requests > 0 && Complete(server, requests - 1) && items == Pages(server, requests)
    case Raised(error) => requests > 0 && Chain(server, requests - 1) && ReplyAt(server, requests - 1) == Refused(error)
    case Repeated => requests > 0 && Cycles(server, requests - 1)
    case TooManyPages => requests == MAX_LIST_PAGES && Chain(server, MAX_LIST_PAGES)
  }

  /** Whatever the server does, the list ends within the page limit and follows no
      cursor twice, and success means every page of a complete chain, in order. */
  method All(server: Server) returns (out: Listing, requests: nat, followed: seq<string>)
    ensures requests <= MAX_LIST_PAGES && Ended(server, out, requests)
    ensures forall i, j | 0 <= i < j < |followed| :: followed[i] != followed[j]
    ensures |followed| <= requests <= |followed| + 1
    ensures forall i | 0 <= i < |followed| :: CursorAt(server, i + 1) == Some(followed[i])
  {
    var items: seq<string>, cursor: Option<string> := [], None;
    followed := [];
    while true
      invariant |followed| <= MAX_LIST_PAGES && Chain(server, |followed|)
      invariant forall i | 0 <= i < |followed| :: CursorAt(server, i + 1) == Some(followed[i])
      invariant cursor == CursorAt(server, |followed|) && items == Pages(server, |followed|)
      decreases MAX_LIST_PAGES - |followed|
    {
      var k := |followed|;
      if k >= MAX_LIST_PAGES {
        FollowedDiffer(server, followed);
        return TooManyPages, k, followed;
      }
      var reply := server(k, cursor);
      match reply {
        case Refused(error) =>
          FollowedDiffer(server, followed);
          return Raised(error), k + 1, followed;
        case Page(page, next) =>
          items := items + page;
          if next.None? {
            FollowedDiffer(server, followed);
            return Whole(items), k + 1, followed;
          }
          if next.value in followed {
            FollowedDiffer(server, followed);
            CyclesHere(server, followed);
            return Repeated, k + 1, followed;
          }
          Extends(server, k, followed);
          cursor, followed := next, followed + [next.value];
      }
    }
  }

  lemma FollowedDiffer(server: Server, followed: seq<string>)
    requires Chain(server, |followed|)
    requires forall i | 0 <= i < |followed| :: CursorAt(server, i + 1) == Some(followed[i])
    ensures forall i, j | 0 <= i < j < |followed| :: followed[i] != followed[j]
  {
    forall i, j | 0 <= i < j < |followed| ensures followed[i] != followed[j] {
      assert CursorAt(server, i + 1) != CursorAt(server, j + 1);
    }
  }

  lemma CyclesHere(server: Server, followed: seq<string>)
    requires Chain(server, |followed|)
    requires forall i | 0 <= i < |followed| :: CursorAt(server, i + 1) == Some(followed[i])
    requires ReplyAt(server, |followed|).Page? && ReplyAt(server, |followed|).next.Some?
    requires ReplyAt(server, |followed|).next.value in followed
    ensures Cycles(server, |followed|)
  {
    var i :| 0 <= i < |followed| && followed[i] == ReplyAt(server, |followed|).next.value;
    assert CursorAt(server, i + 1) == Some(followed[i]);
  }

  lemma Extends(server: Server, k: nat, followed: seq<string>)
    requires Chain(server, k) && |followed| == k
    requires forall i | 0 <= i < k :: CursorAt(server, i + 1) == Some(followed[i])
    requires ReplyAt(server, k).Page? && ReplyAt(server, k).next.Some? && ReplyAt(server, k).next.value !in followed
    ensures Chain(server, k + 1) && CursorAt(server, k + 1) == ReplyAt(server, k).next
  {
    forall i, j | 0 < i < j <= k + 1 ensures CursorAt(server, i) != CursorAt(server, j) {
      if j == k + 1 {
        assert CursorAt(server, (i - 1) + 1) == Some(followed[i - 1]);
      }
    }
  }

  lemma CyclesNowhereElse(server: Server, n: nat, k: nat)
    requires Chain(server, n) && k < n
    ensures !Cycles(server, k)
  {
    assert CursorAt(server, k + 1) == ReplyAt(server, k).next;
  }

  /** Every chain that ends within the limit is returned whole. */
  lemma ChainsAreReturnedWhole(server: Server, out: Listing, requests: nat, n: nat)
    requires Ended(server, out, requests) && Complete(server, n) && n < MAX_LIST_PAGES
    ensures out == Whole(Pages(server, n + 1)) && requests == n + 1
  {
    if out.Repeated? && requests - 1 < n {
      CyclesNowhereElse(server, n, requests - 1);
    }
    assert Chain(server, n) && ReplyAt(server, n).next.None?;
  }
}
