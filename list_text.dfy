/** How the list-valued argument types print their items: "[", then each item followed by
    ", " except the last, then "]". */
module ListText {
  import opened DotNet

  /** Item `k` as the printing loops append it. */
  function Piece(items: seq<string>, k: nat): string
    requires k < |items|
  {
    items[k] + (if k == |items| - 1 then "" else ", ")
  }

  /** What the printing loop has appended after its first `n` rounds. */
  function Pieces(items: seq<string>, n: nat): string
    requires n <= |items|
  {
    if n == 0 then "" else Pieces(items, n - 1) + Piece(items, n - 1)
  }

  /** The whole text a printing loop produces. */
  function Listed(items: seq<string>): (r: string)
    ensures |r| >= 2 && r[0] == '[' && r[|r| - 1] == ']'
  {
    "[" + Pieces(items, |items|) + "]"
  }

  lemma {:induction false} PiecesCons(a: string, rest: seq<string>, n: nat)
    requires n <= |rest|
    ensures Pieces([a] + rest, n + 1) == Piece([a] + rest, 0) + Pieces(rest, n)
    decreases n
  {
    if n > 0 {
      PiecesCons(a, rest, n - 1);
      assert Piece([a] + rest, n) == Piece(rest, n - 1);
    }
  }

  /** The loop's text is the items joined with ", ". */
  lemma {:induction false} PiecesJoin(items: seq<string>)
    ensures Pieces(items, |items|) == Join(items, ", ")
    decreases |items|
  {
    if items != [] {
      var rest := items[1..];
      assert items == [items[0]] + rest;
      PiecesCons(items[0], rest, |rest|);
      PiecesJoin(rest);
    }
  }

  /** So the printed text is "[", the items joined with ", ", and "]". */
  lemma ListedJoin(items: seq<string>)
    ensures Listed(items) == "[" + Join(items, ", ") + "]"
  {
    PiecesJoin(items);
  }
}
