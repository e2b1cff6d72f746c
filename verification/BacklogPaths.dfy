/** Hierarchy paths as the grid-entry code writes them, names joined by colons, and what that can confuse. */
module BacklogPaths {
  import opened BacklogTree

  function Join(keys: seq<Key>): string {
    if keys == [] then ""
    else if |keys| == 1 then keys[0]
    else keys[0] + ":" + Join(keys[1..])
  }

  /** A name cut at its colons. */
  function Pieces(s: string): (r: seq<string>)
    ensures r != []
  {
    if s == "" then [""]
    else
      var rest := Pieces(s[1..]);
      if s[0] == ':' then [""] + rest else [[s[0]] + rest[0]] + rest[1..]
  }

  /** The pieces of all names of a path, in order. */
  function AllPieces(keys: seq<Key>): seq<string> {
    if keys == [] then [] else Pieces(keys[0]) + AllPieces(keys[1..])
  }

  lemma {:induction false} PiecesAppend(a: string, b: string)
    ensures Pieces(a + ":" + b) == Pieces(a) + Pieces(b)
  {
    hide Pieces;
    var s := a + ":" + b;
    if a == "" {
      CutFirst(s);
      EmptyPiece();
      assert s[1..] == b;
    } else {
      PiecesAppend(a[1..], b);
      assert s[1..] == a[1..] + ":" + b && s[0] == a[0];
      var front := Pieces(a[1..]);
      var rest := front + Pieces(b);
      assert Pieces(s[1..]) == rest && rest[0] == front[0] && rest[1..] == front[1..] + Pieces(b);
      CutFirst(s);
      CutFirst(a);
    }
  }

  lemma EmptyPiece()
    ensures Pieces("") == [""]
  {
  }

  /** The first character of a name either is a colon, or opens the first piece. */
  lemma CutFirst(s: string)
    requires s != ""
    ensures var rest := Pieces(s[1..]);
            Pieces(s) == if s[0] == ':' then [""] + rest else [[s[0]] + rest[0]] + rest[1..]
  {
  }

  lemma {:induction false} PiecesOfJoin(keys: seq<Key>)
    requires keys != []
    ensures Pieces(Join(keys)) == AllPieces(keys)
  {
    if |keys| == 1 {
      assert keys[1..] == [];
    } else {
      PiecesOfJoin(keys[1..]);
      PiecesAppend(keys[0], Join(keys[1..]));
    }
  }

  lemma {:induction false} JoinOfPieces(s: string)
    ensures Join(Pieces(s)) == s
  {
    if s == "" {
    } else {
      JoinOfPieces(s[1..]);
      var rest := Pieces(s[1..]);
      if s[0] == ':' {
        assert ([""] + rest)[1..] == rest;
      } else {
        assert ([[s[0]] + rest[0]] + rest[1..])[1..] == rest[1..];
      }
      assert s == [s[0]] + s[1..];
    }
  }

  /** Exactly when two paths, of features, stories or tasks, are written alike: cut at colons, their names give the same pieces. */
  lemma WrittenAlikeExactly(a: seq<Key>, b: seq<Key>)
    requires a != [] && b != []
    ensures Join(a) == Join(b) <==> AllPieces(a) == AllPieces(b)
  {
    PiecesOfJoin(a);
    PiecesOfJoin(b);
    JoinOfPieces(Join(a));
    JoinOfPieces(Join(b));
  }

  predicate ColonFree(keys: seq<Key>) {
    forall k :: k in keys ==> ':' !in k
  }

  lemma {:induction false} OnePiece(s: string)
    requires ':' !in s
    ensures Pieces(s) == [s]
  {
    if s == "" {
    } else {
      OnePiece(s[1..]);
      assert s == [s[0]] + s[1..];
    }
  }

  lemma {:induction false} OnePieceEach(keys: seq<Key>)
    requires ColonFree(keys)
    ensures AllPieces(keys) == keys
  {
    if keys == [] {
    } else {
      OnePiece(keys[0]);
      OnePieceEach(keys[1..]);
    }
  }

  /** Between names without colons, joined paths are as good as the names themselves. */
  lemma JoinIsFaithful(a: seq<Key>, b: seq<Key>)
    requires a != [] && b != [] && ColonFree(a) && ColonFree(b)
    ensures Join(a) == Join(b) <==> a == b
  {
    WrittenAlikeExactly(a, b);
    OnePieceEach(a);
    OnePieceEach(b);
  }

  /** One epic name is the other one followed by a colon and the start of the other feature name. */
  ghost predicate Shifted(epicA: Key, featureA: Key, epicB: Key, featureB: Key) {
    exists middle :: epicA == epicB + ":" + middle && featureB == middle + ":" + featureA
  }

  /** For features that is: a colon has moved across the boundary. */
  lemma FeaturesConfused(epicA: Key, featureA: Key, epicB: Key, featureB: Key)
    ensures Join([epicA, featureA]) == Join([epicB, featureB]) <==>
              || (epicA == epicB && featureA == featureB)
              || Shifted(epicA, featureA, epicB, featureB)
              || Shifted(epicB, featureB, epicA, featureA)
  {
    JoinPair(epicA, featureA);
    JoinPair(epicB, featureB);
    if epicA + ":" + featureA == epicB + ":" + featureB {
      if |epicA| >= |epicB| {
        MovedColon(epicA, featureA, epicB, featureB);
      } else {
        MovedColon(epicB, featureB, epicA, featureA);
      }
    }
    if Shifted(epicA, featureA, epicB, featureB) {
      var middle :| epicA == epicB + ":" + middle && featureB == middle + ":" + featureA;
      assert epicB + ":" + middle + ":" + featureA == epicB + ":" + (middle + ":" + featureA);
    }
    if Shifted(epicB, featureB, epicA, featureA) {
      var middle :| epicB == epicA + ":" + middle && featureA == middle + ":" + featureB;
      assert epicA + ":" + middle + ":" + featureB == epicA + ":" + (middle + ":" + featureB);
    }
  }

  lemma JoinPair(a: Key, b: Key)
    ensures Join([a, b]) == a + ":" + b
  {
  }

  lemma MovedColon(epicA: Key, featureA: Key, epicB: Key, featureB: Key)
    requires |epicA| >= |epicB| && epicA + ":" + featureA == epicB + ":" + featureB
    ensures (epicA == epicB && featureA == featureB) || Shifted(epicA, featureA, epicB, featureB)
  {
    var s := epicA + ":" + featureA;
    assert epicA == s[..|epicA|] && epicB == s[..|epicB|];
    assert featureA == s[|epicA| + 1..] && featureB == s[|epicB| + 1..];
    if |epicA| > |epicB| {
      var middle := epicA[|epicB| + 1..];
      assert epicA[|epicB|] == s[|epicB|] == ':';
      assert epicA == epicB + ":" + middle;
      assert featureB == middle + ":" + featureA;
    }
  }
}
