/** What one packing step does: nothing is lost, nothing overflows, the fullest nodes are used first. */
module PackingLaws {
  import opened Outcomes
  import opened Sequences
  import opened JobScheduler

  // ----- what nodes hold -----

  ghost function Packed(nodes: seq<Alloc>): multiset<Piece> {
    if nodes == [] then multiset{} else multiset(nodes[0].pieces) + Packed(nodes[1..])
  }

  lemma {:induction false} PackedAppend(a: seq<Alloc>, b: seq<Alloc>)
    ensures Packed(a + b) == Packed(a) + Packed(b)
    ensures SumTotals(a + b) == SumTotals(a) + SumTotals(b)
  {
    if a == [] {
      assert a + b == b;
    } else {
      assert (a + b)[1..] == a[1..] + b;
      PackedAppend(a[1..], b);
    }
  }

  lemma PackedOne(a: Alloc)
    ensures Packed([a]) == multiset(a.pieces) && SumTotals([a]) == Total(a)
  {
    assert [a][1..] == [];
  }

  lemma PackedMiddle(a: seq<Alloc>, x: Alloc, b: seq<Alloc>)
    ensures Packed(a + [x] + b) == multiset(x.pieces) + Packed(a + b)
    ensures SumTotals(a + [x] + b) == Total(x) + SumTotals(a + b)
  {
    PackedAppend(a + [x], b);
    PackedAppend(a, [x]);
    PackedAppend(a, b);
    PackedOne(x);
  }

  lemma {:induction false} PackedSort(nodes: seq<Alloc>)
    ensures Packed(Sort(nodes, FewerCores)) == Packed(nodes)
    ensures SumTotals(Sort(nodes, FewerCores)) == SumTotals(nodes)
  {
    if nodes != [] {
      var t := Sort(nodes[1..], FewerCores);
      PackedSort(nodes[1..]);
      var i := InsertSplits(nodes[0], t, FewerCores);
      assert t[..i] + t[i..] == t;
      PackedMiddle(t[..i], nodes[0], t[i..]);
    }
  }

  /** The cores of the placed nodes. */
  lemma {:induction false} PlacedTotals(s: seq<Alloc>, pieces: seq<Piece>, location: Option<string>, cap: int, i: nat)
    requires i <= |s|
    ensures SumTotals(PlacedUpTo(s, pieces, location, cap, i))
         == SumTotals(s[..i]) + SumPieces(pieces[..Taken(s, pieces, location, cap, i)])
  {
    if i > 0 {
      PlacedTotals(s, pieces, location, cap, i - 1);
      var a := Placed(s, pieces, location, cap, i - 1);
      assert s[..i] == s[..i - 1] + [s[i - 1]];
      PackedAppend(s[..i - 1], [s[i - 1]]);
      PackedAppend(PlacedUpTo(s, pieces, location, cap, i - 1), [a]);
      PackedOne(s[i - 1]);
      PackedOne(a);
      PushAdds(s, pieces, location, cap, i - 1);
    }
  }

  lemma BagStep(p: multiset<Piece>, s: multiset<Piece>, i: multiset<Piece>, a: multiset<Piece>, b: multiset<Piece>,
                j: multiset<Piece>)
    requires p == s + i && a + i == b + j
    ensures p + a == s + b + j
  {
    forall x
      ensures (p + a)[x] == (s + b + j)[x]
    {
      assert (a + i)[x] == (b + j)[x] && p[x] == (s + i)[x];
    }
  }

  /** The pieces of the placed nodes. */
  lemma {:induction false} PlacedPacked(s: seq<Alloc>, pieces: seq<Piece>, location: Option<string>, cap: int, i: nat)
    requires i <= |s|
    ensures Packed(PlacedUpTo(s, pieces, location, cap, i))
         == Packed(s[..i]) + multiset(pieces[..Taken(s, pieces, location, cap, i)])
  {
    if i > 0 {
      PlacedPacked(s, pieces, location, cap, i - 1);
      PlacedPackedStep(s, pieces, location, cap, i - 1);
    } else {
      assert s[..0] == [] && pieces[..0] == [];
    }
  }

  lemma PlacedPackedStep(s: seq<Alloc>, pieces: seq<Piece>, location: Option<string>, cap: int, i: nat)
    requires i < |s|
    requires Packed(PlacedUpTo(s, pieces, location, cap, i))
          == Packed(s[..i]) + multiset(pieces[..Taken(s, pieces, location, cap, i)])
    ensures Packed(PlacedUpTo(s, pieces, location, cap, i + 1))
         == Packed(s[..i + 1]) + multiset(pieces[..Taken(s, pieces, location, cap, i + 1)])
  {
    var a := Placed(s, pieces, location, cap, i);
    PackedLast(s[..i], s[i]);
    PackedLast(PlacedUpTo(s, pieces, location, cap, i), a);
    assert s[..i + 1] == s[..i] + [s[i]];
    PushAdds(s, pieces, location, cap, i);
    BagStep(Packed(PlacedUpTo(s, pieces, location, cap, i)), Packed(s[..i]),
            multiset(pieces[..Taken(s, pieces, location, cap, i)]), multiset(a.pieces), multiset(s[i].pieces),
            multiset(pieces[..Taken(s, pieces, location, cap, i + 1)]));
  }

  lemma PackedLast(a: seq<Alloc>, x: Alloc)
    ensures Packed(a + [x]) == Packed(a) + multiset(x.pieces)
  {
    PackedAppend(a, [x]);
    PackedOne(x);
  }

  /** A node that takes a piece holds exactly that much more. */
  lemma PushAdds(s: seq<Alloc>, pieces: seq<Piece>, location: Option<string>, cap: int, i: nat)
    requires i < |s|
    ensures var idx, after := Taken(s, pieces, location, cap, i), Taken(s, pieces, location, cap, i + 1);
            var a := Placed(s, pieces, location, cap, i);
            && multiset(a.pieces) + multiset(pieces[..idx]) == multiset(s[i].pieces) + multiset(pieces[..after])
            && Total(a) + SumPieces(pieces[..idx]) == Total(s[i]) + SumPieces(pieces[..after])
  {
    var idx := Taken(s, pieces, location, cap, i);
    if idx < |pieces| && Fits(s[i], pieces[idx].cores, location, cap) {
      assert pieces[..idx + 1] == pieces[..idx] + [pieces[idx]];
      assert (s[i].pieces + [pieces[idx]])[..|s[i].pieces|] == s[i].pieces;
      assert pieces[..idx + 1][..idx] == pieces[..idx];
    }
  }

  lemma {:induction false} NewNodesPacked(pieces: seq<Piece>, location: Option<string>)
    ensures Packed(NewNodes(pieces, location)) == multiset(pieces)
    ensures SumTotals(NewNodes(pieces, location)) == SumPieces(pieces)
  {
    if pieces != [] {
      var n := |pieces| - 1;
      var node := NewNode(pieces[n], location);
      NewNodesPacked(pieces[..n], location);
      PackedAppend(NewNodes(pieces[..n], location), [node]);
      PackedOne(node);
      SumOne(pieces[n]);
      assert pieces == pieces[..n] + [pieces[n]];
    }
  }

  lemma {:induction false} SumPiecesAppend(a: seq<Piece>, b: seq<Piece>)
    ensures SumPieces(a + b) == SumPieces(a) + SumPieces(b)
  {
    if b == [] {
      assert a + b == a;
    } else {
      assert (a + b)[..|a + b| - 1] == a + b[..|b| - 1];
      SumPiecesAppend(a, b[..|b| - 1]);
    }
  }

  /** Packing adds exactly the job's pieces. */
  lemma PackAddsPieces(nodes: seq<Alloc>, pieces: seq<Piece>, location: Option<string>, cap: int)
    ensures Packed(Pack(nodes, pieces, location, cap)) == Packed(nodes) + multiset(pieces)
  {
    var s := Sort(nodes, FewerCores);
    var idx := Taken(s, pieces, location, cap, |s|);
    PackedSort(nodes);
    PlacedPacked(s, pieces, location, cap, |s|);
    assert s[..|s|] == s;
    NewNodesPacked(pieces[idx..], location);
    PackedAppend(PlacedUpTo(s, pieces, location, cap, |s|), NewNodes(pieces[idx..], location));
    SplitBag(pieces, idx);
  }

  lemma SplitBag(pieces: seq<Piece>, i: nat)
    requires i <= |pieces|
    ensures multiset(pieces[..i]) + multiset(pieces[i..]) == multiset(pieces)
  {
    assert pieces == pieces[..i] + pieces[i..];
  }

  /** And exactly their cores. */
  lemma PackAddsCores(nodes: seq<Alloc>, pieces: seq<Piece>, location: Option<string>, cap: int)
    ensures SumTotals(Pack(nodes, pieces, location, cap)) == SumTotals(nodes) + SumPieces(pieces)
  {
    var s := Sort(nodes, FewerCores);
    var idx := Taken(s, pieces, location, cap, |s|);
    PackedSort(nodes);
    PlacedTotals(s, pieces, location, cap, |s|);
    assert s[..|s|] == s;
    NewNodesPacked(pieces[idx..], location);
    PackedAppend(PlacedUpTo(s, pieces, location, cap, |s|), NewNodes(pieces[idx..], location));
    SplitCores(pieces, idx);
  }

  lemma SplitCores(pieces: seq<Piece>, i: nat)
    requires i <= |pieces|
    ensures SumPieces(pieces[..i]) + SumPieces(pieces[i..]) == SumPieces(pieces)
  {
    assert pieces == pieces[..i] + pieces[i..];
    SumPiecesAppend(pieces[..i], pieces[i..]);
  }

  // ----- which nodes are used -----

  lemma {:induction false} PlacedUpToAt(s: seq<Alloc>, pieces: seq<Piece>, location: Option<string>, cap: int, n: nat)
    requires n <= |s|
    ensures |PlacedUpTo(s, pieces, location, cap, n)| == n
    ensures forall i :: 0 <= i < n ==>
              PlacedUpTo(s, pieces, location, cap, n)[i] == Placed(s, pieces, location, cap, i)
  {
    if n > 0 {
      PlacedUpToAt(s, pieces, location, cap, n - 1);
    }
  }

  lemma {:induction false} NewNodesAt(pieces: seq<Piece>, location: Option<string>)
    ensures |NewNodes(pieces, location)| == |pieces|
    ensures forall i :: 0 <= i < |pieces| ==> NewNodes(pieces, location)[i] == NewNode(pieces[i], location)
  {
    if pieces != [] {
      NewNodesAt(pieces[..|pieces| - 1], location);
    }
  }

  /** How many of the first i nodes are of the location and have room for v more cores. */
  function CountFits(nodes: seq<Alloc>, v: int, location: Option<string>, cap: int, i: nat): nat
    requires i <= |nodes|
  {
    if i == 0 then 0
    else CountFits(nodes, v, location, cap, i - 1) + if Fits(nodes[i - 1], v, location, cap) then 1 else 0
  }

  ghost predicate AllOfSize(pieces: seq<Piece>, v: int) {
    forall i :: 0 <= i < |pieces| ==> pieces[i].cores == v
  }

  lemma {:induction false} TakenIsMin(s: seq<Alloc>, pieces: seq<Piece>, v: int, location: Option<string>, cap: int,
                                      i: nat)
    requires i <= |s| && AllOfSize(pieces, v)
    ensures Taken(s, pieces, location, cap, i) == Min(|pieces|, CountFits(s, v, location, cap, i))
  {
    if i > 0 {
      TakenIsMin(s, pieces, v, location, cap, i - 1);
    }
  }

  lemma {:induction false} CountFitsGrows(s: seq<Alloc>, v: int, location: Option<string>, cap: int, i: nat, j: nat)
    requires i <= j <= |s|
    ensures CountFits(s, v, location, cap, i) <= CountFits(s, v, location, cap, j)
  {
    if i < j {
      CountFitsGrows(s, v, location, cap, i, j - 1);
    }
  }

  /** Node i of the sorted list takes a piece. */
  ghost predicate IsUsed(s: seq<Alloc>, v: int, n: nat, location: Option<string>, cap: int, i: nat)
    requires i < |s|
  {
    Fits(s[i], v, location, cap) && CountFits(s, v, location, cap, i) < n
  }

  lemma PackAt(nodes: seq<Alloc>, pieces: seq<Piece>, location: Option<string>, cap: int)
    ensures var s := Sort(nodes, FewerCores);
            var idx := Taken(s, pieces, location, cap, |s|);
            var out := Pack(nodes, pieces, location, cap);
            && |out| == |s| + |pieces| - idx
            && (forall i :: 0 <= i < |s| ==> out[i] == Placed(s, pieces, location, cap, i))
            && out[|s|..] == NewNodes(pieces[idx..], location)
  {
    var s := Sort(nodes, FewerCores);
    var idx := Taken(s, pieces, location, cap, |s|);
    PlacedUpToAt(s, pieces, location, cap, |s|);
    NewNodesAt(pieces[idx..], location);
  }

  lemma PlacedIffUsed(s: seq<Alloc>, pieces: seq<Piece>, v: int, location: Option<string>, cap: int, i: nat)
    requires AllOfSize(pieces, v) && i < |s|
    ensures Placed(s, pieces, location, cap, i)
         == if IsUsed(s, v, |pieces|, location, cap, i)
            then Push(s[i], pieces[CountFits(s, v, location, cap, i)]) else s[i]
  {
    TakenIsMin(s, pieces, v, location, cap, i);
  }

  /** A job with n equal pieces uses exactly the first n nodes, fullest first, that are of its location and have
      room, and gives each one piece; it opens a new node for each piece that is left. */
  lemma BestFit(nodes: seq<Alloc>, pieces: seq<Piece>, v: int, location: Option<string>, cap: int)
    requires AllOfSize(pieces, v)
    ensures var s := Sort(nodes, FewerCores);
            var added := Max(0, |pieces| - CountFits(s, v, location, cap, |s|));
            var out := Pack(nodes, pieces, location, cap);
            && |out| == |s| + added
            && (forall i :: 0 <= i < |s| ==>
                  out[i] == if IsUsed(s, v, |pieces|, location, cap, i)
                            then Push(s[i], pieces[CountFits(s, v, location, cap, i)]) else s[i])
            && out[|s|..] == NewNodes(pieces[|pieces| - added..], location)
  {
    var s := Sort(nodes, FewerCores);
    TakenIsMin(s, pieces, v, location, cap, |s|);
    PackAt(nodes, pieces, location, cap);
    forall i | 0 <= i < |s|
      ensures Pack(nodes, pieces, location, cap)[i]
           == if IsUsed(s, v, |pieces|, location, cap, i)
              then Push(s[i], pieces[CountFits(s, v, location, cap, i)]) else s[i]
    {
      PlacedIffUsed(s, pieces, v, location, cap, i);
    }
  }

  /** No node that has room is passed over for a less full one. */
  lemma FullestFirst(nodes: seq<Alloc>, v: int, n: nat, location: Option<string>, cap: int, i: nat, j: nat)
    requires i < |Sort(nodes, FewerCores)| && j < |Sort(nodes, FewerCores)|
    ensures var s := Sort(nodes, FewerCores);
            IsUsed(s, v, n, location, cap, j) && Fits(s[i], v, location, cap) && !IsUsed(s, v, n, location, cap, i)
            ==> Total(s[i]) <= Total(s[j])
  {
    var s := Sort(nodes, FewerCores);
    SortSorts(nodes, FewerCores);
    if i < j {
      CountFitsGrows(s, v, location, cap, i, j);
    } else if j < i {
      assert FewerCores(s[j]) <= FewerCores(s[i]);
    }
  }

  /** A node of the location comes after the one that took the last piece. */
  ghost predicate ComesAfterLast(s: seq<Alloc>, v: int, n: nat, location: Option<string>, cap: int, i: nat)
    requires i < |s|
  {
    s[i].location == location && CountFits(s, v, location, cap, i) >= n
  }

  /** Some node does, fullest first. */
  ghost predicate AnyAfterLast(nodes: seq<Alloc>, v: int, n: nat, location: Option<string>, cap: int) {
    var s := Sort(nodes, FewerCores);
    exists i :: 0 <= i < |s| && ComesAfterLast(s, v, n, location, cap, i)
  }

  lemma LooksPastIff(s: seq<Alloc>, pieces: seq<Piece>, v: int, location: Option<string>, cap: int, i: nat)
    requires AllOfSize(pieces, v) && i < |s|
    ensures LooksPastEnd(s, pieces, location, cap, i) <==> ComesAfterLast(s, v, |pieces|, location, cap, i)
  {
    TakenIsMin(s, pieces, v, location, cap, i);
  }

  /** The loop as written computes the same nodes, except that it raises IndexError exactly when a node of the
      location comes after the one that took the last piece. */
  lemma RunsPastEndExactly(nodes: seq<Alloc>, pieces: seq<Piece>, v: int, location: Option<string>, cap: int)
    requires AllOfSize(pieces, v)
    ensures RunsPastEnd(nodes, pieces, location, cap) <==> AnyAfterLast(nodes, v, |pieces|, location, cap)
  {
    var s := Sort(nodes, FewerCores);
    if RunsPastEnd(nodes, pieces, location, cap) {
      var i :| 0 <= i < |s| && LooksPastEnd(s, pieces, location, cap, i);
      LooksPastIff(s, pieces, v, location, cap, i);
    }
    if AnyAfterLast(nodes, v, |pieces|, location, cap) {
      var i :| 0 <= i < |s| && ComesAfterLast(s, v, |pieces|, location, cap, i);
      LooksPastIff(s, pieces, v, location, cap, i);
    }
  }

  /** Two one-core nodes and a one-core job of the same location are enough for the loop as written to fail. */
  lemma RunsPastEndExample()
    ensures var node := NewNode(Piece(1, 0), Some("MEL"));
            RunsPastEnd([node, node], [Piece(1, 1)], Some("MEL"), 4)
  {
    var node := NewNode(Piece(1, 0), Some("MEL"));
    var nodes := [node, node];
    var pieces := [Piece(1, 1)];
    SortPermutes(nodes, FewerCores);
    var s := Sort(nodes, FewerCores);
    assert forall i :: 0 <= i < |s| ==> s[i] == node by {
      forall i | 0 <= i < |s|
        ensures s[i] == node
      {
        assert s[i] in multiset(s);
      }
    }
    SumOne(Piece(1, 0));
    assert Taken(s, pieces, Some("MEL"), 4, 0) == 0;
    assert Taken(s, pieces, Some("MEL"), 4, 1) == 1;
    assert LooksPastEnd(s, pieces, Some("MEL"), 4, 1);
  }

  lemma SumOne(p: Piece)
    ensures SumPieces([p]) == p.cores
  {
    assert [p][..0] == [];
  }
}
