/** The actor's ordered map of torrent snapshots. */
module Actor {
  import opened Model

  datatype Board = Board(torrents: map<TorrentID, Snapshot>, order: seq<TorrentID>)

  // The order lists the map's keys once each, and snapshots know their id.
  ghost predicate Consistent(b: Board) {
    && NoDuplicates(b.order)
    && Elements(b.order) == b.torrents.Keys
    && forall id | id in b.torrents :: b.torrents[id].id == id
  }

  function Put(b: Board, t: Snapshot): Board {
    Board(b.torrents[t.id := t], if t.id in b.torrents then b.order else b.order + [t.id])
  }

  function Delete(b: Board, id: TorrentID): (Board, bool) {
    if id !in b.torrents then (b, false)
    else (Board(b.torrents - {id}, Without(b.order, id)), true)
  }

  function Find(b: Board, id: TorrentID): Option<Snapshot> {
    if id in b.torrents then Some(b.torrents[id]) else None
  }

  // The first position of `x`, or the length if there is none.
  function Position<T(==)>(s: seq<T>, x: T): (i: nat)
    ensures i <= |s| && x !in s[..i] && (i < |s| ==> s[i] == x)
  {
    if s == [] || s[0] == x then 0
    else
      var i := Position(s[1..], x) + 1;
      assert s[..i] == [s[0]] + s[1..][..i - 1];
      i
  }

  function Swapped<T>(s: seq<T>, i: nat, j: nat): seq<T>
    requires i < |s| && j < |s|
  {
    s[i := s[j]][j := s[i]]
  }

  // Exchanges `x` with the element `offset` places on, if there is one.
  function Shifted<T(==)>(s: seq<T>, x: T, offset: int): seq<T> {
    var i := Position(s, x);
    if i < |s| && 0 <= i + offset < |s| then Swapped(s, i, i + offset) else s
  }

  function Move(b: Board, id: TorrentID, offset: int): (Board, bool) {
    if id !in b.order then (b, false) else (b.(order := Shifted(b.order, id, offset)), true)
  }

  lemma SwappedElements<T>(s: seq<T>, i: nat, j: nat)
    requires i < |s| && j < |s|
    ensures Elements(Swapped(s, i, j)) == Elements(s)
    ensures NoDuplicates(s) ==> NoDuplicates(Swapped(s, i, j))
  {
    var r := Swapped(s, i, j);
    forall y | y in s ensures y in r {
      var k :| 0 <= k < |s| && s[k] == y;
      assert r[if k == i then j else if k == j then i else k] == y;
    }
  }

  lemma SwappedMultiset<T>(s: seq<T>, i: nat, j: nat)
    requires i < |s| && j < |s|
    ensures multiset(Swapped(s, i, j)) == multiset(s)
  {
  }

  lemma ShiftedKeepsElements<T>(s: seq<T>, x: T, offset: int)
    ensures multiset(Shifted(s, x, offset)) == multiset(s)
    ensures Elements(Shifted(s, x, offset)) == Elements(s)
    ensures NoDuplicates(s) ==> NoDuplicates(Shifted(s, x, offset))
  {
    var i := Position(s, x);
    if i < |s| && 0 <= i + offset < |s| {
      SwappedElements(s, i, i + offset);
      SwappedMultiset(s, i, i + offset);
    }
  }

  // Exactly two elements change places: `x` and the one `offset` places on, if
  // there is one.
  lemma ShiftedExactly<T>(s: seq<T>, i: nat, offset: int)
    requires i < |s| && s[i] !in s[..i]
    ensures var r, j := Shifted(s, s[i], offset), i + offset;
            && |r| == |s|
            && (if 0 <= j < |s| then r[j] == s[i] && r[i] == s[j] && forall k | 0 <= k < |s| && k != i && k != j :: r[k] == s[k]
                else r == s)
  {
    PositionUnique(s, s[i], i);
  }

  // A new torrent comes last, and a known one keeps its place.
  lemma PutExactly(b: Board, t: Snapshot)
    ensures t.id in b.torrents ==> Put(b, t).order == b.order
    ensures t.id !in b.torrents ==> Put(b, t).order == b.order + [t.id]
    ensures Put(b, t).torrents.Keys == b.torrents.Keys + {t.id}
  {
  }

  // A removal leaves the order of the others as it was.
  lemma DeleteExactly(b: Board, i: nat)
    requires Consistent(b) && i < |b.order|
    ensures var (b', ok) := Delete(b, b.order[i]);
            ok && b'.order == b.order[..i] + b.order[i + 1..] && b'.torrents.Keys == b.torrents.Keys - {b.order[i]}
  {
    assert b.order[i] in Elements(b.order);
    WithoutIsPrefixAndSuffix(b.order, b.order[i], i);
  }

  lemma PutKeepsConsistent(b: Board, t: Snapshot)
    requires Consistent(b)
    ensures Consistent(Put(b, t))
  {
    assert t.id !in b.torrents ==> t.id !in Elements(b.order);
    forall id ensures id in Put(b, t).order <==> id in Put(b, t).torrents {
      assert id in b.order <==> id in Elements(b.order);
    }
  }

  lemma DeleteKeepsConsistent(b: Board, id: TorrentID)
    requires Consistent(b)
    ensures Consistent(Delete(b, id).0)
    ensures Delete(b, id).1 <==> id in b.order
  {
    assert id in b.order <==> id in Elements(b.order);
    if id in b.order {
      WithoutElements(b.order, id);
    }
  }

  lemma MoveKeepsConsistent(b: Board, id: TorrentID, offset: int)
    requires Consistent(b)
    ensures Consistent(Move(b, id, offset).0)
  {
    ShiftedKeepsElements(b.order, id, offset);
  }

  // What is found is what was put last and not removed since: under its own id,
  // for exactly the listed ids, and a move changes nothing about it.
  lemma FindAfterChange(b: Board, t: Snapshot, id: TorrentID, offset: int, x: TorrentID)
    requires Consistent(b)
    ensures Find(Put(b, t), x) == if x == t.id then Some(t) else Find(b, x)
    ensures Find(Delete(b, id).0, x) == if x == id then None else Find(b, x)
    ensures Find(Move(b, id, offset).0, x) == Find(b, x)
    ensures Find(b, x).Some? <==> x in b.order
    ensures Find(b, x).Some? ==> Find(b, x).value.id == x
  {
    assert x in b.order <==> x in Elements(b.order);
  }

  class SessionState {
    var torrents: map<TorrentID, Snapshot>
    var order: seq<TorrentID>

    constructor ()
      ensures View() == Board(map[], [])
    {
      torrents, order := map[], [];
    }

    function View(): Board
      reads this
    {
      Board(torrents, order)
    }

    method PutTorrent(t: Snapshot)
      modifies this
      ensures View() == Put(old(View()), t)
    {
      if t.id !in torrents {
        order := order + [t.id];
      }
      torrents := torrents[t.id := t];
    }

    method Get(id: TorrentID) returns (r: Option<Snapshot>)
      ensures r == Find(View(), id)
    {
      return if id in torrents then Some(torrents[id]) else None;
    }

    method List() returns (result: seq<Snapshot>)
      requires Consistent(View())
      ensures |result| == |order|
      ensures forall i | 0 <= i < |order| :: order[i] in torrents && result[i] == torrents[order[i]]
    {
      result := [];
      for i := 0 to |order|
        invariant |result| == i
        invariant forall k | 0 <= k < i :: order[k] in torrents && result[k] == torrents[order[k]]
      {
        assert order[i] in Elements(order);
        result := result + [torrents[order[i]]];
      }
    }

    method Remove(id: TorrentID) returns (ok: bool)
      requires Consistent(View())
      modifies this
      ensures (View(), ok) == Delete(old(View()), id)
    {
      if id !in torrents {
        return false;
      }
      torrents := torrents - {id};
      var index := FindIndex(order, id);
      if index < |order| {
        WithoutIsPrefixAndSuffix(order, id, index);
        order := order[..index] + order[index + 1..];
      } else {
        WithoutAbsent(order, id);
      }
      return true;
    }

    method MoveTorrent(id: TorrentID, offset: int) returns (ok: bool)
      modifies this
      ensures (View(), ok) == Move(old(View()), id, offset)
    {
      var index := FindIndex(order, id);
      if index == |order| {
        return false;
      }
      var target := index + offset;
      if target < 0 || target >= |order| {
        return true;
      }
      order := order[index := order[target]][target := order[index]];
      return true;
    }
  }

  method FindIndex(order: seq<TorrentID>, id: TorrentID) returns (index: nat)
    ensures index == Position(order, id)
    ensures index < |order| <==> id in order
  {
    index := 0;
    while index < |order| && order[index] != id
      invariant index <= |order| && id !in order[..index]
    {
      assert order[..index + 1] == order[..index] + [order[index]];
      index := index + 1;
    }
    assert order[..|order|] == order;
    if index < |order| {
      PositionUnique(order, id, index);
    } else {
      PositionAbsent(order, id);
    }
  }

  lemma PositionUnique<T>(s: seq<T>, x: T, i: nat)
    requires i < |s| && s[i] == x && x !in s[..i]
    ensures Position(s, x) == i
  {
  }

  lemma PositionAbsent<T>(s: seq<T>, x: T)
    requires x !in s
    ensures Position(s, x) == |s|
  {
  }
}
