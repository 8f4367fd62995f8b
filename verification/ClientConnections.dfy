/** NetworkClient/ClientConnection.cpp: the client's list of peers, each with its stack of snapshots. */
module ClientConnections {
  import opened Words
  import opened Lists
  import opened GameMessages

  /** One entry of `connections` by value. */
  datatype PeerEntry = PeerEntry(id: Word, stack: seq<seq<Word>>)

  // ---------- the list by value ----------

  function Ids(ps: seq<PeerEntry>): (ids: seq<Word>)
    ensures |ids| == |ps|
    ensures forall k :: 0 <= k < |ps| ==> ids[k] == ps[k].id
  {
    seq(|ps|, k requires 0 <= k < |ps| => ps[k].id)
  }

  /** `getClientIndex`: the first entry with that id. */
  function IndexFrom(ps: seq<PeerEntry>, id: Word, from: nat): nat
    requires from <= |ps|
    decreases |ps| - from
  {
    if from == |ps| then NOT_FOUND
    else if ps[from].id == id then from
    else IndexFrom(ps, id, from + 1)
  }

  function IndexOf(ps: seq<PeerEntry>, id: Word): nat {
    IndexFrom(ps, id, 0)
  }

  function Added(ps: seq<PeerEntry>, id: Word): seq<PeerEntry> {
    ps + [PeerEntry(id, [])]
  }

  function Removed(ps: seq<PeerEntry>, id: Word): seq<PeerEntry> {
    var k := IndexOf(ps, id);
    if k < |ps| then ps[..k] + ps[k + 1..] else ps
  }

  function Pushed(ps: seq<PeerEntry>, index: nat, packet: seq<Word>): seq<PeerEntry>
    requires index < |ps|
  {
    ps[index := ps[index].(stack := ps[index].stack + [packet])]
  }

  /** `getPacket`: the newest snapshot, or nothing. */
  function Top(stack: seq<seq<Word>>): seq<Word> {
    if stack == [] then [] else stack[|stack| - 1]
  }

  function Tops(ps: seq<PeerEntry>): (tops: seq<seq<Word>>)
    ensures |tops| == |ps|
    ensures forall k :: 0 <= k < |ps| ==> tops[k] == Top(ps[k].stack)
  {
    seq(|ps|, k requires 0 <= k < |ps| => Top(ps[k].stack))
  }

  function Cleared(ps: seq<PeerEntry>): (cleared: seq<PeerEntry>)
    ensures |cleared| == |ps|
    ensures forall k :: 0 <= k < |ps| ==> cleared[k] == PeerEntry(ps[k].id, [])
  {
    seq(|ps|, k requires 0 <= k < |ps| => PeerEntry(ps[k].id, []))
  }

  /** The list stays short enough for its indexes to differ from the not-found value. */
  predicate Indexable(ps: seq<PeerEntry>) {
    |ps| <= NOT_FOUND
  }

  lemma {:induction false} IndexFromIsFirst(ps: seq<PeerEntry>, id: Word, from: nat)
    requires from <= |ps| && Indexable(ps)
    ensures var k := IndexFrom(ps, id, from);
            if k == NOT_FOUND then forall i :: from <= i < |ps| ==> ps[i].id != id
            else from <= k < |ps| && ps[k].id == id && forall i :: from <= i < k ==> ps[i].id != id
    decreases |ps| - from
  {
    if from < |ps| && ps[from].id != id {
      IndexFromIsFirst(ps, id, from + 1);
    }
  }

  /** The index is the not-found value exactly for absent ids, and points to the first entry otherwise. */
  lemma IndexOfIsFirst(ps: seq<PeerEntry>, id: Word)
    requires Indexable(ps)
    ensures var k := IndexOf(ps, id);
            && (k == 0xFFFF_FFFF <==> id !in Ids(ps))
            && (k != 0xFFFF_FFFF ==> k < |ps| && ps[k].id == id && id !in Ids(ps)[..k])
  {
    IndexFromIsFirst(ps, id, 0);
    var k := IndexOf(ps, id);
    if k != NOT_FOUND {
      assert Ids(ps)[k] == id;
    }
  }

  /** With unique ids the index inverts the list. */
  lemma IndexInverts(ps: seq<PeerEntry>, i: nat)
    requires Indexable(ps) && NoDup(Ids(ps)) && i < |ps|
    ensures IndexOf(ps, ps[i].id) == i
  {
    IndexOfIsFirst(ps, ps[i].id);
    assert Ids(ps)[i] == ps[i].id;
    var k := IndexOf(ps, ps[i].id);
    assert Ids(ps)[k] == Ids(ps)[i];
  }

  lemma MovedForward(after: seq<PeerEntry>, before: seq<PeerEntry>, k: nat)
    requires k < |before| && |after| == |before| - 1
    requires forall j :: 0 <= j < k ==> after[j] == before[j]
    requires forall j :: k <= j < |after| ==> after[j] == before[j + 1]
    ensures after == before[..k] + before[k + 1..]
  {
  }

  lemma IdsWithout(ps: seq<PeerEntry>, k: nat)
    requires k < |ps|
    ensures Ids(ps[..k] + ps[k + 1..]) == Ids(ps)[..k] + Ids(ps)[k + 1..]
  {
  }

  /** The roster as the membership protocol sees it. */
  lemma {:induction false} RemovedIds(ps: seq<PeerEntry>, id: Word)
    requires Indexable(ps)
    ensures Ids(Removed(ps, id)) == RemoveFirst(Ids(ps), id)
  {
    IndexOfIsFirst(ps, id);
    var k := IndexOf(ps, id);
    if k == NOT_FOUND {
      RemoveFirstAbsent(Ids(ps), id);
    } else {
      RemoveFirstAt(Ids(ps), id, k);
      IdsWithout(ps, k);
    }
  }

  lemma AddedIds(ps: seq<PeerEntry>, id: Word)
    ensures Ids(Added(ps, id)) == Ids(ps) + [id]
  {
  }

  /** The snapshots of `id`; none for an id that is not in the list. */
  function StackOf(ps: seq<PeerEntry>, id: Word): Option<seq<seq<Word>>> {
    var k := IndexOf(ps, id);
    if k < |ps| then Some(ps[k].stack) else None
  }

  lemma RemovedElements(ps: seq<PeerEntry>, id: Word)
    requires Indexable(ps) && NoDup(Ids(ps))
    ensures var qs := Removed(ps, id); NoDup(Ids(qs)) && Indexable(qs)
    ensures forall x :: x in Ids(Removed(ps, id)) <==> x in Ids(ps) && x != id
  {
    IndexOfIsFirst(ps, id);
    RemovedIds(ps, id);
    RemoveFirstIsDrop(Ids(ps), id);
    DropNoDup(Ids(ps), {id});
  }

  /** Where an entry other than the removed one ends up. */
  lemma RemovedPosition(ps: seq<PeerEntry>, id: Word, other: Word)
    requires Indexable(ps) && NoDup(Ids(ps)) && id in Ids(ps) && other in Ids(ps) && other != id
    ensures var j, k := IndexOf(ps, other), IndexOf(ps, id);
            var qs, i := Removed(ps, id), if j > k then j - 1 else j;
            j < |ps| && IndexOf(qs, other) == i && i < |qs| && qs[i] == ps[j]
  {
    IndexOfIsFirst(ps, id);
    IndexOfIsFirst(ps, other);
    RemovedElements(ps, id);
    var j, k := IndexOf(ps, other), IndexOf(ps, id);
    IndexInverts(Removed(ps, id), if j > k then j - 1 else j);
  }

  /** Removing an id from a list of distinct ids is removing it from the map from ids to stacks: every
      other id keeps its stack, and exactly the ids behind the removed one move down by one. */
  lemma RemovalRefinesMap(ps: seq<PeerEntry>, id: Word, other: Word)
    requires Indexable(ps) && NoDup(Ids(ps))
    ensures var qs := Removed(ps, id);
            && NoDup(Ids(qs)) && Indexable(qs)
            && StackOf(qs, other) == (if other == id then None else StackOf(ps, other))
            && (other != id && other in Ids(ps) && id in Ids(ps) ==>
                  IndexOf(qs, other) == IndexOf(ps, other) - (if IndexOf(ps, other) > IndexOf(ps, id) then 1 else 0))
            && (id !in Ids(ps) ==> qs == ps)
  {
    RemovedElements(ps, id);
    IndexOfIsFirst(ps, id);
    IndexOfIsFirst(ps, other);
    IndexOfIsFirst(Removed(ps, id), other);
    if id in Ids(ps) && other in Ids(ps) && other != id {
      RemovedPosition(ps, id, other);
    }
  }

  /** Adding an absent id adds it with no snapshots, behind all others, and changes nothing else. */
  lemma AdditionRefinesMap(ps: seq<PeerEntry>, id: Word, other: Word)
    requires |ps| < NOT_FOUND && NoDup(Ids(ps)) && id !in Ids(ps)
    ensures var qs := Added(ps, id);
            && NoDup(Ids(qs)) && Indexable(qs)
            && StackOf(qs, other) == (if other == id then Some([]) else StackOf(ps, other))
            && IndexOf(qs, other) == (if other == id then |ps| else IndexOf(ps, other))
  {
    var qs := Added(ps, id);
    AddedIds(ps, id);
    NoDupConcat(Ids(ps), [id]);
    IndexOfIsFirst(ps, other);
    IndexOfIsFirst(qs, other);
    if other == id {
      IndexInverts(qs, |ps|);
    } else if other in Ids(ps) {
      IndexInverts(qs, IndexOf(ps, other));
    }
  }

  // ---------- the objects ----------

  /** `ClientConnection`: a slot of the vector. */
  class ClientConnection {
    var id: Word
    var gameStatePackets: seq<seq<Word>>

    ghost function Value(): PeerEntry
      reads this
    {
      PeerEntry(id, gameStatePackets)
    }

    constructor (newID: Word)
      ensures Value() == PeerEntry(newID, [])
    {
      id, gameStatePackets := newID, [];
    }

    /** `operator=`: copies id and stack unless the other object is this one. */
    method Assign(other: ClientConnection)
      modifies this
      ensures Value() == old(other.Value())
    {
      if this != other {
        id := other.id;
        gameStatePackets := other.gameStatePackets;
      }
    }

    method PushPacket(packet: seq<Word>)
      modifies this`gameStatePackets
      ensures Value() == old(Value()).(stack := old(Value()).stack + [packet])
    {
      gameStatePackets := gameStatePackets + [packet];
    }

    method GetPacket() returns (packet: seq<Word>)
      ensures packet == Top(gameStatePackets)
    {
      if |gameStatePackets| == 0 {
        return [];
      }
      packet := gameStatePackets[|gameStatePackets| - 1];
    }

    method ClearPackets()
      modifies this`gameStatePackets
      ensures Value() == old(Value()).(stack := [])
    {
      gameStatePackets := [];
    }
  }

  /** The static part of the class: the vector `connections`, its slots distinct objects. */
  class Registry {
    var connections: seq<ClientConnection>

    ghost predicate Valid()
      reads this
    {
      NoDup(connections)
    }

    ghost function Value(): (ps: seq<PeerEntry>)
      reads this, connections
      ensures |ps| == |connections|
      ensures forall k :: 0 <= k < |ps| ==> ps[k] == connections[k].Value()
    {
      seq(|connections|, k requires 0 <= k < |connections| reads this, connections => connections[k].Value())
    }

    constructor ()
      ensures Valid() && connections == []
    {
      connections := [];
    }

    method GetClientIndex(clientID: Word) returns (index: nat)
      ensures index == IndexOf(Value(), clientID)
    {
      for i := 0 to |connections|
        invariant IndexOf(Value(), clientID) == IndexFrom(Value(), clientID, i)
      {
        if connections[i].id == clientID {
          return i;
        }
      }
      return NOT_FOUND;
    }

    method AddClient(clientID: Word)
      requires Valid()
      modifies this
      ensures Valid() && Value() == Added(old(Value()), clientID)
      ensures |connections| == |old(connections)| + 1 && old(connections) <= connections
      ensures fresh(connections[|old(connections)|])
    {
      var added := new ClientConnection(clientID);
      connections := connections + [added];
    }

    /** The slots behind `k` are assigned forward. */
    method MoveForward(k: nat)
      requires Valid() && k < |connections|
      modifies connections
      ensures forall j :: 0 <= j < k ==> connections[j].Value() == old(Value())[j]
      ensures forall j :: k <= j < |connections| - 1 ==> connections[j].Value() == old(Value())[j + 1]
    {
      ghost var before := Value();
      for i := k to |connections| - 1
        invariant forall j :: 0 <= j < |connections| && !(k <= j < i) ==> connections[j].Value() == before[j]
        invariant forall j :: k <= j < i ==> connections[j].Value() == before[j + 1]
      {
        connections[i].Assign(connections[i + 1]);
      }
    }

    /** `vector::erase`: the slots behind `k` are assigned forward and the last one is destroyed. */
    method Erase(k: nat)
      requires Valid() && k < |connections|
      modifies this, connections
      ensures Valid() && connections == old(connections)[..|old(connections)| - 1]
      ensures Value() == old(Value())[..k] + old(Value())[k + 1..]
    {
      MoveForward(k);
      connections := connections[..|connections| - 1];
      MovedForward(Value(), old(Value()), k);
    }

    method RemoveClient(clientID: Word) returns (found: bool)
      requires Valid() && Indexable(Value())
      modifies this, connections
      ensures Valid() && Value() == Removed(old(Value()), clientID)
      ensures found <==> clientID in Ids(old(Value()))
      ensures connections == if found then old(connections)[..|old(connections)| - 1] else old(connections)
    {
      IndexOfIsFirst(Value(), clientID);
      for i := 0 to |connections|
        invariant Valid() && connections == old(connections) && Value() == old(Value())
        invariant IndexOf(Value(), clientID) == IndexFrom(Value(), clientID, i)
      {
        if connections[i].id == clientID {
          Erase(i);
          return true;
        }
      }
      return false;
    }

    /** `connections[index].pushPacket(packet)`. */
    method PushTo(index: nat, packet: seq<Word>)
      requires Valid() && index < |connections|
      modifies connections[index]
      ensures Valid() && Value() == Pushed(old(Value()), index, packet)
    {
      connections[index].PushPacket(packet);
    }

    method GetAllStatePackets() returns (statePackets: seq<seq<Word>>)
      requires Valid()
      modifies connections
      ensures Valid() && statePackets == Tops(old(Value())) && Value() == Cleared(old(Value()))
    {
      statePackets := [];
      for i := 0 to |connections|
        invariant Valid() && |statePackets| == i
        invariant forall j :: 0 <= j < i ==> statePackets[j] == Top(old(Value())[j].stack)
        invariant forall j :: 0 <= j < |connections| ==>
                    connections[j].Value() == if j < i then PeerEntry(old(Value())[j].id, []) else old(Value())[j]
      {
        var packet := connections[i].GetPacket();
        statePackets := statePackets + [packet];
        connections[i].ClearPackets();
      }
    }
  }
}
