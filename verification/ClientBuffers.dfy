/** The two client threads that share the buffers of NetworkClient/ClientConnection.cpp and Client.cpp:
    the reading thread handles packets, the processing thread drains the event queue and walks the
    peers, reading each top and then clearing each stack under separate locks. */
module ClientBuffers {
  import opened Words
  import opened Lists
  import opened Packets
  import opened GameMessages
  import opened ClientConnections
  import opened ClientStates

  /** A snapshot as it was pushed; `shift` counts how often its slot had moved down by then. */
  datatype Mark = Mark(packet: seq<Word>, shift: nat)

  /** A slot of `connections` with its history: where it was added, how often a removal has moved it
      down, every snapshot ever pushed, how many of them have been cleared, and which were read. */
  datatype Slot = Slot(id: Word, stack: seq<seq<Word>>, first: nat, shift: nat, pushed: seq<Mark>, base: nat,
    delivered: seq<nat>)

  /** The processing thread: at rest, or at a slot whose top it has or has not read yet. */
  datatype Phase = Resting | Walking(at: nat, topRead: bool)

  /** One result of `getAllPackets`: it hands over `events + tops`, in that order. */
  datatype Round = Round(events: seq<seq<Word>>, tops: seq<seq<Word>>)

  datatype Buffers = Buffers(id: Word, waiting: bool, stopped: bool, slots: seq<Slot>, events: seq<seq<Word>>,
                             phase: Phase, round: Round, rounds: seq<Round>, pushedEvents: seq<seq<Word>>)

  datatype Event = Deliver(p: Packet) | Begin | ReadTop | Clear | Finish

  function EntriesOf(slots: seq<Slot>): (ps: seq<PeerEntry>)
    ensures |ps| == |slots|
    ensures forall k :: 0 <= k < |ps| ==> ps[k] == PeerEntry(slots[k].id, slots[k].stack)
  {
    seq(|slots|, k requires 0 <= k < |slots| => PeerEntry(slots[k].id, slots[k].stack))
  }

  /** The client's state without the history. */
  function Core(b: Buffers): ClientState {
    ClientState(b.id, b.waiting, b.stopped, EntriesOf(b.slots), b.events)
  }

  ghost predicate Initial(b: Buffers) {
    b == Buffers(0, true, false, [], [], Resting, Round([], []), [], [])
  }

  /** The packet changes which slots there are. */
  predicate MovesSlots(b: Buffers, p: Packet) {
    && (p.id == GAME_ADD_CLIENT || p.id == GAME_REMOVE_CLIENT) && 4 <= |p.body| && PopWord(p) != b.id
    && (p.id == GAME_REMOVE_CLIENT ==> IndexOf(EntriesOf(b.slots), PopWord(p)) < |b.slots|)
  }

  /** The vector has no lock around the walk: it must not change size under it. */
  ghost predicate Enabled(b: Buffers, e: Event) {
    match e
    case Deliver(p) => |b.slots| < NOT_FOUND && Poppable(EntriesOf(b.slots), p)
      && (b.phase.Walking? ==> !MovesSlots(b, p))
    case Begin => b.phase == Resting && !b.waiting
    case ReadTop => b.phase.Walking? && !b.phase.topRead && b.phase.at < |b.slots|
    case Clear => b.phase.Walking? && b.phase.topRead && b.phase.at < |b.slots|
    case Finish => b.phase.Walking? && !b.phase.topRead && b.phase.at == |b.slots|
  }

  // ---------- the slots ----------

  function NewSlot(id: Word, at: nat): Slot {
    Slot(id, [], at, 0, [], 0, [])
  }

  function MovedDown(slots: seq<Slot>): (r: seq<Slot>)
    ensures |r| == |slots|
    ensures forall k :: 0 <= k < |r| ==> r[k] == slots[k].(shift := slots[k].shift + 1)
  {
    seq(|slots|, k requires 0 <= k < |slots| => slots[k].(shift := slots[k].shift + 1))
  }

  function WithoutSlot(slots: seq<Slot>, k: nat): seq<Slot>
    requires k < |slots|
  {
    slots[..k] + MovedDown(slots[k + 1..])
  }

  function PushedTo(sl: Slot, words: seq<Word>): Slot {
    sl.(stack := sl.stack + [words], pushed := sl.pushed + [Mark(words, sl.shift)])
  }

  function TopRead(sl: Slot): Slot {
    if sl.stack == [] || sl.pushed == [] then sl else sl.(delivered := sl.delivered + [|sl.pushed| - 1])
  }

  function ClearedSlot(sl: Slot): Slot {
    sl.(stack := [], base := |sl.pushed|)
  }

  // ---------- the steps ----------

  function DeliverAdd(b: Buffers, id: Word): Buffers {
    if id == b.id then b.(waiting := false) else b.(slots := b.slots + [NewSlot(id, |b.slots|)])
  }

  function DeliverRemove(b: Buffers, id: Word): Buffers {
    var k := IndexOf(EntriesOf(b.slots), id);
    if id == b.id then b.(stopped := true)
    else if k < |b.slots| then b.(slots := WithoutSlot(b.slots, k))
    else b
  }

  function DeliverSnapshot(b: Buffers, words: seq<Word>): Buffers {
    if words == [] || words[|words| - 1] >= |b.slots| then b
    else
      var index := words[|words| - 1];
      b.(slots := b.slots[index := PushedTo(b.slots[index], words)])
  }

  function DeliverEvent(b: Buffers, words: seq<Word>): Buffers {
    if words == [] then b else b.(events := b.events + [words], pushedEvents := b.pushedEvents + [words])
  }

  function Delivered(b: Buffers, p: Packet): Buffers
    requires |b.slots| < NOT_FOUND && Poppable(EntriesOf(b.slots), p)
  {
    if p.id == CLIENT_ASSIGN_ID then b.(id := PopWord(p))
    else if p.id == GAME_ADD_CLIENT then DeliverAdd(b, PopWord(p))
    else if p.id == GAME_REMOVE_CLIENT then DeliverRemove(b, PopWord(p))
    else if p.id == GAME_SNAPSHOT then DeliverSnapshot(b, Retrieved(EntriesOf(b.slots), p))
    else if p.id == GAME_EVENT_CLIENT then DeliverEvent(b, Retrieved(EntriesOf(b.slots), p))
    else b
  }

  function Next(b: Buffers, e: Event): Buffers
    requires Enabled(b, e)
  {
    match e
    case Deliver(p) => Delivered(b, p)
    case Begin => b.(events := [], round := Round(b.events, []), phase := Walking(0, false))
    case ReadTop =>
      var sl := b.slots[b.phase.at];
      b.(slots := b.slots[b.phase.at := TopRead(sl)],
         round := b.round.(tops := b.round.tops + [Top(sl.stack)]),
         phase := Walking(b.phase.at, true))
    case Clear =>
      b.(slots := b.slots[b.phase.at := ClearedSlot(b.slots[b.phase.at])], phase := Walking(b.phase.at + 1, false))
    case Finish => b.(rounds := b.rounds + [b.round], round := Round([], []), phase := Resting)
  }

  ghost predicate Follows(b: Buffers, c: Buffers) {
    exists e :: Enabled(b, e) && c == Next(b, e)
  }

  /** Every interleaving of the two threads. */
  ghost predicate IsRun(run: seq<Buffers>) {
    run != [] &&
    if |run| == 1 then Initial(run[0])
    else IsRun(run[..|run| - 1]) && Follows(run[|run| - 2], run[|run| - 1])
  }

  ghost predicate Reachable(b: Buffers) {
    exists run :: IsRun(run) && run[|run| - 1] == b
  }

  // ---------- the machine does what the handlers do ----------

  lemma RemovedEntries(slots: seq<Slot>, id: Word)
    requires |slots| < NOT_FOUND
    ensures var k := IndexOf(EntriesOf(slots), id);
            ClientConnections.Removed(EntriesOf(slots), id)
              == if k < |slots| then EntriesOf(WithoutSlot(slots, k)) else EntriesOf(slots)
  {
  }

  lemma AddedEntries(slots: seq<Slot>, id: Word)
    ensures EntriesOf(slots + [NewSlot(id, |slots|)]) == ClientConnections.Added(EntriesOf(slots), id)
  {
  }

  lemma SnapshotEntries(b: Buffers, words: seq<Word>)
    requires words != [] ==> words[|words| - 1] < |b.slots|
    ensures Core(DeliverSnapshot(b, words)) == Snapshot(Core(b), words)
  {
    if words != [] {
      var index := words[|words| - 1];
      assert EntriesOf(b.slots[index := PushedTo(b.slots[index], words)]) == Pushed(EntriesOf(b.slots), index, words);
    }
  }

  /** A delivered packet changes the client's state exactly as `handlePacket` does. */
  lemma DeliverIsHandlePacket(b: Buffers, p: Packet)
    requires Enabled(b, Deliver(p))
    ensures Core(Next(b, Deliver(p))) == HandleState(Core(b), p)
  {
    if p.id == GAME_ADD_CLIENT {
      AddedEntries(b.slots, PopWord(p));
    } else if p.id == GAME_REMOVE_CLIENT {
      RemovedEntries(b.slots, PopWord(p));
    } else if p.id == GAME_SNAPSHOT {
      RetrievedIsTagged(EntriesOf(b.slots), p);
      SnapshotEntries(b, Retrieved(EntriesOf(b.slots), p));
    }
  }

  // ---------- the invariant ----------

  ghost predicate Increasing(ks: seq<nat>) {
    forall i, j :: 0 <= i < j < |ks| ==> ks[i] < ks[j]
  }

  /** The stack is what has been pushed since the last clear. */
  ghost predicate StackIs(sl: Slot) {
    && sl.base <= |sl.pushed| && |sl.stack| == |sl.pushed| - sl.base
    && forall k :: 0 <= k < |sl.stack| ==> sl.stack[k] == sl.pushed[sl.base + k].packet
  }

  /** Snapshots are read in push order; outside the gap between read and clear, every one read is cleared. */
  ghost predicate ReadsAre(sl: Slot, gap: bool) {
    && Increasing(sl.delivered)
    && forall k :: k in sl.delivered ==> k < if gap then |sl.pushed| else sl.base
  }

  /** Every snapshot ends with the index its slot had when it was pushed. */
  ghost predicate TagsAre(sl: Slot, at: nat) {
    && sl.first == at + sl.shift
    && forall m :: m in sl.pushed ==>
         m.shift <= sl.shift && m.packet != [] && m.packet[|m.packet| - 1] == sl.first - m.shift
  }

  ghost predicate SlotOk(sl: Slot, at: nat, gap: bool) {
    StackIs(sl) && ReadsAre(sl, gap) && TagsAre(sl, at)
  }

  /** The processing thread is between reading and clearing slot `i`. */
  predicate Gap(phase: Phase, i: nat) {
    phase == Walking(i, true)
  }

  ghost predicate SlotsOk(b: Buffers) {
    forall i :: 0 <= i < |b.slots| ==> SlotOk(b.slots[i], i, Gap(b.phase, i))
  }

  function EventsOf(rounds: seq<Round>): seq<seq<Word>> {
    if rounds == [] then [] else EventsOf(rounds[..|rounds| - 1]) + rounds[|rounds| - 1].events
  }

  /** Every event drained so far. */
  function Drained(b: Buffers): seq<seq<Word>> {
    EventsOf(b.rounds) + b.round.events
  }

  ghost predicate Inv(b: Buffers) {
    && SlotsOk(b)
    && Drained(b) + b.events == b.pushedEvents
    && (b.phase == Resting ==> b.round == Round([], []))
    && (b.phase.Walking? && b.phase.topRead ==> b.phase.at < |b.slots|)
  }

  lemma PushKeeps(sl: Slot, at: nat, gap: bool, words: seq<Word>)
    requires SlotOk(sl, at, gap) && words != [] && words[|words| - 1] == at
    ensures SlotOk(PushedTo(sl, words), at, gap)
  {
  }

  lemma ReadKeeps(sl: Slot, at: nat)
    requires SlotOk(sl, at, false)
    ensures SlotOk(TopRead(sl), at, true)
  {
    forall j | 0 <= j < |sl.delivered|
      ensures sl.delivered[j] < sl.base
    {
      assert sl.delivered[j] in sl.delivered;
    }
  }

  lemma ClearKeeps(sl: Slot, at: nat)
    requires SlotOk(sl, at, true)
    ensures SlotOk(ClearedSlot(sl), at, false)
  {
  }

  lemma MoveKeeps(sl: Slot, at: nat)
    requires SlotOk(sl, at + 1, false)
    ensures SlotOk(sl.(shift := sl.shift + 1), at, false)
  {
  }

  lemma RemoveKeeps(b: Buffers, k: nat)
    requires SlotsOk(b) && k < |b.slots| && b.phase == Resting
    ensures SlotsOk(b.(slots := WithoutSlot(b.slots, k)))
  {
    var slots := WithoutSlot(b.slots, k);
    forall i | 0 <= i < |slots|
      ensures SlotOk(slots[i], i, false)
    {
      if i < k {
        assert slots[i] == b.slots[i];
      } else {
        assert slots[i] == b.slots[i + 1].(shift := b.slots[i + 1].shift + 1);
        assert SlotOk(b.slots[i + 1], i + 1, Gap(b.phase, i + 1));
        MoveKeeps(b.slots[i + 1], i);
      }
    }
  }

  lemma AddKeeps(b: Buffers, id: Word)
    requires SlotsOk(b) && b.phase == Resting
    ensures SlotsOk(b.(slots := b.slots + [NewSlot(id, |b.slots|)]))
  {
    var slots := b.slots + [NewSlot(id, |b.slots|)];
    forall i | 0 <= i < |slots|
      ensures SlotOk(slots[i], i, false)
    {
      if i < |b.slots| {
        assert SlotOk(b.slots[i], i, Gap(b.phase, i));
      }
    }
  }

  lemma SnapshotKeeps(b: Buffers, words: seq<Word>)
    requires SlotsOk(b) && words != [] && words[|words| - 1] < |b.slots|
    ensures SlotsOk(DeliverSnapshot(b, words))
  {
    var index := words[|words| - 1];
    assert SlotOk(b.slots[index], index, Gap(b.phase, index));
    PushKeeps(b.slots[index], index, Gap(b.phase, index), words);
  }

  lemma SlotsDelivered(b: Buffers, p: Packet)
    requires SlotsOk(b) && Enabled(b, Deliver(p))
    ensures SlotsOk(Delivered(b, p))
  {
    if p.id == GAME_ADD_CLIENT {
      if PopWord(p) != b.id {
        AddKeeps(b, PopWord(p));
      }
    } else if p.id == GAME_REMOVE_CLIENT {
      var k := IndexOf(EntriesOf(b.slots), PopWord(p));
      if PopWord(p) != b.id && k < |b.slots| {
        RemoveKeeps(b, k);
      }
    } else if p.id == GAME_SNAPSHOT {
      var words := Retrieved(EntriesOf(b.slots), p);
      if words != [] && words[|words| - 1] < |b.slots| {
        SnapshotKeeps(b, words);
      }
    }
  }

  /** What a delivered packet adds to the event queue. */
  function NewEvents(b: Buffers, p: Packet): seq<seq<Word>>
    requires |b.slots| < NOT_FOUND && Poppable(EntriesOf(b.slots), p)
  {
    if p.id != GAME_EVENT_CLIENT || Retrieved(EntriesOf(b.slots), p) == [] then []
    else [Retrieved(EntriesOf(b.slots), p)]
  }

  /** `c` has the walk of `b`, and `more` new events. */
  ghost predicate Leaves(b: Buffers, c: Buffers, more: seq<seq<Word>>) {
    && c.phase == b.phase && c.round == b.round && c.rounds == b.rounds
    && c.events == b.events + more && c.pushedEvents == b.pushedEvents + more
  }

  lemma AddLeaves(b: Buffers, id: Word)
    ensures Leaves(b, DeliverAdd(b, id), [])
  {
  }

  lemma RemoveLeaves(b: Buffers, id: Word)
    ensures Leaves(b, DeliverRemove(b, id), [])
  {
  }

  lemma SnapshotLeaves(b: Buffers, words: seq<Word>)
    ensures Leaves(b, DeliverSnapshot(b, words), []) && |DeliverSnapshot(b, words).slots| == |b.slots|
  {
  }

  lemma EventLeaves(b: Buffers, words: seq<Word>)
    ensures Leaves(b, DeliverEvent(b, words), if words == [] then [] else [words])
            && DeliverEvent(b, words).slots == b.slots
  {
  }

  lemma DeliverLeaves(b: Buffers, p: Packet)
    requires Enabled(b, Deliver(p))
    ensures Leaves(b, Delivered(b, p), NewEvents(b, p))
    ensures b.phase.Walking? ==> |Delivered(b, p).slots| == |b.slots|
  {
    if p.id == GAME_ADD_CLIENT {
      AddLeaves(b, PopWord(p));
    } else if p.id == GAME_REMOVE_CLIENT {
      RemoveLeaves(b, PopWord(p));
    } else if p.id == GAME_SNAPSHOT {
      SnapshotLeaves(b, Retrieved(EntriesOf(b.slots), p));
    } else if p.id == GAME_EVENT_CLIENT {
      EventLeaves(b, Retrieved(EntriesOf(b.slots), p));
    }
  }

  lemma LeavesConserves(b: Buffers, c: Buffers, more: seq<seq<Word>>)
    requires Inv(b) && Leaves(b, c, more) && SlotsOk(c) && (b.phase.Walking? ==> |c.slots| == |b.slots|)
    ensures Inv(c)
  {
    assert Drained(b) + (b.events + more) == Drained(b) + b.events + more;
  }

  lemma DeliverKeeps(b: Buffers, p: Packet)
    requires Inv(b) && Enabled(b, Deliver(p))
    ensures Inv(Delivered(b, p))
  {
    SlotsDelivered(b, p);
    DeliverLeaves(b, p);
    LeavesConserves(b, Delivered(b, p), NewEvents(b, p));
  }

  lemma WalkKeeps(b: Buffers, e: Event)
    requires Inv(b) && Enabled(b, e) && (e == ReadTop || e == Clear)
    ensures Inv(Next(b, e))
  {
    var at := b.phase.at;
    assert SlotOk(b.slots[at], at, Gap(b.phase, at));
    if e == ReadTop {
      ReadKeeps(b.slots[at], at);
    } else {
      ClearKeeps(b.slots[at], at);
    }
    var c := Next(b, e);
    forall i | 0 <= i < |c.slots|
      ensures SlotOk(c.slots[i], i, Gap(c.phase, i))
    {
      assert SlotOk(b.slots[i], i, Gap(b.phase, i));
    }
  }

  lemma RestingSlots(b: Buffers, c: Buffers)
    requires SlotsOk(b) && c.slots == b.slots && c.phase != b.phase && !(b.phase.Walking? && b.phase.topRead)
    requires !(c.phase.Walking? && c.phase.topRead)
    ensures SlotsOk(c)
  {
    forall i | 0 <= i < |c.slots|
      ensures SlotOk(c.slots[i], i, Gap(c.phase, i))
    {
      assert SlotOk(b.slots[i], i, Gap(b.phase, i));
    }
  }

  lemma BeginKeeps(b: Buffers)
    requires Inv(b) && Enabled(b, Begin)
    ensures Inv(Next(b, Begin))
  {
    RestingSlots(b, Next(b, Begin));
    assert EventsOf(b.rounds) + [] + b.events == EventsOf(b.rounds) + b.events + [];
  }

  lemma FinishKeeps(b: Buffers)
    requires Inv(b) && Enabled(b, Finish)
    ensures Inv(Next(b, Finish))
  {
    var c := Next(b, Finish);
    RestingSlots(b, c);
    assert c.rounds[..|c.rounds| - 1] == b.rounds;
    assert Drained(c) == EventsOf(c.rounds) + [];
  }

  lemma InvStep(b: Buffers, e: Event)
    requires Inv(b) && Enabled(b, e)
    ensures Inv(Next(b, e))
  {
    match e
    case Deliver(p) => DeliverKeeps(b, p);
    case Begin => BeginKeeps(b);
    case ReadTop => WalkKeeps(b, e);
    case Clear => WalkKeeps(b, e);
    case Finish => FinishKeeps(b);
  }

  lemma {:induction false} RunInv(run: seq<Buffers>)
    requires IsRun(run)
    ensures Inv(run[|run| - 1])
  {
    var last := |run| - 1;
    if last > 0 {
      RunInv(run[..last]);
      var e :| Enabled(run[last - 1], e) && run[last] == Next(run[last - 1], e);
      InvStep(run[last - 1], e);
    }
  }

  lemma ReachableInv(b: Buffers)
    requires Reachable(b)
    ensures Inv(b)
  {
    var run :| IsRun(run) && run[|run| - 1] == b;
    RunInv(run);
  }

  // ---------- main results ----------

  /** What is excluded while the thread walks the slots: just what changes their number. */
  lemma MovesSlotsExactly(b: Buffers, p: Packet)
    requires |b.slots| < NOT_FOUND && Poppable(EntriesOf(b.slots), p)
    ensures MovesSlots(b, p) <==> |Delivered(b, p).slots| != |b.slots|
  {
    if p.id == GAME_SNAPSHOT {
      SnapshotLeaves(b, Retrieved(EntriesOf(b.slots), p));
    } else if p.id == GAME_EVENT_CLIENT {
      EventLeaves(b, Retrieved(EntriesOf(b.slots), p));
    }
  }

  /** The thread has read the tops of all slots up to where it is, and no others. */
  ghost predicate ReadSoFar(b: Buffers) {
    b.phase.Walking? ==>
      && b.phase.at + (if b.phase.topRead then 1 else 0) <= |b.slots|
      && |b.round.tops| == b.phase.at + if b.phase.topRead then 1 else 0
  }

  lemma StaysReadSoFar(b: Buffers, e: Event)
    requires ReadSoFar(b) && Enabled(b, e)
    ensures ReadSoFar(Next(b, e))
  {
    if e.Deliver? {
      DeliverLeaves(b, e.p);
    }
  }

  lemma {:induction false} RunReadSoFar(run: seq<Buffers>)
    requires IsRun(run)
    ensures ReadSoFar(run[|run| - 1])
  {
    var last := |run| - 1;
    if last > 0 {
      RunReadSoFar(run[..last]);
      var e :| Enabled(run[last - 1], e) && run[last] == Next(run[last - 1], e);
      StaysReadSoFar(run[last - 1], e);
    }
  }

  /** A round visits every peer: as many tops have been read as slots have been passed, and a round that ends
      has one for each peer. */
  lemma RoundsAreComplete(b: Buffers)
    requires Reachable(b) && b.phase.Walking?
    ensures |b.round.tops| == b.phase.at + if b.phase.topRead then 1 else 0
    ensures Enabled(b, Finish) <==> |b.round.tops| == |b.slots| && !b.phase.topRead
  {
    var run :| IsRun(run) && run[|run| - 1] == b;
    RunReadSoFar(run);
  }

  /** The processing thread has started a round. */
  predicate HasStarted(b: Buffers) {
    b.phase.Walking? || b.rounds != []
  }

  lemma WaitingIsOver(b: Buffers, p: Packet)
    requires Enabled(b, Deliver(p))
    ensures Delivered(b, p).waiting ==> b.waiting
  {
  }

  lemma {:induction false} RunWaits(run: seq<Buffers>)
    requires IsRun(run)
    ensures HasStarted(run[|run| - 1]) ==> !run[|run| - 1].waiting
  {
    var last := |run| - 1;
    if last > 0 {
      RunWaits(run[..last]);
      var e :| Enabled(run[last - 1], e) && run[last] == Next(run[last - 1], e);
      if e.Deliver? {
        WaitingIsOver(run[last - 1], e.p);
        DeliverLeaves(run[last - 1], e.p);
      }
    }
  }

  /** No round before the client has been told of itself. */
  lemma NoRoundWhileWaiting(b: Buffers)
    requires Reachable(b) && (b.phase.Walking? || b.rounds != [])
    ensures !b.waiting
  {
    var run :| IsRun(run) && run[|run| - 1] == b;
    RunWaits(run);
  }

  /** Snapshot freshness: the snapshots read for a peer are strictly increasing in push order, and its
      stack holds exactly those pushed since the last clear. */
  lemma SnapshotsAreFresh(b: Buffers, i: nat)
    requires Reachable(b) && i < |b.slots|
    ensures var sl := b.slots[i];
            Increasing(sl.delivered) && StackIs(sl) && (forall k :: k in sl.delivered ==> k < |sl.pushed|)
  {
    ReachableInv(b);
    assert SlotOk(b.slots[i], i, Gap(b.phase, i));
  }

  /** Reading slot `sl`: `top` is the newest snapshot pushed by then, or nothing if all are cleared. */
  ghost predicate ReadsNewest(sl: Slot, top: seq<Word>, after: Slot) {
    && (sl.base == |sl.pushed| <==> after.delivered == sl.delivered)
    && (sl.base == |sl.pushed| ==> top == [])
    && (sl.base < |sl.pushed| ==>
          top == sl.pushed[|sl.pushed| - 1].packet && after.delivered == sl.delivered + [|sl.pushed| - 1])
  }

  lemma TopIsNewest(sl: Slot)
    requires StackIs(sl)
    ensures ReadsNewest(sl, Top(sl.stack), TopRead(sl))
  {
    assert |sl.delivered + [0]| == |sl.delivered| + 1;
  }

  /** What is read is the newest snapshot pushed by then; nothing is read exactly if all are cleared. */
  lemma ReadTakesTheNewest(b: Buffers)
    requires Reachable(b) && Enabled(b, ReadTop)
    ensures var c, at := Next(b, ReadTop), b.phase.at;
            |c.round.tops| > 0 && ReadsNewest(b.slots[at], c.round.tops[|c.round.tops| - 1], c.slots[at])
  {
    ReachableInv(b);
    var at := b.phase.at;
    assert SlotOk(b.slots[at], at, Gap(b.phase, at));
    TopIsNewest(b.slots[at]);
  }

  lemma LostUnread(sl: Slot, words: seq<Word>)
    requires ReadsAre(sl, true)
    ensures var k, after := |sl.pushed|, ClearedSlot(PushedTo(sl, words));
            k < |after.pushed| && after.pushed[k].packet == words && k < after.base && k !in after.delivered
  {
  }

  lemma ClearsAt(c: Buffers)
    requires Enabled(c, Clear)
    ensures c.phase.at < |Next(c, Clear).slots|
    ensures Next(c, Clear).slots[c.phase.at] == ClearedSlot(c.slots[c.phase.at])
  {
  }

  lemma SnapshotArrives(b: Buffers, p: Packet, at: nat)
    requires Enabled(b, Deliver(p)) && p.id == GAME_SNAPSHOT && at < |b.slots|
    requires IndexOf(EntriesOf(b.slots), PopWord(p)) == at
    ensures Next(b, Deliver(p)) == b.(slots := b.slots[at := PushedTo(b.slots[at], Retrieved(EntriesOf(b.slots), p))])
  {
    RetrievedIsTagged(EntriesOf(b.slots), p);
    IndexOfIsFirst(EntriesOf(b.slots), PopWord(p));
  }

  /** A snapshot that arrives between the read and the clear of its stack is cleared unread. */
  lemma RacingSnapshotIsLost(b: Buffers, p: Packet)
    requires Reachable(b) && Enabled(b, Deliver(p)) && b.phase.Walking? && b.phase.topRead
    requires p.id == GAME_SNAPSHOT && IndexOf(EntriesOf(b.slots), PopWord(p)) == b.phase.at
    ensures var c := Next(b, Deliver(p));
            && Enabled(c, Clear)
            && var sl := Next(c, Clear).slots[b.phase.at];
               var k := |b.slots[b.phase.at].pushed|;
               k < |sl.pushed| && sl.pushed[k].packet == Retrieved(EntriesOf(b.slots), p) && k < sl.base
                 && k !in sl.delivered
  {
    ReachableInv(b);
    var at := b.phase.at;
    assert SlotOk(b.slots[at], at, Gap(b.phase, at));
    SnapshotArrives(b, p, at);
    ClearsAt(Next(b, Deliver(p)));
    LostUnread(b.slots[at], Retrieved(EntriesOf(b.slots), p));
  }

  /** The packets one after the other, as long as they may be delivered. */
  ghost function DeliverAll(b: Buffers, ps: seq<Packet>): Option<Buffers> {
    if ps == [] then Some(b)
    else
      match DeliverAll(b, ps[..|ps| - 1])
      case None => None
      case Some(c) => if Enabled(c, Deliver(ps[|ps| - 1])) then Some(Delivered(c, ps[|ps| - 1])) else None
  }

  /** What deliveries do to the slot the thread has read: they push. */
  ghost predicate OnlyPushed(sl: Slot, after: Slot) {
    sl.pushed <= after.pushed && after.base == sl.base && after.delivered == sl.delivered
  }

  lemma DeliveredPushes(b: Buffers, p: Packet, at: nat)
    requires Enabled(b, Deliver(p)) && b.phase.Walking? && at < |b.slots|
    ensures at < |Delivered(b, p).slots| && Delivered(b, p).phase == b.phase
    ensures OnlyPushed(b.slots[at], Delivered(b, p).slots[at])
  {
    DeliverLeaves(b, p);
    if p.id == GAME_SNAPSHOT {
      SnapshotPushes(b, Retrieved(EntriesOf(b.slots), p), at);
    }
  }

  lemma SnapshotPushes(b: Buffers, words: seq<Word>, at: nat)
    requires at < |b.slots|
    ensures at < |DeliverSnapshot(b, words).slots| && OnlyPushed(b.slots[at], DeliverSnapshot(b, words).slots[at])
  {
  }

  lemma {:induction false} DeliverAllPushes(b: Buffers, ps: seq<Packet>, at: nat)
    requires b.phase.Walking? && at < |b.slots| && DeliverAll(b, ps).Some?
    ensures var c := DeliverAll(b, ps).value;
            at < |c.slots| && c.phase == b.phase && OnlyPushed(b.slots[at], c.slots[at])
  {
    if ps != [] {
      var c := DeliverAll(b, ps[..|ps| - 1]).value;
      DeliverAllPushes(b, ps[..|ps| - 1], at);
      DeliveredPushes(c, ps[|ps| - 1], at);
    }
  }

  lemma OnlyTopIsRead(sl: Slot, after: Slot, k: nat)
    requires StackIs(sl) && ReadsAre(sl, false) && OnlyPushed(TopRead(sl), after) && sl.base <= k < |after.pushed|
    ensures k in after.delivered <==> k == |sl.pushed| - 1
  {
    assert k !in sl.delivered;
    if sl.stack != [] {
      assert after.delivered == sl.delivered + [|sl.pushed| - 1];
    }
  }

  /** What has been read stays read while packets arrive, and is still to be cleared. */
  lemma {:induction false} StillToClear(b: Buffers, ps: seq<Packet>)
    requires Reachable(b) && Enabled(b, ReadTop) && DeliverAll(Next(b, ReadTop), ps).Some?
    ensures var c := DeliverAll(Next(b, ReadTop), ps).value;
            && Enabled(c, Clear) && c.phase.at == b.phase.at
            && StackIs(b.slots[b.phase.at]) && ReadsAre(b.slots[b.phase.at], false)
            && OnlyPushed(TopRead(b.slots[b.phase.at]), c.slots[b.phase.at])
  {
    ReachableInv(b);
    assert SlotOk(b.slots[b.phase.at], b.phase.at, Gap(b.phase, b.phase.at));
    DeliverAllPushes(Next(b, ReadTop), ps, b.phase.at);
  }

  /** Which snapshots get lost, exactly. Whatever arrives between the read of a stack and its clear, of all
      the snapshots that clear erases just one has been read: the newest one pushed before the read. */
  lemma {:induction false} OneIsReadOfThoseCleared(b: Buffers, ps: seq<Packet>, k: nat)
    requires Reachable(b) && Enabled(b, ReadTop) && DeliverAll(Next(b, ReadTop), ps).Some?
    ensures var c := DeliverAll(Next(b, ReadTop), ps).value;
            && Enabled(c, Clear) && b.phase.at < |Next(c, Clear).slots|
            && var before, sl := b.slots[b.phase.at], Next(c, Clear).slots[b.phase.at];
               && sl.base == |sl.pushed| >= |before.pushed|
               && (before.base <= k < |sl.pushed| ==> (k in sl.delivered <==> k == |before.pushed| - 1))
  {
    var c := DeliverAll(Next(b, ReadTop), ps).value;
    StillToClear(b, ps);
    ClearsAt(c);
    if b.slots[b.phase.at].base <= k < |c.slots[b.phase.at].pushed| {
      OnlyTopIsRead(b.slots[b.phase.at], c.slots[b.phase.at], k);
    }
  }

  /** So the newest snapshot of a peer survives a walk, that is, has been read when it is erased, if and only
      if none arrived between the read and the clear. */
  lemma {:induction false} NewestIsReadExactly(b: Buffers, ps: seq<Packet>)
    requires Reachable(b) && Enabled(b, ReadTop) && DeliverAll(Next(b, ReadTop), ps).Some?
    ensures var c := DeliverAll(Next(b, ReadTop), ps).value;
            && Enabled(c, Clear) && b.phase.at < |Next(c, Clear).slots|
            && var before, sl := b.slots[b.phase.at], Next(c, Clear).slots[b.phase.at];
               before.base < |sl.pushed| ==>
                 (|sl.pushed| - 1 in sl.delivered <==> |sl.pushed| == |before.pushed|)
  {
    var c := DeliverAll(Next(b, ReadTop), ps).value;
    StillToClear(b, ps);
    ClearsAt(c);
    var before, now := b.slots[b.phase.at], c.slots[b.phase.at];
    if before.base < |now.pushed| {
      OnlyTopIsRead(before, now, |now.pushed| - 1);
    }
  }

  /** Event conservation: what has been drained, followed by the queue, is everything pushed, in order.
      A round hands over the events it drained before the snapshots it read. */
  lemma EventsAreConserved(b: Buffers)
    requires Reachable(b)
    ensures EventsOf(b.rounds) + b.round.events + b.events == b.pushedEvents
    ensures b.phase == Resting ==> EventsOf(b.rounds) + b.events == b.pushedEvents
  {
    ReachableInv(b);
    if b.phase == Resting {
      assert EventsOf(b.rounds) + [] == EventsOf(b.rounds);
    }
  }

  /** Index tagging: the last word of a snapshot is the current index of its slot plus the number of
      times a removal has moved the slot since the push. So it names its sender's current position
      exactly if no peer before it has been removed in between. */
  lemma TagIsCurrentExactly(b: Buffers, i: nat, k: nat)
    requires Reachable(b) && i < |b.slots| && k < |b.slots[i].pushed|
    ensures var sl := b.slots[i];
            var m := sl.pushed[k];
            && m.packet != [] && m.shift <= sl.shift
            && m.packet[|m.packet| - 1] == i + (sl.shift - m.shift)
            && (m.packet[|m.packet| - 1] == i <==> sl.shift == m.shift)
  {
    ReachableInv(b);
    assert SlotOk(b.slots[i], i, Gap(b.phase, i));
    assert b.slots[i].pushed[k] in b.slots[i].pushed;
  }

  /** The position of the peer that a packet removes; past the end when it removes none. */
  function RemovedAt(b: Buffers, e: Event): nat {
    if e.Deliver? && e.p.id == GAME_REMOVE_CLIENT && 4 <= |e.p.body| && PopWord(e.p) != b.id
    then IndexOf(EntriesOf(b.slots), PopWord(e.p)) else NOT_FOUND
  }

  /** What makes a slot move: only the removal of a peer in front of it, and by one. */
  lemma SlotsMoveByRemovalsOnly(b: Buffers, e: Event, i: nat)
    requires Enabled(b, e) && i < |b.slots| <= NOT_FOUND
    ensures var k, c := RemovedAt(b, e), Next(b, e);
            && (k < i ==> i - 1 < |c.slots| && c.slots[i - 1] == b.slots[i].(shift := b.slots[i].shift + 1))
            && (k == i ==> c.slots == WithoutSlot(b.slots, i))
            && (k > i ==> i < |c.slots| && c.slots[i].id == b.slots[i].id && c.slots[i].shift == b.slots[i].shift)
  {
    if e.Deliver? {
      if e.p.id == GAME_REMOVE_CLIENT {
        RemovalMoves(b, PopWord(e.p), i);
      } else if e.p.id == GAME_SNAPSHOT {
        SnapshotMovesNothing(b, Retrieved(EntriesOf(b.slots), e.p), i);
      }
    }
  }

  lemma RemovalMoves(b: Buffers, id: Word, i: nat)
    requires i < |b.slots| <= NOT_FOUND
    ensures var k, c := if id == b.id then NOT_FOUND else IndexOf(EntriesOf(b.slots), id), DeliverRemove(b, id);
            && (k < i ==> i - 1 < |c.slots| && c.slots[i - 1] == b.slots[i].(shift := b.slots[i].shift + 1))
            && (k == i ==> c.slots == WithoutSlot(b.slots, i))
            && (k > i ==> i < |c.slots| && c.slots[i] == b.slots[i])
  {
  }

  lemma SnapshotMovesNothing(b: Buffers, words: seq<Word>, i: nat)
    requires i < |b.slots|
    ensures var c := DeliverSnapshot(b, words);
            i < |c.slots| && c.slots[i].id == b.slots[i].id && c.slots[i].shift == b.slots[i].shift
  {
  }

  // ---------- an undisturbed walk ----------

  /** Reading and clearing slot after slot, with nothing in between. */
  function WalkOn(b: Buffers): Buffers
    requires b.phase.Walking? && !b.phase.topRead && b.phase.at <= |b.slots|
    decreases |b.slots| - b.phase.at
  {
    if b.phase.at == |b.slots| then b else WalkOn(Next(Next(b, ReadTop), Clear))
  }

  /** What WalkOn does from `b` on. */
  ghost predicate WalkedFrom(b: Buffers, c: Buffers)
    requires b.phase.Walking? && b.phase.at <= |b.slots|
  {
    var before, at := EntriesOf(b.slots), b.phase.at;
    && c == b.(slots := c.slots, round := c.round, phase := Walking(|b.slots|, false)) && |c.slots| == |b.slots|
    && c.round == b.round.(tops := b.round.tops + Tops(before)[at..])
    && EntriesOf(c.slots) == before[..at] + Cleared(before)[at..]
  }

  lemma OneCleared(before: seq<PeerEntry>, after: seq<PeerEntry>, at: nat)
    requires at < |before| && after == before[at := PeerEntry(before[at].id, [])]
    ensures Tops(before)[at..] == [Top(before[at].stack)] + Tops(after)[at + 1..]
    ensures before[..at] + Cleared(before)[at..] == after[..at + 1] + Cleared(after)[at + 1..]
  {
    var tops, cleared := Tops(before)[at..], before[..at] + Cleared(before)[at..];
    var tops', cleared' := [Top(before[at].stack)] + Tops(after)[at + 1..], after[..at + 1] + Cleared(after)[at + 1..];
    assert |tops| == |tops'| && |cleared| == |cleared'|;
    assert forall k :: 0 <= k < |tops| ==> tops[k] == tops'[k];
    assert forall k :: 0 <= k < |cleared| ==> cleared[k] == cleared'[k];
  }

  lemma ReadAndClear(b: Buffers)
    requires b.phase.Walking? && !b.phase.topRead && b.phase.at < |b.slots|
    ensures var d, at, before := Next(Next(b, ReadTop), Clear), b.phase.at, EntriesOf(b.slots);
            && d == b.(slots := d.slots, round := b.round.(tops := b.round.tops + [Top(before[at].stack)]),
              phase := Walking(at + 1, false))
            && EntriesOf(d.slots) == before[at := PeerEntry(before[at].id, [])]
  {
  }

  lemma WalkOnStep(b: Buffers, d: Buffers, c: Buffers)
    requires b.phase.Walking? && !b.phase.topRead && b.phase.at < |b.slots|
    requires d == Next(Next(b, ReadTop), Clear) && |d.slots| == |b.slots| && WalkedFrom(d, c)
    ensures WalkedFrom(b, c)
  {
    var at, before, after := b.phase.at, EntriesOf(b.slots), EntriesOf(d.slots);
    ReadAndClear(b);
    OneCleared(before, after, at);
    assert b.round.tops + [Top(before[at].stack)] + Tops(after)[at + 1..]
      == b.round.tops + ([Top(before[at].stack)] + Tops(after)[at + 1..]);
  }

  lemma {:induction false} WalkOnReads(b: Buffers)
    requires b.phase.Walking? && !b.phase.topRead && b.phase.at <= |b.slots|
    ensures WalkedFrom(b, WalkOn(b))
    decreases |b.slots| - b.phase.at
  {
    if b.phase.at < |b.slots| {
      var d := Next(Next(b, ReadTop), Clear);
      WalkOnReads(d);
      WalkOnStep(b, d, WalkOn(d));
    } else {
      var before := EntriesOf(b.slots);
      assert b.round.tops + Tops(before)[|before|..] == b.round.tops;
      assert before[..|before|] + Cleared(before)[|before|..] == before;
    }
  }

  /** A walk that nothing interrupts is one call of `getAllPackets`: the round holds all queued events and
      then the newest snapshot of every peer, and both buffers are empty afterwards. */
  lemma UndisturbedWalkIsGetAllPackets(b: Buffers)
    requires Enabled(b, Begin)
    ensures var w := WalkOn(Next(b, Begin));
            && Enabled(w, Finish)
            && var c := Next(w, Finish);
               && c.rounds == b.rounds + [Round(b.events, Tops(EntriesOf(b.slots)))]
               && Core(c) == Core(b).(events := [], peers := Cleared(EntriesOf(b.slots)))
  {
    WalkOnReads(Next(b, Begin));
    var ps := EntriesOf(b.slots);
    assert [] + Tops(ps)[0..] == Tops(ps);
    assert ps[..0] + Cleared(ps)[0..] == Cleared(ps);
  }

  // ---------- two short runs ----------

  lemma Start() returns (b: Buffers)
    ensures Reachable(b) && b == Buffers(0, true, false, [], [], Resting, Round([], []), [], [])
  {
    b := Buffers(0, true, false, [], [], Resting, Round([], []), [], []);
    assert IsRun([b]);
  }

  lemma {:induction false} RunSnoc(run: seq<Buffers>, c: Buffers)
    requires IsRun(run) && Follows(run[|run| - 1], c)
    ensures IsRun(run + [c])
  {
    var longer := run + [c];
    assert longer[..|run|] == run;
    assert longer[|run| - 1] == run[|run| - 1] && longer[|run|] == c;
  }

  lemma ReachableNext(b: Buffers, e: Event)
    requires Reachable(b) && Enabled(b, e)
    ensures Reachable(Next(b, e))
  {
    var run :| IsRun(run) && run[|run| - 1] == b;
    assert Follows(b, Next(b, e));
    RunSnoc(run, Next(b, e));
    assert (run + [Next(b, e)])[|run|] == Next(b, e);
  }

  lemma DoAssign(b: Buffers, id: Word)
    requires Reachable(b) && b.phase == Resting && |b.slots| < NOT_FOUND
    ensures Reachable(b.(id := id))
  {
    IdPacketCarries(CLIENT_ASSIGN_ID, id);
    ReachableNext(b, Deliver(IdPacket(CLIENT_ASSIGN_ID, id)));
  }

  lemma DoAdd(b: Buffers, id: Word)
    requires Reachable(b) && b.phase == Resting && |b.slots| < NOT_FOUND
    ensures Reachable(DeliverAdd(b, id))
  {
    IdPacketCarries(GAME_ADD_CLIENT, id);
    ReachableNext(b, Deliver(IdPacket(GAME_ADD_CLIENT, id)));
  }

  lemma DoRemove(b: Buffers, id: Word)
    requires Reachable(b) && b.phase == Resting && |b.slots| < NOT_FOUND
    ensures Reachable(DeliverRemove(b, id))
  {
    IdPacketCarries(GAME_REMOVE_CLIENT, id);
    ReachableNext(b, Deliver(IdPacket(GAME_REMOVE_CLIENT, id)));
  }

  lemma PackedIsRetrieved(ps: seq<PeerEntry>, words: seq<Word>, sender: Word, index: Word)
    requires |ps| < NOT_FOUND && IndexOf(ps, sender) == index != NOT_FOUND && Fits(words)
    ensures var p := Pack(GAME_SNAPSHOT, words, sender);
            && p.id == GAME_SNAPSHOT && |p.body| >= 4 && PopWord(p) == sender
            && Poppable(ps, p) && Retrieved(ps, p) == words + [index]
  {
    PackShape(GAME_SNAPSHOT, words, sender);
    RetrieveInvertsPack(GAME_SNAPSHOT, words, sender, index);
  }

  lemma SnapshotIsDelivered(b: Buffers, p: Packet)
    requires |b.slots| < NOT_FOUND && p.id == GAME_SNAPSHOT && Poppable(EntriesOf(b.slots), p)
    ensures Enabled(b, Deliver(p)) && Delivered(b, p) == DeliverSnapshot(b, Retrieved(EntriesOf(b.slots), p))
  {
  }

  /** A snapshot of one word from a listed sender. */
  lemma CanSnapshot(b: Buffers, word: Word, sender: Word, index: Word)
    requires |b.slots| < NOT_FOUND && IndexOf(EntriesOf(b.slots), sender) == index != NOT_FOUND
    ensures var p := Pack(GAME_SNAPSHOT, [word], sender);
            && p.id == GAME_SNAPSHOT && |p.body| >= 4 && PopWord(p) == sender && Enabled(b, Deliver(p))
            && Delivered(b, p) == DeliverSnapshot(b, [word, index])
  {
    PackedIsRetrieved(EntriesOf(b.slots), [word], sender, index);
    assert [word] + [index] == [word, index];
    SnapshotIsDelivered(b, Pack(GAME_SNAPSHOT, [word], sender));
  }

  /** A client that has been given id 7 and lists these others. */
  function ClientWith(others: seq<Word>): Buffers {
    Buffers(7, false, false, seq(|others|, k requires 0 <= k < |others| => NewSlot(others[k], k)), [], Resting,
            Round([], []), [], [])
  }

  lemma ClientLists(one: Word, two: Word)
    requires one != 7 && two != 7
    ensures Reachable(ClientWith([one])) && Reachable(ClientWith([one, two]))
  {
    var b := Start();
    DoAssign(b, 7);
    DoAdd(b.(id := 7), 7);
    var c := b.(id := 7, waiting := false);
    DoAdd(c, one);
    assert DeliverAdd(c, one).slots == ClientWith([one]).slots;
    DoAdd(ClientWith([one]), two);
    assert DeliverAdd(ClientWith([one]), two).slots == ClientWith([one, two]).slots;
  }

  /** The race in fact: the only peer's stack has been read, and its next snapshot arrives before the clear. */
  lemma RaceHappens() returns (b: Buffers, p: Packet)
    ensures Reachable(b) && Enabled(b, Deliver(p)) && b.phase == Walking(0, true)
    ensures p.id == GAME_SNAPSHOT && |p.body| >= 4 && IndexOf(EntriesOf(b.slots), PopWord(p)) == b.phase.at
    ensures DeliverAll(b, [p]) == Some(Next(b, Deliver(p)))
  {
    ClientLists(8, 9);
    var c := ClientWith([8]);
    ReachableNext(c, Begin);
    ReachableNext(Next(c, Begin), ReadTop);
    b := Next(Next(c, Begin), ReadTop);
    p := Pack(GAME_SNAPSHOT, [1], 8);
    CanSnapshot(b, 1, 8, 0);
  }

  /** A snapshot of the second of two peers is waiting. */
  lemma SecondIsWaiting() returns (b: Buffers)
    ensures Reachable(b) && b == DeliverSnapshot(ClientWith([8, 9]), [1, 1])
  {
    ClientLists(8, 9);
    var c := ClientWith([8, 9]);
    assert IndexFrom(EntriesOf(c.slots), 9, 1) == 1;
    CanSnapshot(c, 1, 9, 1);
    ReachableNext(c, Deliver(Pack(GAME_SNAPSHOT, [1], 9)));
    b := DeliverSnapshot(c, [1, 1]);
  }

  /** A stale tag in fact: a snapshot of the second peer is waiting when the first one is removed. Its tag
      is then past the end of the list. */
  lemma TagGoesStale() returns (b: Buffers)
    ensures Reachable(b) && |b.slots| == 1 && b.slots[0].id == 9 && b.slots[0].stack == [[1, 1]]
  {
    var d := SecondIsWaiting();
    DoRemove(d, 8);
    b := DeliverRemove(d, 8);
  }
}
