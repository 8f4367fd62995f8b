/** NetworkClient/Client.cpp, the `handle*` functions on values: what each packet from the server
    does to the client's own id, its two flags and the ids in `ClientConnection::connections`. */
module ClientViews {
  import opened Words
  import opened Lists
  import opened Packets

  datatype View = View(id: Word, waiting: bool, stopped: bool, roster: seq<Word>)

  const NEWBORN := View(0, true, false, [])

  /** handlePacket, as far as membership goes. A packet too short for its id is never sent
      (DownOk in the relay model); the C++ would read below the body. */
  function Handle(v: View, p: Packet): View {
    if |p.body| < 4 then v
    else if p.id == CLIENT_ASSIGN_ID then v.(id := PopWord(p))
    else if p.id == GAME_ADD_CLIENT then
      if PopWord(p) == v.id then v.(waiting := false) else v.(roster := v.roster + [PopWord(p)])
    else if p.id == GAME_REMOVE_CLIENT then
      if PopWord(p) == v.id then v.(stopped := true) else v.(roster := RemoveFirst(v.roster, PopWord(p)))
    else v
  }

  /** All of `ps`, in order. */
  function HandleAll(v: View, ps: seq<Packet>): View {
    if ps == [] then v else Handle(HandleAll(v, ps[..|ps| - 1]), ps[|ps| - 1])
  }

  lemma {:induction false} HandleAllAppend(v: View, ps: seq<Packet>, qs: seq<Packet>)
    ensures HandleAll(v, ps + qs) == HandleAll(HandleAll(v, ps), qs)
  {
    if qs == [] {
      assert ps + qs == ps;
    } else {
      assert (ps + qs)[..|ps + qs| - 1] == ps + qs[..|qs| - 1];
      HandleAllAppend(v, ps, qs[..|qs| - 1]);
    }
  }

  lemma {:induction false} HandleOne(v: View, ps: seq<Packet>, p: Packet)
    ensures HandleAll(v, ps + [p]) == Handle(HandleAll(v, ps), p)
  {
    assert (ps + [p])[..|ps|] == ps;
  }
}
