/** A queue group that listens for dead letters: its members need not be sent equally many messages. */
module DeliveryUneven {
  import opened Messages
  import opened Subjects
  import opened Routing
  import opened CircuitBreaker
  import opened DeliveryModel
  import opened DeliveryTurns
  import opened DeliveryFairness
  import opened DeliveryAnswers
  import Backoff
  import Fairness

  /** One attempt per message; dead letters go out on subject d. */
  const CFG := Config(1, Backoff.Options(1.0, 1.0, 1.0), None, (subject: string) => "d")

  const G := Group(">", "q")
  const A := Sub(1, ">", Some("q"))
  const B := Sub(2, ">", Some("q"))

  lemma AllHeard()
    ensures Valid(">", true) && Valid("m", false) && Match("m", ">") && Match("d", ">")
  {
    SplitOf(">", "");
    SplitOf("m", "");
    SplitOf("d", "");
  }

  lemma BothMembers(ok: set<Sub>)
    requires A in ok && B in ok
    ensures Members([A, B], G, ok) == [A, B]
  {
    assert [A, B][..1] == [A] && [A][..0] == [];
    assert Members([A], G, ok) == [A];
  }

  /** Everything on the one pattern goes to the two in turn. */
  lemma InTurn(rr: Cursor, subject: string)
    requires Match(subject, ">")
    ensures var ok := EligibleAmong([A, B], subject, None);
            && Targets([A, B], rr, ok) == [if At(rr, G) % 2 == 0 then A else B]
            && Rotated([A, B], rr, ok) == rr[G := At(rr, G) % 2 + 1]
  {
    hide Targets, Rotated, Match, Members;
    var ok := EligibleAmong([A, B], subject, None);
    assert ok == EligibleAmong([A, B], subject, Some(G));
    assert A in [A, B] && B in [A, B];
    BothMembers(ok);
    OneGroup([A, B], rr, subject, G);
  }

  const LETTER := DeadLetter("m", MaxDeliverExhausted, 1, 0, [])
  const READY := Chain("m", [], Ready(A, 1), 0, [])
  const CALLED := Chain("m", [], Handling(A, 1), 1, [])
  const GONE := Chain("m", [], Dead, 1, [])

  const S1 := State(false, 2, [A], map[], map[], [], [])
  const S2 := State(false, 3, [A, B], map[], map[], [], [])
  const S3 := State(false, 3, [A, B], map[G := 1], map[], [READY], [])
  const S4 := State(false, 3, [A, B], map[G := 1], map[1 := INITIAL], [CALLED], [])
  const S5 := State(false, 3, [A, B], map[G := 2], map[1 := INITIAL], [GONE], [(0, LETTER)])
  const S6 := State(false, 3, [A, B], map[G := 1], map[1 := INITIAL], [GONE, READY], [(0, LETTER)])
  const S7 := State(false, 3, [A, B], map[G := 1], map[1 := INITIAL], [GONE, CALLED], [(0, LETTER)])
  const S8 := State(false, 3, [A, B], map[G := 2], map[1 := INITIAL], [GONE, GONE], [(0, LETTER), (1, LETTER)])

  lemma Subscribed()
    ensures Step(CFG, EMPTY, Subscribe(">", Some("q"))) == S1 && Step(CFG, S1, Subscribe(">", Some("q"))) == S2
  {
    hide Valid;
    AllHeard();
    assert !Blank("q") by { assert "q"[0] in "q"; }
  }

  lemma FirstMessage()
    ensures Step(CFG, S2, Publish("m", [])) == S3
    ensures Step(CFG, S3, GoStart(0, 0)) == S4 && Step(CFG, S4, GoFinish(0, false, 0)) == S5
  {
    hide Targets, Rotated, EligibleAmong, Valid, Match;
    AllHeard();
    InTurn(map[], "m");
    InTurn(map[G := 1], "d");
    assert NewChains([A], "m", []) == [READY];
  }

  lemma SecondMessage()
    ensures Step(CFG, S5, Publish("m", [])) == S6
    ensures Step(CFG, S6, GoStart(1, 0)) == S7 && Step(CFG, S7, GoFinish(1, false, 0)) == S8
  {
    hide Targets, Rotated, EligibleAmong, Valid, Match;
    AllHeard();
    InTurn(map[G := 2], "m");
    InTurn(map[G := 1], "d");
    assert NewChains([A], "m", []) == [READY];
  }

  lemma Counts()
    ensures Readied(S2, S3, A, 1) == 1 && Readied(S2, S3, B, 1) == 0
    ensures Readied(S5, S6, A, 2) == 1 && Readied(S5, S6, B, 2) == 0
    ensures forall s | s in {A, B} ::
              Readied(S3, S4, s, 1) == Readied(S4, S5, s, 1) == Readied(S6, S7, s, 2) == Readied(S7, S8, s, 2) == 0
  {
    OneReadied(S2, S3, A, 1, 0);
    NoneReadied(S2, S3, B, 1);
    OneReadied(S5, S6, A, 2, 1);
    NoneReadied(S5, S6, B, 2);
    forall s | s in {A, B}
      ensures Readied(S3, S4, s, 1) == Readied(S4, S5, s, 1) == Readied(S6, S7, s, 2) == Readied(S7, S8, s, 2) == 0
    {
      NoneReadied(S3, S4, s, 1);
      NoneReadied(S4, S5, s, 1);
      NoneReadied(S6, S7, s, 2);
      NoneReadied(S7, S8, s, 2);
    }
  }

  const STATES := [EMPTY, S1, S2, S3, S4, S5, S6, S7, S8]
  const ACTIONS := [Subscribe(">", Some("q")), Subscribe(">", Some("q")), Publish("m", []), GoStart(0, 0),
                    GoFinish(0, false, 0), Publish("m", []), GoStart(1, 0), GoFinish(1, false, 0)]

  lemma Runs()
    ensures IsRun(CFG, STATES, ACTIONS)
  {
    hide Step;
    Subscribed();
    FirstMessage();
    SecondMessage();
  }

  lemma Stays()
    ensures Steady(STATES, G, 2, 8, [A, B])
  {
    forall i | 2 <= i <= 8 ensures IsGroup([A, B], STATES[i].subs, G) { assert STATES[i].subs == [A, B]; }
  }

  lemma Total(s: Sub)
    requires s in {A, B}
    ensures ReadiedIn(STATES, 2, 8, s) == if s == A then 2 else 0
  {
    hide Readied;
    Counts();
    assert ReadiedIn(STATES, 2, 3, s) == if s == A then 1 else 0;
    assert ReadiedIn(STATES, 2, 4, s) == if s == A then 1 else 0;
    assert ReadiedIn(STATES, 2, 5, s) == if s == A then 1 else 0;
    assert ReadiedIn(STATES, 2, 6, s) == if s == A then 2 else 0;
  }

  /** Two messages are published to a group of two that also listens for dead letters, and both fail: both
      went to the first member, whose turn came round each time by the letter the second one got. */
  lemma MessagesAloneUneven() returns (states: seq<State>, actions: seq<Action>)
    ensures IsRun(CFG, states, actions) && Steady(states, G, 2, 8, [A, B])
    ensures ReadiedIn(states, 2, 8, A) == 2 && ReadiedIn(states, 2, 8, B) == 0
  {
    hide IsRun, Steady, ReadiedIn;
    states, actions := STATES, ACTIONS;
    Runs();
    Stays();
    Total(A);
    Total(B);
  }
}
