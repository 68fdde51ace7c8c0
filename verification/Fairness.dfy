/** Fair routing: while its membership stays the same, a queue group shares its messages evenly,
    whatever other subjects are routed or retried in between (src/broker.ts, pick). */
module Fairness {
  import opened Messages
  import opened Subjects
  import opened Routing

  /** One routing decision: a publish (no group wanted) or a retry inside one group. */
  datatype Call = Call(subject: string, want: Option<Group>)

  ghost function TargetsOf(subs: seq<Sub>, rr: Cursor, call: Call): seq<Sub> {
    Targets(subs, rr, EligibleAmong(subs, call.subject, call.want))
  }

  ghost function CursorAfter(subs: seq<Sub>, rr: Cursor, calls: seq<Call>): Cursor {
    if calls == [] then rr
    else
      var last := calls[|calls| - 1];
      Rotated(subs, CursorAfter(subs, rr, calls[..|calls| - 1]), EligibleAmong(subs, last.subject, last.want))
  }

  /** How often sub was a target. */
  ghost function TimesPicked(subs: seq<Sub>, rr: Cursor, calls: seq<Call>, sub: Sub): nat {
    if calls == [] then 0
    else
      var front, last := calls[..|calls| - 1], calls[|calls| - 1];
      TimesPicked(subs, rr, front, sub) + (if sub in TargetsOf(subs, CursorAfter(subs, rr, front), last) then 1 else 0)
  }

  function Everyone(subs: seq<Sub>): set<Sub> {
    set s | s in subs
  }

  /** All members of a group. */
  ghost function All(subs: seq<Sub>, g: Group): seq<Sub> {
    Members(subs, g, Everyone(subs))
  }

  /** The members of a group are eligible together or not at all. */
  lemma {:induction false} AllOrNone(subs: seq<Sub>, g: Group, among: set<Sub>, ok: set<Sub>, eligible: bool)
    requires forall s | s in subs :: s in among && (In(s, g) ==> (s in ok <==> eligible))
    ensures Members(subs, g, ok) == if eligible then Members(subs, g, among) else []
  {
    if subs != [] {
      var front, last := subs[..|subs| - 1], subs[|subs| - 1];
      assert subs == front + [last];
      AllOrNone(front, g, among, ok, eligible);
    }
  }

  ghost predicate Touches(g: Group, call: Call) {
    (call.want.Some? ==> call.want.value == g) && Match(call.subject, g.pattern)
  }

  lemma MembersTouched(subs: seq<Sub>, g: Group, call: Call)
    ensures Members(subs, g, EligibleAmong(subs, call.subject, call.want)) == if Touches(g, call) then All(subs, g)
        else []
  {
    AllOrNone(subs, g, Everyone(subs), EligibleAmong(subs, call.subject, call.want), Touches(g, call));
  }

  lemma {:induction false} MembersDistinct(subs: seq<Sub>, g: Group, ok: set<Sub>)
    requires Distinct(subs)
    ensures var ms := Members(subs, g, ok); forall i, j | 0 <= i < j < |ms| :: ms[i] != ms[j]
  {
    if subs != [] {
      var front, last := subs[..|subs| - 1], subs[|subs| - 1];
      MembersDistinct(front, g, ok);
      MembersAre(front, g, ok, last);
      assert last !in front by {
        forall i | 0 <= i < |front| ensures front[i] != last { assert subs[i].id != subs[|subs| - 1].id; }
      }
    }
  }

  lemma RotatedAt(subs: seq<Sub>, rr: Cursor, ok: set<Sub>, g: Group)
    ensures At(Rotated(subs, rr, ok), g) ==
            if Members(subs, g, ok) != [] then At(rr, g) % |Members(subs, g, ok)| + 1 else At(rr, g)
  {
    GroupsListed(subs, ok);
    AdvancedAt(subs, rr, Groups(subs, ok), ok, g);
  }

  /** A member is a target exactly when its group is touched and it is its turn. */
  lemma PickedIff(subs: seq<Sub>, rr: Cursor, ok: set<Sub>, g: Group, sub: Sub)
    requires Distinct(subs) && In(sub, g)
    ensures sub in Targets(subs, rr, ok) <==> Members(subs, g, ok) != [] && sub == Turn(rr, g, Members(subs, g, ok))
  {
    if sub in Targets(subs, rr, ok) { TurnTaken(subs, rr, ok, sub); }
    if Members(subs, g, ok) != [] {
      GroupsListed(subs, ok);
      var gs := Groups(subs, ok);
      ChosenAre(subs, rr, gs, ok);
      var i :| 0 <= i < |gs| && gs[i] == g;
      assert Chosen(subs, rr, gs, ok)[i] in Chosen(subs, rr, gs, ok);
    }
  }

  /** Position j lies in the stretch from start to now on a ring. */
  predicate Between(start: nat, now: nat, j: nat) {
    if start <= now then start <= j < now else j >= start || j < now
  }

  /** After k full rounds and part of another, everyone has had k turns and those in the part one
      more. */
  ghost predicate Shared(subs: seq<Sub>, rr: Cursor, calls: seq<Call>, g: Group, k: nat)
    requires All(subs, g) != []
  {
    var all := All(subs, g);
    var start, now := Position(subs, rr, g), Position(subs, CursorAfter(subs, rr, calls), g);
    forall j | 0 <= j < |all| :: TimesPicked(subs, rr, calls, all[j]) == k + (if Between(start, now, j) then 1 else 0)
  }

  function NextOn(n: nat, now: nat): nat {
    if now + 1 == n then 0 else now + 1
  }

  lemma NextTurn(n: nat, x: nat)
    requires n > 0
    ensures (x % n + 1) % n == NextOn(n, x % n)
  {
    var r := x % n;
    if r + 1 == n { assert n % n == 0; } else { assert (r + 1) % n == r + 1; }
  }

  lemma RoundsAdvance(n: nat, start: nat, now: nat, j: nat)
    requires start < n && now < n && j < n
    ensures var next := NextOn(n, now);
            if next == start then
              (if Between(start, now, j) then 1 else 0) + (if j == now then 1 else 0) == 1 && !Between(start, next, j)
            else
              (if Between(start, now, j) then 1 else 0) + (if j == now then 1 else 0)
              == (if Between(start, next, j) then 1 else 0)
  {
  }

  /** Where the group's rotation stands, as a position among its members. */
  ghost function Position(subs: seq<Sub>, rr: Cursor, g: Group): nat
    requires All(subs, g) != []
  {
    At(rr, g) % |All(subs, g)|
  }

  lemma CallPicks(subs: seq<Sub>, rr: Cursor, call: Call, g: Group, j: nat)
    requires Distinct(subs) && j < |All(subs, g)|
    ensures All(subs, g)[j] in TargetsOf(subs, rr, call) <==> Touches(g, call) && j == Position(subs, rr, g)
  {
    var ok := EligibleAmong(subs, call.subject, call.want);
    MembersTouched(subs, g, call);
    MembersDistinct(subs, g, Everyone(subs));
    MembersAre(subs, g, Everyone(subs), All(subs, g)[j]);
    PickedIff(subs, rr, ok, g, All(subs, g)[j]);
  }

  lemma CallMoves(subs: seq<Sub>, rr: Cursor, call: Call, g: Group)
    requires All(subs, g) != []
    ensures Position(subs, Rotated(subs, rr, EligibleAmong(subs, call.subject, call.want)), g) ==
            if Touches(g, call) then NextOn(|All(subs, g)|, Position(subs, rr, g)) else Position(subs, rr, g)
  {
    MembersTouched(subs, g, call);
    RotatedAt(subs, rr, EligibleAmong(subs, call.subject, call.want), g);
    NextTurn(|All(subs, g)|, At(rr, g));
  }

  lemma TimesAppend(subs: seq<Sub>, rr: Cursor, calls: seq<Call>, call: Call, sub: Sub)
    ensures TimesPicked(subs, rr, calls + [call], sub) ==
            TimesPicked(subs, rr, calls, sub)
              + (if sub in TargetsOf(subs, CursorAfter(subs, rr, calls), call) then 1 else 0)
    ensures CursorAfter(subs, rr, calls + [call]) ==
            Rotated(subs, CursorAfter(subs, rr, calls), EligibleAmong(subs, call.subject, call.want))
  {
    assert (calls + [call])[..|calls|] == calls;
  }

  lemma CallShares(subs: seq<Sub>, rr: Cursor, calls: seq<Call>, call: Call, g: Group, k: nat) returns (k': nat)
    requires Distinct(subs) && All(subs, g) != [] && Shared(subs, rr, calls, g, k)
    ensures Shared(subs, rr, calls + [call], g, k')
  {
    var all, before := All(subs, g), CursorAfter(subs, rr, calls);
    var n, touched := |all|, Touches(g, call);
    var start, now, after := Position(subs, rr, g), Position(subs, before, g), CursorAfter(subs, rr, calls + [call]);
    TimesAppend(subs, rr, calls, call, all[0]);
    CallMoves(subs, before, call, g);
    k' := if touched && NextOn(n, now) == start then k + 1 else k;
    forall j | 0 <= j < n
      ensures TimesPicked(subs, rr, calls + [call], all[j]) ==
              k' + (if Between(start, Position(subs, after, g), j) then 1 else 0)
    {
      TimesAppend(subs, rr, calls, call, all[j]);
      CallPicks(subs, before, call, g, j);
      RoundsAdvance(n, start, now, j);
    }
  }

  lemma {:induction false} RunShares(subs: seq<Sub>, rr: Cursor, calls: seq<Call>, g: Group) returns (k: nat)
    requires Distinct(subs) && All(subs, g) != []
    ensures Shared(subs, rr, calls, g, k)
  {
    if calls == [] {
      k := 0;
    } else {
      var front := calls[..|calls| - 1];
      k := RunShares(subs, rr, front, g);
      k := CallShares(subs, rr, front, calls[|calls| - 1], g, k);
      assert front + [calls[|calls| - 1]] == calls;
    }
  }

  /** Fairness.  From any rotation, over any run of publishes and retries on any subjects, two
      members of one queue group are picked equally often, give or take one. */
  lemma FairShare(subs: seq<Sub>, rr: Cursor, calls: seq<Call>, g: Group, a: Sub, b: Sub)
    requires Distinct(subs) && a in subs && b in subs && In(a, g) && In(b, g)
    ensures -1 <= TimesPicked(subs, rr, calls, a) - TimesPicked(subs, rr, calls, b) <= 1
  {
    MembersAre(subs, g, Everyone(subs), a);
    MembersAre(subs, g, Everyone(subs), b);
    var k := RunShares(subs, rr, calls, g);
    var all := All(subs, g);
    var i :| 0 <= i < |all| && all[i] == a;
    var j :| 0 <= j < |all| && all[j] == b;
  }
}
