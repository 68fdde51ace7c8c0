/** Which subscribers a message goes to (src/broker.ts, pick): every matching fan-out subscriber,
    and one member of every matching queue group, in rotation. */
module Routing {
  import opened Messages
  import opened Subjects

  datatype Sub = Sub(id: int, pattern: string, queue: Option<string>)

  /** A queue group: the code joins the two strings with a NUL, here they are a pair. */
  datatype Group = Group(pattern: string, queue: string)

  /** Where each group's rotation stands. */
  type Cursor = map<Group, nat>

  predicate In(sub: Sub, g: Group) {
    sub.pattern == g.pattern && sub.queue == Some(g.queue)
  }

  function GroupOf(sub: Sub): Group
    requires sub.queue.Some?
  {
    Group(sub.pattern, sub.queue.value)
  }

  /** A retry asks for one group only. */
  ghost predicate Eligible(sub: Sub, subject: string, want: Option<Group>) {
    (want.Some? ==> In(sub, want.value)) && Match(subject, sub.pattern)
  }

  /** Who may get a message on this subject. */
  ghost function EligibleAmong(subs: seq<Sub>, subject: string, want: Option<Group>): set<Sub> {
    set sub | sub in subs && Eligible(sub, subject, want)
  }

  function Fanout(subs: seq<Sub>, ok: set<Sub>): seq<Sub> {
    if subs == [] then []
    else
      var last := subs[|subs| - 1];
      Fanout(subs[..|subs| - 1], ok) +
      (if last.queue.None? && last in ok then [last] else [])
  }

  function Members(subs: seq<Sub>, g: Group, ok: set<Sub>): seq<Sub> {
    if subs == [] then []
    else
      var last := subs[|subs| - 1];
      Members(subs[..|subs| - 1], g, ok) +
      (if In(last, g) && last in ok then [last] else [])
  }

  /** The groups with an eligible member, in the order of their first one. */
  function Groups(subs: seq<Sub>, ok: set<Sub>): seq<Group> {
    if subs == [] then []
    else
      var last, before := subs[|subs| - 1], Groups(subs[..|subs| - 1], ok);
      if last.queue.Some? && last in ok && GroupOf(last) !in before
      then before + [GroupOf(last)] else before
  }

  function At(rr: Cursor, g: Group): nat {
    if g in rr then rr[g] else 0
  }

  /** The member whose turn it is. */
  function Turn(rr: Cursor, g: Group, members: seq<Sub>): Sub
    requires members != []
  {
    members[At(rr, g) % |members|]
  }

  /** A group in the list has at least one eligible member, and is listed once. */
  lemma {:induction false} GroupsListed(subs: seq<Sub>, ok: set<Sub>)
    ensures var gs := Groups(subs, ok);
            && (forall g :: g in gs <==> Members(subs, g, ok) != [])
            && (forall i, j | 0 <= i < j < |gs| :: gs[i] != gs[j])
  {
    if subs != [] {
      GroupsListed(subs[..|subs| - 1], ok);
      forall g ensures g in Groups(subs, ok) <==> Members(subs, g, ok) != [] {
        assert g in Groups(subs[..|subs| - 1], ok) <==> Members(subs[..|subs| - 1], g, ok) != [];
        var last := subs[|subs| - 1];
        assert In(last, g) <==> last.queue.Some? && GroupOf(last) == g;
      }
    }
  }

  /** Each of these groups has an eligible member. */
  predicate Manned(subs: seq<Sub>, gs: seq<Group>, ok: set<Sub>) {
    forall g | g in gs :: Members(subs, g, ok) != []
  }

  /** One chosen member for each of the first n groups. */
  function Chosen(subs: seq<Sub>, rr: Cursor, gs: seq<Group>, ok: set<Sub>): seq<Sub>
    requires Manned(subs, gs, ok)
  {
    if gs == [] then []
    else
      var front, g := gs[..|gs| - 1], gs[|gs| - 1];
      assert forall h | h in front :: h in gs;
      Chosen(subs, rr, front, ok) + [Turn(rr, g, Members(subs, g, ok))]
  }

  /** The rotation of each of these groups moves past the member chosen. */
  function Advanced(subs: seq<Sub>, rr: Cursor, gs: seq<Group>, ok: set<Sub>): Cursor
    requires Manned(subs, gs, ok)
  {
    if gs == [] then rr
    else
      var front, g := gs[..|gs| - 1], gs[|gs| - 1];
      assert forall h | h in front :: h in gs;
      Advanced(subs, rr, front, ok)[g := At(rr, g) % |Members(subs, g, ok)| + 1]
  }

  function Targets(subs: seq<Sub>, rr: Cursor, ok: set<Sub>): seq<Sub> {
    GroupsListed(subs, ok);
    Fanout(subs, ok) + Chosen(subs, rr, Groups(subs, ok), ok)
  }

  function Rotated(subs: seq<Sub>, rr: Cursor, ok: set<Sub>): Cursor {
    GroupsListed(subs, ok);
    Advanced(subs, rr, Groups(subs, ok), ok)
  }

  // ---------------------------------------------------------------------------------------
  // Every subscriber once, every group once

  ghost predicate Distinct(subs: seq<Sub>) {
    forall i, j | 0 <= i < j < |subs| :: subs[i].id != subs[j].id
  }

  lemma {:induction false} FanoutOnce(subs: seq<Sub>, ok: set<Sub>, sub: Sub)
    requires Distinct(subs)
    ensures multiset(Fanout(subs, ok))[sub] ==
            (if sub in subs && sub.queue.None? && sub in ok then 1 else 0)
  {
    if subs != [] {
      var front, last := subs[..|subs| - 1], subs[|subs| - 1];
      FanoutOnce(front, ok, sub);
      assert subs == front + [last];
      assert multiset(Fanout(subs, ok)) ==
             multiset(Fanout(front, ok)) + (if last.queue.None? && last in ok then multiset{last} else multiset{});
      if sub in front { assert last.id != sub.id; }
    }
  }

  lemma {:induction false} MembersAre(subs: seq<Sub>, g: Group, ok: set<Sub>, sub: Sub)
    ensures sub in Members(subs, g, ok) <==> sub in subs && In(sub, g) && sub in ok
  {
    if subs != [] {
      var front, last := subs[..|subs| - 1], subs[|subs| - 1];
      MembersAre(front, g, ok, sub);
      assert subs == front + [last];
    }
  }

  lemma ChosenLast(subs: seq<Sub>, rr: Cursor, gs: seq<Group>, ok: set<Sub>)
    requires gs != [] && Manned(subs, gs, ok)
    ensures var front, g := gs[..|gs| - 1], gs[|gs| - 1];
            && Manned(subs, front, ok) && Members(subs, g, ok) != []
            && Chosen(subs, rr, gs, ok) == Chosen(subs, rr, front, ok) + [Turn(rr, g, Members(subs, g, ok))]
            && Advanced(subs, rr, gs, ok) == Advanced(subs, rr, front, ok)[g := At(rr, g) % |Members(subs, g, ok)| + 1]
  {
    assert gs[|gs| - 1] in gs && forall h | h in gs[..|gs| - 1] :: h in gs;
  }

  lemma {:induction false} AdvancedAt(subs: seq<Sub>, rr: Cursor, gs: seq<Group>, ok: set<Sub>, g: Group)
    requires Manned(subs, gs, ok)
    ensures At(Advanced(subs, rr, gs, ok), g) ==
            if g in gs then At(rr, g) % |Members(subs, g, ok)| + 1 else At(rr, g)
  {
    if gs != [] {
      var front, h := gs[..|gs| - 1], gs[|gs| - 1];
      ChosenLast(subs, rr, gs, ok);
      assert gs == front + [h];
      AdvancedAt(subs, rr, front, ok, g);
    }
  }

  lemma {:induction false} ChosenAre(subs: seq<Sub>, rr: Cursor, gs: seq<Group>, ok: set<Sub>)
    requires Manned(subs, gs, ok)
    ensures var chosen := Chosen(subs, rr, gs, ok);
            |chosen| == |gs|
            && forall i | 0 <= i < |gs| :: chosen[i] == Turn(rr, gs[i], Members(subs, gs[i], ok))
  {
    if gs != [] {
      ChosenLast(subs, rr, gs, ok);
      ChosenAre(subs, rr, gs[..|gs| - 1], ok);
    }
  }

  /** How many targets are in group g. */
  function CountIn(targets: seq<Sub>, g: Group): nat {
    if targets == [] then 0
    else CountIn(targets[..|targets| - 1], g) + (if In(targets[|targets| - 1], g) then 1 else 0)
  }

  lemma {:induction false} CountAppend(a: seq<Sub>, b: seq<Sub>, g: Group)
    ensures CountIn(a + b, g) == CountIn(a, g) + CountIn(b, g)
  {
    if b == [] {
      assert a + b == a;
    } else {
      assert (a + b)[..|a + b| - 1] == a + b[..|b| - 1];
      CountAppend(a, b[..|b| - 1], g);
    }
  }

  lemma {:induction false} FanoutInNoGroup(subs: seq<Sub>, ok: set<Sub>, g: Group)
    ensures CountIn(Fanout(subs, ok), g) == 0
  {
    if subs != [] {
      var front, last := Fanout(subs[..|subs| - 1], ok), subs[|subs| - 1];
      FanoutInNoGroup(subs[..|subs| - 1], ok, g);
      assert (front + [last])[..|front|] == front;
      assert front + [] == front;
    }
  }

  lemma {:induction false} ChosenCount(subs: seq<Sub>, rr: Cursor, gs: seq<Group>, ok: set<Sub>, g: Group)
    requires Manned(subs, gs, ok)
    requires forall i, j | 0 <= i < j < |gs| :: gs[i] != gs[j]
    ensures CountIn(Chosen(subs, rr, gs, ok), g) == if g in gs then 1 else 0
  {
    if gs != [] {
      var front, h := gs[..|gs| - 1], gs[|gs| - 1];
      ChosenLast(subs, rr, gs, ok);
      ChosenCount(subs, rr, front, ok, g);
      var member := Turn(rr, h, Members(subs, h, ok));
      MembersAre(subs, h, ok, member);
      assert gs == front + [h] && h !in front;
      CountAppend(Chosen(subs, rr, front, ok), [member], g);
      CountOne(member, h, g);
    }
  }

  lemma CountOne(member: Sub, h: Group, g: Group)
    requires In(member, h)
    ensures CountIn([member], g) == if g == h then 1 else 0
  {
    assert [member][..0] == [];
    assert CountIn([member], g) == CountIn([member][..0], g) + if In(member, g) then 1 else 0;
  }

  /** A target in a group is the eligible member whose turn it is. */
  predicate TargetRight(subs: seq<Sub>, rr: Cursor, ok: set<Sub>, sub: Sub)
    requires sub.queue.Some?
  {
    && sub in subs && sub in ok
    && var members := Members(subs, GroupOf(sub), ok);
       members != [] && sub == Turn(rr, GroupOf(sub), members)
  }

  lemma ChosenRight(subs: seq<Sub>, rr: Cursor, gs: seq<Group>, ok: set<Sub>, sub: Sub)
    requires Manned(subs, gs, ok)
    requires sub in Chosen(subs, rr, gs, ok)
    ensures sub.queue.Some? && TargetRight(subs, rr, ok, sub)
  {
    ChosenAre(subs, rr, gs, ok);
    var i :| 0 <= i < |gs| && Chosen(subs, rr, gs, ok)[i] == sub;
    MembersAre(subs, gs[i], ok, sub);
    assert GroupOf(sub) == gs[i];
  }

  /** Every eligible fan-out subscriber is a target exactly once, and no other one is. */
  lemma FanoutRouted(subs: seq<Sub>, rr: Cursor, ok: set<Sub>, sub: Sub)
    requires Distinct(subs) && sub.queue.None?
    ensures multiset(Targets(subs, rr, ok))[sub] == if sub in subs && sub in ok then 1 else 0
  {
    GroupsListed(subs, ok);
    FanoutOnce(subs, ok, sub);
    if sub in Chosen(subs, rr, Groups(subs, ok), ok) { ChosenRight(subs, rr, Groups(subs, ok), ok, sub); }
  }

  /** A queue group has exactly one target if it has an eligible member, and none otherwise. */
  lemma GroupRouted(subs: seq<Sub>, rr: Cursor, ok: set<Sub>, g: Group)
    ensures CountIn(Targets(subs, rr, ok), g) == if Members(subs, g, ok) != [] then 1 else 0
  {
    GroupsListed(subs, ok);
    CountAppend(Fanout(subs, ok), Chosen(subs, rr, Groups(subs, ok), ok), g);
    FanoutInNoGroup(subs, ok, g);
    ChosenCount(subs, rr, Groups(subs, ok), ok, g);
  }

  /** That target is the member whose turn it is. */
  lemma TurnTaken(subs: seq<Sub>, rr: Cursor, ok: set<Sub>, sub: Sub)
    requires Distinct(subs) && sub in Targets(subs, rr, ok) && sub.queue.Some?
    ensures TargetRight(subs, rr, ok, sub)
  {
    GroupsListed(subs, ok);
    FanoutOnce(subs, ok, sub);
    if sub !in Fanout(subs, ok) { ChosenRight(subs, rr, Groups(subs, ok), ok, sub); }
  }
}
