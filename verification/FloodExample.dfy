/** The assumptions of flood coverage can be met: a flood over one link, from start to end. */
module FloodExample {
  import opened Machine
  import opened IdCaches
  import opened Handlers
  import opened Networks
  import opened Updates
  import opened Floods
  import opened QuietRuns
  import opened KeepAliveLimits
  import Protocol

  /** Everything `FloodCoverage` assumes of an advertisement and the steps after it. */
  ghost predicate Assumed(s: Net, start: Step, a: Address, flood: seq<Step>, g: Graph) {
    && ClockFits(s.now) && Enabled(s, start) && Advertises(s, start, a) && Radio(g, s.nodes.Keys) && start.rx == g[a]
    && var k, s1 := Key(a, Seconds(s.now)), Next(s, start);
    && Runs(s1, flood) && ClockFits(Reached(s1, flood).now) && LosslessRun(s1, flood, g, k, s.now + ID_LIFETIME)
  }

  /** `A` starts, `B` hears it, and the flood is over. */
  lemma OneLink() returns (start: Step, flood: seq<Step>, g: Graph)
    ensures Init(Fresh(0)) && Enabled(Fresh(0), Tick(999_999)) && Next(Fresh(0), Tick(999_999)) == Fresh(999_999)
    ensures Assumed(Fresh(999_999), start, A, flood, g)
    ensures var s2 := Reached(Next(Fresh(999_999), start), flood);
            Copies(s2.control, Key(A, 0)) == 0 && (B, Key(A, 0)) in s2.sent
  {
    hide Next, Enabled, Protocol.Initial, Fresh, Init;
    FreshInit();
    FreshTick(0, 999_999);
    FreshFacts(999_999);
    SecondZero();
    start := Start(A, StandingAt(REST), 1000, [B]);
    g := map[A := [B], B := []];
    var h := Started(1000);
    var s := Fresh(999_999);
    var s1 := Next(s, start);
    var deliver := DeliverControl(0, StandingAt(REST), []);
    CopyAccepted(s1, 0, 1_999_999, REST, 0, 0);
    flood := [deliver];
    var s2 := Next(s1, deliver);
    assert flood[1..] == [];
    assert Runs(s2, []) && Reached(s2, []) == s2;
    assert Reached(s1, flood) == s2;
    assert s2.control == [];
    assert s.nodes.Keys == {A, B} by { FreshNodes(999_999); }
    assert Radio(g, s.nodes.Keys);
    assert History(s1.log, A) != History(s.log, A);
    assert Advertises(s, start, A);
    assert Runs(s1, flood);
    assert s2.now == 999_999;
    assert Lossless(s1, deliver, g, Key(A, 0), s.now + ID_LIFETIME);
    assert LosslessRun(s2, [], g, Key(A, 0), s.now + ID_LIFETIME);
    assert LosslessRun(s1, flood, g, Key(A, 0), s.now + ID_LIFETIME);
  }

  lemma FreshNodes(now: Time)
    ensures Fresh(now).nodes.Keys == {A, B}
  {
  }
}
