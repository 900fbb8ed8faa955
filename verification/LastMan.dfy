/** The Last Man rules: how one tick of a round is resolved. */
module LastMan {
  import opened Prelude

  type UserId = Id

  datatype Choice = Zero | One
  datatype Move = Move(user: UserId, choice: Choice)
  datatype Reason = Minority | Tie | Unanimous | Silence | Empty
  datatype TickOutcome = TickOutcome(survivors: seq<UserId>, eliminated: seq<UserId>, repeats: bool, reason: Reason)

  ghost function Users(s: seq<UserId>): set<UserId> {
    set u | u in s
  }

  ghost predicate Distinct(s: seq<UserId>) {
    forall i, j :: 0 <= i < j < |s| ==> s[i] != s[j]
  }

  // The committed choices, as an insertion-ordered table keyed by user.

  predicate Has(committed: seq<Move>, u: UserId) {
    exists i :: 0 <= i < |committed| && committed[i].user == u
  }

  /** Overwrites the choice of a user already present, in place; otherwise appends. */
  function Put(committed: seq<Move>, m: Move): seq<Move> {
    if committed == [] then [m]
    else if committed[0].user == m.user then [m] + committed[1..]
    else [committed[0]] + Put(committed[1..], m)
  }

  function Committed(alive: seq<UserId>, moves: seq<Move>): seq<Move> {
    if moves == [] then [] else
      var before := Committed(alive, moves[..|moves| - 1]);
      var m := moves[|moves| - 1];
      if m.user in alive then Put(before, m) else before
  }

  function Choosers(committed: seq<Move>, c: Choice): seq<UserId> {
    if committed == [] then []
    else (if committed[0].choice == c then [committed[0].user] else []) + Choosers(committed[1..], c)
  }

  function Committers(committed: seq<Move>): seq<UserId> {
    seq(|committed|, i requires 0 <= i < |committed| => committed[i].user)
  }

  function Silent(alive: seq<UserId>, committed: seq<Move>): seq<UserId> {
    if alive == [] then []
    else (if Has(committed, alive[0]) then [] else [alive[0]]) + Silent(alive[1..], committed)
  }

  /** The outcome, given who committed, who stayed silent and who chose each side. */
  function Verdict(committers: seq<UserId>, silent: seq<UserId>, zero: seq<UserId>, one: seq<UserId>): TickOutcome {
    if |committers| == 0 then TickOutcome([], silent, false, Silence)
    else if |zero| == |one| || |zero| == 0 || |one| == 0 then
      TickOutcome(committers, silent, true, if |zero| == |one| then Tie else Unanimous)
    else
      var (minority, majority) := if |zero| < |one| then (zero, one) else (one, zero);
      TickOutcome(minority, silent + majority, false, Minority)
  }

  /** The outcome of a tick, computed the way the server computes it. */
  function Resolve(alive: seq<UserId>, moves: seq<Move>): TickOutcome {
    if alive == [] then TickOutcome([], [], false, Empty) else
      var committed := Committed(alive, moves);
      Verdict(Committers(committed), Silent(alive, committed), Choosers(committed, Zero), Choosers(committed, One))
  }

  method ResolveTick(alive: seq<UserId>, moves: seq<Move>) returns (outcome: TickOutcome)
    ensures outcome == Resolve(alive, moves)
  {
    if |alive| == 0 {
      return TickOutcome([], [], false, Empty);
    }
    var committed: seq<Move> := [];
    for i := 0 to |moves|
      invariant committed == Committed(alive, moves[..i])
    {
      assert moves[..i + 1][..i] == moves[..i];
      if moves[i].user in alive {
        committed := Put(committed, moves[i]);
      }
    }
    assert moves[..|moves|] == moves;
    var silent := Silent(alive, committed);
    var zero := Choosers(committed, Zero);
    var one := Choosers(committed, One);
    if |committed| == 0 {
      return TickOutcome([], silent, false, Silence);
    }
    if |zero| == |one| || |zero| == 0 || |one| == 0 {
      return TickOutcome(Committers(committed), silent, true, if |zero| == |one| then Tie else Unanimous);
    }
    var minority := if |zero| < |one| then zero else one;
    var majority := if |zero| < |one| then one else zero;
    outcome := TickOutcome(minority, silent + majority, false, Minority);
  }

  // The rule itself, on sets: who chose what, and which side is smaller.

  /** What a user chose this tick: their last move, if any. */
  ghost function ChoiceOf(moves: seq<Move>, u: UserId): Option<Choice> {
    if moves == [] then None
    else if moves[|moves| - 1].user == u then Some(moves[|moves| - 1].choice)
    else ChoiceOf(moves[..|moves| - 1], u)
  }

  ghost function Side(alive: set<UserId>, moves: seq<Move>, c: Choice): set<UserId> {
    set u | u in alive && ChoiceOf(moves, u) == Some(c)
  }

  /** The strictly smaller non-empty side survives; with no such side, everyone who moved does. */
  ghost function SurvivorSet(alive: set<UserId>, moves: seq<Move>): set<UserId> {
    Survivors(Side(alive, moves, Zero), Side(alive, moves, One))
  }

  ghost function Survivors(zero: set<UserId>, one: set<UserId>): set<UserId> {
    if zero == {} || one == {} || |zero| == |one| then zero + one
    else if |zero| < |one| then zero else one
  }

  // From the tables to the rule.

  /** The table holds exactly the latest choice of every alive mover, each user once. */
  ghost predicate Tabulates(committed: seq<Move>, alive: seq<UserId>, moves: seq<Move>) {
    && (forall i, j :: 0 <= i < j < |committed| ==> committed[i].user != committed[j].user)
    && (forall m :: m in committed <==> m.user in alive && ChoiceOf(moves, m.user) == Some(m.choice))
  }

  lemma {:induction false} PutEffect(committed: seq<Move>, m: Move)
    requires forall i, j :: 0 <= i < j < |committed| ==> committed[i].user != committed[j].user
    ensures var r := Put(committed, m);
            && (forall i, j :: 0 <= i < j < |r| ==> r[i].user != r[j].user)
            && (forall x :: x in r <==> x == m || (x in committed && x.user != m.user))
  {
    if committed == [] {
    } else {
      var rest := committed[1..];
      assert committed == [committed[0]] + rest;
      if committed[0].user == m.user {
        assert forall x :: x in rest ==> x.user != m.user;
      } else {
        PutEffect(rest, m);
        var r := Put(rest, m);
        assert forall x :: x in r ==> x.user != committed[0].user;
      }
    }
  }

  lemma {:induction false} CommittedTabulates(alive: seq<UserId>, moves: seq<Move>)
    ensures Tabulates(Committed(alive, moves), alive, moves)
  {
    if moves != [] {
      var init, m := moves[..|moves| - 1], moves[|moves| - 1];
      CommittedTabulates(alive, init);
      if m.user in alive {
        PutEffect(Committed(alive, init), m);
      }
    }
  }

  lemma {:induction false} ChoosersOf(committed: seq<Move>, c: Choice)
    requires forall i, j :: 0 <= i < j < |committed| ==> committed[i].user != committed[j].user
    ensures Distinct(Choosers(committed, c))
    ensures forall u :: u in Choosers(committed, c) <==> Move(u, c) in committed
    ensures |Choosers(committed, Zero)| + |Choosers(committed, One)| == |committed|
  {
    if committed != [] {
      var rest := committed[1..];
      assert committed == [committed[0]] + rest;
      ChoosersOf(rest, c);
      assert forall x :: x in rest ==> x.user != committed[0].user;
    }
  }

  lemma {:induction false} SilentOf(alive: seq<UserId>, committed: seq<Move>)
    ensures forall u :: u in Silent(alive, committed) <==> u in alive && !Has(committed, u)
    ensures Distinct(alive) ==> Distinct(Silent(alive, committed))
  {
    if alive != [] {
      assert alive == [alive[0]] + alive[1..];
      SilentOf(alive[1..], committed);
    }
  }

  lemma {:induction false} DistinctSize(s: seq<UserId>)
    requires Distinct(s)
    ensures |Users(s)| == |s|
  {
    if s != [] {
      var init := s[..|s| - 1];
      DistinctSize(init);
      assert Users(s) == Users(init) + {s[|s| - 1]};
    }
  }

  lemma {:induction false} SidesAreChoosers(alive: seq<UserId>, moves: seq<Move>, c: Choice)
    ensures var s := Choosers(Committed(alive, moves), c);
            Distinct(s) && Users(s) == Side(Users(alive), moves, c) && |s| == |Side(Users(alive), moves, c)|
  {
    var committed := Committed(alive, moves);
    CommittedTabulates(alive, moves);
    ChoosersOf(committed, c);
    var s := Choosers(committed, c);
    forall u ensures u in s <==> u in Side(Users(alive), moves, c) {
      assert u in s <==> Move(u, c) in committed;
    }
    DistinctSize(s);
  }

  lemma {:induction false} CommittersOf(alive: seq<UserId>, moves: seq<Move>)
    ensures var committed := Committed(alive, moves);
            && Distinct(Committers(committed))
            && Users(Committers(committed)) == Side(Users(alive), moves, Zero) + Side(Users(alive), moves, One)
            && (forall u :: Has(committed, u) <==> u in Committers(committed))
  {
    var committed := Committed(alive, moves);
    CommittedTabulates(alive, moves);
    var all := Committers(committed);
    forall u ensures u in all <==> exists c :: Move(u, c) in committed {
      if u in all {
        var i :| 0 <= i < |all| && all[i] == u;
        assert committed[i] == Move(u, committed[i].choice);
      }
      if c :| Move(u, c) in committed {
        var i :| 0 <= i < |committed| && committed[i] == Move(u, c);
        assert all[i] == u;
      }
    }
    forall u ensures (exists c :: Move(u, c) in committed) <==>
                     u in Side(Users(alive), moves, Zero) + Side(Users(alive), moves, One) {
      assert Move(u, Zero) in committed <==> u in Side(Users(alive), moves, Zero);
      assert Move(u, One) in committed <==> u in Side(Users(alive), moves, One);
      if c :| Move(u, c) in committed {
        assert c == Zero || c == One;
      }
    }
    forall u ensures Has(committed, u) <==> u in all {
      if Has(committed, u) {
        var i :| 0 <= i < |committed| && committed[i].user == u;
        assert all[i] == u;
      }
      if u in all {
        var i :| 0 <= i < |all| && all[i] == u;
        assert committed[i].user == u;
      }
    }
  }

  /** Everybody alive is on exactly one side or silent. */
  lemma {:induction false} Division(alive: seq<UserId>, moves: seq<Move>)
    ensures var committed := Committed(alive, moves);
            var live := Users(alive);
            var zero, one := Side(live, moves, Zero), Side(live, moves, One);
            && Users(Choosers(committed, Zero)) == zero && |Choosers(committed, Zero)| == |zero|
            && Users(Choosers(committed, One)) == one && |Choosers(committed, One)| == |one|
            && Users(Committers(committed)) == zero + one && |Committers(committed)| == |zero| + |one|
            && Users(Silent(alive, committed)) == live - zero - one
            && zero !! one && zero + one <= live
  {
    var committed := Committed(alive, moves);
    var live := Users(alive);
    var zero, one := Side(live, moves, Zero), Side(live, moves, One);
    SidesAreChoosers(alive, moves, Zero);
    SidesAreChoosers(alive, moves, One);
    CommittersOf(alive, moves);
    assert |committed| == |zero| + |one| by {
      CommittedTabulates(alive, moves);
      ChoosersOf(committed, Zero);
    }
    SilentUsers(alive, committed, zero + one);
    assert live - (zero + one) == live - zero - one;
  }

  lemma {:induction false} SilentUsers(alive: seq<UserId>, committed: seq<Move>, movers: set<UserId>)
    requires forall u :: Has(committed, u) <==> u in Committers(committed)
    requires Users(Committers(committed)) == movers
    ensures Users(Silent(alive, committed)) == Users(alive) - movers
  {
    SilentOf(alive, committed);
    forall u ensures u in Users(Silent(alive, committed)) <==> u in Users(alive) - movers {
      assert u in Committers(committed) <==> u in movers;
    }
  }

  lemma DistinctAppend(a: seq<UserId>, b: seq<UserId>)
    requires Distinct(a) && Distinct(b) && Users(a) !! Users(b)
    ensures Distinct(a + b)
  {
    forall i, j | 0 <= i < j < |a + b| ensures (a + b)[i] != (a + b)[j] {
      if i < |a| <= j {
        assert a[i] in Users(a) && b[j - |a|] in Users(b);
      }
    }
  }

  lemma AppendUsers(a: seq<UserId>, b: seq<UserId>)
    ensures Users(a + b) == Users(a) + Users(b)
  {
  }

  lemma NoUsers()
    ensures Users([]) == {}
  {
  }

  lemma VerdictMeetsRule(committers: seq<UserId>, silent: seq<UserId>, zero: seq<UserId>, one: seq<UserId>,
                         live: set<UserId>)
    requires Users(committers) == Users(zero) + Users(one) <= live && Users(zero) !! Users(one)
    requires Users(silent) == live - Users(zero) - Users(one)
    requires |Users(zero)| == |zero| && |Users(one)| == |one| && |committers| == |zero| + |one|
    ensures var r := Verdict(committers, silent, zero, one);
            && Users(r.survivors) == Survivors(Users(zero), Users(one)) <= live
            && Users(r.eliminated) == live - Survivors(Users(zero), Users(one))
  {
    hide Users;
    NoUsers();
    var z, o := Users(zero), Users(one);
    assert z == {} <==> |zero| == 0;
    assert o == {} <==> |one| == 0;
    AppendUsers(silent, zero);
    AppendUsers(silent, one);
    assert live - z - o == live - (z + o);
    assert live - z - o + o == live - z;
    assert live - z - o + z == live - o;
  }

  /** The computed outcome is the minority rule: exactly the survivor set stays, everyone else alive is out. */
  lemma ResolveMeetsRule(alive: seq<UserId>, moves: seq<Move>)
    ensures var r := Resolve(alive, moves); var live := Users(alive);
            && Users(r.survivors) == SurvivorSet(live, moves) <= live
            && Users(r.eliminated) == live - SurvivorSet(live, moves)
  {
    if alive == [] {
      assert Users(alive) == {};
    } else {
      Division(alive, moves);
      var committed := Committed(alive, moves);
      VerdictMeetsRule(Committers(committed), Silent(alive, committed), Choosers(committed, Zero),
                       Choosers(committed, One), Users(alive));
    }
  }

  /** Both lists name each player once, so together they are a permutation of the players alive. */
  lemma ResolvePartitions(alive: seq<UserId>, moves: seq<Move>)
    requires Distinct(alive)
    ensures var r := Resolve(alive, moves);
            && Distinct(r.survivors) && Distinct(r.eliminated)
            && |r.survivors| + |r.eliminated| == |alive|
            && multiset(r.survivors) + multiset(r.eliminated) == multiset(alive)
  {
    var r := Resolve(alive, moves);
    ResolveDistinct(alive, moves);
    ResolveMeetsRule(alive, moves);
    DistinctAppend(r.survivors, r.eliminated);
    AppendUsers(r.survivors, r.eliminated);
    SamePlayers(r.survivors + r.eliminated, alive);
    DistinctSize(r.survivors + r.eliminated);
    DistinctSize(alive);
    assert multiset(r.survivors + r.eliminated) == multiset(r.survivors) + multiset(r.eliminated);
  }

  lemma ResolveDistinct(alive: seq<UserId>, moves: seq<Move>)
    requires Distinct(alive)
    ensures Distinct(Resolve(alive, moves).survivors) && Distinct(Resolve(alive, moves).eliminated)
  {
    var committed := Committed(alive, moves);
    var silent := Silent(alive, committed);
    var zero, one := Choosers(committed, Zero), Choosers(committed, One);
    assert Users(silent) !! Users(zero) && Users(silent) !! Users(one) by {
      Division(alive, moves);
    }
    assert Distinct(zero) && Distinct(one) by {
      SidesAreChoosers(alive, moves, Zero);
      SidesAreChoosers(alive, moves, One);
    }
    assert Distinct(Committers(committed)) by {
      CommittersOf(alive, moves);
    }
    assert Distinct(silent) by {
      SilentOf(alive, committed);
    }
    DistinctAppend(silent, zero);
    DistinctAppend(silent, one);
  }

  lemma {:induction false} DistinctOnce(s: seq<UserId>, u: UserId)
    requires Distinct(s)
    ensures multiset(s)[u] == if u in s then 1 else 0
  {
    if s != [] {
      var init := s[..|s| - 1];
      assert s == init + [s[|s| - 1]];
      DistinctOnce(init, u);
    }
  }

  lemma SamePlayers(a: seq<UserId>, b: seq<UserId>)
    requires Distinct(a) && Distinct(b) && Users(a) == Users(b)
    ensures multiset(a) == multiset(b)
  {
    forall u ensures multiset(a)[u] == multiset(b)[u] {
      DistinctOnce(a, u);
      DistinctOnce(b, u);
      assert u in a <==> u in Users(a);
      assert u in b <==> u in Users(b);
    }
  }

  /**
   * What each reason says about how the committers divided. Only a division removes any of them, and it
   * leaves a non-empty strict minority.
   */
  lemma ReasonsExplained(alive: seq<UserId>, moves: seq<Move>)
    ensures var r := Resolve(alive, moves);
            var zero, one := Side(Users(alive), moves, Zero), Side(Users(alive), moves, One);
            && (r.reason == Empty <==> alive == [])
            && (r.reason == Silence <==> alive != [] && zero == one == {})
            && (r.reason == Tie <==> |zero| == |one| > 0)
            && (r.reason == Unanimous <==> (zero == {}) != (one == {}))
            && (r.reason == Minority <==> zero != {} && one != {} && |zero| != |one|)
            && (r.repeats <==> r.reason == Tie || r.reason == Unanimous)
            && (r.repeats ==> r.survivors != [] && Users(r.survivors) == zero + one)
            && (r.reason == Minority ==> 0 < |r.survivors| && 2 * |r.survivors| < |zero| + |one|)
  {
    Division(alive, moves);
    var committed := Committed(alive, moves);
    var zero, one := Side(Users(alive), moves, Zero), Side(Users(alive), moves, One);
    assert |zero| == 0 <==> zero == {};
    assert |one| == 0 <==> one == {};
    if alive != [] {
      assert committed == [] <==> |zero| + |one| == 0;
    } else {
      assert zero == {} && one == {};
    }
  }

  /** A tick puts somebody out, unless everyone alive committed and the sides came out equal or one of them empty. */
  lemma NobodyOutIff(alive: seq<UserId>, moves: seq<Move>)
    requires alive != []
    ensures var r := Resolve(alive, moves);
            var zero, one := Side(Users(alive), moves, Zero), Side(Users(alive), moves, One);
            Users(r.eliminated) == {} <==> r.repeats && zero + one == Users(alive)
  {
    hide Resolve, Side;
    ReasonsExplained(alive, moves);
    ResolveMeetsRule(alive, moves);
    var zero, one := Side(Users(alive), moves, Zero), Side(Users(alive), moves, One);
    SidesWithin(alive, moves);
    assert alive[0] in Users(alive);
    if zero != {} && one != {} && |zero| != |one| {
      assert zero !! one && Users(alive) - Survivors(zero, one) >= (if Survivors(zero, one) == zero then one else zero);
    }
  }

  lemma SidesWithin(alive: seq<UserId>, moves: seq<Move>)
    ensures Side(Users(alive), moves, Zero) <= Users(alive) && Side(Users(alive), moves, One) <= Users(alive)
    ensures Side(Users(alive), moves, Zero) !! Side(Users(alive), moves, One)
  {
  }

  // The order in which moves are listed does not matter when each user moves once.

  ghost predicate OneMoveEach(moves: seq<Move>) {
    forall i, j :: 0 <= i < j < |moves| ==> moves[i].user != moves[j].user
  }

  lemma {:induction false} ChoiceIsTheMove(moves: seq<Move>, u: UserId, c: Choice)
    requires OneMoveEach(moves)
    ensures ChoiceOf(moves, u) == Some(c) <==> Move(u, c) in moves
  {
    if moves != [] {
      var init, m := moves[..|moves| - 1], moves[|moves| - 1];
      assert moves == init + [m];
      ChoiceIsTheMove(init, u, c);
      assert forall x :: x in init ==> x.user != m.user;
    }
  }

  lemma OrderIrrelevant(alive: set<UserId>, moves: seq<Move>, others: seq<Move>)
    requires OneMoveEach(moves) && OneMoveEach(others)
    requires forall m: Move :: m.user in alive ==> (m in moves <==> m in others)
    ensures SurvivorSet(alive, moves) == SurvivorSet(alive, others)
  {
    forall c, u | u in alive ensures u in Side(alive, moves, c) <==> u in Side(alive, others, c) {
      ChoiceIsTheMove(moves, u, c);
      ChoiceIsTheMove(others, u, c);
      assert Move(u, c) in moves <==> Move(u, c) in others;
    }
    assert Side(alive, moves, Zero) == Side(alive, others, Zero);
    assert Side(alive, moves, One) == Side(alive, others, One);
  }
}
