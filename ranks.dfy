/**
 * A rank: an entity holding a skill rating (`mu`, `sigma`) and a stored score,
 * the rating's ordinal. Saving recomputes the score, announces a change of
 * score on the `rate_changed` channel before committing, and then takes a new
 * snapshot of the committed score. `rate_single_member_teams` rates a match
 * of one-member teams with the rating library and applies the results.
 *
 * The rating library's `ordinal` and `rate` are not modelled: they are
 * parameters (see `Library`). The channel and the database commits are one
 * append-only trace (see `EventLog`).
 */
module Ranks {
  import opened Failures
  import Numeric

  /** A rating as the library represents it: a skill mean and its uncertainty. */
  datatype Rating = Rating(mu: real, sigma: real)

  /**
   * The two library functions the entity calls. `ordinal` maps a rating to its
   * conservative score; `rate` maps teams of ratings and their scores to the
   * new ratings, or to None when the library raises.
   */
  datatype Library = Library(
    ordinal: Rating -> real,
    rate: (seq<seq<Rating>>, seq<int>) -> Option<seq<seq<Rating>>>)

  /**
   * One observable effect: a `rate_changed` signal carrying the new score, or
   * the commit of a rank's row with the score it stores.
   */
  datatype Entry = RateChanged(newScore: real) | Committed(score: real)

  /** The fields of a rank: its rating, its score and the snapshot of the last committed score. */
  datatype RankState = RankState(mu: real, sigma: real, score: real, originalScore: real)

  /** The state an operation leaves and the entries it appends to the trace. */
  datatype Effect = Effect(state: RankState, entries: seq<Entry>)

  /** The states a batch of updates leaves and the entries it appends, in order. */
  datatype Batch = Batch(states: seq<RankState>, entries: seq<Entry>)

  // ---------------------------------------------------------------------------
  // Reading a trace

  /** The scores the trace announces as changed, in order. */
  function ChangeEvents(entries: seq<Entry>): seq<real>
  {
    if entries == [] then []
    else (if entries[0].RateChanged? then [entries[0].newScore] else []) + ChangeEvents(entries[1..])
  }

  /** The scores the trace commits, in order. */
  function Commits(entries: seq<Entry>): seq<real>
  {
    if entries == [] then []
    else (if entries[0].Committed? then [entries[0].score] else []) + Commits(entries[1..])
  }

  /** Every change signal is followed at once by the commit of the score it announced. */
  predicate EventsCommitted(entries: seq<Entry>)
  {
    forall k :: 0 <= k < |entries| && entries[k].RateChanged? ==>
      k + 1 < |entries| && entries[k + 1] == Committed(entries[k].newScore)
  }

  lemma {:induction false} ChangeEventsAppend(a: seq<Entry>, b: seq<Entry>)
    ensures ChangeEvents(a + b) == ChangeEvents(a) + ChangeEvents(b)
  {
    if a != [] {
      assert (a + b)[1..] == a[1..] + b;
      ChangeEventsAppend(a[1..], b);
    } else {
      assert a + b == b;
    }
  }

  lemma {:induction false} CommitsAppend(a: seq<Entry>, b: seq<Entry>)
    ensures Commits(a + b) == Commits(a) + Commits(b)
  {
    if a != [] {
      assert (a + b)[1..] == a[1..] + b;
      CommitsAppend(a[1..], b);
    } else {
      assert a + b == b;
    }
  }

  lemma EventsCommittedAppend(a: seq<Entry>, b: seq<Entry>)
    requires EventsCommitted(a) && EventsCommitted(b)
    ensures EventsCommitted(a + b)
  {
    var c := a + b;
    forall k | 0 <= k < |c| && c[k].RateChanged?
      ensures k + 1 < |c| && c[k + 1] == Committed(c[k].newScore)
    {
      if k < |a| {
        assert c[k] == a[k];
        assert c[k + 1] == a[k + 1];
      } else {
        assert c[k] == b[k - |a|];
        assert c[k + 1] == b[k + 1 - |a|];
      }
    }
  }

  // ---------------------------------------------------------------------------
  // What saving and setting a rating do, as functions of the fields

  /**
   * `save`: the score becomes the ordinal of the current rating; a differing
   * score is announced before the commit; then the snapshot takes the score.
   */
  function SaveEffect(s: RankState, ordinal: Rating -> real): Effect
  {
    var score := ordinal(Rating(s.mu, s.sigma));
    var announced := if score != s.originalScore then [RateChanged(score)] else [];
    Effect(s.(score := score, originalScore := score), announced + [Committed(score)])
  }

  /** `set_rate`: copy the rating in, then save when asked to. */
  function SetRateEffect(s: RankState, r: Rating, doSave: bool, ordinal: Rating -> real): Effect
  {
    var rated := s.(mu := r.mu, sigma := r.sigma);
    if doSave then SaveEffect(rated, ordinal) else Effect(rated, [])
  }

  /** One step of the loop over the results: `set_rate` with its save, then `save` again. */
  function UpdateTeam(s: RankState, r: Rating, ordinal: Rating -> real): Effect
  {
    var first := SetRateEffect(s, r, true, ordinal);
    var second := SaveEffect(first.state, ordinal);
    Effect(second.state, first.entries + second.entries)
  }

  /**
   * The loop over `zip(result, teams)`: the first `min(|states|, |firsts|)`
   * teams are updated in order, the others are left alone.
   */
  function UpdateTeams(states: seq<RankState>, firsts: seq<Rating>, ordinal: Rating -> real): Batch
    decreases |states|
  {
    if states == [] || firsts == [] then Batch(states, [])
    else
      var head := UpdateTeam(states[0], firsts[0], ordinal);
      var tail := UpdateTeams(states[1..], firsts[1..], ordinal);
      Batch([head.state] + tail.states, head.entries + tail.entries)
  }

  /** After a save the score is the ordinal of the unchanged rating and the snapshot matches it. */
  lemma SaveRecomputesScore(s: RankState, ordinal: Rating -> real)
    ensures SaveEffect(s, ordinal).state.score == ordinal(Rating(s.mu, s.sigma))
    ensures SaveEffect(s, ordinal).state.originalScore == SaveEffect(s, ordinal).state.score
    ensures SaveEffect(s, ordinal).state.mu == s.mu && SaveEffect(s, ordinal).state.sigma == s.sigma
  {
  }

  /** The saved score depends on `mu` and `sigma` only, not on the score or snapshot before. */
  lemma SaveScoreDependsOnlyOnRating(s: RankState, t: RankState, ordinal: Rating -> real)
    requires s.mu == t.mu && s.sigma == t.sigma
    ensures SaveEffect(s, ordinal).state == SaveEffect(t, ordinal).state
  {
  }

  /** A save announces exactly one change, with the new score, iff the score differs from the snapshot. */
  lemma SaveNotifiesIffChanged(s: RankState, ordinal: Rating -> real)
    ensures var e := SaveEffect(s, ordinal);
      ChangeEvents(e.entries) == if e.state.score != s.originalScore then [e.state.score] else []
  {
    var e := SaveEffect(s, ordinal);
    var c := Committed(e.state.score);
    ChangeEventsAppend(e.entries[..|e.entries| - 1], [c]);
    assert e.entries == e.entries[..|e.entries| - 1] + [c];
    assert ChangeEvents([c]) == [] by {
      assert [c][1..] == [];
    }
    if e.state.score != s.originalScore {
      var a := RateChanged(e.state.score);
      assert ChangeEvents([a]) == [e.state.score] by {
        assert [a][1..] == [];
      }
    }
  }

  /** A save commits exactly once, last, and any announcement comes right before that commit. */
  lemma SaveEventPrecedesCommit(s: RankState, ordinal: Rating -> real)
    ensures var e := SaveEffect(s, ordinal);
      && Commits(e.entries) == [e.state.score]
      && e.entries[|e.entries| - 1] == Committed(e.state.score)
      && EventsCommitted(e.entries)
  {
    var e := SaveEffect(s, ordinal);
    var c := Committed(e.state.score);
    var announced := e.entries[..|e.entries| - 1];
    assert e.entries == announced + [c];
    CommitsAppend(announced, [c]);
    assert Commits([c]) == [e.state.score] by {
      assert [c][1..] == [];
    }
    if announced != [] {
      assert Commits(announced) == [] by {
        assert announced[1..] == [];
      }
    }
  }

  /** Saving again with the rating unchanged changes nothing and announces nothing. */
  lemma SecondSaveSilent(s: RankState, ordinal: Rating -> real)
    ensures var first := SaveEffect(s, ordinal);
      var second := SaveEffect(first.state, ordinal);
      && second.state == first.state
      && second.entries == [Committed(first.state.score)]
      && ChangeEvents(second.entries) == []
  {
    var first := SaveEffect(s, ordinal);
    var c := Committed(first.state.score);
    assert ChangeEvents([c]) == [] by {
      assert [c][1..] == [];
    }
  }

  /**
   * `set_rate` sets `mu` and `sigma` from the rating; without a save it changes
   * nothing else and emits nothing, with one it is exactly a save of the new rating.
   */
  lemma SetRateSetsOnlyRating(s: RankState, r: Rating, doSave: bool, ordinal: Rating -> real)
    ensures var e := SetRateEffect(s, r, doSave, ordinal);
      && e.state.mu == r.mu && e.state.sigma == r.sigma
      && (!doSave ==> e.entries == [] && e.state.score == s.score && e.state.originalScore == s.originalScore)
      && (doSave ==> e.state.score == ordinal(r) && e.state.originalScore == ordinal(r))
      && (doSave ==> Commits(e.entries) == [ordinal(r)])
  {
    if doSave {
      SaveEventPrecedesCommit(s.(mu := r.mu, sigma := r.sigma), ordinal);
    }
  }

  /**
   * One team's update: the team ends with the result's rating and its ordinal
   * as score and snapshot, commits twice, and announces at most once, on the
   * first save; the second save is silent.
   */
  lemma UpdateTeamSavesTwice(s: RankState, r: Rating, ordinal: Rating -> real)
    ensures var e := UpdateTeam(s, r, ordinal);
      && e.state == RankState(r.mu, r.sigma, ordinal(r), ordinal(r))
      && Commits(e.entries) == [ordinal(r), ordinal(r)]
      && ChangeEvents(e.entries) == (if ordinal(r) != s.originalScore then [ordinal(r)] else [])
      && EventsCommitted(e.entries)
  {
    var rated := s.(mu := r.mu, sigma := r.sigma);
    var first := SaveEffect(rated, ordinal);
    var second := SaveEffect(first.state, ordinal);
    SaveEventPrecedesCommit(rated, ordinal);
    SaveNotifiesIffChanged(rated, ordinal);
    SaveEventPrecedesCommit(first.state, ordinal);
    SaveNotifiesIffChanged(first.state, ordinal);
    SecondSaveSilent(rated, ordinal);
    CommitsAppend(first.entries, second.entries);
    ChangeEventsAppend(first.entries, second.entries);
    EventsCommittedAppend(first.entries, second.entries);
  }

  /**
   * After the loop, team `i` holds the update of its result when `i` is among
   * the zipped indices, and is untouched otherwise.
   */
  lemma {:induction false} UpdateTeamsAt(states: seq<RankState>, firsts: seq<Rating>, ordinal: Rating -> real, i: nat)
    requires i < |states|
    ensures |UpdateTeams(states, firsts, ordinal).states| == |states|
    ensures UpdateTeams(states, firsts, ordinal).states[i]
      == if i < |firsts| then UpdateTeam(states[i], firsts[i], ordinal).state else states[i]
  {
    if firsts == [] {
    } else if i == 0 {
      if |states| > 1 {
        UpdateTeamsAt(states[1..], firsts[1..], ordinal, 0);
      } else {
        assert UpdateTeams(states[1..], firsts[1..], ordinal).states == [];
      }
    } else {
      UpdateTeamsAt(states[1..], firsts[1..], ordinal, i - 1);
    }
  }

  /** The whole batch commits twice per updated team and every announcement precedes its commit. */
  lemma {:induction false} UpdateTeamsTrace(states: seq<RankState>, firsts: seq<Rating>, ordinal: Rating -> real)
    ensures var b := UpdateTeams(states, firsts, ordinal);
      var n := if |states| < |firsts| then |states| else |firsts|;
      && |Commits(b.entries)| == 2 * n
      && |ChangeEvents(b.entries)| <= n
      && EventsCommitted(b.entries)
  {
    if states != [] && firsts != [] {
      var head := UpdateTeam(states[0], firsts[0], ordinal);
      var tail := UpdateTeams(states[1..], firsts[1..], ordinal);
      UpdateTeamSavesTwice(states[0], firsts[0], ordinal);
      UpdateTeamsTrace(states[1..], firsts[1..], ordinal);
      CommitsAppend(head.entries, tail.entries);
      ChangeEventsAppend(head.entries, tail.entries);
      EventsCommittedAppend(head.entries, tail.entries);
    }
  }

  /** Extending both prefixes by one index appends that team's update to the trace. */
  lemma {:induction false} UpdateTeamsSnoc(states: seq<RankState>, firsts: seq<Rating>, ordinal: Rating -> real, i: nat)
    requires i < |states| && i < |firsts|
    ensures UpdateTeams(states[..i + 1], firsts[..i + 1], ordinal).entries
      == UpdateTeams(states[..i], firsts[..i], ordinal).entries + UpdateTeam(states[i], firsts[i], ordinal).entries
  {
    if i == 0 {
      assert states[..1][1..] == [];
    } else {
      assert states[..i + 1][1..] == states[1..][..i];
      assert firsts[..i + 1][1..] == firsts[1..][..i];
      assert states[..i][1..] == states[1..][..i - 1];
      assert firsts[..i][1..] == firsts[1..][..i - 1];
      UpdateTeamsSnoc(states[1..], firsts[1..], ordinal, i - 1);
    }
  }

  /** The trace of the loop is that of the zipped prefix. */
  lemma {:induction false} UpdateTeamsZip(states: seq<RankState>, firsts: seq<Rating>, ordinal: Rating -> real)
    ensures var n := if |states| < |firsts| then |states| else |firsts|;
      UpdateTeams(states[..n], firsts[..n], ordinal).entries == UpdateTeams(states, firsts, ordinal).entries
  {
    if states != [] && firsts != [] {
      var n := if |states| < |firsts| then |states| else |firsts|;
      assert states[..n][1..] == states[1..][..n - 1];
      assert firsts[..n][1..] == firsts[1..][..n - 1];
      UpdateTeamsZip(states[1..], firsts[1..], ordinal);
    }
  }

  // ---------------------------------------------------------------------------
  // The trace and the entity

  /** The `rate_changed` channel and the database commits, as one append-only trace. */
  class EventLog {
    var entries: seq<Entry>

    constructor ()
      ensures entries == []
    {
      entries := [];
    }

    method Publish(e: Entry)
      modifies this
      ensures entries == old(entries) + [e]
    {
      entries := entries + [e];
    }
  }

  /** The `Rank` model. */
  class Rank {
    var mu: real
    var sigma: real
    var score: real
    var originalScore: real

    function State(): RankState
      reads this
    {
      RankState(mu, sigma, score, originalScore)
    }

    /** `__init__`: the fields as loaded or given, with the snapshot taken from the stored score. */
    constructor (mu: real, sigma: real, score: real)
      ensures State() == RankState(mu, sigma, score, score)
    {
      this.mu := mu;
      this.sigma := sigma;
      this.score := score;
      this.originalScore := score;
    }

    /** The `rating` property: the library's rating built from the current `mu` and `sigma`. */
    function CurrentRating(): Rating
      reads this
    {
      Rating(mu, sigma)
    }

    /** The `ordinal` property: the library's ordinal of the current rating. */
    function Ordinal(lib: Library): real
      reads this
    {
      lib.ordinal(CurrentRating())
    }

    /** `get_number`: a rank compares and computes through its stored score. */
    function GetNumber(): real
      reads this
    {
      score
    }

    /** `sent_rate_changed`: one signal carrying the new score. */
    method SentRateChanged(newScore: real, log: EventLog)
      modifies log
      ensures log.entries == old(log.entries) + [RateChanged(newScore)]
    {
      log.Publish(RateChanged(newScore));
    }

    /** `save`: afterwards the rank compares by the ordinal of its current rating. */
    method Save(lib: Library, log: EventLog)
      modifies this, log
      ensures State() == SaveEffect(old(State()), lib.ordinal).state
      ensures log.entries == old(log.entries) + SaveEffect(old(State()), lib.ordinal).entries
      ensures GetNumber() == Ordinal(lib)
    {
      score := Ordinal(lib);
      if score != originalScore {
        SentRateChanged(score, log);
      }
      log.Publish(Committed(score));
      originalScore := score;
    }

    /** `set_rate`: with a save, the rank then compares by the ordinal of the new rating. */
    method SetRate(r: Rating, doSave: bool, lib: Library, log: EventLog)
      modifies this, log
      ensures State() == SetRateEffect(old(State()), r, doSave, lib.ordinal).state
      ensures log.entries == old(log.entries) + SetRateEffect(old(State()), r, doSave, lib.ordinal).entries
      ensures doSave ==> GetNumber() == Ordinal(lib)
    {
      mu := r.mu;
      sigma := r.sigma;
      if doSave {
        Save(lib, log);
      }
    }
  }

  /**
   * Ranks compare through `get_number`, the stored score: a rank whose rating
   * has changed since its last save still compares by the old score, not by
   * the ordinal of its current rating.
   */
  lemma RanksCompareByStoredScore(a: Rank, b: Rank)
    ensures Numeric.Lt(a.GetNumber(), Numeric.SameModel(b.GetNumber())) == Ok(Numeric.Bool(a.score < b.score))
    ensures Numeric.Eq(a.GetNumber(), Numeric.SameModel(b.GetNumber())) == Ok(Numeric.Bool(a.score == b.score))
  {
  }

  // ---------------------------------------------------------------------------
  // Rating a match of one-member teams

  /** The exceptions `rate_single_member_teams` can raise before it changes anything. */
  datatype RateError =
    | NoTeams        // `teams[0]` on an empty list
    | NoLength       // `len(teams[0])` on an object that defines no length, such as a rank
    | TeamTooLarge   // the first team has more than one member
    | LibraryFailed  // the library's `rate` raised
    | UnpackFailed   // the result is not four one-member teams

  function States(teams: seq<Rank>): seq<RankState>
    reads teams
  {
    seq(|teams|, i requires 0 <= i < |teams| reads teams => teams[i].State())
  }

  /** `[[t.rating] for t in teams]` */
  function Singletons(states: seq<RankState>): seq<seq<Rating>>
  {
    seq(|states|, i requires 0 <= i < |states| => [Rating(states[i].mu, states[i].sigma)])
  }

  /** The shape `[[a2], [b2], [c2], [d2]]` the result is unpacked into. */
  predicate FourSingles(result: seq<seq<Rating>>)
  {
    |result| == 4 && forall i :: 0 <= i < 4 ==> |result[i]| == 1
  }

  /** `nr[0]` for each result team. */
  function Firsts(result: seq<seq<Rating>>): seq<Rating>
    requires forall i :: 0 <= i < |result| ==> |result[i]| > 0
  {
    seq(|result|, i requires 0 <= i < |result| && |result[i]| > 0 => result[i][0])
  }

  predicate Distinct(teams: seq<Rank>)
  {
    forall i, j :: 0 <= i < j < |teams| ==> teams[i] != teams[j]
  }

  /**
   * Everything `rate_single_member_teams` does before it changes an entity:
   * only the first team's length is checked, then the library rates the
   * teams, and its result must unpack into four one-member teams. `firstLen`
   * is what Python's `len(teams[0])` gives: None when the object defines no
   * length, which is the case for a rank.
   */
  function Validate(states: seq<RankState>, scores: seq<int>, firstLen: Option<nat>, lib: Library)
    : (r: Result<seq<seq<Rating>>, RateError>)
    ensures |states| == 0 ==> r == Err(NoTeams)
    ensures |states| > 0 && firstLen.None? ==> r == Err(NoLength)
    ensures |states| > 0 && firstLen.Some? && firstLen.value > 1 ==> r == Err(TeamTooLarge)
    ensures r.Ok? <==>
      && |states| > 0 && firstLen.Some? && firstLen.value <= 1
      && lib.rate(Singletons(states), scores).Some?
      && FourSingles(lib.rate(Singletons(states), scores).value)
    ensures r.Ok? ==> r.value == lib.rate(Singletons(states), scores).value && FourSingles(r.value)
  {
    if |states| == 0 then Err(NoTeams)
    else if firstLen.None? then Err(NoLength)
    else if firstLen.value > 1 then Err(TeamTooLarge)
    else match lib.rate(Singletons(states), scores)
      case None => Err(LibraryFailed)
      case Some(result) => if FourSingles(result) then Ok(result) else Err(UnpackFailed)
  }

  /**
   * As written, a list of ranks can never be rated: a rank has no length, so
   * `len(teams[0])` raises, whatever the library would have returned.
   */
  lemma PlainRankTeamsAlwaysFail(states: seq<RankState>, scores: seq<int>, lib: Library)
    requires |states| > 0
    ensures Validate(states, scores, None, lib) == Err(NoLength)
  {
  }

  /**
   * The evidently intended check, with each rank counted as a team of one:
   * validation passes exactly when the library's result unpacks into four
   * one-member teams, and then returns that result.
   */
  function ValidateRankTeams(states: seq<RankState>, scores: seq<int>, lib: Library)
    : (r: Result<seq<seq<Rating>>, RateError>)
    ensures r.Ok? <==>
      && |states| > 0
      && lib.rate(Singletons(states), scores).Some?
      && FourSingles(lib.rate(Singletons(states), scores).value)
    ensures r.Ok? ==> r.value == lib.rate(Singletons(states), scores).value
    ensures r != Err(NoLength) && r != Err(TeamTooLarge)
  {
    Validate(states, scores, Some(1), lib)
  }

  /**
   * The body of the loop over the results for team `i`: `team.set_rate(nr[0])`,
   * then `team.save()`; no other rank changes.
   */
  method UpdateOne(teams: seq<Rank>, i: nat, r: Rating, lib: Library, log: EventLog)
    requires i < |teams|
    modifies teams[i], log
    ensures teams[i].State() == UpdateTeam(old(teams[i].State()), r, lib.ordinal).state
    ensures forall j :: 0 <= j < |teams| && teams[j] != teams[i] ==> teams[j].State() == old(teams[j].State())
    ensures log.entries == old(log.entries) + UpdateTeam(old(teams[i].State()), r, lib.ordinal).entries
  {
    teams[i].SetRate(r, true, lib, log);
    teams[i].Save(lib, log);
  }

  /** The loop `for nr, team in zip(result, teams)`. */
  method ApplyResults(teams: seq<Rank>, result: seq<seq<Rating>>, lib: Library, log: EventLog)
    requires Distinct(teams)
    requires forall i :: 0 <= i < |result| ==> |result[i]| > 0
    modifies teams, log
    ensures States(teams) == UpdateTeams(old(States(teams)), Firsts(result), lib.ordinal).states
    ensures log.entries == old(log.entries) + UpdateTeams(old(States(teams)), Firsts(result), lib.ordinal).entries
  {
    ghost var before := States(teams);
    ghost var firsts := Firsts(result);
    var n := if |result| < |teams| then |result| else |teams|;
    var i := 0;
    while i < n
      invariant 0 <= i <= n && |before| == |teams| && |firsts| == |result|
      invariant forall j :: 0 <= j < |teams| ==>
        teams[j].State() == if j < i then UpdateTeam(before[j], firsts[j], lib.ordinal).state else before[j]
      invariant log.entries == old(log.entries) + UpdateTeams(before[..i], firsts[..i], lib.ordinal).entries
    {
      ghost var done := UpdateTeams(before[..i], firsts[..i], lib.ordinal).entries;
      ghost var step := UpdateTeam(before[i], firsts[i], lib.ordinal).entries;
      UpdateOne(teams, i, result[i][0], lib, log);
      UpdateTeamsSnoc(before, firsts, lib.ordinal, i);
      AppendAssociates(old(log.entries), done, step);
      i := i + 1;
    }
    UpdateTeamsZip(before, firsts, lib.ordinal);
    assert log.entries == old(log.entries) + UpdateTeams(before, firsts, lib.ordinal).entries;
    MatchesUpdate(teams, before, firsts, lib.ordinal, n);
  }

  /** Appending to a trace and appending to its extension agree. */
  lemma AppendAssociates<T>(a: seq<T>, b: seq<T>, c: seq<T>)
    ensures (a + b) + c == a + (b + c)
  {
  }

  /** The states of the teams after the loop are those `UpdateTeams` gives. */
  lemma MatchesUpdate(teams: seq<Rank>, before: seq<RankState>, firsts: seq<Rating>, ordinal: Rating -> real, n: nat)
    requires |before| == |teams|
    requires n == if |firsts| < |teams| then |firsts| else |teams|
    requires forall j :: 0 <= j < |teams| ==>
      teams[j].State() == if j < n then UpdateTeam(before[j], firsts[j], ordinal).state else before[j]
    ensures States(teams) == UpdateTeams(before, firsts, ordinal).states
  {
    var after := UpdateTeams(before, firsts, ordinal);
    if |teams| > 0 {
      UpdateTeamsAt(before, firsts, ordinal, 0);
    } else {
      assert after.states == [];
    }
    forall j | 0 <= j < |teams|
      ensures States(teams)[j] == after.states[j]
    {
      UpdateTeamsAt(before, firsts, ordinal, j);
    }
  }

  /**
   * `rate_single_member_teams` as written, for team objects whose `len()` is
   * `firstLen`: on an error nothing has changed; otherwise it returns the
   * library's result and each zipped team holds its result's rating.
   */
  method RateSingleMemberTeams(teams: seq<Rank>, scores: seq<int>, firstLen: Option<nat>, lib: Library, log: EventLog)
    returns (r: Result<seq<seq<Rating>>, RateError>)
    requires Distinct(teams)
    modifies teams, log
    ensures r == Validate(old(States(teams)), scores, firstLen, lib)
    ensures r.Err? ==> States(teams) == old(States(teams)) && log.entries == old(log.entries)
    ensures r.Ok? ==> States(teams) == UpdateTeams(old(States(teams)), Firsts(r.value), lib.ordinal).states
    ensures r.Ok? ==> log.entries == old(log.entries) + UpdateTeams(old(States(teams)), Firsts(r.value), lib.ordinal).entries
  {
    r := Validate(States(teams), scores, firstLen, lib);
    if r.Ok? {
      ApplyResults(teams, r.value, lib, log);
    }
  }

  /** `rate_single_member_teams` with the length check corrected: a list of ranks is rated. */
  method RateRankTeams(teams: seq<Rank>, scores: seq<int>, lib: Library, log: EventLog)
    returns (r: Result<seq<seq<Rating>>, RateError>)
    requires Distinct(teams)
    modifies teams, log
    ensures r == ValidateRankTeams(old(States(teams)), scores, lib)
    ensures r.Err? ==> States(teams) == old(States(teams)) && log.entries == old(log.entries)
    ensures r.Ok? ==> States(teams) == UpdateTeams(old(States(teams)), Firsts(r.value), lib.ordinal).states
    ensures r.Ok? ==> log.entries == old(log.entries) + UpdateTeams(old(States(teams)), Firsts(r.value), lib.ordinal).entries
  {
    r := RateSingleMemberTeams(teams, scores, Some(1), lib, log);
  }
}
