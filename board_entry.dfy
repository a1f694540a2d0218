/**
 * The board-entry form (`WordleBoardForm`): the state a player edits to
 * record one day's answer and guesses, and its event handlers.
 *
 * The six `useState` fields and the teams context become the fields of
 * `BoardForm`; each effect and handler becomes a method. Helpers whose
 * code lives elsewhere (`isSameDay` after `parseISO`, `padArray`,
 * `boardIsValid`, `updateAnswer`, `DailyScore.prototype.fromDbDailyScore`,
 * `Team.prototype.updatePlayerScore`) are passed in as functions and
 * nothing is assumed about them. The server action `upsertBoard` is
 * replaced by the outcome it has for the submission.
 */
module BoardEntry {
  import opened Wrappers

  /** Number of guess rows on a board. */
  const Rows := 6

  /** `scoreId` when the chosen date has no recorded score yet. */
  const NoScore := -1

  /** A JavaScript `Date`, as milliseconds since the epoch. */
  type Instant = int

  /** One recorded board in the teams cache; `date` is an ISO date string. */
  datatype DailyScore = DailyScore(id: int, date: string, answer: string, guesses: seq<string>)

  datatype Player = Player(id: string, scores: seq<DailyScore>)

  datatype Team = Team(id: int, players: seq<Player>)

  /** The row the server action returns after an insert or update. */
  datatype DbScore = DbScore(id: int, date: string, answer: string, guesses: seq<string>, playerId: string)

  /** What `upsertBoard` resolves to. */
  datatype SubmitResult = SubmitResult(success: bool, message: string, dailyScore: Option<DbScore>)

  /** The hidden inputs the form submits: `scoreId`, `scoreDate`, `guesses`, `answer`. */
  datatype Payload = Payload(scoreId: int, date: Option<Instant>, guesses: seq<string>, answer: string)

  /** `Array.prototype.find`: the first element satisfying `p`, if any. */
  function Find<T>(s: seq<T>, p: T -> bool): Option<T> {
    if |s| == 0 then None
    else if p(s[0]) then Some(s[0])
    else Find(s[1..], p)
  }

  /** `Find` misses exactly when no element satisfies `p`, and otherwise finds the first that does. */
  lemma {:induction false} FindFirst<T>(s: seq<T>, p: T -> bool)
    ensures Find(s, p).None? <==> forall i :: 0 <= i < |s| ==> !p(s[i])
    ensures Find(s, p).Some? ==> exists i :: 0 <= i < |s| && s[i] == Find(s, p).value && p(s[i]) &&
                                             forall j :: 0 <= j < i ==> !p(s[j])
  {
    if |s| != 0 && !p(s[0]) {
      FindFirst(s[1..], p);
      var r := Find(s[1..], p);
      if r.Some? {
        var i :| 0 <= i < |s[1..]| && s[1..][i] == r.value && p(s[1..][i]) &&
                 forall j :: 0 <= j < i ==> !p(s[1..][j]);
        assert s[i + 1] == r.value;
      } else {
        forall i | 0 <= i < |s| ensures !p(s[i]) {
          if i > 0 { assert s[i] == s[1..][i - 1]; }
        }
      }
    } else if |s| != 0 {
      assert s[0] == Find(s, p).value;
    }
  }

  class BoardForm {
    // Props and context.
    const userId: string
    const teamId: int
    var teams: seq<Team>

    // The form's state.
    var date: Option<Instant>
    var scoreId: int
    var answer: string
    var guesses: seq<string>
    var submitDisabled: bool
    var submitting: bool

    /** The teams cache as `handleSubmit`'s closure captured it when the form was last submitted. */
    var submittedTeams: seq<Team>

    /** The current team is in the cache (the component asserts it with `!`). */
    predicate TeamLoaded()
      reads this
    {
      var id := teamId;
      Find(teams, (t: Team) => t.id == id).Some?
    }

    /** `teams.find((t) => t.id === teamId)!`: the first cached team with the current id. */
    function CurrentTeam(): (team: Team)
      reads this
      requires TeamLoaded()
      ensures team in teams && team.id == teamId
    {
      var tid := teamId;
      var isCurrent := (t: Team) => t.id == tid;
      FindFirst(teams, isCurrent);
      Find(teams, isCurrent).value
    }

    /**
     * The current player's cached scores: those of the first player of the
     * current team with the user's id, or none when the player is not there.
     */
    function Scores(): (scores: seq<DailyScore>)
      reads this
      requires TeamLoaded()
      ensures (forall i :: 0 <= i < |CurrentTeam().players| ==> CurrentTeam().players[i].id != userId) ==> scores == []
      ensures (exists i :: 0 <= i < |CurrentTeam().players| && CurrentTeam().players[i].id == userId) ==>
                exists i :: 0 <= i < |CurrentTeam().players| && CurrentTeam().players[i].id == userId &&
                            CurrentTeam().players[i].scores == scores &&
                            forall j :: 0 <= j < i ==> CurrentTeam().players[j].id != userId
    {
      var uid := userId;
      var isUser := (p: Player) => p.id == uid;
      FindFirst(CurrentTeam().players, isUser);
      var player := Find(CurrentTeam().players, isUser);
      if player.Some? then player.value.scores else []
    }

    /** The first cached score on the chosen day. */
    function ScoreOnDate(sameDay: (Option<Instant>, string) -> bool): (r: Option<DailyScore>)
      reads this
      requires TeamLoaded()
      ensures r.None? <==> forall s :: s in Scores() ==> !sameDay(date, s.date)
      ensures r.Some? ==> exists i :: 0 <= i < |Scores()| && Scores()[i] == r.value && sameDay(date, r.value.date) &&
                                      forall j :: 0 <= j < i ==> !sameDay(date, Scores()[j].date)
    {
      var d := date;
      var onDay := (s: DailyScore) => sameDay(d, s.date);
      FindFirst(Scores(), onDay);
      Find(Scores(), onDay)
    }

    /** Whether the submit button is enabled: it is `disabled={submitting || submitDisabled}`. */
    predicate SubmitEnabled()
      reads this
    {
      !(submitting || submitDisabled)
    }

    /** The first render: today's date, no score, an empty board, submit disabled. */
    constructor (userId: string, teamId: int, teams: seq<Team>, now: Instant)
      ensures this.userId == userId && this.teamId == teamId && this.teams == teams
      ensures date == Some(now) && scoreId == NoScore && answer == ""
      ensures |guesses| == Rows && forall i :: 0 <= i < |guesses| ==> guesses[i] == ""
      ensures submitDisabled && !submitting && !SubmitEnabled() && submittedTeams == teams
    {
      this.userId := userId;
      this.teamId := teamId;
      this.teams := teams;
      date := Some(now);
      scoreId := NoScore;
      answer := "";
      guesses := ["", "", "", "", "", ""];
      submitDisabled := true;
      submitting := false;
      submittedTeams := teams;
    }

    /**
     * The effect on `date`: load the answer, guesses and id of the first
     * cached score on that day, or an empty board with `NoScore`.
     */
    method LoadScoreForDate(sameDay: (Option<Instant>, string) -> bool, padArray: (seq<string>, nat) -> seq<string>)
      requires TeamLoaded()
      modifies this`answer, this`guesses, this`scoreId
      ensures var found := old(ScoreOnDate(sameDay));
              && (found.Some? ==> answer == found.value.answer && scoreId == found.value.id
                                  && guesses == padArray(found.value.guesses, Rows))
              && (found.None? ==> answer == "" && scoreId == NoScore && guesses == padArray([], Rows))
    {
      var score := ScoreOnDate(sameDay);
      var cached := if score.Some? then score.value.guesses else [];
      answer := if score.Some? then score.value.answer else "";
      guesses := padArray(cached, Rows);
      scoreId := if score.Some? then score.value.id else NoScore;
    }

    /** Picking a date in the date picker, followed by the effect on `date`. */
    method SelectDate(d: Option<Instant>, sameDay: (Option<Instant>, string) -> bool,
                      padArray: (seq<string>, nat) -> seq<string>)
      requires TeamLoaded()
      modifies this`date, this`answer, this`guesses, this`scoreId
      ensures date == d
      ensures ScoreOnDate(sameDay).None? ==> answer == "" && scoreId == NoScore && guesses == padArray([], Rows)
      ensures ScoreOnDate(sameDay).Some? ==>
                answer == ScoreOnDate(sameDay).value.answer && scoreId == ScoreOnDate(sameDay).value.id &&
                guesses == padArray(ScoreOnDate(sameDay).value.guesses, Rows)
    {
      date := d;
      LoadScoreForDate(sameDay, padArray);
    }

    /**
     * The effect on `answer` and `guesses`: with an answer, submit is
     * disabled exactly when the board is not valid; with an empty answer
     * the previous setting is kept.
     */
    method RecomputeSubmitDisabled(boardIsValid: (string, seq<string>) -> bool)
      modifies this`submitDisabled
      ensures answer != "" ==> (submitDisabled <==> !boardIsValid(answer, guesses))
      ensures answer == "" ==> submitDisabled == old(submitDisabled)
    {
      if answer != "" {
        submitDisabled := !boardIsValid(answer, guesses);
      }
    }

    /**
     * `handleSubmit` up to the `await`: mark the form as submitting, send its
     * fields, and keep the teams cache of this render for the update after it.
     */
    method BeginSubmit() returns (payload: Payload)
      modifies this`submitting, this`submittedTeams
      ensures submitting && !SubmitEnabled()
      ensures submittedTeams == teams
      ensures payload == Payload(scoreId, date, guesses, answer)
    {
      submitting := true;
      submittedTeams := teams;
      payload := Payload(scoreId, date, guesses, answer);
    }

    /**
     * `handleSubmit` after the `await`: on success with a score, the teams
     * cache becomes the submit-time cache updated with that score, so a change
     * to the cache during the `await` is overwritten; the form's fields never change;
     * `submitting` is cleared once a result arrives. When `upsertBoard`
     * throws, the rest of the handler does not run and `submitting` stays set.
     */
    method FinishSubmit(outcome: Outcome<SubmitResult>, fromDbDailyScore: DbScore -> DailyScore,
                        updatePlayerScore: (seq<Team>, int, string, DailyScore) -> seq<Team>)
      modifies this`teams, this`submitting
      ensures outcome.Returns? ==> !submitting && (SubmitEnabled() <==> !submitDisabled)
      ensures outcome.Throws? ==> submitting == old(submitting)
      ensures teams == if outcome.Returns? && outcome.value.success && outcome.value.dailyScore.Some?
                       then updatePlayerScore(submittedTeams, teamId, userId,
                                              fromDbDailyScore(outcome.value.dailyScore.value))
                       else old(teams)
      ensures answer == old(answer) && guesses == old(guesses) && scoreId == old(scoreId) && date == old(date)
    {
      if outcome.Throws? {
        return;
      }
      var result := outcome.value;
      if result.success {
        if result.dailyScore.Some? {
          var newScore := fromDbDailyScore(result.dailyScore.value);
          teams := updatePlayerScore(submittedTeams, teamId, userId, newScore);
        }
      }
      submitting := false;
    }

    /** `handleKeyDown`: Tab moves focus; any other key edits the answer through `updateAnswer`. */
    method HandleKeyDown(key: string, updateAnswer: (string, string) -> string)
      modifies this`answer
      ensures key == "Tab" ==> answer == old(answer)
      ensures key != "Tab" ==> answer == updateAnswer(key, old(answer))
    {
      if key != "Tab" {
        answer := updateAnswer(key, answer);
      }
    }

    /** The clear button: empties the answer and nothing else. */
    method Clear()
      modifies this`answer
      ensures answer == ""
    {
      answer := "";
    }
  }

  /**
   * A submission while the chosen date has no cached score carries
   * `NoScore` as its id, so the server inserts a new score.
   */
  method SubmitUncachedDate(form: BoardForm, d: Option<Instant>, sameDay: (Option<Instant>, string) -> bool,
                            padArray: (seq<string>, nat) -> seq<string>) returns (payload: Payload)
    requires form.TeamLoaded()
    requires forall s :: s in form.Scores() ==> !sameDay(d, s.date)
    modifies form
    ensures payload.scoreId == NoScore && payload.date == d && payload.answer == ""
    ensures form.submitting && !form.SubmitEnabled()
  {
    form.SelectDate(d, sameDay, padArray);
    payload := form.BeginSubmit();
  }

  /**
   * Clearing the answer does not re-enable or disable submission: the
   * validity effect keeps the previous setting while the answer is empty.
   */
  method ClearKeepsSubmitSetting(form: BoardForm, boardIsValid: (string, seq<string>) -> bool)
    modifies form
    ensures form.answer == "" && form.submitDisabled == old(form.submitDisabled)
  {
    form.Clear();
    form.RecomputeSubmitDisabled(boardIsValid);
  }
}
