/** The game page: difficulty and artist id from the URL, checking a guess, scoring, autocomplete suggestions over
    the loaded pool, and the page's round state under its handlers and keyboard shortcuts. */
module GamePage {
  import opened Wrappers
  import opened Text
  import opened Signals
  import opened ITunesApi
  import opened JsNumber

  datatype Difficulty = Easy | Medium | Hard | Impossible

  function DifficultyName(d: Difficulty): string
  {
    match d
    case Easy => "easy"
    case Medium => "medium"
    case Hard => "hard"
    case Impossible => "impossible"
  }

  /** The `difficulty` query parameter: absent or empty means easy; a value naming no level gives no level, which
      leaves both the snippet length and the points undefined. */
  function ParseDifficulty(param: Option<string>): (r: Option<Difficulty>)
    ensures param.None? || param == Some("") ==> r == Some(Easy)
    ensures r.Some? && param.Some? && param.value != "" ==> DifficultyName(r.value) == param.value
    ensures r.None? <==> param.Some? && param.value != "" && forall d: Difficulty :: DifficultyName(d) != param.value
  {
    match param
    case None => Some(Easy)
    case Some(s) =>
      if s == "" || s == "easy" then Some(Easy)
      else if s == "medium" then Some(Medium)
      else if s == "hard" then Some(Hard)
      else if s == "impossible" then Some(Impossible)
      else None
  }

  /** Every level's name is read back as that level. */
  lemma ParseDifficultyName(d: Difficulty)
    ensures ParseDifficulty(Some(DifficultyName(d))) == Some(d)
  {
  }

  /** `difficultyLevels`: how long the snippet plays, in ms. */
  function SnippetMs(d: Difficulty): nat
  {
    match d
    case Easy => 5000
    case Medium => 3000
    case Hard => 1000
    case Impossible => 500
  }

  /** The base points of a correct guess. */
  function Points(d: Difficulty): nat
  {
    match d
    case Easy => 100
    case Medium => 200
    case Hard => 300
    case Impossible => 500
  }

  function Rank(d: Difficulty): nat
  {
    match d
    case Easy => 0
    case Medium => 1
    case Hard => 2
    case Impossible => 3
  }

  /** A harder level plays a strictly shorter snippet and pays strictly more. */
  lemma HarderIsShorterAndRicher(d1: Difficulty, d2: Difficulty)
    requires Rank(d1) < Rank(d2)
    ensures SnippetMs(d2) < SnippetMs(d1) && Points(d1) < Points(d2)
  {
  }

  // ---------------------------------------------------------------------------------------------------------------
  // The artist id: `parseInt(param || '0')`

  /** `parseInt(param || '0')`: a missing or empty parameter reads as 0, the chart. */
  function ParseArtistId(param: Option<string>): (r: Option<int>)
    ensures param.None? || param == Some("") ==> r == Some(0)
  {
    ParseIntDecimal(0);
    assert NatToString(0) == "0";
    ParseInt(if param.None? || param.value == "" then "0" else param.value)
  }

  /** A decimal artist id in the URL is read back as that id. */
  lemma ArtistIdRoundTrip(id: nat)
    ensures ParseArtistId(Some(NatToString(id))) == Some(id)
  {
    ParseIntDecimal(id);
  }

  // ---------------------------------------------------------------------------------------------------------------
  // Guesses and scoring

  const CorrectFeedback: string := "✅ Correct!"
  const WrongFeedback: string := "❌ Wrong! Try again"

  /** `guess.toLowerCase().trim() === title.toLowerCase().trim()`. */
  predicate IsCorrectGuess(guess: string, title: string)
  {
    Trim(Lower(guess)) == Trim(Lower(title))
  }

  /** Letter case in the guess does not matter. */
  lemma {:induction false} GuessIgnoresCase(guess: string, title: string)
    ensures IsCorrectGuess(Lower(guess), title) <==> IsCorrectGuess(guess, title)
  {
    LowerIdempotent(guess);
  }

  lemma {:induction false} LowerAppend(a: string, b: string)
    ensures Lower(a + b) == Lower(a) + Lower(b)
  {
    assert forall i :: 0 <= i < |a + b| ==> Lower(a + b)[i] == (Lower(a) + Lower(b))[i];
  }

  lemma LowerKeepsSpace(s: string)
    requires AllSpace(s)
    ensures AllSpace(Lower(s))
  {
    forall i | 0 <= i < |s| ensures IsSpace(Lower(s)[i]) {
      LowerCharSpace(s[i]);
    }
  }

  /** White space around the guess does not matter. */
  lemma {:induction false} GuessIgnoresPadding(pre: string, guess: string, post: string, title: string)
    requires AllSpace(pre) && AllSpace(post)
    ensures IsCorrectGuess(pre + guess + post, title) <==> IsCorrectGuess(guess, title)
  {
    LowerAppend(pre + guess, post);
    LowerAppend(pre, guess);
    LowerKeepsSpace(pre);
    LowerKeepsSpace(post);
    TrimPadded(Lower(pre), Lower(guess), Lower(post));
  }

  /** Lower-casing before trimming, as written, is the same as trimming first. */
  lemma {:induction false} GuessNormalForm(guess: string, title: string)
    ensures IsCorrectGuess(guess, title) <==> Lower(Trim(guess)) == Lower(Trim(title))
  {
    LowerTrimCommute(guess);
    LowerTrimCommute(title);
  }

  /** The score after a correct guess, `prev + basePoints`; NaN (`None`) when the level is unrecognised, and NaN
      stays NaN. */
  function Scored(score: Option<nat>, d: Option<Difficulty>): (r: Option<nat>)
    ensures r.Some? <==> score.Some? && d.Some?
    ensures r.Some? ==> r.value >= score.value + 100 && r.value == score.value + Points(d.value)
  {
    if score.Some? && d.Some? then Some(score.value + Points(d.value)) else None
  }

  /** The feedback of a skip; the title reads "undefined" when there is no current track. */
  function SkipFeedback(trackName: Option<string>): string
  {
    "❌ Skipped! The song was \"" + trackName.GetOr("undefined") + "\""
  }

  // ---------------------------------------------------------------------------------------------------------------
  // Suggestions

  datatype Suggestion = Suggestion(name: string, id: Option<int>)

  const MaxSuggestions: nat := 10

  function Suggest(t: Song): Suggestion { Suggestion(t.trackName, t.trackId) }

  /** A pool track matches when its lower-cased title contains the lower-cased query. */
  predicate Matches(t: Song, query: string)
  {
    Contains(Lower(t.trackName), Lower(query))
  }

  function MatchesQuery(query: string): Song -> bool
  {
    (t: Song) => Matches(t, query)
  }

  function SuggestAll(ts: seq<Song>): (r: seq<Suggestion>)
    ensures |r| == |ts| && forall i :: 0 <= i < |ts| ==> r[i] == Suggest(ts[i])
  {
    seq(|ts|, i requires 0 <= i < |ts| => Suggest(ts[i]))
  }

  lemma FilterMembershipAll(xs: seq<Song>, p: Song -> bool)
    ensures forall x :: x in Seqs.Filter(xs, p) <==> x in xs && p(x)
  {
    forall x {
      Seqs.FilterMembership(xs, p, x);
    }
  }

  /** `fetchSongSuggestions`: nothing for a blank query; otherwise the first ten matching pool tracks. */
  function Suggestions(pool: seq<Song>, query: string): (r: seq<Suggestion>)
    ensures |r| <= MaxSuggestions
    ensures AllSpace(query) ==> r == []
    ensures forall i :: 0 <= i < |r| ==> exists t :: t in pool && Matches(t, query) && r[i] == Suggest(t)
    ensures !AllSpace(query) && |r| < MaxSuggestions ==>
              forall t :: t in pool && Matches(t, query) ==> Suggest(t) in r
    ensures !AllSpace(query) ==> (r == [] <==> forall t :: t in pool ==> !Matches(t, query))
  {
    if AllSpace(query) then []
    else
      var m := Seqs.Filter(pool, MatchesQuery(query));
      FilterMembershipAll(pool, MatchesQuery(query));
      assert forall x :: x in m <==> x in pool && Matches(x, query);
      var r := Seqs.Take(SuggestAll(m), MaxSuggestions);
      assert forall i :: 0 <= i < |r| ==> m[i] in pool && Matches(m[i], query) && r[i] == Suggest(m[i]) by {
        forall i | 0 <= i < |r| ensures m[i] in pool && Matches(m[i], query) && r[i] == Suggest(m[i]) {
          assert m[i] in m;
        }
      }
      assert r != [] ==> m[0] in pool && Matches(m[0], query);
      assert r == [] ==> m == [];
      r
  }

  /** The reference: walk the pool in order and keep the tracks satisfying `p` until `k` are kept. */
  function FirstMatches(pool: seq<Song>, p: Song -> bool, k: nat): seq<Suggestion>
  {
    if pool == [] || k == 0 then []
    else if p(pool[0]) then [Suggest(pool[0])] + FirstMatches(pool[1..], p, k - 1)
    else FirstMatches(pool[1..], p, k)
  }

  lemma {:induction false} TakeFilterIsFirstMatches(pool: seq<Song>, p: Song -> bool, k: nat)
    ensures Seqs.Take(SuggestAll(Seqs.Filter(pool, p)), k) == FirstMatches(pool, p, k)
  {
    if pool == [] {
      assert Seqs.Filter(pool, p) == [];
    } else if k == 0 {
    } else if p(pool[0]) {
      TakeFilterIsFirstMatches(pool[1..], p, k - 1);
      KeptHead(pool, p, k);
    } else {
      TakeFilterIsFirstMatches(pool[1..], p, k);
      FilterHead(pool, p);
    }
  }

  lemma KeptHead(pool: seq<Song>, p: Song -> bool, k: nat)
    requires pool != [] && k > 0 && p(pool[0])
    requires Seqs.Take(SuggestAll(Seqs.Filter(pool[1..], p)), k - 1) == FirstMatches(pool[1..], p, k - 1)
    ensures Seqs.Take(SuggestAll(Seqs.Filter(pool, p)), k) == FirstMatches(pool, p, k)
  {
    var rest := Seqs.Filter(pool[1..], p);
    FilterHead(pool, p);
    SuggestAllCons(pool[0], rest);
    TakeCons(Suggest(pool[0]), SuggestAll(rest), k);
  }

  lemma FilterHead(pool: seq<Song>, p: Song -> bool)
    requires pool != []
    ensures Seqs.Filter(pool, p) == if p(pool[0]) then [pool[0]] + Seqs.Filter(pool[1..], p) else Seqs.Filter(pool[1..], p)
  {
  }

  lemma SuggestAllCons(t: Song, ts: seq<Song>)
    ensures SuggestAll([t] + ts) == [Suggest(t)] + SuggestAll(ts)
  {
  }

  lemma TakeCons<T>(a: T, s: seq<T>, k: nat)
    requires k > 0
    ensures Seqs.Take([a] + s, k) == [a] + Seqs.Take(s, k - 1)
  {
  }

  /** Suggestions keep pool order: they are exactly the first ten matches met walking the pool. */
  lemma SuggestionsInPoolOrder(pool: seq<Song>, query: string)
    requires !AllSpace(query)
    ensures Suggestions(pool, query) == FirstMatches(pool, MatchesQuery(query), MaxSuggestions)
  {
    TakeFilterIsFirstMatches(pool, MatchesQuery(query), MaxSuggestions);
  }

  // ---------------------------------------------------------------------------------------------------------------
  // Keyboard selection

  datatype Key = Escape | ArrowDown | ArrowUp | Enter | Printable(c: char) | OtherKey

  /** ArrowDown: one further down, never past the last suggestion. */
  function StepDown(prev: int, len: nat): (r: int)
    ensures prev <= r <= prev + 1
    ensures prev <= len - 1 ==> r <= len - 1
    ensures r == prev + 1 <==> prev < len - 1
  {
    if prev < len - 1 then prev + 1 else prev
  }

  /** ArrowUp: one further up, never above the first suggestion. */
  function StepUp(prev: int): (r: int)
    ensures r >= 0
    ensures prev >= 1 ==> r == prev - 1
    ensures prev >= 0 ==> r <= prev
  {
    if prev > 0 then prev - 1 else 0
  }

  /** The page's round state. `score` is `None` once it has become NaN. */
  class Round {
    const difficulty: Option<Difficulty>
    var score: Option<nat>
    var guess: string
    var feedback: string
    var showResult: bool
    var suggestions: seq<Suggestion>
    var isPlaying: bool
    var dropdownOpen: bool
    var playerReady: bool
    var selected: int
    /** 50 ms submit timers started by picking a suggestion. */
    var pendingSubmits: nat
    /** Calls of the hook's `refetchTrack`. */
    var refetches: nat
    /** Set once the page has navigated back to /home. */
    var home: bool

    /** The closed dropdown has no selection (the dropdown effect clears it on every close). */
    ghost predicate Valid()
      reads this
    {
      selected >= -1 && (!dropdownOpen ==> selected == -1)
    }

    /** The selection points into the list on screen, which is what Enter relies on. */
    ghost predicate SelectionInRange()
      reads this
    {
      Valid() && (selected == -1 || selected < |suggestions|)
    }

    constructor (difficulty: Option<Difficulty>)
      ensures Valid() && SelectionInRange() && this.difficulty == difficulty
      ensures score == Some(0) && guess == "" && feedback == "" && !showResult && suggestions == []
      ensures !isPlaying && !dropdownOpen && !playerReady && selected == -1
      ensures pendingSubmits == 0 && refetches == 0 && !home
    {
      this.difficulty := difficulty;
      score := Some(0);
      guess := "";
      feedback := "";
      showResult := false;
      suggestions := [];
      isPlaying := false;
      dropdownOpen := false;
      playerReady := false;
      selected := -1;
      pendingSubmits := 0;
      refetches := 0;
      home := false;
    }

    /** Closing the dropdown; its effect clears the selection. */
    method CloseDropdown()
      modifies this`dropdownOpen, this`selected
      ensures !dropdownOpen && selected == -1
    {
      dropdownOpen := false;
      selected := -1;
    }

    /** `handleGuess`. Without a current track nothing happens. Otherwise the dropdown closes, the suggestions
        clear and playback is marked stopped; a correct guess adds the level's points and shows the result, a wrong
        one leaves the score and clears the guess. */
    method HandleGuess(track: Option<Song>)
      requires Valid()
      modifies this
      ensures Valid()
      ensures track.None? ==>
                score == old(score) && guess == old(guess) && feedback == old(feedback) && showResult == old(showResult)
                && suggestions == old(suggestions) && isPlaying == old(isPlaying) && dropdownOpen == old(dropdownOpen)
                && selected == old(selected)
      ensures track.Some? ==> !dropdownOpen && selected == -1 && suggestions == [] && !isPlaying
      ensures track.Some? && IsCorrectGuess(old(guess), track.value.trackName) ==>
                score == Scored(old(score), difficulty) && feedback == CorrectFeedback && showResult
                && guess == old(guess)
      ensures track.Some? && !IsCorrectGuess(old(guess), track.value.trackName) ==>
                score == old(score) && feedback == WrongFeedback && guess == "" && showResult == old(showResult)
      ensures playerReady == old(playerReady) && pendingSubmits == old(pendingSubmits)
      ensures refetches == old(refetches) && home == old(home)
      ensures old(SelectionInRange()) ==> SelectionInRange()
    {
      if track.None? {
        return;
      }
      var correct := IsCorrectGuess(guess, track.value.trackName);
      CloseDropdown();
      suggestions := [];
      isPlaying := false;
      ShowVerdict(correct);
    }

    /** The verdict part of `handleGuess`: points and the result for a correct guess, a cleared guess otherwise. */
    method ShowVerdict(correct: bool)
      modifies this`score, this`feedback, this`showResult, this`guess
      ensures correct ==> score == Scored(old(score), difficulty) && feedback == CorrectFeedback && showResult
                          && guess == old(guess)
      ensures !correct ==> score == old(score) && feedback == WrongFeedback && guess == "" && showResult == old(showResult)
    {
      if correct {
        score := Scored(score, difficulty);
        feedback := CorrectFeedback;
        showResult := true;
      } else {
        feedback := WrongFeedback;
        guess := "";
      }
    }

    /** `handleSkip`: playback marked stopped, the result shown with the title of the current track. */
    method HandleSkip(trackName: Option<string>)
      requires Valid()
      modifies this
      ensures Valid() && !isPlaying && showResult && feedback == SkipFeedback(trackName)
      ensures score == old(score) && guess == old(guess) && suggestions == old(suggestions)
      ensures dropdownOpen == old(dropdownOpen) && selected == old(selected) && playerReady == old(playerReady)
      ensures pendingSubmits == old(pendingSubmits) && refetches == old(refetches) && home == old(home)
    {
      isPlaying := false;
      showResult := true;
      feedback := SkipFeedback(trackName);
    }

    /** `handleNextSong`: the round's guess, feedback, suggestions and player readiness are reset before the hook
        is asked for the next track; the score is kept. */
    method HandleNextSong()
      requires Valid()
      modifies this
      ensures Valid() && SelectionInRange()
      ensures !showResult && guess == "" && feedback == "" && suggestions == [] && !dropdownOpen && selected == -1
      ensures !playerReady && refetches == old(refetches) + 1
      ensures score == old(score) && isPlaying == old(isPlaying) && pendingSubmits == old(pendingSubmits)
      ensures home == old(home)
    {
      showResult := false;
      guess := "";
      feedback := "";
      suggestions := [];
      CloseDropdown();
      playerReady := false;
      refetches := refetches + 1;
    }

    /** A callback from the player: ready, started or ended. */
    method PlayerSignal(s: Signal)
      requires Valid()
      modifies this
      ensures Valid()
      ensures s == Ready ==> playerReady && isPlaying == old(isPlaying)
      ensures s == Started ==> isPlaying && playerReady == old(playerReady)
      ensures s == Ended ==> !isPlaying && playerReady == old(playerReady)
      ensures score == old(score) && guess == old(guess) && suggestions == old(suggestions)
      ensures dropdownOpen == old(dropdownOpen) && selected == old(selected) && showResult == old(showResult)
    {
      match s
      case Ready => playerReady := true;
      case Started => isPlaying := true;
      case Ended => isPlaying := false;
    }

    /** The input changed, as written: the guess follows it and the suggestions are recomputed, the dropdown
        open iff there are any. An open dropdown keeps its selection even when the new list is shorter. */
    method TypeGuess(value: string, pool: seq<Song>)
      requires Valid()
      modifies this
      ensures Valid() && guess == value && suggestions == Suggestions(pool, value)
      ensures dropdownOpen <==> suggestions != []
      ensures dropdownOpen ==> selected == old(selected)
      ensures score == old(score) && feedback == old(feedback) && showResult == old(showResult)
      ensures isPlaying == old(isPlaying) && playerReady == old(playerReady) && pendingSubmits == old(pendingSubmits)
      ensures refetches == old(refetches) && home == old(home)
    {
      guess := value;
      var s := Suggestions(pool, value);
      suggestions := s;
      if s != [] {
        dropdownOpen := true;
      } else {
        CloseDropdown();
      }
    }

    /** The input changed, as evidently intended: as `TypeGuess`, but a new list starts with no selection. */
    method TypeGuessIntended(value: string, pool: seq<Song>)
      requires Valid()
      modifies this
      ensures Valid() && SelectionInRange() && guess == value && suggestions == Suggestions(pool, value)
      ensures dropdownOpen <==> suggestions != []
      ensures selected == -1
      ensures score == old(score) && feedback == old(feedback) && showResult == old(showResult)
      ensures isPlaying == old(isPlaying) && playerReady == old(playerReady) && pendingSubmits == old(pendingSubmits)
      ensures refetches == old(refetches) && home == old(home)
    {
      TypeGuess(value, pool);
      selected := -1;
    }

    /** `handleInputFocus`, as written: a non-blank guess recomputes the suggestions; the dropdown ends open and
        the selection is kept. */
    method Focus(pool: seq<Song>)
      requires Valid()
      modifies this
      ensures Valid() && dropdownOpen && selected == old(selected)
      ensures !AllSpace(guess) ==> suggestions == Suggestions(pool, guess)
      ensures AllSpace(guess) ==> suggestions == old(suggestions)
      ensures guess == old(guess) && score == old(score) && feedback == old(feedback) && showResult == old(showResult)
      ensures isPlaying == old(isPlaying) && playerReady == old(playerReady) && pendingSubmits == old(pendingSubmits)
      ensures refetches == old(refetches) && home == old(home)
    {
      if !AllSpace(guess) {
        suggestions := Suggestions(pool, guess);
      }
      dropdownOpen := true;
    }

    /** `handleInputFocus`, as evidently intended: a recomputed list starts with no selection. */
    method FocusIntended(pool: seq<Song>)
      requires Valid()
      modifies this
      ensures Valid() && dropdownOpen
      ensures old(SelectionInRange()) ==> SelectionInRange()
      ensures !AllSpace(guess) ==> suggestions == Suggestions(pool, guess) && selected == -1
      ensures AllSpace(guess) ==> suggestions == old(suggestions) && selected == old(selected)
      ensures guess == old(guess) && score == old(score) && feedback == old(feedback) && showResult == old(showResult)
      ensures isPlaying == old(isPlaying) && playerReady == old(playerReady) && pendingSubmits == old(pendingSubmits)
      ensures refetches == old(refetches) && home == old(home)
    {
      Focus(pool);
      if !AllSpace(guess) {
        selected := -1;
      }
    }

    /** `handleSuggestionClick`: the suggestion becomes the guess, the list closes and a submit is scheduled. */
    method PickSuggestion(s: Suggestion)
      requires Valid()
      modifies this
      ensures Valid() && SelectionInRange()
      ensures guess == s.name && suggestions == [] && !dropdownOpen && selected == -1
      ensures pendingSubmits == old(pendingSubmits) + 1
      ensures score == old(score) && feedback == old(feedback) && showResult == old(showResult)
      ensures isPlaying == old(isPlaying) && playerReady == old(playerReady)
      ensures refetches == old(refetches) && home == old(home)
    {
      guess := s.name;
      suggestions := [];
      CloseDropdown();
      pendingSubmits := pendingSubmits + 1;
    }

    /** The scheduled submit: the guess is checked if the form is on screen (`formShown`). */
    method SubmitTimerFires(formShown: bool, track: Option<Song>)
      requires Valid() && pendingSubmits > 0
      modifies this
      ensures Valid() && pendingSubmits == old(pendingSubmits) - 1
      ensures old(SelectionInRange()) ==> SelectionInRange()
      ensures !formShown ==> score == old(score) && guess == old(guess) && feedback == old(feedback)
      ensures formShown && track.Some? && IsCorrectGuess(old(guess), track.value.trackName) ==>
                score == Scored(old(score), difficulty) && showResult
      ensures formShown && track.Some? && !IsCorrectGuess(old(guess), track.value.trackName) ==>
                score == old(score) && guess == ""
    {
      pendingSubmits := pendingSubmits - 1;
      if formShown {
        HandleGuess(track);
      }
    }

    /** Submitting the form: the submit button is disabled while the guess is blank. */
    method SubmitForm(track: Option<Song>)
      requires Valid()
      modifies this
      ensures Valid()
      ensures old(SelectionInRange()) ==> SelectionInRange()
      ensures AllSpace(old(guess)) ==> score == old(score) && guess == old(guess) && feedback == old(feedback)
      ensures !AllSpace(old(guess)) && track.Some? && IsCorrectGuess(old(guess), track.value.trackName) ==>
                score == Scored(old(score), difficulty) && showResult
      ensures !AllSpace(old(guess)) && track.Some? && !IsCorrectGuess(old(guess), track.value.trackName) ==>
                score == old(score) && guess == ""
    {
      if !AllSpace(guess) {
        HandleGuess(track);
      }
    }

    /** The window keydown handler. Escape closes an open dropdown, else leaves the game unless a result is shown;
        `s` skips when the input is not focused, nothing plays and no result is shown; `b` leaves when the input is
        not focused; with an open, non-empty list the arrows move the selection and Enter picks the selected
        suggestion. `thrown` reports the handler failing on a selection past the end of the list, in which case
        nothing changes. */
    method KeyDown(key: Key, inputFocused: bool, trackName: Option<string>) returns (thrown: bool)
      requires Valid()
      modifies this
      ensures Valid()
      ensures old(SelectionInRange()) ==> SelectionInRange() && !thrown
      ensures thrown <==> key == Enter && old(dropdownOpen) && old(|suggestions|) > 0
                          && old(selected) >= old(|suggestions|)
      ensures score == old(score) && playerReady == old(playerReady) && refetches == old(refetches)
      ensures key != Enter ==> suggestions == old(suggestions) && guess == old(guess) && pendingSubmits == old(pendingSubmits)
      ensures key == ArrowDown || key == ArrowUp ==> dropdownOpen == old(dropdownOpen)
      ensures key == Escape && old(dropdownOpen) ==> !dropdownOpen && selected == -1 && home == old(home)
      ensures key == Escape && !old(dropdownOpen) ==> home == (old(home) || !old(showResult))
      ensures key == Printable('s') && !inputFocused && !old(isPlaying) && !old(showResult) ==>
                showResult && feedback == SkipFeedback(trackName)
      ensures key == Printable('s') && (inputFocused || old(isPlaying) || old(showResult)) ==>
                showResult == old(showResult) && feedback == old(feedback) && home == old(home)
      ensures key == Printable('b') ==> home == (old(home) || !inputFocused) && showResult == old(showResult)
      ensures key == ArrowDown ==>
                selected == if old(dropdownOpen) && old(|suggestions|) > 0
                            then StepDown(old(selected), old(|suggestions|)) else old(selected)
      ensures key == ArrowUp ==>
                selected == if old(dropdownOpen) && old(|suggestions|) > 0 then StepUp(old(selected)) else old(selected)
      ensures key == Enter && old(dropdownOpen) && 0 <= old(selected) < old(|suggestions|) ==>
                guess == old(suggestions)[old(selected)].name && !dropdownOpen && suggestions == []
                && pendingSubmits == old(pendingSubmits) + 1
      ensures thrown ==> guess == old(guess) && suggestions == old(suggestions) && selected == old(selected)
                         && dropdownOpen == old(dropdownOpen) && pendingSubmits == old(pendingSubmits)
    {
      thrown := false;
      match key
      case Escape =>
        if dropdownOpen {
          CloseDropdown();
        } else if !showResult {
          home := true;
        }
      case Printable(c) =>
        if c == 's' && !inputFocused && !isPlaying && !showResult {
          HandleSkip(trackName);
        } else if c == 'b' && !inputFocused {
          home := true;
        }
      case ArrowDown =>
        if dropdownOpen && |suggestions| > 0 {
          selected := StepDown(selected, |suggestions|);
        }
      case ArrowUp =>
        if dropdownOpen && |suggestions| > 0 {
          selected := StepUp(selected);
        }
      case Enter =>
        if dropdownOpen && |suggestions| > 0 && selected >= 0 {
          if selected < |suggestions| {
            PickSuggestion(suggestions[selected]);
          } else {
            thrown := true;
          }
        }
      case OtherKey =>
    }
  }

  function SampleSong(title: string, id: int): Song
  {
    Song("track", "song", Some(id), "Artist", "Album", title, "https://audio.example/p.m4a", 1, 1, 1, 1, 30000, true)
  }

  function SamplePool(): seq<Song>
  {
    [SampleSong("ab", 1), SampleSong("ac", 2)]
  }

  lemma SampleMatches()
    ensures Matches(SamplePool()[0], "a") && Matches(SamplePool()[1], "a")
    ensures Matches(SamplePool()[0], "ab") && !Matches(SamplePool()[1], "ab")
  {
    assert Lower("ab") == "ab" && Lower("ac") == "ac" && Lower("a") == "a";
    assert StartsWith("ab", "a") && StartsWith("ac", "a") && StartsWith("ab", "ab");
    assert !StartsWith("ac", "ab") && !Contains("c", "ab");
  }

  /** On the sample pool, "a" suggests both tracks and "ab" only the first. */
  lemma SampleSuggestions()
    ensures Suggestions(SamplePool(), "a") == [Suggestion("ab", Some(1)), Suggestion("ac", Some(2))]
    ensures Suggestions(SamplePool(), "ab") == [Suggestion("ab", Some(1))]
  {
    SampleSuggestionsA();
    SampleSuggestionsAB();
  }

  lemma SampleSuggestionsA()
    ensures Suggestions(SamplePool(), "a") == [Suggestion("ab", Some(1)), Suggestion("ac", Some(2))]
  {
    var pool := SamplePool();
    var p := MatchesQuery("a");
    SampleMatches();
    assert p(pool[0]) && p(pool[1]);
    assert !AllSpace("a") by { assert !IsSpace("a"[0]); }
    SuggestionsInPoolOrder(pool, "a");
    assert pool[1..][1..] == [];
    assert FirstMatches(pool[1..][1..], p, MaxSuggestions - 2) == [];
    assert FirstMatches(pool[1..], p, MaxSuggestions - 1) == [Suggest(pool[1])];
  }

  lemma SampleSuggestionsAB()
    ensures Suggestions(SamplePool(), "ab") == [Suggestion("ab", Some(1))]
  {
    var pool := SamplePool();
    var p := MatchesQuery("ab");
    SampleMatches();
    assert p(pool[0]) && !p(pool[1]);
    assert !AllSpace("ab") by { assert !IsSpace("ab"[0]); }
    SuggestionsInPoolOrder(pool, "ab");
    assert pool[1..][1..] == [];
    assert FirstMatches(pool[1..][1..], p, MaxSuggestions - 1) == [];
    assert FirstMatches(pool[1..], p, MaxSuggestions - 1) == [];
  }

  /** Two suggestions, the second selected, then a longer query that leaves one: Enter now fails. */
  method StaleSelectionScenario() returns (g: Round, thrown: bool)
    ensures g.dropdownOpen && g.selected == 1 && |g.suggestions| == 1 && thrown
  {
    SampleSuggestions();
    g := new Round(Some(Easy));
    g.TypeGuess("a", SamplePool());
    assert g.dropdownOpen && |g.suggestions| == 2 && g.selected == -1;
    var t1 := g.KeyDown(ArrowDown, true, None);
    assert g.selected == 0 && g.dropdownOpen && |g.suggestions| == 2;
    var t2 := g.KeyDown(ArrowDown, true, None);
    assert g.selected == 1 && g.dropdownOpen;
    g.TypeGuess("ab", SamplePool());
    assert g.selected == 1 && g.dropdownOpen && |g.suggestions| == 1;
    thrown := g.KeyDown(Enter, true, None);
  }

  /** The first keystrokes of the stale-selection sequence with the intended input handler: type "a", then
      ArrowDown twice. */
  method SelectSecondSuggestion(g: Round)
    requires g.Valid() && g.pendingSubmits == 0
    modifies g
    ensures g.Valid() && g.pendingSubmits == 0
  {
    g.TypeGuessIntended("a", SamplePool());
    var t1 := g.KeyDown(ArrowDown, true, None);
    var t2 := g.KeyDown(ArrowDown, true, None);
  }

  /** The same keystrokes with the intended input handler: Enter picks the remaining suggestion. */
  method StaleSelectionIntendedScenario() returns (g: Round, thrown: bool)
    ensures !thrown && g.guess == "ab" && g.pendingSubmits == 1
  {
    g := new Round(Some(Easy));
    SelectSecondSuggestion(g);
    SampleSuggestionsAB();
    g.TypeGuessIntended("ab", SamplePool());
    assert g.selected == -1 && g.dropdownOpen && g.suggestions == [Suggestion("ab", Some(1))];
    var t3 := g.KeyDown(ArrowDown, true, None);
    assert g.selected == 0 && g.dropdownOpen && g.suggestions == [Suggestion("ab", Some(1))] && g.pendingSubmits == 0;
    assert g.suggestions[g.selected].name == "ab";
    thrown := g.KeyDown(Enter, true, None);
  }
}
