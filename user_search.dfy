// The user-search page's query effect (frontend/src/app/users/page.tsx): each
// change of the query cancels the pending search, validates the query, and
// either clears the view, shows an error, or schedules one debounced search.
// The timer firing and each request settling are events; their outcomes are
// inputs.
module UserSearch {
  import opened Wrappers
  import Text

  /** One entry of the `/search/users` response (the fields the page keys on). */
  datatype UserResult = UserResult(userId: string, username: string, displayName: string)

  /** The parameters of a `/search/users` request. */
  datatype Request = Request(q: string, limit: int)

  const SearchLimit := 30
  const TooShortMessage := "Search query must be at least 2 characters"
  const NoUsersMessage := "No users found. Try a different search."
  const FailedMessage := "Failed to search users. Please try again."

  /** How the effect classifies a query. */
  datatype Verdict = Blank | TooShort | Search

  /** `!searchQuery.trim()`, then `searchQuery.length < 2` on the untrimmed
      query (counted in UTF-16 code units), else a search. */
  function Validate(q: string): (r: Verdict)
    ensures r == Blank <==> Text.IsBlank(q)
    ensures r == TooShort <==> !Text.IsBlank(q) && Text.Utf16Length(q) < 2
    ensures r == Search <==> !Text.IsBlank(q) && Text.Utf16Length(q) >= 2
  {
    if Text.Trim(q) == [] then Blank
    else if Text.Utf16Length(q) < 2 then TooShort
    else Search
  }

  /** A query of one character is too short unless it lies outside the Basic
      Multilingual Plane: an emoji is two code units long and is searched. */
  lemma OneCharacterQuery(c: char)
    requires !Text.IsJsWhitespace(c)
    ensures Validate([c]) == (if c as int > 0xFFFF then Search else TooShort)
  {
    assert [c][..0] == [];
    assert [c][0] == c;
  }

  /** "😀" is one character but two code units: the page searches it. */
  lemma EmojiIsSearched()
    ensures |"\U{1F600}"| == 1 && Validate("\U{1F600}") == Search
  {
    var e := '\U{1F600}';
    assert e as int == 0x1F600;
    assert !Text.IsJsWhitespace(e);
    assert "\U{1F600}" == [e];
    OneCharacterQuery(e);
  }

  /** The length test is on the untrimmed query: one letter with a space
      around it is searched, one letter alone is rejected. */
  lemma PaddedLetterIsSearched()
    ensures Validate(" a") == Search && Validate("a") == TooShort
  {
    assert !Text.IsJsWhitespace(" a"[1]);
    OneCharacterQuery('a');
    assert " a"[..1] == " " && " a"[..1][..0] == [];
  }

  /** The page's state: the query, the `results`/`loading`/`error` state, the
      query of the timer not yet fired (`searchTimeout`), the queries whose
      requests have not settled, and every request sent. */
  datatype View = View(query: string, results: seq<UserResult>, loading: bool, error: string,
                       pending: Option<string>, inFlight: seq<string>, requests: seq<Request>)

  const Initial := View("", [], false, "", None, [], [])

  /** The spinner is shown only while a search is scheduled or outstanding. */
  predicate SpinnerJustified(v: View) {
    v.loading ==> v.pending.Some? || v.inFlight != []
  }

  /** The effect of a changed query as the page runs it: the timer is cleared,
      but the blank and too-short branches leave `loading` as it was. */
  function QueryEffectAsWritten(v: View, q: string): (r: View)
    ensures r.query == q && r.pending == (if Validate(q) == Search then Some(q) else None)
    ensures r.inFlight == v.inFlight && r.requests == v.requests
    ensures Validate(q) != Search ==> r.results == [] && r.loading == v.loading
  {
    var cleared := v.(query := q, pending := None);
    match Validate(q)
    case Blank => cleared.(results := [], error := "")
    case TooShort => cleared.(error := TooShortMessage, results := [])
    case Search => cleared.(loading := true, error := "", pending := Some(q))
  }

  /** Typing "ab" and then clearing the box before the timer fires cancels the
      search but leaves the spinner on, with nothing left that could turn it off. */
  lemma SpinnerStuckAsWritten()
    ensures var v := QueryEffectAsWritten(QueryEffectAsWritten(Initial, "ab"), "");
      v.loading && v.pending.None? && v.inFlight == [] && !SpinnerJustified(v)
  {
    assert !Text.IsJsWhitespace("ab"[0]);
    assert Validate("ab") == Search;
    var typed := QueryEffectAsWritten(Initial, "ab");
    assert typed.loading;
    assert Validate("") == Blank;
  }

  /** The effect with the evident intent: a query that is not searched also
      turns the spinner off. */
  function QueryEffect(v: View, q: string): (r: View)
    ensures r.query == q && r.pending == (if Validate(q) == Search then Some(q) else None)
    ensures r.inFlight == v.inFlight && r.requests == v.requests
    ensures Validate(q) == Blank ==> r.results == [] && r.error == "" && !r.loading
    ensures Validate(q) == TooShort ==> r.results == [] && r.error == TooShortMessage && !r.loading
    ensures Validate(q) == Search ==> r.loading && r.error == "" && r.results == v.results
    ensures SpinnerJustified(r)
  {
    var cleared := v.(query := q, pending := None);
    match Validate(q)
    case Blank => cleared.(results := [], error := "", loading := false)
    case TooShort => cleared.(error := TooShortMessage, results := [], loading := false)
    case Search => cleared.(loading := true, error := "", pending := Some(q))
  }

  /** The corrected effect agrees with the page wherever the page searches,
      and differs only in the spinner otherwise. */
  lemma QueryEffectOnlyFixesSpinner(v: View, q: string)
    ensures Validate(q) == Search ==> QueryEffect(v, q) == QueryEffectAsWritten(v, q)
    ensures QueryEffect(v, q) == QueryEffectAsWritten(v, q).(loading := QueryEffect(v, q).loading)
  {
  }

  /** `setSearchQuery(value)`: React runs the effect only when the query changed. */
  function ChangeQuery(v: View, q: string): (r: View)
    ensures q == v.query ==> r == v
    ensures q != v.query ==> r == QueryEffect(v, q)
  {
    if q == v.query then v else QueryEffect(v, q)
  }

  /** The 300 ms timer firing: the scheduled query is sent with limit 30. */
  function FireTimer(v: View): (r: View)
    ensures v.pending.None? ==> r == v
    ensures v.pending.Some? ==>
      r.pending.None? && r.inFlight == v.inFlight + [v.pending.value]
      && r.requests == v.requests + [Request(v.pending.value, SearchLimit)]
      && r.loading == v.loading && r.results == v.results && r.error == v.error
  {
    match v.pending
    case None => v
    case Some(q) => v.(pending := None, inFlight := v.inFlight + [q], requests := v.requests + [Request(q, SearchLimit)])
  }

  /** The response to the `i`-th outstanding request: `Some(data)` when it
      succeeded, `None` when it failed. Either way `loading` ends false. */
  function SettleRequest(v: View, i: nat, outcome: Option<seq<UserResult>>): (r: View)
    ensures i >= |v.inFlight| ==> r == v
    ensures i < |v.inFlight| ==>
      !r.loading && |r.inFlight| == |v.inFlight| - 1
      && multiset(r.inFlight) == multiset(v.inFlight) - multiset{v.inFlight[i]}
    ensures i < |v.inFlight| && outcome.Some? ==>
      r.results == outcome.value && r.error == (if outcome.value == [] then NoUsersMessage else v.error)
    ensures i < |v.inFlight| && outcome.None? ==> r.results == [] && r.error == FailedMessage
    ensures r.query == v.query && r.pending == v.pending && r.requests == v.requests
  {
    if i >= |v.inFlight| then v
    else
      var rest := v.inFlight[..i] + v.inFlight[i + 1..];
      assert v.inFlight == v.inFlight[..i] + [v.inFlight[i]] + v.inFlight[i + 1..];
      match outcome
      case Some(data) =>
        v.(results := data, error := if data == [] then NoUsersMessage else v.error, loading := false, inFlight := rest)
      case None =>
        v.(error := FailedMessage, results := [], loading := false, inFlight := rest)
  }

  datatype Event = QueryChanged(q: string) | TimerFired | RequestSettled(index: nat, outcome: Option<seq<UserResult>>)

  function Step(v: View, e: Event): View {
    match e
    case QueryChanged(q) => ChangeQuery(v, q)
    case TimerFired => FireTimer(v)
    case RequestSettled(i, outcome) => SettleRequest(v, i, outcome)
  }

  function Run(v: View, events: seq<Event>): View
    decreases |events|
  {
    if events == [] then v else Run(Step(v, events[0]), events[1..])
  }

  lemma StepKeepsSpinnerJustified(v: View, e: Event)
    requires SpinnerJustified(v)
    ensures SpinnerJustified(Step(v, e))
  {
  }

  /** Whatever the user types and however the requests settle, the spinner
      never shows without a search scheduled or outstanding. */
  lemma {:induction false} RunKeepsSpinnerJustified(v: View, events: seq<Event>)
    requires SpinnerJustified(v)
    ensures SpinnerJustified(Run(v, events))
    decreases |events|
  {
    if events != [] {
      StepKeepsSpinnerJustified(v, events[0]);
      RunKeepsSpinnerJustified(Step(v, events[0]), events[1..]);
    }
  }

  /** Every request sent carries limit 30 and a query that passed validation. */
  predicate RequestsWellFormed(v: View) {
    (forall k :: 0 <= k < |v.requests| ==> v.requests[k].limit == SearchLimit && Validate(v.requests[k].q) == Search)
    && (v.pending.Some? ==> Validate(v.pending.value) == Search)
  }

  lemma StepKeepsRequestsWellFormed(v: View, e: Event)
    requires RequestsWellFormed(v)
    ensures RequestsWellFormed(Step(v, e))
  {
  }

  lemma {:induction false} RunKeepsRequestsWellFormed(v: View, events: seq<Event>)
    requires RequestsWellFormed(v)
    ensures RequestsWellFormed(Run(v, events))
    decreases |events|
  {
    if events != [] {
      StepKeepsRequestsWellFormed(v, events[0]);
      RunKeepsRequestsWellFormed(Step(v, events[0]), events[1..]);
    }
  }

  /** A new query replaces a scheduled one: when the timer fires only the
      latest query is sent, once. */
  lemma LatestQueryWins(v: View, q1: string, q2: string)
    requires q1 != v.query && q2 != q1
    requires Validate(q1) == Search && Validate(q2) == Search
    ensures FireTimer(ChangeQuery(ChangeQuery(v, q1), q2)).requests == v.requests + [Request(q2, SearchLimit)]
  {
  }

  /** `UsersPage`'s state, updated one event at a time. */
  class SearchPage {
    var query: string
    var results: seq<UserResult>
    var loading: bool
    var error: string
    var pending: Option<string>
    var inFlight: seq<string>
    var requests: seq<Request>

    function Snapshot(): View
      reads this
    {
      View(query, results, loading, error, pending, inFlight, requests)
    }

    predicate Valid()
      reads this
    {
      SpinnerJustified(Snapshot()) && RequestsWellFormed(Snapshot())
    }

    constructor ()
      ensures Snapshot() == Initial && Valid()
    {
      query := "";
      results := [];
      loading := false;
      error := "";
      pending := None;
      inFlight := [];
      requests := [];
    }

    method SetQuery(q: string)
      requires Valid()
      modifies this
      ensures Snapshot() == ChangeQuery(old(Snapshot()), q) && Valid()
    {
      if q == query {
        return;
      }
      query := q;
      pending := None;
      var verdict := Validate(q);
      if verdict == Blank {
        results := [];
        error := "";
        loading := false;
      } else if verdict == TooShort {
        error := TooShortMessage;
        results := [];
        loading := false;
      } else {
        loading := true;
        error := "";
        pending := Some(q);
      }
    }

    method OnTimer()
      requires Valid()
      modifies this
      ensures Snapshot() == FireTimer(old(Snapshot())) && Valid()
    {
      if pending.Some? {
        var q := pending.value;
        pending := None;
        inFlight := inFlight + [q];
        requests := requests + [Request(q, SearchLimit)];
      }
    }

    method OnSettled(i: nat, outcome: Option<seq<UserResult>>)
      requires Valid()
      modifies this
      ensures Snapshot() == SettleRequest(old(Snapshot()), i, outcome) && Valid()
    {
      if i >= |inFlight| {
        return;
      }
      if outcome.Some? {
        results := outcome.value;
        if outcome.value == [] {
          error := NoUsersMessage;
        }
      } else {
        error := FailedMessage;
        results := [];
      }
      loading := false;
      inFlight := inFlight[..i] + inFlight[i + 1..];
    }
  }
}
