// The leaderboard page's view parameters (frontend/src/app/ranks/page.tsx):
// sort key, order, page, page size and minimum games. Every change to one of
// them makes the page's effect load the leaderboard again with the new
// parameters; those loads are recorded as `requests`.
module RanksView {
  import opened Wrappers
  import Text

  /** `SortOption`. */
  datatype SortOption = GamesWon | TotalScore | BestStreak | AverageScore | GamesPlayed {
    /** The `sort_by` value sent to `/leaderboard`. */
    function Wire(): (r: string)
      ensures r != []
    {
      match this
      case GamesWon => "games_won"
      case TotalScore => "total_score"
      case BestStreak => "best_streak"
      case AverageScore => "average_score"
      case GamesPlayed => "games_played"
    }
  }

  /** The five options have five different wire names, so the server can
      tell every choice apart. */
  lemma WireInjective(a: SortOption, b: SortOption)
    requires a != b
    ensures a.Wire() != b.Wire()
  {
    assert |a.Wire()| != |b.Wire()| || a.Wire()[0] != b.Wire()[0];
  }

  datatype Order = Asc | Desc

  /** The order button: `order === "desc" ? "asc" : "desc"`. */
  function Flip(o: Order): (r: Order)
    ensures r != o
  {
    if o == Desc then Asc else Desc
  }

  /** Pressing the order button twice restores the order. */
  lemma FlipInvolution(o: Order)
    ensures Flip(Flip(o)) == o
  {
  }

  /** The options of the "Results Per Page" select. */
  const PageSizes: set<int> := {10, 20, 50, 100}

  /** "Previous": `Math.max(1, page - 1)`. */
  function PrevPage(page: int): (r: int)
    ensures r >= 1
    ensures page >= 2 ==> r == page - 1
    ensures page <= 2 ==> r == 1
  {
    if page - 1 > 1 then page - 1 else 1
  }

  /** "Next": `Math.min(total_pages, page + 1)`. With no pages at all it
      yields 0. */
  function NextPage(totalPages: nat, page: int): (r: int)
    ensures r <= totalPages
    ensures page < totalPages ==> r == page + 1
    ensures page >= totalPages ==> r == totalPages
  {
    if totalPages < page + 1 then totalPages else page + 1
  }

  /** Both buttons keep a page in `[1, totalPages]` inside that range, and
      neither moves it by more than one. */
  lemma PagingStaysInRange(totalPages: nat, page: int)
    requires 1 <= page <= totalPages
    ensures 1 <= PrevPage(page) <= totalPages && page - 1 <= PrevPage(page) <= page
    ensures 1 <= NextPage(totalPages, page) <= totalPages && page <= NextPage(totalPages, page) <= page + 1
  {
  }

  /** The length of the run of decimal digits at the start of `s`. */
  function DigitRun(s: string): (n: nat)
    ensures n <= |s|
    ensures forall i :: 0 <= i < n ==> Text.IsDigit(s[i])
    ensures n < |s| ==> !Text.IsDigit(s[n])
    decreases |s|
  {
    if s == [] || !Text.IsDigit(s[0]) then 0 else 1 + DigitRun(s[1..])
  }

  /** What `parseInt` reads digits from: `s` without its leading whitespace
      and without one leading sign. */
  function Unsigned(s: string): (r: string)
    ensures |r| <= |s|
  {
    var t := Text.TrimStart(s);
    if t != [] && (t[0] == '-' || t[0] == '+') then t[1..] else t
  }

  predicate IsNegative(s: string) {
    var t := Text.TrimStart(s);
    t != [] && t[0] == '-'
  }

  /** JavaScript's `parseInt(s)` on the text of a number input: leading
      whitespace, an optional sign, then the longest run of decimal digits;
      `NaN` (here `None`) when there are no digits. */
  function ParseInt(s: string): (r: Option<int>)
    ensures r.None? <==> Unsigned(s) == [] || !Text.IsDigit(Unsigned(s)[0])
    ensures r.Some? && !IsNegative(s) ==> r.value >= 0
  {
    var body := Unsigned(s);
    var n := DigitRun(body);
    if n == 0 then None
    else
      var digits := body[..n];
      assert forall i :: 0 <= i < |digits| ==> Text.IsDigit(digits[i]);
      var v: int := Text.DigitsValue(digits);
      Some(if IsNegative(s) then -v else v)
  }

  /** `parseInt(value) || 0`: `NaN` (and zero) become 0. */
  function ParseMinGames(value: string): (r: int)
    ensures ParseInt(value).None? ==> r == 0
    ensures ParseInt(value).Some? ==> r == ParseInt(value).value
  {
    match ParseInt(value)
    case Some(v) => if v == 0 then 0 else v
    case None => 0
  }

  lemma DigitRunAll(s: string)
    requires forall i :: 0 <= i < |s| ==> Text.IsDigit(s[i])
    ensures DigitRun(s) == |s|
  {
  }

  /** A plain string of digits is parsed as the number it denotes. */
  lemma ParseIntDigits(s: string)
    requires s != [] && forall i :: 0 <= i < |s| ==> Text.IsDigit(s[i])
    ensures ParseInt(s) == Some(Text.DigitsValue(s) as int)
  {
    UnsignedDigits(s);
    DigitRunAll(s);
    ParseIntWhole(s, s);
  }

  /** When the digits after the (absent) sign make up all of `body`, `parseInt`
      reads all of them. */
  lemma ParseIntWhole(s: string, body: string)
    requires Unsigned(s) == body && !IsNegative(s)
    requires body != [] && DigitRun(body) == |body|
    ensures ParseInt(s) == Some(Text.DigitsValue(body) as int)
  {
    assert body[..|body|] == body;
  }

  lemma UnsignedDigits(s: string)
    requires s != [] && Text.IsDigit(s[0])
    ensures Unsigned(s) == s && !IsNegative(s)
  {
    assert !Text.IsJsWhitespace(s[0]);
    assert Text.TrimStart(s) == s;
  }

  /** The general reading: leading whitespace, an optional sign, the digits
      `d`, and then anything that does not start with a digit. The result is
      the value of `d`, negated after a `-`. */
  lemma ParseIntReads(w: string, sign: string, d: string, rest: string)
    requires Text.IsBlank(w)
    requires sign == "" || sign == "-" || sign == "+"
    requires d != [] && forall i :: 0 <= i < |d| ==> Text.IsDigit(d[i])
    requires rest == [] || !Text.IsDigit(rest[0])
    ensures ParseInt(w + sign + d + rest) ==
      Some(if sign == "-" then -(Text.DigitsValue(d) as int) else Text.DigitsValue(d) as int)
  {
    var body := d + rest;
    Regroup(w, sign, d, rest);
    UnsignedPadded(w, sign, body);
    DigitRunPrefix(d, rest);
    ParseIntRun(w + (sign + body), body, d, sign == "-");
  }

  lemma Regroup(a: string, b: string, c: string, e: string)
    ensures a + b + c + e == a + (b + (c + e))
  {
  }

  /** Blank space and a sign in front of `body` are what `parseInt` skips. */
  lemma UnsignedPadded(w: string, sign: string, body: string)
    requires Text.IsBlank(w)
    requires sign == "" || sign == "-" || sign == "+"
    requires body != [] && Text.IsDigit(body[0])
    ensures Unsigned(w + (sign + body)) == body
    ensures IsNegative(w + (sign + body)) <==> sign == "-"
  {
    var t := sign + body;
    Text.TrimStartBlankPrefix(w, t);
    assert t[0] == (if sign == "" then body[0] else sign[0]);
    assert !Text.IsJsWhitespace(t[0]);
    assert Text.TrimStart(t) == t;
    SignedText(w + t, t);
    if sign == "" {
      assert t == body;
    } else {
      assert t[1..] == body;
    }
  }

  /** `Unsigned` and `IsNegative` look only at the text after the leading
      whitespace. */
  lemma SignedText(s: string, t: string)
    requires Text.TrimStart(s) == t
    ensures t != [] && (t[0] == '-' || t[0] == '+') ==> Unsigned(s) == t[1..]
    ensures t == [] || (t[0] != '-' && t[0] != '+') ==> Unsigned(s) == t
    ensures IsNegative(s) <==> t != [] && t[0] == '-'
  {
  }

  /** `parseInt` reads the digit run `d` at the start of the unsigned text. */
  lemma ParseIntRun(s: string, body: string, d: string, negative: bool)
    requires Unsigned(s) == body && IsNegative(s) == negative
    requires d != [] && |d| <= |body| && body[..|d|] == d && DigitRun(body) == |d|
    ensures ParseInt(s) == Some(if negative then -(Text.DigitsValue(d) as int) else Text.DigitsValue(d) as int)
  {
  }

  /** The digit run of `d + rest` is `d` when `rest` does not start with a digit. */
  lemma {:induction false} DigitRunPrefix(d: string, rest: string)
    requires forall i :: 0 <= i < |d| ==> Text.IsDigit(d[i])
    requires rest == [] || !Text.IsDigit(rest[0])
    ensures DigitRun(d + rest) == |d|
    decreases |d|
  {
    if d == [] {
      assert d + rest == rest;
    } else {
      assert (d + rest)[1..] == d[1..] + rest;
      DigitRunPrefix(d[1..], rest);
    }
  }

  /** What the number input shows for a count is parsed back to that count. */
  lemma ParseMinGamesRoundTrip(n: nat)
    ensures ParseMinGames(Text.NatToString(n)) == n
  {
    ParseIntDigits(Text.NatToString(n));
    Text.NatToStringRoundTrip(n);
  }

  /** A cleared input counts as no minimum. */
  lemma ParseMinGamesEmpty()
    ensures ParseMinGames("") == 0
  {
  }

  /** The parameters of a `/leaderboard` request. */
  datatype Query = Query(sortBy: SortOption, order: Order, page: int, pageSize: int, minGames: int)

  /** `RankPage`'s view state. */
  class RankView {
    var sortBy: SortOption
    var order: Order
    var page: int
    var pageSize: int
    var minGames: int
    var showFilters: bool
    /** Every leaderboard load the page has issued, oldest first. */
    var requests: seq<Query>

    function Params(): Query
      reads this
    {
      Query(sortBy, order, page, pageSize, minGames)
    }

    /** The page size is a select option, the page is not negative, and the
        last load was for the current parameters. */
    predicate Valid()
      reads this
    {
      pageSize in PageSizes && page >= 0 && requests != [] && requests[|requests| - 1] == Params()
    }

    /** The first render: `games_won`, `desc`, page 1 of size 20, no minimum,
        and the mount effect's load. */
    constructor ()
      ensures Params() == Query(GamesWon, Desc, 1, 20, 0) && !showFilters
      ensures requests == [Query(GamesWon, Desc, 1, 20, 0)]
      ensures Valid()
    {
      sortBy := GamesWon;
      order := Desc;
      page := 1;
      pageSize := 20;
      minGames := 0;
      showFilters := false;
      requests := [Query(GamesWon, Desc, 1, 20, 0)];
    }

    /** The effect on `[sortBy, order, page, pageSize, minGames]`: it runs
        (and loads) only when one of them changed since `before`. */
    method Reload(before: Query)
      modifies this
      ensures Params() == old(Params()) && showFilters == old(showFilters)
      ensures requests == if Params() == before then old(requests) else old(requests) + [Params()]
    {
      if Params() != before {
        requests := requests + [Params()];
      }
    }

    method SelectSort(option: SortOption)
      requires Valid()
      modifies this
      ensures Valid()
      ensures Params() == old(Params()).(sortBy := option) && showFilters == old(showFilters)
      ensures requests == if option == old(sortBy) then old(requests) else old(requests) + [Params()]
    {
      var before := Params();
      sortBy := option;
      Reload(before);
    }

    method ToggleOrder()
      requires Valid()
      modifies this
      ensures Valid()
      ensures Params() == old(Params()).(order := Flip(old(order))) && showFilters == old(showFilters)
      ensures requests == old(requests) + [Params()]
    {
      var before := Params();
      order := Flip(order);
      Reload(before);
    }

    /** The filter button, the backdrop, the close and "Apply Filters" buttons
        only show or hide the panel: nothing is loaded. */
    method SetShowFilters(show: bool)
      modifies this
      ensures Params() == old(Params()) && requests == old(requests) && showFilters == show
    {
      showFilters := show;
    }

    /** Editing "Minimum Games Played": the parsed value, and back to page 1. */
    method ChangeMinGames(value: string)
      requires Valid()
      modifies this
      ensures Valid()
      ensures Params() == old(Params()).(minGames := ParseMinGames(value), page := 1)
      ensures showFilters == old(showFilters)
      ensures requests == if Params() == old(Params()) then old(requests) else old(requests) + [Params()]
    {
      SetMinGames(ParseMinGames(value));
    }

    /** A new minimum, and back to page 1. */
    method SetMinGames(n: int)
      requires Valid()
      modifies this
      ensures Valid()
      ensures Params() == old(Params()).(minGames := n, page := 1)
      ensures showFilters == old(showFilters)
      ensures requests == if Params() == old(Params()) then old(requests) else old(requests) + [Params()]
    {
      var before := Params();
      minGames := n;
      page := 1;
      Reload(before);
    }

    /** Choosing "Results Per Page": the new size, and back to page 1. */
    method ChangePageSize(size: int)
      requires Valid() && size in PageSizes
      modifies this
      ensures Valid()
      ensures Params() == old(Params()).(pageSize := size, page := 1) && showFilters == old(showFilters)
      ensures requests == if Params() == old(Params()) then old(requests) else old(requests) + [Params()]
    {
      var before := Params();
      pageSize := size;
      page := 1;
      Reload(before);
    }

    /** "Reset Filters": no minimum, page 1; the sort and the page size stay. */
    method ResetFilters()
      requires Valid()
      modifies this
      ensures Valid()
      ensures Params() == old(Params()).(minGames := 0, page := 1) && showFilters == old(showFilters)
      ensures requests == if Params() == old(Params()) then old(requests) else old(requests) + [Params()]
    {
      var before := Params();
      minGames := 0;
      page := 1;
      Reload(before);
    }

    method PreviousPage()
      requires Valid()
      modifies this
      ensures Valid()
      ensures Params() == old(Params()).(page := PrevPage(old(page))) && showFilters == old(showFilters)
      ensures old(page) == 1 ==> requests == old(requests)
      ensures old(page) != 1 ==> requests == old(requests) + [Params()]
    {
      var before := Params();
      page := PrevPage(page);
      Reload(before);
    }

    /** "Next", against the `total_pages` of the response on screen. */
    method NextPageOf(totalPages: nat)
      requires Valid()
      modifies this
      ensures Valid()
      ensures Params() == old(Params()).(page := NextPage(totalPages, old(page))) && showFilters == old(showFilters)
      ensures old(page) == totalPages ==> requests == old(requests)
      ensures old(page) < totalPages ==> requests == old(requests) + [Params()]
      ensures old(page) > totalPages ==> requests == old(requests) + [Params()]
    {
      var before := Params();
      page := NextPage(totalPages, page);
      Reload(before);
    }
  }
}
