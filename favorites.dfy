/** The favourites screen: an ordered list of currency pairs that the user adds to and
    deletes from, persisted to `@AppStorage`, and a refresh (`fetchRates`) that asks the
    rate source for each pair's latest rate and then for the rate of the day before the
    latest response's date, counting settled requests in a counter local to the call. */
module Favorites {
  import opened Common

  /** A day number; a successful `toDate` parse of a "yyyy-MM-dd" string. */
  type Day = int

  /** A favourite pair. `id` is a fresh UUID minted each time a pair is built, and
      equality (the struct's synthesised `Hashable` conformance) compares all three
      fields, `id` included, just as this datatype's equality does. */
  datatype FavoritePair = FavoritePair(id: Uuid, base: string, target: string)

  /** The key both rate dictionaries use for a pair: "BASE_TARGET". */
  function Key(p: FavoritePair): (k: string)
    ensures |k| == |p.base| + 1 + |p.target|
    ensures k[..|p.base|] == p.base && k[|p.base|] == '_' && k[|p.base| + 1..] == p.target
  {
    p.base + "_" + p.target
  }

  /** For currency codes of one length (the three-letter ISO codes the pickers offer),
      two pairs share a dictionary key exactly when they name the same currencies, so
      same-currency pairs share their quotes and distinct currencies never collide. */
  lemma KeyIdentifiesCurrencies(p: FavoritePair, q: FavoritePair)
    requires |p.base| == |q.base|
    ensures Key(p) == Key(q) <==> SameCurrencies(p, q)
  {
    if Key(p) == Key(q) {
      assert p.base == Key(p)[..|p.base|] == Key(q)[..|q.base|] == q.base;
      assert p.target == Key(p)[|p.base| + 1..] == Key(q)[|q.base| + 1..] == q.target;
    }
  }

  // ---------------------------------------------------------------------------
  // The favourites list

  /** The Add button: a pair built with the fresh identifier `id` is appended when
      base and target differ and no element of the list is equal to it. */
  function AddPair(pairs: seq<FavoritePair>, base: string, target: string, id: Uuid): (r: seq<FavoritePair>)
    ensures pairs <= r && |r| <= |pairs| + 1
    ensures |r| == |pairs| + 1 <==> base != target && FavoritePair(id, base, target) !in pairs
    ensures |r| == |pairs| + 1 ==> r[|pairs|] == FavoritePair(id, base, target)
  {
    var pair := FavoritePair(id, base, target);
    if base != target && pair !in pairs then pairs + [pair] else pairs
  }

  /** Whether two pairs name the same currencies, whatever their identifiers. */
  predicate SameCurrencies(p: FavoritePair, q: FavoritePair) {
    p.base == q.base && p.target == q.target
  }

  /** Because the identifier is fresh, the `contains` check never finds the new pair:
      Add appends whenever base and target differ, even when the list already holds
      a pair with the same currencies. */
  lemma FreshPairIsAlwaysAppended(pairs: seq<FavoritePair>, base: string, target: string, id: Uuid)
    requires base != target
    requires forall k :: 0 <= k < |pairs| ==> pairs[k].id != id
    ensures AddPair(pairs, base, target, id) == pairs + [FavoritePair(id, base, target)]
  {
  }

  /** A concrete list where Add leaves two pairs with the same currencies side by side. */
  lemma StructuralDuplicateIsKept()
    ensures var pairs := AddPair([FavoritePair(1, "USD", "JPY")], "USD", "JPY", 2);
            |pairs| == 2 && SameCurrencies(pairs[0], pairs[1]) && pairs[0] != pairs[1]
  {
    FreshPairIsAlwaysAppended([FavoritePair(1, "USD", "JPY")], "USD", "JPY", 2);
  }

  /** `Array.firstIndex(of:)`. */
  function FirstIndex(s: seq<FavoritePair>, x: FavoritePair): (r: Option<nat>)
    ensures r.None? <==> x !in s
    ensures r.Some? ==> r.value < |s| && s[r.value] == x && x !in s[..r.value]
  {
    if s == [] then None
    else if s[0] == x then Some(0)
    else match FirstIndex(s[1..], x)
      case None => None
      case Some(k) =>
        assert s[..k + 1] == [s[0]] + s[1..][..k];
        Some(k + 1)
  }

  /** `Array.remove(atOffsets:)`: the elements whose index is not an offset, in order. */
  function RemoveOffsets(s: seq<FavoritePair>, offsets: set<nat>): (r: seq<FavoritePair>)
    ensures |r| <= |s|
    decreases |s|
  {
    if s == [] then []
    else
      var last := |s| - 1;
      RemoveOffsets(s[..last], offsets) + (if last in offsets then [] else [s[last]])
  }

  /** Offsets beyond the end remove nothing. */
  lemma {:induction false} RemoveOffsetsBeyondEnd(s: seq<FavoritePair>, offsets: set<nat>)
    requires forall i :: i in offsets ==> i >= |s|
    ensures RemoveOffsets(s, offsets) == s
    decreases |s|
  {
    if s != [] {
      var last := |s| - 1;
      RemoveOffsetsBeyondEnd(s[..last], offsets);
      assert s[..last] + [s[last]] == s;
    }
  }

  /** Removing the single offset `k` removes exactly the element at `k`. */
  lemma {:induction false} RemoveSingleOffset(s: seq<FavoritePair>, k: nat)
    requires k < |s|
    ensures RemoveOffsets(s, {k}) == s[..k] + s[k + 1..]
    decreases |s|
  {
    var last := |s| - 1;
    var front := s[..last];
    if k == last {
      RemoveOffsetsBeyondEnd(front, {k});
    } else {
      RemoveSingleOffset(front, k);
      assert front[..k] == s[..k];
      assert front[k + 1..] + [s[last]] == s[k + 1..];
    }
  }

  /** The swipe-to-delete action: find the first index equal to `pair` and remove the
      element there; a pair that is not in the list leaves it unchanged. */
  function DeletePair(pairs: seq<FavoritePair>, pair: FavoritePair): (r: seq<FavoritePair>)
    ensures pair !in pairs ==> r == pairs
    ensures pair in pairs ==>
      var k := FirstIndex(pairs, pair).value;
      r == pairs[..k] + pairs[k + 1..] && pair !in pairs[..k]
    ensures pair in pairs ==> |r| == |pairs| - 1 && multiset(r) == multiset(pairs) - multiset{pair}
  {
    match FirstIndex(pairs, pair)
    case None => pairs
    case Some(k) =>
      RemoveSingleOffset(pairs, k);
      assert pairs == pairs[..k] + [pairs[k]] + pairs[k + 1..];
      RemoveOffsets(pairs, {k})
  }

  // ---------------------------------------------------------------------------
  // One refresh: the shared rate dictionaries and the per-call counter

  /** A rate and the date string the rate source reported with it. */
  datatype Quote = Quote(rate: real, date: string)

  /** The decoded `ExchangeRateResponseWithDate` (its `amount` and `base` are unused). */
  datatype DatedRates = DatedRates(date: string, rates: RateTable)

  /** The screen state every refresh writes: `latestRates`, `previousRates`, `isLoading`. */
  datatype Board = Board(latestRates: map<string, Quote>, previousRates: map<string, Quote>, isLoading: bool)

  /** One call of `fetchRates`: the pairs it iterated (a copy, as Swift arrays are
      values), its `totalRequests`, its own `completedRequests`, and which of its
      requests are in flight: the latest-rate request of each index in
      `awaitingLatest`, the previous-day request of each index in `awaitingPrevious`
      (with the day it asks for). */
  datatype Pass = Pass(
    pairs: seq<FavoritePair>,
    total: nat,
    completed: nat,
    awaitingLatest: set<nat>,
    awaitingPrevious: map<nat, Day>)

  /** A completion handler's main-queue block running for the pair at `index`. */
  datatype Event =
    | LatestSettled(index: nat, result: Fetch<DatedRates>)
    | PreviousSettled(index: nat, result: Fetch<DatedRates>)

  /** Both states together, as one event sees them. */
  datatype Progress = Progress(board: Board, pass: Pass)

  /** The quote a response yields for `target`: it needs data, a decode, and the
      target among the rates. */
  function QuoteFor(result: Fetch<DatedRates>, target: string): (q: Option<Quote>)
    ensures q.Some? <==> result.Decoded? && target in result.body.rates
    ensures q.Some? ==> q.value == Quote(result.body.rates[target], result.body.date)
  {
    match result
    case Decoded(body) => if target in body.rates then Some(Quote(body.rates[target], body.date)) else None
    case _ => None
  }

  /** `set i | 0 <= i < n`, the indices of a list of length `n`. */
  function Indices(n: nat): (s: set<nat>)
    ensures |s| == n
    ensures forall i: nat :: i in s <==> i < n
  {
    if n == 0 then {}
    else Indices(n - 1) + {n - 1}
  }

  /** What `fetchRates` does before any response arrives: it raises the loading flag,
      empties both dictionaries, fixes the total at twice the number of pairs, starts a
      fresh counter at zero, and issues one latest-rate request per pair. */
  function BeginFetch(pairs: seq<FavoritePair>): (r: Progress)
    ensures r.board == Board(map[], map[], true)
    ensures r.pass.pairs == pairs && r.pass.total == 2 * |pairs| && r.pass.completed == 0
    ensures r.pass.awaitingPrevious == map[]
    ensures forall i: nat :: i in r.pass.awaitingLatest <==> i < |pairs|
  {
    Progress(Board(map[], map[], true), Pass(pairs, 2 * |pairs|, 0, Indices(|pairs|), map[]))
  }

  /** An event can run only for a request that is in flight. */
  predicate Enabled(pass: Pass, e: Event) {
    e.index < |pass.pairs| &&
    match e
    case LatestSettled(i, _) => i in pass.awaitingLatest
    case PreviousSettled(i, _) => i in pass.awaitingPrevious
  }

  /** One completion block on the main queue. A latest success records the quote and
      counts 1 without comparing with the total; if its date parses, the request for the
      day before is issued. A latest failure counts 2 and clears the flag at the total.
      A previous completion counts 1, records the quote only on success, and clears the
      flag at the total. */
  function Settle(s: Progress, e: Event, toDate: string -> Option<Day>): (r: Progress)
    requires Enabled(s.pass, e)
    ensures r.pass.pairs == s.pass.pairs && r.pass.total == s.pass.total
    ensures r.pass.completed > s.pass.completed
  {
    var pass := s.pass;
    var board := s.board;
    var pair := pass.pairs[e.index];
    var key := Key(pair);
    match e
    case LatestSettled(i, result) =>
      var rest := pass.(awaitingLatest := pass.awaitingLatest - {i});
      (match QuoteFor(result, pair.target)
       case Some(q) =>
         var b := board.(latestRates := board.latestRates[key := q]);
         var p := rest.(completed := pass.completed + 1);
         (match toDate(q.date)
          case Some(day) => Progress(b, p.(awaitingPrevious := pass.awaitingPrevious[i := day - 1]))
          case None => Progress(b, p))
       case None =>
         var c := pass.completed + 2;
         Progress(board.(isLoading := board.isLoading && c != pass.total), rest.(completed := c)))
    case PreviousSettled(i, result) =>
      var c := pass.completed + 1;
      var rest := pass.(awaitingPrevious := pass.awaitingPrevious - {i}, completed := c);
      var b := match QuoteFor(result, pair.target)
        case Some(q) => board.(previousRates := board.previousRates[key := q])
        case None => board;
      Progress(b.(isLoading := b.isLoading && c != pass.total), rest)
  }

  /** Running the events in order from `s`; `None` when some event's request is not in
      flight at that point (such a trace cannot happen). */
  function Replay(s: Progress, events: seq<Event>, toDate: string -> Option<Day>): (r: Option<Progress>)
    decreases |events|
  {
    if events == [] then Some(s)
    else
      var last := events[|events| - 1];
      match Replay(s, events[..|events| - 1], toDate)
      case None => None
      case Some(t) => if Enabled(t.pass, last) then Some(Settle(t, last, toDate)) else None
  }

  // ---------------------------------------------------------------------------
  // Accounting

  /** How much the counter still owes for the requests in flight: 2 for a latest
      request (itself and the previous-day request it would issue), 1 for a
      previous-day request. */
  function Owed(p: Pass): nat {
    2 * |p.awaitingLatest| + |p.awaitingPrevious.Keys|
  }

  /** The requests in flight belong to the call's pairs, no index has both of its
      requests in flight, and the counter plus what is owed stays within the total. */
  predicate Consistent(p: Pass) {
    && (forall i :: i in p.awaitingLatest ==> i < |p.pairs|)
    && (forall i :: i in p.awaitingPrevious ==> i < |p.pairs|)
    && p.awaitingLatest !! p.awaitingPrevious.Keys
    && p.completed + Owed(p) <= p.total
  }

  /** A latest success whose date does not parse: it counts 1 and issues nothing, so the
      unit it would have counted for the previous-day request is never counted. */
  predicate Strands(pairs: seq<FavoritePair>, e: Event, toDate: string -> Option<Day>) {
    e.LatestSettled? && e.index < |pairs| &&
    match QuoteFor(e.result, pairs[e.index].target)
    case Some(q) => toDate(q.date).None?
    case None => false
  }

  function StrandCount(pairs: seq<FavoritePair>, events: seq<Event>, toDate: string -> Option<Day>): nat
    decreases |events|
  {
    if events == [] then 0
    else StrandCount(pairs, events[..|events| - 1], toDate)
         + (if Strands(pairs, events[|events| - 1], toDate) then 1 else 0)
  }

  /** The flag is raised, or the counter has reached the total. */
  predicate FlagAgrees(s: Progress) {
    s.board.isLoading || s.pass.completed == s.pass.total
  }

  /** One event keeps the pass consistent; the counter's growth equals the drop in what
      is owed, less one unit when the event strands; and the flag is cleared exactly when
      the event is a checking one (every kind but a latest success) and the counter
      lands on the total. */
  lemma SettleAccounting(s: Progress, e: Event, toDate: string -> Option<Day>)
    requires Consistent(s.pass) && Enabled(s.pass, e)
    ensures var r := Settle(s, e, toDate);
      && Consistent(r.pass)
      && r.pass.completed + Owed(r.pass) + (if Strands(s.pass.pairs, e, toDate) then 1 else 0)
         == s.pass.completed + Owed(s.pass)
      && r.board.isLoading == (s.board.isLoading && !(Checks(s.pass, e) && r.pass.completed == r.pass.total))
      && (FlagAgrees(s) ==> FlagAgrees(r))
  {
    var p := s.pass;
    var i := e.index;
    var r := Settle(s, e, toDate);
    match e
    case LatestSettled(_, result) => {
      assert |p.awaitingLatest - {i}| == |p.awaitingLatest| - 1;
      match QuoteFor(result, p.pairs[i].target)
      case Some(q) => {
        if toDate(q.date).Some? {
          assert i !in p.awaitingPrevious;
          assert r.pass.awaitingPrevious.Keys == p.awaitingPrevious.Keys + {i};
        }
      }
      case None => {}
    }
    case PreviousSettled(_, _) =>
      assert r.pass.awaitingPrevious.Keys == p.awaitingPrevious.Keys - {i};
  }

  /** What one completion block writes. A latest event never touches `previousRates`:
      on success it records its quote under the pair's key, counts 1, leaves the flag
      alone and, when the date parses, puts the day before in flight; on failure it
      writes neither dictionary and counts 2. A previous event never touches
      `latestRates`: it records its quote only on success and counts 1 either way. */
  lemma SettleEffects(s: Progress, e: Event, toDate: string -> Option<Day>)
    requires Enabled(s.pass, e)
    ensures var r := Settle(s, e, toDate);
      var i := e.index;
      var key := Key(s.pass.pairs[i]);
      var q := QuoteFor(e.result, s.pass.pairs[i].target);
      && (e.LatestSettled? ==>
            && r.board.previousRates == s.board.previousRates
            && r.pass.awaitingLatest == s.pass.awaitingLatest - {i}
            && (q.Some? ==>
                  && r.board.latestRates == s.board.latestRates[key := q.value]
                  && r.pass.completed == s.pass.completed + 1
                  && r.board.isLoading == s.board.isLoading
                  && r.pass.awaitingPrevious ==
                       (if toDate(q.value.date).Some?
                        then s.pass.awaitingPrevious[i := toDate(q.value.date).value - 1]
                        else s.pass.awaitingPrevious))
            && (q.None? ==>
                  && r.board.latestRates == s.board.latestRates
                  && r.pass.completed == s.pass.completed + 2
                  && r.pass.awaitingPrevious == s.pass.awaitingPrevious))
      && (e.PreviousSettled? ==>
            && r.board.latestRates == s.board.latestRates
            && r.board.previousRates ==
                 (if q.Some? then s.board.previousRates[key := q.value] else s.board.previousRates)
            && r.pass.completed == s.pass.completed + 1
            && r.pass.awaitingLatest == s.pass.awaitingLatest
            && r.pass.awaitingPrevious == s.pass.awaitingPrevious - {i})
  {
  }

  /** Whether an event's handler compares the counter with the total: all but a
      latest success do. */
  predicate Checks(pass: Pass, e: Event)
    requires e.index < |pass.pairs|
  {
    !(e.LatestSettled? && QuoteFor(e.result, pass.pairs[e.index].target).Some?)
  }

  /** Along any possible trace: the pass stays consistent, keeps its pairs and total,
      and counter + owed + stranded units is conserved; the flag agrees with the counter. */
  lemma {:induction false} ReplayAccounting(s: Progress, events: seq<Event>, toDate: string -> Option<Day>)
    requires Consistent(s.pass) && FlagAgrees(s)
    requires Replay(s, events, toDate).Some?
    ensures var r := Replay(s, events, toDate).value;
      && Consistent(r.pass) && FlagAgrees(r)
      && r.pass.pairs == s.pass.pairs && r.pass.total == s.pass.total
      && r.pass.completed + Owed(r.pass) + StrandCount(s.pass.pairs, events, toDate)
         == s.pass.completed + Owed(s.pass)
    decreases |events|
  {
    if events != [] {
      var prefix := events[..|events| - 1];
      ReplayAccounting(s, prefix, toDate);
      SettleAccounting(Replay(s, prefix, toDate).value, events[|events| - 1], toDate);
    }
  }

  /** The accounting of a whole refresh: the counter plus what is still owed plus the
      stranded units is always twice the number of pairs, so the counter never exceeds
      the total. */
  lemma CounterNeverExceedsTotal(pairs: seq<FavoritePair>, events: seq<Event>, toDate: string -> Option<Day>)
    requires Replay(BeginFetch(pairs), events, toDate).Some?
    ensures var r := Replay(BeginFetch(pairs), events, toDate).value;
      && r.pass.completed + Owed(r.pass) + StrandCount(pairs, events, toDate) == 2 * |pairs|
      && r.pass.completed <= r.pass.total == 2 * |pairs|
  {
    BeginFetchConsistent(pairs);
    ReplayAccounting(BeginFetch(pairs), events, toDate);
  }

  /** Every prefix of a possible trace is itself possible. */
  lemma {:induction false} ReplayPrefix(s: Progress, events: seq<Event>, k: nat, toDate: string -> Option<Day>)
    requires Replay(s, events, toDate).Some? && k <= |events|
    ensures Replay(s, events[..k], toDate).Some?
    decreases |events|
  {
    if k < |events| {
      assert events[..|events| - 1][..k] == events[..k];
      ReplayPrefix(s, events[..|events| - 1], k, toDate);
    } else {
      assert events[..k] == events;
    }
  }

  /** A fresh refresh is consistent, its flag agrees, and it owes twice its pairs. */
  lemma BeginFetchConsistent(pairs: seq<FavoritePair>)
    ensures var s := BeginFetch(pairs);
      Consistent(s.pass) && FlagAgrees(s) && Owed(s.pass) == 2 * |pairs|
  {
    assert BeginFetch(pairs).pass.awaitingLatest == Indices(|pairs|);
  }

  /** The state before the `k`-th event of a possible trace is reachable, and that event
      is enabled there. */
  lemma ReplayStep(s: Progress, events: seq<Event>, k: nat, toDate: string -> Option<Day>)
    requires Replay(s, events, toDate).Some? && k < |events|
    ensures Replay(s, events[..k], toDate).Some?
    ensures Enabled(Replay(s, events[..k], toDate).value.pass, events[k])
  {
    ReplayPrefix(s, events, k + 1, toDate);
    var pre := events[..k + 1];
    assert pre[..|pre| - 1] == events[..k];
    assert pre[|pre| - 1] == events[k];
  }

  /** An enabled event means something is still owed. */
  lemma EnabledMeansOwed(p: Pass, e: Event)
    requires Enabled(p, e)
    ensures Owed(p) > 0
  {
    match e
    case LatestSettled(i, _) => assert i in p.awaitingLatest;
    case PreviousSettled(i, _) => assert i in p.awaitingPrevious.Keys;
  }

  /** While some request of the call is still in flight, the flag is raised: before
      every event of a trace, `isLoading` is true. */
  lemma LoadingBeforeEveryEvent(pairs: seq<FavoritePair>, events: seq<Event>, k: nat, toDate: string -> Option<Day>)
    requires Replay(BeginFetch(pairs), events, toDate).Some? && k < |events|
    ensures Replay(BeginFetch(pairs), events[..k], toDate).Some?
    ensures Replay(BeginFetch(pairs), events[..k], toDate).value.board.isLoading
  {
    var s := BeginFetch(pairs);
    BeginFetchConsistent(pairs);
    ReplayStep(s, events, k, toDate);
    ReplayAccounting(s, events[..k], toDate);
    EnabledMeansOwed(Replay(s, events[..k], toDate).value.pass, events[k]);
  }

  /** When every latest date parses and every request has settled, the flag is down at
      the end of a refresh of at least one pair; with `LoadingBeforeEveryEvent`, it is
      cleared exactly at the last settlement. */
  lemma LoadingClearsAtLastSettlement(pairs: seq<FavoritePair>, events: seq<Event>, toDate: string -> Option<Day>)
    requires |pairs| > 0
    requires Replay(BeginFetch(pairs), events, toDate).Some?
    requires StrandCount(pairs, events, toDate) == 0
    requires Owed(Replay(BeginFetch(pairs), events, toDate).value.pass) == 0
    ensures events != []
    ensures var r := Replay(BeginFetch(pairs), events, toDate).value;
      !r.board.isLoading && r.pass.completed == r.pass.total
  {
    var s := BeginFetch(pairs);
    BeginFetchConsistent(pairs);
    CounterNeverExceedsTotal(pairs, events, toDate);
    var prefix := events[..|events| - 1];
    var last := events[|events| - 1];
    var t := Replay(s, prefix, toDate).value;
    ReplayAccounting(s, prefix, toDate);
    SettleAccounting(t, last, toDate);
    LoadingBeforeEveryEvent(pairs, events, |events| - 1, toDate);
  }

  /** A latest success whose date fails to parse hangs the refresh: the counter stays
      below the total and `isLoading` stays true, whatever else settles. */
  lemma UnparseableDateHangs(pairs: seq<FavoritePair>, events: seq<Event>, toDate: string -> Option<Day>)
    requires Replay(BeginFetch(pairs), events, toDate).Some?
    requires StrandCount(pairs, events, toDate) > 0
    ensures var r := Replay(BeginFetch(pairs), events, toDate).value;
      r.pass.completed < r.pass.total && r.board.isLoading
  {
    BeginFetchConsistent(pairs);
    ReplayAccounting(BeginFetch(pairs), events, toDate);
  }

  /** With no pairs nothing is requested, so no event can happen and the flag that
      `fetchRates` raised is never cleared. */
  lemma NoPairsNoSettlement(events: seq<Event>, toDate: string -> Option<Day>)
    requires events != []
    ensures BeginFetch([]).board.isLoading
    ensures Replay(BeginFetch([]), events, toDate).None?
  {
    var s := BeginFetch([]);
    if Replay(s, events, toDate).Some? {
      ReplayPrefix(s, events, 1, toDate);
      assert Replay(s, events[..1], toDate).Some?;
      assert events[..1][..0] == [];
      assert !Enabled(s.pass, events[0]);
    }
  }

  /** A latest success whose date parses to `day` issues the previous request for
      `day - 1`: the day before the response's date, not before today. */
  lemma PreviousRequestIsForDayBefore(s: Progress, i: nat, body: DatedRates, toDate: string -> Option<Day>, day: Day)
    requires Enabled(s.pass, LatestSettled(i, Decoded(body)))
    requires s.pass.pairs[i].target in body.rates
    requires toDate(body.date) == Some(day)
    ensures var r := Settle(s, LatestSettled(i, Decoded(body)), toDate);
      r.pass.awaitingPrevious == s.pass.awaitingPrevious[i := day - 1]
      && i !in r.pass.awaitingLatest
      && r.board.latestRates[Key(s.pass.pairs[i])] == Quote(body.rates[s.pass.pairs[i].target], body.date)
  {
  }

  /** The counter is local to each call but the dictionaries and the flag are shared:
      a call whose responses arrive after a newer call has started can clear the newer
      call's flag while all four of the newer call's requests are still in flight. */
  lemma StaleCallClearsNewerFlag(toDate: string -> Option<Day>)
    ensures
      var usd := FavoritePair(1, "USD", "JPY");
      var eur := FavoritePair(2, "EUR", "JPY");
      var older := BeginFetch([usd]);
      var newer := BeginFetch([usd, eur]);
      var late := Settle(Progress(newer.board, older.pass), LatestSettled(0, NoData), toDate);
      late.pass.completed == late.pass.total && !late.board.isLoading
      && Owed(newer.pass) == 4
  {
    var newer := BeginFetch([FavoritePair(1, "USD", "JPY"), FavoritePair(2, "EUR", "JPY")]);
    assert newer.pass.awaitingLatest == {0, 1};
  }

  // ---------------------------------------------------------------------------
  // What the screen shows

  /** A listed pair with both of its quotes (the change is `latest.rate - previous.rate`). */
  datatype Row = Row(pair: FavoritePair, latest: Quote, previous: Quote)

  datatype Screen = Placeholder | Spinner | Rows(rows: seq<Row>)

  /** The list's rows: the pairs, in order, whose key is in both dictionaries. */
  function RowsOf(pairs: seq<FavoritePair>, board: Board): (r: seq<Row>)
    ensures |r| <= |pairs|
    ensures forall row :: row in r ==>
      && row.pair in pairs
      && Key(row.pair) in board.latestRates && row.latest == board.latestRates[Key(row.pair)]
      && Key(row.pair) in board.previousRates && row.previous == board.previousRates[Key(row.pair)]
    ensures forall p :: p in pairs && Key(p) in board.latestRates && Key(p) in board.previousRates ==>
      Row(p, board.latestRates[Key(p)], board.previousRates[Key(p)]) in r
    decreases |pairs|
  {
    if pairs == [] then []
    else
      var p := pairs[0];
      var rest := RowsOf(pairs[1..], board);
      assert pairs == [p] + pairs[1..];
      if Key(p) in board.latestRates && Key(p) in board.previousRates
      then [Row(p, board.latestRates[Key(p)], board.previousRates[Key(p)])] + rest
      else rest
  }

  /** `ForEach(favoritePairs)` draws the rows in list order: the rows of a concatenation
      are the rows of its first part followed by those of its second. */
  lemma {:induction false} RowsOfAppend(front: seq<FavoritePair>, back: seq<FavoritePair>, board: Board)
    ensures RowsOf(front + back, board) == RowsOf(front, board) + RowsOf(back, board)
    decreases |front|
  {
    if front == [] {
      assert front + back == back;
    } else {
      RowsOfAppend(front[1..], back, board);
      assert (front + back)[1..] == front[1..] + back;
    }
  }

  /** One pair gives one row, carrying its two quotes, when its key is in both
      dictionaries, and no row otherwise. */
  lemma RowsOfSingle(p: FavoritePair, board: Board)
    ensures RowsOf([p], board) ==
      if Key(p) in board.latestRates && Key(p) in board.previousRates
      then [Row(p, board.latestRates[Key(p)], board.previousRates[Key(p)])]
      else []
  {
    assert [p][1..] == [];
  }

  /** The body of the screen: the placeholder when there are no pairs (whatever the
      flag), a spinner while loading, else the rows. */
  function Render(pairs: seq<FavoritePair>, board: Board): (r: Screen)
    ensures r.Placeholder? <==> pairs == []
    ensures r.Spinner? <==> pairs != [] && board.isLoading
    ensures r.Rows? ==> r.rows == RowsOf(pairs, board)
  {
    if pairs == [] then Placeholder
    else if board.isLoading then Spinner
    else Rows(RowsOf(pairs, board))
  }

  // ---------------------------------------------------------------------------
  // The screen object

  /** One call's counter and the requests it has in flight; the handlers of that call
      capture it, so each call of `fetchRates` gets a fresh one. */
  class RequestCounter {
    const pairs: seq<FavoritePair>
    const totalRequests: nat
    var completedRequests: nat
    var awaitingLatest: set<nat>
    var awaitingPrevious: map<nat, Day>

    function State(): Pass
      reads this
    {
      Pass(pairs, totalRequests, completedRequests, awaitingLatest, awaitingPrevious)
    }

    constructor (pairs: seq<FavoritePair>, issued: set<nat>)
      ensures State() == Pass(pairs, 2 * |pairs|, 0, issued, map[])
    {
      this.pairs := pairs;
      totalRequests := |pairs| * 2;
      completedRequests := 0;
      awaitingLatest := issued;
      awaitingPrevious := map[];
    }
  }

  class FavoriteRatesView {
    var favoritePairsData: Stored<seq<FavoritePair>>
    var favoritePairs: seq<FavoritePair>
    var latestRates: map<string, Quote>
    var previousRates: map<string, Quote>
    var isLoading: bool

    function Snapshot(): Board
      reads this
    {
      Board(latestRates, previousRates, isLoading)
    }

    /** The state when the view is created: the `@AppStorage` slot holds whatever a
        previous launch stored (`Unreadable` on first launch), and nothing else is set. */
    constructor (stored: Stored<seq<FavoritePair>>)
      ensures favoritePairsData == stored && favoritePairs == []
      ensures Snapshot() == Board(map[], map[], false)
    {
      favoritePairsData := stored;
      favoritePairs := [];
      latestRates := map[];
      previousRates := map[];
      isLoading := false;
    }

    /** `saveFavorites`: the list is encoded into the storage slot. */
    method SaveFavorites()
      modifies this`favoritePairsData
      ensures favoritePairsData == Encoded(favoritePairs)
    {
      favoritePairsData := Encoded(favoritePairs);
    }

    /** `loadFavorites`: the stored list replaces the current one when it decodes;
        otherwise the current list is kept. */
    method LoadFavorites()
      modifies this`favoritePairs
      ensures favoritePairs == (if favoritePairsData.Encoded? then favoritePairsData.value else old(favoritePairs))
    {
      if favoritePairsData.Encoded? {
        favoritePairs := favoritePairsData.value;
      }
    }

    /** `fetchRates` up to the point where the requests are in flight: the loop issues
        one latest-rate request per pair and returns the call's fresh counter. */
    method FetchRates() returns (counter: RequestCounter)
      modifies this`latestRates, this`previousRates, this`isLoading
      ensures fresh(counter)
      ensures Progress(Snapshot(), counter.State()) == BeginFetch(favoritePairs)
    {
      isLoading := true;
      latestRates := map[];
      previousRates := map[];
      var issued: set<nat> := {};
      for i := 0 to |favoritePairs|
        invariant forall j: nat :: j in issued <==> j < i
      {
        issued := issued + {i};
      }
      assert issued == Indices(|favoritePairs|);
      counter := new RequestCounter(favoritePairs, issued);
    }

    /** The Add button. A pair is built with the fresh identifier `id`; when it is
        appended, the list is saved and a refresh starts (its counter is returned). */
    method Add(selectedBase: string, selectedTarget: string, id: Uuid) returns (counter: RequestCounter?)
      modifies this
      ensures favoritePairs == AddPair(old(favoritePairs), selectedBase, selectedTarget, id)
      ensures (counter != null) == (favoritePairs != old(favoritePairs))
      ensures counter == null ==> unchanged(this)
      ensures counter != null ==>
        && fresh(counter) && favoritePairsData == Encoded(favoritePairs)
        && Progress(Snapshot(), counter.State()) == BeginFetch(favoritePairs)
    {
      counter := null;
      if selectedBase != selectedTarget {
        var pair := FavoritePair(id, selectedBase, selectedTarget);
        if pair !in favoritePairs {
          favoritePairs := favoritePairs + [pair];
          SaveFavorites();
          counter := FetchRates();
        }
      }
    }

    /** `deletePairs(at:)`: removes the offsets, saves, and starts a refresh. */
    method DeletePairs(offsets: set<nat>) returns (counter: RequestCounter)
      requires forall i :: i in offsets ==> i < |favoritePairs|
      modifies this
      ensures favoritePairs == RemoveOffsets(old(favoritePairs), offsets)
      ensures favoritePairsData == Encoded(favoritePairs)
      ensures fresh(counter) && Progress(Snapshot(), counter.State()) == BeginFetch(favoritePairs)
    {
      favoritePairs := RemoveOffsets(favoritePairs, offsets);
      SaveFavorites();
      counter := FetchRates();
    }

    /** The swipe action on a row: deletes at the first index equal to `pair`, if any. */
    method SwipeDelete(pair: FavoritePair) returns (counter: RequestCounter?)
      modifies this
      ensures favoritePairs == DeletePair(old(favoritePairs), pair)
      ensures (counter == null) == (pair !in old(favoritePairs))
      ensures counter == null ==> unchanged(this)
      ensures counter != null ==>
        && fresh(counter) && favoritePairsData == Encoded(favoritePairs)
        && Progress(Snapshot(), counter.State()) == BeginFetch(favoritePairs)
    {
      counter := null;
      var index := FirstIndex(favoritePairs, pair);
      if index.Some? {
        RemoveSingleOffset(favoritePairs, index.value);
        counter := DeletePairs({index.value});
      }
    }

    /** The latest-rate request's completion for the pair at `i`, as its main-queue
        block runs: a success records the quote and counts 1, and issues the request
        for the day before when the date parses; a failure counts 2 and lowers the
        flag when the counter reaches the total. */
    method LatestCompleted(counter: RequestCounter, i: nat, result: Fetch<DatedRates>, toDate: string -> Option<Day>)
      requires Enabled(counter.State(), LatestSettled(i, result))
      modifies this`latestRates, this`isLoading, counter
      ensures Progress(Snapshot(), counter.State())
        == Settle(Progress(old(Snapshot()), old(counter.State())), LatestSettled(i, result), toDate)
    {
      var pair := counter.pairs[i];
      var key := Key(pair);
      counter.awaitingLatest := counter.awaitingLatest - {i};
      var latest := QuoteFor(result, pair.target);
      if latest.Some? {
        latestRates := latestRates[key := latest.value];
        counter.completedRequests := counter.completedRequests + 1;
        var latestDate := toDate(latest.value.date);
        if latestDate.Some? {
          counter.awaitingPrevious := counter.awaitingPrevious[i := latestDate.value - 1];
        }
      } else {
        counter.completedRequests := counter.completedRequests + 2;
        if counter.completedRequests == counter.totalRequests {
          isLoading := false;
        }
      }
    }

    /** The previous-day request's completion for the pair at `i`: a success records the
        quote; either way it counts 1 and lowers the flag when the counter reaches the
        total. */
    method PreviousCompleted(counter: RequestCounter, i: nat, result: Fetch<DatedRates>, toDate: string -> Option<Day>)
      requires Enabled(counter.State(), PreviousSettled(i, result))
      modifies this`previousRates, this`isLoading, counter
      ensures Progress(Snapshot(), counter.State())
        == Settle(Progress(old(Snapshot()), old(counter.State())), PreviousSettled(i, result), toDate)
    {
      var pair := counter.pairs[i];
      var key := Key(pair);
      counter.awaitingPrevious := counter.awaitingPrevious - {i};
      var previous := QuoteFor(result, pair.target);
      if previous.Some? {
        previousRates := previousRates[key := previous.value];
      }
      counter.completedRequests := counter.completedRequests + 1;
      if counter.completedRequests == counter.totalRequests {
        isLoading := false;
      }
    }
  }
}
