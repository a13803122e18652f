/** Provider failures over the last fifteen minutes, kept incrementally: one counter and one list of time stamps. */
module FailureWindow {
  import opened Options

  /** The saved state: the last counter and one time stamp for each failure still inside the window. */
  datatype Saved = Saved(counter: real, events: seq<real>)

  const WINDOW: real := 900.0
  const CAP: nat := 100

  // ------------------------------------------------------------ specification

  /** A smaller counter means that the process restarted and counts from zero again. */
  function Increase(current: real, last: real): real {
    if current >= last then current - last else current
  }

  /** How many time stamps an increase adds: whole failures, at most CAP of them. */
  function Stamps(current: real, last: real): nat {
    var increase := Increase(current, last);
    if increase < 0.0 then 0 else if increase.Floor > CAP then CAP else increase.Floor
  }

  /** The number of stamps is the whole part of what the counter grew by, a fallen counter having begun again at zero;
      it is at most one hundred, and none when the counter did not grow. */
  lemma StampsMean(current: real, last: real)
    ensures var grown, n := if current < last then current else current - last, Stamps(current, last);
      if grown < 1.0 then n == 0
      else if grown >= 100.0 then n == 100
      else n as real <= grown < (n + 1) as real
  {
  }

  function Copies(stamp: real, n: nat): seq<real> {
    seq(n, _ => stamp)
  }

  predicate IsRecent(stamp: real, now: real) {
    now - stamp < WINDOW
  }

  function Recent(events: seq<real>, now: real): seq<real> {
    if events == [] then []
    else
      var stamp := events[|events| - 1];
      Recent(events[..|events| - 1], now) + if IsRecent(stamp, now) then [stamp] else []
  }

  function Restored(file: Option<Saved>): Saved {
    if file.Some? then file.value else Saved(0.0, [])
  }

  function Scraped(file: Option<Saved>, current: real, now: real): Saved {
    var previous := Restored(file);
    Saved(current, Recent(previous.events, now) + Copies(now, Stamps(current, previous.counter)))
  }

  // ---------------------------------------------------------------- the window

  class ProviderFailureWindow {
    /** The state file; None when it is missing or cannot be read. */
    var file: Option<Saved>

    constructor ()
      ensures file == None
    {
      file := None;
    }

    /** The file is gone or damaged. */
    method Lose()
      modifies this
      ensures file == None
    {
      file := None;
    }

    method Scrape(current: real, now: real) returns (failures: nat)
      modifies this
      ensures file == Some(Scraped(old(file), current, now))
      ensures failures == |file.value.events|
    {
      var previous := Saved(0.0, []);
      if file.Some? {
        previous := file.value;
      }
      var delta := if current >= previous.counter then current - previous.counter else current;
      var events: seq<real> := [];
      for i := 0 to |previous.events|
        invariant events == Recent(previous.events[..i], now)
      {
        assert previous.events[..i + 1][..i] == previous.events[..i];
        if now - previous.events[i] < WINDOW {
          events := events + [previous.events[i]];
        }
      }
      assert previous.events[..|previous.events|] == previous.events;
      var occurrences := if delta < 0.0 then 0 else delta.Floor;
      events := events + seq(if occurrences > CAP then CAP else occurrences, _ => now);
      file := Some(Saved(current, events));
      failures := |events|;
    }
  }

  // ---------------------------------------------------------------------- runs

  /** One scrape of a run; the state file may have been lost just before it. */
  datatype Event = Event(counter: real, now: real, lost: bool)

  function After(run: seq<Event>): Option<Saved> {
    if run == [] then None
    else
      var event := run[|run| - 1];
      Some(Scraped(if event.lost then None else After(run[..|run| - 1]), event.counter, event.now))
  }

  function LastCounter(run: seq<Event>, i: nat): real
    requires i < |run|
  {
    if i == 0 || run[i].lost then 0.0 else run[i - 1].counter
  }

  function StampsOf(run: seq<Event>, i: nat): seq<real>
    requires i < |run|
  {
    Copies(run[i].now, Stamps(run[i].counter, LastCounter(run, i)))
  }

  /** Every later scrape read the file and still found scrape i less than fifteen minutes old. */
  predicate Survives(run: seq<Event>, i: nat)
    requires i < |run|
  {
    forall j | i < j < |run| :: !run[j].lost && IsRecent(run[i].now, run[j].now)
  }

  function Kept(run: seq<Event>, i: nat): seq<real>
    requires i < |run|
  {
    if Survives(run, i) then StampsOf(run, i) else []
  }

  function Surviving(run: seq<Event>, k: nat): seq<real>
    requires k <= |run|
  {
    if k == 0 then [] else Surviving(run, k - 1) + Kept(run, k - 1)
  }

  lemma {:induction false} RecentOfSum(first: seq<real>, second: seq<real>, now: real)
    ensures Recent(first + second, now) == Recent(first, now) + Recent(second, now)
  {
    if second == [] {
      assert first + second == first;
    } else {
      assert (first + second)[..|first + second| - 1] == first + second[..|second| - 1];
      RecentOfSum(first, second[..|second| - 1], now);
    }
  }

  lemma {:induction false} RecentCopies(stamp: real, n: nat, now: real)
    ensures Recent(Copies(stamp, n), now) == if IsRecent(stamp, now) then Copies(stamp, n) else []
  {
    if n > 0 {
      assert Copies(stamp, n)[..n - 1] == Copies(stamp, n - 1);
      RecentCopies(stamp, n - 1, now);
      assert Copies(stamp, n) == Copies(stamp, n - 1) + [stamp];
    }
  }

  lemma SurvivesLonger(run: seq<Event>, i: nat)
    requires i < |run| - 1
    ensures var event := run[|run| - 1];
      Survives(run, i) <==> Survives(run[..|run| - 1], i) && !event.lost && IsRecent(run[i].now, event.now)
  {
    var earlier := run[..|run| - 1];
    if Survives(run, i) {
      forall j | i < j < |earlier| ensures !earlier[j].lost && IsRecent(earlier[i].now, earlier[j].now) {
        assert earlier[j] == run[j];
      }
    }
    if Survives(earlier, i) {
      forall j | i < j < |earlier| ensures !run[j].lost && IsRecent(run[i].now, run[j].now) {
        assert earlier[j] == run[j];
      }
    }
  }

  /** What the last scrape keeps of the stamps of scrape i. */
  lemma KeptAfterOneMore(run: seq<Event>, i: nat)
    requires i < |run| - 1
    ensures var event := run[|run| - 1];
      Kept(run, i) == if event.lost then [] else Recent(Kept(run[..|run| - 1], i), event.now)
  {
    hide Survives, Recent, Copies, Stamps;
    var earlier, event := run[..|run| - 1], run[|run| - 1];
    SurvivesLonger(run, i);
    assert StampsOf(earlier, i) == StampsOf(run, i);
    RecentCopies(run[i].now, Stamps(run[i].counter, LastCounter(run, i)), event.now);
    NothingRecent(event.now);
  }

  lemma NothingRecent(now: real)
    ensures Recent([], now) == []
  {
  }

  /** What the last scrape keeps of the first k scrapes. */
  lemma {:induction false} SurvivingAfterOneMore(run: seq<Event>, k: nat)
    requires k < |run|
    ensures var event := run[|run| - 1];
      Surviving(run, k) == if event.lost then [] else Recent(Surviving(run[..|run| - 1], k), event.now)
  {
    hide Kept, Recent;
    NothingRecent(run[|run| - 1].now);
    if k > 0 {
      SurvivingAfterOneMore(run, k - 1);
      KeptAfterOneMore(run, k - 1);
      RecentOfSum(Surviving(run[..|run| - 1], k - 1), Kept(run[..|run| - 1], k - 1), run[|run| - 1].now);
    }
  }

  /** Whatever the clock does: after any run the file holds the last counter and, in order, the stamps of exactly the
      scrapes that every later scrape still found recent. */
  lemma {:induction false} StoredEvents(run: seq<Event>)
    requires run != []
    ensures After(run) == Some(Saved(run[|run| - 1].counter, Surviving(run, |run|)))
  {
    var earlier, event, last := run[..|run| - 1], run[|run| - 1], |run| - 1;
    SurvivingAfterOneMore(run, last);
    if earlier != [] {
      StoredEvents(earlier);
    }
    assert Surviving(run, |run|) == Surviving(run, last) + StampsOf(run, last);
  }

  // ---------------------------------------------------------- nondecreasing time

  /** The stamps of the first k scrapes, none forgotten. */
  function History(run: seq<Event>, k: nat): seq<real>
    requires k <= |run|
  {
    if k == 0 then [] else History(run, k - 1) + StampsOf(run, k - 1)
  }

  ghost predicate Steady(run: seq<Event>) {
    && (forall i, j | 0 <= i <= j < |run| :: run[i].now <= run[j].now)
    && (forall i | 0 <= i < |run| :: !run[i].lost)
  }

  lemma SurvivesTheLast(run: seq<Event>, i: nat)
    requires Steady(run) && i < |run|
    ensures Survives(run, i) <==> IsRecent(run[i].now, run[|run| - 1].now)
  {
    if Survives(run, i) && i < |run| - 1 {
      assert IsRecent(run[i].now, run[|run| - 1].now);
    }
    if IsRecent(run[i].now, run[|run| - 1].now) {
      forall j | i < j < |run| ensures !run[j].lost && IsRecent(run[i].now, run[j].now) {
        assert run[j].now <= run[|run| - 1].now;
      }
    }
  }

  lemma {:induction false} SurvivingIsRecent(run: seq<Event>, k: nat)
    requires Steady(run) && run != [] && k <= |run|
    ensures Surviving(run, k) == Recent(History(run, k), run[|run| - 1].now)
  {
    hide Survives, Recent, Copies, Stamps;
    NothingRecent(run[|run| - 1].now);
    if k > 0 {
      SurvivingIsRecent(run, k - 1);
      SurvivesTheLast(run, k - 1);
      RecentOfSum(History(run, k - 1), StampsOf(run, k - 1), run[|run| - 1].now);
      RecentCopies(run[k - 1].now, Stamps(run[k - 1].counter, LastCounter(run, k - 1)), run[|run| - 1].now);
    }
  }

  /** With a clock that never goes back, forgetting step by step equals filtering the whole history once. */
  lemma IncrementalEqualsFull(run: seq<Event>)
    requires Steady(run) && run != []
    ensures After(run).value.events == Recent(History(run, |run|), run[|run| - 1].now)
  {
    StoredEvents(run);
    SurvivingIsRecent(run, |run|);
  }

  /** Scrape i saw a whole number of new failures, at most CAP, and no restart. */
  predicate Ordinary(run: seq<Event>, i: nat)
    requires i < |run|
  {
    var increase := run[i].counter - LastCounter(run, i);
    0.0 <= increase <= 100.0 && increase == increase.Floor as real
  }

  lemma {:induction false} SurvivingIncrease(run: seq<Event>, start: nat, k: nat)
    requires Steady(run) && start <= k <= |run|
    requires forall i | 0 <= i < |run| :: Survives(run, i) <==> start <= i
    requires forall i | start <= i < |run| :: Ordinary(run, i)
    ensures |Surviving(run, k)| as real == CounterBefore(run, k) - CounterBefore(run, start)
  {
    if k == start {
      NothingSurvives(run, k);
    } else {
      SurvivingIncrease(run, start, k - 1);
      assert Survives(run, k - 1) && Ordinary(run, k - 1);
      assert LastCounter(run, k - 1) == CounterBefore(run, k - 1);
    }
  }

  lemma {:induction false} NothingSurvives(run: seq<Event>, k: nat)
    requires k <= |run| && forall i | 0 <= i < k :: !Survives(run, i)
    ensures Surviving(run, k) == []
  {
    if k > 0 {
      NothingSurvives(run, k - 1);
    }
  }

  function CounterBefore(run: seq<Event>, k: nat): real
    requires k <= |run|
  {
    if k == 0 then 0.0 else run[k - 1].counter
  }

  /** What the reported number means: the increase of the counter since the last scrape at least fifteen minutes ago,
      provided no scrape since then saw a restart or more than CAP failures at once. */
  lemma ReportedIsTheIncrease(run: seq<Event>, start: nat)
    requires Steady(run) && run != [] && start < |run|
    requires forall i | 0 <= i < start :: run[|run| - 1].now - run[i].now >= 900.0
    requires forall i | start <= i < |run| :: run[|run| - 1].now - run[i].now < 900.0 && Ordinary(run, i)
    ensures |After(run).value.events| as real == run[|run| - 1].counter - CounterBefore(run, start)
  {
    StoredEvents(run);
    forall i | 0 <= i < |run| ensures Survives(run, i) <==> start <= i {
      SurvivesTheLast(run, i);
    }
    SurvivingIncrease(run, start, |run|);
  }
}
