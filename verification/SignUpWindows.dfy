/** What the limit promises over every run of requests with a clock that never goes back. */
module SignUpWindows {
  import opened Options
  import opened SignUps

  datatype Call = Call(address: string, at: Time)

  // The requests of a run and their answers, the last one outermost.
  datatype History = Start | Then(before: History, last: Call, allowed: bool)

  // A run up to a time.
  predicate Ordered(h: History, until: Time) {
    h.Then? ==> h.last.at <= until && Ordered(h.before, h.last.at)
  }

  function LogAfter(h: History): Log {
    if h.Start? then Log([], map[]) else Allowed(LogAfter(h.before), h.last.address, h.last.at)
  }

  // Each request is answered as the log then says.
  predicate Answered(h: History) {
    h.Then? ==> Answered(h.before) && h.allowed == Admits(LogAfter(h.before), h.last.address, h.last.at)
  }

  predicate IsFrom(call: Call, from: Option<string>) { from.None? || from.value == call.address }

  // How many went through after one time and until another, in all or from one address.
  function Went(h: History, from: Option<string>, after: Time, until: Time): nat {
    if h.Start? then 0
    else
      var counts := h.allowed && after < h.last.at <= until && IsFrom(h.last, from);
      Went(h.before, from, after, until) + if counts then 1 else 0
  }

  lemma {:induction false} WentWithin(h: History, from: Option<string>, after: Time, until: Time, early: Time, late: Time)
    requires Ordered(h, late) && early <= after
    ensures Went(h, from, after, until) <= Went(h, from, early, late)
  {
    if h.Then? {
      OrderedLater(h.before, h.last.at, late);
      WentWithin(h.before, from, after, until, early, late);
    }
  }

  lemma OrderedLater(h: History, until: Time, late: Time)
    requires Ordered(h, until) && until <= late
    ensures Ordered(h, late)
  {
  }

  /******* What the log remembers *******/

  lemma {:induction false} AfterPlus(a: seq<Time>, b: seq<Time>, cutoff: Time)
    ensures After(a + b, cutoff) == After(a, cutoff) + After(b, cutoff)
  {
    if b == [] {
      assert a + b == a;
    } else {
      AfterPlus(a, b[..|b| - 1], cutoff);
      assert (a + b)[..|a + b| - 1] == a + b[..|b| - 1];
    }
  }

  lemma {:induction false} AfterAfter(times: seq<Time>, early: Time, late: Time)
    requires early <= late
    ensures After(After(times, early), late) == After(times, late)
  {
    if times != [] {
      var n := |times| - 1;
      AfterAfter(times[..n], early, late);
      AfterPlus(After(times[..n], early), if times[n] > early then [times[n]] else [], late);
    }
  }

  lemma AfterOneMore(times: seq<Time>, at: Time, cutoff: Time)
    ensures After(times + [at], cutoff) == After(times, cutoff) + if at > cutoff then [at] else []
  {
    assert (times + [at])[..|times|] == times;
  }

  lemma KeptRemembers(times: seq<Time>, at: Time, cutoff: Time)
    requires cutoff >= at - WINDOW
    ensures |After(After(times, at - WINDOW), cutoff)| == |After(times, cutoff)|
    ensures |After(After(times, at - WINDOW) + [at], cutoff)| == |After(times, cutoff)| + if at > cutoff then 1 else 0
  {
    AfterAfter(times, at - WINDOW, cutoff);
    AfterOneMore(After(times, at - WINDOW), at, cutoff);
  }

  lemma RecentRemembers(log: Log, call: Call, cutoff: Time)
    requires cutoff >= call.at - WINDOW
    ensures |After(Allowed(log, call.address, call.at).recent, cutoff)| ==
      |After(log.recent, cutoff)| + if Admits(log, call.address, call.at) && call.at > cutoff then 1 else 0
  {
    KeptRemembers(log.recent, call.at, cutoff);
  }

  lemma ListOfAllowed(log: Log, call: Call, address: string)
    ensures var kept := After(ListOf(log.perAddress, address), call.at - WINDOW);
      ListOf(Allowed(log, call.address, call.at).perAddress, address) ==
        if Admits(log, call.address, call.at) && call.address == address then kept + [call.at] else kept
  {
    ListExpired(log, address, call.at - WINDOW);
  }

  lemma ListRemembers(log: Log, call: Call, address: string, cutoff: Time)
    requires cutoff >= call.at - WINDOW
    ensures |After(ListOf(Allowed(log, call.address, call.at).perAddress, address), cutoff)| ==
      |After(ListOf(log.perAddress, address), cutoff)|
      + if Admits(log, call.address, call.at) && call.address == address && call.at > cutoff then 1 else 0
  {
    ListOfAllowed(log, call, address);
    KeptRemembers(ListOf(log.perAddress, address), call.at, cutoff);
  }

  // The log forgets only what left the window: later, it tells as much as the whole past would.
  lemma {:induction false} LogRemembers(h: History, address: string, cutoff: Time, until: Time)
    requires Ordered(h, until) && Answered(h) && cutoff >= until - WINDOW
    ensures |After(LogAfter(h).recent, cutoff)| == Went(h, None, cutoff, until)
    ensures |After(ListOf(LogAfter(h).perAddress, address), cutoff)| == Went(h, Some(address), cutoff, until)
  {
    if h.Then? {
      OrderedLater(h.before, h.last.at, until);
      LogRemembers(h.before, address, cutoff, until);
      RecentRemembers(LogAfter(h.before), h.last, cutoff);
      ListRemembers(LogAfter(h.before), h.last, address, cutoff);
    }
  }

  // Fewer went through in the hour before a request than may in one, in all and from its address.
  predicate HasRoom(h: History, call: Call) {
    Went(h, None, call.at - WINDOW, call.at) < IN_ALL && Went(h, Some(call.address), call.at - WINDOW, call.at) < PER_ADDRESS
  }

  lemma AdmitsByCounts(h: History, call: Call, log: Log)
    requires |After(log.recent, call.at - WINDOW)| == Went(h, None, call.at - WINDOW, call.at)
    requires |After(ListOf(log.perAddress, call.address), call.at - WINDOW)| == Went(h, Some(call.address), call.at - WINDOW, call.at)
    ensures HasRoom(h, call) == Admits(log, call.address, call.at)
  {
  }

  lemma RoomIsAdmitted(h: History, call: Call)
    requires Ordered(h, call.at) && Answered(h)
    ensures HasRoom(h, call) == Admits(LogAfter(h), call.address, call.at)
  {
    assert |After(LogAfter(h).recent, call.at - WINDOW)| == Went(h, None, call.at - WINDOW, call.at)
      && |After(ListOf(LogAfter(h).perAddress, call.address), call.at - WINDOW)| == Went(h, Some(call.address), call.at - WINDOW, call.at) by {
      LogRemembers(h, call.address, call.at - WINDOW, call.at);
    }
    AdmitsByCounts(h, call, LogAfter(h));
  }

  // A run up to a time, judged by what went through and not by the log.
  predicate Fair(h: History, at: Time) {
    h.Then? ==> h.last.at <= at && Fair(h.before, h.last.at) && h.allowed == HasRoom(h.before, h.last)
  }

  lemma {:induction false} FairIsAnswered(h: History, at: Time)
    ensures Fair(h, at) <==> Ordered(h, at) && Answered(h)
  {
    if h.Then? {
      FairIsAnswered(h.before, h.last.at);
      if Fair(h.before, h.last.at) { RoomIsAdmitted(h.before, h.last); }
    }
  }

  /** A request is refused exactly when its hour is full: as many went through in all, or from its
      address, as may in one. */
  lemma RefusedWhenFull(h: History)
    requires h.Then? && Ordered(h, h.last.at) && Answered(h)
    ensures h.allowed <==>
      Went(h.before, None, h.last.at - WINDOW, h.last.at) < IN_ALL
      && Went(h.before, Some(h.last.address), h.last.at - WINDOW, h.last.at) < PER_ADDRESS
  {
    assert HasRoom(h.before, h.last) == h.allowed by { RoomIsAdmitted(h.before, h.last); }
  }

  /******* Every window *******/

  // The hour of a later end holds no more, up to a time, than the hour that ends then.
  lemma FairWithin(h: History, at: Time, from: Option<string>, end: Time)
    requires Fair(h, at) && at <= end
    ensures Went(h, from, end - WINDOW, end) <= Went(h, from, at - WINDOW, at)
  {
    assert Ordered(h, at) by { FairIsAnswered(h, at); }
    WentWithin(h, from, end - WINDOW, end, at - WINDOW, at);
  }

  lemma {:induction false} EachLimited(h: History, from: Option<string>, limit: nat, until: Time, end: Time)
    requires Fair(h, until) && limit == if from.None? then IN_ALL else PER_ADDRESS
    ensures Went(h, from, end - WINDOW, end) <= limit
  {
    if h.Then? {
      EachLimited(h.before, from, limit, h.last.at, end);
      if h.allowed && end - WINDOW < h.last.at <= end {
        FairWithin(h.before, h.last.at, from, end);
      }
    }
  }

  /** In every hour of every run at most fifty sign-ups go through, and five from one address. An
      hour has one of its ends: the other is an hour old. */
  lemma WindowsLimited(h: History, until: Time, address: string, end: Time)
    requires Ordered(h, until) && Answered(h)
    ensures Went(h, None, end - 3_600_000_000_000, end) <= 50
    ensures Went(h, Some(address), end - 3_600_000_000_000, end) <= 5
  {
    FairIsAnswered(h, until);
    EachLimited(h, None, IN_ALL, until, end);
    EachLimited(h, Some(address), PER_ADDRESS, until, end);
  }

  /******* The hour with both its ends *******/

  function InClosedHour(h: History, from: Option<string>, end: Time): nat { Went(h, from, end - WINDOW - 1, end) }

  // Whoever was let through found fewer than the limit an hour before or since.
  predicate FoundFewer(h: History, from: Option<string>, limit: nat) {
    h.Start? || (FoundFewer(h.before, from, limit) && (h.allowed && IsFrom(h.last, from) ==> InClosedHour(h.before, from, h.last.at) < limit))
  }

  ghost predicate ClosedHoursWithin(h: History, from: Option<string>, limit: nat) {
    forall end :: InClosedHour(h, from, end) <= limit
  }

  lemma ClosedHoursGrow(h: History, from: Option<string>, limit: nat)
    requires h.Then? && Ordered(h, h.last.at) && ClosedHoursWithin(h.before, from, limit)
    requires h.allowed && IsFrom(h.last, from) ==> InClosedHour(h.before, from, h.last.at) < limit
    ensures ClosedHoursWithin(h, from, limit)
  {
    forall end ensures InClosedHour(h, from, end) <= limit {
      assert InClosedHour(h.before, from, end) <= limit;
      if end - WINDOW <= h.last.at <= end {
        WentWithin(h.before, from, end - WINDOW - 1, end, h.last.at - WINDOW - 1, h.last.at);
      }
    }
  }

  lemma ClosedHoursShrink(h: History, from: Option<string>, limit: nat)
    requires h.Then? && ClosedHoursWithin(h, from, limit)
    ensures ClosedHoursWithin(h.before, from, limit)
    ensures h.allowed && IsFrom(h.last, from) ==> InClosedHour(h.before, from, h.last.at) < limit
  {
    forall end ensures InClosedHour(h.before, from, end) <= limit { assert InClosedHour(h, from, end) <= limit; }
    assert InClosedHour(h, from, h.last.at) <= limit;
  }

  /** The hours of a run, with both their ends, stay within a limit if and only if everybody let
      through found fewer than the limit an hour before or since; who finds as many is one too many. */
  lemma {:induction false} ClosedHourExact(h: History, until: Time, from: Option<string>, limit: nat)
    requires Ordered(h, until)
    ensures ClosedHoursWithin(h, from, limit) <==> FoundFewer(h, from, limit)
    ensures h.Then? && h.allowed && IsFrom(h.last, from) ==>
      (InClosedHour(h, from, h.last.at) > limit <==> InClosedHour(h.before, from, h.last.at) >= limit)
  {
    if h.Then? {
      ClosedHourExact(h.before, h.last.at, from, limit);
      if ClosedHoursWithin(h, from, limit) { ClosedHoursShrink(h, from, limit); }
      if FoundFewer(h, from, limit) { ClosedHoursGrow(h, from, limit); }
    }
  }

  lemma {:induction false} WentInTwo(h: History, from: Option<string>, early: Time, middle: Time, late: Time)
    requires early <= middle <= late
    ensures Went(h, from, early, late) == Went(h, from, early, middle) + Went(h, from, middle, late)
  {
    if h.Then? { WentInTwo(h.before, from, early, middle, late); }
  }

  /** How far over: an hour with both its ends holds what an hour with one does and what went through
      at the very moment an hour before, and so never more than twice the limit. */
  lemma ClosedHourIs(h: History, until: Time, address: string, end: Time)
    requires Ordered(h, until) && Answered(h)
    ensures InClosedHour(h, None, end) == Went(h, None, end - WINDOW, end) + Went(h, None, end - WINDOW - 1, end - WINDOW)
    ensures InClosedHour(h, None, end) <= 2 * IN_ALL
    ensures InClosedHour(h, Some(address), end) <= 2 * PER_ADDRESS
  {
    WindowsLimited(h, until, address, end);
    WindowsLimited(h, until, address, end - WINDOW);
    WentInTwo(h, None, end - WINDOW - 1, end - WINDOW, end);
    WentInTwo(h, Some(address), end - WINDOW - 1, end - WINDOW, end);
    WentInTwo(h, None, end - WINDOW - WINDOW, end - WINDOW - 1, end - WINDOW);
    WentInTwo(h, Some(address), end - WINDOW - WINDOW, end - WINDOW - 1, end - WINDOW);
  }

  // Requests at one time, each from an address of its own or all from one.
  function Sender(spread: bool, k: nat): string { if spread then seq(k, _ => 'a') else "" }

  function Burst(h: History, spread: bool, n: nat, at: Time): History {
    if n == 0 then h else Then(Burst(h, spread, n - 1, at), Call(Sender(spread, n - 1), at), true)
  }

  function SentBy(spread: bool, n: nat, address: string): nat {
    if n == 0 then 0 else SentBy(spread, n - 1, address) + if Sender(spread, n - 1) == address then 1 else 0
  }

  lemma {:induction false} SpreadOnce(n: nat, address: string)
    ensures SentBy(true, n, address) <= if |address| < n then 1 else 0
  {
    if n > 0 {
      SpreadOnce(n - 1, address);
      assert |Sender(true, n - 1)| == n - 1;
    }
  }

  lemma {:induction false} SentAtMost(spread: bool, n: nat, address: string)
    ensures SentBy(spread, n, address) <= n && (!spread ==> SentBy(spread, n, "") == n)
  {
    if n > 0 { SentAtMost(spread, n - 1, address); }
  }

  lemma SenderHasRoom(spread: bool, n: nat)
    requires n < if spread then IN_ALL else PER_ADDRESS
    ensures SentBy(spread, n, Sender(spread, n)) < PER_ADDRESS
  {
    assert |Sender(true, n)| == n;
    SpreadOnce(n, Sender(true, n));
    SentAtMost(spread, n, Sender(spread, n));
  }

  lemma {:induction false} BurstWent(h: History, spread: bool, n: nat, at: Time, address: string, after: Time, until: Time)
    requires after < at <= until
    ensures Went(Burst(h, spread, n, at), None, after, until) == Went(h, None, after, until) + n
    ensures Went(Burst(h, spread, n, at), Some(address), after, until) == Went(h, Some(address), after, until) + SentBy(spread, n, address)
  {
    if n > 0 { BurstWent(h, spread, n - 1, at, address, after, until); }
  }

  ghost predicate NoneWent(h: History, after: Time, until: Time) {
    Went(h, None, after, until) == 0 && forall address :: Went(h, Some(address), after, until) == 0
  }

  // An hour in which nothing went through takes a burst up to the limits.
  lemma {:induction false} BurstIsFair(h: History, spread: bool, n: nat, at: Time)
    requires Fair(h, at) && NoneWent(h, at - WINDOW, at) && n <= if spread then IN_ALL else PER_ADDRESS
    ensures Fair(Burst(h, spread, n, at), at)
  {
    if n > 0 {
      BurstIsFair(h, spread, n - 1, at);
      BurstWent(h, spread, n - 1, at, Sender(spread, n - 1), at - WINDOW, at);
      SenderHasRoom(spread, n - 1);
    }
  }

  lemma {:induction false} NoneLater(h: History, at: Time, from: Option<string>, after: Time, until: Time)
    requires Fair(h, at) && at <= after
    ensures Went(h, from, after, until) == 0
  {
    if h.Then? { NoneLater(h.before, h.last.at, from, after, until); }
  }

  // A burst, and an hour later another.
  function TwoBursts(spread: bool, n: nat): History { Burst(Burst(Start, spread, n, 0), spread, n, WINDOW) }

  lemma TwoBurstsRun(spread: bool, n: nat)
    requires n <= if spread then IN_ALL else PER_ADDRESS
    ensures Fair(TwoBursts(spread, n), WINDOW)
  {
    BurstIsFair(Start, spread, n, 0);
    var first := Burst(Start, spread, n, 0);
    NoneLater(first, 0, None, 0, WINDOW);
    forall address ensures Went(first, Some(address), 0, WINDOW) == 0 { NoneLater(first, 0, Some(address), 0, WINDOW); }
    FairLater(first, 0, WINDOW);
    BurstIsFair(first, spread, n, WINDOW);
  }

  lemma FairLater(h: History, at: Time, later: Time)
    requires Fair(h, at) && at <= later
    ensures Fair(h, later)
  {
  }

  /** Runs whose last hour, with both its ends, holds twice the limit: all of it an hour ago, and
      all of it again now; over all addresses, and from one. */
  lemma ClosedHourTwice(spread: bool, n: nat)
    requires n == if spread then IN_ALL else PER_ADDRESS
    ensures var h := TwoBursts(spread, n);
      && Ordered(h, WINDOW) && Answered(h) && InClosedHour(h, None, WINDOW) == 2 * n
      && (!spread ==> InClosedHour(h, Some(""), WINDOW) == 2 * n)
  {
    TwoBurstsRun(spread, n);
    FairIsAnswered(TwoBursts(spread, n), WINDOW);
    BurstWent(Start, spread, n, 0, "", -1, WINDOW);
    BurstWent(Burst(Start, spread, n, 0), spread, n, WINDOW, "", -1, WINDOW);
    SentAtMost(spread, n, "");
  }

  /******* The list of all and the lists of each *******/

  // How often a time stands in the lists of some addresses.
  ghost function CountIn(perAddress: map<string, seq<Time>>, keys: set<string>, at: Time): nat
    requires keys <= perAddress.Keys
  {
    if keys == {} then 0
    else
      var a :| a in keys;
      multiset(perAddress[a])[at] + CountIn(perAddress, keys - {a}, at)
  }

  lemma {:induction false} CountWithout(perAddress: map<string, seq<Time>>, keys: set<string>, a: string, at: Time)
    requires keys <= perAddress.Keys && a in keys
    ensures CountIn(perAddress, keys, at) == multiset(perAddress[a])[at] + CountIn(perAddress, keys - {a}, at)
    decreases |keys|
  {
    var first :| first in keys && CountIn(perAddress, keys, at) == multiset(perAddress[first])[at] + CountIn(perAddress, keys - {first}, at);
    if first != a {
      CountWithout(perAddress, keys - {first}, a, at);
      CountWithout(perAddress, keys - {a}, first, at);
      assert keys - {first} - {a} == keys - {a} - {first};
    }
  }

  // Every time let through stands as often in the list of all as in those of the addresses.
  ghost predicate Balanced(log: Log) {
    forall at :: multiset(log.recent)[at] == CountIn(log.perAddress, log.perAddress.Keys, at)
  }

  lemma {:induction false} AfterCounts(times: seq<Time>, cutoff: Time, at: Time)
    ensures multiset(After(times, cutoff))[at] == if at > cutoff then multiset(times)[at] else 0
  {
    if times != [] {
      var n := |times| - 1;
      AfterCounts(times[..n], cutoff, at);
      assert times == times[..n] + [times[n]];
    }
  }

  lemma CountAmong(after: map<string, seq<Time>>, keys: set<string>, a: string, at: Time)
    requires a in keys
    ensures CountIn(after, keys * after.Keys, at) == CountIn(after, (keys - {a}) * after.Keys, at) + multiset(ListOf(after, a))[at]
  {
    if a in after {
      CountWithout(after, keys * after.Keys, a, at);
      assert keys * after.Keys - {a} == (keys - {a}) * after.Keys;
    } else {
      assert keys * after.Keys == (keys - {a}) * after.Keys;
    }
  }

  lemma {:induction false} ExpiredCounts(before: map<string, seq<Time>>, after: map<string, seq<Time>>, keys: set<string>, cutoff: Time, at: Time)
    requires keys <= before.Keys
    requires forall a :: a in keys ==> ListOf(after, a) == After(before[a], cutoff)
    ensures CountIn(after, keys * after.Keys, at) == if at > cutoff then CountIn(before, keys, at) else 0
    decreases |keys|
  {
    if keys != {} {
      var a :| a in keys;
      CountWithout(before, keys, a, at);
      ExpiredCounts(before, after, keys - {a}, cutoff, at);
      AfterCounts(before[a], cutoff, at);
      CountAmong(after, keys, a, at);
    } else {
      assert keys * after.Keys == {};
    }
  }

  lemma {:induction false} SameCounts(one: map<string, seq<Time>>, other: map<string, seq<Time>>, keys: set<string>, at: Time)
    requires keys <= one.Keys && keys <= other.Keys && forall a :: a in keys ==> one[a] == other[a]
    ensures CountIn(one, keys, at) == CountIn(other, keys, at)
    decreases |keys|
  {
    if keys != {} {
      var a :| a in keys;
      CountWithout(one, keys, a, at);
      CountWithout(other, keys, a, at);
      SameCounts(one, other, keys - {a}, at);
    }
  }

  lemma ExpiredBalanced(log: Log, cutoff: Time)
    requires Balanced(log)
    ensures Balanced(Expired(log, cutoff))
  {
    var kept := Expired(log, cutoff);
    forall at ensures multiset(kept.recent)[at] == CountIn(kept.perAddress, kept.perAddress.Keys, at) {
      AfterCounts(log.recent, cutoff, at);
      forall a | a in log.perAddress ensures ListOf(kept.perAddress, a) == After(log.perAddress[a], cutoff) { ListExpired(log, a, cutoff); }
      ExpiredCounts(log.perAddress, kept.perAddress, log.perAddress.Keys, cutoff, at);
      assert log.perAddress.Keys * kept.perAddress.Keys == kept.perAddress.Keys;
    }
  }

  lemma CountedBalanced(log: Log, address: string, now: Time)
    requires Balanced(log)
    ensures Balanced(Counted(log, address, now))
  {
    var more := Counted(log, address, now);
    var rest := log.perAddress.Keys - {address};
    forall at ensures multiset(more.recent)[at] == CountIn(more.perAddress, more.perAddress.Keys, at) {
      assert multiset(log.recent)[at] == CountIn(log.perAddress, log.perAddress.Keys, at);
      CountWithout(more.perAddress, more.perAddress.Keys, address, at);
      assert more.perAddress.Keys - {address} == rest;
      SameCounts(log.perAddress, more.perAddress, rest, at);
      if address in log.perAddress {
        CountWithout(log.perAddress, log.perAddress.Keys, address, at);
      } else {
        assert rest == log.perAddress.Keys;
      }
    }
  }

  lemma AllowedBalanced(log: Log, address: string, now: Time)
    requires Balanced(log)
    ensures Balanced(Allowed(log, address, now))
  {
    ExpiredBalanced(log, now - WINDOW);
    if Admits(log, address, now) { CountedBalanced(Expired(log, now - WINDOW), address, now); }
  }

  /** The list of all recent sign-ups holds each time as often as the addresses' lists together. */
  lemma {:induction false} ListsAgree(h: History)
    ensures Balanced(LogAfter(h))
  {
    if h.Then? {
      ListsAgree(h.before);
      AllowedBalanced(LogAfter(h.before), h.last.address, h.last.at);
    }
  }
}
